/** The dashboard page (`DashboardPage`): a role-dependent menu, the selected entry, and
    the one content panel the selection shows. */
module DashboardPage {
  import opened JsValues
  import opened Identity

  datatype MenuValue = Blogs | Users | MyBlogs

  datatype MenuOption = MenuOption(text: string, value: MenuValue)

  /** `menuOptions`: administrators manage users, everyone else their own posts. */
  function MenuOptions(role: Role): (menu: seq<MenuOption>)
    ensures |menu| == 2 && menu[0].value == Blogs
    ensures (exists k :: 0 <= k < |menu| && menu[k].value == Users) <==> role == ADMIN
    ensures (exists k :: 0 <= k < |menu| && menu[k].value == MyBlogs) <==> role != ADMIN
  {
    var menu :=
      if role == ADMIN then [MenuOption("Blogs", Blogs), MenuOption("Users", Users)]
      else [MenuOption("All Blogs", Blogs), MenuOption("My Blogs", MyBlogs)];
    assert menu[1].value == if role == ADMIN then Users else MyBlogs;
    menu
  }

  /** The content panels. */
  datatype Panel = PostsPanel(myBlogsOnly: bool) | UsersPanel

  /** The three conditional children of the content area, in order. */
  function Panels(selected: MenuValue): (panels: seq<Panel>)
    ensures |panels| == 1
    ensures panels[0] == PostsPanel(false) <==> selected == Blogs
    ensures panels[0] == UsersPanel <==> selected == Users
    ensures panels[0] == PostsPanel(true) <==> selected == MyBlogs
  {
    (if selected == Blogs then [PostsPanel(false)] else [])
    + (if selected == Users then [UsersPanel] else [])
    + (if selected == MyBlogs then [PostsPanel(true)] else [])
  }

  /** What the page renders: a placeholder until the store holds an identity, then the
      menu for that identity's role and the selected panel. */
  datatype Page = Placeholder | Dashboard(menu: seq<MenuOption>, selected: MenuValue, panels: seq<Panel>)

  function Render(user: Option<User>, selected: MenuValue): (page: Page)
    ensures page.Placeholder? <==> user.None?
    ensures page.Dashboard? ==> page.menu == MenuOptions(user.value.role) && page.panels == Panels(selected)
  {
    match user
    case None => Placeholder
    case Some(u) => Dashboard(MenuOptions(u.role), selected, Panels(selected))
  }

  class DashboardState {
    var selected: MenuValue

    constructor ()
      ensures selected == Blogs
    {
      selected := Blogs;
    }

    /** A click on the `index`-th menu button of the menu the page shows for `role`. A
        non-administrator's clicks never select the users panel. */
    method Click(role: Role, index: nat)
      requires index < |MenuOptions(role)|
      modifies this
      ensures selected == MenuOptions(role)[index].value
      ensures role != ADMIN ==> selected != Users
    {
      selected := MenuOptions(role)[index].value;
    }
  }
}

/** The home page (`Home`): waits for the session store, then sends the browser on. */
module HomePage {
  import opened JsValues
  import opened Identity

  datatype HomeView = HomeView(text: string, nav: Nav)

  /** The effect and the rendered text, from the store's `loading` and `user`. */
  function Home(loading: bool, user: Option<User>): (v: HomeView)
    ensures v.nav == Stay <==> loading
    ensures v.text == (if loading then "Loading..." else "Redirecting...")
    ensures !loading ==> v.nav == Push(if user.Some? then "/dashboard" else "/login")
  {
    if loading then HomeView("Loading...", Stay)
    else if user.Some? then HomeView("Redirecting...", Push("/dashboard"))
    else HomeView("Redirecting...", Push("/login"))
  }
}
