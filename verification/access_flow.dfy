/** How the two authorization phases compose along a navigation: the edge guard decides
    from the token's presence alone, then the session store resolves the identity and,
    from the dashboard area, compensates for a token the server no longer accepts; the
    home page sends the browser on once the store has resolved. */
module AccessFlow {
  import opened JsValues
  import opened Identity
  import Middleware
  import AuthSession
  import HomePage
  import LoginForm

  /** A request for a dashboard page carrying a token the server rejects: the edge guard
      lets it through (written or intended), and the store's first resolution clears the
      identity and sends the browser to the login page. */
  method StaleTokenOnDashboard(pathname: string, token: string, rejection: Option<string>)
    returns (edge: Middleware.Decision, nav: Nav, user: Option<User>)
    requires Middleware.StartsWith(pathname, "/dashboard") && token != ""
    ensures edge == Middleware.Next && Middleware.DecideIntended(pathname, Some(token)) == edge
    ensures nav == Push("/login") && user == None
  {
    Middleware.SlashPathsAlwaysPass(pathname, Some(token));
    edge := Middleware.Decide(pathname, Some(token));
    var store := new AuthSession.SessionStore();
    var ran;
    ran, nav := store.Render(pathname, Err(rejection));
    user := store.user;
  }

  /** As written, the guard also lets a token-less dashboard request through; the store is
      what sends it to the login page. */
  method NoTokenOnDashboard(pathname: string, rejection: Option<string>)
    returns (edge: Middleware.Decision, nav: Nav)
    requires Middleware.StartsWith(pathname, "/dashboard")
    ensures edge == Middleware.Next
    ensures Middleware.DecideIntended(pathname, None) == Middleware.Redirect("/login")
    ensures nav == Push("/login")
  {
    Middleware.SlashPathsAlwaysPass(pathname, None);
    Middleware.IntendedGuardsDashboard(pathname, None);
    edge := Middleware.Decide(pathname, None);
    var store := new AuthSession.SessionStore();
    var ran;
    ran, nav := store.Render(pathname, Err(rejection));
  }

  /** At the root the store does not navigate after a failed resolution; the home page,
      now that loading is over, sends the anonymous visitor to the login page. A visitor
      the store resolves goes to the dashboard. */
  method RootAfterResolution(outcome: Outcome<AuthSession.MeBody, Option<string>>)
    returns (storeNav: Nav, home: HomePage.HomeView)
    ensures storeNav == Stay
    ensures home.text == "Redirecting..."
    ensures outcome.Err? ==> home.nav == Push("/login")
    ensures outcome.Ok? ==> home.nav == Push(if outcome.value.user.Some? then "/dashboard" else "/login")
  {
    var store := new AuthSession.SessionStore();
    assert HomePage.Home(store.loading, store.user).nav == Stay;
    var ran;
    ran, storeNav := store.Render("/", outcome);
    home := HomePage.Home(store.loading, store.user);
  }

  /** A successful login hands the identity to the store and loads the dashboard. The load
      is a full page load, which remounts the store and resolves the session afresh; that
      remount is not part of this model. */
  method LoginThenDashboard(email: string, password: string, body: LoginForm.LoginBody)
    returns (request: LoginForm.Credentials, nav: Nav, user: Option<User>)
    ensures request == LoginForm.Credentials(email, password)
    ensures user == Some(body.user)
    ensures nav == Load("/dashboard")
  {
    var store := new AuthSession.SessionStore();
    var form := new LoginForm.LoginFormState();
    request := form.BeginSubmit(Some(email), Some(password));
    var toast;
    nav, toast := form.SettleSubmit(store, Ok(body));
    user := store.user;
  }
}
