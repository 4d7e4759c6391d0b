/** The users table controller (`AllUsersTable`): the admin's cached list of accounts,
    fetched once on mount, with delete as its only mutation and the render precedence
    loading / error / empty / table. */
module AllUsers {
  import opened JsValues
  import opened Identity
  import ListCache

  function UserId(u: User): string {
    u.id
  }

  const UsersUrl: string := "/api/user/getAllUsers"

  function DeleteUrl(id: string): string {
    "/api/user/delete/" + id
  }

  /** The body of a successful `GET /api/user/getAllUsers`. */
  datatype UsersBody = UsersBody(message: string, count: int, users: seq<User>)

  class AllUsersTable {
    var users: seq<User>
    var loading: bool
    var error: Option<string>
    /** Whether the mount effect (no dependencies) has run. */
    var fetched: bool

    constructor ()
      ensures users == [] && loading && error == None && !fetched
    {
      users := [];
      loading := true;
      error := None;
      fetched := false;
    }

    /** The fetch effect has no dependencies: it starts a fetch on the first render only. */
    method Effect() returns (url: Option<string>)
      modifies this`loading, this`fetched
      ensures url.Some? <==> !old(fetched)
      ensures url.Some? ==> url.value == UsersUrl && loading
      ensures url.None? ==> loading == old(loading)
      ensures fetched
    {
      if !fetched {
        var u := BeginFetch();
        url := Some(u);
      } else {
        url := None;
      }
      fetched := true;
    }

    /** `fetchUsers` up to its `await`. */
    method BeginFetch() returns (url: string)
      modifies this`loading
      ensures loading && url == UsersUrl
    {
      loading := true;
      url := UsersUrl;
    }

    /** `fetchUsers` after its `await`: the response's `users` field replaces the cache, or
        the server's message (`??` "Failed to fetch users") becomes the error. A success
        does not clear an earlier error. `loading` ends false. */
    method SettleFetch(outcome: Outcome<UsersBody, Option<string>>)
      modifies this`users, this`error, this`loading
      ensures !loading
      ensures outcome.Ok? ==> users == outcome.value.users && error == old(error)
      ensures outcome.Err? ==> users == old(users) && error == Some(Coalesce(outcome.error, "Failed to fetch users"))
    {
      match outcome {
        case Ok(body) =>
          users := body.users;
        case Err(message) =>
          error := Some(Coalesce(message, "Failed to fetch users"));
      }
      loading := false;
    }

    /** `handleDelete(id)`: a declined confirmation sends nothing and changes nothing; a
        successful delete drops every user with that id; a failed one leaves the cache. */
    method HandleDelete(id: string, confirmed: bool, outcome: Outcome<(), Option<string>>)
      returns (request: Option<string>, toast: Toast)
      modifies this`users
      ensures request.Some? <==> confirmed
      ensures request.Some? ==> request.value == DeleteUrl(id)
      ensures !confirmed ==> users == old(users) && toast == Quiet
      ensures confirmed && outcome.Ok? ==>
        users == ListCache.Without(old(users), UserId, id) && toast == Success("User deleted successfully")
      ensures confirmed && outcome.Err? ==>
        users == old(users) && toast == Failure(OrElse(outcome.error, "Failed to delete user"))
    {
      if !confirmed {
        request, toast := None, Quiet;
        return;
      }
      request := Some(DeleteUrl(id));
      match outcome {
        case Ok(_) =>
          users := ListCache.Without(users, UserId, id);
          toast := Success("User deleted successfully");
        case Err(message) =>
          toast := Failure(OrElse(message, "Failed to delete user"));
      }
    }

    /** What the widget renders now: the spinner while loading, then a truthy error,
        then the empty notice, then the table of every cached user. */
    function View(): (v: ListCache.Screen<User>)
      reads this
      ensures v.Spinner? <==> loading
      ensures v.Failed? <==> !loading && Truthy(error)
      ensures v.NothingFound? <==> !loading && !Truthy(error) && users == []
      ensures v.Listed? ==> v.rows == users
    {
      ListCache.ScreenFor(loading, error, users)
    }
  }
}
