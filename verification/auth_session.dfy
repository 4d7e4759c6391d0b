/** The session store (`AuthProvider`): the one process-wide holder of "who is logged in".
    It resolves the identity against `GET /api/auth/me` on mount and whenever the pathname
    changes, accepts an identity from the login form, and logs out. Remote calls are
    outcome parameters; navigation is returned. */
module AuthSession {
  import opened JsValues
  import opened Identity

  /** The body of a successful `GET /api/auth/me`; `user` is whatever that field held. */
  datatype MeBody = MeBody(user: Option<User>)

  const LoginPath: string := "/login"
  const DashboardPrefix: string := "/dashboard"

  /** The navigation a failed resolution issues: back to the login page, but only from
      the protected dashboard area. */
  function FailureNav(pathname: string): (nav: Nav)
    ensures nav.Push? <==> DashboardPrefix <= pathname
    ensures nav.Push? ==> nav.path == LoginPath
    ensures !nav.Push? ==> nav == Stay
  {
    if DashboardPrefix <= pathname then Push(LoginPath) else Stay
  }

  /** The resolve effect depends on the pathname: it runs on mount (nothing resolved yet)
      and again whenever the pathname differs from the one it last ran for. */
  predicate EffectRuns(resolvedFor: Option<string>, pathname: string) {
    resolvedFor != Some(pathname)
  }

  class SessionStore {
    var user: Option<User>
    var loading: bool
    /** The pathname the resolve effect last ran for (None before mount). */
    var resolvedFor: Option<string>

    constructor ()
      ensures user == None && loading && resolvedFor == None
    {
      user := None;
      loading := true;
      resolvedFor := None;
    }

    /** `fetchUser`: on success the identity is the response's `user` field and nothing
        navigates; on failure the identity is cleared and the dashboard area is sent to
        the login page. Either way `loading` ends false. */
    method Resolve(pathname: string, outcome: Outcome<MeBody, Option<string>>) returns (nav: Nav)
      modifies this`user, this`loading
      ensures !loading
      ensures outcome.Ok? ==> user == outcome.value.user && nav == Stay
      ensures outcome.Err? ==> user == None && nav == FailureNav(pathname)
    {
      match outcome {
        case Ok(body) =>
          user := body.user;
          nav := Stay;
        case Err(_) =>
          user := None;
          nav := FailureNav(pathname);
      }
      loading := false;
    }

    /** A render at `pathname`: the effect resolves only when the pathname changed since it
        last ran (or on mount); otherwise nothing happens. */
    method Render(pathname: string, outcome: Outcome<MeBody, Option<string>>) returns (ran: bool, nav: Nav)
      modifies this
      ensures ran <==> EffectRuns(old(resolvedFor), pathname)
      ensures resolvedFor == Some(pathname)
      ensures ran ==> !loading
      ensures ran && outcome.Ok? ==> user == outcome.value.user && nav == Stay
      ensures ran && outcome.Err? ==> user == None && nav == FailureNav(pathname)
      ensures !ran ==> user == old(user) && loading == old(loading) && nav == Stay
      ensures !old(loading) ==> !loading
    {
      ran := EffectRuns(resolvedFor, pathname);
      resolvedFor := Some(pathname);
      if ran {
        nav := Resolve(pathname, outcome);
      } else {
        nav := Stay;
      }
    }

    /** `setUser(identity)`: replaces the identity wholesale, with no remote call and no
        change to `loading`. */
    method SetUser(identity: User)
      modifies this`user
      ensures user == Some(identity) && loading == old(loading)
    {
      user := Some(identity);
    }

    /** `logout`: whatever the remote logout call settles to, the identity is cleared and
        the browser is sent to the login page; `loading` is untouched. */
    method Logout(outcome: Outcome<(), Option<string>>) returns (nav: Nav)
      modifies this`user
      ensures user == None && loading == old(loading)
      ensures nav == Push(LoginPath)
    {
      user := None;
      nav := Push(LoginPath);
    }
  }
}
