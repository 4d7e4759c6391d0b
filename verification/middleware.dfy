/** The edge route guard: a per-request decision from the request's pathname and the
    value of its `token` cookie, taken before any page is delivered. */
module Middleware {
  import opened JsValues

  datatype Decision = Next | Redirect(location: string)

  const LoginPath: string := "/login"

  /** The allow-list, in the order the source lists it. */
  const PublicPaths: seq<string> := ["/login", "/register", "/"]

  const ApiPrefix: string := "/api"

  /** `s.startsWith(prefix)`. */
  predicate StartsWith(s: string, prefix: string) {
    prefix <= s
  }

  /** `paths.some(p => pathname.startsWith(p))`. */
  predicate SomePrefix(paths: seq<string>, pathname: string)
    decreases |paths|
  {
    |paths| > 0 && (StartsWith(pathname, paths[0]) || SomePrefix(paths[1..], pathname))
  }

  lemma {:induction false} SomePrefixMeansOneMatches(paths: seq<string>, pathname: string)
    ensures SomePrefix(paths, pathname) <==> exists k :: 0 <= k < |paths| && StartsWith(pathname, paths[k])
  {
    if |paths| > 0 {
      SomePrefixMeansOneMatches(paths[1..], pathname);
      if StartsWith(pathname, paths[0]) {
        assert StartsWith(pathname, paths[0]);
      } else if exists k :: 0 <= k < |paths| && StartsWith(pathname, paths[k]) {
        var k :| 0 <= k < |paths| && StartsWith(pathname, paths[k]);
        assert k > 0 && StartsWith(pathname, paths[1..][k - 1]);
      }
    }
  }

  predicate IsPublic(pathname: string) {
    SomePrefix(PublicPaths, pathname)
  }

  /** `middleware(req)`: the token counts only through its truthiness. */
  function Decide(pathname: string, token: Option<string>): (d: Decision)
    ensures d.Redirect? ==> d.location == LoginPath
    ensures Truthy(token) ==> d == Next
    ensures IsPublic(pathname) || StartsWith(pathname, ApiPrefix) ==> d == Next
    ensures d.Redirect? <==> !Truthy(token) && !IsPublic(pathname) && !StartsWith(pathname, ApiPrefix)
  {
    if IsPublic(pathname) || StartsWith(pathname, ApiPrefix) then Next
    else if !Truthy(token) then Redirect(LoginPath)
    else Next
  }

  /** Because `"/"` is on the allow-list and the match is by prefix, being public is
      exactly beginning with `/`. */
  lemma PublicIffSlash(pathname: string)
    ensures IsPublic(pathname) <==> StartsWith(pathname, "/")
  {
    SomePrefixMeansOneMatches(PublicPaths, pathname);
    if StartsWith(pathname, "/") {
      assert StartsWith(pathname, PublicPaths[2]);
    }
    if IsPublic(pathname) {
      var k :| 0 <= k < |PublicPaths| && StartsWith(pathname, PublicPaths[k]);
      assert PublicPaths[k][0] == '/';
    }
  }

  /** Every pathname that begins with `/` is let through, token or not. */
  lemma SlashPathsAlwaysPass(pathname: string, token: Option<string>)
    requires StartsWith(pathname, "/")
    ensures IsPublic(pathname)
    ensures Decide(pathname, token) == Next
  {
    PublicIffSlash(pathname);
  }

  /** API routes are let through, token or not. */
  lemma ApiPathsAlwaysPass(pathname: string, token: Option<string>)
    requires StartsWith(pathname, ApiPrefix)
    ensures Decide(pathname, token) == Next
  {
  }

  /** As written, the guard redirects exactly the token-less requests whose pathname does
      not begin with `/`; the only redirect target is the login page. */
  lemma RedirectIff(pathname: string, token: Option<string>)
    ensures Decide(pathname, token).Redirect? <==> !StartsWith(pathname, "/") && !Truthy(token)
    ensures Decide(pathname, token).Redirect? ==> Decide(pathname, token).location == LoginPath
  {
    PublicIffSlash(pathname);
    if StartsWith(pathname, ApiPrefix) {
      assert pathname[0] == '/';
    }
  }

  /** A request carrying a truthy token is never redirected. */
  lemma TokenNeverRedirected(pathname: string, token: Option<string>)
    requires Truthy(token)
    ensures Decide(pathname, token) == Next
  {
  }

  /** A token-less request outside the allow-list and the API prefix is redirected to the
      login page. */
  lemma MissingTokenRedirects(pathname: string, token: Option<string>)
    requires !IsPublic(pathname) && !StartsWith(pathname, ApiPrefix) && !Truthy(token)
    ensures Decide(pathname, token) == Redirect(LoginPath)
  {
  }

  /** Only the presence of the token is inspected, never its value. */
  lemma TokenValueIrrelevant(pathname: string, t1: Option<string>, t2: Option<string>)
    requires Truthy(t1) == Truthy(t2)
    ensures Decide(pathname, t1) == Decide(pathname, t2)
  {
  }

  /** Publicness is decided by prefix, not equality. */
  lemma PrefixNotEquality()
    ensures IsPublic("/loginXYZ") && IsPublic("/register/anything")
  {
    assert StartsWith("/loginXYZ", PublicPaths[0]);
    assert StartsWith("/register/anything", PublicPaths[1]);
  }

  /** The protected dashboard is let through without any token. */
  lemma DashboardPassesWithoutToken()
    ensures Decide("/dashboard", None) == Next
    ensures Decide("/dashboard/settings", Some("")) == Next
  {
    SlashPathsAlwaysPass("/dashboard", None);
    SlashPathsAlwaysPass("/dashboard/settings", Some(""));
  }

  // The evidently intended guard: `/` is public as a page of its own, `/login` and
  // `/register` (and everything below them) by prefix.

  predicate IsPublicIntended(pathname: string) {
    pathname == "/" || StartsWith(pathname, "/login") || StartsWith(pathname, "/register")
  }

  function DecideIntended(pathname: string, token: Option<string>): (d: Decision)
    ensures d.Redirect? ==> d.location == LoginPath
    ensures Truthy(token) ==> d == Next
    ensures pathname == "/" || StartsWith(pathname, ApiPrefix) ==> d == Next
    ensures d.Redirect? <==> !Truthy(token) && !IsPublicIntended(pathname) && !StartsWith(pathname, ApiPrefix)
  {
    if IsPublicIntended(pathname) || StartsWith(pathname, ApiPrefix) then Next
    else if !Truthy(token) then Redirect(LoginPath)
    else Next
  }

  /** The intended guard redirects every token-less request for a dashboard page. */
  lemma IntendedGuardsDashboard(pathname: string, token: Option<string>)
    requires StartsWith(pathname, "/dashboard")
    ensures DecideIntended(pathname, token) == if Truthy(token) then Next else Redirect(LoginPath)
  {
    assert pathname[1] == 'd';
    assert pathname != "/";
    assert !StartsWith(pathname, "/login") by { assert "/login"[1] == 'l'; }
    assert !StartsWith(pathname, "/register") by { assert "/register"[1] == 'r'; }
    assert !StartsWith(pathname, ApiPrefix) by { assert ApiPrefix[1] == 'a'; }
  }

  /** The intended guard agrees with the written one wherever the written one redirects,
      and never redirects a token-bearing request or an allow-listed page. */
  lemma IntendedRefinesWritten(pathname: string, token: Option<string>)
    ensures Decide(pathname, token).Redirect? ==> DecideIntended(pathname, token) == Decide(pathname, token)
    ensures Truthy(token) ==> DecideIntended(pathname, token) == Next
    ensures IsPublicIntended(pathname) ==> DecideIntended(pathname, token) == Next
  {
    RedirectIff(pathname, token);
  }
}
