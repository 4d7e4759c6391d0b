/** JavaScript value conventions the dashboard relies on: optional values, the outcome of
    an awaited remote call, string truthiness and the two fallback operators `??` and `||`,
    and the two effects a handler can emit (a navigation and a notification). */
module JsValues {

  /** `undefined`/`null` versus a present value. */
  datatype Option<+T> = None | Some(value: T)

  /** What an awaited remote call settles to: the response body, or what the rejection
      carries (for most handlers, the server's `message`, if the response had one). */
  datatype Outcome<+T, +E> = Ok(value: T) | Err(error: E)

  /** A string is truthy exactly when it is present and non-empty: `null`, `undefined`
      and `""` are its only falsy values. */
  predicate Truthy(s: Option<string>)
    ensures !Truthy(s) <==> s == None || s == Some("")
  {
    s.Some? && s.value != ""
  }

  /** `m ?? fallback`: only an absent value falls back. */
  function Coalesce(m: Option<string>, fallback: string): (r: string)
    ensures m.Some? ==> r == m.value
    ensures m.None? ==> r == fallback
    ensures m == Some("") ==> r == ""
  {
    match m
    case Some(v) => v
    case None => fallback
  }

  /** `m || fallback`: every falsy value, the empty string included, falls back. */
  function OrElse(m: Option<string>, fallback: string): (r: string)
    ensures Truthy(m) ==> r == m.value
    ensures !Truthy(m) ==> r == fallback
    ensures fallback != "" ==> r != ""
  {
    if Truthy(m) then m.value else fallback
  }

  /** `??` and `||` disagree exactly on a present empty message. */
  lemma CoalesceDiffersFromOrElse(m: Option<string>, fallback: string)
    requires fallback != ""
    ensures Coalesce(m, fallback) != OrElse(m, fallback) <==> m == Some("")
    ensures OrElse(m, fallback) != ""
  {
  }

  /** A navigation a handler issues: nothing, a client-side `router.push`, or a full page
      load through `window.location.href`. */
  datatype Nav = Stay | Push(path: string) | Load(path: string)

  /** A notification a handler raises: none, `toast.success` or `toast.error`. */
  datatype Toast = Quiet | Success(text: string) | Failure(text: string)
}

/** The resolved identity the session store holds and the admin users table lists. */
module Identity {
  datatype Role = USER | ADMIN

  datatype User = User(id: string, email: string, name: string, role: Role)
}
