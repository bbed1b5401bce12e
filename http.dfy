/**
 * The HTTP side of the handlers: the responses they send and JavaScript's
 * truthiness test on the request fields they read.
 */
module Http {
  import opened Wrappers

  /**
   * What a handler answers. `Reply` is `res.status(status).json({ success, message })`;
   * `SignedUp` and `LoggedIn` are the two 200 answers with extra fields; `Unhandled`
   * is an exception that escapes a handler with no catch around it.
   */
  datatype Response =
    | Reply(status: int, success: bool, message: string)
    | SignedUp(userId: nat, roleId: Option<nat>)
    | LoggedIn(token: string)
    | Unhandled(message: string)
  {
    /** The HTTP status code sent; an unhandled exception gets Express's default 500. */
    function Code(): int {
      match this
      case Reply(s, _, _) => s
      case SignedUp(_, _) => 200
      case LoggedIn(_) => 200
      case Unhandled(_) => 500
    }
  }

  /**
   * `!!v` for a request header or body field that is a string: absent
   * (undefined) and the empty string are falsy, every other string is truthy.
   */
  predicate Truthy(v: Option<string>)
    ensures !Truthy(v) <==> v == None || v == Some("")
  {
    v.Some? && |v.value| > 0
  }
}
