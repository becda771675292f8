/** The records the client receives from the server, and JavaScript truthiness of optional strings. */
module Records {
  import opened Wrappers

  /** The user object the server returns as `data.user` and the client caches. */
  datatype User = User(name: string, email: string, role: string, grade: Option<string>)

  /** A rejected request; `message` is `err.response?.data?.message`, None when there was
      no response or the response carried no message. */
  datatype HttpError = HttpError(message: Option<string>)

  /** JavaScript truthiness of a string that may be null or undefined. */
  predicate Truthy(s: Option<string>)
  {
    s.Some? && s.value != ""
  }

  /** `m || fallback`, as the pages use it for error and success messages. */
  function OrElse(m: Option<string>, fallback: string): (r: string)
    ensures Truthy(m) ==> r == m.value
    ensures !Truthy(m) ==> r == fallback
  {
    if Truthy(m) then m.value else fallback
  }
}
