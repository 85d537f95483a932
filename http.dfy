/** The parts of a Next.js response the authentication code fills in: a status, a
    JSON body and at most one `Set-Cookie` for the session cookie. */
module Http {
  import opened Wrappers
  import opened Auth

  /** The name of the session cookie. */
  const AuthCookie: string := "auth-token"
  /** `maxAge` of the session cookie: `24 * 60 * 60` seconds. */
  const SessionMaxAge: nat := 24 * 60 * 60

  /** The options object passed to `response.cookies.set`; an absent option is `None`. */
  datatype CookieOptions = CookieOptions(
    httpOnly: Option<bool>,
    secure: Option<bool>,
    sameSite: Option<string>,
    maxAge: Option<int>)

  /** One `response.cookies.set(name, value, options)` call. */
  datatype SetCookie = SetCookie(name: string, value: string, options: CookieOptions)

  /** The JSON bodies the handlers produce: `{error}` or `{success: true, user}`. */
  datatype Body = ErrorBody(error: Option<string>) | UserBody(user: Option<User>)

  datatype Response = Response(status: nat, body: Body, cookie: Option<SetCookie>)

  const InternalError: string := "Internal server error"

  /** `NextResponse.json({error: message}, {status})`, no cookie. */
  function Error(status: nat, message: Option<string>): Response {
    Response(status, ErrorBody(message), None)
  }

  /** The cookie both login handlers set: the token itself, HTTP-only, `secure` only
      when NODE_ENV is "production", same-site strict, kept for a day. */
  function SessionCookie(token: string, nodeEnv: Option<string>): (c: SetCookie)
    ensures c.name == AuthCookie && c.value == token
    ensures c.options.secure == Some(nodeEnv == Some("production"))
    ensures c.options.httpOnly == Some(true) && c.options.sameSite == Some("strict")
    ensures c.options.maxAge == Some(TokenLifetimeSeconds)
  {
    SetCookie(AuthCookie, token,
      CookieOptions(Some(true), Some(nodeEnv == Some("production")), Some("strict"), Some(SessionMaxAge)))
  }

  /** The cookie the access gate sets to log a browser out: empty value, `maxAge` 0,
      no other option. */
  function ClearedCookie(): (c: SetCookie)
    ensures c.name == AuthCookie && c.value == "" && c.options.maxAge == Some(0)
  {
    SetCookie(AuthCookie, "", CookieOptions(None, None, None, Some(0)))
  }
}
