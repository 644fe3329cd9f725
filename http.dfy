/** The JSON responses the route handlers return: a status code, a body of the shape
    `{success: true, data}` or `{success: false, error}`, and the session cookie
    (`response.cookies.set('token', ...)`) where one is set. */
module Http {
  import opened Js

  datatype Body<T> = Success(data: T) | Failure(error: string)

  /** A `Set-Cookie` as the auth handlers write it. */
  datatype Cookie = Cookie(name: string, value: string, httpOnly: bool, secure: bool,
                           sameSite: string, maxAge: int)

  datatype Response<T> = Response(status: int, body: Body<T>, cookie: Option<Cookie>)

  /** The `data` of a successful login or registration: the user and the session token. */
  datatype AuthData<U> = AuthData(user: U, token: string)

  /** Seven days, in seconds: the cookie's `maxAge`. */
  const SessionMaxAge: int := 60 * 60 * 24 * 7

  /** `NextResponse.json({success: false, error: message}, {status})`. */
  function Error<T>(status: int, message: string): Response<T> {
    Response(status, Failure(message), None)
  }

  /** `NextResponse.json({success: true, data}, {status})`. */
  function Ok<T>(status: int, data: T): Response<T> {
    Response(status, Success(data), None)
  }

  /** The cookie both login and register set: `secure` only when running in production. */
  function SessionCookie(token: string, production: bool): (c: Cookie)
    ensures c.name == "token" && c.value == token
    ensures c.httpOnly && c.sameSite == "lax" && c.maxAge == 604800
    ensures c.secure == production
  {
    Cookie("token", token, true, production, "lax", SessionMaxAge)
  }
}
