/** The request/response vocabulary shared by the handlers: request fields with
    JavaScript truthiness, the session cookie, the response a handler leaves
    behind, and the store-assigned record id. */
module Http {

  datatype Option<T> = None | Some(value: T)

  /** A store-assigned document id (`_id`). */
  type Id = nat

  /** A request field as a handler reads it from `req.body`, `req.cookies` or
      `req.params`: absent (`undefined`) or a string. */
  type Field = Option<string>

  /** JavaScript truthiness of a request field: absent and "" are falsy. */
  predicate Truthy(f: Field)
  {
    f.Some? && f.value != ""
  }

  /** The `f || fallback` idiom of the handlers. */
  function OrElse(f: Field, fallback: string): string
  {
    if Truthy(f) then f.value else fallback
  }

  /** Milliseconds in one day: `1000 * 86400`, the session cookie's lifetime. */
  const DayMillis: int := 1000 * 86400

  /** Stands for the error the token library throws when a token does not
      verify; its text is the library's. */
  const TokenRejected := "jwt verification failed"

  /** A `Set-Cookie` the handler attaches with `res.cookie(name, value, options)`. */
  datatype Cookie = Cookie(
    name: string,
    value: string,
    path: string,
    httpOnly: bool,
    expires: int,   // milliseconds since the epoch
    sameSite: string,
    secure: bool)

  /** The cookie that carries a session token, expiring one day after `now`. */
  function SessionCookie(token: string, now: int): Cookie
  {
    Cookie("token", token, "/", true, now + DayMillis, "none", true)
  }

  /** The cookie that logout sends: empty value, expired at the epoch. */
  function ClearedCookie(): Cookie
  {
    Cookie("token", "", "/", true, 0, "none", true)
  }

  /** What one handler leaves on `res`: the status, the cookie it set, the body it
      sent, and the message of the error it threw to the error middleware. */
  datatype Response<B> = Response(
    status: int,
    cookie: Option<Cookie>,
    body: Option<B>,
    thrown: Option<string>)

  /** The response object as Express hands it to a handler: status 200, nothing set. */
  function Fresh<B>(): Response<B>
  {
    Response(200, None, None, None)
  }

  /** `res.status(code); throw new Error(msg)` on an otherwise untouched response. */
  function Failed<B>(code: int, msg: string): Response<B>
  {
    Response(code, None, None, Some(msg))
  }

  /** `res.status(code).json(body)` on an otherwise untouched response. */
  function Replied<B>(code: int, body: B): Response<B>
  {
    Response(code, None, Some(body), None)
  }
}
