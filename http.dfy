/** How a request ends, as seen by the handlers and middlewares. */
module Http {

  import opened Wrappers

  /** `req.header("x-auth-token")` is truthy: present and not the empty string. */
  predicate Present(header: Option<string>)
  {
    header.Some? && header.value != ""
  }

  /**
   * How a middleware ends: `res.status(s).json({ msg })` without calling
   * `next`, calling `next()` once with the bindings it put on `req`, or an
   * exception that express-async-handler passes on to `next(err)`.
   */
  datatype Guard<B> = Denied(status: int, msg: string) | Granted(binding: B, token: string) | Thrown

  /**
   * How a route handler ends: `res.json(body)`, `res.status(s).json({ msg })`,
   * or an exception before any response.
   */
  datatype Reply<T> = Ok(body: T) | Err(status: int, msg: string) | Threw
}
