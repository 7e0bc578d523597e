/**
 * The JSON envelopes the handlers answer with: an HTTP code plus the
 * `{status: 0|1, message}` body, a bare `{message}` body (the Express
 * middleware), or an empty body for CORS pre-flight.
 */
module Http {
  import opened Js

  datatype Reply =
    | Empty(code: int)
    | Json(code: int, status: int, message: string)
    | Bare(code: int, message: string)

  function MethodNotAllowed(): Reply {
    Json(405, 0, "Method Not Allowed")
  }

  /** The pre-flight and method gate shared by the single-route handlers:
      `OPTIONS` answers 200 with no body, any verb outside `allowed` answers
      405, and `None` lets the handler run. */
  function Gate(verb: string, allowed: set<string>): Option<Reply> {
    if verb == "OPTIONS" then Some(Empty(200))
    else if verb !in allowed then Some(MethodNotAllowed())
    else None
  }
}
