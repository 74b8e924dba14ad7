/**
 The HTTP status codes the core refers to by name, and the status-code classes of
 section 15 of RFC 9110 that the request logger's thresholds follow.
 */
module StatusCodes {

  /** 400 Bad Request, RFC 9110 section 15.5.1: the first client-error code. */
  const BAD_REQUEST: int := 400
  /** 404 Not Found, RFC 9110 section 15.5.5. */
  const NOT_FOUND: int := 404
  /** 500 Internal Server Error, RFC 9110 section 15.6.1: the first server-error code. */
  const INTERNAL_SERVER_ERROR: int := 500

  /** 1xx, 2xx and 3xx: informational, successful and redirection (RFC 9110 sections 15.2 to 15.4). */
  predicate IsBelowClientError(status: int) { 100 <= status <= 399 }

  /** 4xx: client error (RFC 9110 section 15.5). */
  predicate IsClientError(status: int) { 400 <= status <= 499 }

  /** 5xx: server error (RFC 9110 section 15.6). */
  predicate IsServerError(status: int) { 500 <= status <= 599 }
}
