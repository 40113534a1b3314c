/**
 * Shared vocabulary of the service layer: optional values, the ApiError every
 * service throws (an HTTP status plus a message) and the outcome of a service
 * call, which is either a value or such an error.
 */
module Api {

  datatype Option<T> = None | Some(value: T)

  /** The typed error the services throw: HTTP status and message. */
  datatype ApiError = ApiError(status: int, message: string)

  /** Result of a service call: the returned value, or the ApiError thrown. */
  datatype Outcome<T> = Ok(value: T) | Fail(error: ApiError)
  {
    predicate IsFailWith(status: int) { Fail? && error.status == status }
  }

  // The status codes of the http-status-codes package that the services use.
  const OK: int := 200
  const BAD_REQUEST: int := 400
  const UNAUTHORIZED: int := 401
  const FORBIDDEN: int := 403
  const NOT_FOUND: int := 404
  const CONFLICT: int := 409
  const INTERNAL_SERVER_ERROR: int := 500

  /** The message every service uses when it wraps an error that is not an ApiError. */
  const UNEXPECTED: string := "An unexpected error occurred"

  /** What a service's catch block turns a non-ApiError (a Mongoose cast or index error) into. */
  function Unexpected<T>(): Outcome<T>
  {
    Fail(ApiError(INTERNAL_SERVER_ERROR, UNEXPECTED))
  }

  /** MongoDB document identifiers, as the hexadecimal strings the requests carry. */
  type Id = string

  predicate IsHexDigit(c: char)
  {
    ('0' <= c <= '9') || ('a' <= c <= 'f') || ('A' <= c <= 'F')
  }

  /**
   * An id Mongoose can cast to an ObjectId: 24 hexadecimal digits.  Any other
   * string makes findById / find({_id: {$in: ...}}) throw a CastError.
   */
  predicate IsObjectId(id: Id)
  {
    |id| == 24 && forall i :: 0 <= i < |id| ==> IsHexDigit(id[i])
  }
}
