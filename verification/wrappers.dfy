/** Option and Result values, and the operational error every service raises. */
module Wrappers {

  datatype Option<+T> = None | Some(value: T)

  datatype Result<+T, +E> = Ok(value: T) | Err(error: E)

  /** The HTTP status an operational error carries. */
  datatype Status = BadRequest | Unauthorized | Forbidden | NotFound | Conflict | InternalServerError

  /** An error raised by a service: a status and the message handed to the caller verbatim. */
  datatype ApiError = ApiError(status: Status, message: string)
}
