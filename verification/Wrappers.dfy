/** Result types shared by the services. */
module Wrappers {

  datatype Option<+T> = None | Some(value: T)

  /** The exceptions the services raise; a raised request commits nothing. */
  datatype Error = BadRequest | Forbidden | Internal | NotFound | RateLimited | Unavailable | Unauthorized

  datatype Outcome = Done | Refused(error: Error)
}
