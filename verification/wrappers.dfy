/** Option and error-carrying results shared by the service modules. */
module Wrappers {

  datatype Option<+T> = None | Some(value: T)

  /** The error kinds the services raise. */
  datatype Error =
    | ValidationError   // a business rule or an input check failed
    | NoAuthError       // the caller has no membership record in the organization
    | ProviderError     // the remote webhook provider rejected a call

  /** The outcome of a service call: a value, or the error it raised. */
  datatype Result<+T> = Ok(value: T) | Err(error: Error)
}
