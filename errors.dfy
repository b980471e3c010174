/** The ways a client call can end. The library raises exactly two exception
    classes of its own, HttpRequestError and DeviceOfflineError; a response
    whose body lacks the expected keys or list entries makes Python raise one
    of its built-in lookup errors instead, which the client never catches. */
module Errors {
  import opened PyJson
  import opened Wrappers

  /** Why an HttpRequestError was raised. The 401 check in the POST helper
      names no operation; the per-operation status check reports the status
      code in its message for realtime data and not for alarms. */
  datatype HttpCause =
    | AuthenticationError
    | BadStatus(reported: Option<int>)

  datatype Error =
    | HttpRequestError(cause: HttpCause)
    | DeviceOfflineError
    | Uncaught(pyError: PyError)

  datatype Result<+T> = Ok(value: T) | Err(error: Error)
}
