/** Optional values, results and the Python exception kinds that the modelled
    code raises or lets through. */
module Errors {

  datatype Option<+T> = None | Some(value: T)

  /** The exceptions that matter to the model. `KeyboardInterrupt` is the one
      `BaseException` the application treats specially; every other kind is an
      ordinary `Exception`. `OpenCvError` stands for `cv2.error`. */
  datatype Exception =
    | KeyboardInterrupt
    | ValueError
    | IndexError
    | TypeError
    | KeyError
    | OpenCvError
    | CallbackError   // whatever a user callback raises besides KeyboardInterrupt

  /** A value, or the exception raised while computing it. */
  datatype Result<+T> = Ok(value: T) | Err(error: Exception)
}
