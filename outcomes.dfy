/** Go's nil-or-value results and error values, as datatypes. */
module Outcomes {

  datatype Option<+T> = None | Some(value: T)

  /** The error values the core produces or passes on. A backend or reader error
      is opaque to the core and is carried as it was received. */
  datatype Error =
    | ModelClosed                // ErrModelClosed, listener.go
    | Failure(message: string)   // an error from the model backend or the audio reader

  datatype Result<+T> = Ok(value: T) | Err(error: Error)
}
