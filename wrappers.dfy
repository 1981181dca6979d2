/** Option and Result values, and the one error the denoiser can raise. */
module Wrappers {

  datatype Option<+T> = None | Some(value: T)

  /** The only failure of the pipeline: the table builder's
      `min_window >= 1` assertion. */
  datatype Error = WindowTooSmall

  datatype Result<+T> = Success(value: T) | Failure(error: Error)
}
