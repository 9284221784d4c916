/** Option and Result values, used for the optional model list and for the
    command's "error or downloader call" outcome. */
module Wrappers {

  /** An optional value: Python's `None` or a present value. */
  datatype Option<+T> = None | Some(value: T)

  /** Either a successful value or an error. */
  datatype Result<+R, +E> = Success(value: R) | Failure(error: E)
}
