/** Optional values and results with an error, used for the C library's
    failure returns and for the exception `format_log_string` throws. */
module Wrappers {

  datatype Option<+T> = None | Some(value: T)

  datatype Result<+R, +E> = Success(value: R) | Failure(error: E)
}
