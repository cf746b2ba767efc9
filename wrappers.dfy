/** Optional values and results with an error, used for the outcomes of the
    foreign collaborators (JSON decoding, time parsing) and of validation. */
module Wrappers {

  datatype Option<+T> = None | Some(value: T)

  datatype Result<+R, +E> = Success(value: R) | Failure(error: E)
}
