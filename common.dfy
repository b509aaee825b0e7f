/** Option and Result: the absent values and the raised exceptions of the
    modelled code become values. */
module Common {

  datatype Option<+T> = None | Some(value: T)

  datatype Result<+R, +E> = Success(value: R) | Failure(error: E)
}
