/** Option and Result values for the operations that the source lets fall
    through (a lookup that finds nothing) or raise (a failed parse, a bad index). */
module Results {

  datatype Option<T> = None | Some(value: T)

  datatype Result<T, E> = Success(value: T) | Failure(error: E)
}
