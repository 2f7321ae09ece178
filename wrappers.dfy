/** Small failure-carrying datatypes shared by the fiscal calendar modules. */
module Wrappers {

  /** An optional value: `None` stands for Python's `None` result or a lookup that found nothing. */
  datatype Option<T> = None | Some(value: T)

  /** Either a value or an error message. */
  datatype Result<T, E> = Success(value: T) | Failure(error: E)
}
