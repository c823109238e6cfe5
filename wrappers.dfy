/** Small helper datatypes shared by the modules of this model. */
module Wrappers {

  /** A value that may be absent: stands for a Java reference that may be null. */
  datatype Option<T> = None | Some(value: T)

  function Min(a: int, b: int): (m: int)
  {
    if a <= b then a else b
  }
}
