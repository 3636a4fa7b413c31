module Wrappers {
  datatype Option<+T> = None | Some(value: T)

  /** What a Go call gives back whose results are a pointer and an error. */
  datatype Returned<+T> = Erred | Nil | Given(value: T)
}
