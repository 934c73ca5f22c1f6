// A result that may be missing; a missing one stands for a reported error.
module Options {
  datatype Option<+T> = None | Some(value: T)
}
