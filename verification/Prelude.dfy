/** The result types shared by the modules of the model. */
module Prelude {

  datatype Option<+T> = None | Some(value: T)

  /** What a step that may raise an exception leaves behind. */
  datatype Result<+T> = Success(value: T) | Failure

  /** Always true: a quantifier over this as its trigger stays folded until a proof mentions it. */
  predicate Unfolded(n: int) {
    true
  }
}
