/** The result of a parse that may fail. */
module Optional {

  /** `Some(v)` when a reader recognised its input and produced `v`,
      `None` when it did not; the three members below let `:-` stop a
      chain of readers at the first one that fails. */
  datatype Option<T> = None | Some(value: T) {
    predicate IsFailure() {
      None?
    }

    function PropagateFailure<U>(): Option<U>
      requires None?
    {
      None
    }

    function Extract(): T
      requires Some?
    {
      value
    }
  }
}
