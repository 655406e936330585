/** Wrappers used in place of the exceptions and `null` results of the
    container/ship domain. */
module Outcomes {

  /** A lookup that may miss (where `List.Find` returns `null`). */
  datatype Option<+T> = None | Some(value: T)

  /** A check-then-commit operation either passes or fails with an error
      (where the C# code throws an exception). */
  datatype Outcome<+E> = Pass | Fail(error: E)
}
