/** Optional values, and results of operations that the source may reject by throwing. */
module Wrappers {

  datatype Option<+T> = None | Some(value: T)

  /** `Err` stands for a thrown `std::runtime_error`; its text is not modelled. */
  datatype Result<+T> = Ok(value: T) | Err {
    predicate IsFailure() {
      Err?
    }

    function PropagateFailure<U>(): Result<U>
      requires Err?
    {
      Err
    }

    function Extract(): T
      requires Ok?
    {
      value
    }
  }

  /** `Need(c)` is the guard `if (!c) throw`. */
  function Need(condition: bool): Result<()> {
    if condition then Ok(()) else Err
  }
}
