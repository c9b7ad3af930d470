/** Optional values and the outcome of JavaScript evaluation that may throw. */
module Wrappers {
  datatype Option<+T> = None | Some(value: T)

  /**
   * The outcome of evaluating an expression of the bridge: a value, or a
   * TypeError thrown by the JavaScript runtime (a property read on null or
   * undefined, a method called on a value that does not have it).
   */
  datatype Result<+T> = Ok(value: T) | Thrown {
    predicate IsFailure() { Thrown? }
    function PropagateFailure<U>(): Result<U>
      requires Thrown?
    {
      Thrown
    }
    function Extract(): T
      requires Ok?
    {
      value
    }
  }
}
