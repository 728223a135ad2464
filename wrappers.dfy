/** Java references that may be null, the exceptions the bridge can raise, and a
    failure-compatible Result that carries either a value or one of those exceptions. */
module Wrappers {

  /** A Java reference (or a string handed across the bridge) that may be null. */
  datatype Nullable<+T> = Null | NonNull(value: T)

  /** The exceptions that can escape from the modelled code. */
  datatype Exception =
    | NullPointer           // a method called on null, e.g. `null.equals(..)`
    | IndexOutOfBounds      // `ArrayList.add(index, ..)` with index > size
    | UnexpectedNativeType  // a typed ReadableMap getter applied to a value of another kind
    | TypeError             // JavaScript: a property read on undefined or null

  /** Either the value an operation returned or the exception it raised. */
  datatype Result<+T> = Success(value: T) | Failure(error: Exception) {

    predicate IsFailure() {
      Failure?
    }

    function PropagateFailure<U>(): Result<U>
      requires Failure?
    {
      Failure(error)
    }

    function Extract(): T
      requires Success?
    {
      value
    }
  }
}
