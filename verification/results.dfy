/** Failure-compatible result type shared by the binding model, and the ways
    an operation of the model can be refused. UnboundName is JavaScript's
    ReferenceError. NotAnObject and WrongKind are TypeErrors when the operation
    is a method call such as `push`; for named-field reads and writes on arrays
    and primitives JavaScript does not throw, and the model refuses them only
    because it keeps named fields on records alone. */
module Results {

  /** Why an operation on bindings or objects failed. */
  datatype Error =
    | UnboundName(name: string)  // a name that was never declared (ReferenceError)
    | WrongKind                  // an aggregate of the other shape: push on a record, a named field of an array
    | NotAnObject                // a primitive where an object or array is needed

  datatype Result<+T> = Ok(value: T) | Err(error: Error) {

    predicate IsFailure() {
      Err?
    }

    function PropagateFailure<U>(): Result<U>
      requires Err?
    {
      Err(error)
    }

    function Extract(): T
      requires Ok?
    {
      value
    }
  }
}
