/** The absent-or-present and returned-or-thrown shapes used throughout. */
module Wrappers {

  datatype Option<+T> = None | Some(value: T)

  /** A returned value, or the `message` of the error that was thrown. */
  datatype Result<+T> = Ok(value: T) | Err(message: string) {
    predicate IsFailure() { Err? }

    function PropagateFailure<U>(): Result<U>
      requires Err?
    {
      Err(message)
    }

    function Extract(): T
      requires Ok?
    {
      value
    }
  }

  /** The message of the TypeError a JavaScript engine (V8's wording) throws
      when a property of `null` or `undefined` is read. */
  function CannotRead(property: string, holder: string): string
  {
    "Cannot read properties of " + holder + " (reading '" + property + "')"
  }

  /** The message of the TypeError thrown when an `undefined` value is
      destructured (V8's wording). */
  function CannotDestructure(property: string, holder: string): string
  {
    "Cannot destructure property '" + property + "' of '" + holder + "' as it is undefined."
  }
}
