/** The failures the local resource layer reports, and a result type that carries them. */
module Errors {

  /** The three exception kinds of the resource layer, and the two Python
      built-in exceptions that the modelled code can raise on its own. */
  datatype Error =
    | InvalidPath        // bad category, addressing below a leaf, depth exceeded
    | InvalidDocument    // a document of the wrong kind
    | DocumentNotFound   // empty or missing name, missing file, missing row or panel
    | IndexError         // `pop(0)` or `[0]` on an empty segment list
    | OSError            // `open(..., 'w')` inside a category directory that does not exist

  /** Either a value or the error that was raised instead. */
  datatype Result<+T> = Ok(value: T) | Err(error: Error) {
    predicate IsFailure() { Err? }

    function PropagateFailure<U>(): Result<U>
      requires Err?
    {
      Err(error)
    }

    function Extract(): T
      requires Ok?
    {
      value
    }
  }

  /** Python's `None` or a value. */
  datatype Option<+T> = None | Some(value: T)
}
