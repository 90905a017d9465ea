/** Failure-carrying values shared by every module: the Python exceptions the
    core raises or catches, and the Option/Result wrappers around them. */
module Outcome {

  /** The exceptions the modelled code raises, by their Python names. */
  datatype Failure =
    | IntegrityError           // a unique or foreign-key constraint refused a write
    | DoesNotExist             // `Model.objects.get` found no row
    | MultipleObjectsReturned  // `Model.objects.get` found more than one row
    | KeyError                 // a missing dictionary key (request parameter, API key)
    | ValueError               // `int(...)` of a malformed string
    | TypeError                // a value of the wrong type (slicing an int)
    | NameError                // an undefined name at run time
    | UnboundLocalError        // a local read before any assignment
    | IOError                  // a missing file

  datatype Option<+T> = None | Some(value: T)

  datatype Result<+T> = Ok(value: T) | Err(failure: Failure) {
    predicate IsFailure() { Err? }

    function PropagateFailure<U>(): Result<U>
      requires Err?
    {
      Err(failure)
    }

    function Extract(): T
      requires Ok?
    {
      value
    }
  }
}
