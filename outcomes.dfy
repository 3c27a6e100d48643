/** The failure vocabulary shared by every module of the model.

    Each `Error` variant stands for one exception class the generator can
    raise (the custom classes of lilyskel/exceptions.py, the builtin Python
    exceptions the code triggers, and the two ways the Ruby prototype stops).
    The message is kept where the source builds a specific one. */
module Outcomes {

  datatype Error =
    | DataNotFound(msg: string)       // exceptions.DataNotFoundError
    | MissingInstrument(msg: string)  // exceptions.MissingInstrumentError
    | MutopiaErr(msg: string)         // exceptions.MutopiaError
    | ClefRejected(msg: string)       // the clef validator refuses construction
    | TypeErr(msg: string)            // TypeError
    | ValueErr(msg: string)           // ValueError
    | AttributeErr(msg: string)       // AttributeError
    | IndexErr(msg: string)           // IndexError
    | KeyErr(msg: string)             // KeyError (not a DataNotFoundError)
    | NoMethod(msg: string)           // Ruby NoMethodError (a method called on nil)
    | Abort(msg: string)              // Ruby Kernel#abort: the program exits

  datatype Option<+T> = None | Some(value: T)

  /** A value or the exception that replaced it. */
  datatype Result<+T> = Ok(value: T) | Err(error: Error) {
    predicate IsFailure() { Err? }

    function PropagateFailure<U>(): Result<U>
      requires Err?
    {
      Err(error)
    }

    function Extract(): T
      requires Ok?
    {
      value
    }
  }

  /** An argument the source checks with `isinstance`: either an instance of
      the expected class, or any other object. */
  datatype Arg<+T> = Expected(value: T) | Foreign
}
