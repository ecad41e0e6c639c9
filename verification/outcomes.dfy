/** The exceptions the ear trainer can raise, and a failure-compatible
    result type so that `:-` propagates the first one the way a Python
    exception unwinds. */
module Outcomes {

  /** One constructor per exception the modelled code can raise. */
  datatype Error =
    | InvalidNote(name: string)          // Note.get_frequency: ValueError("Invalid note: ...")
    | NotInList(name: string)            // list.index: ValueError("... is not in list")
    | EmptyMax                           // builtin max() of an empty sequence
    | EmptyPeak                          // np.max of a zero-size array
    | InvalidQuizMode(mode: string)      // start_interval_quiz: ValueError("Invalid quiz_mode ...")
    | MissingKey(key: int)               // dict lookup: KeyError
    | UnpackMismatch(expected: nat, got: nat) // tuple unpacking: ValueError
    | EndOfInput                         // input() on an exhausted stream: EOFError

  datatype Result<+T> = Ok(value: T) | Err(error: Error) {

    predicate IsFailure() {
      Err?
    }

    function PropagateFailure<U>(): Result<U>
      requires Err?
    {
      Err(error)
    }

    function Extract(): T
      requires Ok?
    {
      value
    }
  }
}
