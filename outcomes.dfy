/** Optional values and the Python exceptions that the recognizer can raise. */
module Outcomes {

  datatype Option<+T> = None | Some(value: T)

  /** The exceptions the recognizer code lets escape, one per distinct cause. */
  datatype PyError =
    | NotIterable      // TypeError: a character filter iterates over a missing (None) text
    | ZeroDivision     // ZeroDivisionError: mean score over zero matcher boxes
    | IndexOutOfRange  // IndexError: the range iterator reads past a candidate list
    | FoundUnbound     // UnboundLocalError: `found` read when the iterator yielded nothing

  /** Either a value or a raised exception. */
  datatype Outcome<+T> = Ok(value: T) | Raised(error: PyError)
}
