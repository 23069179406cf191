/** Optional values and results for the posting bot: the Python exceptions the
    script can raise become the `Err` case of a `Result`. */
module Outcomes {

  /** Python's `Optional[T]`: `None` or a value. */
  datatype Option<+T> = None | Some(value: T)

  /** The exceptions the modelled code can raise, named after what raises them. */
  datatype Error =
    | EmptySequence          // min()/max() of an empty list: ValueError
    | NotAnInteger           // int() of a text that is not a decimal integer: ValueError
    | WrongFieldCount        // unpacking a split into year, month, day: ValueError
    | DateOutOfRange         // datetime(year, month, day) rejects the date: ValueError
    | NaiveAwareComparison   // ordering a naive datetime against an aware one: TypeError
    | MissingPrice           // a null price used as a number: TypeError
    | DeliveryFailed         // requests.post raised (connection failure)

  /** A value, or the exception that was raised instead. Usable with `:-`. */
  datatype Result<+T> = Ok(value: T) | Err(error: Error) {

    predicate IsFailure() {
      Err?
    }

    function PropagateFailure<U>(): Result<U>
      requires Err?
    {
      Err(error)
    }

    function Extract(): T
      requires Ok?
    {
      value
    }
  }
}
