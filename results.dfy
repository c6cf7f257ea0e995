/** Bytes, the errors the lighting code raises, and a failure-compatible Result. */
module Results {

  /** One byte on the wire or in a frame. */
  type Byte = x: int | 0 <= x < 256

  /** The exceptions the modelled code raises, one variant per raising site. */
  datatype Error =
    | BpmOutOfRange      // ValueError: tempo outside [30, 2400]
    | HexLength          // ValueError: colour string not 6 characters long
    | NonHexDigit        // ValueError from bytes.fromhex: a character that is not a hex digit
    | ColorOverflow      // ValueError: a colour written past channel 512
    | UnknownColor       // ValueError: neither an alias nor a '#' literal
    | EmptyColorName     // IndexError: value[0] on an empty colour name
    | ChaseExhausted     // StopIteration: next() on a chase with no scenes

  datatype Result<+T> = Ok(value: T) | Err(error: Error) {
    predicate IsFailure() { Err? }

    function PropagateFailure<U>(): Result<U>
      requires Err?
    {
      Err(error)
    }

    function Extract(): T
      requires Ok?
    {
      value
    }
  }
}
