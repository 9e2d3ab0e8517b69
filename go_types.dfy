/**
 * Go values the client passes around: nil-able pointers and slices, and raw bytes.
 */
module GoTypes {

  /** A nil-able Go value: `None` is `nil` (a nil pointer, a nil slice, a nil error). */
  datatype Option<+T> = None | Some(value: T)
  {
    function GetOr(default: T): T
    {
      match this
      case Some(v) => v
      case None => default
    }
  }

  newtype byte = x: int | 0 <= x < 256

  /** A Go `[]byte`. */
  type Bytes = seq<byte>

  /** A `time.Time`, known only through the `Dates` it is read with. */
  type Time = int

  /** How the query builders read a time: `IsZero` and `String()`, both left abstract. */
  datatype Dates = Dates(isZero: Time -> bool, render: Time -> string)
}
