/** Small shared vocabulary: optional values and bytes. */
module Common {

  /** Python's `Optional[T]`: a value or `None`. */
  datatype Option<+T> = None | Some(value: T)

  /** One octet of a binary audio stream. */
  newtype byte = b: int | 0 <= b < 256

  /** Python's truth test on an optional string: `None` and `""` are both false. */
  predicate Present(s: Option<string>) {
    s.Some? && s.value != ""
  }
}
