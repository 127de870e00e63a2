/** Small shared vocabulary: bytes, optional values and string prefixes. */
module Common {

  /** An 8-bit byte, as held in a Go `[]byte`. */
  newtype byte = x: int | 0 <= x < 256

  type Bytes = seq<byte>

  datatype Option<+T> = None | Some(value: T)

  /** A value or the error the program returns instead. */
  datatype Result<+T, +E> = Ok(value: T) | Err(error: E)

  /** Go's `strings.HasPrefix`. */
  predicate HasPrefix(s: string, prefix: string)
  {
    |prefix| <= |s| && s[..|prefix|] == prefix
  }
}
