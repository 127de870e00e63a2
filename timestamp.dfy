/** `timestamp.UnmarshalJSON`: the JSON hook for `album_release_date`. It drops
    the first and the last byte of the raw JSON value (the quotes of a JSON
    string) and hands the rest to the time parser, passing its error through. */
module Timestamp {
  import opened Common

  /** The layout handed to the time parser. */
  const Layout: string := "02 Jan 2006 15:04:05 GMT"

  /** The quote character, byte 0x22. */
  const Quote: byte := 0x22

  /** A JSON string without escapes, as the raw bytes of its value. */
  function Quoted(s: Bytes): Bytes
  {
    [Quote] + s + [Quote]
  }

  /** What the hook as written can end in: the parsed time, the parser's error, or a
      run-time panic of the slice expression. */
  datatype Outcome<+T, +E> = Parsed(time: T) | ParseError(err: E) | SlicePanic

  /** The hook as written. `s[1:len(s)-1]` is out of range when the value has
      fewer than two bytes, so a one-digit JSON number such as `5` panics. */
  function UnmarshalAsWritten<T, E>(b: Bytes, parse: Bytes -> Result<T, E>): (r: Outcome<T, E>)
    ensures r.SlicePanic? <==> |b| < 2
  {
    if |b| < 2 then SlicePanic
    else match parse(b[1..|b| - 1])
      case Ok(t) => Parsed(t)
      case Err(e) => ParseError(e)
  }

  /** The input that exposes the panic: the one-byte JSON value `5`. */
  lemma OneDigitValuePanics<T, E>(parse: Bytes -> Result<T, E>)
    ensures UnmarshalAsWritten([0x35], parse) == SlicePanic
  {
  }

  /** Why the corrected hook can fail. */
  datatype TimeError<+E> = NotAString | LayoutMismatch(err: E)

  /** The hook as evidently intended: a value shorter than two bytes is an error
      returned to the decoder rather than a panic. */
  function UnmarshalJSON<T, E>(b: Bytes, parse: Bytes -> Result<T, E>): (r: Result<T, TimeError<E>>)
    ensures |b| < 2 ==> r == Err(NotAString)
  {
    if |b| < 2 then Err(NotAString)
    else match parse(b[1..|b| - 1])
      case Ok(t) => Ok(t)
      case Err(e) => Err(LayoutMismatch(e))
  }

  /** Stripping undoes quoting: the parser sees exactly the string between the
      quotes, and its result and error are passed through unchanged. */
  lemma {:induction false} UnmarshalQuotedRoundTrip<T, E>(s: Bytes, parse: Bytes -> Result<T, E>)
    ensures parse(s).Ok? ==> UnmarshalJSON(Quoted(s), parse) == Ok(parse(s).value)
    ensures parse(s).Err? ==> UnmarshalJSON(Quoted(s), parse) == Err(LayoutMismatch(parse(s).error))
    ensures UnmarshalAsWritten(Quoted(s), parse) != SlicePanic
  {
    var b := Quoted(s);
    assert b[1..|b| - 1] == s;
  }

  /** On every value of two or more bytes the corrected hook behaves as written;
      it differs only where the original panics, and it never panics. */
  lemma CorrectedAgreesWhereDefined<T, E>(b: Bytes, parse: Bytes -> Result<T, E>)
    ensures |b| >= 2 ==>
      (UnmarshalAsWritten(b, parse).Parsed? <==> UnmarshalJSON(b, parse).Ok?) &&
      (UnmarshalJSON(b, parse).Ok? ==> UnmarshalJSON(b, parse).value == UnmarshalAsWritten(b, parse).time) &&
      (UnmarshalAsWritten(b, parse).ParseError? ==>
         UnmarshalJSON(b, parse) == Err(LayoutMismatch(UnmarshalAsWritten(b, parse).err)))
    ensures |b| < 2 <==> UnmarshalAsWritten(b, parse).SlicePanic? && UnmarshalJSON(b, parse) == Err(NotAString)
  {
  }
}
