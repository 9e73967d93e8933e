/** Go-side values shared by the decoders: bytes, the byte-to-string conversion
    `string(b)`, the dynamically typed result `any` and the `error` values the
    decoders produce. */
module GoValues {

  /** A Go `byte`. */
  newtype byte = x: int | 0 <= x < 256

  datatype Option<+T> = None | Some(value: T)

  /** `*time.Location`: only compared and passed on, never inspected. */
  type Location(==)

  /** `time.Time`, as produced by the date-time parser this model does not contain. */
  type Time(==)

  /** A Go `float64`, as produced by the float parser this model does not contain. */
  type Float64(==)

  /** An error raised by a parser this model does not contain. */
  type ExternalError(==)

  /** The `Err` field of a `*strconv.NumError`. */
  datatype NumErrKind = ErrSyntax | ErrRange

  /** `*strconv.NumError`: the function that failed, the text it was given and why. */
  datatype NumError = NumError(func: string, num: string, err: NumErrKind)

  /** The errors a decode can return. */
  datatype Error =
    | NumErr(numError: NumError)
    | BoolErr(input: seq<byte>)          // "cannot decode %q as bool"
    | ExternalErr(external: ExternalError)

  /** The dynamic type and value held by the `any` a decoder returns. */
  datatype Value =
    | Nil
    | Int64(i: int)
    | Uint64(u: int)
    | Float(f: Float64)
    | Timestamp(t: Time)
    | Str(s: string)
    | Bytes(b: seq<byte>)
    | Bool(flag: bool)

  /** The pair `(any, error)` every decoder returns; `err == None` is a nil error. */
  datatype Decoded = Decoded(value: Value, err: Option<Error>)

  /** A Dafny string whose every character fits in a byte, i.e. a Go string. */
  predicate IsByteString(s: string) {
    forall i :: 0 <= i < |s| ==> s[i] as int < 256
  }

  /** Go's conversion `string(b)`: the same bytes, read as a string. */
  function StringOf(b: seq<byte>): string {
    seq(|b|, i requires 0 <= i < |b| => (b[i] as int) as char)
  }

  /** Go's conversion `[]byte(s)` for a string of bytes. */
  function BytesOf(s: string): seq<byte>
    requires IsByteString(s)
  {
    seq(|s|, i requires 0 <= i < |s| => (s[i] as int) as byte)
  }

  /** `string(b)` loses nothing: converting back gives the original bytes. */
  lemma BytesOfStringOf(b: seq<byte>)
    ensures IsByteString(StringOf(b)) && |StringOf(b)| == |b|
    ensures forall i :: 0 <= i < |b| ==> StringOf(b)[i] as int == b[i] as int
    ensures BytesOf(StringOf(b)) == b
  {
    var s := StringOf(b);
    assert forall i :: 0 <= i < |b| ==> s[i] as int == b[i] as int;
    assert BytesOf(s) == b;
  }

  /** Conversely, every Go string is `string(b)` of its own bytes. */
  lemma StringOfBytesOf(s: string)
    requires IsByteString(s)
    ensures |BytesOf(s)| == |s|
    ensures StringOf(BytesOf(s)) == s
  {
    var b := BytesOf(s);
    assert forall i :: 0 <= i < |s| ==> b[i] as int == s[i] as int;
    assert StringOf(b) == s;
  }

  /** `string(b)` is injective. */
  lemma StringOfInjective(a: seq<byte>, b: seq<byte>)
    requires StringOf(a) == StringOf(b)
    ensures a == b
  {
    BytesOfStringOf(a);
    BytesOfStringOf(b);
  }
}
