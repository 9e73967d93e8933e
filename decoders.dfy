/** The standalone decoders: booleans, enumerations and geometries. */
module Decoders {
  import opened GoValues

  const AsciiZero: byte := 0x30
  const AsciiOne: byte := 0x31

  /** `decodeBool`: the text "1" is true, "0" is false, anything else an error
      that quotes the input, with a nil value. */
  function DecodeBool(buf: seq<byte>): (r: Decoded)
    ensures r.err == None <==> |buf| == 1 && (buf[0] == AsciiZero || buf[0] == AsciiOne)
    ensures r.err == None ==> r.value == Bool(buf[0] == AsciiOne)
    ensures r.err != None ==> r == Decoded(Nil, Some(BoolErr(buf)))
  {
    BytesOfStringOf(buf);
    assert |buf| == 1 ==> StringOf(buf) == [StringOf(buf)[0]];
    if StringOf(buf) == "1" then Decoded(Bool(true), None)
    else if StringOf(buf) == "0" then Decoded(Bool(false), None)
    else Decoded(Nil, Some(BoolErr(buf)))
  }

  /** The one-byte text of a boolean is decoded back to it. */
  lemma DecodeBoolRoundTrip(b: bool)
    ensures DecodeBool([if b then AsciiOne else AsciiZero]) == Decoded(Bool(b), None)
  {
  }

  /** Inputs the grammar rejects, among them the empty text, another digit, a
      padded digit and the word "true". */
  lemma DecodeBoolRejects()
    ensures DecodeBool([]).err.Some?
    ensures DecodeBool([0x32]).err.Some?
    ensures DecodeBool([AsciiZero, AsciiOne]).err.Some?
    ensures DecodeBool([0x74, 0x72, 0x75, 0x65]).err.Some?
  {
  }

  /** `decodeEnum`: the label as a string, unchanged, never an error. */
  function DecodeEnum(buf: seq<byte>): (r: Decoded)
    ensures r.err == None && r.value.Str?
    ensures IsByteString(r.value.s) && BytesOf(r.value.s) == buf
  {
    BytesOfStringOf(buf);
    Decoded(Str(StringOf(buf)), None)
  }

  /** `decodeGeometry`: the value as a string, unchanged, never an error. */
  function DecodeGeometry(buf: seq<byte>): (r: Decoded)
    ensures r.err == None && r.value.Str?
    ensures IsByteString(r.value.s) && BytesOf(r.value.s) == buf
  {
    BytesOfStringOf(buf);
    Decoded(Str(StringOf(buf)), None)
  }

  /** Distinct inputs give distinct enumeration labels. */
  lemma DecodeEnumInjective(a: seq<byte>, b: seq<byte>)
    requires DecodeEnum(a) == DecodeEnum(b)
    ensures a == b
  {
    StringOfInjective(a, b);
  }

  /** Distinct inputs give distinct geometry strings. */
  lemma DecodeGeometryInjective(a: seq<byte>, b: seq<byte>)
    requires DecodeGeometry(a) == DecodeGeometry(b)
    ensures a == b
  {
    StringOfInjective(a, b);
  }
}
