/** The decode side of the MySQL external driver: the registry of canonical type
    names, the option list, the dispatch of `DecodeValueByTypeName` over the type
    classes its switch distinguishes, and the `ExternalDriver` object with its
    time-zone field. */
module MysqlExternalDriver {
  import opened GoValues
  import opened Strconv

  // ---------------------------------------------------------------------------
  // Type names and options
  // ---------------------------------------------------------------------------

  const TypeTinyInt := "tinyint"
  const TypeSmallInt := "smallint"
  const TypeMediumInt := "mediumint"
  const TypeInt := "int"
  const TypeBigInt := "bigint"
  const TypeDecimal := "decimal"
  const TypeNumeric := "numeric"
  const TypeFloat := "float"
  const TypeDouble := "double"
  const TypeReal := "real"
  const TypeBit := "bit"
  const TypeDate := "date"
  const TypeDateTime := "datetime"
  const TypeTimestamp := "timestamp"
  const TypeTime := "time"
  const TypeYear := "year"
  const TypeChar := "char"
  const TypeVarChar := "varchar"
  const TypeTinyText := "tinytext"
  const TypeText := "text"
  const TypeMediumText := "mediumtext"
  const TypeLongText := "longtext"
  const TypeBinary := "binary"
  const TypeVarBinary := "varbinary"
  const TypeTinyBlob := "tinyblob"
  const TypeBlob := "blob"
  const TypeMediumBlob := "mediumblob"
  const TypeLongBlob := "longblob"
  const TypeEnum := "enum"
  const TypeSet := "set"
  const TypeGeometry := "geometry"
  const TypePoint := "point"
  const TypeLineString := "linestring"
  const TypePolygon := "polygon"
  const TypeMultiPoint := "multipoint"
  const TypeMultiLineString := "multilinestring"
  const TypeMultiPolygon := "multipolygon"
  const TypeGeometryCollection := "geometrycollection"
  const TypeJSON := "json"

  /** A type option is a plain string tag. */
  type TypeOption = string

  const TypeOptionUnsigned: TypeOption := "unsigned"

  /** The registry: one constructor per type-name constant. */
  datatype TypeName =
    | TinyInt | SmallInt | MediumInt | Int | BigInt | Decimal | Numeric
    | FloatType | Double | Real | Bit
    | Date | DateTime | TimestampType | Time | Year
    | Char | VarChar
    | TinyText | Text | MediumText | LongText
    | Binary | VarBinary
    | TinyBlob | Blob | MediumBlob | LongBlob
    | Enum | Set
    | Geometry | Point | LineString | Polygon
    | MultiPoint | MultiLineString | MultiPolygon | GeometryCollection
    | Json

  /** The constant each registry entry stands for. */
  function Canonical(t: TypeName): string {
    match t
    case TinyInt => TypeTinyInt
    case SmallInt => TypeSmallInt
    case MediumInt => TypeMediumInt
    case Int => TypeInt
    case BigInt => TypeBigInt
    case Decimal => TypeDecimal
    case Numeric => TypeNumeric
    case FloatType => TypeFloat
    case Double => TypeDouble
    case Real => TypeReal
    case Bit => TypeBit
    case Date => TypeDate
    case DateTime => TypeDateTime
    case TimestampType => TypeTimestamp
    case Time => TypeTime
    case Year => TypeYear
    case Char => TypeChar
    case VarChar => TypeVarChar
    case TinyText => TypeTinyText
    case Text => TypeText
    case MediumText => TypeMediumText
    case LongText => TypeLongText
    case Binary => TypeBinary
    case VarBinary => TypeVarBinary
    case TinyBlob => TypeTinyBlob
    case Blob => TypeBlob
    case MediumBlob => TypeMediumBlob
    case LongBlob => TypeLongBlob
    case Enum => TypeEnum
    case Set => TypeSet
    case Geometry => TypeGeometry
    case Point => TypePoint
    case LineString => TypeLineString
    case Polygon => TypePolygon
    case MultiPoint => TypeMultiPoint
    case MultiLineString => TypeMultiLineString
    case MultiPolygon => TypeMultiPolygon
    case GeometryCollection => TypeGeometryCollection
    case Json => TypeJSON
  }

  // ---------------------------------------------------------------------------
  // Type classes and the switch
  // ---------------------------------------------------------------------------

  /** The arms of the switch in DecodeValueByTypeName; RawClass is the code after it. */
  datatype TypeClass = TemporalClass | IntegerClass | FloatClass | TextClass | RawClass

  /** The arm each registry entry belongs to, read off the case lists. */
  function ClassOf(t: TypeName): TypeClass {
    match t
    case TimestampType | DateTime | Date => TemporalClass
    case TinyInt | SmallInt | MediumInt | Int | BigInt | Time | Year => IntegerClass
    case FloatType | Double | Real => FloatClass
    case Char | VarChar | TinyText | Text | MediumText | LongText => TextClass
    case _ => RawClass
  }

  /** Which arm of the switch a name selects, compared in the order of the cases. */
  function Classify(name: string): TypeClass {
    if name == TypeTimestamp || name == TypeDateTime || name == TypeDate then TemporalClass
    else if name == TypeTinyInt || name == TypeSmallInt || name == TypeMediumInt || name == TypeInt
         || name == TypeBigInt || name == TypeTime || name == TypeYear then IntegerClass
    else if name == TypeFloat || name == TypeDouble || name == TypeReal then FloatClass
    else if name == TypeChar || name == TypeVarChar || name == TypeTinyText || name == TypeText
         || name == TypeMediumText || name == TypeLongText then TextClass
    else RawClass
  }

  /** Each registered name selects the arm its entry is listed under. */
  lemma ClassifyCanonical(t: TypeName)
    ensures Classify(Canonical(t)) == ClassOf(t)
  {
  }

  /** Every registered name. */
  const TypeNames: set<string> := {
    TypeTinyInt, TypeSmallInt, TypeMediumInt, TypeInt, TypeBigInt,
    TypeDecimal, TypeNumeric, TypeFloat, TypeDouble, TypeReal,
    TypeBit, TypeDate, TypeDateTime, TypeTimestamp, TypeTime,
    TypeYear, TypeChar, TypeVarChar, TypeTinyText, TypeText,
    TypeMediumText, TypeLongText, TypeBinary, TypeVarBinary, TypeTinyBlob,
    TypeBlob, TypeMediumBlob, TypeLongBlob, TypeEnum, TypeSet,
    TypeGeometry, TypePoint, TypeLineString, TypePolygon, TypeMultiPoint,
    TypeMultiLineString, TypeMultiPolygon, TypeGeometryCollection, TypeJSON
  }

  /** The constant of every registry entry is a registered name. */
  lemma CanonicalRegistered(t: TypeName)
    ensures Canonical(t) in TypeNames
  {
  }

  /** A name outside the registry is not rejected: it takes the raw fall-through. */
  lemma UnknownNameIsRaw(name: string)
    requires name !in TypeNames
    ensures Classify(name) == RawClass
  {
  }

  // ---------------------------------------------------------------------------
  // Options
  // ---------------------------------------------------------------------------

  /** `opts` holds `opt`, searched front to back. */
  function Contains(opts: seq<TypeOption>, opt: TypeOption): bool {
    |opts| > 0 && (opts[0] == opt || Contains(opts[1..], opt))
  }

  lemma {:induction false} ContainsIff(opts: seq<TypeOption>, opt: TypeOption)
    ensures Contains(opts, opt) <==> opt in opts
  {
    if |opts| > 0 {
      ContainsIff(opts[1..], opt);
      assert opts == [opts[0]] + opts[1..];
    }
  }

  /** Only which options are present matters, not their order or repetitions. */
  lemma ContainsSameElements(a: seq<TypeOption>, b: seq<TypeOption>, opt: TypeOption)
    requires forall x :: x in a <==> x in b
    ensures Contains(a, opt) == Contains(b, opt)
  {
    ContainsIff(a, opt);
    ContainsIff(b, opt);
  }

  /** `hasOptions`: a front-to-back search that stops at the first match. */
  method HasOptions(opts: seq<TypeOption>, opt: TypeOption) returns (found: bool)
    ensures found <==> exists k :: 0 <= k < |opts| && opts[k] == opt
    ensures found == Contains(opts, opt)
  {
    ContainsIff(opts, opt);
    for i := 0 to |opts|
      invariant forall k :: 0 <= k < i ==> opts[k] != opt
    {
      if opts[i] == opt {
        return true;
      }
    }
    return false;
  }

  // ---------------------------------------------------------------------------
  // Decoding
  // ---------------------------------------------------------------------------

  /** `(int64 or uint64, error)` from a strconv parser, as the `(any, error)` pair. */
  function FromParsed(p: Parsed, unsigned: bool): Decoded {
    Decoded(if unsigned then Uint64(p.value) else Int64(p.value),
            if p.err.Some? then Some(NumErr(p.err.value)) else None)
  }

  /** `parseDateTime(src, loc)`, which yields `(time.Time, error)`. */
  type DateTimeParser = (seq<byte>, Location) -> (Time, Option<ExternalError>)

  /** `strconv.ParseFloat(s, 64)`, which yields `(float64, error)` with a `*NumError`. */
  type FloatParser = string -> (Float64, Option<NumError>)

  /** `(time.Time, error)` from the date-time parser, as the `(any, error)` pair. */
  function FromDateTime(p: (Time, Option<ExternalError>)): Decoded {
    Decoded(Timestamp(p.0), if p.1.Some? then Some(ExternalErr(p.1.value)) else None)
  }

  /** `(float64, error)` from the float parser, as the `(any, error)` pair. */
  function FromFloat(p: (Float64, Option<NumError>)): Decoded {
    Decoded(Float(p.0), if p.1.Some? then Some(NumErr(p.1.value)) else None)
  }

  /** What DecodeValueByTypeName returns, given the driver's location and the two
      parsers this model does not contain (`parseDateTime`, `strconv.ParseFloat`). */
  function Decode(loc: Location, parseDateTime: DateTimeParser,
                  parseFloat: FloatParser,
                  name: string, src: seq<byte>, opts: seq<TypeOption>): Decoded
  {
    match Classify(name)
    case TemporalClass => FromDateTime(parseDateTime(src, loc))
    case IntegerClass =>
      if Contains(opts, TypeOptionUnsigned) then FromParsed(ParseUint(StringOf(src)), true)
      else FromParsed(ParseInt(StringOf(src)), false)
    case FloatClass => FromFloat(parseFloat(StringOf(src)))
    case TextClass => Decoded(Str(StringOf(src)), None)
    case RawClass => Decoded(Bytes(src), None)
  }

  /** Integer family without `unsigned`: always an int64 in range; success exactly on
      an optionally signed decimal within int64, giving its value; otherwise a
      ParseInt error citing the text. */
  lemma DecodeSigned(loc: Location, pdt: DateTimeParser, pf: FloatParser,
                     name: string, src: seq<byte>, opts: seq<TypeOption>)
    requires Classify(name) == IntegerClass && TypeOptionUnsigned !in opts
    ensures var r := Decode(loc, pdt, pf, name, src, opts);
      && r.value.Int64? && MinInt64 <= r.value.i <= MaxInt64
      && (r.err == None <==> IsSignedDecimal(StringOf(src))
                             && MinInt64 <= SignedValue(StringOf(src)) <= MaxInt64)
      && (r.err == None ==> r.value.i == SignedValue(StringOf(src)))
      && (r.err.Some? ==> r.err.value.NumErr? && r.err.value.numError.func == "ParseInt"
                          && r.err.value.numError.num == StringOf(src))
  {
    ContainsIff(opts, TypeOptionUnsigned);
    ParseIntCorrect(StringOf(src));
  }

  /** Integer family with `unsigned` anywhere among the options: always a uint64;
      success exactly on a non-empty digit string within uint64, giving its value. */
  lemma DecodeUnsigned(loc: Location, pdt: DateTimeParser, pf: FloatParser,
                       name: string, src: seq<byte>, opts: seq<TypeOption>)
    requires Classify(name) == IntegerClass && TypeOptionUnsigned in opts
    ensures var r := Decode(loc, pdt, pf, name, src, opts);
      && r.value.Uint64? && 0 <= r.value.u <= MaxUint64
      && (r.err == None <==> |src| > 0 && AllDigits(StringOf(src))
                             && DecimalValue(StringOf(src)) <= MaxUint64)
      && (r.err == None ==> r.value.u == DecimalValue(StringOf(src)))
      && (r.err.Some? ==> r.err.value.NumErr? && r.err.value.numError.func == "ParseUint"
                          && r.err.value.numError.num == StringOf(src))
  {
    ContainsIff(opts, TypeOptionUnsigned);
    ParseUintCorrect(StringOf(src));
  }

  /** With `unsigned`, a leading minus sign is a syntax error. */
  lemma DecodeUnsignedRejectsMinus(loc: Location, pdt: DateTimeParser,
                                   pf: FloatParser,
                                   name: string, src: seq<byte>, opts: seq<TypeOption>)
    requires Classify(name) == IntegerClass && TypeOptionUnsigned in opts
    requires |src| > 0 && src[0] == '-' as int as byte
    ensures Decode(loc, pdt, pf, name, src, opts)
            == Decoded(Uint64(0), Some(NumErr(NumError("ParseUint", StringOf(src), ErrSyntax))))
  {
    ContainsIff(opts, TypeOptionUnsigned);
    ParseUintRejectsSign(StringOf(src));
  }

  /** Round trip: the canonical decimal text of every int64 decodes to it. */
  lemma DecodeSignedRoundTrip(loc: Location, pdt: DateTimeParser,
                              pf: FloatParser,
                              name: string, v: int, opts: seq<TypeOption>)
    requires Classify(name) == IntegerClass && TypeOptionUnsigned !in opts
    requires MinInt64 <= v <= MaxInt64
    ensures IsByteString(FormatInt(v))
    ensures Decode(loc, pdt, pf, name, BytesOf(FormatInt(v)), opts) == Decoded(Int64(v), None)
  {
    FormatIntIsByteString(v);
    StringOfBytesOf(FormatInt(v));
    ContainsIff(opts, TypeOptionUnsigned);
    ParseIntFormatInt(v);
  }

  /** Round trip: the canonical decimal text of every uint64 decodes to it. */
  lemma DecodeUnsignedRoundTrip(loc: Location, pdt: DateTimeParser,
                                pf: FloatParser,
                                name: string, n: int, opts: seq<TypeOption>)
    requires Classify(name) == IntegerClass && TypeOptionUnsigned in opts
    requires 0 <= n <= MaxUint64
    ensures IsByteString(FormatUint(n))
    ensures Decode(loc, pdt, pf, name, BytesOf(FormatUint(n)), opts) == Decoded(Uint64(n), None)
  {
    FormatIntIsByteString(n);
    StringOfBytesOf(FormatUint(n));
    ContainsIff(opts, TypeOptionUnsigned);
    ParseUintFormatUint(n);
  }

  /** Text family: the bytes as a string, unchanged, never an error. */
  lemma DecodeText(loc: Location, pdt: DateTimeParser, pf: FloatParser,
                   name: string, src: seq<byte>, opts: seq<TypeOption>)
    requires Classify(name) == TextClass
    ensures var r := Decode(loc, pdt, pf, name, src, opts);
      r.err == None && r.value.Str? && IsByteString(r.value.s) && BytesOf(r.value.s) == src
  {
    BytesOfStringOf(src);
  }

  /** A registered name listed under no case (decimal, numeric, bit, the binary and
      blob types, enum, set, the spatial types, json): the input bytes themselves,
      never an error. */
  lemma DecodeRawEntry(loc: Location, pdt: DateTimeParser, pf: FloatParser,
                       t: TypeName, src: seq<byte>, opts: seq<TypeOption>)
    requires ClassOf(t) == RawClass
    ensures Decode(loc, pdt, pf, Canonical(t), src, opts) == Decoded(Bytes(src), None)
  {
    ClassifyCanonical(t);
  }

  /** A name outside the registry (such as "boolean"): the input bytes themselves,
      never an error; there is no unsupported-type error. */
  lemma DecodeUnknown(loc: Location, pdt: DateTimeParser, pf: FloatParser,
                      name: string, src: seq<byte>, opts: seq<TypeOption>)
    requires name !in TypeNames
    ensures Decode(loc, pdt, pf, name, src, opts) == Decoded(Bytes(src), None)
  {
    UnknownNameIsRaw(name);
  }

  /** Temporal names hand the bytes and the driver's location to the date-time parser;
      float names hand the text to the float parser; neither looks at the options. */
  lemma DecodeDelegates(loc: Location, pdt: DateTimeParser, pf: FloatParser,
                        t: TypeName, src: seq<byte>, opts: seq<TypeOption>)
    ensures t in {Date, DateTime, TimestampType} ==>
              var r := Decode(loc, pdt, pf, Canonical(t), src, opts);
              && r.value.Timestamp? && r.value.t == pdt(src, loc).0
              && (r.err == None <==> pdt(src, loc).1 == None)
              && (r.err.Some? ==> r.err == Some(ExternalErr(pdt(src, loc).1.value)))
    ensures t in {FloatType, Double, Real} ==>
              var r := Decode(loc, pdt, pf, Canonical(t), src, opts);
              && r.value.Float? && r.value.f == pf(StringOf(src)).0
              && (r.err == None <==> pf(StringOf(src)).1 == None)
              && (r.err.Some? ==> r.err == Some(NumErr(pf(StringOf(src)).1.value)))
  {
    ClassifyCanonical(t);
  }

  /** Options other than `unsigned` never matter, and outside the integer family no
      option matters at all. */
  lemma DecodeOptionsIndependence(loc: Location, pdt: DateTimeParser,
                                  pf: FloatParser,
                                  name: string, src: seq<byte>, o1: seq<TypeOption>, o2: seq<TypeOption>)
    ensures (TypeOptionUnsigned in o1 <==> TypeOptionUnsigned in o2) ==>
              Decode(loc, pdt, pf, name, src, o1) == Decode(loc, pdt, pf, name, src, o2)
    ensures Classify(name) != IntegerClass ==>
              Decode(loc, pdt, pf, name, src, o1) == Decode(loc, pdt, pf, name, src, o2)
  {
    ContainsIff(o1, TypeOptionUnsigned);
    ContainsIff(o2, TypeOptionUnsigned);
  }

  // ---------------------------------------------------------------------------
  // The driver object
  // ---------------------------------------------------------------------------

  /** The dummy connection the encode path uses; decoding never touches it. */
  type Connection(==)

  class ExternalDriver {
    var con: Connection
    var Loc: Location

    constructor (con: Connection, loc: Location)
      ensures this.con == con && Loc == loc
    {
      this.con := con;
      Loc := loc;
    }

    /** Sets the location and returns the same driver; nothing else changes. */
    method WithLocation(loc: Location) returns (e: ExternalDriver)
      modifies this`Loc
      ensures e == this
      ensures Loc == loc && con == old(con)
    {
      Loc := loc;
      return this;
    }

    /** The switch over the name, deciding signedness with `HasOptions`. */
    method DecodeValueByTypeName(parseDateTime: DateTimeParser,
                                 parseFloat: FloatParser,
                                 name: string, src: seq<byte>, opts: seq<TypeOption>)
      returns (r: Decoded)
      ensures r == Decode(Loc, parseDateTime, parseFloat, name, src, opts)
    {
      match Classify(name)
      case TemporalClass =>
        return FromDateTime(parseDateTime(src, Loc));
      case IntegerClass =>
        var unsigned := HasOptions(opts, TypeOptionUnsigned);
        if unsigned {
          return FromParsed(ParseUint(StringOf(src)), true);
        } else {
          return FromParsed(ParseInt(StringOf(src)), false);
        }
      case FloatClass =>
        return FromFloat(parseFloat(StringOf(src)));
      case TextClass =>
        return Decoded(Str(StringOf(src)), None);
      case RawClass =>
        return Decoded(Bytes(src), None);
    }
  }

  /** A caller's view: after WithLocation, temporal names are parsed in the new
      location, and the driver keeps its connection. */
  method DecodeAfterWithLocation(d: ExternalDriver, loc: Location,
                                 parseDateTime: DateTimeParser,
                                 parseFloat: FloatParser, src: seq<byte>)
    returns (r: Decoded)
    modifies d
    ensures d.Loc == loc && d.con == old(d.con)
    ensures r.value == Timestamp(parseDateTime(src, loc).0)
    ensures r.err == None <==> parseDateTime(src, loc).1 == None
  {
    var e := d.WithLocation(loc);
    r := e.DecodeValueByTypeName(parseDateTime, parseFloat, TypeDateTime, src, []);
  }
}
