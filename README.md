# MySQL external driver: value decoding

This project models the decode side of the MySQL "external driver" codec of
GreenmaskIO/mysql, and proves properties of the model in Dafny.

The codec turns the raw bytes of a column value into a Go value. The choice is
keyed by a canonical lower-case column type name, such as `bigint`, `varchar`
or `json`. `ExternalDriver.DecodeValueByTypeName` is one `switch` over those
names:

- timestamp, datetime and date go to the date-time parser, with the driver's
  location `Loc`;
- the integer family go to `strconv.ParseInt(s, 10, 64)`. The family is
  tinyint, smallint, mediumint, int and bigint, plus time and year. With the
  `unsigned` option anywhere in the option list they go to
  `strconv.ParseUint(s, 10, 64)` instead;
- float, double and real go to the float parser;
- char, varchar, tinytext, text, mediumtext and longtext return the bytes as a
  string;
- every other name returns the raw bytes with no error. This covers registered
  names with no case (decimal, numeric, bit, the binary and blob types, enum,
  set, the spatial types, json) and unknown names.

The standalone decoders in `decoders.go` are modelled as well. `decodeBool`
accepts the one-byte texts "1" and "0". `decodeEnum` and `decodeGeometry`
return the bytes as a string.

Modules, one per concern:

- `GoValues` (go_values.dfy): Go bytes, the conversions `string(b)` and
  `[]byte(s)`, the dynamic result `any` (a `Value` datatype), the errors, and
  the `(any, error)` pair (`Decoded`, with `err == None` for a nil error).
- `Strconv` (strconv.dfy): the two Go standard-library integer parsers that
  the integer branch calls, as Go computes them. There is one digit loop, with
  Go's own `cutoff` and 64-bit wrap-around test for overflow. Overflow is
  detected before the rest of the text is read. A range error comes with the
  clamped value and a syntax error with 0. Each error is a `NumError` that
  names the function and quotes the input. They are proved against an
  independent grammar: an optional sign, then decimal digits with their value.
- `MysqlExternalDriver` (mysql_external_driver.dfy): the type-name constants,
  the registry datatype `TypeName`, the type classes of the switch, `Contains`
  and the `HasOptions` loop, the decode function `Decode`, and the
  `ExternalDriver` class with its `Loc` field, `WithLocation` and
  `DecodeValueByTypeName`.
- `Decoders` (decoders.dfy): `DecodeBool`, `DecodeEnum`, `DecodeGeometry`.

Calls into code this model does not contain become parameters. The date-time
parser is a function of the bytes and a `Location` that yields a `time.Time`
and an optional error. The float parser is a function of the text that yields
a `float64` and an optional `NumError`. The decoder wraps these results itself,
so a temporal name always yields a `Timestamp` value and a float name always a
`Float` value. `Location`, `time.Time`, `float64`, the date-time parser's
errors and the driver's dummy connection are opaque types: they are only
stored, compared and passed on.

Three facts about the code are easy to miss:

- The fall-through rejects no name: there is no unsupported-type error. A name
  outside the registry returns the bytes unchanged (`DecodeUnknown`).
- There is no `boolean` constant, so "boolean" is an unknown name. `decodeBool`,
  `decodeEnum` and `decodeGeometry` are not called by the switch.
- time and year are parsed as integers, although MySQL counts them as temporal
  types.

## Model

| member | source | states |
|---|---|---|
| GoValues.BytesOfStringOf | mysql_external_driver.go:126 | `string(b)` keeps every byte: same length, same byte at each position, and `[]byte` of it gives `b` back |
| GoValues.StringOfBytesOf | mysql_external_driver.go:118-120 | every Go string is `string` of its own bytes, so text built from bytes is read back unchanged |
| GoValues.StringOfInjective | decoders.go:20-26 | two byte sequences with the same string are equal |
| Strconv.ScanDigits | mysql_external_driver.go:118 | the ParseUint digit loop yields a value in [0, 2^64-1]; its errors name ParseUint and the input; a syntax error carries 0 and a range error carries 2^64-1 |
| Strconv.ParseUint | mysql_external_driver.go:118 | the result lies in [0, 2^64-1] and every error names ParseUint and quotes the input |
| Strconv.ParseInt | mysql_external_driver.go:120 | the result lies in [-2^63, 2^63-1] and every error names ParseInt and quotes the whole input, sign included |
| Strconv.OverflowsExact | mysql_external_driver.go:118 | Go's overflow test (`n >= cutoff`, or the 64-bit sum wrapped or exceeds the maximum) fires exactly when `n*10 + d` exceeds 2^64-1 |
| Strconv.ScanDigitsRun | mysql_external_driver.go:118 | over a run of digits the loop either stops with a range error, whatever follows, or carries on with the run's value |
| Strconv.ParseUintOutcome | mysql_external_driver.go:118 | full outcome of ParseUint for a digit run `p` and a rest `q` that starts with a non-digit: empty input is a syntax error; `p` too large is a range error, even before a non-digit; a non-empty rest is a syntax error; otherwise the value of `p` |
| Strconv.ParseUintCorrect | mysql_external_driver.go:118 | ParseUint succeeds if and only if the text is a non-empty digit string with value at most 2^64-1, and then returns that value; larger digit strings are range errors clamped to 2^64-1 |
| Strconv.ParseUintRejectsSign | mysql_external_driver.go:117-118 | a leading `-` or `+` is a syntax error for ParseUint, with value 0 |
| Strconv.ParseIntCorrect | mysql_external_driver.go:120 | ParseInt succeeds if and only if the text is an optional sign followed by digits whose signed value is in [-2^63, 2^63-1], and then returns that value |
| Strconv.ParseIntRange | mysql_external_driver.go:120 | a well-formed signed decimal outside int64 is a range error clamped to -2^63 or 2^63-1, on its side |
| Strconv.ParseUintFormatUint | mysql_external_driver.go:118 | round trip: ParseUint of the canonical decimal text of any n in [0, 2^64-1] gives n with no error |
| Strconv.ParseIntFormatInt | mysql_external_driver.go:120 | round trip: ParseInt of the canonical decimal text of any v in [-2^63, 2^63-1], -2^63 included, gives v with no error |
| MysqlExternalDriver.CanonicalRegistered | mysql_external_driver.go:9-66 | the constant of every registry entry is in the set of registered names |
| MysqlExternalDriver.ClassifyCanonical | mysql_external_driver.go:108-128 | every registered name selects the switch arm its entry's group belongs to (temporal, integer incl. time and year, float, text, or none) |
| MysqlExternalDriver.UnknownNameIsRaw | mysql_external_driver.go:108-128 | a name outside the registry is not rejected: it reaches the fall-through after the switch |
| MysqlExternalDriver.ContainsIff | mysql_external_driver.go:137-145 | the front-to-back search finds `opt` exactly when `opt` is an element of `opts` |
| MysqlExternalDriver.ContainsSameElements | mysql_external_driver.go:137-145 | order and repetition of the options do not matter, only which options are present |
| MysqlExternalDriver.HasOptions | mysql_external_driver.go:137-145 | the loop returns true exactly when some element of `opts` equals `opt` |
| MysqlExternalDriver.DecodeSigned | mysql_external_driver.go:115-121 | integer names without `unsigned`: always an int64 in range; no error exactly on an optionally signed decimal within int64, giving its value; otherwise a ParseInt error quoting the text (empty text, non-digits and out-of-range text included) |
| MysqlExternalDriver.DecodeUnsigned | mysql_external_driver.go:115-121 | integer names with `unsigned` anywhere in the options: always a uint64 in [0, 2^64-1]; no error exactly on a non-empty digit string within uint64, giving its value; otherwise a ParseUint error quoting the text |
| MysqlExternalDriver.DecodeUnsignedRejectsMinus | mysql_external_driver.go:117-118 | with `unsigned`, text starting with `-` is a ParseUint syntax error with value 0 |
| MysqlExternalDriver.DecodeSignedRoundTrip | mysql_external_driver.go:115-121 | the bytes of the canonical decimal text of every int64 decode, under any integer name without `unsigned`, to that int64 with no error |
| MysqlExternalDriver.DecodeUnsignedRoundTrip | mysql_external_driver.go:115-121 | the bytes of the canonical decimal text of every uint64 decode, under any integer name with `unsigned`, to that uint64 with no error |
| MysqlExternalDriver.DecodeText | mysql_external_driver.go:125-126 | text-family names return a string whose bytes are exactly the input, and never an error |
| MysqlExternalDriver.DecodeRawEntry | mysql_external_driver.go:108-128 | registered names listed under no case return the input bytes unchanged with no error, whatever the options |
| MysqlExternalDriver.DecodeUnknown | mysql_external_driver.go:108-128 | names outside the registry return the input bytes unchanged with no error; there is no unsupported-type error |
| MysqlExternalDriver.DecodeDelegates | mysql_external_driver.go:110-124 | date, datetime and timestamp give a `time.Time` value: the date-time parser's result for the bytes and the driver's location, with an error exactly when it reports one; float, double and real give a `float64` value: the float parser's result for the text, with its `NumError` exactly when it reports one |
| MysqlExternalDriver.DecodeOptionsIndependence | mysql_external_driver.go:108-129 | two option lists that agree on whether `unsigned` is present decode every name alike; outside the integer family any two option lists decode alike |
| MysqlExternalDriver.ExternalDriver.constructor | mysql_external_driver.go:73-77 | a driver holds exactly the connection and location it is built with |
| MysqlExternalDriver.ExternalDriver.WithLocation | mysql_external_driver.go:92-95 | afterwards `Loc` is the given location, the method returns the receiver itself, and only `Loc` changed |
| MysqlExternalDriver.ExternalDriver.DecodeValueByTypeName | mysql_external_driver.go:108-129 | the switch, using the `HasOptions` loop for the signedness test, returns what `Decode` gives for the driver's current location |
| MysqlExternalDriver.DecodeAfterWithLocation | mysql_external_driver.go:92-113 | after `WithLocation(loc)` a datetime decode yields the `time.Time` the parser gives for `loc`, with an error exactly when it reports one, and the driver keeps its connection |
| Decoders.DecodeBool | decoders.go:9-18 | no error if and only if the input is exactly one byte, `'0'` or `'1'`; the value is then true exactly for `'1'`; every other input gives a nil value and an error carrying the input |
| Decoders.DecodeBoolRoundTrip | decoders.go:11-14 | `"1"` decodes to true and `"0"` to false, with no error |
| Decoders.DecodeBoolRejects | decoders.go:15-16 | `""`, `"2"`, `"01"` and `"true"` are errors |
| Decoders.DecodeEnum | decoders.go:20-22 | never an error; the value is a string whose bytes are exactly the input |
| Decoders.DecodeGeometry | decoders.go:24-26 | never an error; the value is a string whose bytes are exactly the input |
| Decoders.DecodeEnumInjective | decoders.go:20-22 | different inputs give different enumeration results |
| Decoders.DecodeGeometryInjective | decoders.go:24-26 | different inputs give different geometry results |

## Left out

- `EncodeValueByTypeName` (mysql_external_driver.go:97-106): its work is done by
  `mysqlConn.interpolateParams` on the dummy connection, and that code is not
  part of this model.
- `ScanValueByTypeName` (mysql_external_driver.go:131-135): not implemented in
  the source; it only panics.
- `parseDateTime` is not part of this model. The temporal branch applies a
  date-time parser, given as a parameter, to the bytes and the driver's location.
- `strconv.ParseFloat` (IEEE double-precision parsing) is not part of this
  model. The float branch applies a float parser, given as a parameter.
- `decodeDecimal` (decoders.go:28-30): a wrapper over an external
  arbitrary-precision decimal library.
- `NewExternalDriver` (mysql_external_driver.go:79-90): it builds connection
  buffers and reads the process's local time zone from the clock. The class
  constructor takes the connection and the location as parameters instead.
- The `DBMSExternalDriver` interface (table_driver.go:5-9) only declares
  methods. `TypeOption` is a plain string, as in table_driver.go:3.
- Aliasing of the fall-through result: `return src, nil`
  (mysql_external_driver.go:128) hands back the caller's own slice, so later
  writes to `src` show through the returned value, whereas `string(src)` in
  the text branch copies. The model returns the contents as a value
  (`Bytes(src)`) and does not capture that sharing.
- Decoders.DecodeBool: the error's message text (`fmt.Errorf` with `%q`) is not
  modelled; the error carries the offending bytes.
- Sharing of one `*time.Location` between drivers and any concurrent use of
  `WithLocation` are not modelled: a location is an opaque value.
