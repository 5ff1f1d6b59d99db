/**
 The JSON text of a snapshot, by section 25.5.2 of ECMA-262: a bigint is written
 as a one-entry marker object, and a lone surrogate as an escape.
 */
module SnapshotJson {
  import opened Prelude
  import opened Utf

  datatype Value =
    | Null
    | Bool(b: bool)
    | Number(n: int)
    | BigInt(n: int)
    | Str(t: Text)
    | Arr(items: seq<Value>)
    | Obj(fields: seq<Field>)

  /** Own string-keyed properties, in the order both traversals visit them. */
  datatype Field = Field(key: Text, value: Value)

  const MAX_SERIALIZED_BIGINT_DIGITS: nat := 78
  const BIGINT_JSON_MARKER: Text := Ascii("$solTokenListenerBigInt")

  const QUOTE: Unit := 0x22
  const BACKSLASH: Unit := 0x5C

  // ------------------------------------------------------------- strings

  function HexDigit(d: nat): Unit
    requires d < 16
  {
    if d < 10 then 0x30 + d else 0x61 + d - 10
  }

  /** The six-character escape of a code unit. */
  function UnicodeEscape(u: Unit): Text {
    [BACKSLASH, 0x75, HexDigit(u / 0x1000), HexDigit(u / 0x100 % 16), HexDigit(u / 16 % 16), HexDigit(u % 16)]
  }

  /** The letter of a two-character escape, where there is one. */
  function ShortEscape(u: Unit): Option<Unit> {
    if u == 0x08 then Some(0x62)
    else if u == 0x09 then Some(0x74)
    else if u == 0x0A then Some(0x6E)
    else if u == 0x0C then Some(0x66)
    else if u == 0x0D then Some(0x72)
    else if u == QUOTE then Some(QUOTE)
    else if u == BACKSLASH then Some(BACKSLASH)
    else None
  }

  function Escape(u: Unit): Text {
    if ShortEscape(u).Some? then [BACKSLASH, ShortEscape(u).value]
    else if u < 0x20 || IsSurrogate(u) then UnicodeEscape(u)
    else [u]
  }

  function EscapeText(t: Text): Text {
    if t == [] then []
    else if PairAhead(t) then [t[0], t[1]] + EscapeText(t[2..])
    else Escape(t[0]) + EscapeText(t[1..])
  }

  function Quote(t: Text): Text {
    [QUOTE] + EscapeText(t) + [QUOTE]
  }

  // -------------------------------------------------------------- values

  function Stringify(v: Value): Text {
    match v
    case Null => Ascii("null")
    case Bool(b) => if b then Ascii("true") else Ascii("false")
    case Number(n) => Decimal(n)
    case BigInt(n) => [0x7B] + (Quote(BIGINT_JSON_MARKER) + [0x3A] + Quote(Decimal(n))) + [0x7D]
    case Str(t) => Quote(t)
    case Arr(items) => [0x5B] + Items(items) + [0x5D]
    case Obj(fields) => [0x7B] + Fields(fields) + [0x7D]
  }

  function Items(items: seq<Value>): Text {
    if items == [] then []
    else if |items| == 1 then Stringify(items[0])
    else Stringify(items[0]) + [0x2C] + Items(items[1..])
  }

  function Member(f: Field): Text {
    Quote(f.key) + [0x3A] + Stringify(f.value)
  }

  function Fields(fields: seq<Field>): Text {
    if fields == [] then []
    else if |fields| == 1 then Member(fields[0])
    else Member(fields[0]) + [0x2C] + Fields(fields[1..])
  }

  /** The object a caller may not use: it would read back as a bigint. */
  predicate Reserved(v: Value) {
    v.Obj? && |v.fields| == 1 && v.fields[0].key == BIGINT_JSON_MARKER
  }

  predicate HasReserved(v: Value) {
    Reserved(v)
    || (v.Arr? && exists i :: 0 <= i < |v.items| && HasReserved(v.items[i]))
    || (v.Obj? && exists i :: 0 <= i < |v.fields| && HasReserved(v.fields[i].value))
  }

  predicate HasOversizedBigInt(v: Value) {
    (v.BigInt? && |Digits(if v.n < 0 then -v.n else v.n)| > MAX_SERIALIZED_BIGINT_DIGITS)
    || (v.Arr? && exists i :: 0 <= i < |v.items| && HasOversizedBigInt(v.items[i]))
    || (v.Obj? && exists i :: 0 <= i < |v.fields| && HasOversizedBigInt(v.fields[i].value))
  }

  datatype StringifyError = ReservedMarker | OversizedBigInt

  function StringifyJson(v: Value): Result<Text, StringifyError> {
    if HasReserved(v) then Err(ReservedMarker)
    else if HasOversizedBigInt(v) then Err(OversizedBigInt)
    else Ok(Stringify(v))
  }
}
