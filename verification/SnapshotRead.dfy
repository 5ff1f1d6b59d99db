/**
 Reading the JSON text back, by section 2 of RFC 8259 as far as the writer goes:
 integers only, no insignificant white space, an object's members as written, and
 a marker object revived as a bigint.
 */
module SnapshotRead {
  import opened Prelude
  import opened Utf
  import opened SnapshotJson

  // ------------------------------------------------------------ the reader

  predicate IsDigit(u: Unit) {
    0x30 <= u <= 0x39
  }

  function ReadNat(t: Text, acc: nat): (r: (nat, Text))
    ensures |r.1| <= |t|
    decreases |t|
  {
    if t == [] || !IsDigit(t[0]) then (acc, t) else ReadNat(t[1..], acc * 10 + (t[0] - 0x30))
  }

  function ReadNatural(t: Text): (r: Option<(nat, Text)>)
    ensures r.Some? ==> |r.value.1| < |t|
  {
    if t == [] || !IsDigit(t[0]) then None
    else if t[0] == 0x30 then Some((0, t[1..]))
    else Some(ReadNat(t[1..], t[0] - 0x30))
  }

  function ReadInteger(t: Text): (r: Option<(int, Text)>)
    ensures r.Some? ==> |r.value.1| < |t|
  {
    if t != [] && t[0] == 0x2D then
      if |t| < 2 || t[1] == 0x30 then None
      else
        match ReadNatural(t[1..])
        case None => None
        case Some(n) => var m: int := -(n.0 as int); Some((m, n.1))
    else
      match ReadNatural(t)
      case None => None
      case Some(n) => var m: int := n.0; Some((m, n.1))
  }

  function HexValue(u: Unit): (r: Option<nat>)
    ensures r.Some? ==> r.value < 16
  {
    if IsDigit(u) then Some(u - 0x30)
    else if 0x61 <= u <= 0x66 then Some(u - 0x61 + 10)
    else if 0x41 <= u <= 0x46 then Some(u - 0x41 + 10)
    else None
  }

  function ReadHex(t: Text): (r: Option<Unit>)
    requires |t| >= 4
  {
    var a, b, c, d := HexValue(t[0]), HexValue(t[1]), HexValue(t[2]), HexValue(t[3]);
    if a.None? || b.None? || c.None? || d.None? then None
    else Some(a.value * 0x1000 + b.value * 0x100 + c.value * 16 + d.value)
  }

  /** The unit a two-character escape stands for. */
  function Unescape(letter: Unit): Option<Unit> {
    if letter == 0x62 then Some(0x08)
    else if letter == 0x74 then Some(0x09)
    else if letter == 0x6E then Some(0x0A)
    else if letter == 0x66 then Some(0x0C)
    else if letter == 0x72 then Some(0x0D)
    else if letter == QUOTE || letter == BACKSLASH || letter == 0x2F then Some(letter)
    else None
  }

  function ReadEscape(t: Text): (r: Option<(Unit, Text)>)
    ensures r.Some? ==> |r.value.1| < |t|
  {
    if t == [] then None
    else if t[0] == 0x75 then
      if |t| < 5 || ReadHex(t[1..]).None? then None else Some((ReadHex(t[1..]).value, t[5..]))
    else if Unescape(t[0]).None? then None
    else Some((Unescape(t[0]).value, t[1..]))
  }

  function Prepend(u: Unit, r: Option<(Text, Text)>): Option<(Text, Text)> {
    match r
    case None => None
    case Some(x) => Some(([u] + x.0, x.1))
  }

  /** A string's text up to its closing quote, and what follows. */
  function ReadBody(t: Text): (r: Option<(Text, Text)>)
    ensures r.Some? ==> |r.value.1| < |t|
    decreases |t|
  {
    if t == [] then None
    else if t[0] == QUOTE then Some(([], t[1..]))
    else if t[0] == BACKSLASH then
      match ReadEscape(t[1..])
      case None => None
      case Some(x) => Prepend(x.0, ReadBody(x.1))
    else if t[0] < 0x20 then None
    else Prepend(t[0], ReadBody(t[1..]))
  }

  /** A one-entry marker object with a canonical decimal is a bigint. */
  function Revive(v: Value): Value {
    if !Reserved(v) || !v.fields[0].value.Str? then v
    else
      var t := v.fields[0].value.t;
      match ReadInteger(t)
      case None => v
      case Some(n) =>
        if n.1 != [] || |t| - (if n.0 < 0 then 1 else 0) > MAX_SERIALIZED_BIGINT_DIGITS then v else BigInt(n.0)
  }

  predicate Starts(t: Text, u: Unit) {
    t != [] && t[0] == u
  }

  function ReadValue(t: Text): (r: Option<(Value, Text)>)
    ensures r.Some? ==> |r.value.1| < |t|
    decreases |t|, 0
  {
    if t == [] then None
    else if t[0] == QUOTE then
      (match ReadBody(t[1..])
       case None => None
       case Some(x) => Some((Str(x.0), x.1)))
    else if t[0] == 0x5B then
      if Starts(t[1..], 0x5D) then Some((Arr([]), t[2..]))
      else
        (match ReadItems(t[1..])
         case None => None
         case Some(x) => Some((Arr(x.0), x.1)))
    else if t[0] == 0x7B then
      if Starts(t[1..], 0x7D) then Some((Obj([]), t[2..]))
      else
        (match ReadFields(t[1..])
         case None => None
         case Some(x) => Some((Revive(Obj(x.0)), x.1)))
    else if Ascii("null") <= t then Some((Null, t[4..]))
    else if Ascii("true") <= t then Some((Bool(true), t[4..]))
    else if Ascii("false") <= t then Some((Bool(false), t[5..]))
    else
      match ReadInteger(t)
      case None => None
      case Some(n) => Some((Number(n.0), n.1))
  }

  /** Items up to the closing bracket. */
  function ReadItems(t: Text): (r: Option<(seq<Value>, Text)>)
    ensures r.Some? ==> |r.value.1| < |t|
    decreases |t|, 1
  {
    match ReadValue(t)
    case None => None
    case Some(x) =>
      if Starts(x.1, 0x5D) then Some(([x.0], x.1[1..]))
      else if !Starts(x.1, 0x2C) then None
      else
        match ReadItems(x.1[1..])
        case None => None
        case Some(y) => Some(([x.0] + y.0, y.1))
  }

  /** Members up to the closing brace. */
  function ReadFields(t: Text): (r: Option<(seq<Field>, Text)>)
    ensures r.Some? ==> |r.value.1| < |t|
    decreases |t|, 1
  {
    if !Starts(t, QUOTE) then None
    else
      match ReadBody(t[1..])
      case None => None
      case Some(k) =>
        if !Starts(k.1, 0x3A) then None
        else
          match ReadValue(k.1[1..])
          case None => None
          case Some(x) =>
            if Starts(x.1, 0x7D) then Some(([Field(k.0, x.0)], x.1[1..]))
            else if !Starts(x.1, 0x2C) then None
            else
              match ReadFields(x.1[1..])
              case None => None
              case Some(y) => Some(([Field(k.0, x.0)] + y.0, y.1))
  }

  function ReadJson(t: Text): Option<Value> {
    match ReadValue(t)
    case None => None
    case Some(x) => if x.1 == [] then Some(x.0) else None
  }

  // --------------------------------------------------------------- numbers

  /** What follows does not go on with the number. */
  predicate Ends(rest: Text) {
    rest == [] || !IsDigit(rest[0])
  }

  lemma {:induction false} DigitsRead(n: nat, rest: Text)
    ensures ReadNat(Digits(n) + rest, 0) == ReadNat(rest, n)
    decreases n
  {
    if n < 10 {
      assert (Digits(n) + rest)[1..] == rest;
    } else {
      var d := [0x30 + n % 10];
      assert Digits(n) + rest == Digits(n / 10) + (d + rest);
      DigitsRead(n / 10, d + rest);
      assert (d + rest)[1..] == rest;
    }
  }

  lemma {:induction false} DigitsLead(n: nat)
    ensures IsDigit(Digits(n)[0]) && (n > 0 ==> Digits(n)[0] != 0x30)
    decreases n
  {
    if n >= 10 { DigitsLead(n / 10); }
  }

  lemma {:induction false} NaturalRead(n: nat, rest: Text)
    requires Ends(rest)
    ensures ReadNatural(Digits(n) + rest) == Some((n, rest))
  {
    DigitsRead(n, rest);
    DigitsLead(n);
    var t := Digits(n) + rest;
    assert ReadNat(t, 0) == ReadNat(t[1..], t[0] - 0x30);
    if n == 0 { assert t[1..] == rest; }
  }

  lemma {:induction false} IntegerRead(n: int, rest: Text)
    requires Ends(rest)
    ensures ReadInteger(Decimal(n) + rest) == Some((n, rest))
  {
    hide ReadNatural, Digits;
    if n < 0 {
      NaturalRead(-n, rest);
      DigitsLead(-n);
      var t := Decimal(n) + rest;
      assert t == [0x2D] + (Digits(-n) + rest);
      assert t[1..] == Digits(-n) + rest;
    } else {
      NaturalRead(n, rest);
      DigitsLead(n);
    }
  }

  // --------------------------------------------------------------- strings

  lemma {:induction false} HexRead(u: Unit, rest: Text)
    ensures ReadHex(UnicodeEscape(u)[2..] + rest) == Some(u)
  {
    var t := UnicodeEscape(u)[2..] + rest;
    var a, b, c, d := u / 0x1000, u / 0x100 % 16, u / 16 % 16, u % 16;
    assert t[0] == HexDigit(a) && t[1] == HexDigit(b) && t[2] == HexDigit(c) && t[3] == HexDigit(d);
    hide HexValue, HexDigit, UnicodeEscape;
    HexDigitRead(a);
    HexDigitRead(b);
    HexDigitRead(c);
    HexDigitRead(d);
    HexSplit(u);
  }

  lemma {:induction false} HexDigitRead(d: nat)
    requires d < 16
    ensures HexValue(HexDigit(d)) == Some(d)
  {
  }

  lemma {:induction false} HexSplit(u: nat)
    requires u < 0x10000
    ensures u == u / 0x1000 * 0x1000 + u / 0x100 % 16 * 0x100 + u / 16 % 16 * 16 + u % 16
  {
    assert u == u / 16 * 16 + u % 16;
    assert u / 16 == u / 0x100 * 16 + u / 16 % 16;
    assert u / 0x100 == u / 0x1000 * 16 + u / 0x100 % 16;
  }

  lemma {:induction false} EscapeRead(u: Unit, rest: Text)
    ensures ReadBody(Escape(u) + rest) == Prepend(u, ReadBody(rest))
  {
    hide ReadHex;
    var t := Escape(u) + rest;
    if ShortEscape(u).Some? {
      assert t[1..][1..] == rest;
    } else if u < 0x20 || IsSurrogate(u) {
      HexRead(u, rest);
      assert t[1..][1..] == UnicodeEscape(u)[2..] + rest;
      assert t[1..][5..] == rest;
    } else {
      assert t[1..] == rest;
    }
  }

  /** A quoted text reads back as itself, whatever its units. */
  lemma {:induction false} BodyRead(t: Text, rest: Text)
    ensures ReadBody(EscapeText(t) + ([QUOTE] + rest)) == Some((t, rest))
    decreases |t|
  {
    hide Escape, EscapeText, ReadEscape, ReadBody;
    var tail := [QUOTE] + rest;
    EscapeParts(t, tail);
    if t == [] {
      ClosingRead(rest);
    } else if PairAhead(t) {
      BodyRead(t[2..], rest);
      PairRead(t, EscapeText(t[2..]) + tail, rest);
    } else {
      BodyRead(t[1..], rest);
      EscapeRead(t[0], EscapeText(t[1..]) + tail);
      assert [t[0]] + t[1..] == t;
    }
  }

  lemma {:induction false} EscapeParts(t: Text, tail: Text)
    ensures EscapeText(t) + tail
         == if t == [] then tail
            else if PairAhead(t) then [t[0]] + ([t[1]] + (EscapeText(t[2..]) + tail))
            else Escape(t[0]) + (EscapeText(t[1..]) + tail)
  {
    hide Escape;
  }

  lemma {:induction false} ClosingRead(rest: Text)
    ensures ReadBody([QUOTE] + rest) == Some(([], rest))
  {
    assert ([QUOTE] + rest)[1..] == rest;
  }

  lemma {:induction false} PairRead(t: Text, after: Text, rest: Text)
    requires PairAhead(t) && ReadBody(after) == Some((t[2..], rest))
    ensures ReadBody([t[0]] + ([t[1]] + after)) == Some((t, rest))
  {
    hide ReadBody;
    PlainRead(t[0], [t[1]] + after);
    PlainRead(t[1], after);
    assert [t[0]] + ([t[1]] + t[2..]) == t;
  }

  lemma {:induction false} PlainRead(u: Unit, rest: Text)
    requires IsSurrogate(u)
    ensures ReadBody([u] + rest) == Prepend(u, ReadBody(rest))
  {
    assert ([u] + rest)[1..] == rest;
  }

  lemma {:induction false} QuoteRead(t: Text, rest: Text)
    ensures ReadBody((Quote(t) + rest)[1..]) == Some((t, rest)) && Starts(Quote(t) + rest, QUOTE)
  {
    hide EscapeText, ReadBody;
    BodyRead(t, rest);
    assert (Quote(t) + rest)[1..] == EscapeText(t) + ([QUOTE] + rest);
  }

  // ---------------------------------------------------------------- values

  /** The first unit of a value's text, by the kind of value. */
  lemma {:induction false} FirstUnit(v: Value)
    ensures Stringify(v) != [] && Stringify(v)[0] != 0x5D && Stringify(v)[0] != 0x7D
  {
    hide EscapeText, Digits, Items, Fields;
    match v
    case Number(n) => DigitsLead(if n < 0 then -n else n);
    case _ =>
  }

  lemma {:induction false} WordRead(v: Value, rest: Text)
    requires v.Null? || v.Bool?
    ensures ReadValue(Stringify(v) + rest) == Some((v, rest))
  {
    var t := Stringify(v) + rest;
    assert t[|Stringify(v)|..] == rest;
    match v
    case Null => Words();
    case Bool(b) => Words();
  }

  lemma {:induction false} Words()
    ensures Ascii("null") == [0x6E, 0x75, 0x6C, 0x6C] && Ascii("true") == [0x74, 0x72, 0x75, 0x65]
    ensures Ascii("false") == [0x66, 0x61, 0x6C, 0x73, 0x65]
  {
    assert "null"[1..] == "ull" && "ull"[1..] == "ll" && "ll"[1..] == "l" && "l"[1..] == "";
    assert "true"[1..] == "rue" && "rue"[1..] == "ue" && "ue"[1..] == "e" && "e"[1..] == "";
    assert "false"[1..] == "alse" && "alse"[1..] == "lse" && "lse"[1..] == "se" && "se"[1..] == "e";
  }

  lemma {:induction false} NumberRead(n: int, rest: Text)
    requires Ends(rest)
    ensures ReadValue(Stringify(Number(n)) + rest) == Some((Number(n), rest))
  {
    hide ReadInteger, Digits;
    Words();
    IntegerRead(n, rest);
    DigitsLead(if n < 0 then -n else n);
    var t := Stringify(Number(n)) + rest;
    assert t[0] == 0x2D || IsDigit(t[0]);
    assert t[0] != 0x6E && t[0] != 0x74 && t[0] != 0x66;
  }

  lemma {:induction false} StringRead(t: Text, rest: Text)
    ensures ReadValue(Stringify(Str(t)) + rest) == Some((Str(t), rest))
  {
    hide ReadBody, Quote;
    QuoteRead(t, rest);
  }

  /** One member, then what stands after it. */
  lemma {:induction false} MemberRead(key: Text, v: Value, rest: Text)
    requires ReadValue(Stringify(v) + rest) == Some((v, rest))
    ensures var t := Quote(key) + [0x3A] + Stringify(v) + rest;
            && Starts(t, QUOTE) && ReadBody(t[1..]) == Some((key, [0x3A] + Stringify(v) + rest))
            && ReadValue(([0x3A] + Stringify(v) + rest)[1..]) == Some((v, rest))
  {
    hide ReadBody, Quote, ReadValue, Stringify;
    var after := [0x3A] + Stringify(v) + rest;
    QuoteRead(key, after);
    assert Quote(key) + [0x3A] + Stringify(v) + rest == Quote(key) + after;
    assert after[1..] == Stringify(v) + rest;
  }

  lemma {:induction false} BigIntRead(n: int, rest: Text)
    requires |Digits(if n < 0 then -n else n)| <= MAX_SERIALIZED_BIGINT_DIGITS
    ensures ReadValue(Stringify(BigInt(n)) + rest) == Some((BigInt(n), rest))
  {
    hide ReadValue, ReadBody, Quote, Decimal, Digits, ReadInteger, Revive, Ascii;
    EntryRead(BIGINT_JSON_MARKER, Decimal(n), rest);
    Revived(n);
  }

  /** A one-entry object with a text, whatever its name. */
  lemma {:induction false} EntryRead(key: Text, text: Text, rest: Text)
    ensures ReadValue([0x7B] + (Quote(key) + [0x3A] + Quote(text)) + [0x7D] + rest)
         == Some((Revive(Obj([Field(key, Str(text))])), rest))
  {
    hide ReadValue, ReadBody, Quote, ReadFields, Revive;
    var v := Str(text);
    var close := [0x7D] + rest;
    StringRead(text, close);
    MemberRead(key, v, close);
    var inner := Quote(key) + [0x3A] + Stringify(v) + close;
    OneField(inner, key, v, [0x3A] + Stringify(v) + close, rest);
    var t := [0x7B] + (Quote(key) + [0x3A] + Quote(text)) + [0x7D] + rest;
    assert t == [0x7B] + inner;
    ObjectOpens(inner, [Field(key, v)], rest);
  }

  lemma {:induction false} ObjectOpens(inner: Text, fields: seq<Field>, rest: Text)
    requires Starts(inner, QUOTE) && ReadFields(inner) == Some((fields, rest))
    ensures ReadValue([0x7B] + inner) == Some((Revive(Obj(fields)), rest))
  {
    hide ReadFields, ReadItems, ReadBody, Revive, Ascii;
    assert ([0x7B] + inner)[1..] == inner;
  }

  lemma {:induction false} Revived(n: int)
    requires |Digits(if n < 0 then -n else n)| <= MAX_SERIALIZED_BIGINT_DIGITS
    ensures Revive(Obj([Field(BIGINT_JSON_MARKER, Str(Decimal(n)))])) == BigInt(n)
  {
    hide ReadInteger, Digits, Ascii;
    IntegerRead(n, []);
    assert Decimal(n) + [] == Decimal(n);
  }

  lemma {:induction false} OneField(t: Text, key: Text, v: Value, after: Text, rest: Text)
    requires Starts(t, QUOTE) && ReadBody(t[1..]) == Some((key, after)) && Starts(after, 0x3A)
    requires ReadValue(after[1..]) == Some((v, [0x7D] + rest))
    ensures ReadFields(t) == Some(([Field(key, v)], rest))
  {
    hide ReadBody, ReadValue;
    assert ([0x7D] + rest)[1..] == rest;
  }

  lemma {:induction false} ItemsRead(items: seq<Value>, rest: Text)
    requires items != [] && forall i :: 0 <= i < |items| ==> Writable(items[i])
    ensures ReadItems(Items(items) + ([0x5D] + rest)) == Some((items, rest))
    decreases items, |items|
  {
    hide ReadValue, Stringify, Writable;
    var close := [0x5D] + rest;
    assert close[1..] == rest;
    if |items| == 1 {
      ReadBack(items[0], close);
      assert items == [items[0]];
    } else {
      var after := [0x2C] + (Items(items[1..]) + close);
      ReadBack(items[0], after);
      ItemsRead(items[1..], rest);
      assert Items(items) + close == Stringify(items[0]) + after;
      assert after[1..] == Items(items[1..]) + close;
      assert [items[0]] + items[1..] == items;
    }
  }

  lemma {:induction false} FieldsRead(fields: seq<Field>, rest: Text)
    requires fields != [] && forall i :: 0 <= i < |fields| ==> Writable(fields[i].value)
    ensures ReadFields(Fields(fields) + ([0x7D] + rest)) == Some((fields, rest))
    decreases fields, |fields|
  {
    hide ReadValue, ReadBody, ReadFields, Stringify, Quote, Writable;
    var f := fields[0];
    var close := [0x7D] + rest;
    if |fields| == 1 {
      ReadBack(f.value, close);
      MemberRead(f.key, f.value, close);
      assert Fields(fields) + close == Quote(f.key) + [0x3A] + Stringify(f.value) + close;
      OneField(Fields(fields) + close, f.key, f.value, [0x3A] + Stringify(f.value) + close, rest);
      assert fields == [f];
    } else {
      var more := Fields(fields[1..]) + close;
      ReadBack(f.value, [0x2C] + more);
      FieldsRead(fields[1..], rest);
      hide Fields;
      FieldsApart(fields, close);
      MoreFields(f, more, fields[1..], rest);
      assert [f] + fields[1..] == fields;
    }
  }

  lemma {:induction false} FieldsApart(fields: seq<Field>, close: Text)
    requires |fields| > 1
    ensures Fields(fields) + close
         == Quote(fields[0].key) + [0x3A] + Stringify(fields[0].value) + ([0x2C] + (Fields(fields[1..]) + close))
  {
    hide Quote, Stringify;
  }

  lemma {:induction false} MoreFields(f: Field, more: Text, fields: seq<Field>, rest: Text)
    requires ReadValue(Stringify(f.value) + ([0x2C] + more)) == Some((f.value, [0x2C] + more))
    requires ReadFields(more) == Some((fields, rest))
    ensures ReadFields(Quote(f.key) + [0x3A] + Stringify(f.value) + ([0x2C] + more)) == Some(([f] + fields, rest))
  {
    hide ReadValue, ReadBody, ReadFields, Stringify, Quote;
    MemberRead(f.key, f.value, [0x2C] + more);
    NextField(Quote(f.key) + [0x3A] + Stringify(f.value) + ([0x2C] + more), f.key, f.value,
              [0x3A] + Stringify(f.value) + ([0x2C] + more), more, fields, rest);
  }

  lemma {:induction false} NextField(t: Text, key: Text, v: Value, after: Text, more: Text, fields: seq<Field>, rest: Text)
    requires Starts(t, QUOTE) && ReadBody(t[1..]) == Some((key, after)) && Starts(after, 0x3A)
    requires ReadValue(after[1..]) == Some((v, [0x2C] + more)) && ReadFields(more) == Some((fields, rest))
    ensures ReadFields(t) == Some(([Field(key, v)] + fields, rest))
  {
    hide ReadBody, ReadValue;
    assert ([0x2C] + more)[1..] == more;
  }

  predicate Writable(v: Value) {
    !HasReserved(v) && !HasOversizedBigInt(v)
  }

  /** What was written is read back, whatever stands after it. */
  lemma {:induction false} ReadBack(v: Value, rest: Text)
    requires Writable(v) && Ends(rest)
    ensures ReadValue(Stringify(v) + rest) == Some((v, rest))
    decreases v, 0
  {
    match v
    case Null => WordRead(v, rest);
    case Bool(_) => WordRead(v, rest);
    case Number(n) => NumberRead(n, rest);
    case BigInt(n) => BigIntRead(n, rest);
    case Str(t) => StringRead(t, rest);
    case Arr(items) => ArrayRead(items, rest);
    case Obj(fields) => ObjectRead(fields, rest);
  }

  lemma {:induction false} ArrayRead(items: seq<Value>, rest: Text)
    requires Writable(Arr(items))
    ensures ReadValue(Stringify(Arr(items)) + rest) == Some((Arr(items), rest))
    decreases items, |items| + 1
  {
    hide ReadItems, Items;
    var t := Stringify(Arr(items)) + rest;
    if items == [] {
      EmptyItems();
      assert t == [0x5B, 0x5D] + rest && t[2..] == rest;
    } else {
      ItemsRead(items, rest);
      assert t[1..] == Items(items) + ([0x5D] + rest);
      ItemsStart(items);
    }
  }

  lemma {:induction false} EmptyItems()
    ensures Items([]) == [] && Fields([]) == []
  {
  }

  lemma {:induction false} ItemsStart(items: seq<Value>)
    requires items != []
    ensures Items(items) != [] && Items(items)[0] != 0x5D
  {
    hide Stringify;
    FirstUnit(items[0]);
  }

  lemma {:induction false} ObjectRead(fields: seq<Field>, rest: Text)
    requires Writable(Obj(fields))
    ensures ReadValue(Stringify(Obj(fields)) + rest) == Some((Obj(fields), rest))
    decreases fields, |fields| + 1
  {
    hide ReadFields, Fields;
    var t := Stringify(Obj(fields)) + rest;
    if fields == [] {
      EmptyItems();
      assert t == [0x7B, 0x7D] + rest && t[2..] == rest;
    } else {
      FieldsRead(fields, rest);
      assert t[1..] == Fields(fields) + ([0x7D] + rest);
      FieldsStart(fields);
    }
  }

  lemma {:induction false} FieldsStart(fields: seq<Field>)
    requires fields != []
    ensures Fields(fields) != [] && Fields(fields)[0] == QUOTE
  {
    hide Stringify, EscapeText;
  }

  // -------------------------------------------------------------- theorems

  /** Every value that can be written is read back from its text. */
  lemma {:induction false} RoundTrip(v: Value)
    requires StringifyJson(v).Ok?
    ensures ReadJson(StringifyJson(v).value) == Some(v)
  {
    hide ReadValue, Stringify, HasReserved, HasOversizedBigInt;
    ReadBack(v, []);
    assert Stringify(v) + [] == Stringify(v);
  }

  /** No two values have the same text. */
  lemma {:induction false} TextsDiffer(a: Value, b: Value)
    requires StringifyJson(a).Ok? && StringifyJson(b).Ok? && a != b
    ensures StringifyJson(a) != StringifyJson(b)
  {
    hide StringifyJson, ReadJson;
    RoundTrip(a);
    RoundTrip(b);
  }

  /** Why a marker object is refused: written, a decimal one would read back as a bigint. */
  lemma {:induction false} MarkerWouldCollide(n: int)
    ensures var marked := Obj([Field(BIGINT_JSON_MARKER, Str(Decimal(n)))]);
            HasReserved(marked) && Stringify(marked) == Stringify(BigInt(n))
  {
    hide Quote, Decimal, Ascii;
    var f := Field(BIGINT_JSON_MARKER, Str(Decimal(n)));
    assert Fields([f]) == Member(f) == Quote(BIGINT_JSON_MARKER) + [0x3A] + Quote(Decimal(n));
    assert Obj([f]).fields[0] == f && Reserved(Obj([f]));
  }
}
