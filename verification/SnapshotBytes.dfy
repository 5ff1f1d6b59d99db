/**
 Predicting the size of a snapshot's JSON text without building it: what the
 traversal accounts, and that it is the true UTF-8 size for every value.
 */
module SnapshotBytes {
  import opened Prelude
  import opened Utf
  import opened SnapshotJson

  const MAX_ITEMS: nat := 4096
  const MAX_NODES: nat := 98304
  const MAX_DEPTH: nat := 64
  const MAX_STRING_BYTES: nat := 16384
  const MAX_TEXT_BYTES: nat := 1048576

  datatype Error = TooManyNodes | TooDeep | TextTooLarge | SerializationTooLarge | BigIntTooLarge | InvalidNumber | InvalidLength

  datatype Counters = Counters(nodes: nat, text: nat, serialized: nat)

  // ------------------------------------------------------------- strings

  /** What one code unit adds when it does not start a pair. */
  function UnitBytes(u: Unit): nat {
    if u == QUOTE || u == BACKSLASH then 2
    else if u <= 0x1F then (if u == 0x08 || u == 0x09 || u == 0x0A || u == 0x0C || u == 0x0D then 2 else 6)
    else if u <= 0x7F then 1
    else if u <= 0x7FF then 2
    else if IsSurrogate(u) then 6
    else 3
  }

  function BodyBytes(t: Text): nat {
    if t == [] then 0
    else if PairAhead(t) then 4 + BodyBytes(t[2..])
    else UnitBytes(t[0]) + BodyBytes(t[1..])
  }

  lemma {:induction false} EscapeBytes(u: Unit)
    ensures |Utf8(Escape(u))| == UnitBytes(u)
    ensures !IsHigh(Escape(u)[|Escape(u)| - 1]) && !IsLow(Escape(u)[0])
  {
    var e := Escape(u);
    if e == [u] {
      assert Utf8(e) == EncodeUnit(u) + Utf8([]);
    } else {
      Utf8Ascii(e);
    }
  }

  lemma {:induction false} EscapeTextBytes(t: Text)
    ensures |Utf8(EscapeText(t))| == BodyBytes(t)
    decreases |t|
  {
    hide Escape, UnitBytes;
    if t != [] {
      if PairAhead(t) {
        EscapeTextBytes(t[2..]);
        var rest := EscapeText(t[2..]);
        assert ([t[0], t[1]] + rest)[2..] == rest;
      } else {
        EscapeTextBytes(t[1..]);
        EscapeBytes(t[0]);
        Utf8Concat(Escape(t[0]), EscapeText(t[1..]));
      }
    }
  }

  /** A quoted string takes exactly the bytes the loop counts, for every UTF-16 string. */
  lemma {:induction false} QuoteBytes(t: Text)
    ensures |Utf8(Quote(t))| == 2 + BodyBytes(t)
  {
    hide EscapeText, BodyBytes;
    var body := EscapeText(t);
    EscapeTextBytes(t);
    Utf8Concat([QUOTE], body);
    Utf8Concat([QUOTE] + body, [QUOTE]);
    Utf8Ascii([QUOTE]);
  }

  /** The loop, with the index that skips the second half of a pair. */
  method JsonStringBytes(t: Text) returns (bytes: nat)
    ensures bytes == |Utf8(Quote(t))|
  {
    bytes := 2;
    var i := 0;
    while i < |t|
      invariant i <= |t| && bytes + BodyBytes(t[i..]) == 2 + BodyBytes(t)
    {
      var u := t[i];
      assert t[i..][1..] == t[i + 1..];
      if u == 0x22 || u == 0x5C {
        bytes := bytes + 2;
      } else if u <= 0x1F {
        bytes := bytes + if u == 0x08 || u == 0x09 || u == 0x0A || u == 0x0C || u == 0x0D then 2 else 6;
      } else if u <= 0x7F {
        bytes := bytes + 1;
      } else if u <= 0x7FF {
        bytes := bytes + 2;
      } else if 0xD800 <= u <= 0xDBFF {
        if i + 1 < |t| && 0xDC00 <= t[i + 1] <= 0xDFFF {
          assert t[i..][2..] == t[i + 2..];
          bytes := bytes + 4;
          i := i + 1;
        } else {
          bytes := bytes + 6;
        }
      } else if 0xDC00 <= u <= 0xDFFF {
        bytes := bytes + 6;
      } else {
        bytes := bytes + 3;
      }
      i := i + 1;
    }
    QuoteBytes(t);
  }

  // -------------------------------------------------------- the traversal

  function AccountSerialized(c: Counters, bytes: nat): Result<Counters, Error> {
    if c.serialized + bytes > MAX_TEXT_BYTES then Err(SerializationTooLarge)
    else Ok(c.(serialized := c.serialized + bytes))
  }

  function AccountText(c: Counters, t: Text): Result<Counters, Error> {
    var bytes := |Utf8(t)|;
    if bytes > MAX_STRING_BYTES || c.text + bytes > MAX_TEXT_BYTES then Err(TextTooLarge)
    else Ok(c.(text := c.text + bytes))
  }

  function QuotedBytes(t: Text): nat {
    2 + BodyBytes(t)
  }

  function Magnitude(n: int): Text {
    Digits(if n < 0 then -n else n)
  }

  predicate Safe(n: int) {
    -(MAX_SAFE as int) <= n <= MAX_SAFE
  }

  function Separators(count: nat): nat {
    2 + if count == 0 then 0 else count - 1
  }

  function Snap(v: Value, depth: nat, c: Counters): Result<Counters, Error>
    decreases v, 0
  {
    if c.nodes + 1 > MAX_NODES then Err(TooManyNodes)
    else
      var c := c.(nodes := c.nodes + 1);
      if depth > MAX_DEPTH then Err(TooDeep)
      else
        match v
        case Str(t) =>
          (match AccountText(c, t)
           case Err(e) => Err(e)
           case Ok(c) => AccountSerialized(c, QuotedBytes(t)))
        case Null => AccountSerialized(c, 4)
        case Bool(b) => AccountSerialized(c, if b then 4 else 5)
        case BigInt(n) =>
          if |Magnitude(n)| > MAX_SERIALIZED_BIGINT_DIGITS then Err(BigIntTooLarge)
          else AccountSerialized(c, 2 + QuotedBytes(BIGINT_JSON_MARKER) + 1 + QuotedBytes(Decimal(n)))
        case Number(n) => if !Safe(n) then Err(InvalidNumber) else AccountSerialized(c, |Decimal(n)|)
        case Arr(items) =>
          if |items| > MAX_ITEMS then Err(InvalidLength)
          else
            (match AccountSerialized(c, Separators(|items|))
             case Err(e) => Err(e)
             case Ok(c) => SnapItems(items, 0, depth + 1, c))
        case Obj(fields) =>
          match AccountSerialized(c, Separators(|fields|))
          case Err(e) => Err(e)
          case Ok(c) => SnapFields(fields, depth + 1, c)
  }

  function SnapItems(items: seq<Value>, index: nat, depth: nat, c: Counters): Result<Counters, Error>
    decreases items, |items|
  {
    if items == [] then Ok(c)
    else
      match AccountText(c, Digits(index))
      case Err(e) => Err(e)
      case Ok(c) =>
        match Snap(items[0], depth, c)
        case Err(e) => Err(e)
        case Ok(c) => SnapItems(items[1..], index + 1, depth, c)
  }

  function SnapFields(fields: seq<Field>, depth: nat, c: Counters): Result<Counters, Error>
    decreases fields, |fields|
  {
    if fields == [] then Ok(c)
    else
      match AccountText(c, fields[0].key)
      case Err(e) => Err(e)
      case Ok(c) =>
        match AccountSerialized(c, QuotedBytes(fields[0].key) + 1)
        case Err(e) => Err(e)
        case Ok(c) =>
          match Snap(fields[0].value, depth, c)
          case Err(e) => Err(e)
          case Ok(c) => SnapFields(fields[1..], depth, c)
  }

  // ---------------------------------------------- what it adds up to

  function Nodes(v: Value): nat
    decreases v, 0
  {
    match v
    case Arr(items) => 1 + ItemNodes(items)
    case Obj(fields) => 1 + FieldNodes(fields)
    case _ => 1
  }

  function ItemNodes(items: seq<Value>): nat
    decreases items, |items|
  {
    if items == [] then 0 else Nodes(items[0]) + ItemNodes(items[1..])
  }

  function FieldNodes(fields: seq<Field>): nat
    decreases fields, |fields|
  {
    if fields == [] then 0 else Nodes(fields[0].value) + FieldNodes(fields[1..])
  }

  /** Bytes of the strings, property names and array indexes of a value. */
  function TextBytes(v: Value): nat
    decreases v, 0
  {
    match v
    case Str(t) => |Utf8(t)|
    case Arr(items) => ItemText(items, 0)
    case Obj(fields) => FieldText(fields)
    case _ => 0
  }

  function ItemText(items: seq<Value>, index: nat): nat
    decreases items, |items|
  {
    if items == [] then 0 else |Utf8(Digits(index))| + TextBytes(items[0]) + ItemText(items[1..], index + 1)
  }

  function FieldText(fields: seq<Field>): nat
    decreases fields, |fields|
  {
    if fields == [] then 0 else |Utf8(fields[0].key)| + TextBytes(fields[0].value) + FieldText(fields[1..])
  }

  /** Each part is within its own limit, whatever the totals. */
  predicate Shape(v: Value, depth: nat)
    decreases v, 0
  {
    && depth <= MAX_DEPTH
    && match v
       case Str(t) => |Utf8(t)| <= MAX_STRING_BYTES
       case BigInt(n) => |Magnitude(n)| <= MAX_SERIALIZED_BIGINT_DIGITS
       case Number(n) => Safe(n)
       case Arr(items) => |items| <= MAX_ITEMS && ItemShapes(items, depth + 1)
       case Obj(fields) => FieldShapes(fields, depth + 1)
       case _ => true
  }

  predicate ItemShapes(items: seq<Value>, depth: nat)
    decreases items, |items|
  {
    items == [] || (Shape(items[0], depth) && ItemShapes(items[1..], depth))
  }

  predicate FieldShapes(fields: seq<Field>, depth: nat)
    decreases fields, |fields|
  {
    fields == [] ||
    (|Utf8(fields[0].key)| <= MAX_STRING_BYTES && Shape(fields[0].value, depth) && FieldShapes(fields[1..], depth))
  }

  /** The size the traversal accounts for a value. */
  function Bytes(v: Value): nat
    decreases v, 0
  {
    match v
    case Null => 4
    case Bool(b) => if b then 4 else 5
    case Number(n) => |Decimal(n)|
    case BigInt(n) => 2 + QuotedBytes(BIGINT_JSON_MARKER) + 1 + QuotedBytes(Decimal(n))
    case Str(t) => QuotedBytes(t)
    case Arr(items) => Separators(|items|) + ItemBytes(items)
    case Obj(fields) => Separators(|fields|) + FieldBytes(fields)
  }

  function ItemBytes(items: seq<Value>): nat
    decreases items, |items|
  {
    if items == [] then 0 else Bytes(items[0]) + ItemBytes(items[1..])
  }

  function FieldBytes(fields: seq<Field>): nat
    decreases fields, |fields|
  {
    if fields == [] then 0
    else QuotedBytes(fields[0].key) + 1 + Bytes(fields[0].value) + FieldBytes(fields[1..])
  }

  // ------------------------------------------------ the true JSON size

  /** Around an ASCII separator sizes add: it splits no pair. */
  lemma {:induction false} Joined(a: Text, mid: Unit, b: Text)
    requires mid < 0x80
    ensures |Utf8(a + [mid] + b)| == |Utf8(a)| + 1 + |Utf8(b)|
  {
    Utf8Concat(a, [mid]);
    Utf8Concat(a + [mid], b);
    Utf8Ascii([mid]);
  }

  lemma {:induction false} Wrapped(open: Unit, body: Text, close: Unit)
    requires open < 0x80 && close < 0x80
    ensures |Utf8([open] + body + [close])| == 2 + |Utf8(body)|
  {
    Joined([], open, body);
    assert [] + [open] + body == [open] + body;
    Joined([open] + body, close, []);
    assert [open] + body + [close] + [] == [open] + body + [close];
  }

  /** The accounted size of a value is the UTF-8 size of its JSON text. */
  lemma {:induction false} BytesExact(v: Value)
    ensures Bytes(v) == |Utf8(Stringify(v))|
    decreases v, 0
  {
    hide Utf8, BodyBytes, Quote, Ascii, Decimal, Items, Fields, ItemBytes, FieldBytes;
    match v
    case Null => Utf8Ascii(Stringify(v));
    case Bool(b) => Utf8Ascii(Stringify(v));
    case Number(n) => Utf8Ascii(Stringify(v));
    case BigInt(n) => BigIntExact(n);
    case Str(t) => QuoteBytes(t);
    case Arr(items) =>
      ItemsExact(items);
      Wrapped(0x5B, Items(items), 0x5D);
    case Obj(fields) =>
      FieldsExact(fields);
      Wrapped(0x7B, Fields(fields), 0x7D);
  }

  lemma {:induction false} BigIntExact(n: int)
    ensures Bytes(BigInt(n)) == |Utf8(Stringify(BigInt(n)))|
  {
    hide Utf8, BodyBytes, Quote, Ascii, Decimal;
    QuoteBytes(BIGINT_JSON_MARKER);
    QuoteBytes(Decimal(n));
    Joined(Quote(BIGINT_JSON_MARKER), 0x3A, Quote(Decimal(n)));
    Wrapped(0x7B, Quote(BIGINT_JSON_MARKER) + [0x3A] + Quote(Decimal(n)), 0x7D);
  }

  lemma {:induction false} ItemsExact(items: seq<Value>)
    ensures Separators(|items|) + ItemBytes(items) == 2 + |Utf8(Items(items))|
    decreases items, |items|
  {
    hide Bytes, Stringify;
    if items != [] {
      BytesExact(items[0]);
      ItemsExact(items[1..]);
      if |items| == 1 {
        assert items[1..] == [];
      } else {
        Joined(Stringify(items[0]), 0x2C, Items(items[1..]));
      }
    }
  }

  lemma {:induction false} FieldsExact(fields: seq<Field>)
    ensures Separators(|fields|) + FieldBytes(fields) == 2 + |Utf8(Fields(fields))|
    decreases fields, |fields|
  {
    hide Bytes, Stringify, Quote, BodyBytes;
    if fields != [] {
      var f := fields[0];
      BytesExact(f.value);
      QuoteBytes(f.key);
      Joined(Quote(f.key), 0x3A, Stringify(f.value));
      FieldsExact(fields[1..]);
      if |fields| == 1 {
        assert fields[1..] == [];
      } else {
        Joined(Member(f), 0x2C, Fields(fields[1..]));
      }
    }
  }

  // -------------------------------------------- accepted exactly in limits

  predicate Within(c: Counters) {
    c.nodes <= MAX_NODES && c.text <= MAX_TEXT_BYTES && c.serialized <= MAX_TEXT_BYTES
  }

  function Plus(c: Counters, nodes: nat, text: nat, bytes: nat): Counters {
    Counters(c.nodes + nodes, c.text + text, c.serialized + bytes)
  }

  /**
   The traversal accepts a value exactly when each part is within its own limit
   and each of the three totals is within its limit, and then it has added
   exactly those totals.
   */
  lemma {:induction false} SnapExact(v: Value, depth: nat, c: Counters)
    requires Within(c)
    ensures Snap(v, depth, c).Ok? <==> Shape(v, depth) && Within(Plus(c, Nodes(v), TextBytes(v), Bytes(v)))
    ensures Snap(v, depth, c).Ok? ==> Snap(v, depth, c).value == Plus(c, Nodes(v), TextBytes(v), Bytes(v))
    decreases v, 0
  {
    hide Snap, Shape, Nodes, TextBytes, Bytes;
    match v
    case Arr(items) => SnapArrayExact(items, depth, c);
    case Obj(fields) => SnapObjectExact(fields, depth, c);
    case _ => SnapLeafExact(v, depth, c);
  }

  lemma {:induction false} SnapLeafExact(v: Value, depth: nat, c: Counters)
    requires Within(c) && !v.Arr? && !v.Obj?
    ensures Snap(v, depth, c).Ok? <==> Shape(v, depth) && Within(Plus(c, Nodes(v), TextBytes(v), Bytes(v)))
    ensures Snap(v, depth, c).Ok? ==> Snap(v, depth, c).value == Plus(c, Nodes(v), TextBytes(v), Bytes(v))
  {
    hide Utf8, QuotedBytes, Digits, Magnitude, Decimal, Ascii;
  }

  lemma {:induction false} SnapArrayExact(items: seq<Value>, depth: nat, c: Counters)
    requires Within(c)
    ensures var v := Arr(items);
            && (Snap(v, depth, c).Ok? <==> Shape(v, depth) && Within(Plus(c, Nodes(v), TextBytes(v), Bytes(v))))
            && (Snap(v, depth, c).Ok? ==> Snap(v, depth, c).value == Plus(c, Nodes(v), TextBytes(v), Bytes(v)))
    decreases items, |items| + 1
  {
    hide SnapItems, ItemShapes, ItemNodes, ItemText, ItemBytes;
    var c1 := c.(nodes := c.nodes + 1);
    if |items| <= MAX_ITEMS && Within(c1) && AccountSerialized(c1, Separators(|items|)).Ok? {
      SnapItemsExact(items, 0, depth + 1, AccountSerialized(c1, Separators(|items|)).value);
    }
  }

  lemma {:induction false} SnapObjectExact(fields: seq<Field>, depth: nat, c: Counters)
    requires Within(c)
    ensures var v := Obj(fields);
            && (Snap(v, depth, c).Ok? <==> Shape(v, depth) && Within(Plus(c, Nodes(v), TextBytes(v), Bytes(v))))
            && (Snap(v, depth, c).Ok? ==> Snap(v, depth, c).value == Plus(c, Nodes(v), TextBytes(v), Bytes(v)))
    decreases fields, |fields| + 1
  {
    hide SnapFields, FieldShapes, FieldNodes, FieldText, FieldBytes;
    var c1 := c.(nodes := c.nodes + 1);
    if Within(c1) && AccountSerialized(c1, Separators(|fields|)).Ok? {
      SnapFieldsExact(fields, depth + 1, AccountSerialized(c1, Separators(|fields|)).value);
    }
  }

  lemma {:induction false} IndexBytes(index: nat)
    requires index < MAX_ITEMS
    ensures |Utf8(Digits(index))| <= 4
  {
    Utf8Ascii(Digits(index));
    if index >= 10 {
      var tens := index / 10;
      assert |Digits(index)| == |Digits(tens)| + 1;
      if tens >= 10 { assert |Digits(tens)| == |Digits(tens / 10)| + 1; }
    }
  }

  lemma {:induction false} SnapItemsExact(items: seq<Value>, index: nat, depth: nat, c: Counters)
    requires Within(c) && index + |items| <= MAX_ITEMS
    ensures SnapItems(items, index, depth, c).Ok? <==>
            ItemShapes(items, depth) && Within(Plus(c, ItemNodes(items), ItemText(items, index), ItemBytes(items)))
    ensures SnapItems(items, index, depth, c).Ok? ==>
              SnapItems(items, index, depth, c).value == Plus(c, ItemNodes(items), ItemText(items, index), ItemBytes(items))
    decreases items, |items|
  {
    hide Utf8, Snap, Nodes, TextBytes, Bytes, Shape;
    if items != [] {
      IndexBytes(index);
      var a := AccountText(c, Digits(index));
      if a.Ok? {
        SnapExact(items[0], depth, a.value);
        var b := Snap(items[0], depth, a.value);
        if b.Ok? {
          SnapItemsExact(items[1..], index + 1, depth, b.value);
        }
      }
    }
  }

  lemma {:induction false} SnapFieldsExact(fields: seq<Field>, depth: nat, c: Counters)
    requires Within(c)
    ensures SnapFields(fields, depth, c).Ok? <==>
            FieldShapes(fields, depth) && Within(Plus(c, FieldNodes(fields), FieldText(fields), FieldBytes(fields)))
    ensures SnapFields(fields, depth, c).Ok? ==>
              SnapFields(fields, depth, c).value == Plus(c, FieldNodes(fields), FieldText(fields), FieldBytes(fields))
    decreases fields, |fields|
  {
    hide Utf8, Snap, Nodes, TextBytes, Bytes, Shape, BodyBytes;
    if fields != [] {
      var a := AccountText(c, fields[0].key);
      if a.Ok? {
        var b := AccountSerialized(a.value, QuotedBytes(fields[0].key) + 1);
        if b.Ok? {
          SnapExact(fields[0].value, depth, b.value);
          var d := Snap(fields[0].value, depth, b.value);
          if d.Ok? {
            SnapFieldsExact(fields[1..], depth, d.value);
          }
        }
      }
    }
  }

  // ---------------------------------------------------- the size limit

  /** When the traversal says the text is too large, the text really is. */
  lemma {:induction false} SizeErrorTruthful(v: Value, depth: nat, c: Counters)
    ensures Snap(v, depth, c) == Err(SerializationTooLarge) ==> c.serialized + Bytes(v) > MAX_TEXT_BYTES
    ensures Snap(v, depth, c).Ok? ==> Snap(v, depth, c).value.serialized == c.serialized + Bytes(v)
    decreases v, 0
  {
    hide Utf8, QuotedBytes, Digits, Magnitude, Decimal, Ascii, SnapItems, SnapFields, ItemBytes, FieldBytes;
    var c1 := c.(nodes := c.nodes + 1);
    if v.Arr? && AccountSerialized(c1, Separators(|v.items|)).Ok? {
      ItemsErrorTruthful(v.items, 0, depth + 1, AccountSerialized(c1, Separators(|v.items|)).value);
    } else if v.Obj? && AccountSerialized(c1, Separators(|v.fields|)).Ok? {
      FieldsErrorTruthful(v.fields, depth + 1, AccountSerialized(c1, Separators(|v.fields|)).value);
    }
  }

  lemma {:induction false} ItemsErrorTruthful(items: seq<Value>, index: nat, depth: nat, c: Counters)
    ensures SnapItems(items, index, depth, c) == Err(SerializationTooLarge) ==>
              c.serialized + ItemBytes(items) > MAX_TEXT_BYTES
    ensures SnapItems(items, index, depth, c).Ok? ==>
              SnapItems(items, index, depth, c).value.serialized == c.serialized + ItemBytes(items)
    decreases items, |items|
  {
    hide Utf8, Snap, Bytes;
    if items != [] {
      var a := AccountText(c, Digits(index));
      if a.Ok? {
        SizeErrorTruthful(items[0], depth, a.value);
        var b := Snap(items[0], depth, a.value);
        if b.Ok? { ItemsErrorTruthful(items[1..], index + 1, depth, b.value); }
      }
    }
  }

  lemma {:induction false} FieldsErrorTruthful(fields: seq<Field>, depth: nat, c: Counters)
    ensures SnapFields(fields, depth, c) == Err(SerializationTooLarge) ==>
              c.serialized + FieldBytes(fields) > MAX_TEXT_BYTES
    ensures SnapFields(fields, depth, c).Ok? ==>
              SnapFields(fields, depth, c).value.serialized == c.serialized + FieldBytes(fields)
    decreases fields, |fields|
  {
    hide Utf8, Snap, Bytes, QuotedBytes;
    if fields != [] {
      var a := AccountText(c, fields[0].key);
      if a.Ok? {
        var b := AccountSerialized(a.value, QuotedBytes(fields[0].key) + 1);
        if b.Ok? {
          SizeErrorTruthful(fields[0].value, depth, b.value);
          var d := Snap(fields[0].value, depth, b.value);
          if d.Ok? { FieldsErrorTruthful(fields[1..], depth, d.value); }
        }
      }
    }
  }

  // ------------------------------------------------------------ theorems

  const START: Counters := Counters(0, 0, 0)

  /** Everything but the size of the JSON text is within limits. */
  predicate OtherwiseFits(v: Value) {
    Shape(v, 0) && Nodes(v) <= MAX_NODES && TextBytes(v) <= MAX_TEXT_BYTES
  }

  /**
   An accepted snapshot was accounted its true size; the size limit is reported
   only when the true size exceeds it, and always when nothing else is wrong.
   */
  lemma {:induction false} SnapshotSizeExact(v: Value)
    ensures Snap(v, 0, START).Ok? <==> OtherwiseFits(v) && |Utf8(Stringify(v))| <= MAX_TEXT_BYTES
    ensures Snap(v, 0, START).Ok? ==> Snap(v, 0, START).value.serialized == |Utf8(Stringify(v))|
    ensures Snap(v, 0, START) == Err(SerializationTooLarge) ==> |Utf8(Stringify(v))| > MAX_TEXT_BYTES
  {
    hide Snap, Shape, Nodes, TextBytes, Bytes, Stringify, Utf8;
    BytesExact(v);
    SnapExact(v, 0, START);
    SizeErrorTruthful(v, 0, START);
  }

  lemma {:induction false} ShapedBigIntsFit(v: Value, depth: nat)
    requires Shape(v, depth)
    ensures !HasOversizedBigInt(v)
    decreases v
  {
    hide Utf8, Digits;
    if v.Arr? {
      forall i | 0 <= i < |v.items| ensures !HasOversizedBigInt(v.items[i]) {
        ItemShapeAt(v.items, depth + 1, i);
        ShapedBigIntsFit(v.items[i], depth + 1);
      }
    } else if v.Obj? {
      forall i | 0 <= i < |v.fields| ensures !HasOversizedBigInt(v.fields[i].value) {
        FieldShapeAt(v.fields, depth + 1, i);
        assert v.fields[i] < v;
        ShapedBigIntsFit(v.fields[i].value, depth + 1);
      }
    }
  }

  lemma {:induction false} ItemShapeAt(items: seq<Value>, depth: nat, i: nat)
    requires ItemShapes(items, depth) && i < |items|
    ensures Shape(items[i], depth)
  {
    hide Shape;
    if i > 0 { ItemShapeAt(items[1..], depth, i - 1); }
  }

  lemma {:induction false} FieldShapeAt(fields: seq<Field>, depth: nat, i: nat)
    requires FieldShapes(fields, depth) && i < |fields|
    ensures Shape(fields[i].value, depth)
  {
    hide Shape, Utf8;
    if i > 0 { FieldShapeAt(fields[1..], depth, i - 1); }
  }

  /**
   The check that follows a snapshot never finds a size mismatch: serialising an
   accepted snapshot gives exactly the accounted bytes, unless the value holds
   the reserved bigint marker, which is refused.
   */
  lemma {:induction false} BoundNeverMismatches(v: Value)
    requires Snap(v, 0, START).Ok?
    ensures StringifyJson(v).Err? <==> HasReserved(v)
    ensures StringifyJson(v).Ok? ==> |Utf8(StringifyJson(v).value)| == Snap(v, 0, START).value.serialized
  {
    hide Snap, Shape, Nodes, TextBytes, Utf8, Stringify, HasReserved, HasOversizedBigInt;
    SnapshotSizeExact(v);
    ShapedBigIntsFit(v, 0);
  }
}
