/** Every limit the snapshot traversal reports is one the value really breaks. */
module SnapshotFaults {
  import opened Prelude
  import opened Utf
  import opened SnapshotJson
  import opened SnapshotBytes

  /** A part of a value, at its depth, breaks the limit by itself. */
  predicate Breaks(e: Error, v: Value, depth: nat) {
    match e
    case TooDeep => depth > MAX_DEPTH
    case TextTooLarge =>
      || (v.Str? && |Utf8(v.t)| > MAX_STRING_BYTES)
      || (v.Obj? && exists i :: 0 <= i < |v.fields| && |Utf8(v.fields[i].key)| > MAX_STRING_BYTES)
    case BigIntTooLarge => v.BigInt? && |Magnitude(v.n)| > MAX_SERIALIZED_BIGINT_DIGITS
    case InvalidNumber => v.Number? && !Safe(v.n)
    case InvalidLength => v.Arr? && |v.items| > MAX_ITEMS
    case TooManyNodes => false
    case SerializationTooLarge => false
  }

  predicate Somewhere(e: Error, v: Value, depth: nat)
    decreases v
  {
    || Breaks(e, v, depth)
    || (v.Arr? && exists i :: 0 <= i < |v.items| && Somewhere(e, v.items[i], depth + 1))
    || (v.Obj? && exists i :: 0 <= i < |v.fields| && Somewhere(e, v.fields[i].value, depth + 1))
  }

  /** The totals break the limit. */
  predicate Exceeds(e: Error, c: Counters) {
    match e
    case TooManyNodes => c.nodes > MAX_NODES
    case TextTooLarge => c.text > MAX_TEXT_BYTES
    case SerializationTooLarge => c.serialized > MAX_TEXT_BYTES
    case _ => false
  }

  lemma {:induction false} LeafFault(v: Value, depth: nat, c: Counters)
    requires Snap(v, depth, c).Err? && !v.Arr? && !v.Obj?
    ensures Somewhere(Snap(v, depth, c).error, v, depth)
            || Exceeds(Snap(v, depth, c).error, Plus(c, Nodes(v), TextBytes(v), Bytes(v)))
  {
    hide Utf8, QuotedBytes, Digits, Magnitude, Decimal, Ascii;
  }

  /** A refusal names a limit the value breaks, in one of its parts or in its totals. */
  lemma {:induction false} FaultIsReal(v: Value, depth: nat, c: Counters)
    requires Within(c) && Snap(v, depth, c).Err?
    ensures Somewhere(Snap(v, depth, c).error, v, depth)
            || Exceeds(Snap(v, depth, c).error, Plus(c, Nodes(v), TextBytes(v), Bytes(v)))
    decreases v, 0
  {
    hide Snap, Somewhere, Exceeds, Nodes, TextBytes, Bytes;
    match v
    case Arr(items) => ArrayFault(items, depth, c);
    case Obj(fields) => ObjectFault(fields, depth, c);
    case _ => LeafFault(v, depth, c);
  }

  lemma {:induction false} ArrayFault(items: seq<Value>, depth: nat, c: Counters)
    requires Within(c) && Snap(Arr(items), depth, c).Err?
    ensures var v := Arr(items);
            Somewhere(Snap(v, depth, c).error, v, depth)
            || Exceeds(Snap(v, depth, c).error, Plus(c, Nodes(v), TextBytes(v), Bytes(v)))
    decreases items, |items| + 1
  {
    hide SnapItems, ItemNodes, ItemText, ItemBytes;
    var c1 := c.(nodes := c.nodes + 1);
    if |items| <= MAX_ITEMS && Within(c1) && depth <= MAX_DEPTH && AccountSerialized(c1, Separators(|items|)).Ok? {
      ItemsFault(items, 0, depth + 1, AccountSerialized(c1, Separators(|items|)).value);
    }
  }

  lemma {:induction false} ObjectFault(fields: seq<Field>, depth: nat, c: Counters)
    requires Within(c) && Snap(Obj(fields), depth, c).Err?
    ensures var v := Obj(fields);
            Somewhere(Snap(v, depth, c).error, v, depth)
            || Exceeds(Snap(v, depth, c).error, Plus(c, Nodes(v), TextBytes(v), Bytes(v)))
    decreases fields, |fields| + 1
  {
    hide SnapFields, FieldNodes, FieldText, FieldBytes;
    var c1 := c.(nodes := c.nodes + 1);
    if Within(c1) && depth <= MAX_DEPTH && AccountSerialized(c1, Separators(|fields|)).Ok? {
      FieldsFault(fields, depth + 1, AccountSerialized(c1, Separators(|fields|)).value);
    }
  }

  ghost predicate InItems(e: Error, items: seq<Value>, depth: nat) {
    exists i :: 0 <= i < |items| && Somewhere(e, items[i], depth)
  }

  lemma {:induction false} InTail(e: Error, items: seq<Value>, depth: nat)
    requires items != [] && InItems(e, items[1..], depth)
    ensures InItems(e, items, depth)
  {
    hide Somewhere;
    var i :| 0 <= i < |items[1..]| && Somewhere(e, items[1..][i], depth);
    assert Somewhere(e, items[i + 1], depth);
  }

  lemma {:induction false} ItemsFault(items: seq<Value>, index: nat, depth: nat, c: Counters)
    requires Within(c) && index + |items| <= MAX_ITEMS && SnapItems(items, index, depth, c).Err?
    ensures var e := SnapItems(items, index, depth, c).error;
            InItems(e, items, depth) || Exceeds(e, Plus(c, ItemNodes(items), ItemText(items, index), ItemBytes(items)))
    decreases items, |items|
  {
    hide Utf8, Snap, Nodes, TextBytes, Bytes, Somewhere;
    if items != [] {
      var e := SnapItems(items, index, depth, c).error;
      IndexBytes(index);
      var a := AccountText(c, Digits(index));
      if a.Ok? {
        var b := Snap(items[0], depth, a.value);
        if b.Err? {
          FaultIsReal(items[0], depth, a.value);
          assert Somewhere(e, items[0], depth) ==> InItems(e, items, depth);
        } else {
          SnapExact(items[0], depth, a.value);
          ItemsFault(items[1..], index + 1, depth, b.value);
          if InItems(e, items[1..], depth) { InTail(e, items, depth); }
        }
      }
    }
  }

  ghost predicate InFields(e: Error, fields: seq<Field>, depth: nat) {
    || (exists i :: 0 <= i < |fields| && Somewhere(e, fields[i].value, depth))
    || (e == TextTooLarge && exists i :: 0 <= i < |fields| && |Utf8(fields[i].key)| > MAX_STRING_BYTES)
  }

  lemma {:induction false} InFieldsTail(e: Error, fields: seq<Field>, depth: nat)
    requires fields != [] && InFields(e, fields[1..], depth)
    ensures InFields(e, fields, depth)
  {
    hide Somewhere, Utf8;
    assert forall i :: 0 <= i < |fields| - 1 ==> fields[1..][i] == fields[i + 1];
  }

  lemma {:induction false} FieldsFault(fields: seq<Field>, depth: nat, c: Counters)
    requires Within(c) && SnapFields(fields, depth, c).Err?
    ensures var e := SnapFields(fields, depth, c).error;
            InFields(e, fields, depth) || Exceeds(e, Plus(c, FieldNodes(fields), FieldText(fields), FieldBytes(fields)))
    decreases fields, |fields|
  {
    hide Utf8, Snap, Nodes, TextBytes, Bytes, Somewhere, BodyBytes;
    if fields != [] {
      var e := SnapFields(fields, depth, c).error;
      var a := AccountText(c, fields[0].key);
      if a.Ok? {
        var b := AccountSerialized(a.value, QuotedBytes(fields[0].key) + 1);
        if b.Ok? {
          var d := Snap(fields[0].value, depth, b.value);
          if d.Err? {
            FaultIsReal(fields[0].value, depth, b.value);
            assert Somewhere(e, fields[0].value, depth) ==> InFields(e, fields, depth);
          } else {
            SnapExact(fields[0].value, depth, b.value);
            FieldsFault(fields[1..], depth, d.value);
            if InFields(e, fields[1..], depth) { InFieldsTail(e, fields, depth); }
          }
        }
      }
    }
  }

  /** The value breaks the limit: in one of its parts, or in its nodes, its text or the true size of its JSON. */
  ghost predicate Guilty(e: Error, v: Value) {
    Somewhere(e, v, 0) || Exceeds(e, Counters(Nodes(v), TextBytes(v), |Utf8(Stringify(v))|))
  }

  /** A refused snapshot names a limit that the value breaks. */
  lemma {:induction false} RefusalIsReal(v: Value)
    requires Snap(v, 0, START).Err?
    ensures Guilty(Snap(v, 0, START).error, v)
  {
    hide Snap, Somewhere, Nodes, TextBytes, Bytes, Stringify, Utf8;
    FaultIsReal(v, 0, START);
    BytesExact(v);
  }
}
