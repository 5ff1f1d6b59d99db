/** The snapshot traversal over its mutable counters. */
module DeepSnapshot {
  import opened Prelude
  import opened Utf
  import opened SnapshotJson
  import opened SnapshotBytes
  import opened SnapshotFaults

  class SnapshotState {
    var nodes: nat
    var textBytes: nat
    var serializedBytes: nat

    function Model(): Counters
      reads this
    {
      Counters(nodes, textBytes, serializedBytes)
    }

    constructor ()
      ensures Model() == START
    {
      nodes, textBytes, serializedBytes := 0, 0, 0;
    }

    method AccountSerialized(bytes: nat) returns (error: Option<Error>)
      modifies this
      ensures var after := SnapshotBytes.AccountSerialized(old(Model()), bytes);
              if after.Ok? then error.None? && Model() == after.value else error == Some(after.error)
    {
      if serializedBytes + bytes > MAX_TEXT_BYTES { return Some(SerializationTooLarge); }
      serializedBytes := serializedBytes + bytes;
      return None;
    }

    method AccountText(t: Text) returns (error: Option<Error>)
      modifies this
      ensures var after := SnapshotBytes.AccountText(old(Model()), t);
              if after.Ok? then error.None? && Model() == after.value else error == Some(after.error)
    {
      var bytes := |Utf8(t)|;
      if bytes > MAX_STRING_BYTES || textBytes + bytes > MAX_TEXT_BYTES { return Some(TextTooLarge); }
      textBytes := textBytes + bytes;
      return None;
    }

    /** A property name counts as text and, quoted and followed by a colon, as JSON. */
    method AccountName(key: Text) returns (error: Option<Error>)
      modifies this
      ensures var text := SnapshotBytes.AccountText(old(Model()), key);
              if text.Err? then error == Some(text.error)
              else
                var after := SnapshotBytes.AccountSerialized(text.value, QuotedBytes(key) + 1);
                if after.Ok? then error.None? && Model() == after.value else error == Some(after.error)
    {
      hide Utf8, BodyBytes;
      error := AccountText(key);
      if error.Some? { return; }
      var name := JsonStringBytes(key);
      QuoteBytes(key);
      error := AccountSerialized(name + 1);
    }

    /** Copies the value, or reports the first limit it breaks. */
    method Snapshot(v: Value, depth: nat) returns (copy: Result<Value, Error>)
      modifies this
      ensures match Snap(v, depth, old(Model()))
              case Ok(c) => copy == Ok(v) && Model() == c
              case Err(e) => copy == Err(e)
      decreases v, 0
    {
      nodes := nodes + 1;
      if nodes > MAX_NODES { return Err(TooManyNodes); }
      if depth > MAX_DEPTH { return Err(TooDeep); }
      match v
      case Arr(items) => copy := SnapshotArray(v, depth);
      case Obj(fields) => copy := SnapshotObject(v, depth);
      case _ => copy := SnapshotLeaf(v, depth);
    }

    method SnapshotLeaf(v: Value, depth: nat) returns (copy: Result<Value, Error>)
      requires !v.Arr? && !v.Obj? && depth <= MAX_DEPTH && 0 < nodes <= MAX_NODES
      modifies this
      ensures match Snap(v, depth, old(Model().(nodes := nodes - 1)))
              case Ok(c) => copy == Ok(v) && Model() == c
              case Err(e) => copy == Err(e)
    {
      hide Utf8, Digits, Decimal, Magnitude, Ascii, BodyBytes;
      var error: Option<Error> := None;
      match v {
        case Str(t) =>
          error := AccountText(t);
          if error.None? {
            var bytes := JsonStringBytes(t);
            QuoteBytes(t);
            error := AccountSerialized(bytes);
          }
        case Null => error := AccountSerialized(4);
        case Bool(b) => error := AccountSerialized(if b then 4 else 5);
        case BigInt(n) =>
          if |Magnitude(n)| > MAX_SERIALIZED_BIGINT_DIGITS { return Err(BigIntTooLarge); }
          var marker := JsonStringBytes(BIGINT_JSON_MARKER);
          var decimal := JsonStringBytes(Decimal(n));
          QuoteBytes(BIGINT_JSON_MARKER);
          QuoteBytes(Decimal(n));
          error := AccountSerialized(2 + marker + 1 + decimal);
        case Number(n) =>
          if !Safe(n) { return Err(InvalidNumber); }
          error := AccountSerialized(|Decimal(n)|);
      }
      return if error.Some? then Err(error.value) else Ok(v);
    }

    method SnapshotArray(v: Value, depth: nat) returns (copy: Result<Value, Error>)
      requires v.Arr? && depth <= MAX_DEPTH && 0 < nodes <= MAX_NODES
      modifies this
      ensures match Snap(v, depth, old(Model().(nodes := nodes - 1)))
              case Ok(c) => copy == Ok(v) && Model() == c
              case Err(e) => copy == Err(e)
      decreases v, 0, 0
    {
      hide Utf8, Digits, Decimal, Magnitude, Ascii, BodyBytes;
      var items := v.items;
      if |items| > MAX_ITEMS { return Err(InvalidLength); }
      var error := AccountSerialized(Separators(|items|));
      if error.Some? { return Err(error.value); }
      ghost var goal := SnapItems(items, 0, depth + 1, Model());
      var result: seq<Value> := [];
      for i := 0 to |items|
        invariant result == items[..i]
        invariant SnapItems(items[i..], i, depth + 1, Model()) == goal
      {
        assert items[i..][1..] == items[i + 1..] && items[i..][0] == items[i];
        error := AccountText(Digits(i));
        if error.Some? { return Err(error.value); }
        var item := Snapshot(items[i], depth + 1);
        if item.Err? { return Err(item.error); }
        result := result + [item.value];
      }
      assert result == items;
      return Ok(Arr(result));
    }

    method SnapshotObject(v: Value, depth: nat) returns (copy: Result<Value, Error>)
      requires v.Obj? && depth <= MAX_DEPTH && 0 < nodes <= MAX_NODES
      modifies this
      ensures match Snap(v, depth, old(Model().(nodes := nodes - 1)))
              case Ok(c) => copy == Ok(v) && Model() == c
              case Err(e) => copy == Err(e)
      decreases v, 0, 0
    {
      hide Utf8, BodyBytes;
      var fields := v.fields;
      var error := AccountSerialized(Separators(|fields|));
      if error.Some? { return Err(error.value); }
      ghost var goal := SnapFields(fields, depth + 1, Model());
      var result: seq<Field> := [];
      for i := 0 to |fields|
        invariant result == fields[..i]
        invariant SnapFields(fields[i..], depth + 1, Model()) == goal
      {
        var f := fields[i];
        assert fields[i..][1..] == fields[i + 1..] && fields[i..][0] == f;
        error := AccountName(f.key);
        if error.Some? { return Err(error.value); }
        var value := Snapshot(f.value, depth + 1);
        if value.Err? { return Err(value.error); }
        result := result + [Field(f.key, value.value)];
      }
      assert result == fields;
      return Ok(Obj(result));
    }
  }

  datatype Refusal = Limit(error: Error) | Unwritable(reason: StringifyError) | SizeMismatch

  /** Snapshot a value, then check the predicted size against the real JSON text. */
  method BoundedSnapshot(v: Value) returns (r: Result<Value, Refusal>)
    ensures r.Ok? <==> OtherwiseFits(v) && |Utf8(Stringify(v))| <= MAX_TEXT_BYTES && !HasReserved(v)
    ensures r.Ok? ==> r.value == v
    ensures r != Err(SizeMismatch)
    ensures r.Err? && r.error.Limit? ==> Guilty(r.error.error, v)
    ensures r.Err? && r.error.Unwritable? ==> r.error.reason == ReservedMarker && HasReserved(v)
  {
    hide Guilty, Snap, Utf8, Stringify, OtherwiseFits, HasReserved, HasOversizedBigInt;
    var state := new SnapshotState();
    var copy := state.Snapshot(v, 0);
    SnapshotSizeExact(v);
    if copy.Err? {
      RefusalIsReal(v);
      return Err(Limit(copy.error));
    }
    BoundNeverMismatches(v);
    var text := StringifyJson(copy.value);
    if text.Err? { return Err(Unwritable(text.error)); }
    if |Utf8(text.value)| != state.serializedBytes { return Err(SizeMismatch); }
    return Ok(copy.value);
  }
}
