/**
 Classifying slot groups: hydrate a slot's rows, then record each classification.
 The pipelined loop hydrates the next slot while the current one is recorded.

 Hydration and recording are parameters: any outcome for any slot, and any
 outcome of a record call, given the calls before it.
 */
module BlockClassifier {
  import opened Prelude

  // ------------------------------------------------------------ one slot

  datatype Commitment = Confirmed | Finalized

  /** The rows of one commitment, by index. */
  datatype Group = Group(commitment: Commitment, indices: seq<nat>)

  /** All outcomes in row order, or the first failure in row order. */
  function Settle<H, E>(outcomes: seq<Result<H, E>>): Result<seq<H>, E> {
    if outcomes == [] then Ok([])
    else
      match outcomes[0]
      case Err(e) => Err(e)
      case Ok(h) =>
        match Settle(outcomes[1..])
        case Err(e) => Err(e)
        case Ok(hs) => Ok([h] + hs)
  }

  function Outcomes<Row, H, E>(rows: seq<Row>, hydrate: Row -> Result<H, E>): seq<Result<H, E>> {
    seq(|rows|, i requires 0 <= i < |rows| => hydrate(rows[i]))
  }

  function FindGroup(groups: seq<Group>, c: Commitment): (g: Option<nat>)
    ensures g.Some? ==> g.value < |groups| && groups[g.value].commitment == c
    ensures g.None? ==> forall i :: 0 <= i < |groups| ==> groups[i].commitment != c
  {
    if groups == [] then None
    else if groups[|groups| - 1].commitment == c then Some(|groups| - 1)
    else FindGroup(groups[..|groups| - 1], c)
  }

  predicate Listed(groups: seq<Group>, k: nat) {
    exists g :: 0 <= g < |groups| && k in groups[g].indices
  }

  predicate OfCommitment<Row>(g: Group, rows: seq<Row>, commitment: Row -> Commitment) {
    forall k :: k in g.indices ==> k < |rows| && commitment(rows[k]) == g.commitment
  }

  /** Puts every row index in the group of its commitment. */
  method GroupRows<Row>(rows: seq<Row>, commitment: Row -> Commitment) returns (groups: seq<Group>)
    ensures forall k :: 0 <= k < |rows| ==> Listed(groups, k)
    ensures forall g, k :: 0 <= g < |groups| && k in groups[g].indices ==> k < |rows|
    ensures forall g :: 0 <= g < |groups| ==> OfCommitment(groups[g], rows, commitment)
    ensures forall g, h :: 0 <= g < h < |groups| ==> groups[g].commitment != groups[h].commitment
  {
    groups := [];
    for i := 0 to |rows|
      invariant forall k :: 0 <= k < i ==> Listed(groups, k)
      invariant forall g, k :: 0 <= g < |groups| && k in groups[g].indices ==> k < i
      invariant forall g :: 0 <= g < |groups| ==> OfCommitment(groups[g], rows, commitment)
      invariant forall g, h :: 0 <= g < h < |groups| ==> groups[g].commitment != groups[h].commitment
    {
      ghost var was := groups;
      var c := commitment(rows[i]);
      var at := FindGroup(groups, c);
      if at.None? {
        groups := groups + [Group(c, [i])];
        assert groups[|was|].indices == [i];
      } else {
        groups := groups[at.value := Group(c, groups[at.value].indices + [i])];
        assert i in groups[at.value].indices;
      }
      assert Listed(groups, i);
      forall k | 0 <= k < i ensures Listed(groups, k) {
        assert Listed(was, k);
        var g :| 0 <= g < |was| && k in was[g].indices;
        assert k in groups[g].indices;
      }
    }
  }

  /** Whatever the grouping, a slot settles as if its rows were hydrated in order. */
  method ClassifySlot<Row, H, E>(rows: seq<Row>, commitment: Row -> Commitment, hydrate: Row -> Result<H, E>)
    returns (r: Result<seq<H>, E>)
    ensures r == Settle(Outcomes(rows, hydrate))
  {
    var groups := GroupRows(rows, commitment);
    var settled := new Option<Result<H, E>>[|rows|](_ => None);
    for g := 0 to |groups|
      invariant forall i :: 0 <= i < |rows| ==> settled[i] == None || settled[i] == Some(hydrate(rows[i]))
      invariant forall h, k :: 0 <= h < g && k in groups[h].indices ==> settled[k] == Some(hydrate(rows[k]))
    {
      var indices := groups[g].indices;
      forall m | 0 <= m < |indices| ensures indices[m] < |rows| { assert indices[m] in groups[g].indices; }
      for j := 0 to |indices|
        invariant forall i :: 0 <= i < |rows| ==> settled[i] == None || settled[i] == Some(hydrate(rows[i]))
        invariant forall h, k :: 0 <= h < g && k in groups[h].indices ==> settled[k] == Some(hydrate(rows[k]))
        invariant forall m :: 0 <= m < j ==> settled[indices[m]] == Some(hydrate(rows[indices[m]]))
      {
        settled[indices[j]] := Some(hydrate(rows[indices[j]]));
      }
    }
    forall i | 0 <= i < |rows| ensures settled[i] == Some(hydrate(rows[i])) {
      assert Listed(groups, i);
    }
    r := SettleAll(settled, Outcomes(rows, hydrate));
  }

  function After<H, E>(values: seq<H>, rest: Result<seq<H>, E>): Result<seq<H>, E> {
    match rest
    case Ok(hs) => Ok(values + hs)
    case Err(e) => Err(e)
  }

  /** Finds the first rejection, or keeps every value. */
  method SettleAll<H, E>(settled: array<Option<Result<H, E>>>,
                         ghost outcomes: seq<Result<H, E>>) returns (r: Result<seq<H>, E>)
    requires |outcomes| == settled.Length
    requires forall i :: 0 <= i < settled.Length ==> settled[i] == Some(outcomes[i])
    ensures r == Settle(outcomes)
  {
    var values: seq<H> := [];
    assert outcomes[0..] == outcomes;
    assert Settle(outcomes).Ok? ==> [] + Settle(outcomes).value == Settle(outcomes).value;
    for i := 0 to settled.Length
      invariant After(values, Settle(outcomes[i..])) == Settle(outcomes)
    {
      assert outcomes[i..][1..] == outcomes[i + 1..] && outcomes[i..][0] == outcomes[i];
      match settled[i].value {
        case Err(e) => return Err(e);
        case Ok(h) =>
          ghost var rest := Settle(outcomes[i + 1..]);
          assert rest.Ok? ==> values + ([h] + rest.value) == values + [h] + rest.value;
          values := values + [h];
      }
    }
    assert outcomes[settled.Length..] == [];
    assert values + [] == values;
    return Ok(values);
  }

  // ------------------------------------------------------------ all slots

  /** The receipts or the first error, and the durable record calls made, in order. */
  datatype Outcome<C, R, E> = Outcome(result: Result<seq<R>, E>, recorded: seq<C>)

  datatype Call = Hydrate(slot: nat) | Record(slot: nat)

  function RecordAll<C, R, E>(cs: seq<C>, receipts: seq<R>, recorded: seq<C>,
                              record: (seq<C>, C) -> Result<R, E>): Outcome<C, R, E>
    decreases |cs|
  {
    if cs == [] then Outcome(Ok(receipts), recorded)
    else
      match record(recorded, cs[0])
      case Err(e) => Outcome(Err(e), recorded + [cs[0]])
      case Ok(r) => RecordAll(cs[1..], receipts + [r], recorded + [cs[0]], record)
  }

  /** Slot after slot: hydrate, then record. */
  function Sequential<S, C, R, E>(slots: seq<S>, i: nat, receipts: seq<R>, recorded: seq<C>,
                                  hydrate: S -> Result<seq<C>, E>, record: (seq<C>, C) -> Result<R, E>): Outcome<C, R, E>
    decreases |slots| - i
  {
    if i >= |slots| then Outcome(Ok(receipts), recorded)
    else
      match hydrate(slots[i])
      case Err(e) => Outcome(Err(e), recorded)
      case Ok(cs) =>
        var o := RecordAll(cs, receipts, recorded, record);
        match o.result
        case Err(_) => o
        case Ok(all) => Sequential(slots, i + 1, all, o.recorded, hydrate, record)
  }

  /** No slot's hydration starts more than `k` slots before the one still being recorded. */
  predicate Ahead(trace: seq<Call>, k: nat) {
    forall a, b :: 0 <= a < b < |trace| && trace[a].Hydrate? && trace[b].Record? ==> trace[a].slot <= trace[b].slot + k
  }

  /** Every recorded slot was hydrated before. */
  predicate HydratedFirst(trace: seq<Call>) {
    forall b :: 0 <= b < |trace| && trace[b].Record? ==> Hydrate(trace[b].slot) in trace[..b]
  }

  function Records(slot: nat, n: nat): seq<Call> {
    seq(n, _ => Record(slot))
  }

  /** The calls of the plain loop from slot `i` on. */
  function PlainTrace<S, C, R, E>(slots: seq<S>, i: nat, receipts: seq<R>, recorded: seq<C>,
                                  hydrate: S -> Result<seq<C>, E>, record: (seq<C>, C) -> Result<R, E>): seq<Call>
    decreases |slots| - i
  {
    if i >= |slots| then []
    else
      match hydrate(slots[i])
      case Err(_) => [Hydrate(i)]
      case Ok(cs) =>
        var o := RecordAll(cs, receipts, recorded, record);
        [Hydrate(i)] + Records(i, Made(o, recorded)) +
        match o.result
        case Err(_) => []
        case Ok(all) => PlainTrace(slots, i + 1, all, o.recorded, hydrate, record)
  }

  /** The calls of the pipelined loop once slot `i` is hydrated. */
  function PipelinedTrace<S, C, R, E>(slots: seq<S>, i: nat, receipts: seq<R>, recorded: seq<C>,
                                      hydrate: S -> Result<seq<C>, E>, record: (seq<C>, C) -> Result<R, E>): seq<Call>
    decreases |slots| - i
  {
    if i >= |slots| || hydrate(slots[i]).Err? then []
    else
      var o := RecordAll(hydrate(slots[i]).value, receipts, recorded, record);
      (if i + 1 < |slots| then [Hydrate(i + 1)] else []) + Records(i, Made(o, recorded)) +
      match o.result
      case Err(_) => []
      case Ok(all) => PipelinedTrace(slots, i + 1, all, o.recorded, hydrate, record)
  }

  function Made<C, R, E>(o: Outcome<C, R, E>, recorded: seq<C>): nat {
    if |o.recorded| > |recorded| then |o.recorded| - |recorded| else 0
  }

  method RecordSlot<C, R, E>(slot: nat, cs: seq<C>, receipts: seq<R>, recorded: seq<C>, trace: seq<Call>,
                             record: (seq<C>, C) -> Result<R, E>)
    returns (o: Outcome<C, R, E>, trace': seq<Call>)
    ensures o == RecordAll(cs, receipts, recorded, record)
    ensures trace' == trace + Records(slot, Made(o, recorded))
  {
    var all, calls := receipts, recorded;
    trace' := trace;
    for i := 0 to |cs|
      invariant RecordAll(cs[i..], all, calls, record) == RecordAll(cs, receipts, recorded, record)
      invariant |calls| == |recorded| + i && trace' == trace + Records(slot, i)
    {
      assert cs[i..][1..] == cs[i + 1..] && cs[i..][0] == cs[i];
      trace' := trace' + [Record(slot)];
      var receipt := record(calls, cs[i]);
      calls := calls + [cs[i]];
      if receipt.Err? { return Outcome(Err(receipt.error), calls), trace'; }
      all := all + [receipt.value];
    }
    assert cs[|cs|..] == [];
    return Outcome(Ok(all), calls), trace';
  }

  /** One turn of the plain loop. */
  lemma {:induction false} PlainTurn<S, C, R, E>(slots: seq<S>, i: nat, receipts: seq<R>, recorded: seq<C>,
                                                 hydrate: S -> Result<seq<C>, E>, record: (seq<C>, C) -> Result<R, E>)
    requires i < |slots|
    ensures var o := Sequential(slots, i, receipts, recorded, hydrate, record);
            var t := PlainTrace(slots, i, receipts, recorded, hydrate, record);
            match hydrate(slots[i])
            case Err(e) => o == Outcome(Err(e), recorded) && t == [Hydrate(i)]
            case Ok(cs) =>
              var turn := RecordAll(cs, receipts, recorded, record);
              if turn.result.Err? then o == turn && t == [Hydrate(i)] + Records(i, Made(turn, recorded)) + []
              else o == Sequential(slots, i + 1, turn.result.value, turn.recorded, hydrate, record)
                   && t == [Hydrate(i)] + Records(i, Made(turn, recorded))
                           + PlainTrace(slots, i + 1, turn.result.value, turn.recorded, hydrate, record)
  {
    hide RecordAll, Records, Made;
  }

  /** One turn of the pipelined loop. */
  lemma {:induction false} PipelinedTurn<S, C, R, E>(slots: seq<S>, i: nat, receipts: seq<R>, recorded: seq<C>,
                                                     hydrate: S -> Result<seq<C>, E>,
                                                     record: (seq<C>, C) -> Result<R, E>)
    requires i < |slots| && hydrate(slots[i]).Ok?
    ensures var o := Sequential(slots, i, receipts, recorded, hydrate, record);
            var t := PipelinedTrace(slots, i, receipts, recorded, hydrate, record);
            var first := if i + 1 < |slots| then [Hydrate(i + 1)] else [];
            var turn := RecordAll(hydrate(slots[i]).value, receipts, recorded, record);
            if turn.result.Err? then o == turn && t == first + Records(i, Made(turn, recorded)) + []
            else o == Sequential(slots, i + 1, turn.result.value, turn.recorded, hydrate, record)
                 && t == first + Records(i, Made(turn, recorded))
                         + PipelinedTrace(slots, i + 1, turn.result.value, turn.recorded, hydrate, record)
  {
    hide RecordAll, Records, Made;
  }

  lemma {:induction false} LoopEnds<S, C, R, E>(slots: seq<S>, i: nat, receipts: seq<R>, recorded: seq<C>,
                                                hydrate: S -> Result<seq<C>, E>, record: (seq<C>, C) -> Result<R, E>)
    requires i >= |slots| || hydrate(slots[i]).Err?
    ensures i >= |slots| ==> Sequential(slots, i, receipts, recorded, hydrate, record) == Outcome(Ok(receipts), recorded)
    ensures i >= |slots| ==> PlainTrace(slots, i, receipts, recorded, hydrate, record) == []
    ensures i < |slots| ==>
              Sequential(slots, i, receipts, recorded, hydrate, record) == Outcome(Err(hydrate(slots[i]).error), recorded)
    ensures PipelinedTrace(slots, i, receipts, recorded, hydrate, record) == []
  {
  }

  lemma {:induction false} Regroup(a: seq<Call>, b: seq<Call>, c: seq<Call>, d: seq<Call>)
    ensures a + (b + c + d) == a + b + c + d
  {
  }

  method Classify<S, C, R, E>(slots: seq<S>, hydrate: S -> Result<seq<C>, E>, record: (seq<C>, C) -> Result<R, E>)
    returns (o: Outcome<C, R, E>, trace: seq<Call>)
    ensures o == Sequential(slots, 0, [], [], hydrate, record)
    ensures trace == PlainTrace(slots, 0, [], [], hydrate, record)
    ensures Ahead(trace, 0) && HydratedFirst(trace)
  {
    hide Ahead, HydratedFirst, LooksAhead, Sequential, PlainTrace, RecordAll, Records, Made;
    o, trace := Outcome(Ok([]), []), [];
    PlainAhead(slots, 0, [], [], hydrate, record);
    ghost var all := PlainTrace(slots, 0, [], [], hydrate, record);
    for i := 0 to |slots|
      invariant o.result.Ok?
      invariant Sequential(slots, i, o.result.value, o.recorded, hydrate, record) == Sequential(slots, 0, [], [], hydrate, record)
      invariant trace + PlainTrace(slots, i, o.result.value, o.recorded, hydrate, record) == all
    {
      PlainTurn(slots, i, o.result.value, o.recorded, hydrate, record);
      ghost var before, recorded := trace, o.recorded;
      trace := trace + [Hydrate(i)];
      var cs := hydrate(slots[i]);
      if cs.Err? { return Outcome(Err(cs.error), o.recorded), trace; }
      o, trace := RecordSlot(i, cs.value, o.result.value, o.recorded, trace, record);
      Regroup(before, [Hydrate(i)], Records(i, Made(o, recorded)),
              if o.result.Err? then [] else PlainTrace(slots, i + 1, o.result.value, o.recorded, hydrate, record));
      if o.result.Err? { return; }
    }
    LoopEnds(slots, |slots|, o.result.value, o.recorded, hydrate, record);
  }

  /**
   The pipelined loop makes the same record calls in the same order, with the
   same receipts or the same first error, and looks at most one slot ahead.
   */
  method ClassifyPipelined<S, C, R, E>(slots: seq<S>, hydrate: S -> Result<seq<C>, E>,
                                       record: (seq<C>, C) -> Result<R, E>)
    returns (o: Outcome<C, R, E>, trace: seq<Call>)
    ensures o == Sequential(slots, 0, [], [], hydrate, record)
    ensures trace == if slots == [] then [] else [Hydrate(0)] + PipelinedTrace(slots, 0, [], [], hydrate, record)
    ensures Ahead(trace, 1) && HydratedFirst(trace)
  {
    hide Ahead, HydratedFirst, LooksAhead, Sequential, PipelinedTrace, RecordAll, Records, Made;
    o, trace := Outcome(Ok([]), []), [];
    PipelinedAhead(slots, hydrate, record);
    if slots == [] || hydrate(slots[0]).Err? { LoopEnds(slots, 0, [], [], hydrate, record); }
    if slots == [] { return; }
    trace := [Hydrate(0)];
    var current := hydrate(slots[0]);
    if current.Err? { return Outcome(Err(current.error), []), trace; }
    ghost var all := [Hydrate(0)] + PipelinedTrace(slots, 0, [], [], hydrate, record);
    for i := 0 to |slots|
      invariant o.result.Ok?
      invariant i < |slots| ==> current.Ok? && current == hydrate(slots[i])
      invariant Sequential(slots, i, o.result.value, o.recorded, hydrate, record) == Sequential(slots, 0, [], [], hydrate, record)
      invariant trace + PipelinedTrace(slots, i, o.result.value, o.recorded, hydrate, record) == all
    {
      PipelinedTurn(slots, i, o.result.value, o.recorded, hydrate, record);
      ghost var before, recorded := trace, o.recorded;
      // The next slot's hydration starts before this slot is recorded and is awaited after.
      var next: Option<Result<seq<C>, E>> := None;
      if i + 1 < |slots| {
        trace := trace + [Hydrate(i + 1)];
        next := Some(hydrate(slots[i + 1]));
      }
      o, trace := RecordSlot(i, current.value, o.result.value, o.recorded, trace, record);
      Regroup(before, if i + 1 < |slots| then [Hydrate(i + 1)] else [], Records(i, Made(o, recorded)),
              if o.result.Err? then [] else PipelinedTrace(slots, i + 1, o.result.value, o.recorded, hydrate, record));
      if o.result.Err? { return; }
      if next.Some? {
        if next.value.Err? {
          LoopEnds(slots, i + 1, o.result.value, o.recorded, hydrate, record);
          return Outcome(Err(next.value.error), o.recorded), trace;
        }
        current := next.value;
      }
    }
    LoopEnds(slots, |slots|, o.result.value, o.recorded, hydrate, record);
  }

  // --------------------------------------------------- how far they look

  /** A trace from slot `i` on that looks `k` slots ahead, where the slots below `i + k` are hydrated already. */
  predicate LooksAhead(trace: seq<Call>, i: nat, k: nat) {
    && Ahead(trace, k)
    && (forall a :: 0 <= a < |trace| ==> trace[a].slot >= if trace[a].Hydrate? then i + k else i)
    && forall b :: 0 <= b < |trace| && trace[b].Record? && trace[b].slot >= i + k ==> Hydrate(trace[b].slot) in trace[..b]
  }

  /** A slot's calls: perhaps one hydration, its records, and what follows. */
  predicate StartsWith(trace: seq<Call>, rest: seq<Call>, i: nat, k: nat, d: nat, more: bool) {
    && d <= |trace| == d + |rest| && (more ==> d > 0)
    && (forall a :: d <= a < |trace| ==> trace[a] == rest[a - d])
    && forall a :: 0 <= a < d ==> trace[a] == if more && a == 0 then Hydrate(i + k) else Record(i)
  }

  lemma {:induction false} OneSlot(trace: seq<Call>, rest: seq<Call>, i: nat, k: nat, n: nat, more: bool)
    requires k <= 1 && LooksAhead(rest, i + 1, k) && (more || (k == 1 && rest == []))
    requires trace == (if more then [Hydrate(i + k)] else []) + Records(i, n) + rest
    ensures LooksAhead(trace, i, k)
  {
    hide StartsWith, Ahead;
    var d := n + if more then 1 else 0;
    assert StartsWith(trace, rest, i, k, d, more) by { SlotStarts(trace, rest, i, k, n, more); }
    SlotAhead(trace, rest, i, k, d, more);
    SlotHydrated(trace, rest, i, k, d, more);
  }

  lemma {:induction false} SlotStarts(trace: seq<Call>, rest: seq<Call>, i: nat, k: nat, n: nat, more: bool)
    requires trace == (if more then [Hydrate(i + k)] else []) + Records(i, n) + rest
    ensures StartsWith(trace, rest, i, k, n + if more then 1 else 0, more)
  {
  }

  lemma {:induction false} SlotAhead(trace: seq<Call>, rest: seq<Call>, i: nat, k: nat, d: nat, more: bool)
    requires LooksAhead(rest, i + 1, k) && StartsWith(trace, rest, i, k, d, more)
    ensures Ahead(trace, k)
    ensures forall a :: 0 <= a < |trace| ==> trace[a].slot >= if trace[a].Hydrate? then i + k else i
  {
    forall a, b | 0 <= a < b < |trace| && trace[a].Hydrate? && trace[b].Record? ensures trace[a].slot <= trace[b].slot + k {
      if a >= d { assert rest[a - d].slot <= rest[b - d].slot + k; }
    }
  }

  lemma {:induction false} SlotHydrated(trace: seq<Call>, rest: seq<Call>, i: nat, k: nat, d: nat, more: bool)
    requires k <= 1 && LooksAhead(rest, i + 1, k) && (more || (k == 1 && rest == []))
    requires StartsWith(trace, rest, i, k, d, more)
    ensures forall b :: 0 <= b < |trace| && trace[b].Record? && trace[b].slot >= i + k ==> Hydrate(trace[b].slot) in trace[..b]
  {
    hide Ahead;
    forall b | 0 <= b < |trace| && trace[b].Record? && trace[b].slot >= i + k ensures Hydrate(trace[b].slot) in trace[..b] {
      if b >= d && trace[b].slot >= i + 1 + k {
        assert rest[b - d] == trace[b];
        var a :| 0 <= a < b - d && rest[a] == Hydrate(trace[b].slot);
        assert trace[..b][a + d] == Hydrate(trace[b].slot);
      } else {
        assert trace[..b][0] == Hydrate(i + k);
      }
    }
  }

  lemma {:induction false} PlainAhead<S, C, R, E>(slots: seq<S>, i: nat, receipts: seq<R>, recorded: seq<C>,
                                                  hydrate: S -> Result<seq<C>, E>, record: (seq<C>, C) -> Result<R, E>)
    ensures var t := PlainTrace(slots, i, receipts, recorded, hydrate, record);
            LooksAhead(t, i, 0) && Ahead(t, 0) && (i == 0 ==> HydratedFirst(t))
    decreases |slots| - i
  {
    hide Ahead, Records;
    if i < |slots| && hydrate(slots[i]).Ok? {
      var o := RecordAll(hydrate(slots[i]).value, receipts, recorded, record);
      var rest := if o.result.Ok? then PlainTrace(slots, i + 1, o.result.value, o.recorded, hydrate, record) else [];
      if o.result.Ok? {
        PlainAhead(slots, i + 1, o.result.value, o.recorded, hydrate, record);
      } else {
        NothingAhead(i + 1, 0);
      }
      OneSlot(PlainTrace(slots, i, receipts, recorded, hydrate, record), rest, i, 0, Made(o, recorded), true);
    } else {
      NothingAhead(i + 1, 0);
      NothingAhead(i, 0);
      assert [Hydrate(i)] == [Hydrate(i + 0)] + Records(i, 0) + [] by { NoRecords(i); }
      OneSlot([Hydrate(i)], [], i, 0, 0, true);
    }
    AheadParts(PlainTrace(slots, i, receipts, recorded, hydrate, record), i, 0);
  }

  lemma {:induction false} AheadParts(trace: seq<Call>, i: nat, k: nat)
    requires LooksAhead(trace, i, k)
    ensures Ahead(trace, k)
  {
  }

  lemma {:induction false} NoRecords(i: nat)
    ensures Records(i, 0) == []
  {
  }

  lemma {:induction false} NothingAhead(i: nat, k: nat)
    ensures LooksAhead([], i, k)
  {
  }

  lemma {:induction false} PipelinedFrom<S, C, R, E>(slots: seq<S>, i: nat, receipts: seq<R>, recorded: seq<C>,
                                                     hydrate: S -> Result<seq<C>, E>,
                                                     record: (seq<C>, C) -> Result<R, E>)
    ensures LooksAhead(PipelinedTrace(slots, i, receipts, recorded, hydrate, record), i, 1)
    decreases |slots| - i
  {
    hide LooksAhead, Records;
    NothingAhead(i, 1);
    NothingAhead(i + 1, 1);
    if i < |slots| && hydrate(slots[i]).Ok? {
      var o := RecordAll(hydrate(slots[i]).value, receipts, recorded, record);
      var rest := if o.result.Ok? then PipelinedTrace(slots, i + 1, o.result.value, o.recorded, hydrate, record) else [];
      if o.result.Ok? { PipelinedFrom(slots, i + 1, o.result.value, o.recorded, hydrate, record); }
      OneSlot(PipelinedTrace(slots, i, receipts, recorded, hydrate, record), rest, i, 1, Made(o, recorded), i + 1 < |slots|);
    }
  }

  lemma {:induction false} PipelinedAhead<S, C, R, E>(slots: seq<S>, hydrate: S -> Result<seq<C>, E>,
                                                      record: (seq<C>, C) -> Result<R, E>)
    ensures Ahead([], 1) && HydratedFirst([])
    ensures Ahead([Hydrate(0)], 1) && HydratedFirst([Hydrate(0)])
    ensures var t := [Hydrate(0)] + PipelinedTrace(slots, 0, [], [], hydrate, record); Ahead(t, 1) && HydratedFirst(t)
  {
    PipelinedFrom(slots, 0, [], [], hydrate, record);
    var rest := PipelinedTrace(slots, 0, [], [], hydrate, record);
    var t := [Hydrate(0)] + rest;
    forall b | 0 <= b < |t| && t[b].Record? ensures Hydrate(t[b].slot) in t[..b] {
      if t[b].slot == 0 {
        assert t[..b][0] == Hydrate(0);
      } else {
        assert Hydrate(rest[b - 1].slot) in rest[..b - 1];
        var a :| 0 <= a < b - 1 && rest[a] == Hydrate(t[b].slot);
        assert t[..b][a + 1] == rest[a];
      }
    }
  }

  // ------------------------------------------------ what the trace records

  /** The slots of the record calls, in order. */
  function RecordSlots(trace: seq<Call>): seq<nat> {
    if trace == [] then []
    else (if trace[0].Record? then [trace[0].slot] else []) + RecordSlots(trace[1..])
  }

  lemma {:induction false} RecordSlotsConcat(a: seq<Call>, b: seq<Call>)
    ensures RecordSlots(a + b) == RecordSlots(a) + RecordSlots(b)
    decreases |a|
  {
    if a == [] {
      assert a + b == b;
      assert [] + RecordSlots(b) == RecordSlots(b);
    } else {
      var first := if a[0].Record? then [a[0].slot] else [];
      assert (a + b)[1..] == a[1..] + b && (a + b)[0] == a[0];
      RecordSlotsConcat(a[1..], b);
      Associates(first, RecordSlots(a[1..]), RecordSlots(b));
    }
  }

  lemma {:induction false} Associates(a: seq<nat>, b: seq<nat>, c: seq<nat>)
    ensures a + (b + c) == a + b + c
  {
  }

  lemma {:induction false} RecordSlotsSame(slot: nat, n: nat)
    ensures RecordSlots(Records(slot, n)) == seq(n, _ => slot)
    decreases n
  {
    if n > 0 {
      assert Records(slot, n)[1..] == Records(slot, n - 1);
      RecordSlotsSame(slot, n - 1);
      assert [slot] + seq(n - 1, _ => slot) == seq(n, _ => slot);
    }
  }

  /** The slot of each record call, from slot `i` on; a prefix of it when the run ends in an error. */
  function PlannedSlots<S, C, E>(slots: seq<S>, i: nat, hydrate: S -> Result<seq<C>, E>): seq<nat>
    decreases |slots| - i
  {
    if i >= |slots| || hydrate(slots[i]).Err? then []
    else seq(|hydrate(slots[i]).value|, _ => i) + PlannedSlots(slots, i + 1, hydrate)
  }

  /** Both traces hold one record call for every recorded classification, at that classification's slot. */
  lemma {:induction false} TracesRecord<S, C, R, E>(slots: seq<S>, i: nat, receipts: seq<R>, recorded: seq<C>,
                                                   hydrate: S -> Result<seq<C>, E>, record: (seq<C>, C) -> Result<R, E>)
    ensures var o := Sequential(slots, i, receipts, recorded, hydrate, record);
            var made := RecordSlots(PlainTrace(slots, i, receipts, recorded, hydrate, record));
            && made == RecordSlots(PipelinedTrace(slots, i, receipts, recorded, hydrate, record))
            && made <= PlannedSlots(slots, i, hydrate) && |made| == |o.recorded| - |recorded|
    decreases |slots| - i
  {
    hide Sequential, PlainTrace, PipelinedTrace, RecordAll, Records, RecordSlots;
    NoRecordSlots(i);
    if i < |slots| { PlainTurn(slots, i, receipts, recorded, hydrate, record); }
    if i >= |slots| || hydrate(slots[i]).Err? {
      LoopEnds(slots, i, receipts, recorded, hydrate, record);
    } else {
      var cs := hydrate(slots[i]).value;
      var o := RecordAll(cs, receipts, recorded, record);
      RecordAllPrefix(cs, receipts, recorded, record);
      PipelinedTurn(slots, i, receipts, recorded, hydrate, record);
      var n := Made(o, recorded);
      var plain := if o.result.Ok? then PlainTrace(slots, i + 1, o.result.value, o.recorded, hydrate, record) else [];
      var ahead := if o.result.Ok? then PipelinedTrace(slots, i + 1, o.result.value, o.recorded, hydrate, record) else [];
      SlotRecords(i, n, [Hydrate(i)], plain);
      SlotRecords(i, n, if i + 1 < |slots| then [Hydrate(i + 1)] else [], ahead);
      if o.result.Ok? {
        TracesRecord(slots, i + 1, o.result.value, o.recorded, hydrate, record);
      } else {
        assert seq(n, _ => i) <= seq(|cs|, _ => i);
      }
    }
  }

  lemma {:induction false} NoRecordSlots(i: nat)
    ensures RecordSlots([]) == [] && RecordSlots([Hydrate(i)]) == []
  {
    assert [Hydrate(i)][1..] == [];
  }

  lemma {:induction false} SlotRecords(slot: nat, n: nat, first: seq<Call>, rest: seq<Call>)
    requires |first| <= 1 && forall c :: c in first ==> c.Hydrate?
    ensures RecordSlots(first + Records(slot, n) + rest) == seq(n, _ => slot) + RecordSlots(rest)
  {
    RecordSlotsConcat(first + Records(slot, n), rest);
    RecordSlotsConcat(first, Records(slot, n));
    RecordSlotsSame(slot, n);
    if first != [] { assert first[0] in first; }
    assert RecordSlots(first) == [];
  }

  // ------------------------------------------------- settled and answered

  /** A slot settles to all its values in order, or to the failure of its first failing row. */
  lemma {:induction false} SettleMeans<H, E>(outcomes: seq<Result<H, E>>)
    ensures Settle(outcomes).Ok? <==> forall i :: 0 <= i < |outcomes| ==> outcomes[i].Ok?
    ensures Settle(outcomes).Ok? ==>
              |Settle(outcomes).value| == |outcomes| && forall i :: 0 <= i < |outcomes| ==> outcomes[i] == Ok(Settle(outcomes).value[i])
    ensures Settle(outcomes).Err? ==>
              exists i :: 0 <= i < |outcomes| && outcomes[i] == Err(Settle(outcomes).error)
                          && forall j :: 0 <= j < i ==> outcomes[j].Ok?
    decreases |outcomes|
  {
    if outcomes != [] {
      var rest := outcomes[1..];
      SettleMeans(rest);
      assert forall i :: 0 <= i < |rest| ==> rest[i] == outcomes[i + 1];
      if outcomes[0].Err? {
        assert outcomes[0] == Err(Settle(outcomes).error);
      } else if Settle(rest).Err? {
        var i :| 0 <= i < |rest| && rest[i] == Err(Settle(rest).error) && forall j :: 0 <= j < i ==> rest[j].Ok?;
        assert outcomes[i + 1] == Err(Settle(outcomes).error);
        forall j | 0 <= j < i + 1 ensures outcomes[j].Ok? { if j > 0 { assert outcomes[j] == rest[j - 1]; } }
      }
    }
  }

  /** Receipt `m` is the answer to record call `m`, given the calls before it; an error is the last call's answer. */
  ghost predicate Answered<C, R, E>(o: Outcome<C, R, E>, receipts: seq<R>, recorded: seq<C>,
                                    record: (seq<C>, C) -> Result<R, E>)
  {
    && recorded <= o.recorded
    && (forall m :: |recorded| <= m < |o.recorded| - 1 ==> record(o.recorded[..m], o.recorded[m]).Ok?)
    && (o.result.Ok? ==>
          && receipts <= o.result.value && |o.result.value| - |receipts| == |o.recorded| - |recorded|
          && forall m :: |recorded| <= m < |o.recorded| ==>
               record(o.recorded[..m], o.recorded[m]) == Ok(o.result.value[|receipts| + m - |recorded|]))
  }

  lemma {:induction false} AnsweredOn<C, R, E>(o: Outcome<C, R, E>, receipts: seq<R>, recorded: seq<C>,
                                               record: (seq<C>, C) -> Result<R, E>, o1: Outcome<C, R, E>)
    requires Answered(o1, receipts, recorded, record) && o1.result.Ok?
    requires Answered(o, o1.result.value, o1.recorded, record)
    ensures Answered(o, receipts, recorded, record)
  {
    forall m | |recorded| <= m < |o1.recorded|
      ensures record(o.recorded[..m], o.recorded[m]) == Ok(o1.result.value[|receipts| + m - |recorded|])
    {
      assert o.recorded[..m] == o1.recorded[..m] && o.recorded[m] == o1.recorded[m];
    }
  }

  lemma {:induction false} RecordAnswered<C, R, E>(cs: seq<C>, receipts: seq<R>, recorded: seq<C>,
                                                   record: (seq<C>, C) -> Result<R, E>)
    ensures var o := RecordAll(cs, receipts, recorded, record);
            && Answered(o, receipts, recorded, record)
            && (o.result.Err? ==> |o.recorded| > |recorded|
                                  && record(o.recorded[..|o.recorded| - 1], o.recorded[|o.recorded| - 1]) == Err(o.result.error))
    decreases |cs|
  {
    if cs != [] {
      var more := recorded + [cs[0]];
      assert more[..|recorded|] == recorded;
      match record(recorded, cs[0])
      case Err(_) =>
      case Ok(r) =>
        RecordAnswered(cs[1..], receipts + [r], more, record);
        AnsweredOn(RecordAll(cs[1..], receipts + [r], more, record), receipts, recorded, record, Outcome(Ok(receipts + [r]), more));
    }
  }

  /**
   Over all slots: every receipt answers its own record call, and a failure is the
   answer to the last call made or the failed hydration of the slot after it.
   */
  lemma {:induction false} ReceiptsAnswer<S, C, R, E>(slots: seq<S>, i: nat, receipts: seq<R>, recorded: seq<C>,
                                                     hydrate: S -> Result<seq<C>, E>, record: (seq<C>, C) -> Result<R, E>)
    ensures var o := Sequential(slots, i, receipts, recorded, hydrate, record);
            && Answered(o, receipts, recorded, record)
            && (o.result.Err? ==>
                  || (|o.recorded| > |recorded|
                      && record(o.recorded[..|o.recorded| - 1], o.recorded[|o.recorded| - 1]) == Err(o.result.error))
                  || exists k :: i <= k < |slots| && hydrate(slots[k]) == Err(o.result.error))
    decreases |slots| - i
  {
    hide Answered, RecordAll;
    if i >= |slots| || hydrate(slots[i]).Err? {
      NothingAnswered(receipts, recorded, record, Sequential(slots, i, receipts, recorded, hydrate, record));
    } else {
      var o1 := RecordAll(hydrate(slots[i]).value, receipts, recorded, record);
      RecordAnswered(hydrate(slots[i]).value, receipts, recorded, record);
      if o1.result.Ok? {
        ReceiptsAnswer(slots, i + 1, o1.result.value, o1.recorded, hydrate, record);
        var o := Sequential(slots, i + 1, o1.result.value, o1.recorded, hydrate, record);
        AnsweredOn(o, receipts, recorded, record, o1);
        assert |o1.recorded| >= |recorded| by { AnsweredGrows(o1, receipts, recorded, record); }
      }
    }
  }

  lemma {:induction false} NothingAnswered<C, R, E>(receipts: seq<R>, recorded: seq<C>, record: (seq<C>, C) -> Result<R, E>,
                                                    o: Outcome<C, R, E>)
    requires o.recorded == recorded && (o.result.Ok? ==> o.result.value == receipts)
    ensures Answered(o, receipts, recorded, record)
  {
  }

  lemma {:induction false} AnsweredGrows<C, R, E>(o: Outcome<C, R, E>, receipts: seq<R>, recorded: seq<C>,
                                                  record: (seq<C>, C) -> Result<R, E>)
    requires Answered(o, receipts, recorded, record)
    ensures |o.recorded| >= |recorded|
  {
  }

  // ------------------------------------------- what both loops achieve

  /** The classifications of the hydrated slots, in slot order, up to the first slot that fails to hydrate. */
  function Planned<S, C, E>(slots: seq<S>, i: nat, hydrate: S -> Result<seq<C>, E>): seq<C>
    decreases |slots| - i
  {
    if i >= |slots| || hydrate(slots[i]).Err? then [] else hydrate(slots[i]).value + Planned(slots, i + 1, hydrate)
  }

  lemma {:induction false} RecordAllPrefix<C, R, E>(cs: seq<C>, receipts: seq<R>, recorded: seq<C>,
                                                    record: (seq<C>, C) -> Result<R, E>)
    ensures var o := RecordAll(cs, receipts, recorded, record);
            && recorded <= o.recorded <= recorded + cs
            && (o.result.Ok? ==> o.recorded == recorded + cs && |o.result.value| == |receipts| + |cs|)
    decreases |cs|
  {
    if cs != [] && record(recorded, cs[0]).Ok? {
      RecordAllPrefix(cs[1..], receipts + [record(recorded, cs[0]).value], recorded + [cs[0]], record);
      assert recorded + [cs[0]] + cs[1..] == recorded + cs;
    } else if cs == [] {
      assert recorded + cs == recorded;
    }
  }

  /**
   Records go out in slot order and stop at the first error; a successful run
   has recorded every classification and returns one receipt for each.
   */
  lemma {:induction false} RecordsInSlotOrder<S, C, R, E>(slots: seq<S>, i: nat, receipts: seq<R>, recorded: seq<C>,
                                                         hydrate: S -> Result<seq<C>, E>, record: (seq<C>, C) -> Result<R, E>)
    ensures var o := Sequential(slots, i, receipts, recorded, hydrate, record);
            && recorded <= o.recorded <= recorded + Planned(slots, i, hydrate)
            && (o.result.Ok? ==> o.recorded == recorded + Planned(slots, i, hydrate)
                                 && |o.result.value| - |receipts| == |o.recorded| - |recorded|)
    decreases |slots| - i
  {
    if i < |slots| && hydrate(slots[i]).Ok? {
      var cs := hydrate(slots[i]).value;
      RecordAllPrefix(cs, receipts, recorded, record);
      var o := RecordAll(cs, receipts, recorded, record);
      var rest := Planned(slots, i + 1, hydrate);
      assert recorded + cs + rest == recorded + (cs + rest);
      if o.result.Ok? {
        RecordsInSlotOrder(slots, i + 1, o.result.value, o.recorded, hydrate, record);
      }
    } else {
      assert recorded + [] == recorded;
    }
  }
}
