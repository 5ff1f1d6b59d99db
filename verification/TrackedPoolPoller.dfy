/** The write half of a sweep: enqueue what was read, then move the checkpoint. */
module TrackedPoolPoller {
  import opened Prelude
  import opened CatchUpDiscovery
  import opened CatchUpScanner
  import opened TrackedPoolSweep
  import opened TrackedPoolCoverage

  datatype Outcome = Succeeded | AwaitingBoundary | GapSkipped

  /** `StoreFailed`: refused, or committed and its answer lost. */
  datatype WriteError = ReadFailed | TimedOut | StoreFailed

  lemma {:induction false} RunAppend(w: World, s: Pool, events: seq<Event>, e: Event)
    ensures Run(w, s, events + [e]) == Step(w, Run(w, s, events), e)
    decreases |events|
  {
    hide Step;
    if events == [] {
      assert Run(w, s, [e]) == Run(w, Step(w, s, e), [e][1..]);
      assert events + [e] == [e];
    } else {
      assert (events + [e])[1..] == events[1..] + [e] && (events + [e])[0] == events[0];
      RunAppend(w, Step(w, s, events[0]), events[1..], e);
    }
  }

  class Poller {
    /** The durable inbox and the stored checkpoint of the pool. */
    var inbox: set<Signature>
    var checkpoint: Option<Checkpoint>
    ghost var head: nat
    ghost var passed: set<Range>
    ghost var reported: set<Range>

    constructor ()
      ensures inbox == {} && checkpoint.None?
    {
      inbox, checkpoint, head, passed, reported := {}, None, 0, {}, {};
    }

    /** The pool while one sweep stands at `l`. */
    ghost function At(id: nat, l: Local): Pool
      reads this
    {
      Pool(inbox, checkpoint, head, map[id := l], passed, reported)
    }

    /** Enqueues one row, unless its transaction failed. */
    method EnqueueRow(ghost w: World, ghost id: nat, ghost plan: Plan, rows: seq<Row>) returns (counted: bool)
      requires rows != []
      modifies `inbox
      ensures Step(w, old(At(id, Writing(plan, rows, false))), Enqueue(id)) == At(id, Writing(plan, rows[1..], false))
      ensures counted <==> !rows[0].failed
      ensures inbox == if counted then old(inbox) + {rows[0].signature} else old(inbox)
    {
      if rows[0].failed { return false; }
      inbox := inbox + {rows[0].signature};
      return true;
    }

    /** Stores the newest row, unless the stored slot is later. */
    method StoreNewest(ghost w: World, ghost id: nat, ghost plan: Plan, newest: Row) returns (ok: bool)
      requires plan.m < plan.n <= |w.h| && newest == w.h[plan.n - 1]
      modifies `checkpoint, `passed
      ensures Step(w, old(At(id, Writing(plan, [], false))), Commit(id)) == At(id, if ok then Stored(plan, false) else Idle)
      ensures ok <==> old(checkpoint.Some? && checkpoint.value.slot <= newest.slot)
      ensures checkpoint == (if ok then Some(PointOf(newest)) else old(checkpoint))
    {
      hide Position;
      if checkpoint.None? || checkpoint.value.slot > newest.slot { return false; }
      checkpoint := Some(Checkpoint(newest.slot, newest.signature, 0));
      if SkipsGap(plan) { passed := passed + {Skipped(w, plan)}; }
      return true;
    }

    /** Enqueues what was read, stopping once the sweep has timed out. */
    method EnqueueRows(ghost w: World, ghost id: nat, ghost plan: Plan, rows: seq<Row>, expired: nat -> bool)
      returns (ok: bool, enqueued: nat, ghost events: seq<Event>)
      modifies `inbox
      ensures Run(w, old(At(id, Writing(plan, rows, false))), events) == At(id, if ok then Writing(plan, [], false) else Idle)
      ensures old(inbox) <= inbox && enqueued <= |rows|
      ensures ok ==> inbox == InboxAfter(old(inbox), rows)
      ensures (forall k :: !expired(k)) ==> ok
    {
      hide Run, Step;
      ghost var start := At(id, Writing(plan, rows, false));
      enqueued, events := 0, [];
      RunNothing(w, start);
      var i := 0;
      while i < |rows|
        invariant i <= |rows| && enqueued <= i && old(inbox) <= inbox
        invariant Run(w, start, events) == At(id, Writing(plan, rows[i..], false))
        invariant inbox == InboxAfter(old(inbox), rows[..i])
      {
        if expired(i) {
          RunAppend(w, start, events, Fail(id));
          events := events + [Fail(id)];
          Abandoned(w, At(id, Writing(plan, rows[i..], false)), id);
          return false, enqueued, events;
        }
        RunAppend(w, start, events, Enqueue(id));
        events := events + [Enqueue(id)];
        var counted := EnqueueRow(w, id, plan, rows[i..]);
        assert rows[i..][1..] == rows[i + 1..];
        assert rows[..i + 1] == rows[..i] + [rows[i]];
        if counted { enqueued := enqueued + 1; }
        i := i + 1;
      }
      assert rows[i..] == [] && rows[..i] == rows;
      ok := true;
    }

    /**
     Ends a sweep, as a run of the pool.  A reported outcome means that every row
     is enqueued that has to be, and that the newest is the checkpoint; a timeout, a
     refused store or a lost answer is reported as a failure, whatever was written.
     */
    method FinishSweep(ghost w: World, ghost id: nat, ghost plan: Plan, rows: seq<Row>, confirmed: bool,
                       expired: nat -> bool, acknowledged: bool)
      returns (r: Result<Outcome, WriteError>, enqueued: nat, ghost events: seq<Event>)
      requires plan.m <= plan.n <= |w.h| && rows == NewestFirst(w.h, plan.m, plan.n) && plan.confirmed == confirmed
      modifies `inbox, `checkpoint, `passed, `reported
      ensures Run(w, old(At(id, Writing(plan, rows, false))), events) == At(id, Idle)
      ensures old(inbox) <= inbox && enqueued <= |rows|
      ensures r.Ok? ==> inbox == InboxAfter(old(inbox), rows)
      ensures r.Ok? ==> checkpoint == if rows == [] then old(checkpoint) else Some(PointOf(rows[0]))
      ensures r.Ok? ==> r.value == if confirmed then Succeeded else GapSkipped
      ensures r == Ok(GapSkipped) && rows != [] ==> Skipped(w, plan) in reported
      ensures (&& (forall k :: !expired(k)) && acknowledged && old(checkpoint.Some?)
               && (rows != [] ==> old(checkpoint.value.slot) <= rows[0].slot)) ==> r.Ok?
      ensures r.Err? ==> r.error != ReadFailed
    {
      hide Run, Step, Skipped;
      ghost var start := At(id, Writing(plan, rows, false));
      var ok;
      ok, enqueued, events := EnqueueRows(w, id, plan, rows, expired);
      if !ok { return Err(TimedOut), enqueued, events; }
      if rows != [] && expired(|rows|) {
        RunAppend(w, start, events, Fail(id));
        events := events + [Fail(id)];
        Abandoned(w, At(id, Writing(plan, [], false)), id);
        return Err(TimedOut), enqueued, events;
      }
      RunAppend(w, start, events, Commit(id));
      events := events + [Commit(id)];
      if rows == [] {
        NothingToStore(w, At(id, Writing(plan, [], false)), id, plan);
      } else {
        ok := StoreNewest(w, id, plan, rows[0]);
        if !ok { return Err(StoreFailed), enqueued, events; }
        if !acknowledged {
          RunAppend(w, start, events, Fail(id));
          events := events + [Fail(id)];
          Abandoned(w, At(id, Stored(plan, false)), id);
          return Err(StoreFailed), enqueued, events;
        }
      }
      ghost var late := ReturnSweep(w, id, plan, expired(|rows| + 1));
      RunConcat(w, start, events, late);
      events := events + late;
      r := if expired(|rows| + 1) then Err(TimedOut) else Ok(if confirmed then Succeeded else GapSkipped);
    }

    /** The sweep's promise settles, before or after the timeout. */
    ghost method ReturnSweep(w: World, id: nat, plan: Plan, expired: bool) returns (events: seq<Event>)
      modifies `reported
      ensures Run(w, old(At(id, Stored(plan, false))), events) == At(id, Idle)
      ensures reported == old(reported) + if SkipsGap(plan) && !expired then {Skipped(w, plan)} else {}
    {
      hide Skipped;
      var start := At(id, Stored(plan, false));
      if expired {
        events := [Expire(id), Return(id)];
        assert Run(w, start, events) == Run(w, Step(w, start, Expire(id)), [Return(id)]);
        assert Run(w, At(id, Stored(plan, true)), [Return(id)]) == Run(w, Step(w, At(id, Stored(plan, true)), Return(id)), []);
      } else {
        events := [Return(id)];
        assert Run(w, start, events) == Run(w, Step(w, start, Return(id)), []);
        if SkipsGap(plan) { reported := reported + {Skipped(w, plan)}; }
      }
    }

    /**
     A whole sweep from a stored checkpoint, against an honest history.  A sweep that
     nothing hinders is reported as succeeded exactly when it sees its checkpoint
     below its rows, as awaiting its boundary exactly when it does not although the
     pages ended, and else as a skipped gap.  Succeeding, it has enqueued exactly the
     newer rows that did not fail; skipping, the newest of them; and stored the newest.
     */
    method Sweep(ghost w: World, ghost id: nat, base: Checkpoint, pager: Pager, prober: Prober, ghost heads: nat -> nat,
                 expired: nat -> bool, acknowledged: bool)
      returns (r: Result<Outcome, WriteError>, ghost events: seq<Event>)
      requires checkpoint == Some(base) && TrackedPoolSweep.Honest(pager, prober, w.h, heads, base) && heads(0) == head
      modifies `inbox, `checkpoint, `passed, `reported
      ensures head <= |w.h|
      ensures Run(w, old(At(id, Based(base))), events) == At(id, Idle)
      ensures r == Ok(Outcome.AwaitingBoundary) || r == Err(ReadFailed) ==> inbox == old(inbox) && checkpoint == old(checkpoint)
      ensures r.Ok? ==> SweepLeaves(w, base, head, old(inbox), inbox, checkpoint, r.value)
      ensures (forall k :: !expired(k)) && acknowledged && Acceptable(w.h, head, base) ==>
                r == Ok(if BoundarySeen(w.h, head, heads(MAX_PAGES), base) then Succeeded
                        else if PagesEnd(w.h, head, base) then Outcome.AwaitingBoundary else GapSkipped)
    {
      hide Run, Step, TrackedPoolSweep.Honest, SweepOf, SweepLeaves, PlanFacts, Skipped, Acceptable, BoundarySeen, PagesEnd,
        Position, History, InboxAfter, NewestFirst;
      ghost var start := At(id, Based(base));
      HonestFacts(pager, prober, w.h, heads, base);
      SweepExactly(pager, prober, w.h, heads, base);
      var read, pages, signatures := ReadSweep(pager, prober, base);
      if read.Err? || read.value.AwaitingBoundary? {
        events := [Fail(id)];
        RunOnly(w, start, Fail(id));
        Abandoned(w, start, id);
        AwaitingLeaves(w, base, head, inbox);
        return if read.Err? then Err(ReadFailed) else Ok(Outcome.AwaitingBoundary), events;
      }
      ghost var m := PlanOf(pager, prober, w, start, heads, base);
      ghost var plan := Plan(base, m, head, read.value.confirmed);
      RunOnly(w, start, ReadRows(id, m, read.value.confirmed));
      PlanRead(w, start, id, base, m, read.value.confirmed);
      if Acceptable(w.h, head, base) {
        PlanNewest(w, base, head, heads(MAX_PAGES), m, read.value.rows, read.value.confirmed);
      }
      var enqueued;
      ghost var rest;
      r, enqueued, rest := FinishSweep(w, id, plan, read.value.rows, read.value.confirmed, expired, acknowledged);
      RunConcat(w, start, [ReadRows(id, m, read.value.confirmed)], rest);
      if r.Ok? {
        PlanLeaves(w, base, head, heads(MAX_PAGES), m, read.value.rows, read.value.confirmed, old(inbox));
      }
      events := [ReadRows(id, m, read.value.confirmed)] + rest;
    }
  }

  /** Where the base stands, and the inbox grown by exactly the non-failed rows above it and below `head`. */
  ghost predicate SweptUp(w: World, base: Checkpoint, before: set<Signature>, after: set<Signature>, head: nat) {
    var at := Position(w, base);
    && head <= |w.h| && at.Some?
    && after == before + set j: nat | at.value < j < head && !w.h[j].failed :: w.h[j].signature
  }

  /** The newest row above the base, or the base itself when nothing is newer. */
  ghost function NewestPoint(w: World, base: Checkpoint, head: nat): Checkpoint {
    var at := Position(w, base);
    if at.Some? && at.value + 1 < head <= |w.h| then PointOf(w.h[head - 1]) else base
  }

  lemma {:induction false} SucceedsFrom(w: World, base: Checkpoint, before: set<Signature>, pager: Pager, prober: Prober,
                                        heads: nat -> nat, m: nat)
    requires TrackedPoolSweep.Honest(pager, prober, w.h, heads, base) && m <= heads(0) <= |w.h|
    requires var r := SweepOf(pager, prober, base);
             r.Ok? && r.value == TrackedPoolSweep.Planned(NewestFirst(w.h, m, heads(0)), true)
    ensures SweptUp(w, base, before, InboxAfter(before, NewestFirst(w.h, m, heads(0))), heads(0))
    ensures NewestPoint(w, base, heads(0)) == if m == heads(0) then base else PointOf(w.h[heads(0) - 1])
  {
    hide TrackedPoolSweep.Honest, SweepOf, Position;
    HonestFacts(pager, prober, w.h, heads, base);
    SweepIs(pager, prober, w.h, heads, base);
    var n := heads(0);
    var k: nat :| k <= n && NewestFirst(w.h, m, n) == NewestFirst(w.h, k, n)
                  && Newest(w.h, if k == n then heads(MAX_PAGES) else k, base);
    QueueLength(w.h, m, n);
    QueueLength(w.h, k, n);
    var top := if k == n then heads(MAX_PAGES) else k;
    PlacedAt(w, base, top - 1);
    SliceSignatures(w, m, n);
  }

  /** What a reported sweep leaves behind. */
  ghost predicate SweepLeaves(w: World, base: Checkpoint, head: nat, before: set<Signature>, after: set<Signature>,
                              checkpoint: Option<Checkpoint>, outcome: Outcome)
  {
    match outcome
    case Succeeded => SweptUp(w, base, before, after, head) && checkpoint == Some(NewestPoint(w, base, head))
    case AwaitingBoundary => after == before && checkpoint == Some(base)
    case GapSkipped =>
      && BUDGET <= head <= |w.h| && after == InboxAfter(before, NewestFirst(w.h, head - BUDGET, head))
      && checkpoint == Some(PointOf(w.h[head - 1]))
  }

  /** What the plan of an honest sweep is like. */
  ghost predicate PlanFacts(w: World, base: Checkpoint, head: nat, later: nat, m: nat, rows: seq<Row>, confirmed: bool) {
    && m <= head <= |w.h| && rows == NewestFirst(w.h, m, head)
    && (!confirmed ==> head - m == BUDGET)
    && (confirmed ==>
          && (forall x: set<Signature> :: SweptUp(w, base, x, InboxAfter(x, rows), head))
          && NewestPoint(w, base, head) == if m == head then base else PointOf(w.h[head - 1]))
    && (Acceptable(w.h, head, base) ==>
          && (confirmed <==> BoundarySeen(w.h, head, later, base))
          && (!confirmed ==> !PagesEnd(w.h, head, base))
          && (rows != [] ==> base.slot <= rows[0].slot))
  }

  lemma {:induction false} PlanOf(pager: Pager, prober: Prober, w: World, s: Pool, heads: nat -> nat, base: Checkpoint)
    returns (m: nat)
    requires TrackedPoolSweep.Honest(pager, prober, w.h, heads, base) && heads(0) == s.head
    requires SweepOf(pager, prober, base).Ok? && SweepOf(pager, prober, base).value.Planned?
    ensures var plan := SweepOf(pager, prober, base).value;
            && m <= s.head <= |w.h| && Reads(w, s, base, m, plan.confirmed) && plan.rows == NewestFirst(w.h, m, s.head)
            && PlanFacts(w, base, s.head, heads(MAX_PAGES), m, plan.rows, plan.confirmed)
  {
    var plan := SweepOf(pager, prober, base).value;
    hide TrackedPoolSweep.Honest, SweepOf, SweptUp, NewestPoint, Acceptable, BoundarySeen, PagesEnd, Lowest, InboxAfter, Newest,
      History;
    HonestFacts(pager, prober, w.h, heads, base);
    SweepExactly(pager, prober, w.h, heads, base);
    HonestSweepReads(pager, prober, w, s, heads, base);
    m :| m <= s.head <= |w.h| && Reads(w, s, base, m, plan.confirmed) && plan.rows == NewestFirst(w.h, m, s.head);
    if plan.confirmed {
      forall x: set<Signature> ensures SweptUp(w, base, x, InboxAfter(x, plan.rows), s.head) {
        SucceedsFrom(w, base, x, pager, prober, heads, m);
      }
      SucceedsFrom(w, base, {}, pager, prober, heads, m);
    }
    if Acceptable(w.h, s.head, base) {
      QueueLength(w.h, m, s.head);
      LowestAbove(w.h, s.head, base);
      QueueLength(w.h, Lowest(w.h, s.head, base), s.head);
      RowsNotOlder(w.h, s.head, base, m);
    }
  }

  lemma {:induction false} LowestAbove(h: seq<Row>, n: nat, c: Checkpoint)
    requires n <= |h|
    ensures Floor(h, n, c) <= Lowest(h, n, c) <= n
  {
    hide Locate;
    FloorBelow(h, n, c);
  }

  lemma {:induction false} PlanNewest(w: World, base: Checkpoint, head: nat, later: nat, m: nat, rows: seq<Row>, confirmed: bool)
    requires PlanFacts(w, base, head, later, m, rows, confirmed) && Acceptable(w.h, head, base)
    ensures (confirmed <==> BoundarySeen(w.h, head, later, base)) && (!confirmed ==> !PagesEnd(w.h, head, base))
    ensures rows != [] ==> base.slot <= rows[0].slot
  {
    hide Acceptable, BoundarySeen, PagesEnd, SweptUp;
  }

  lemma {:induction false} PlanLeaves(w: World, base: Checkpoint, head: nat, later: nat, m: nat, rows: seq<Row>,
                                      confirmed: bool, before: set<Signature>)
    requires PlanFacts(w, base, head, later, m, rows, confirmed)
    ensures SweepLeaves(w, base, head, before, InboxAfter(before, rows),
                        if rows == [] then Some(base) else Some(PointOf(rows[0])), if confirmed then Succeeded else GapSkipped)
  {
    hide Acceptable, BoundarySeen, PagesEnd, SweptUp, NewestPoint, InboxAfter;
    QueueLength(w.h, m, head);
  }

  lemma {:induction false} AwaitingLeaves(w: World, base: Checkpoint, head: nat, inbox: set<Signature>)
    ensures SweepLeaves(w, base, head, inbox, inbox, Some(base), Outcome.AwaitingBoundary)
  {
  }

  /** The newest acceptable row is not older than the checkpoint. */
  lemma {:induction false} RowsNotOlder(h: seq<Row>, n: nat, c: Checkpoint, m: nat)
    requires n <= |h| && m <= n && Acceptable(h, n, c)
    ensures m < n && Floor(h, n, c) < n ==> c.slot <= h[n - 1].slot
  {
    hide Locate;
  }

  lemma {:induction false} PlacedAt(w: World, c: Checkpoint, i: nat)
    requires History(w.h) && i < |w.h| && Matches(w.h[i], c)
    ensures Position(w, c) == Some(i)
  {
  }

  lemma {:induction false} SliceSignatures(w: World, m: nat, n: nat)
    requires m <= n <= |w.h|
    ensures forall x: set<Signature> :: InboxAfter(x, NewestFirst(w.h, m, n))
                                     == x + set j: nat | m <= j < n && !w.h[j].failed :: w.h[j].signature
  {
    var q := NewestFirst(w.h, m, n);
    var a := set r <- q | !r.failed :: r.signature;
    var b := set j: nat | m <= j < n && !w.h[j].failed :: w.h[j].signature;
    forall x ensures x in a <==> x in b {
      if x in a {
        var r :| r in q && !r.failed && r.signature == x;
        var i :| 0 <= i < |q| && q[i] == r;
        assert w.h[n - 1 - i] == r;
      }
      if x in b {
        var j: nat :| m <= j < n && !w.h[j].failed && w.h[j].signature == x;
        assert q[n - 1 - j] == w.h[j];
      }
    }
    assert a == b;
  }

  lemma {:induction false} PlanRead(w: World, s: Pool, id: nat, base: Checkpoint, m: nat, confirmed: bool)
    requires s.sweeps == map[id := Based(base)] && Reads(w, s, base, m, confirmed)
    ensures Step(w, s, ReadRows(id, m, confirmed))
         == s.(sweeps := map[id := Writing(Plan(base, m, s.head, confirmed), NewestFirst(w.h, m, s.head), false)])
  {
    hide NewestFirst;
  }

  lemma {:induction false} NothingToStore(w: World, s: Pool, id: nat, plan: Plan)
    requires s.sweeps == map[id := Writing(plan, [], false)] && plan.n <= plan.m && plan.n <= |w.h|
    ensures Step(w, s, Commit(id)) == s.(sweeps := map[id := Stored(plan, false)])
  {
  }

  lemma {:induction false} RunOnly(w: World, s: Pool, e: Event)
    ensures Run(w, s, [e]) == Step(w, s, e)
  {
    hide Step;
    assert Run(w, s, [e]) == Run(w, Step(w, s, e), []);
  }

  lemma {:induction false} RunNothing(w: World, s: Pool)
    ensures Run(w, s, []) == s
  {
  }

  lemma {:induction false} Abandoned(w: World, s: Pool, id: nat)
    requires s.sweeps == map[id := LocalOf(s, id)]
    ensures Step(w, s, Fail(id)) == s.(sweeps := map[id := Idle])
  {
  }
}
