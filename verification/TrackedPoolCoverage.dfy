/**
 Runs of sweeps over one tracked pool: cycles, timeouts, crashes, and writes that
 land after their sweep has failed or timed out.
 */
module TrackedPoolCoverage {
  import opened Prelude
  import opened CatchUpDiscovery
  import opened CatchUpScanner
  import opened TrackedPoolSweep

  /** The pool's history, oldest first, and the activation the tracking starts from. */
  datatype World = World(h: seq<Row>, activation: Checkpoint)

  /** Rows strictly between two indices, passed over by a sweep that ran out of pages. */
  datatype Range = Range(lo: nat, hi: nat)

  datatype Local =
    | Idle
    | Started
    | Seeding
    | Based(base: Checkpoint)
    | Writing(plan: Plan, queue: seq<Row>, expired: bool)
    | Stored(plan: Plan, expired: bool)

  /** The rows `m..n` of the history, read by a sweep from `base`. */
  datatype Plan = Plan(base: Checkpoint, m: nat, n: nat, confirmed: bool)

  /** `passed` holds the ranges the stored checkpoint has moved over unread; `reported` those whose sweep said so. */
  datatype Pool = Pool(inbox: set<Signature>, checkpoint: Option<Checkpoint>, head: nat, sweeps: map<nat, Local>,
                       passed: set<Range>, reported: set<Range>)

  datatype Event =
    | Grow(head: nat)
    | Begin(id: nat)
    | ReadCheckpoint(id: nat)
    | Seed(id: nat)
    | ReadRows(id: nat, m: nat, confirmed: bool)
    | Enqueue(id: nat)
    | Commit(id: nat)
    | Return(id: nat)
    | Expire(id: nat)
    | Fail(id: nat)

  function LocalOf(s: Pool, id: nat): Local {
    if id in s.sweeps then s.sweeps[id] else Idle
  }

  function With(s: Pool, id: nat, l: Local): Pool {
    s.(sweeps := s.sweeps[id := l])
  }

  function Position(w: World, c: Checkpoint): Option<nat> {
    Locate(w.h, |w.h|, c)
  }

  function PointOf(r: Row): Checkpoint {
    Checkpoint(r.slot, r.signature, 0)
  }

  /** What an honest sweep may have read, at the current head. */
  predicate Reads(w: World, s: Pool, base: Checkpoint, m: nat, confirmed: bool) {
    m <= s.head <= |w.h| && (confirmed && m < s.head ==> Newest(w.h, m, base)) && (!confirmed ==> s.head - m == BUDGET)
  }

  function EnqueueStep(s: Pool, id: nat, l: Local): Pool
    requires l.Writing?
  {
    if l.queue == [] then s
    else
      var row := l.queue[0];
      With(if row.failed then s else s.(inbox := s.inbox + {row.signature}), id, Writing(l.plan, l.queue[1..], l.expired))
  }

  function Skipped(w: World, plan: Plan): Range {
    var at := Position(w, plan.base);
    Range(if at.Some? then at.value else 0, plan.m)
  }

  /** The sweep ran out of pages and skips whatever lies below its rows. */
  predicate SkipsGap(plan: Plan) {
    !plan.confirmed && plan.m < plan.n
  }

  /** The repository takes a checkpoint whose slot is not below the stored one; the sweep hears of it later, or never. */
  function CommitStep(w: World, s: Pool, id: nat, l: Local): Pool
    requires l.Writing?
  {
    var plan := l.plan;
    if l.queue != [] then s
    else if plan.n > |w.h| then With(s, id, Idle)
    else if plan.m >= plan.n then With(s, id, Stored(plan, l.expired))
    else
      var c := PointOf(w.h[plan.n - 1]);
      if s.checkpoint.None? || s.checkpoint.value.slot > c.slot then With(s, id, Idle)
      else With(s.(checkpoint := Some(c), passed := if SkipsGap(plan) then s.passed + {Skipped(w, plan)} else s.passed),
                id, Stored(plan, l.expired))
  }

  /** The sweep returns: a gap is reported as such, unless the timeout was reported first. */
  function ReturnStep(w: World, s: Pool, id: nat, l: Local): Pool
    requires l.Stored?
  {
    With(if SkipsGap(l.plan) && !l.expired then s.(reported := s.reported + {Skipped(w, l.plan)}) else s, id, Idle)
  }

  function Step(w: World, s: Pool, e: Event): Pool {
    match e
    case Grow(head) => if s.head <= head <= |w.h| then s.(head := head) else s
    case Begin(id) => if LocalOf(s, id).Idle? then With(s, id, Started) else s
    case ReadCheckpoint(id) =>
      if !LocalOf(s, id).Started? then s
      else With(s, id, if s.checkpoint.None? then Seeding else Based(s.checkpoint.value))
    case Seed(id) =>
      if !LocalOf(s, id).Seeding? then s
      else With(if s.checkpoint.None? then s.(checkpoint := Some(w.activation)) else s, id, Based(w.activation))
    case ReadRows(id, m, confirmed) =>
      var l := LocalOf(s, id);
      if l.Based? && Reads(w, s, l.base, m, confirmed)
      then With(s, id, Writing(Plan(l.base, m, s.head, confirmed), NewestFirst(w.h, m, s.head), false)) else s
    case Enqueue(id) => if LocalOf(s, id).Writing? then EnqueueStep(s, id, LocalOf(s, id)) else s
    case Commit(id) => if LocalOf(s, id).Writing? then CommitStep(w, s, id, LocalOf(s, id)) else s
    case Return(id) => if LocalOf(s, id).Stored? then ReturnStep(w, s, id, LocalOf(s, id)) else s
    case Expire(id) =>
      var l := LocalOf(s, id);
      if l.Writing? then With(s, id, Writing(l.plan, l.queue, true))
      else if l.Stored? then With(s, id, Stored(l.plan, true))
      else if l.Based? then With(s, id, Idle) else s
    case Fail(id) => With(s, id, Idle)
  }

  function Run(w: World, s: Pool, events: seq<Event>): Pool
    decreases |events|
  {
    if events == [] then s else Run(w, Step(w, s, events[0]), events[1..])
  }

  const EMPTY: Pool := Pool({}, None, 0, map[], {}, {})

  // ------------------------------------------------------------ coverage

  predicate WorldOk(w: World) {
    History(w.h) && Position(w, w.activation).Some?
  }

  ghost predicate InRange(ranges: set<Range>, j: nat) {
    exists r :: r in ranges && r.lo < j < r.hi
  }

  /** The row needs no enqueueing, or is enqueued, or was passed over by a gap. */
  ghost predicate Safe(w: World, s: Pool, ranges: set<Range>, j: nat) {
    j < |w.h| && (w.h[j].failed || w.h[j].signature in s.inbox || InRange(ranges, j))
  }

  ghost predicate CoveredTo(w: World, s: Pool, i: nat)
    requires WorldOk(w)
  {
    i < |w.h| && forall j: nat :: Position(w, w.activation).value < j <= i ==> Safe(w, s, s.passed, j)
  }

  ghost predicate Good(w: World, s: Pool, c: Checkpoint)
    requires WorldOk(w)
  {
    Position(w, c).Some? && CoveredTo(w, s, Position(w, c).value)
  }

  // ----------------------------------------------------------- invariant

  predicate Pending(w: World, s: Pool, queue: seq<Row>, j: nat)
    requires j < |w.h|
  {
    w.h[j].failed || w.h[j].signature in s.inbox || w.h[j] in queue
  }

  ghost predicate PlanOk(w: World, s: Pool, p: Plan, queue: seq<Row>)
    requires WorldOk(w)
  {
    && Good(w, s, p.base) && p.m <= p.n <= |w.h|
    && (p.confirmed && p.m < p.n ==> Newest(w.h, p.m, p.base))
    && forall j: nat :: p.m <= j < p.n ==> Pending(w, s, queue, j)
  }

  ghost predicate LocalOk(w: World, s: Pool, l: Local)
    requires WorldOk(w)
  {
    match l
    case Based(base) => Good(w, s, base)
    case Writing(plan, queue, _) => PlanOk(w, s, plan, queue)
    case _ => true
  }

  ghost predicate Inv(w: World, s: Pool) {
    && WorldOk(w) && s.head <= |w.h|
    && (s.checkpoint.Some? ==> Good(w, s, s.checkpoint.value))
    && forall id :: id in s.sweeps ==> LocalOk(w, s, s.sweeps[id])
  }

  /** Durable facts only accumulate. */
  predicate Grows(s: Pool, s': Pool) {
    s.inbox <= s'.inbox && s.passed <= s'.passed
  }

  lemma {:induction false} GoodGrows(w: World, s: Pool, s': Pool, c: Checkpoint)
    requires WorldOk(w) && Good(w, s, c) && Grows(s, s')
    ensures Good(w, s', c)
  {
    hide History;
    forall j: nat | Position(w, w.activation).value < j <= Position(w, c).value
      ensures Safe(w, s', s'.passed, j)
    {
      assert Safe(w, s, s.passed, j);
    }
  }

  lemma {:induction false} LocalGrows(w: World, s: Pool, s': Pool, l: Local)
    requires WorldOk(w) && LocalOk(w, s, l) && Grows(s, s')
    ensures LocalOk(w, s', l)
  {
    hide WorldOk, Good;
    match l
    case Based(base) => GoodGrows(w, s, s', base);
    case Writing(plan, queue, _) =>
      GoodGrows(w, s, s', plan.base);
      forall j: nat | plan.m <= j < plan.n ensures Pending(w, s', queue, j) { assert Pending(w, s, queue, j); }
    case _ =>
  }

  lemma {:induction false} Moved(w: World, s: Pool, s': Pool, id: nat, l: Local)
    requires Inv(w, s) && Grows(s, s') && s'.sweeps == s.sweeps && s'.head <= |w.h|
    requires s'.checkpoint.Some? ==> Good(w, s', s'.checkpoint.value)
    requires LocalOk(w, s', l)
    ensures Inv(w, With(s', id, l))
  {
    hide WorldOk, Good, LocalOk;
    var t := With(s', id, l);
    if t.checkpoint.Some? { GoodGrows(w, s', t, t.checkpoint.value); }
    forall k | k in t.sweeps ensures LocalOk(w, t, t.sweeps[k]) {
      if k != id { LocalGrows(w, s, s', s.sweeps[k]); }
      LocalGrows(w, s', t, t.sweeps[k]);
    }
  }

  lemma {:induction false} Stays(w: World, s: Pool, id: nat, l: Local)
    requires Inv(w, s) && LocalOk(w, s, l)
    ensures Inv(w, With(s, id, l))
  {
    hide WorldOk, Good, LocalOk;
    Moved(w, s, s, id, l);
  }

  lemma {:induction false} ActivationGood(w: World, s: Pool)
    requires WorldOk(w)
    ensures Good(w, s, w.activation)
  {
  }

  lemma {:induction false} SeedKeeps(w: World, s: Pool, id: nat)
    requires Inv(w, s) && LocalOf(s, id).Seeding?
    ensures Inv(w, Step(w, s, Seed(id)))
  {
    hide WorldOk, Good;
    var s' := if s.checkpoint.None? then s.(checkpoint := Some(w.activation)) else s;
    ActivationGood(w, s');
    if s.checkpoint.Some? { GoodGrows(w, s, s', s.checkpoint.value); }
    Moved(w, s, s', id, Based(w.activation));
  }

  lemma {:induction false} ReadKeeps(w: World, s: Pool, id: nat, m: nat, confirmed: bool)
    requires Inv(w, s) && LocalOf(s, id).Based? && Reads(w, s, LocalOf(s, id).base, m, confirmed)
    ensures Inv(w, Step(w, s, ReadRows(id, m, confirmed)))
  {
    hide WorldOk, Good;
    var l := LocalOf(s, id);
    assert LocalOk(w, s, l);
    var queue := NewestFirst(w.h, m, s.head);
    forall j: nat | m <= j < s.head ensures Pending(w, s, queue, j) {
      assert queue[s.head - 1 - j] == w.h[j];
    }
    Stays(w, s, id, Writing(Plan(l.base, m, s.head, confirmed), queue, false));
  }

  lemma {:induction false} EnqueueKeeps(w: World, s: Pool, id: nat)
    requires Inv(w, s) && LocalOf(s, id).Writing?
    ensures Inv(w, EnqueueStep(s, id, LocalOf(s, id)))
  {
    hide WorldOk, Good;
    var l := LocalOf(s, id);
    assert LocalOk(w, s, l);
    if l.queue != [] {
      var row := l.queue[0];
      var s' := if row.failed then s else s.(inbox := s.inbox + {row.signature});
      if s.checkpoint.Some? { GoodGrows(w, s, s', s.checkpoint.value); }
      GoodGrows(w, s, s', l.plan.base);
      forall j: nat | l.plan.m <= j < l.plan.n ensures Pending(w, s', l.queue[1..], j) { assert Pending(w, s, l.queue, j); }
      Moved(w, s, s', id, Writing(l.plan, l.queue[1..], l.expired));
    }
  }

  lemma {:induction false} PositionUnique(w: World, c: Checkpoint, i: nat)
    requires WorldOk(w) && i < |w.h| && Matches(w.h[i], c)
    ensures Position(w, c) == Some(i)
  {
  }

  /** Once all its rows are out, a plan covers everything up to its newest row. */
  lemma {:induction false} PlanCovers(w: World, s: Pool, s': Pool, p: Plan)
    requires WorldOk(w) && PlanOk(w, s, p, []) && p.m < p.n && Grows(s, s')
    requires !p.confirmed ==> Skipped(w, p) in s'.passed
    ensures CoveredTo(w, s', p.n - 1)
  {
    assert Position(w, w.activation).Some?;
    hide WorldOk;
    GoodGrows(w, s, s', p.base);
    var c := Position(w, p.base).value;
    if p.confirmed { PositionUnique(w, p.base, p.m - 1); }
    hide Position;
    forall j: nat | Position(w, w.activation).value < j <= p.n - 1 ensures Safe(w, s', s'.passed, j) {
      if j > c {
        if j >= p.m {
          assert Pending(w, s, [], j);
        } else {
          assert Skipped(w, p).lo < j < Skipped(w, p).hi;
        }
      }
    }
  }

  lemma {:induction false} CommitKeeps(w: World, s: Pool, id: nat)
    requires Inv(w, s) && LocalOf(s, id).Writing?
    ensures Inv(w, CommitStep(w, s, id, LocalOf(s, id)))
  {
    hide WorldOk, CoveredTo, Position;
    var l := LocalOf(s, id);
    assert LocalOk(w, s, l);
    var plan := l.plan;
    if l.queue == [] {
      Stays(w, s, id, Idle);
      Stays(w, s, id, Stored(plan, l.expired));
      if plan.m < plan.n {
        var c := PointOf(w.h[plan.n - 1]);
        var s' := s.(checkpoint := Some(c), passed := if SkipsGap(plan) then s.passed + {Skipped(w, plan)} else s.passed);
        PlanCovers(w, s, s', plan);
        PositionUnique(w, c, plan.n - 1);
        Moved(w, s, s', id, Stored(plan, l.expired));
      }
    }
  }

  lemma {:induction false} ReturnKeeps(w: World, s: Pool, id: nat)
    requires Inv(w, s) && LocalOf(s, id).Stored?
    ensures Inv(w, ReturnStep(w, s, id, LocalOf(s, id)))
  {
    hide WorldOk, Good, Skipped;
    var l := LocalOf(s, id);
    var s' := if SkipsGap(l.plan) && !l.expired then s.(reported := s.reported + {Skipped(w, l.plan)}) else s;
    if s.checkpoint.Some? { GoodGrows(w, s, s', s.checkpoint.value); }
    Moved(w, s, s', id, Idle);
  }

  lemma {:induction false} GrowKeeps(w: World, s: Pool, head: nat)
    requires Inv(w, s) && head <= |w.h|
    ensures Inv(w, s.(head := head))
  {
    hide WorldOk, Good, LocalOk;
    var s' := s.(head := head);
    if s.checkpoint.Some? { GoodGrows(w, s, s', s.checkpoint.value); }
    forall k | k in s'.sweeps ensures LocalOk(w, s', s'.sweeps[k]) { LocalGrows(w, s, s', s.sweeps[k]); }
  }

  lemma {:induction false} ReadPointKeeps(w: World, s: Pool, id: nat)
    requires Inv(w, s)
    ensures Inv(w, With(s, id, if s.checkpoint.None? then Seeding else Based(s.checkpoint.value)))
  {
    hide WorldOk, Good;
    Stays(w, s, id, if s.checkpoint.None? then Seeding else Based(s.checkpoint.value));
  }

  lemma {:induction false} ExpireKeeps(w: World, s: Pool, id: nat)
    requires Inv(w, s)
    ensures Inv(w, Step(w, s, Expire(id)))
  {
    hide WorldOk, Good, PlanOk;
    var l := LocalOf(s, id);
    assert LocalOk(w, s, l);
    if l.Writing? { Stays(w, s, id, Writing(l.plan, l.queue, true)); }
    if l.Stored? { Stays(w, s, id, Stored(l.plan, true)); }
    Stays(w, s, id, Idle);
  }

  lemma {:induction false} StepKeeps(w: World, s: Pool, e: Event)
    requires Inv(w, s)
    ensures Inv(w, Step(w, s, e))
  {
    match e
    case Grow(head) =>
      hide Inv;
      if head <= |w.h| { GrowKeeps(w, s, head); }
    case Begin(id) => hide WorldOk, Good; Stays(w, s, id, Started);
    case ReadCheckpoint(id) => hide Inv; ReadPointKeeps(w, s, id);
    case Seed(id) => hide Inv; if LocalOf(s, id).Seeding? { SeedKeeps(w, s, id); }
    case ReadRows(id, m, confirmed) =>
      hide Inv;
      if LocalOf(s, id).Based? && Reads(w, s, LocalOf(s, id).base, m, confirmed) { ReadKeeps(w, s, id, m, confirmed); }
    case Enqueue(id) => hide Inv, EnqueueStep; if LocalOf(s, id).Writing? { EnqueueKeeps(w, s, id); }
    case Commit(id) => hide Inv, CommitStep; if LocalOf(s, id).Writing? { CommitKeeps(w, s, id); }
    case Return(id) => hide Inv, ReturnStep; if LocalOf(s, id).Stored? { ReturnKeeps(w, s, id); }
    case Expire(id) => hide Inv; ExpireKeeps(w, s, id);
    case Fail(id) => hide WorldOk, Good; Stays(w, s, id, Idle);
  }

  lemma {:induction false} RunKeeps(w: World, s: Pool, events: seq<Event>)
    requires Inv(w, s)
    ensures Inv(w, Run(w, s, events))
    decreases |events|
  {
    hide Inv, Step;
    if events != [] {
      StepKeeps(w, s, events[0]);
      RunKeeps(w, Step(w, s, events[0]), events[1..]);
    }
  }

  // ------------------------------------------------------------ theorems

  /**
   Over all cycles, timeouts and crashes, nothing between the activation and the
   stored checkpoint is missing, except in the ranges passed by a gap sweep.
   */
  lemma {:induction false} PoolCovered(w: World, events: seq<Event>)
    requires WorldOk(w) && Run(w, EMPTY, events).checkpoint.Some?
    ensures var s := Run(w, EMPTY, events);
            var at := Position(w, s.checkpoint.value);
            && at.Some?
            && forall j: nat :: Position(w, w.activation).value < j <= at.value ==> Safe(w, s, s.passed, j)
  {
    hide Run, Safe;
    RunKeeps(w, EMPTY, events);
  }

  /** A committed gap whose sweep has yet to return. */
  predicate Owing(l: Local) {
    l.Stored? && SkipsGap(l.plan)
  }

  /** A gap sweep's write lands after its timeout, or the sweep expires or fails between the write and its return. */
  predicate Loses(w: World, s: Pool, e: Event) {
    match e
    case Commit(id) =>
      LocalOf(s, id).Writing? && LocalOf(s, id).expired && Owing(LocalOf(Step(w, s, e), id))
    case Expire(id) => Owing(LocalOf(s, id))
    case Fail(id) => Owing(LocalOf(s, id))
    case _ => false
  }

  /** Every gap sweep whose write lands also returns, unexpired. */
  predicate AllReturn(w: World, s: Pool, events: seq<Event>)
    decreases |events|
  {
    if events == [] then forall id :: id in s.sweeps ==> !Owing(s.sweeps[id])
    else !Loses(w, s, events[0]) && AllReturn(w, Step(w, s, events[0]), events[1..])
  }

  ghost predicate Owed(w: World, s: Pool, r: Range, id: nat) {
    id in s.sweeps && Owing(s.sweeps[id]) && !s.sweeps[id].expired && Skipped(w, s.sweeps[id].plan) == r
  }

  /** What was passed has been reported, or will be by the sweep that passed it. */
  ghost predicate Accounted(w: World, s: Pool) {
    forall r :: r in s.passed ==> r in s.reported || exists id: nat :: Owed(w, s, r, id)
  }

  lemma {:induction false} StepAccounts(w: World, s: Pool, e: Event)
    requires Accounted(w, s) && !Loses(w, s, e)
    ensures Accounted(w, Step(w, s, e))
  {
    hide Position, NewestFirst, Reads, Skipped;
    var t := Step(w, s, e);
    forall r | r in t.passed ensures r in t.reported || exists id: nat :: Owed(w, t, r, id) {
      if r in s.passed && r !in s.reported {
        var id: nat :| Owed(w, s, r, id);
        assert r in t.reported || Owed(w, t, r, id);
      } else if r !in s.passed {
        assert e.Commit? && Owed(w, t, r, e.id);
      }
    }
  }

  lemma {:induction false} RunReports(w: World, s: Pool, events: seq<Event>)
    requires Accounted(w, s) && AllReturn(w, s, events)
    ensures Run(w, s, events).passed <= Run(w, s, events).reported
    decreases |events|
  {
    hide Step, Loses;
    if events != [] {
      StepAccounts(w, s, events[0]);
      RunReports(w, Step(w, s, events[0]), events[1..]);
    }
  }

  /** If every gap sweep whose write lands also returns in time, the exceptions are the reported gaps. */
  lemma {:induction false} PoolCoveredByReports(w: World, events: seq<Event>)
    requires WorldOk(w) && Run(w, EMPTY, events).checkpoint.Some? && AllReturn(w, EMPTY, events)
    ensures var s := Run(w, EMPTY, events);
            var at := Position(w, s.checkpoint.value);
            at.Some? && forall j: nat :: Position(w, w.activation).value < j <= at.value ==> Safe(w, s, s.reported, j)
  {
    hide Run, Position;
    PoolCovered(w, events);
    RunReports(w, EMPTY, events);
    var s := Run(w, EMPTY, events);
    forall j: nat | Position(w, w.activation).value < j <= Position(w, s.checkpoint.value).value
      ensures Safe(w, s, s.reported, j)
    {
      assert Safe(w, s, s.passed, j);
    }
  }

  /** Every plan an honest sweep makes is one the runs allow. */
  lemma {:induction false} HonestSweepReads(pager: Pager, prober: Prober, w: World, s: Pool, head: nat -> nat,
                                            c: Checkpoint)
    requires TrackedPoolSweep.Honest(pager, prober, w.h, head, c) && head(0) == s.head
    ensures var r := SweepOf(pager, prober, c);
            r.Ok? && r.value.Planned? ==>
              exists m: nat :: m <= s.head <= |w.h| && Reads(w, s, c, m, r.value.confirmed) && r.value.rows == NewestFirst(w.h, m, s.head)
  {
    hide TrackedPoolSweep.Honest, SweepOf;
    HonestFacts(pager, prober, w.h, head, c);
    SweepIs(pager, prober, w.h, head, c);
    var r := SweepOf(pager, prober, c);
    if r.Ok? && r.value.Planned? {
      var m: nat :| m <= s.head && r.value.rows == NewestFirst(w.h, m, s.head)
                    && (r.value.confirmed ==> Newest(w.h, if m == s.head then head(MAX_PAGES) else m, c))
                    && (!r.value.confirmed ==> s.head - m == BUDGET);
      assert Reads(w, s, c, m, r.value.confirmed);
    }
  }

  // ------------------------------------------- a gap that goes unreported

  function Sig(i: nat): Signature {
    seq(i, _ => 'x')
  }

  function LongHistory(): (h: seq<Row>)
    ensures |h| == BUDGET + 2
    ensures forall i :: 0 <= i < |h| ==> h[i] == Row(Sig(i), i, Finalized, None, false)
  {
    seq(BUDGET + 2, i => if i < 0 then Row([], 0, Finalized, None, false) else Row(Sig(i), i, Finalized, None, false))
  }

  lemma {:induction false} LongHistoryOk()
    ensures History(LongHistory())
    ensures WorldOk(World(LongHistory(), Checkpoint(0, Sig(0), 0)))
  {
    var h := LongHistory();
    forall i, j | 0 <= i < j < |h| ensures h[i].slot <= h[j].slot && h[i].signature != h[j].signature {
      assert |Sig(i)| == i && |Sig(j)| == j;
    }
    assert Matches(h[0], Checkpoint(0, Sig(0), 0));
  }

  lemma {:induction false} RunConcat(w: World, s: Pool, a: seq<Event>, b: seq<Event>)
    ensures Run(w, s, a + b) == Run(w, Run(w, s, a), b)
    decreases |a|
  {
    hide Step;
    if a == [] {
      assert a + b == b;
    } else {
      assert (a + b)[1..] == a[1..] + b && (a + b)[0] == a[0];
      RunConcat(w, Step(w, s, a[0]), a[1..], b);
    }
  }

  /** The inbox once a queue of rows has been enqueued. */
  function InboxAfter(inbox: set<Signature>, queue: seq<Row>): set<Signature> {
    inbox + set r <- queue | !r.failed :: r.signature
  }

  function Enqueues(id: nat, n: nat): seq<Event> {
    seq(n, _ => Enqueue(id))
  }

  lemma {:induction false} EnqueueAll(w: World, s: Pool, id: nat, plan: Plan, queue: seq<Row>)
    requires LocalOf(s, id) == Writing(plan, queue, false)
    ensures Run(w, s, Enqueues(id, |queue|))
         == With(s.(inbox := InboxAfter(s.inbox, queue)), id, Writing(plan, [], false))
    decreases |queue|
  {
    if queue == [] {
      assert s.inbox + {} == s.inbox;
    } else {
      var s' := Step(w, s, Enqueue(id));
      assert Enqueues(id, |queue|)[1..] == Enqueues(id, |queue| - 1);
      EnqueueAll(w, s', id, plan, queue[1..]);
      assert queue == [queue[0]] + queue[1..];
      assert InboxAfter(s'.inbox, queue[1..]) == InboxAfter(s.inbox, queue);
    }
  }

  const LONG_WORLD: World := World(LongHistory(), Checkpoint(0, Sig(0), 0))

  /** A first sweep that reads a full budget and leaves one row below it. */
  function GapSweep(): seq<Event> {
    [Grow(BUDGET + 2), Begin(0), ReadCheckpoint(0), Seed(0), ReadRows(0, 2, false)] + Enqueues(0, BUDGET)
  }

  /** A first sweep, up to what it read. */
  lemma {:induction false} FirstReads(w: World, head: nat, m: nat)
    requires head <= |w.h| && m + BUDGET == head
    ensures Run(w, EMPTY, [Grow(head), Begin(0), ReadCheckpoint(0), Seed(0), ReadRows(0, m, false)])
         == Pool({}, Some(w.activation), head,
                 map[0 := Writing(Plan(w.activation, m, head, false), NewestFirst(w.h, m, head), false)], {}, {})
  {
    hide NewestFirst;
    var e := [Grow(head), Begin(0), ReadCheckpoint(0), Seed(0), ReadRows(0, m, false)];
    var s1 := EMPTY.(head := head);
    var s2 := s1.(sweeps := map[0 := Started]);
    var s3 := s1.(sweeps := map[0 := Seeding]);
    var s4 := s1.(sweeps := map[0 := Based(w.activation)], checkpoint := Some(w.activation));
    assert Step(w, EMPTY, e[0]) == s1 && Step(w, s1, e[1]) == s2 && Step(w, s2, e[2]) == s3 && Step(w, s3, e[3]) == s4;
    RunFive(w, EMPTY, e);
  }

  lemma {:induction false} RunFive(w: World, s: Pool, e: seq<Event>)
    requires |e| == 5
    ensures Run(w, s, e) == Step(w, Step(w, Step(w, Step(w, Step(w, s, e[0]), e[1]), e[2]), e[3]), e[4])
  {
    hide Step;
    var s1 := Step(w, s, e[0]);
    var s2 := Step(w, s1, e[1]);
    var s3 := Step(w, s2, e[2]);
    assert e[1..][1..] == e[2..] && e[2..][1..] == e[3..] && e[3..][1..] == e[4..] && e[4..][1..] == [];
    assert Run(w, s, e) == Run(w, s1, e[1..]) == Run(w, s2, e[2..]);
    assert Run(w, s2, e[2..]) == Run(w, s3, e[3..]) == Run(w, Step(w, s3, e[3]), e[4..]);
    assert Run(w, Step(w, s3, e[3]), e[4..]) == Run(w, Step(w, Step(w, s3, e[3]), e[4]), []);
  }

  lemma {:induction false} GapSweepRun()
    ensures var w := LONG_WORLD;
            Run(w, EMPTY, GapSweep()) == Pool(InboxAfter({}, NewestFirst(w.h, 2, BUDGET + 2)), Some(w.activation), BUDGET + 2,
                                              map[0 := Writing(Plan(w.activation, 2, BUDGET + 2, false), [], false)], {}, {})
  {
    hide LongHistory, NewestFirst, Sig, Run, InboxAfter;
    var w := LONG_WORLD;
    var queue := NewestFirst(w.h, 2, BUDGET + 2);
    var e := [Grow(BUDGET + 2), Begin(0), ReadCheckpoint(0), Seed(0), ReadRows(0, 2, false)];
    FirstReads(w, BUDGET + 2, 2);
    RunConcat(w, EMPTY, e, Enqueues(0, BUDGET));
    QueueLength(w.h, 2, BUDGET + 2);
    EnqueueAll(w, Run(w, EMPTY, e), 0, Plan(w.activation, 2, BUDGET + 2, false), queue);
  }

  lemma {:induction false} QueueLength(h: seq<Row>, m: nat, n: nat)
    requires m <= n <= |h|
    ensures |NewestFirst(h, m, n)| == n - m
  {
  }

  lemma {:induction false} RowOneMissing(s: Pool)
    requires s.inbox == InboxAfter({}, NewestFirst(LONG_WORLD.h, 2, BUDGET + 2))
    ensures !Safe(LONG_WORLD, s, {}, 1)
  {
    var w := LONG_WORLD;
    var queue := NewestFirst(w.h, 2, BUDGET + 2);
    forall r | r in queue ensures r.signature != w.h[1].signature {
      var i :| 0 <= i < |queue| && queue[i] == r;
      assert queue[i] == w.h[BUDGET + 1 - i];
      assert |r.signature| == BUDGET + 1 - i && |w.h[1].signature| == 1;
    }
  }

  /** The ways a gap goes unreported: a late write, a timeout before the return, a lost answer or a crash. */
  predicate LosingEnd(end: seq<Event>) {
    end == [Expire(0), Commit(0), Return(0)] || end == [Commit(0), Expire(0), Return(0)] || end == [Commit(0), Fail(0)]
  }

  /**
   From the empty pool: the sweep's checkpoint is stored, row 1 is at or below it,
   not enqueued, and in no reported gap.
   */
  lemma {:induction false} GapGoesUnreported(end: seq<Event>)
    requires LosingEnd(end)
    ensures WorldOk(LONG_WORLD)
    ensures var w := LONG_WORLD;
            var s := Run(w, EMPTY, GapSweep() + end);
            && s.checkpoint == Some(PointOf(w.h[BUDGET + 1])) && Position(w, s.checkpoint.value) == Some(BUDGET + 1)
            && s.reported == {} && !Safe(w, s, s.reported, 1)
  {
    var w := LONG_WORLD;
    LongHistoryOk();
    PositionUnique(w, PointOf(w.h[BUDGET + 1]), BUDGET + 1);
    hide LongHistory, WorldOk, Position, Sig, NewestFirst;
    GapSweepRun();
    RunConcat(w, EMPTY, GapSweep(), end);
    var plan := Plan(w.activation, 2, BUDGET + 2, false);
    var s := Run(w, EMPTY, GapSweep());
    RunLosing(w, s, plan, end);
    RowOneMissing(Run(w, s, end));
  }

  lemma {:induction false} RunLosing(w: World, s: Pool, plan: Plan, end: seq<Event>)
    requires LosingEnd(end) && LocalOf(s, 0) == Writing(plan, [], false) && plan.m < plan.n <= |w.h|
    requires s.checkpoint.Some? && s.checkpoint.value.slot <= w.h[plan.n - 1].slot
    ensures var t := Run(w, s, end);
            t.inbox == s.inbox && t.reported == s.reported && t.checkpoint == Some(PointOf(w.h[plan.n - 1]))
  {
    hide Skipped;
    var s1 := Step(w, s, end[0]);
    var s2 := Step(w, s1, end[1]);
    assert Run(w, s, end) == Run(w, s1, end[1..]) == Run(w, s2, end[2..]);
    if |end| == 3 { assert Run(w, s2, end[2..]) == Run(w, Step(w, s2, end[2]), []); }
  }
}
