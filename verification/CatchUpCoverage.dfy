/**
 Runs of catch-up scans over a durable inbox: any number of scanners, an error or
 crash at any step, and new signatures arriving at the head in between.
 */
module CatchUpCoverage {
  import opened Prelude
  import opened CatchUpDiscovery
  import opened CatchUpScanner

  datatype Program = Launchpad | Market

  /** Each program's history, oldest first, as far as the run will ever see it. */
  datatype World = World(launchpad: seq<Row>, market: seq<Row>)

  function HistoryOf(w: World, p: Program): seq<Row> {
    if p == Launchpad then w.launchpad else w.market
  }

  function IdOf(p: Program): ProgramId {
    if p == Launchpad then "launchpad" else "market"
  }

  predicate WorldOk(w: World) {
    History(w.launchpad) && History(w.market)
  }

  /** The scan of one program, with the checkpoint it started from. */
  datatype Based = Based(program: Program, base: Option<Checkpoint>, scan: ProgramScan)

  datatype Local =
    | Idle
    | Reading(o: Options, at: nat, done: seq<Based>)
    | Paging(o: Options, at: nat, done: seq<Based>, base: Option<Checkpoint>)
    | Enqueuing(at: nat, done: seq<Based>, queue: seq<Signature>)
    | Storing(at: nat, todo: seq<Based>)

  /** `first` and `rebased` record, for the theorems, where coverage starts. */
  datatype System = System(inbox: set<Signature>, checkpoints: map<Program, Checkpoint>, gaps: set<(Program, Gap)>,
                           heads: map<Program, nat>, scans: map<nat, Local>, first: map<Program, nat>, rebased: set<Program>)

  datatype Event =
    | Grow(program: Program, head: nat)
    | Begin(who: nat, o: Options, at: nat)
    | ReadCheckpoint(who: nat)
    | ReadPages(who: nat)
    | MergeScans(who: nat)
    | Enqueue(who: nat)
    | Store(who: nat)
    | Fail(who: nat)

  function Head(s: System, p: Program): nat {
    if p in s.heads then s.heads[p] else 0
  }

  function Current(s: System, p: Program): Option<Checkpoint> {
    if p in s.checkpoints then Some(s.checkpoints[p]) else None
  }

  function LocalOf(s: System, who: nat): Local {
    if who in s.scans then s.scans[who] else Idle
  }

  function With(s: System, who: nat, l: Local): System {
    s.(scans := s.scans[who := l])
  }

  function ProgramAt(k: nat): Program {
    if k == 0 then Launchpad else Market
  }

  function Scans(done: seq<Based>): seq<Scan> {
    seq(|done|, i requires 0 <= i < |done| => Scan(IdOf(done[i].program), done[i].scan.rows))
  }

  function Queue(ms: seq<Merged>): seq<Signature> {
    seq(|ms|, i requires 0 <= i < |ms| => ms[i].signature)
  }

  // ---------------------------------------------------------- repository

  /** A checkpoint may not move to an earlier slot, nor sideways without a later clock. */
  predicate Stores(current: Option<Checkpoint>, c: Checkpoint) {
    current.None? || !(c.slot < current.value.slot
                       || (c.slot == current.value.slot && c.signature != current.value.signature
                           && c.updatedAt <= current.value.updatedAt))
  }

  function Stamped(current: Option<Checkpoint>, c: Checkpoint): Checkpoint {
    if current.Some? && current.value.updatedAt > c.updatedAt then c.(updatedAt := current.value.updatedAt) else c
  }

  predicate AtPrevious(current: Option<Checkpoint>, g: Gap) {
    current.Some? && current.value.slot == g.previous.slot && current.value.signature == g.previous.signature
  }

  predicate AtBaseline(current: Option<Checkpoint>, g: Gap) {
    current.Some? && current.value.slot == g.baselineSlot && current.value.signature == g.baselineSignature
  }

  /** Position of a checkpoint in the program's history. */
  function Position(w: World, p: Program, c: Checkpoint): Option<nat> {
    Locate(HistoryOf(w, p), |HistoryOf(w, p)|, c)
  }

  /** The rows of a scan up to `c` reach down to the row above the stored checkpoint. */
  predicate Reaches(w: World, s: System, b: Based, c: Checkpoint) {
    Current(s, b.program).Some? &&
    var at, n := Position(w, b.program, Current(s, b.program).value), Position(w, b.program, c);
    at.Some? && n.Some? && n.value <= at.value + |b.scan.rows|
  }

  /** A scan without a base starts the program's coverage, or restarts it if its rows do not reach what is stored. */
  function Rebase(w: World, s: System, b: Based, c: Checkpoint): System {
    if b.base.Some? then s
    else if b.program in s.first then
      if Reaches(w, s, b, c) then s else s.(rebased := s.rebased + {b.program})
    else
      var at := Position(w, b.program, c);
      s.(first := s.first[b.program := if at.Some? then at.value else 0])
  }

  function StoreCheckpoint(w: World, s: System, b: Based, c: Checkpoint): Option<System> {
    if !Stores(Current(s, b.program), c) then None
    else
      var s1 := Rebase(w, s, b, c);
      Some(s1.(checkpoints := s1.checkpoints[b.program := Stamped(Current(s, b.program), c)]))
  }

  function RecordGap(s: System, p: Program, g: Gap, at: nat): Option<System> {
    if !AtBaseline(Current(s, p), g) && !AtPrevious(Current(s, p), g) then None
    else
      var s1 := s.(gaps := s.gaps + {(p, g)});
      if AtBaseline(Current(s, p), g) then Some(s1)
      else Some(s1.(checkpoints := s1.checkpoints[p := Checkpoint(g.baselineSlot, g.baselineSignature, at)]))
  }

  function StoreOne(w: World, s: System, b: Based, at: nat): Option<System> {
    if b.scan.newest.None? then Some(s)
    else if b.scan.gap.None? then
      StoreCheckpoint(w, s, b, Checkpoint(b.scan.newest.value.slot, b.scan.newest.value.signature, at))
    else RecordGap(s, b.program, b.scan.gap.value, at)
  }

  // --------------------------------------------------------------- steps

  function PagesStep(w: World, s: System, who: nat, l: Local): System
    requires l.Paging?
  {
    var p := ProgramAt(|l.done|);
    if Head(s, p) > |HistoryOf(w, p)| then s
    else
      match FullScan(HistoryOf(w, p), Head(s, p), l.base, l.o)
      case Err(_) => With(s, who, Idle)
      case Ok(scan) => With(s, who, Reading(l.o, l.at, l.done + [Based(p, l.base, scan)]))
  }

  function MergeStep(s: System, who: nat, l: Local): System
    requires l.Reading?
  {
    match Merge(Flatten(Scans(l.done)))
    case Err(_) => With(s, who, Idle)
    case Ok(ms) => With(s, who, Enqueuing(l.at, l.done, Queue(ms)))
  }

  function EnqueueStep(s: System, who: nat, l: Local): System
    requires l.Enqueuing?
  {
    if l.queue == [] then With(s, who, Storing(l.at, l.done))
    else With(s.(inbox := s.inbox + {l.queue[0]}), who, Enqueuing(l.at, l.done, l.queue[1..]))
  }

  function StoreStep(w: World, s: System, who: nat, l: Local): System
    requires l.Storing?
  {
    if l.todo == [] then With(s, who, Idle)
    else
      match StoreOne(w, s, l.todo[0], l.at)
      case None => With(s, who, Idle)
      case Some(s') => With(s', who, Storing(l.at, l.todo[1..]))
  }

  function Step(w: World, s: System, e: Event): System {
    match e
    case Grow(p, head) =>
      if Head(s, p) <= head <= |HistoryOf(w, p)| then s.(heads := s.heads[p := head]) else s
    case Begin(who, o, at) =>
      if LocalOf(s, who).Idle? && ValidOptions(o) then With(s, who, Reading(o, at, [])) else s
    case ReadCheckpoint(who) =>
      var l := LocalOf(s, who);
      if l.Reading? && |l.done| < 2 then With(s, who, Paging(l.o, l.at, l.done, Current(s, ProgramAt(|l.done|)))) else s
    case ReadPages(who) => if LocalOf(s, who).Paging? then PagesStep(w, s, who, LocalOf(s, who)) else s
    case MergeScans(who) =>
      var l := LocalOf(s, who);
      if l.Reading? && |l.done| == 2 then MergeStep(s, who, l) else s
    case Enqueue(who) => if LocalOf(s, who).Enqueuing? then EnqueueStep(s, who, LocalOf(s, who)) else s
    case Store(who) => if LocalOf(s, who).Storing? then StoreStep(w, s, who, LocalOf(s, who)) else s
    case Fail(who) => With(s, who, Idle)
  }

  function Run(w: World, s: System, events: seq<Event>): System
    decreases |events|
  {
    if events == [] then s else Run(w, Step(w, s, events[0]), events[1..])
  }

  const EMPTY: System := System({}, map[], {}, map[], map[], map[], {})

  // ------------------------------------------------------------ coverage

  predicate InGap(h: seq<Row>, g: Gap, i: nat) {
    exists a, b :: 0 <= a < i <= b < |h| && Matches(h[a], g.previous)
                   && h[b].signature == g.baselineSignature && h[b].slot == g.baselineSlot
  }

  ghost predicate Covered(w: World, s: System, p: Program, i: nat) {
    i < |HistoryOf(w, p)| &&
    (HistoryOf(w, p)[i].signature in s.inbox
     || exists g :: (p, g) in s.gaps && InGap(HistoryOf(w, p), g, i))
  }

  /** Nothing between the program's first checkpoint and row `i` is missing, unless coverage was restarted. */
  ghost predicate CoveredTo(w: World, s: System, p: Program, i: nat) {
    && i < Head(s, p) && p in s.first
    && (p !in s.rebased ==> forall j: nat :: s.first[p] < j <= i ==> Covered(w, s, p, j))
  }

  ghost predicate Good(w: World, s: System, p: Program, c: Checkpoint) {
    Position(w, p, c).Some? && CoveredTo(w, s, p, Position(w, p, c).value)
  }

  // ----------------------------------------------------------- invariant

  function RowPoint(r: Row): Checkpoint {
    Checkpoint(r.slot, r.signature, 0)
  }

  /** What the rows of a scan from `c` to `n` account for. */
  ghost predicate Spans(w: World, b: Based, c: nat, n: nat) {
    var h := HistoryOf(w, b.program);
    c < n < |h| &&
    if b.scan.gap.None? then forall j :: c < j <= n ==> h[j].signature in Signatures(b.scan.rows)
    else
      && Matches(h[c], b.scan.gap.value.previous)
      && h[n].signature == b.scan.gap.value.baselineSignature && h[n].slot == b.scan.gap.value.baselineSlot
  }

  /** The rows of a first scan are those down from `n`. */
  ghost predicate TopRows(w: World, b: Based, n: nat) {
    var h := HistoryOf(w, b.program);
    n < |h| && forall j: nat :: n < j + |b.scan.rows| && j <= n ==> h[j].signature in Signatures(b.scan.rows)
  }

  ghost predicate ScanOk(w: World, s: System, b: Based) {
    && (b.base.Some? ==> Good(w, s, b.program, b.base.value))
    && (b.scan.gap.Some? ==> b.base.Some?)
    && (b.scan.newest.Some? ==>
          && Position(w, b.program, RowPoint(b.scan.newest.value)).Some?
          && Position(w, b.program, RowPoint(b.scan.newest.value)).value < Head(s, b.program)
          && (b.base.Some? ==> Spans(w, b, Position(w, b.program, b.base.value).value,
                                     Position(w, b.program, RowPoint(b.scan.newest.value)).value))
          && (b.base.None? ==> TopRows(w, b, Position(w, b.program, RowPoint(b.scan.newest.value)).value)))
  }

  ghost predicate AllOk(w: World, s: System, bs: seq<Based>) {
    forall b :: b in bs ==> ScanOk(w, s, b)
  }

  ghost predicate AllIn(bs: seq<Based>, known: set<Signature>) {
    forall b :: b in bs ==> Signatures(b.scan.rows) <= known
  }

  function Elements(q: seq<Signature>): set<Signature> {
    set x <- q
  }

  ghost predicate LocalOk(w: World, s: System, l: Local) {
    match l
    case Idle => true
    case Reading(o, _, done) => ValidOptions(o) && AllOk(w, s, done)
    case Paging(o, _, done, base) =>
      ValidOptions(o) && AllOk(w, s, done) && (base.Some? ==> Good(w, s, ProgramAt(|done|), base.value))
    case Enqueuing(_, done, queue) => AllOk(w, s, done) && AllIn(done, s.inbox + Elements(queue))
    case Storing(_, todo) => AllOk(w, s, todo) && AllIn(todo, s.inbox)
  }

  ghost predicate PointsOk(w: World, s: System) {
    forall p :: p in s.checkpoints ==> Good(w, s, p, s.checkpoints[p])
  }

  ghost predicate HeadsOk(w: World, s: System) {
    forall p: Program :: Head(s, p) <= |HistoryOf(w, p)|
  }

  ghost predicate LocalsOk(w: World, s: System) {
    forall who :: who in s.scans ==> LocalOk(w, s, s.scans[who])
  }

  ghost predicate Inv(w: World, s: System) {
    WorldOk(w) && HeadsOk(w, s) && PointsOk(w, s) && LocalsOk(w, s)
  }

  // ------------------------------------------------- durable facts persist

  /** How the durable state moves: it only grows. */
  ghost predicate Grows(s: System, s': System) {
    && s.inbox <= s'.inbox && s.gaps <= s'.gaps && s.rebased <= s'.rebased
    && (forall p: Program :: Head(s, p) <= Head(s', p))
    && forall p :: p in s.first ==> p in s'.first && s'.first[p] == s.first[p]
  }

  lemma {:induction false} GoodGrows(w: World, s: System, s': System, p: Program, c: Checkpoint)
    requires Good(w, s, p, c) && Grows(s, s')
    ensures Good(w, s', p, c)
  {
    hide InGap;
    var i := Position(w, p, c).value;
    if p !in s'.rebased {
      forall j: nat | s'.first[p] < j <= i ensures Covered(w, s', p, j) { assert Covered(w, s, p, j); }
    }
  }

  lemma {:induction false} ScanGrows(w: World, s: System, s': System, b: Based)
    requires ScanOk(w, s, b) && Grows(s, s')
    ensures ScanOk(w, s', b)
  {
    hide Good, Spans;
    if b.base.Some? { GoodGrows(w, s, s', b.program, b.base.value); }
  }

  lemma {:induction false} AllGrow(w: World, s: System, s': System, bs: seq<Based>)
    requires AllOk(w, s, bs) && Grows(s, s')
    ensures AllOk(w, s', bs)
  {
    hide ScanOk, Grows;
    forall b | b in bs ensures ScanOk(w, s', b) { ScanGrows(w, s, s', b); }
  }

  lemma {:induction false} LocalGrows(w: World, s: System, s': System, l: Local)
    requires LocalOk(w, s, l) && Grows(s, s')
    ensures LocalOk(w, s', l)
  {
    hide AllOk, Good;
    match l
    case Idle =>
    case Reading(_, _, done) => AllGrow(w, s, s', done);
    case Paging(_, _, done, base) =>
      AllGrow(w, s, s', done);
      if base.Some? { GoodGrows(w, s, s', ProgramAt(|done|), base.value); }
    case Enqueuing(_, done, _) => AllGrow(w, s, s', done);
    case Storing(_, todo) => AllGrow(w, s, s', todo);
  }

  /** A step that only grows the durable state and moves one scanner. */
  lemma {:induction false} Moved(w: World, s: System, s': System, who: nat, l: Local)
    requires Inv(w, s) && Grows(s, s') && HeadsOk(w, s') && PointsOk(w, s') && s'.scans == s.scans
    requires LocalOk(w, s', l)
    ensures Inv(w, With(s', who, l))
  {
    hide HeadsOk, Grows, LocalOk, Good, Merge, FullScan;
    var t := With(s', who, l);
    SameDurable(w, s', t);
    forall k | k in t.scans ensures LocalOk(w, t, t.scans[k]) {
      if k != who {
        LocalGrows(w, s, s', s.scans[k]);
      }
      LocalSame(w, s', t, t.scans[k]);
    }
  }

  lemma {:induction false} SameDurable(w: World, s: System, t: System)
    requires HeadsOk(w, s) && PointsOk(w, s) && t == s.(scans := t.scans)
    ensures HeadsOk(w, t) && PointsOk(w, t) && Grows(s, t)
  {
    hide Good;
    forall p | p in t.checkpoints ensures Good(w, t, p, t.checkpoints[p]) {
      GoodGrows(w, s, t, p, t.checkpoints[p]);
    }
  }

  lemma {:induction false} LocalSame(w: World, s: System, t: System, l: Local)
    requires LocalOk(w, s, l) && t == s.(scans := t.scans)
    ensures LocalOk(w, t, l)
  {
    hide LocalOk;
    LocalGrows(w, s, t, l);
  }

  lemma {:induction false} GrowsSelf(s: System)
    ensures Grows(s, s)
  {
  }

  lemma {:induction false} MovedAlone(w: World, s: System, who: nat, l: Local)
    requires Inv(w, s) && LocalOk(w, s, l)
    ensures Inv(w, With(s, who, l))
  {
    hide HeadsOk, PointsOk, LocalsOk, LocalOk, Grows;
    GrowsSelf(s);
    Moved(w, s, s, who, l);
  }

  // ------------------------------------------------------ step by step

  lemma {:induction false} PositionUnique(w: World, p: Program, c: Checkpoint, i: nat)
    requires WorldOk(w) && i < |HistoryOf(w, p)| && Matches(HistoryOf(w, p)[i], c)
    ensures Position(w, p, c) == Some(i)
  {
  }

  lemma {:induction false} LocateAgrees(w: World, p: Program, c: Checkpoint, n: nat)
    requires WorldOk(w) && n <= |HistoryOf(w, p)| && Position(w, p, c).Some? && Position(w, p, c).value < n
    ensures Locate(HistoryOf(w, p), n, c) == Position(w, p, c)
  {
  }

  /** What a scan read at the current head accounts for. */
  lemma {:induction false} FullScanOk(w: World, s: System, p: Program, base: Option<Checkpoint>, o: Options)
    requires WorldOk(w) && HeadsOk(w, s) && ValidOptions(o) && (base.Some? ==> Good(w, s, p, base.value))
    requires FullScan(HistoryOf(w, p), Head(s, p), base, o).Ok?
    ensures ScanOk(w, s, Based(p, base, FullScan(HistoryOf(w, p), Head(s, p), base, o).value))
  {
    hide Covered, Locate, History;
    var h, n := HistoryOf(w, p), Head(s, p);
    var scan := FullScan(h, n, base, o).value;
    if scan.newest.Some? {
      assert n > 0 && scan.newest.value == h[n - 1];
      PositionUnique(w, p, RowPoint(h[n - 1]), n - 1);
      if base.Some? {
        var c := Position(w, p, base.value).value;
        LocateAgrees(w, p, base.value, n);
        SpansOk(w, s, p, base.value, o, c);
      } else {
        TopRowsOk(w, s, p, o);
      }
    }
  }

  lemma {:induction false} TopRowsOk(w: World, s: System, p: Program, o: Options)
    requires WorldOk(w) && HeadsOk(w, s) && ValidOptions(o) && 0 < Head(s, p)
    ensures TopRows(w, Based(p, None, FullScan(HistoryOf(w, p), Head(s, p), None, o).value), Head(s, p) - 1)
  {
    hide History;
    var h, n := HistoryOf(w, p), Head(s, p);
    var rows := FullScan(h, n, None, o).value.rows;
    forall j: nat | n - 1 < j + |rows| && j <= n - 1 ensures h[j].signature in Signatures(rows) {
      assert rows[n - 1 - j] == h[j];
    }
  }

  lemma {:induction false} SpansOk(w: World, s: System, p: Program, base: Checkpoint, o: Options, c: nat)
    requires WorldOk(w) && HeadsOk(w, s) && ValidOptions(o) && c < Head(s, p)
    requires Locate(HistoryOf(w, p), Head(s, p), base) == Some(c)
    requires FullScan(HistoryOf(w, p), Head(s, p), Some(base), o).Ok?
    requires FullScan(HistoryOf(w, p), Head(s, p), Some(base), o).value.newest.Some?
    ensures Spans(w, Based(p, Some(base), FullScan(HistoryOf(w, p), Head(s, p), Some(base), o).value), c, Head(s, p) - 1)
  {
    hide Locate, History;
    var h, n := HistoryOf(w, p), Head(s, p);
    var scan := FullScan(h, n, Some(base), o).value;
    var window := if o.liveEdge then o.pageSize else o.pageSize * o.maxPages;
    if n - 1 - c < window {
      forall j | c < j <= n - 1 ensures h[j].signature in Signatures(scan.rows) {
        assert scan.rows[n - 1 - j] == h[j];
      }
    }
  }

  lemma {:induction false} PagesKeeps(w: World, s: System, who: nat)
    requires Inv(w, s) && LocalOf(s, who).Paging?
    ensures Inv(w, PagesStep(w, s, who, LocalOf(s, who)))
  {
    hide HeadsOk, PointsOk, Good, ScanOk, FullScan, WorldOk;
    var l := LocalOf(s, who);
    assert LocalOk(w, s, l);
    var p := ProgramAt(|l.done|);
    HeadFits(w, s, p);
    match FullScan(HistoryOf(w, p), Head(s, p), l.base, l.o)
    case Err(_) => MovedAlone(w, s, who, Idle);
    case Ok(scan) =>
      FullScanOk(w, s, p, l.base, l.o);
      MovedAlone(w, s, who, Reading(l.o, l.at, l.done + [Based(p, l.base, scan)]));
  }

  lemma {:induction false} HeadFits(w: World, s: System, p: Program)
    requires HeadsOk(w, s)
    ensures Head(s, p) <= |HistoryOf(w, p)|
  {
  }

  /** Every row of every scan is somewhere in the merged queue. */
  lemma {:induction false} MergedHoldsAll(bs: seq<Based>)
    requires Merge(Flatten(Scans(bs))).Ok?
    ensures AllIn(bs, Elements(Queue(Merge(Flatten(Scans(bs))).value)))
  {
    hide Merge, Flatten;
    var fs := Flatten(Scans(bs));
    var ms := Merge(fs).value;
    MergeMeans(fs);
    forall b | b in bs ensures Signatures(b.scan.rows) <= Elements(Queue(ms)) {
      forall x | x in Signatures(b.scan.rows) ensures x in Elements(Queue(ms)) {
        var i :| 0 <= i < |bs| && bs[i] == b;
        var row :| row in b.scan.rows && row.signature == x;
        FlattenHolds(Scans(bs), i, row);
        InQueue(fs, ms, Found(Scans(bs)[i].program, row));
      }
    }
  }

  lemma {:induction false} InQueue(fs: seq<Found>, ms: seq<Merged>, f: Found)
    requires IsMerge(fs, ms) && f in fs
    ensures f.row.signature in Elements(Queue(ms))
  {
    hide Describes, Mentions;
    var m :| m in ms && m.signature == f.row.signature;
    var k :| 0 <= k < |ms| && ms[k] == m;
    assert Queue(ms)[k] == f.row.signature;
  }

  lemma {:induction false} FlattenHolds(scans: seq<Scan>, i: nat, row: Row)
    requires i < |scans| && row in scans[i].rows
    ensures Found(scans[i].program, row) in Flatten(scans)
    decreases |scans|
  {
    var last := |scans| - 1;
    if i < last {
      FlattenHolds(scans[..last], i, row);
    } else {
      var k :| 0 <= k < |scans[i].rows| && scans[i].rows[k] == row;
      assert Tag(scans[i])[k] == Found(scans[i].program, row);
    }
  }

  lemma {:induction false} MergeKeeps(w: World, s: System, who: nat)
    requires Inv(w, s) && LocalOf(s, who).Reading?
    ensures Inv(w, MergeStep(s, who, LocalOf(s, who)))
  {
    hide HeadsOk, PointsOk, Merge, AllOk, WorldOk, Queue, Flatten, Scans;
    var l := LocalOf(s, who);
    assert LocalOk(w, s, l);
    match Merge(Flatten(Scans(l.done)))
    case Err(_) => MovedAlone(w, s, who, Idle);
    case Ok(ms) =>
      MergedHoldsAll(l.done);
      MovedAlone(w, s, who, Enqueuing(l.at, l.done, Queue(ms)));
  }

  lemma {:induction false} EnqueueKeeps(w: World, s: System, who: nat)
    requires Inv(w, s) && LocalOf(s, who).Enqueuing?
    ensures Inv(w, EnqueueStep(s, who, LocalOf(s, who)))
  {
    hide HeadsOk, AllOk, WorldOk, Good;
    var l := LocalOf(s, who);
    assert LocalOk(w, s, l);
    if l.queue == [] {
      assert s.inbox + Elements([]) == s.inbox;
      MovedAlone(w, s, who, Storing(l.at, l.done));
    } else {
      var s' := s.(inbox := s.inbox + {l.queue[0]});
      Inboxed(w, s, s');
      AllGrow(w, s, s', l.done);
      assert s.inbox + Elements(l.queue) <= s'.inbox + Elements(l.queue[1..]);
      Moved(w, s, s', who, Enqueuing(l.at, l.done, l.queue[1..]));
    }
  }

  lemma {:induction false} Inboxed(w: World, s: System, s': System)
    requires HeadsOk(w, s) && PointsOk(w, s) && s' == s.(inbox := s'.inbox) && s.inbox <= s'.inbox
    ensures HeadsOk(w, s') && PointsOk(w, s') && Grows(s, s')
  {
    hide Good;
    forall p | p in s'.checkpoints ensures Good(w, s', p, s'.checkpoints[p]) { GoodGrows(w, s, s', p, s'.checkpoints[p]); }
  }

  /** Everything from a good base through a span is covered once the rows are in or the gap is recorded. */
  lemma {:induction false} SpanCovered(w: World, s: System, b: Based, c: nat, n: nat)
    requires WorldOk(w) && Spans(w, b, c, n) && CoveredTo(w, s, b.program, c) && n < Head(s, b.program)
    requires if b.scan.gap.None? then Signatures(b.scan.rows) <= s.inbox else (b.program, b.scan.gap.value) in s.gaps
    ensures CoveredTo(w, s, b.program, n)
  {
    hide WorldOk;
    var p, h := b.program, HistoryOf(w, b.program);
    if p !in s.rebased {
      forall j: nat | s.first[p] < j <= n ensures Covered(w, s, p, j) {
        if j > c && b.scan.gap.Some? {
          assert InGap(h, b.scan.gap.value, j);
        }
      }
    }
  }

  lemma {:induction false} PositionOfStamp(w: World, p: Program, c: Checkpoint, d: Checkpoint)
    requires c.slot == d.slot && c.signature == d.signature
    ensures Position(w, p, c) == Position(w, p, d)
  {
    LocateIgnoresTime(HistoryOf(w, p), |HistoryOf(w, p)|, c, d);
  }

  lemma {:induction false} LocateIgnoresTime(h: seq<Row>, n: nat, c: Checkpoint, d: Checkpoint)
    requires n <= |h| && c.slot == d.slot && c.signature == d.signature
    ensures Locate(h, n, c) == Locate(h, n, d)
  {
    if n > 0 { LocateIgnoresTime(h, n - 1, c, d); }
  }

  lemma {:induction false} StoreCheckpointGrows(w: World, s: System, b: Based, c: Checkpoint)
    requires StoreCheckpoint(w, s, b, c).Some?
    ensures var s' := StoreCheckpoint(w, s, b, c).value;
            && Grows(s, s') && s'.scans == s.scans && s'.heads == s.heads && s'.inbox == s.inbox
            && s'.checkpoints == s.checkpoints[b.program := Stamped(Current(s, b.program), c)]
            && (b.base.None? && Position(w, b.program, c).Some? ==>
                  b.program in s'.first && (b.program in s'.rebased || s'.first[b.program] == Position(w, b.program, c).value
                                            || Reaches(w, s, b, c)))
  {
    hide Stores, Stamped, Position, Reaches;
  }

  /** The new checkpoint is covered: by its base and the rows in between, or because coverage starts there. */
  lemma {:induction false} NewestCovered(w: World, s: System, s': System, b: Based, c: Checkpoint)
    requires WorldOk(w) && ScanOk(w, s, b) && b.scan.gap.None? && b.scan.newest.Some?
    requires Signatures(b.scan.rows) <= s'.inbox && Grows(s, s')
    requires c.slot == b.scan.newest.value.slot && c.signature == b.scan.newest.value.signature
    requires PointsOk(w, s)
    requires b.base.None? && Position(w, b.program, c).Some? ==>
               b.program in s'.first && (b.program in s'.rebased || s'.first[b.program] == Position(w, b.program, c).value
                                         || Reaches(w, s, b, c))
    ensures Position(w, b.program, c).Some? && CoveredTo(w, s', b.program, Position(w, b.program, c).value)
  {
    hide Spans, Covered, Locate, WorldOk, TopRows;
    var p := b.program;
    PositionOfStamp(w, p, c, RowPoint(b.scan.newest.value));
    if b.base.Some? {
      GoodGrows(w, s, s', p, b.base.value);
      SpanCovered(w, s', b, Position(w, p, b.base.value).value, Position(w, p, c).value);
    } else if Reaches(w, s, b, c) {
      GoodGrows(w, s, s', p, Current(s, p).value);
      TopCovered(w, s', b, Position(w, p, Current(s, p).value).value, Position(w, p, c).value);
    }
  }

  /** Rows that reach down to a covered one extend the coverage. */
  lemma {:induction false} TopCovered(w: World, s: System, b: Based, c: nat, n: nat)
    requires TopRows(w, b, n) && CoveredTo(w, s, b.program, c) && n < Head(s, b.program) && n <= c + |b.scan.rows|
    requires Signatures(b.scan.rows) <= s.inbox
    ensures CoveredTo(w, s, b.program, n)
  {
    hide InGap;
    var p := b.program;
    if p !in s.rebased {
      forall j: nat | s.first[p] < j <= n ensures Covered(w, s, p, j) {
        if j > c { assert n < j + |b.scan.rows|; }
      }
    }
  }

  lemma {:induction false} StoreCheckpointKeeps(w: World, s: System, b: Based, c: Checkpoint)
    requires WorldOk(w) && HeadsOk(w, s) && PointsOk(w, s) && ScanOk(w, s, b) && b.scan.gap.None? && b.scan.newest.Some?
    requires Signatures(b.scan.rows) <= s.inbox
    requires c.slot == b.scan.newest.value.slot && c.signature == b.scan.newest.value.signature
    requires StoreCheckpoint(w, s, b, c).Some?
    ensures var s' := StoreCheckpoint(w, s, b, c).value; Grows(s, s') && HeadsOk(w, s') && PointsOk(w, s') && s'.scans == s.scans
  {
    hide StoreCheckpoint, ScanOk, CoveredTo, WorldOk, Grows, Position;
    var p := b.program;
    StoreCheckpointGrows(w, s, b, c);
    var s' := StoreCheckpoint(w, s, b, c).value;
    NewestCovered(w, s, s', b, c);
    PositionOfStamp(w, p, c, Stamped(Current(s, p), c));
    forall q | q in s'.checkpoints ensures Good(w, s', q, s'.checkpoints[q]) {
      if q != p { GoodGrows(w, s, s', q, s.checkpoints[q]); }
    }
  }

  lemma {:induction false} RecordGapKeeps(w: World, s: System, b: Based, at: nat)
    requires WorldOk(w) && HeadsOk(w, s) && PointsOk(w, s) && ScanOk(w, s, b) && b.scan.gap.Some? && b.scan.newest.Some?
    requires RecordGap(s, b.program, b.scan.gap.value, at).Some?
    ensures var s' := RecordGap(s, b.program, b.scan.gap.value, at).value;
            Grows(s, s') && HeadsOk(w, s') && PointsOk(w, s') && s'.scans == s.scans
  {
    hide Covered, Locate;
    var p, g := b.program, b.scan.gap.value;
    var s' := RecordGap(s, p, g, at).value;
    assert Grows(s, s');
    var n := Position(w, p, RowPoint(b.scan.newest.value)).value;
    GoodGrows(w, s, s', p, b.base.value);
    SpanCovered(w, s', b, Position(w, p, b.base.value).value, n);
    var c := Checkpoint(g.baselineSlot, g.baselineSignature, at);
    PositionUnique(w, p, c, n);
    forall q | q in s'.checkpoints ensures Good(w, s', q, s'.checkpoints[q]) {
      if q != p || AtBaseline(Current(s, p), g) { GoodGrows(w, s, s', q, s.checkpoints[q]); }
    }
  }

  lemma {:induction false} StoreKeeps(w: World, s: System, who: nat)
    requires Inv(w, s) && LocalOf(s, who).Storing?
    ensures Inv(w, StoreStep(w, s, who, LocalOf(s, who)))
  {
    hide HeadsOk, PointsOk, ScanOk, WorldOk, StoreCheckpoint, RecordGap, Grows;
    var l := LocalOf(s, who);
    assert LocalOk(w, s, l);
    if l.todo == [] || StoreOne(w, s, l.todo[0], l.at).None? {
      MovedAlone(w, s, who, Idle);
    } else {
      var b := l.todo[0];
      assert ScanOk(w, s, b) && Signatures(b.scan.rows) <= s.inbox;
      var s' := StoreOne(w, s, b, l.at).value;
      if b.scan.newest.None? {
        GrowsSelf(s);
      } else if b.scan.gap.None? {
        StoreCheckpointKeeps(w, s, b, Checkpoint(b.scan.newest.value.slot, b.scan.newest.value.signature, l.at));
      } else {
        RecordGapKeeps(w, s, b, l.at);
      }
      AllGrow(w, s, s', l.todo);
      InboxGrows(s, s');
      Moved(w, s, s', who, Storing(l.at, l.todo[1..]));
    }
  }

  lemma {:induction false} InboxGrows(s: System, s': System)
    requires Grows(s, s')
    ensures s.inbox <= s'.inbox
  {
  }

  lemma {:induction false} GrowKeeps(w: World, s: System, p: Program, head: nat)
    requires Inv(w, s) && Head(s, p) <= head <= |HistoryOf(w, p)|
    ensures Inv(w, s.(heads := s.heads[p := head]))
  {
    hide Good, LocalOk;
    var s' := s.(heads := s.heads[p := head]);
    assert Grows(s, s');
    forall q | q in s'.checkpoints ensures Good(w, s', q, s'.checkpoints[q]) { GoodGrows(w, s, s', q, s'.checkpoints[q]); }
    forall k | k in s'.scans ensures LocalOk(w, s', s'.scans[k]) { LocalGrows(w, s, s', s.scans[k]); }
  }

  lemma {:induction false} ReadKeeps(w: World, s: System, who: nat)
    requires Inv(w, s) && LocalOf(s, who).Reading?
    ensures var l := LocalOf(s, who); Inv(w, With(s, who, Paging(l.o, l.at, l.done, Current(s, ProgramAt(|l.done|)))))
  {
    hide HeadsOk, Good, AllOk, WorldOk;
    var l := LocalOf(s, who);
    assert LocalOk(w, s, l);
    MovedAlone(w, s, who, Paging(l.o, l.at, l.done, Current(s, ProgramAt(|l.done|))));
  }

  lemma {:induction false} StepKeeps(w: World, s: System, e: Event)
    requires Inv(w, s)
    ensures Inv(w, Step(w, s, e))
  {
    hide Inv, PagesStep, MergeStep, EnqueueStep, StoreStep;
    match e
    case Grow(p, head) => if Head(s, p) <= head <= |HistoryOf(w, p)| { GrowKeeps(w, s, p, head); }
    case Begin(who, o, at) => if ValidOptions(o) { MovedAlone(w, s, who, Reading(o, at, [])); }
    case ReadCheckpoint(who) => if LocalOf(s, who).Reading? { ReadKeeps(w, s, who); }
    case ReadPages(who) => if LocalOf(s, who).Paging? { PagesKeeps(w, s, who); }
    case MergeScans(who) => if LocalOf(s, who).Reading? { MergeKeeps(w, s, who); }
    case Enqueue(who) => if LocalOf(s, who).Enqueuing? { EnqueueKeeps(w, s, who); }
    case Store(who) => if LocalOf(s, who).Storing? { StoreKeeps(w, s, who); }
    case Fail(who) => MovedAlone(w, s, who, Idle);
  }

  lemma {:induction false} RunKeeps(w: World, s: System, events: seq<Event>)
    requires Inv(w, s)
    ensures Inv(w, Run(w, s, events))
    decreases |events|
  {
    hide Inv, Step;
    if events != [] {
      StepKeeps(w, s, events[0]);
      RunKeeps(w, Step(w, s, events[0]), events[1..]);
    }
  }

  // ------------------------------------------------ coverage, restarted

  /** A scan that read no checkpoint stores one over another that its rows do not reach down to. */
  predicate RestartsAt(w: World, s: System, e: Event, p: Program) {
    e.Store? && LocalOf(s, e.who).Storing? && LocalOf(s, e.who).todo != [] &&
    var b := LocalOf(s, e.who).todo[0];
    && b.program == p && b.base.None? && b.scan.newest.Some? && b.scan.gap.None? && Current(s, p).Some? &&
    var c := Checkpoint(b.scan.newest.value.slot, b.scan.newest.value.signature, LocalOf(s, e.who).at);
    Stores(Current(s, p), c) && !Reaches(w, s, b, c)
  }

  predicate SomeRestart(w: World, s: System, events: seq<Event>, p: Program)
    decreases |events|
  {
    events != [] && (RestartsAt(w, s, events[0], p) || SomeRestart(w, Step(w, s, events[0]), events[1..], p))
  }

  /** Coverage has started for exactly the programs that have a checkpoint. */
  ghost predicate Started(s: System) {
    s.first.Keys == s.checkpoints.Keys
  }

  lemma {:induction false} StoreRestarts(w: World, s: System, who: nat, p: Program)
    requires Inv(w, s) && Started(s) && LocalOf(s, who).Storing?
    ensures var t := StoreStep(w, s, who, LocalOf(s, who));
            Started(t) && (p in t.rebased <==> p in s.rebased || RestartsAt(w, s, Store(who), p))
  {
    hide WorldOk, HeadsOk, PointsOk, Stores, Stamped, Position, AtBaseline, AtPrevious, CoveredTo, Spans, TopRows, Reaches;
    var l := LocalOf(s, who);
    assert LocalOk(w, s, l);
    if l.todo != [] {
      var b := l.todo[0];
      assert ScanOk(w, s, b);
      if b.base.Some? { GoodStarted(w, s, b.program, b.base.value); }
      if b.scan.newest.Some? && b.scan.gap.Some? && RecordGap(s, b.program, b.scan.gap.value, l.at).Some? {
        GapKeepsKeys(s, b.program, b.scan.gap.value, l.at);
      }
    }
  }

  lemma {:induction false} GoodStarted(w: World, s: System, p: Program, c: Checkpoint)
    requires Good(w, s, p, c)
    ensures p in s.first
  {
  }

  lemma {:induction false} StepRestarts(w: World, s: System, e: Event, p: Program)
    requires Inv(w, s) && Started(s)
    ensures Started(Step(w, s, e))
    ensures p in Step(w, s, e).rebased <==> p in s.rebased || RestartsAt(w, s, e, p)
  {
    hide Inv, FullScan, Merge, StoreStep, Flatten, Scans, Queue, ValidOptions;
    if e.Store? && LocalOf(s, e.who).Storing? { StoreRestarts(w, s, e.who, p); }
  }

  lemma {:induction false} RunRestarts(w: World, s: System, events: seq<Event>, p: Program)
    requires Inv(w, s) && Started(s)
    ensures p in Run(w, s, events).rebased <==> p in s.rebased || SomeRestart(w, s, events, p)
    decreases |events|
  {
    hide Inv, Step, RestartsAt, Started;
    if events != [] {
      StepKeeps(w, s, events[0]);
      StepRestarts(w, s, events[0], p);
      RunRestarts(w, Step(w, s, events[0]), events[1..], p);
    }
  }

  /**
   In every reachable state a checkpoint names a visible row and, unless a scan
   that read no checkpoint stored over one it did not reach down to, every row
   since the program's first checkpoint is in the inbox or inside a recorded gap.
   */
  lemma {:induction false} CheckpointsCovered(w: World, events: seq<Event>, p: Program)
    requires WorldOk(w) && p in Run(w, EMPTY, events).checkpoints
    ensures var s := Run(w, EMPTY, events);
            var at := Position(w, p, s.checkpoints[p]);
            && at.Some? && at.value < Head(s, p) && p in s.first
            && (!SomeRestart(w, EMPTY, events, p) ==> forall j: nat :: s.first[p] < j <= at.value ==> Covered(w, s, p, j))
  {
    hide Run, SomeRestart, Covered, Position;
    RunKeeps(w, EMPTY, events);
    RunRestarts(w, EMPTY, events, p);
  }

  /**
   What such a store leaves missing, exactly: of the rows up to the new checkpoint,
   those between the old checkpoint and the scan's rows that were missing before.
   */
  lemma {:induction false} HoleIsExactly(w: World, s: System, who: nat, p: Program, j: nat)
    requires Inv(w, s) && RestartsAt(w, s, Store(who), p) && p !in s.rebased
    ensures var t, rows := Step(w, s, Store(who)), LocalOf(s, who).todo[0].scan.rows;
            && p in t.checkpoints && Position(w, p, s.checkpoints[p]).Some? && Position(w, p, t.checkpoints[p]).Some?
            && var c, n := Position(w, p, s.checkpoints[p]).value, Position(w, p, t.checkpoints[p]).value;
               s.first[p] < j <= n ==> (!Covered(w, t, p, j) <==> c < j <= n - |rows| && !Covered(w, s, p, j))
  {
    hide WorldOk, HeadsOk, Spans, Locate, Reaches, Stores, InGap;
    var l := LocalOf(s, who);
    assert LocalOk(w, s, l);
    var b := l.todo[0];
    assert ScanOk(w, s, b) && Signatures(b.scan.rows) <= s.inbox;
    var c := Checkpoint(b.scan.newest.value.slot, b.scan.newest.value.signature, l.at);
    PositionOfStamp(w, p, c, RowPoint(b.scan.newest.value));
    PositionOfStamp(w, p, c, Stamped(Current(s, p), c));
    assert Good(w, s, p, s.checkpoints[p]);
    var t := Step(w, s, Store(who));
    assert t.inbox == s.inbox && t.gaps == s.gaps && t.checkpoints[p] == Stamped(Current(s, p), c);
    if s.first[p] < j <= Position(w, p, s.checkpoints[p]).value { assert Covered(w, s, p, j); }
  }

  // ------------------------------------------------- one scan at a time

  ghost predicate AllIdle(s: System) {
    forall who :: who in s.scans ==> s.scans[who].Idle?
  }

  /** No scan begins while another is in progress; a failed or crashed one is over. */
  ghost predicate OneAtATime(w: World, s: System, events: seq<Event>)
    decreases |events|
  {
    events == [] || ((events[0].Begin? ==> AllIdle(s)) && OneAtATime(w, Step(w, s, events[0]), events[1..]))
  }

  predicate Strict(events: seq<Event>) {
    forall i :: 0 <= i < |events| && events[i].Begin? ==> !events[i].o.liveEdge
  }

  predicate Apart(bs: seq<Based>) {
    forall i, j :: 0 <= i < j < |bs| ==> bs[i].program != bs[j].program
  }

  predicate InOrder(bs: seq<Based>) {
    |bs| <= 2 && forall i :: 0 <= i < |bs| ==> bs[i].program == ProgramAt(i)
  }

  /** The scans still start where the stored checkpoints are. */
  predicate UpToDate(s: System, bs: seq<Based>) {
    forall b :: b in bs ==> b.base == Current(s, b.program)
  }

  predicate Undisturbed(s: System, l: Local) {
    match l
    case Idle => true
    case Reading(_, _, done) => InOrder(done) && UpToDate(s, done)
    case Paging(_, _, done, base) => InOrder(done) && |done| < 2 && UpToDate(s, done) && base == Current(s, ProgramAt(|done|))
    case Enqueuing(_, done, _) => Apart(done) && UpToDate(s, done)
    case Storing(_, todo) => Apart(todo) && UpToDate(s, todo)
  }

  ghost predicate Alone(s: System) {
    && (forall a, b :: a in s.scans && b in s.scans && a != b ==> s.scans[a].Idle? || s.scans[b].Idle?)
    && (forall who :: who in s.scans ==> Undisturbed(s, s.scans[who]))
    && s.first.Keys == s.checkpoints.Keys && s.rebased == {}
  }

  /** A step of the one active scanner. */
  lemma {:induction false} AloneWith(s: System, s': System, who: nat, l: Local)
    requires Alone(s) && !LocalOf(s, who).Idle? && s'.scans == s.scans
    requires s'.first.Keys == s'.checkpoints.Keys && s'.rebased == {} && Undisturbed(s', l)
    ensures Alone(With(s', who, l))
  {
    hide UpToDate, InOrder, Apart;
    var t := With(s', who, l);
    assert forall k :: k in t.scans && k != who ==> t.scans[k].Idle?;
    UndisturbedSame(s', t, l);
  }

  lemma {:induction false} UndisturbedSame(s: System, t: System, l: Local)
    requires Undisturbed(s, l) && t.checkpoints == s.checkpoints
    ensures Undisturbed(t, l)
  {
    assert forall p :: Current(s, p) == Current(t, p);
  }

  lemma {:induction false} StoreAlone(w: World, s: System, b: Based, rest: seq<Based>, at: nat)
    requires Apart([b] + rest) && UpToDate(s, [b] + rest) && s.first.Keys == s.checkpoints.Keys && s.rebased == {}
    requires StoreOne(w, s, b, at).Some?
    ensures var s' := StoreOne(w, s, b, at).value;
            s'.first.Keys == s'.checkpoints.Keys && s'.rebased == {} && s'.scans == s.scans && Apart(rest) && UpToDate(s', rest)
  {
    hide StoreOne;
    assert b in [b] + rest;
    StoreTouchesOne(w, s, b, at);
    assert forall i :: 0 <= i < |rest| ==> rest[i] == ([b] + rest)[i + 1];
    assert ([b] + rest)[0] == b;
    var s' := StoreOne(w, s, b, at).value;
    forall c | c in rest ensures c.base == Current(s', c.program) {
      var i :| 0 <= i < |rest| && rest[i] == c;
      assert c in [b] + rest && c.program != b.program;
    }
  }

  /** A store whose base is current starts coverage at most once and leaves the other program alone. */
  lemma {:induction false} StoreTouchesOne(w: World, s: System, b: Based, at: nat)
    requires b.base == Current(s, b.program) && s.first.Keys == s.checkpoints.Keys && s.rebased == {}
    requires StoreOne(w, s, b, at).Some?
    ensures var s' := StoreOne(w, s, b, at).value;
            && s'.first.Keys == s'.checkpoints.Keys && s'.rebased == {} && s'.scans == s.scans
            && forall p :: p != b.program ==> Current(s', p) == Current(s, p)
  {
    hide Stores, Stamped, Position, AtPrevious, AtBaseline;
    if b.scan.gap.Some? && b.scan.newest.Some? { GapKeepsKeys(s, b.program, b.scan.gap.value, at); }
  }

  lemma {:induction false} GapKeepsKeys(s: System, p: Program, g: Gap, at: nat)
    requires RecordGap(s, p, g, at).Some?
    ensures RecordGap(s, p, g, at).value.checkpoints.Keys == s.checkpoints.Keys
  {
  }

  lemma {:induction false} StepAlone(w: World, s: System, e: Event)
    requires Alone(s) && (e.Begin? ==> AllIdle(s))
    ensures Alone(Step(w, s, e))
  {
    hide FullScan, Merge, StoreOne, Flatten, Scans, Queue, ValidOptions;
    match e
    case Grow(p, head) =>
      var s' := Step(w, s, e);
      forall k | k in s'.scans ensures Undisturbed(s', s'.scans[k]) { UndisturbedSame(s, s', s.scans[k]); }
    case Begin(who, o, at) =>
      var t := Step(w, s, e);
      forall k | k in t.scans ensures Undisturbed(t, t.scans[k]) { }
    case Store(who) =>
      var l := LocalOf(s, who);
      if l.Storing? { StoreStepAlone(w, s, who); }
    case _ => ScanStepAlone(w, s, e);
  }

  lemma {:induction false} StoreStepAlone(w: World, s: System, who: nat)
    requires Alone(s) && LocalOf(s, who).Storing?
    ensures Alone(StoreStep(w, s, who, LocalOf(s, who)))
  {
    hide StoreOne, UpToDate, Apart;
    var l := LocalOf(s, who);
    assert Undisturbed(s, l);
    if l.todo == [] || StoreOne(w, s, l.todo[0], l.at).None? {
      AloneWith(s, s, who, Idle);
    } else {
      assert l.todo == [l.todo[0]] + l.todo[1..];
      StoreAlone(w, s, l.todo[0], l.todo[1..], l.at);
      AloneWith(s, StoreOne(w, s, l.todo[0], l.at).value, who, Storing(l.at, l.todo[1..]));
    }
  }

  lemma {:induction false} ScanStepAlone(w: World, s: System, e: Event)
    requires Alone(s) && !e.Grow? && !e.Begin? && !e.Store?
    ensures Alone(Step(w, s, e))
  {
    hide Alone, FullScan, Merge, Flatten, Scans, Queue, Elements;
    var who := e.who;
    var l := LocalOf(s, who);
    if !l.Idle? {
      AloneFacts(s, who);
      AloneWith(s, s, who, Idle);
      match e
      case ReadCheckpoint(_) =>
        if l.Reading? && |l.done| < 2 { AloneWith(s, s, who, Paging(l.o, l.at, l.done, Current(s, ProgramAt(|l.done|)))); }
      case ReadPages(_) => if l.Paging? { PagesAlone(w, s, who); }
      case MergeScans(_) =>
        if l.Reading? && |l.done| == 2 && Merge(Flatten(Scans(l.done))).Ok? {
          AloneWith(s, s, who, Enqueuing(l.at, l.done, Queue(Merge(Flatten(Scans(l.done))).value)));
        }
      case Enqueue(_) =>
        if l.Enqueuing? {
          if l.queue == [] { AloneWith(s, s, who, Storing(l.at, l.done)); }
          else {
            var s' := s.(inbox := s.inbox + {l.queue[0]});
            UndisturbedSame(s, s', l);
            AloneWith(s, s', who, Enqueuing(l.at, l.done, l.queue[1..]));
          }
        }
      case _ =>
    } else if e.Fail? {
      FailIdle(s, who);
    }
  }

  lemma {:induction false} FailIdle(s: System, who: nat)
    requires Alone(s) && LocalOf(s, who).Idle?
    ensures Alone(With(s, who, Idle))
  {
    hide UpToDate, InOrder, Apart;
    var t := With(s, who, Idle);
    forall k | k in t.scans ensures Undisturbed(t, t.scans[k]) {
      if k != who { UndisturbedSame(s, t, s.scans[k]); }
    }
  }

  lemma {:induction false} AloneFacts(s: System, who: nat)
    requires Alone(s)
    ensures Undisturbed(s, LocalOf(s, who)) && s.first.Keys == s.checkpoints.Keys && s.rebased == {}
  {
  }

  lemma {:induction false} PagesAlone(w: World, s: System, who: nat)
    requires Alone(s) && LocalOf(s, who).Paging?
    ensures Alone(PagesStep(w, s, who, LocalOf(s, who)))
  {
    hide Alone, FullScan;
    var l := LocalOf(s, who);
    AloneFacts(s, who);
    AloneWith(s, s, who, Idle);
    var p := ProgramAt(|l.done|);
    if Head(s, p) <= |HistoryOf(w, p)| && FullScan(HistoryOf(w, p), Head(s, p), l.base, l.o).Ok? {
      var scan := FullScan(HistoryOf(w, p), Head(s, p), l.base, l.o).value;
      AloneWith(s, s, who, Reading(l.o, l.at, l.done + [Based(p, l.base, scan)]));
    }
  }

  lemma {:induction false} RunAlone(w: World, s: System, events: seq<Event>)
    requires Alone(s) && OneAtATime(w, s, events)
    ensures Alone(Run(w, s, events))
    decreases |events|
  {
    hide Alone, Step, AllIdle;
    if events != [] {
      StepAlone(w, s, events[0]);
      RunAlone(w, Step(w, s, events[0]), events[1..]);
    }
  }

  // ---------------------------------------------------------- strict scans

  predicate NoGap(bs: seq<Based>) {
    forall b :: b in bs ==> b.scan.gap.None?
  }

  predicate StrictLocal(l: Local) {
    match l
    case Idle => true
    case Reading(o, _, done) => !o.liveEdge && NoGap(done)
    case Paging(o, _, done, _) => !o.liveEdge && NoGap(done)
    case Enqueuing(_, done, _) => NoGap(done)
    case Storing(_, todo) => NoGap(todo)
  }

  ghost predicate Gapless(s: System) {
    s.gaps == {} && forall who :: who in s.scans ==> StrictLocal(s.scans[who])
  }

  lemma {:induction false} GaplessWith(s: System, s': System, who: nat, l: Local)
    requires Gapless(s) && s'.gaps == {} && s'.scans == s.scans && StrictLocal(l)
    ensures Gapless(With(s', who, l))
  {
    hide StrictLocal;
  }

  lemma {:induction false} StrictScanHasNoGap(h: seq<Row>, n: nat, base: Option<Checkpoint>, o: Options)
    requires n <= |h| && !o.liveEdge && FullScan(h, n, base, o).Ok?
    ensures FullScan(h, n, base, o).value.gap.None?
  {
    hide Locate, NewestFirst;
  }

  lemma {:induction false} PagesGapless(w: World, s: System, who: nat)
    requires Gapless(s) && LocalOf(s, who).Paging?
    ensures Gapless(PagesStep(w, s, who, LocalOf(s, who)))
  {
    hide Gapless, FullScan;
    var l := LocalOf(s, who);
    GaplessLocal(s, who);
    GaplessWith(s, s, who, Idle);
    var p := ProgramAt(|l.done|);
    if Head(s, p) <= |HistoryOf(w, p)| && FullScan(HistoryOf(w, p), Head(s, p), l.base, l.o).Ok? {
      StrictScanHasNoGap(HistoryOf(w, p), Head(s, p), l.base, l.o);
      GaplessWith(s, s, who, Reading(l.o, l.at, l.done + [Based(p, l.base, FullScan(HistoryOf(w, p), Head(s, p), l.base, l.o).value)]));
    }
  }

  lemma {:induction false} GaplessLocal(s: System, who: nat)
    requires Gapless(s)
    ensures StrictLocal(LocalOf(s, who)) && s.gaps == {}
  {
  }

  lemma {:induction false} StoreGapless(w: World, s: System, who: nat)
    requires Gapless(s) && LocalOf(s, who).Storing?
    ensures Gapless(StoreStep(w, s, who, LocalOf(s, who)))
  {
    hide Gapless, Stores, Stamped, Position;
    var l := LocalOf(s, who);
    GaplessLocal(s, who);
    GaplessWith(s, s, who, Idle);
    if l.todo != [] && StoreOne(w, s, l.todo[0], l.at).Some? {
      assert l.todo[0] in l.todo;
      GaplessWith(s, StoreOne(w, s, l.todo[0], l.at).value, who, Storing(l.at, l.todo[1..]));
    }
  }

  lemma {:induction false} ReadGapless(w: World, s: System, who: nat)
    requires Gapless(s) && LocalOf(s, who).Reading?
    ensures Gapless(Step(w, s, ReadCheckpoint(who))) && Gapless(Step(w, s, MergeScans(who)))
  {
    hide Gapless, Merge, Flatten, Scans, Queue;
    var l := LocalOf(s, who);
    GaplessLocal(s, who);
    GaplessWith(s, s, who, Idle);
    GaplessWith(s, s, who, Paging(l.o, l.at, l.done, Current(s, ProgramAt(|l.done|))));
    if Merge(Flatten(Scans(l.done))).Ok? {
      GaplessWith(s, s, who, Enqueuing(l.at, l.done, Queue(Merge(Flatten(Scans(l.done))).value)));
    }
  }

  lemma {:induction false} EnqueueGapless(s: System, who: nat)
    requires Gapless(s) && LocalOf(s, who).Enqueuing?
    ensures Gapless(EnqueueStep(s, who, LocalOf(s, who)))
  {
    hide Gapless;
    var l := LocalOf(s, who);
    GaplessLocal(s, who);
    if l.queue == [] {
      GaplessWith(s, s, who, Storing(l.at, l.done));
    } else {
      GaplessWith(s, s.(inbox := s.inbox + {l.queue[0]}), who, Enqueuing(l.at, l.done, l.queue[1..]));
    }
  }

  lemma {:induction false} GrowGapless(s: System, p: Program, head: nat)
    requires Gapless(s)
    ensures Gapless(s.(heads := s.heads[p := head]))
  {
  }

  lemma {:induction false} StepGapless(w: World, s: System, e: Event)
    requires Gapless(s) && (e.Begin? ==> !e.o.liveEdge)
    ensures Gapless(Step(w, s, e))
  {
    hide Gapless, PagesStep, MergeStep, EnqueueStep, StoreStep, ValidOptions;
    match e
    case Grow(p, head) => GrowGapless(s, p, head);
    case Begin(who, o, at) => GaplessLocal(s, who); GaplessWith(s, s, who, Reading(o, at, []));
    case ReadCheckpoint(who) => if LocalOf(s, who).Reading? { ReadGapless(w, s, who); }
    case ReadPages(who) => if LocalOf(s, who).Paging? { PagesGapless(w, s, who); }
    case MergeScans(who) => if LocalOf(s, who).Reading? { ReadGapless(w, s, who); }
    case Enqueue(who) => if LocalOf(s, who).Enqueuing? { EnqueueGapless(s, who); }
    case Store(who) => if LocalOf(s, who).Storing? { StoreGapless(w, s, who); }
    case Fail(who) => GaplessLocal(s, who); GaplessWith(s, s, who, Idle);
  }

  lemma {:induction false} RunGapless(w: World, s: System, events: seq<Event>)
    requires Gapless(s) && Strict(events)
    ensures Gapless(Run(w, s, events))
    decreases |events|
  {
    hide Gapless, Step;
    if events != [] {
      StepGapless(w, s, events[0]);
      RunGapless(w, Step(w, s, events[0]), events[1..]);
    }
  }

  // ------------------------------------------------------------ theorems

  /**
   Scanning one at a time, whatever fails on the way: every row newer than the
   program's first checkpoint and not newer than its current one is in the inbox
   or inside a recorded gap.
   */
  lemma {:induction false} LiveEdgeCoverage(w: World, events: seq<Event>, p: Program)
    requires WorldOk(w) && OneAtATime(w, EMPTY, events) && p in Run(w, EMPTY, events).checkpoints
    ensures var s := Run(w, EMPTY, events);
            var at := Position(w, p, s.checkpoints[p]);
            && at.Some? && at.value < Head(s, p) && p in s.first
            && forall j: nat :: s.first[p] < j <= at.value ==> Covered(w, s, p, j)
  {
    hide Run, OneAtATime, Covered, SomeRestart, Position;
    RunKeeps(w, EMPTY, events);
    RunAlone(w, EMPTY, events);
  }

  /** With strict scans it is in the inbox. */
  lemma {:induction false} StrictCoverage(w: World, events: seq<Event>, p: Program)
    requires WorldOk(w) && OneAtATime(w, EMPTY, events) && Strict(events) && p in Run(w, EMPTY, events).checkpoints
    ensures var s := Run(w, EMPTY, events);
            var at := Position(w, p, s.checkpoints[p]);
            && at.Some? && at.value < Head(s, p) && p in s.first
            && forall j: nat :: s.first[p] < j <= at.value ==>
                 j < |HistoryOf(w, p)| && HistoryOf(w, p)[j].signature in s.inbox
  {
    hide Run, OneAtATime, Strict;
    LiveEdgeCoverage(w, events, p);
    RunGapless(w, EMPTY, events);
    var s := Run(w, EMPTY, events);
    forall j: nat | s.first[p] < j <= Position(w, p, s.checkpoints[p]).value
      ensures j < |HistoryOf(w, p)| && HistoryOf(w, p)[j].signature in s.inbox
    {
      assert Covered(w, s, p, j);
    }
  }
}
