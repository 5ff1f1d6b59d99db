/**
 A whole scan: both programs paged, the discoveries merged and enqueued, and only
 then the checkpoints moved.  Against honest sources it is one run of the
 coverage protocol.
 */
module CatchUpScan {
  import opened Prelude
  import opened CatchUpDiscovery
  import opened CatchUpScanner
  import opened CatchUpCoverage
  import opened CatchUpAdvance

  datatype Failure = SourceFailed(error: ScanError) | MergeFailed | StoreFailed

  lemma {:induction false} RunAppend(w: World, s: System, events: seq<Event>, e: Event)
    ensures Run(w, s, events + [e]) == Step(w, Run(w, s, events), e)
    decreases |events|
  {
    hide Step;
    if events == [] {
      assert Run(w, s, [e]) == Run(w, Step(w, s, e), [e][1..]);
      assert events + [e] == [e];
    } else {
      assert (events + [e])[1..] == events[1..] + [e] && (events + [e])[0] == events[0];
      RunAppend(w, Step(w, s, events[0]), events[1..], e);
    }
  }

  class Scanner {
    var inbox: set<Signature>
    var checkpoints: map<Program, Checkpoint>
    var gaps: set<(Program, Gap)>
    ghost var heads: map<Program, nat>
    ghost var first: map<Program, nat>
    ghost var rebased: set<Program>

    constructor ()
      ensures inbox == {} && checkpoints == map[] && gaps == {}
    {
      inbox, checkpoints, gaps, heads, first, rebased := {}, map[], {}, map[], map[], {};
    }

    /** The protocol's state while this scan stands at `l`. */
    ghost function At(who: nat, l: Local): System
      reads this
    {
      System(inbox, checkpoints, gaps, heads, map[who := l], first, rebased)
    }

    /** Reads a program's checkpoint and pages back to it. */
    method ScanOne(ghost w: World, ghost who: nat, o: Options, ghost at: nat, done: seq<Based>, source: Source,
                   ghost head: nat -> nat,
                   ghost start: System, ghost before: seq<Event>)
      returns (r: Result<Based, ScanError>, ghost events: seq<Event>)
      requires |done| < 2 && ValidOptions(o)
      requires var p := ProgramAt(|done|); Honest(source, HistoryOf(w, p), head, o.pageSize) && head(0) == Head(At(who, Idle), p)
      requires Run(w, start, before) == At(who, Reading(o, at, done))
      ensures Run(w, start, events) == At(who, if r.Ok? then Reading(o, at, done + [r.value]) else Idle)
      ensures var p, s := ProgramAt(|done|), At(who, Idle);
              && Head(s, p) <= |HistoryOf(w, p)|
              && (r.Ok? <==> FullScan(HistoryOf(w, p), Head(s, p), Current(s, p), o).Ok?)
              && (r.Ok? ==> r.value == ScanOf(w, s, p, o))
    {
      hide Run, Step, Honest, ScanPages, FullScan;
      var p := ProgramAt(|done|);
      var base := if p in checkpoints then Some(checkpoints[p]) else None;
      events := before + [ReadCheckpoint(who)];
      RunAppend(w, start, before, ReadCheckpoint(who));
      StepRead(w, At(who, Reading(o, at, done)), who);
      var scan := ScanProgram(source, o, base);
      ScanIsFull(source, HistoryOf(w, p), head, o, base);
      HonestHead(source, HistoryOf(w, p), head, o.pageSize);
      RunAppend(w, start, events, ReadPages(who));
      events := events + [ReadPages(who)];
      StepPages(w, At(who, Paging(o, at, done, base)), who);
      r := if scan.Ok? then Ok(Based(p, base, scan.value)) else Err(scan.error);
    }

    /** Enqueues the merged discoveries in order. */
    method EnqueueAll(ghost w: World, ghost who: nat, ghost at: nat, ghost done: seq<Based>, queue: seq<Signature>,
                      ghost start: System, ghost before: seq<Event>) returns (ghost events: seq<Event>)
      requires Run(w, start, before) == At(who, Enqueuing(at, done, queue))
      modifies `inbox
      ensures Run(w, start, events) == At(who, Storing(at, done))
      ensures inbox == old(inbox) + Elements(queue)
    {
      hide Run, Step;
      events := before;
      var i := 0;
      while i < |queue|
        invariant i <= |queue| && Run(w, start, events) == At(who, Enqueuing(at, done, queue[i..]))
        invariant inbox == old(inbox) + Elements(queue[..i])
      {
        RunAppend(w, start, events, Enqueue(who));
        events := events + [Enqueue(who)];
        StepEnqueue(w, At(who, Enqueuing(at, done, queue[i..])), who);
        inbox := inbox + {queue[i]};
        assert queue[i..][1..] == queue[i + 1..] && queue[..i + 1] == queue[..i] + [queue[i]];
        i := i + 1;
      }
      assert queue[i..] == [] && queue[..i] == queue;
      RunAppend(w, start, events, Enqueue(who));
      events := events + [Enqueue(who)];
      StepEnqueue(w, At(who, Enqueuing(at, done, [])), who);
    }

    method StorePoint(ghost w: World, ghost who: nat, ghost l: Local, b: Based, c: Checkpoint) returns (ok: bool)
      modifies this
      ensures var r := StoreCheckpoint(w, old(At(who, l)), b, c);
              if r.Some? then ok && At(who, l) == r.value else !ok && At(who, l) == old(At(who, l))
    {
      hide Position, Stores, Stamped, Reaches;
      var current := if b.program in checkpoints then Some(checkpoints[b.program]) else None;
      if !Stores(current, c) { return false; }
      if b.base.None? {
        if b.program in first {
          if !Reaches(w, At(who, l), b, c) { rebased := rebased + {b.program}; }
        } else {
          ghost var position := Position(w, b.program, c);
          first := first[b.program := if position.Some? then position.value else 0];
        }
      }
      checkpoints := checkpoints[b.program := Stamped(current, c)];
      return true;
    }

    method StoreGap(ghost who: nat, ghost l: Local, p: Program, g: Gap, at: nat) returns (ok: bool)
      modifies this
      ensures var r := RecordGap(old(At(who, l)), p, g, at);
              if r.Some? then ok && At(who, l) == r.value else !ok && At(who, l) == old(At(who, l))
    {
      hide AtBaseline, AtPrevious;
      var current := if p in checkpoints then Some(checkpoints[p]) else None;
      if !AtBaseline(current, g) && !AtPrevious(current, g) { return false; }
      gaps := gaps + {(p, g)};
      if !AtBaseline(current, g) {
        checkpoints := checkpoints[p := Checkpoint(g.baselineSlot, g.baselineSignature, at)];
      }
      return true;
    }

    /** Stores one program's checkpoint, or records its gap. */
    method StoreScan(ghost w: World, ghost who: nat, at: nat, todo: seq<Based>) returns (ok: bool)
      requires todo != []
      modifies this
      ensures Step(w, old(At(who, Storing(at, todo))), Store(who)) == At(who, if ok then Storing(at, todo[1..]) else Idle)
      ensures inbox == old(inbox)
      ensures var r := StoreOne(w, old(At(who, Storing(at, todo))), todo[0], at);
              (ok <==> r.Some?) && (ok ==> At(who, Storing(at, todo)) == r.value)
    {
      hide StoreCheckpoint, RecordGap, Step;
      var b := todo[0];
      ghost var l := Storing(at, todo);
      StepStore(w, At(who, l), who);
      StoreKeepsInbox(w, At(who, l), b, at);
      if b.scan.newest.None? {
        ok := true;
      } else if b.scan.gap.None? {
        ok := StorePoint(w, who, l, b, Checkpoint(b.scan.newest.value.slot, b.scan.newest.value.signature, at));
      } else {
        ok := StoreGap(who, l, b.program, b.scan.gap.value, at);
      }
    }

    /** Pages both programs and merges what they found. */
    method Discover(ghost w: World, ghost who: nat, o: Options, ghost at: nat, launchpad: Source, market: Source,
                    ghost headL: nat -> nat, ghost headM: nat -> nat)
      returns (r: Result<(seq<Based>, seq<Signature>), Failure>, ghost events: seq<Event>)
      requires ValidOptions(o)
      requires Honest(launchpad, w.launchpad, headL, o.pageSize) && headL(0) == Head(At(who, Idle), Launchpad)
      requires Honest(market, w.market, headM, o.pageSize) && headM(0) == Head(At(who, Idle), Market)
      ensures Run(w, At(who, Reading(o, at, [])), events) == At(who, if r.Ok? then Enqueuing(at, r.value.0, r.value.1) else Idle)
      ensures Visible(w, At(who, Idle)) && WorldOk(w)
      ensures r.Ok? ==>
                && BothScans(w, At(who, Idle), o, r.value.0)
                && Elements(r.value.1) == TakenFrom(w, At(who, Idle), Launchpad, o) + TakenFrom(w, At(who, Idle), Market, o)
      ensures AllReadable(w, At(who, Idle), o) && Agreeing(w) ==> r.Ok?
    {
      hide Run, Step, Honest, Merge, Flatten, Scans, Queue, FullScan, Taken, Readable, Agreeing, Elements, Signatures;
      HonestHead(launchpad, w.launchpad, headL, o.pageSize);
      HonestHead(market, w.market, headM, o.pageSize);
      ghost var here := At(who, Idle);
      FullScanMeans(w.launchpad, Head(here, Launchpad), Current(here, Launchpad), o);
      FullScanMeans(w.market, Head(here, Market), Current(here, Market), o);
      ghost var start := At(who, Reading(o, at, []));
      RunNothing(w, start);
      var a, b;
      a, events := ScanOne(w, who, o, at, [], launchpad, headL, start, []);
      if a.Err? { return Err(SourceFailed(a.error)), events; }
      assert [] + [a.value] == [a.value];
      b, events := ScanOne(w, who, o, at, [a.value], market, headM, start, events);
      if b.Err? { return Err(SourceFailed(b.error)), events; }
      var done := [a.value] + [b.value];
      var merged := MergeCatchUpDiscoveries(Scans(done));
      RunAppend(w, start, events, MergeScans(who));
      events := events + [MergeScans(who)];
      StepMerge(w, At(who, Reading(o, at, done)), who);
      assert done == [a.value, b.value];
      if Agreeing(w) {
        ScannedRows(w.launchpad, Head(here, Launchpad), Current(here, Launchpad), o);
        ScannedRows(w.market, Head(here, Market), Current(here, Market), o);
        AgreeingMerge(w, a.value, b.value);
      }
      if merged.Err? { return Err(MergeFailed), events; }
      TwoElements(a.value, b.value);
      return Ok((done, Queue(merged.value))), events;
    }

    method StoreAll(ghost w: World, ghost who: nat, ghost o: Options, at: nat, done: seq<Based>, ghost start: System,
                    ghost before: seq<Event>)
      returns (ok: bool, ghost events: seq<Event>)
      requires Run(w, start, before) == At(who, Storing(at, done))
      requires WorldOk(w) && ValidOptions(o) && Visible(w, At(who, Idle)) && BothScans(w, At(who, Idle), o, done)
      modifies this
      ensures Run(w, start, events) == At(who, Idle) && inbox == old(inbox)
      ensures ok ==> StoredSoFar(w, old(At(who, Idle)), At(who, Idle), o, 2)
      ensures AllStorable(w, old(At(who, Idle)), o, at) ==> ok
    {
      hide Run, Step, StoredSoFar, WorldOk, AllStorable, FullScan;
      ghost var here := At(who, Idle);
      NothingStored(w, here, o);
      events := before;
      var i := 0;
      while i < |done|
        invariant i <= |done| && inbox == old(inbox) && StoredSoFar(w, here, At(who, Idle), o, i)
        invariant Run(w, start, events) == At(who, Storing(at, done[i..]))
      {
        RunAppend(w, start, events, Store(who));
        events := events + [Store(who)];
        StoredAnywhere(w, here, At(who, Idle), At(who, Storing(at, done[i..])), o, i);
        StoreCarries(w, here, At(who, Storing(at, done[i..])), i, o, at);
        ok := StoreScan(w, who, at, done[i..]);
        if ok { StoredAnywhere(w, here, At(who, Storing(at, done[i..])), At(who, Idle), o, i + 1); }
        if !ok { return; }
        assert done[i..][1..] == done[i + 1..];
        i := i + 1;
      }
      assert done[i..] == [];
      RunAppend(w, start, events, Store(who));
      events := events + [Store(who)];
      StepDone(w, At(who, Storing(at, [])), who);
      ok := true;
    }

    /**
     The scan: whatever happens it ends idle as a run of the protocol does.  If it
     succeeds, each program's checkpoint is its newest visible row, gaps are noted
     where the window did not reach, and exactly the rows taken in were enqueued.  It
     succeeds whenever the pages can be read, the programs agree and the repository
     takes the checkpoints.
     */
    method Scan(ghost w: World, ghost who: nat, o: Options, at: nat, launchpad: Source, market: Source,
                ghost headL: nat -> nat, ghost headM: nat -> nat)
      returns (r: Result<seq<Based>, Failure>, ghost events: seq<Event>)
      requires ValidOptions(o)
      requires Honest(launchpad, w.launchpad, headL, o.pageSize) && headL(0) == Head(At(who, Idle), Launchpad)
      requires Honest(market, w.market, headM, o.pageSize) && headM(0) == Head(At(who, Idle), Market)
      modifies this
      ensures Run(w, old(At(who, Reading(o, at, []))), events) == At(who, Idle)
      ensures Visible(w, old(At(who, Idle)))
      ensures r.Ok? ==> ScanDone(w, old(At(who, Idle)), At(who, Idle), o)
      ensures (&& AllReadable(w, old(At(who, Idle)), o) && AllStorable(w, old(At(who, Idle)), o, at) && Agreeing(w)) ==> r.Ok?
    {
      hide Run, Honest, Elements, AllReadable, AllStorable, Agreeing, BothScans, StoredSoFar, ScanDone, WorldOk, TakenFrom;
      ghost var here := At(who, Idle);
      ghost var start := At(who, Reading(o, at, []));
      var found;
      found, events := Discover(w, who, o, at, launchpad, market, headL, headM);
      if found.Err? { return Err(found.error), events; }
      events := EnqueueAll(w, who, at, found.value.0, found.value.1, start, events);
      ghost var mid := At(who, Idle);
      SameScans(w, here, mid, o, found.value.0, at);
      var ok;
      ok, events := StoreAll(w, who, o, at, found.value.0, start, events);
      if ok { DoneWhenStored(w, here, mid, At(who, Idle), o); }
      r := if ok then Ok(found.value.0) else Err(StoreFailed);
    }
  }

  lemma {:induction false} StepStore(w: World, s: System, who: nat)
    requires s.scans == map[who := LocalOf(s, who)] && LocalOf(s, who).Storing? && LocalOf(s, who).todo != []
    ensures var l := LocalOf(s, who);
            var r := StoreOne(w, s, l.todo[0], l.at);
            && (r.Some? ==> r.value.scans == s.scans)
            && Step(w, s, Store(who)) == if r.Some? then r.value.(scans := map[who := Storing(l.at, l.todo[1..])]) else s.(scans := map[who := Idle])
  {
    StoreKeepsScans(w, s, LocalOf(s, who).todo[0], LocalOf(s, who).at);
    hide StoreOne;
  }

  lemma {:induction false} StoreKeepsScans(w: World, s: System, b: Based, at: nat)
    ensures StoreOne(w, s, b, at).Some? ==> StoreOne(w, s, b, at).value.scans == s.scans
  {
    hide Stores, Stamped, Position, AtBaseline, AtPrevious;
  }

  lemma {:induction false} StoreKeepsInbox(w: World, s: System, b: Based, at: nat)
    ensures StoreOne(w, s, b, at).Some? ==> StoreOne(w, s, b, at).value.inbox == s.inbox
  {
    hide Stores, Stamped, Position, AtBaseline, AtPrevious;
  }

  lemma {:induction false} RunNothing(w: World, s: System)
    ensures Run(w, s, []) == s
  {
  }

  lemma {:induction false} HonestHead(source: Source, h: seq<Row>, head: nat -> nat, size: nat)
    requires Honest(source, h, head, size)
    ensures head(0) <= |h| && History(h)
  {
  }

  /** The two scans from where the state stands. */
  ghost predicate BothScans(w: World, s: System, o: Options, done: seq<Based>)
    requires Visible(w, s)
  {
    && |done| == 2
    && forall i :: 0 <= i < 2 ==>
         && FullScan(HistoryOf(w, ProgramAt(i)), Head(s, ProgramAt(i)), Current(s, ProgramAt(i)), o).Ok?
         && done[i] == ScanOf(w, s, ProgramAt(i), o)
  }

  /** None of this depends on where the scanners stand, or on the inbox. */
  lemma {:induction false} SameScans(w: World, s: System, t: System, o: Options, done: seq<Based>, at: nat)
    requires Visible(w, s) && BothScans(w, s, o, done) && t.checkpoints == s.checkpoints && t.heads == s.heads
    ensures Visible(w, t) && BothScans(w, t, o, done)
    ensures AllStorable(w, s, o, at) ==> AllStorable(w, t, o, at)
  {
    hide FullScan, Storable;
    assert forall p: Program :: Head(t, p) == Head(s, p) && Current(t, p) == Current(s, p);
  }

  lemma {:induction false} StoredAnywhere(w: World, s: System, a: System, b: System, o: Options, i: nat)
    requires Visible(w, s) && StoredSoFar(w, s, a, o, i)
    requires b.checkpoints == a.checkpoints && b.heads == a.heads && b.gaps == a.gaps && b.inbox == a.inbox
    ensures StoredSoFar(w, s, b, o, i)
  {
    hide Advanced;
    assert forall p: Program :: Current(b, p) == Current(a, p);
  }

  lemma {:induction false} DoneWhenStored(w: World, s: System, mid: System, t: System, o: Options)
    requires Visible(w, s) && Visible(w, mid) && mid.checkpoints == s.checkpoints && mid.heads == s.heads && mid.gaps == s.gaps
    requires mid.inbox == s.inbox + (TakenFrom(w, s, Launchpad, o) + TakenFrom(w, s, Market, o))
    requires StoredSoFar(w, mid, t, o, 2)
    ensures ScanDone(w, s, t, o)
  {
    hide Advanced, TakenFrom, NotedGap;
    assert forall p: Program :: Head(mid, p) == Head(s, p) && Current(mid, p) == Current(s, p);
    forall p: Program ensures Advanced(HistoryOf(w, p), Head(s, p), Current(s, p), Current(t, p)) {
      match p
      case Launchpad =>
      case Market =>
    }
  }

  lemma {:induction false} StepRead(w: World, s: System, who: nat)
    requires s.scans == map[who := LocalOf(s, who)] && LocalOf(s, who).Reading? && |LocalOf(s, who).done| < 2
    ensures var l := LocalOf(s, who);
            Step(w, s, ReadCheckpoint(who)) == s.(scans := map[who := Paging(l.o, l.at, l.done, Current(s, ProgramAt(|l.done|)))])
  {
  }

  lemma {:induction false} StepPages(w: World, s: System, who: nat)
    requires s.scans == map[who := LocalOf(s, who)] && LocalOf(s, who).Paging?
    requires Head(s, ProgramAt(|LocalOf(s, who).done|)) <= |HistoryOf(w, ProgramAt(|LocalOf(s, who).done|))|
    ensures var l := LocalOf(s, who);
            var p := ProgramAt(|l.done|);
            var scan := FullScan(HistoryOf(w, p), Head(s, p), l.base, l.o);
            Step(w, s, ReadPages(who))
            == s.(scans := map[who := if scan.Ok? then Reading(l.o, l.at, l.done + [Based(p, l.base, scan.value)]) else Idle])
  {
    hide FullScan;
  }

  lemma {:induction false} StepMerge(w: World, s: System, who: nat)
    requires s.scans == map[who := LocalOf(s, who)] && LocalOf(s, who).Reading? && |LocalOf(s, who).done| == 2
    ensures var l := LocalOf(s, who);
            var merged := Merge(Flatten(Scans(l.done)));
            Step(w, s, MergeScans(who))
            == s.(scans := map[who := if merged.Ok? then Enqueuing(l.at, l.done, Queue(merged.value)) else Idle])
  {
    hide Merge, Flatten, Scans, Queue;
  }

  lemma {:induction false} StepEnqueue(w: World, s: System, who: nat)
    requires s.scans == map[who := LocalOf(s, who)] && LocalOf(s, who).Enqueuing?
    ensures var l := LocalOf(s, who);
            Step(w, s, Enqueue(who))
            == if l.queue == [] then s.(scans := map[who := Storing(l.at, l.done)])
               else s.(inbox := s.inbox + {l.queue[0]}, scans := map[who := Enqueuing(l.at, l.done, l.queue[1..])])
  {
  }

  lemma {:induction false} StepDone(w: World, s: System, who: nat)
    requires s.scans == map[who := LocalOf(s, who)] && LocalOf(s, who).Storing? && LocalOf(s, who).todo == []
    ensures Step(w, s, Store(who)) == s.(scans := map[who := Idle])
  {
  }
}
