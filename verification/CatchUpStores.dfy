/** A stored checkpoint never moves back, whatever the scanners do. */
module CatchUpStores {
  import opened Prelude
  import opened CatchUpDiscovery
  import opened CatchUpScanner
  import opened CatchUpCoverage

  // ----------------------------------------------------------- one store

  /** Later in slot; or in the same slot, and then another signature only at a later time. */
  predicate Onward(was: Checkpoint, now: Checkpoint) {
    was.slot <= now.slot && (was.slot == now.slot && was.signature != now.signature ==> was.updatedAt < now.updatedAt)
  }

  /** A plain store is refused exactly if it would go back, and then keeps the later of both times. */
  lemma {:induction false} StoreGoesOn(w: World, s: System, b: Based, c: Checkpoint)
    requires Current(s, b.program).Some?
    ensures var was, r := Current(s, b.program).value, StoreCheckpoint(w, s, b, c);
            && (r.Some? <==> Onward(was, c))
            && (r.Some? ==> Current(r.value, b.program) == Some(Checkpoint(c.slot, c.signature, Max(was.updatedAt, c.updatedAt))))
  {
    hide Position, Reaches;
  }

  /** A first store is always taken, as it is. */
  lemma {:induction false} FirstStore(w: World, s: System, b: Based, c: Checkpoint)
    requires Current(s, b.program).None?
    ensures var r := StoreCheckpoint(w, s, b, c); r.Some? && Current(r.value, b.program) == Some(c)
  {
    hide Position, Reaches;
  }

  /** A gap is taken at its lower end, which it moves to the upper one, and again at the upper one, which it leaves. */
  lemma {:induction false} GapGoesOn(s: System, p: Program, g: Gap, at: nat)
    ensures var was, r := Current(s, p), RecordGap(s, p, g, at);
            && (r.Some? <==> was.Some? && ((was.value.slot == g.previous.slot && was.value.signature == g.previous.signature)
                                           || (was.value.slot == g.baselineSlot && was.value.signature == g.baselineSignature)))
            && (r.Some? ==>
                  if was.value.slot == g.baselineSlot && was.value.signature == g.baselineSignature then Current(r.value, p) == was
                  else Current(r.value, p) == Some(Checkpoint(g.baselineSlot, g.baselineSignature, at)))
  {
  }

  // ---------------------------------------------------------- whole runs

  predicate Forward(b: Based) {
    b.scan.gap.Some? ==> b.scan.gap.value.previous.slot <= b.scan.gap.value.baselineSlot
  }

  predicate AllForward(bs: seq<Based>) {
    forall i :: 0 <= i < |bs| ==> Forward(bs[i])
  }

  predicate LocalForward(l: Local) {
    match l
    case Idle => true
    case Reading(_, _, done) => AllForward(done)
    case Paging(_, _, done, _) => AllForward(done)
    case Enqueuing(_, done, _) => AllForward(done)
    case Storing(_, todo) => AllForward(todo)
  }

  predicate GapsForward(s: System) {
    forall who :: who in s.scans ==> LocalForward(s.scans[who])
  }

  /** A gap found at the live edge does not lead back. */
  lemma {:induction false} ScanForward(h: seq<Row>, n: nat, base: Option<Checkpoint>, o: Options, p: Program)
    requires n <= |h| && FullScan(h, n, base, o).Ok?
    ensures Forward(Based(p, base, FullScan(h, n, base, o).value))
  {
    hide Locate;
  }

  lemma {:induction false} WithForward(s: System, who: nat, l: Local)
    requires GapsForward(s) && LocalForward(l)
    ensures GapsForward(With(s, who, l))
  {
  }

  lemma {:induction false} LocalOfForward(s: System, who: nat)
    requires GapsForward(s)
    ensures LocalForward(LocalOf(s, who))
  {
  }

  lemma {:induction false} PagesForward(w: World, s: System, who: nat, l: Local)
    requires GapsForward(s) && l.Paging? && LocalForward(l)
    ensures GapsForward(PagesStep(w, s, who, l))
  {
    hide FullScan, GapsForward;
    var p := ProgramAt(|l.done|);
    WithForward(s, who, Idle);
    if Head(s, p) <= |HistoryOf(w, p)| {
      var r := FullScan(HistoryOf(w, p), Head(s, p), l.base, l.o);
      if r.Ok? {
        ScanForward(HistoryOf(w, p), Head(s, p), l.base, l.o, p);
        WithForward(s, who, Reading(l.o, l.at, l.done + [Based(p, l.base, r.value)]));
      }
    }
  }

  lemma {:induction false} StoreScans(w: World, s: System, b: Based, at: nat)
    ensures StoreOne(w, s, b, at).Some? ==> StoreOne(w, s, b, at).value.scans == s.scans
  {
    hide Position, Reaches;
  }

  lemma {:induction false} StoreForward(w: World, s: System, who: nat, l: Local)
    requires GapsForward(s) && l.Storing? && LocalForward(l)
    ensures GapsForward(StoreStep(w, s, who, l))
  {
    hide StoreOne, GapsForward;
    WithForward(s, who, Idle);
    if l.todo != [] {
      var r := StoreOne(w, s, l.todo[0], l.at);
      if r.Some? {
        StoreScans(w, s, l.todo[0], l.at);
        assert GapsForward(r.value) by { SameScans(s, r.value); }
        WithForward(r.value, who, Storing(l.at, l.todo[1..]));
      }
    }
  }

  lemma {:induction false} SameScans(s: System, r: System)
    requires GapsForward(s) && r.scans == s.scans
    ensures GapsForward(r)
  {
  }

  lemma {:induction false} StepForward(w: World, s: System, e: Event)
    requires GapsForward(s)
    ensures GapsForward(Step(w, s, e))
  {
    hide GapsForward, PagesStep, StoreStep, Merge, AllForward;
    match e
    case Grow(p, head) => SameScans(s, Step(w, s, e));
    case Begin(who, o, at) => NoneForward(); WithForward(s, who, Reading(o, at, []));
    case ReadCheckpoint(who) =>
      LocalOfForward(s, who);
      var l := LocalOf(s, who);
      if l.Reading? { WithForward(s, who, Paging(l.o, l.at, l.done, Current(s, ProgramAt(|l.done|)))); }
    case ReadPages(who) =>
      LocalOfForward(s, who);
      if LocalOf(s, who).Paging? { PagesForward(w, s, who, LocalOf(s, who)); }
    case MergeScans(who) =>
      LocalOfForward(s, who);
      WithForward(s, who, Idle);
      var l := LocalOf(s, who);
      if l.Reading? && Merge(Flatten(Scans(l.done))).Ok? {
        WithForward(s, who, Enqueuing(l.at, l.done, Queue(Merge(Flatten(Scans(l.done))).value)));
      }
    case Enqueue(who) =>
      LocalOfForward(s, who);
      var l := LocalOf(s, who);
      if l.Enqueuing? {
        WithForward(s, who, Storing(l.at, l.done));
        if l.queue != [] {
          var s1 := s.(inbox := s.inbox + {l.queue[0]});
          SameScans(s, s1);
          WithForward(s1, who, Enqueuing(l.at, l.done, l.queue[1..]));
        }
      }
    case Store(who) =>
      LocalOfForward(s, who);
      if LocalOf(s, who).Storing? { StoreForward(w, s, who, LocalOf(s, who)); }
    case Fail(who) => WithForward(s, who, Idle);
  }

  lemma {:induction false} NoneForward()
    ensures AllForward([])
  {
  }

  /** The checkpoint of a program stays or moves to no earlier slot. */
  predicate NotBack(s: System, r: System, p: Program) {
    Current(s, p).Some? ==> Current(r, p).Some? && Current(s, p).value.slot <= Current(r, p).value.slot
  }

  lemma {:induction false} StoreNotBack(w: World, s: System, b: Based, at: nat, p: Program)
    requires Forward(b) && StoreOne(w, s, b, at).Some?
    ensures NotBack(s, StoreOne(w, s, b, at).value, p)
  {
    hide Position, Reaches;
  }

  lemma {:induction false} StepNotBack(w: World, s: System, e: Event, p: Program)
    requires GapsForward(s)
    ensures NotBack(s, Step(w, s, e), p)
  {
    hide StoreOne, FullScan, Merge, GapsForward, LocalForward;
    if e.Store? && LocalOf(s, e.who).Storing? {
      var l := LocalOf(s, e.who);
      if l.todo != [] && StoreOne(w, s, l.todo[0], l.at).Some? {
        LocalOfForward(s, e.who);
        FirstForward(l);
        StoreNotBack(w, s, l.todo[0], l.at, p);
      }
    }
  }

  lemma {:induction false} FirstForward(l: Local)
    requires LocalForward(l) && l.Storing? && l.todo != []
    ensures Forward(l.todo[0])
  {
  }

  lemma {:induction false} RunNotBack(w: World, s: System, events: seq<Event>, p: Program)
    requires GapsForward(s)
    ensures GapsForward(Run(w, s, events)) && NotBack(s, Run(w, s, events), p)
    decreases |events|
  {
    hide Step, GapsForward;
    if events != [] {
      StepForward(w, s, events[0]);
      StepNotBack(w, s, events[0], p);
      RunNotBack(w, Step(w, s, events[0]), events[1..], p);
    }
  }

  /** Over every run, once a program has a checkpoint it keeps one, and its slot never falls. */
  lemma {:induction false} CheckpointsNeverGoBack(w: World, events: seq<Event>, more: seq<Event>, p: Program)
    ensures NotBack(Run(w, EMPTY, events), Run(w, Run(w, EMPTY, events), more), p)
  {
    hide Run;
    assert GapsForward(EMPTY);
    RunNotBack(w, EMPTY, events, p);
    RunNotBack(w, Run(w, EMPTY, events), more, p);
  }
}
