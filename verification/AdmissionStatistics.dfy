/**
 What the admission's figures say: the peaks are the longest queues there ever
 were, the recorded waits are real, and the turn passes only when contested.
 */
module AdmissionStatistics {
  import opened Prelude
  import opened AdmissionSpec
  import opened AdmissionInvariant
  import opened AdmissionDispatch
  import opened AdmissionRuns
  import opened AdmissionTheorems

  // ------------------------------------------------------------ one side

  /** Waits are recorded from the first grant or cancellation on, and the last is no longer than the longest. */
  predicate WaitsTrue(side: Side) {
    && (side.lastWait.Some? <==> side.grants + side.cancellations > 0)
    && (side.maximumWait.Some? <==> side.lastWait.Some?)
    && (side.lastWait.Some? ==> side.lastWait.value <= side.maximumWait.value)
  }

  /** The longest wait never falls. */
  predicate Grows(a: Side, b: Side) {
    && (WaitsTrue(a) ==> WaitsTrue(b))
    && (a.maximumWait.Some? ==> b.maximumWait.Some? && a.maximumWait.value <= b.maximumWait.value)
  }

  /** Neither the recorded peaks nor the turn moved, and the waits only grew. */
  predicate Tallied(s: State, r: State) {
    && Grows(s.worker, r.worker) && Grows(s.classifier, r.classifier) && r.turn == s.turn
    && r.peaks.pendingWorkers == s.peaks.pendingWorkers
    && r.peaks.pendingClassifierGroups == s.peaks.pendingClassifierGroups
  }

  lemma {:induction false} RefuseTallied(s: State, waiters: seq<Waiter>, code: FailureCode)
    ensures Tallied(s, RefuseAll(s, waiters, code))
    decreases |waiters|
  {
    hide Without, Clear;
    if waiters != [] { RefuseTallied(Dismiss(s, waiters[0], Refused(code)), waiters[1..], code); }
  }

  lemma {:induction false} FailTallied(s: State, code: FailureCode)
    ensures Tallied(s, Fail(s, code))
  {
    hide RefuseAll, Grows;
    var first := if Failed(s) then s.life.failure.value else code;
    var s1 := s.(life := s.life.(failure := Some(first), closed := true), pool := Unregister(s.pool, s.pool.registered));
    RefuseTallied(s1, s1.worker.queue + s1.classifier.queue, first);
  }

  lemma {:induction false} TalliedOn(a: State, b: State, c: State)
    requires Tallied(a, b) && Tallied(b, c)
    ensures Tallied(a, c)
  {
  }

  lemma {:induction false} CountTallied(s: State, v: Waiter, elapsed: nat)
    ensures Tallied(s, CountGrant(s, v, elapsed)) && Tallied(s, CountCancellation(s, v.role, elapsed))
  {
    hide Without, Assign;
  }

  lemma {:induction false} GrantTallied(s: State, v: Waiter, now: real)
    ensures Tallied(s, Grant(s, v, now))
  {
    hide Without, Fail, Admit, Grows, CountGrant;
    FailTallied(s, InvalidClock);
    FailTallied(s, CounterOverflow);
    var e := Elapsed(now, v.startedAt);
    if e.Some? {
      var s1 := CountGrant(s, v, e.value);
      CountTallied(s, v, e.value);
      CountsOnly(s, v, e.value);
      if v.key.Some? {
        FailTallied(s1.(held := s1.held.(group := Some(GroupFor(s.held, v.key.value)))), CounterOverflow);
        TalliedOn(s, s1.(held := s1.held.(group := Some(GroupFor(s.held, v.key.value)))),
                  Fail(s1.(held := s1.held.(group := Some(GroupFor(s.held, v.key.value)))), CounterOverflow));
      }
    }
  }

  lemma {:induction false} CountsOnly(s: State, v: Waiter, elapsed: nat)
    ensures CountGrant(s, v, elapsed).peaks == s.peaks && CountGrant(s, v, elapsed).turn == s.turn
  {
    hide Without, Assign;
  }

  lemma {:induction false} GrantAllTallied(s: State, waiters: seq<Waiter>, now: real)
    ensures Tallied(s, GrantAll(s, waiters, now)) && Tallied(s, JoinAll(s, waiters, now))
    decreases |waiters|
  {
    hide Grant, Tallied;
    TalliedSelf(s);
    if waiters != [] {
      var s1 := Grant(s, waiters[0], now);
      GrantTallied(s, waiters[0], now);
      GrantAllTallied(s1, waiters[1..], now);
      GrantAllTallied(s, waiters[1..], now);
      TalliedOn(s, s1, GrantAll(s1, waiters[1..], now));
      TalliedOn(s, s1, JoinAll(s1, waiters[1..], now));
    }
  }

  lemma {:induction false} TalliedSelf(s: State)
    ensures Tallied(s, s)
  {
  }

  lemma {:induction false} JoinsTallied(s: State, now: real)
    ensures Tallied(s, DispatchJoins(s, now))
  {
    hide Grant, GrantAll, JoinAll, Tallied;
    GrantAllTallied(s, s.worker.queue, now);
    var s1 := JoinAll(s, s.worker.queue, now);
    GrantAllTallied(s1, s1.classifier.queue, now);
    TalliedOn(s, s1, GrantAll(s1, s1.classifier.queue, now));
  }

  /** Someone is freshly admitted. */
  predicate Admits(s: State) {
    !s.life.closed && IsIdle(s.held) && (s.worker.queue != [] || s.classifier.queue != [])
  }

  lemma {:induction false} DispatchTallied(s: State, now: real)
    ensures Tallied(if Admits(s) then TakeTurn(s) else s, Dispatch(s, now))
  {
    hide Grant, GrantAll, DispatchJoins, Tallied, TakeTurn;
    TalliedSelf(s);
    JoinsTallied(s, now);
    if Admits(s) {
      var s1, s2 := TakeTurn(s), DispatchFresh(s, now);
      if s.worker.queue != [] { GrantTallied(s1, s.worker.queue[0], now); }
      GrantAllTallied(s1, s.classifier.queue, now);
      JoinsTallied(s2, now);
      TalliedOn(s1, s2, DispatchJoins(s2, now));
    }
  }

  /** The turn passes to the other role exactly when both roles wait for a fresh admission. */
  lemma {:induction false} TurnPassesIffContested(s: State, now: real)
    ensures Dispatch(s, now).turn.next
            == if !s.life.closed && IsIdle(s.held) && s.worker.queue != [] && s.classifier.queue != []
               then Other(s.turn.next) else s.turn.next
  {
    hide Dispatch, Grows;
    DispatchTallied(s, now);
  }

  // ------------------------------------------------------- the operations

  /** The peaks stand and the waits only grew. */
  predicate Recorded(s: State, r: State) {
    && Grows(s.worker, r.worker) && Grows(s.classifier, r.classifier)
    && r.peaks.pendingWorkers == s.peaks.pendingWorkers
    && r.peaks.pendingClassifierGroups == s.peaks.pendingClassifierGroups
  }

  lemma {:induction false} RecordedOn(a: State, b: State, c: State)
    requires Recorded(a, b) && Recorded(b, c)
    ensures Recorded(a, c)
  {
  }

  lemma {:induction false} DispatchRecorded(s: State, now: real)
    ensures Recorded(s, Dispatch(s, now))
  {
    hide Dispatch, Grows;
    DispatchTallied(s, now);
  }

  lemma {:induction false} DismissRecorded(s: State, v: Waiter, how: Settlement)
    ensures Recorded(s, Dismiss(s, v, how))
  {
    hide Without, Clear;
  }

  lemma {:induction false} CancelRecorded(s: State, v: Waiter, now: real)
    ensures Recorded(s, Cancel(s, v, now))
  {
    hide Fail, Dispatch, Dismiss, CountCancellation, Grows;
    FailTallied(s, InvalidClock);
    FailTallied(s, CounterOverflow);
    var e := Elapsed(now, v.startedAt);
    GrowsSelf(s);
    if e.Some? {
      var s1 := CountCancellation(s, v.role, e.value);
      var s2 := Dismiss(s1, v, Cancelled);
      CountTallied(s, v, e.value);
      DismissRecorded(s1, v, Cancelled);
      RecordedOn(s, s1, s2);
      DispatchRecorded(s2, now);
      RecordedOn(s, s2, Dispatch(s2, now));
    }
  }

  lemma {:induction false} GrowsSelf(s: State)
    ensures Recorded(s, s)
  {
  }

  lemma {:induction false} CancelAllRecorded(s: State, waiters: seq<Waiter>, now: real)
    ensures Recorded(s, CancelAll(s, waiters, now))
    decreases |waiters|
  {
    hide Cancel, Recorded;
    GrowsSelf(s);
    if waiters != [] {
      var s1 := Cancel(s, waiters[0], now);
      CancelRecorded(s, waiters[0], now);
      CancelAllRecorded(s1, waiters[1..], now);
      RecordedOn(s, s1, CancelAll(s1, waiters[1..], now));
    }
  }

  lemma {:induction false} ClockRecorded(s: State, clock: Option<real>)
    ensures Recorded(s, ReadClock(s, clock))
  {
    hide Fail, Grows;
    GrowsSelf(s);
    FailTallied(s, InvalidClock);
  }

  /** A request raises the peaks to what now waits, unless it failed or was aborted. */
  ghost predicate Raised(s: State, r: State) {
    && Grows(s.worker, r.worker) && Grows(s.classifier, r.classifier)
    && (r.peaks.pendingWorkers == s.peaks.pendingWorkers
        || r.peaks.pendingWorkers == Max(s.peaks.pendingWorkers, |r.worker.queue|))
    && (r.peaks.pendingClassifierGroups == s.peaks.pendingClassifierGroups
        || r.peaks.pendingClassifierGroups == Max(s.peaks.pendingClassifierGroups, if r.classifier.queue == [] then 0 else 1))
  }

  lemma {:induction false} RequestRaised(s: State, role: Role, key: Option<string>, worker: Option<nat>, aborted: bool,
                                         now: real)
    ensures Raised(s, Request(s, role, key, worker, aborted, now))
  {
    hide Fail, Place, Enqueue, CountCancellation, CountRequest, Grows;
    var s0 := CountRequest(s, role);
    var w := Waiter(s.ids.next, role, key, worker, now);
    CountedRecorded(s, role, w);
    if aborted {
      FailTallied(s0, CounterOverflow);
      CountTallied(s0, w, 0);
      RecordedOn(s, s0, Fail(s0, CounterOverflow));
      RecordedOn(s, s0, CountCancellation(s0, role, 0));
    } else {
      PlaceRecorded(Enqueue(s, w), w, now);
      RecordedOn(s, Enqueue(s, w), Place(Enqueue(s, w), w, now));
    }
  }

  lemma {:induction false} CountedRecorded(s: State, role: Role, w: Waiter)
    ensures Recorded(s, CountRequest(s, role)) && Recorded(s, Enqueue(s, w))
  {
    hide Assign;
  }

  lemma {:induction false} PlaceRecorded(s: State, w: Waiter, now: real)
    ensures Recorded(s, Place(s, w, now))
  {
    hide Grant, Dispatch, Grows;
    GrantTallied(s, w, now);
    DispatchRecorded(s, now);
  }

  lemma {:induction false} RaisedAfter(s: State, s1: State, r: State)
    requires Recorded(s, s1) && Raised(s1, r)
    ensures Raised(s, r)
  {
  }

  lemma {:induction false} RecordedRaised(s: State, r: State)
    requires Recorded(s, r)
    ensures Raised(s, r)
  {
  }

  lemma {:induction false} AcquireRaised(s: State, e: Event)
    requires e.AcquireWorker? || e.AcquireClassifier?
    ensures Raised(s, Step(s, e))
  {
    hide Request, ReadClock, Raised, Recorded, Conflicts;
    var s1 := ReadClock(s, e.clock);
    ClockRecorded(s, e.clock);
    RecordedRaised(s, s1);
    if !Failed(s1) {
      match e
      case AcquireWorker(worker, key, aborted, clock) =>
        RequestRaised(s1, WorkerRole, key, Some(worker), aborted, s1.life.lastNow.value);
        RaisedAfter(s, s1, Request(s1, WorkerRole, key, Some(worker), aborted, s1.life.lastNow.value));
      case AcquireClassifier(key, aborted, clock) =>
        RequestRaised(s1, ClassifierRole, Some(key), None, aborted, s1.life.lastNow.value);
        RaisedAfter(s, s1, Request(s1, ClassifierRole, Some(key), None, aborted, s1.life.lastNow.value));
    }
  }

  lemma {:induction false} ReleaseRecorded(s: State, ticket: nat, clock: Option<real>)
    ensures Recorded(s, DoRelease(s, ticket, clock).0)
  {
    hide ReadClock, Dispatch, Detach, Clear, Recorded;
    GrowsSelf(s);
    if ticket in s.held.tickets && s.held.tickets[ticket].state != Released {
      var s1 := s.(held := Detach(s.held, ticket), pool := Clear(s.pool, s.held.tickets[ticket].worker, Holding(ticket)));
      SameSides(s, s1);
      ClockRecorded(s1, clock);
      var s2 := ReadClock(s1, clock);
      RecordedOn(s, s1, s2);
      if !Failed(s2) {
        DispatchRecorded(s2, s2.life.lastNow.value);
        RecordedOn(s, s2, Dispatch(s2, s2.life.lastNow.value));
      }
    }
  }

  lemma {:induction false} SameSides(s: State, r: State)
    requires r.worker == s.worker && r.classifier == s.classifier && r.peaks == s.peaks
    ensures Recorded(s, r)
  {
  }

  lemma {:induction false} BindRecorded(s: State, ticket: nat, key: string, clock: Option<real>)
    ensures Recorded(s, DoBind(s, ticket, key, clock).0)
  {
    hide ReadClock, Dispatch, Bind, Recorded;
    GrowsSelf(s);
    ClockRecorded(s, clock);
    var s1 := ReadClock(s, clock);
    if !Failed(s1) && ticket in s.held.tickets {
      var s2 := s1.(held := Bind(s.held, ticket, key));
      SameSides(s1, s2);
      RecordedOn(s, s1, s2);
      DispatchRecorded(s2, s1.life.lastNow.value);
      RecordedOn(s, s2, Dispatch(s2, s1.life.lastNow.value));
    }
  }

  lemma {:induction false} CloseWorkerRecorded(s: State, worker: nat, clock: Option<real>)
    ensures Recorded(s, DoCloseWorker(s, worker, clock).0)
  {
    hide ReadClock, Cancel, Unregister, Recorded;
    GrowsSelf(s);
    ClockRecorded(s, clock);
    var s1 := ReadClock(s, clock);
    if !Failed(s1) {
      var s2 := s1.(pool := Unregister(s1.pool, {worker}));
      SameSides(s1, s2);
      RecordedOn(s, s1, s2);
      var p := WaiterOf(s2.worker.queue, worker);
      if p < |s2.worker.queue| {
        CancelRecorded(s2, s2.worker.queue[p], s1.life.lastNow.value);
        RecordedOn(s, s2, Cancel(s2, s2.worker.queue[p], s1.life.lastNow.value));
      }
    }
  }

  lemma {:induction false} CloseRecorded(s: State, clock: Option<real>)
    ensures Recorded(s, DoClose(s, clock).0)
  {
    hide ReadClock, CancelAll, Unregister, Recorded;
    GrowsSelf(s);
    ClockRecorded(s, clock);
    var s1 := ReadClock(s, clock);
    if !Failed(s1) {
      var s2 := s1.(life := s1.life.(closed := true), pool := Unregister(s1.pool, s1.pool.registered));
      SameSides(s1, s2);
      RecordedOn(s, s1, s2);
      CancelAllRecorded(s2, s2.worker.queue + s2.classifier.queue, s1.life.lastNow.value);
      RecordedOn(s, s2, CancelAll(s2, s2.worker.queue + s2.classifier.queue, s1.life.lastNow.value));
    }
  }

  lemma {:induction false} RegisterRecorded(s: State, clock: Option<real>)
    ensures Recorded(s, DoRegister(s, clock).0)
  {
    hide ReadClock, Fail, Recorded;
    ClockRecorded(s, clock);
    var s1 := ReadClock(s, clock);
    FailTallied(s1, CounterOverflow);
    TalliedRecorded(s1, Fail(s1, CounterOverflow));
    RecordedOn(s, s1, Fail(s1, CounterOverflow));
    SameSides(s1, Register(s1));
    RecordedOn(s, s1, Register(s1));
  }

  lemma {:induction false} TalliedRecorded(s: State, r: State)
    requires Tallied(s, r)
    ensures Recorded(s, r)
  {
  }

  lemma {:induction false} AbortRecorded(s: State, w: Waiter, clock: Option<real>)
    ensures Recorded(s, DoAbort(s, w, clock).0)
  {
    hide ReadClock, Cancel, Recorded;
    GrowsSelf(s);
    ClockRecorded(s, clock);
    var s1 := ReadClock(s, clock);
    if !Failed(s1) {
      CancelRecorded(s1, w, s1.life.lastNow.value);
      RecordedOn(s, s1, Cancel(s1, w, s1.life.lastNow.value));
    }
  }

  lemma {:induction false} StepRaised(s: State, e: Event)
    ensures Raised(s, Step(s, e))
  {
    hide Raised, Recorded, DoRegister, DoBind, DoRelease, DoAbort, DoCloseWorker, DoClose;
    match e
    case RegisterWorker(clock) => RegisterRecorded(s, clock); RecordedRaised(s, Step(s, e));
    case AcquireWorker(_, _, _, _) => AcquireRaised(s, e);
    case AcquireClassifier(_, _, _) => AcquireRaised(s, e);
    case BindGroup(ticket, key, clock) => BindRecorded(s, ticket, key, clock); RecordedRaised(s, Step(s, e));
    case Release(ticket, clock) => ReleaseRecorded(s, ticket, clock); RecordedRaised(s, Step(s, e));
    case Abort(w, clock) => AbortRecorded(s, w, clock); RecordedRaised(s, Step(s, e));
    case CloseWorker(worker, clock) => CloseWorkerRecorded(s, worker, clock); RecordedRaised(s, Step(s, e));
    case Close(clock) => CloseRecorded(s, clock); RecordedRaised(s, Step(s, e));
  }

  // -------------------------------------------------------- over whole runs

  /** The longest worker queue in any state of a run, its first included. */
  function LongestQueue(s: State, events: seq<Event>): nat
    decreases |events|
  {
    if events == [] then |s.worker.queue| else Max(|s.worker.queue|, LongestQueue(Step(s, events[0]), events[1..]))
  }

  /** A classifier waits in some state of the run. */
  predicate ClassifierWaited(s: State, events: seq<Event>)
    decreases |events|
  {
    s.classifier.queue != [] || (events != [] && ClassifierWaited(Step(s, events[0]), events[1..]))
  }

  lemma {:induction false} PeakHolds(s: State)
    requires Inv(s)
    ensures |s.worker.queue| <= s.peaks.pendingWorkers
    ensures s.classifier.queue != [] ==> s.peaks.pendingClassifierGroups >= 1
  {
  }

  lemma {:induction false} PeakStep(s: State, r: State)
    requires Raised(s, r) && Inv(r)
    ensures r.peaks.pendingWorkers == Max(s.peaks.pendingWorkers, |r.worker.queue|)
    ensures r.peaks.pendingClassifierGroups == Max(s.peaks.pendingClassifierGroups, if r.classifier.queue == [] then 0 else 1)
  {
    hide Inv;
    PeakHolds(r);
  }

  lemma {:induction false} PeaksFrom(s: State, events: seq<Event>)
    requires Inv(s) && WaitsTrue(s.worker) && WaitsTrue(s.classifier) && s.peaks.pendingClassifierGroups <= 1
    ensures var r := Run(s, events);
            && r.peaks.pendingWorkers == Max(s.peaks.pendingWorkers, LongestQueue(s, events))
            && r.peaks.pendingClassifierGroups
               == (if s.peaks.pendingClassifierGroups == 1 || ClassifierWaited(s, events) then 1 else 0)
            && WaitsTrue(r.worker) && WaitsTrue(r.classifier)
    decreases |events|
  {
    hide Inv, Step, WaitsTrue, Keeps;
    PeakHolds(s);
    if events != [] {
      var r := Step(s, events[0]);
      assert Inv(r) by { StepKeeps(s, events[0]); KeepsInv(s, r); }
      StepRaised(s, events[0]);
      PeakStep(s, r);
      PeakHolds(r);
      assert WaitsTrue(r.worker) && WaitsTrue(r.classifier) by { RaisedWaits(s, r); }
      PeaksFrom(r, events[1..]);
      LongestFirst(r, events[1..]);
    }
  }

  lemma {:induction false} KeepsInv(s: State, r: State)
    requires Keeps(s, r)
    ensures Inv(r)
  {
  }

  lemma {:induction false} LongestFirst(s: State, events: seq<Event>)
    ensures LongestQueue(s, events) >= |s.worker.queue|
    ensures s.classifier.queue != [] ==> ClassifierWaited(s, events)
  {
    hide Step;
  }

  lemma {:induction false} RaisedWaits(s: State, r: State)
    requires Raised(s, r) && WaitsTrue(s.worker) && WaitsTrue(s.classifier)
    ensures WaitsTrue(r.worker) && WaitsTrue(r.classifier)
  {
  }

  /**
   After every run: the pending peaks are the longest worker queue and whether a classifier
   ever waited, and a role's longest wait is at least its last, both known once it was served.
   */
  lemma {:induction false} FiguresTrue(events: seq<Event>)
    ensures var s := Run(Initial, events);
            && s.peaks.pendingWorkers == LongestQueue(Initial, events)
            && s.peaks.pendingClassifierGroups == (if ClassifierWaited(Initial, events) then 1 else 0)
            && WaitsTrue(s.worker) && WaitsTrue(s.classifier)
  {
    hide Run, Inv, LongestQueue, ClassifierWaited;
    InitialInvariant();
    PeaksFrom(Initial, events);
  }

  /** A grant or a cancellation records how long the request waited, in whole milliseconds, and the longest so far. */
  lemma {:induction false} WaitRecorded(s: State, w: Waiter, now: real)
    requires s.life.failure.None?
    ensures var r := Grant(s, w, now);
            !Failed(r) ==>
              && SideOf(r, w.role).lastWait == Some((now - w.startedAt).Floor)
              && SideOf(r, w.role).maximumWait == Some(Longest(SideOf(s, w.role).maximumWait, (now - w.startedAt).Floor))
              && SideOf(r, w.role).grants == SideOf(s, w.role).grants + 1
    ensures var e := (now - w.startedAt).Floor;
            0 <= e <= MAX_SAFE ==>
              var side := SideOf(CountCancellation(s, w.role, e), w.role);
              && side.lastWait == Some(e) && side.maximumWait == Some(Longest(SideOf(s, w.role).maximumWait, e))
              && side.cancellations == SideOf(s, w.role).cancellations + 1
    ensures var r := Request(s, w.role, w.key, w.worker, true, now);
            !Failed(r) ==>
              SideOf(r, w.role).lastWait == Some(0) && SideOf(r, w.role).cancellations == SideOf(s, w.role).cancellations + 1
  {
    hide Without, Fail, Admit, Assign;
  }

  function Longest(was: Option<nat>, wait: int): int {
    if was.None? || was.value <= wait then wait else was.value
  }
}
