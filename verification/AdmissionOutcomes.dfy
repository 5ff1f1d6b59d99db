/** What each operation of the admission achieves, in the terms of its callers. */
module AdmissionOutcomes {
  import opened Prelude
  import opened AdmissionSpec
  import opened AdmissionInvariant
  import opened AdmissionDispatch
  import opened AdmissionRuns
  import opened AdmissionTheorems
  import opened AdmissionFates

  // ------------------------------------------- permits outlast a dispatch

  /** The request behind a permit, as far as its fate is concerned. */
  function Behind(t: nat, ticket: Ticket): Waiter {
    Waiter(t, WorkerRole, None, ticket.worker, 0.0)
  }

  ghost predicate Permit(s: State, t: nat, ticket: Ticket) {
    Lined(s) && t < s.ids.next && t in s.held.tickets && s.held.tickets[t] == ticket && Away(s, t)
  }

  lemma {:induction false} PermitServed(s: State, t: nat, ticket: Ticket)
    requires Permit(s, t, ticket)
    ensures Fate(s, Behind(t, ticket)) && Served(s, Behind(t, ticket))
  {
    hide Lined;
  }

  lemma {:induction false} RefuseHeld(s: State, waiters: seq<Waiter>, code: FailureCode)
    ensures RefuseAll(s, waiters, code).held == s.held
    decreases |waiters|
  {
    hide Without, Clear;
    if waiters != [] { RefuseHeld(Dismiss(s, waiters[0], Refused(code)), waiters[1..], code); }
  }

  lemma {:induction false} FailHeld(s: State, code: FailureCode)
    ensures Fail(s, code).held == s.held
  {
    hide RefuseAll, Unregister;
    var first := if Failed(s) then s.life.failure.value else code;
    var s1 := s.(life := s.life.(failure := Some(first), closed := true), pool := Unregister(s.pool, s.pool.registered));
    RefuseHeld(s1, s1.worker.queue + s1.classifier.queue, first);
  }

  lemma {:induction false} GrantPermit(s: State, v: Waiter, now: real, t: nat, ticket: Ticket)
    requires Permit(s, t, ticket) && !Failed(s) && v.id != t
    ensures Permit(Grant(s, v, now), t, ticket)
  {
    PermitServed(s, t, ticket);
    GrantFate(s, v, now, Behind(t, ticket));
    hide Lined, Fail, CountGrant, Without, NoId;
    FailHeld(s, InvalidClock);
    FailHeld(s, CounterOverflow);
    var e := Elapsed(now, v.startedAt);
    if e.Some? {
      CountGrantLeaves(s, v, e.value);
      AdmitTickets(s.held, v);
      if v.key.Some? {
        var s1 := CountGrant(s, v, e.value);
        FailHeld(s1.(held := s1.held.(group := Some(GroupFor(s.held, v.key.value)))), CounterOverflow);
      }
    }
  }

  lemma {:induction false} GrantAllPermit(s: State, waiters: seq<Waiter>, now: real, t: nat, ticket: Ticket)
    requires Permit(s, t, ticket) && NoId(waiters, t)
    ensures Permit(GrantAll(s, waiters, now), t, ticket)
    decreases |waiters|
  {
    hide Permit, Grant;
    if waiters != [] && !Failed(s) {
      assert waiters[0] in waiters;
      GrantPermit(s, waiters[0], now, t, ticket);
      GrantAllPermit(Grant(s, waiters[0], now), waiters[1..], now, t, ticket);
    }
  }

  lemma {:induction false} JoinAllPermit(s: State, waiters: seq<Waiter>, now: real, t: nat, ticket: Ticket)
    requires Permit(s, t, ticket) && NoId(waiters, t)
    ensures Permit(JoinAll(s, waiters, now), t, ticket)
    decreases |waiters|
  {
    hide Permit, Grant;
    if waiters != [] && !Failed(s) && s.held.group.Some? {
      assert waiters[0] in waiters;
      GrantPermit(s, waiters[0], now, t, ticket);
      JoinAllPermit(Grant(s, waiters[0], now), waiters[1..], now, t, ticket);
      JoinAllPermit(s, waiters[1..], now, t, ticket);
    }
  }

  lemma {:induction false} PermitAway(s: State, t: nat, ticket: Ticket)
    requires Permit(s, t, ticket)
    ensures NoId(s.worker.queue, t) && NoId(s.classifier.queue, t)
    ensures s.worker.queue != [] ==> s.worker.queue[0].id != t
  {
    hide Lined;
    if s.worker.queue != [] { assert s.worker.queue[0] in s.worker.queue; }
  }

  lemma {:induction false} JoinsPermit(s: State, now: real, t: nat, ticket: Ticket)
    requires Permit(s, t, ticket)
    ensures Permit(DispatchJoins(s, now), t, ticket)
  {
    hide Permit, JoinAll, GrantAll, NoId;
    PermitAway(s, t, ticket);
    JoinAllPermit(s, s.worker.queue, now, t, ticket);
    var s1 := JoinAll(s, s.worker.queue, now);
    PermitAway(s1, t, ticket);
    GrantAllPermit(s1, s1.classifier.queue, now, t, ticket);
  }

  lemma {:induction false} DispatchPermit(s: State, now: real, t: nat, ticket: Ticket)
    requires Permit(s, t, ticket) && !Failed(s)
    ensures Permit(Dispatch(s, now), t, ticket)
  {
    var s1 := TakeTurn(s);
    assert Permit(s1, t, ticket) by { SameLined(s, s1); hide Lined; }
    hide Permit, DispatchJoins, GrantAll, Grant, NoId;
    JoinsPermit(s, now, t, ticket);
    PermitAway(s1, t, ticket);
    if s.worker.queue != [] { GrantPermit(s1, s1.worker.queue[0], now, t, ticket); }
    GrantAllPermit(s1, s1.classifier.queue, now, t, ticket);
    JoinsPermit(DispatchFresh(s, now), now, t, ticket);
  }

  // -------------------------------------------------------- bind and release

  lemma {:induction false} InvPermit(s: State, t: nat)
    requires Inv(s) && !Failed(s) && t in s.held.tickets
    ensures Permit(s, t, s.held.tickets[t])
  {
    InvLined(s);
    assert forall v :: v in s.worker.queue ==> v.id !in s.held.tickets;
    assert forall v :: v in s.classifier.queue ==> v.id !in s.held.tickets;
  }

  lemma {:induction false} TicketOnly(s: State, r: State, t: nat, ticket: Ticket, ticket': Ticket)
    requires Permit(s, t, ticket) && r == s.(held := r.held, pool := r.pool, life := r.life)
    requires r.held.tickets == s.held.tickets[t := ticket']
    ensures Permit(r, t, ticket')
  {
    SameLined(s, r);
    hide Lined;
  }

  /**
   A bind that is answered leaves a group of the caller's key, held by the caller's
   permit, and nobody waiting for that key.
   */
  lemma {:induction false} BindDone(s: State, t: nat, key: string, clock: Option<real>)
    requires Inv(s) && DoBind(s, t, key, clock).1 == Done
    ensures var r := DoBind(s, t, key, clock).0;
            && r.held.group.Some? && r.held.group.value.key == key && t in r.held.group.value.references
            && t in r.held.tickets && r.held.tickets[t].state.Bound? && r.held.tickets[t].key == Some(key)
            && NoKey(r.worker.queue, key) && NoKey(r.classifier.queue, key)
  {
    StepKeeps(s, BindGroup(t, key, clock));
    ClockHeld(s, clock);
    InvPermit(s, t);
    var s1 := ReadClock(s, clock);
    var s2 := s1.(held := Bind(s.held, t, key));
    var ticket := s.held.tickets[t].(state := Bound, key := Some(key));
    TicketOnly(s, s2, t, s.held.tickets[t], ticket);
    var r := DoBind(s, t, key, clock).0;
    hide ReadClock, Permit, Inv, Keeps;
    DispatchPermit(s2, s1.life.lastNow.value, t, ticket);
    BoundGroup(r, t, ticket);
  }

  lemma {:induction false} BoundGroup(r: State, t: nat, ticket: Ticket)
    requires Inv(r) && !Failed(r) && Permit(r, t, ticket) && ticket.state.Bound? && ticket.key.Some?
    ensures r.held.group.Some? && r.held.group.value.key == ticket.key.value && t in r.held.group.value.references
    ensures NoKey(r.worker.queue, ticket.key.value) && NoKey(r.classifier.queue, ticket.key.value)
    ensures t in r.held.tickets && r.held.tickets[t] == ticket
  {
    hide QueuesOk, OwnersOk, BooksOk, Lined, NoKey;
  }

  /** Exactly the reservation may be bound, to a non-empty key. */
  lemma {:induction false} BindAccepted(s: State, t: nat, key: string, clock: Option<real>)
    requires Inv(s) && !Failed(s)
    ensures DoBind(s, t, key, clock).1 == ErrInvalidPermit <==> s.held.unbound != Some(t)
    ensures s.held.unbound == Some(t) ==> (DoBind(s, t, key, clock).1 == ErrInvalidKey <==> key == "")
  {
    hide ReadClock, Dispatch, QueuesOk, OwnersOk, BooksOk;
  }

  /** A release always releases, and takes its permit out of the group or the reservation. */
  lemma {:induction false} ReleaseDone(s: State, t: nat, clock: Option<real>)
    requires Inv(s) && t in s.held.tickets
    ensures var r := DoRelease(s, t, clock).0;
            && t in r.held.tickets && r.held.tickets[t] == s.held.tickets[t].(state := Released)
            && r.held.unbound != Some(t) && (r.held.group.Some? ==> t !in r.held.group.value.references)
  {
    StepKeeps(s, Release(t, clock));
    var r := DoRelease(s, t, clock).0;
    ReleasedTicket(s, t, clock);
    hide DoRelease, Keeps;
    assert HeldOk(r.held) by { hide HeldOk, QueuesOk, OwnersOk, BooksOk; }
  }

  lemma {:induction false} ReleasedTicket(s: State, t: nat, clock: Option<real>)
    requires Inv(s) && t in s.held.tickets
    ensures var r := DoRelease(s, t, clock).0;
            t in r.held.tickets && r.held.tickets[t] == s.held.tickets[t].(state := Released)
  {
    if s.held.tickets[t].state != Released {
      var s1 := s.(held := Detach(s.held, t), pool := Clear(s.pool, s.held.tickets[t].worker, Holding(t)));
      var ticket := s.held.tickets[t].(state := Released);
      assert s1.held.tickets == s.held.tickets[t := ticket];
      if !s1.life.closed {
        assert !Failed(s) by { OpenFine(s); }
        InvPermit(s, t);
        TicketOnly(s, s1, t, s.held.tickets[t], ticket);
        ClockHeld(s1, clock);
        FailHeld(s1, InvalidClock);
        hide Inv, Dispatch, Fail;
        var s2 := ReadClock(s1, clock);
        if !Failed(s2) {
          assert Permit(s2, t, ticket) by { SameLined(s1, s2); hide Lined; }
          DispatchPermit(s2, s2.life.lastNow.value, t, ticket);
        }
      }
    }
  }

  lemma {:induction false} OpenFine(s: State)
    requires Inv(s) && !s.life.closed
    ensures !Failed(s)
  {
  }

  // ------------------------------------------------- cancelling and closing

  lemma {:induction false} QueuedFate(s: State, w: Waiter)
    requires Inv(s) && !Failed(s) && w in SideOf(s, w.role).queue
    ensures Fate(s, w) && Waits(s, w) && w.id !in s.ids.settled
  {
    InvLined(s);
    forall u | u in s.worker.queue + s.classifier.queue && u.id == w.id ensures u == w {
      SameWaiter(SideOf(s, w.role).queue, u, w);
    }
  }

  lemma {:induction false} CancelEnds(s: State, w: Waiter, now: real)
    requires Fate(s, w) && Waits(s, w) && !Failed(s) && !Failed(Cancel(s, w, now))
    ensures TurnedAway(Cancel(s, w, now), w) && Ending(Cancel(s, w, now), w.id) == Some(Cancelled)
  {
    var q := SideOf(s, w.role).queue;
    assert Queued(q, w.id) by { var i :| 0 <= i < |q| && q[i] == w; }
    var e := Elapsed(now, w.startedAt);
    var s1 := CountCancellation(s, w.role, e.value);
    UnchangedFate(s, s1, w);
    DismissFate(s1, w, Cancelled, w);
    var s2 := Dismiss(s1, w, Cancelled);
    assert Ending(s2, w.id) == Some(Cancelled) && !Failed(s2) by { hide Without, Clear; }
    RemovedQueues(s1, w, s2, w);
    hide Dispatch, Dismiss, CountCancellation, Lined, Without, Only, NoId;
    DispatchFate(s2, now, w);
  }

  /** An abort of a waiting request cancels it. */
  lemma {:induction false} AbortDone(s: State, w: Waiter, clock: Option<real>)
    requires Inv(s) && !Failed(s) && w in SideOf(s, w.role).queue
    ensures var r := DoAbort(s, w, clock).0;
            !Failed(r) ==> TurnedAway(r, w) && Ending(r, w.id) == Some(Cancelled)
  {
    hide Inv, ReadClock, Cancel, Fate, Waits, TurnedAway;
    QueuedFate(s, w);
    ClockHeld(s, clock);
    var s1 := ReadClock(s, clock);
    if !Failed(s1) {
      assert Fate(s1, w) && Waits(s1, w) by { UnchangedFate(s, s1, w); }
      if !Failed(Cancel(s1, w, s1.life.lastNow.value)) { CancelEnds(s1, w, s1.life.lastNow.value); }
    }
  }

  /** Workers are only ever unregistered by what an operation sets off. */
  predicate Narrows(s: State, r: State) {
    r.pool.registered <= s.pool.registered
  }

  lemma {:induction false} RefuseNarrows(s: State, waiters: seq<Waiter>, code: FailureCode)
    ensures Narrows(s, RefuseAll(s, waiters, code))
    decreases |waiters|
  {
    hide Without;
    if waiters != [] { RefuseNarrows(Dismiss(s, waiters[0], Refused(code)), waiters[1..], code); }
  }

  lemma {:induction false} FailNarrows(s: State, code: FailureCode)
    ensures Narrows(s, Fail(s, code))
  {
    hide RefuseAll;
    var first := if Failed(s) then s.life.failure.value else code;
    var s1 := s.(life := s.life.(failure := Some(first), closed := true), pool := Unregister(s.pool, s.pool.registered));
    RefuseNarrows(s1, s1.worker.queue + s1.classifier.queue, first);
  }

  lemma {:induction false} GrantNarrows(s: State, v: Waiter, now: real)
    ensures Narrows(s, Grant(s, v, now))
  {
    hide Without, Fail, Admit;
    FailNarrows(s, InvalidClock);
    FailNarrows(s, CounterOverflow);
    var e := Elapsed(now, v.startedAt);
    if e.Some? && v.key.Some? {
      var s1 := CountGrant(s, v, e.value);
      FailNarrows(s1.(held := s1.held.(group := Some(GroupFor(s.held, v.key.value)))), CounterOverflow);
    }
  }

  lemma {:induction false} GrantAllNarrows(s: State, waiters: seq<Waiter>, now: real)
    ensures Narrows(s, GrantAll(s, waiters, now)) && Narrows(s, JoinAll(s, waiters, now))
    decreases |waiters|
  {
    hide Grant;
    if waiters != [] {
      GrantNarrows(s, waiters[0], now);
      GrantAllNarrows(Grant(s, waiters[0], now), waiters[1..], now);
      GrantAllNarrows(s, waiters[1..], now);
    }
  }

  lemma {:induction false} DispatchNarrows(s: State, now: real)
    ensures Narrows(s, Dispatch(s, now)) && Narrows(s, DispatchJoins(s, now))
  {
    hide Grant, GrantAll, JoinAll;
    GrantAllNarrows(s, s.worker.queue, now);
    var s1 := JoinAll(s, s.worker.queue, now);
    GrantAllNarrows(s1, s1.classifier.queue, now);
    var s2 := TakeTurn(s);
    GrantAllNarrows(s2, s2.classifier.queue, now);
    if s.worker.queue != [] { GrantNarrows(s2, s.worker.queue[0], now); }
    var s3 := DispatchFresh(s, now);
    GrantAllNarrows(s3, s3.worker.queue, now);
    var s4 := JoinAll(s3, s3.worker.queue, now);
    GrantAllNarrows(s4, s4.classifier.queue, now);
  }

  lemma {:induction false} CancelNarrows(s: State, v: Waiter, now: real)
    ensures Narrows(s, Cancel(s, v, now))
  {
    hide Without, Fail, Dispatch;
    FailNarrows(s, InvalidClock);
    FailNarrows(s, CounterOverflow);
    var e := Elapsed(now, v.startedAt);
    if e.Some? { DispatchNarrows(Dismiss(CountCancellation(s, v.role, e.value), v, Cancelled), now); }
  }

  /** Closing a worker closes it for good and cancels its waiting request. */
  lemma {:induction false} CloseWorkerDone(s: State, worker: nat, clock: Option<real>)
    requires Inv(s) && !Failed(s) && worker in s.pool.workers && s.pool.workers[worker].open
    ensures var r := DoCloseWorker(s, worker, clock).0;
            !Failed(r) ==>
              && (worker in r.pool.workers ==> !r.pool.workers[worker].open)
              && forall w :: w in s.worker.queue && w.worker == Some(worker) ==>
                   TurnedAway(r, w) && Ending(r, w.id) == Some(Cancelled)
  {
    hide Inv, DoCloseWorker, TurnedAway;
    StepKeeps(s, CloseWorker(worker, clock));
    var r := DoCloseWorker(s, worker, clock).0;
    if !Failed(r) {
      CloseWorkerPool(s, worker, clock);
      ClosedRegistry(r, worker);
      forall w | w in s.worker.queue && w.worker == Some(worker)
        ensures TurnedAway(r, w) && Ending(r, w.id) == Some(Cancelled)
      {
        CloseWorkerWaiter(s, worker, clock, w);
      }
    }
  }

  lemma {:induction false} CloseWorkerPool(s: State, worker: nat, clock: Option<real>)
    requires worker in s.pool.workers && s.pool.workers[worker].open && !Failed(DoCloseWorker(s, worker, clock).0)
    ensures worker !in DoCloseWorker(s, worker, clock).0.pool.registered
  {
    hide ReadClock, Cancel;
    ClockHeld(s, clock);
    var s1 := ReadClock(s, clock);
    var s2 := s1.(pool := Unregister(s1.pool, {worker}));
    var p := WaiterOf(s2.worker.queue, worker);
    if p < |s2.worker.queue| && !Failed(s1) { CancelNarrows(s2, s2.worker.queue[p], s1.life.lastNow.value); }
  }

  lemma {:induction false} CloseWorkerWaiter(s: State, worker: nat, clock: Option<real>, w: Waiter)
    requires Inv(s) && !Failed(s) && worker in s.pool.workers && s.pool.workers[worker].open
    requires !Failed(DoCloseWorker(s, worker, clock).0) && w in s.worker.queue && w.worker == Some(worker)
    ensures var r := DoCloseWorker(s, worker, clock).0; TurnedAway(r, w) && Ending(r, w.id) == Some(Cancelled)
  {
    hide Inv, ReadClock, Cancel, Fate, Waits, Served, TurnedAway, Unregister;
    ClockHeld(s, clock);
    var s1 := ReadClock(s, clock);
    var s2 := s1.(pool := Unregister(s1.pool, {worker}));
    FirstOfWorker(s, w, worker);
    QueuedFate(s, w);
    UnchangedFate(s, s2, w);
    CancelEnds(s2, w, s1.life.lastNow.value);
  }

  lemma {:induction false} ClosedRegistry(r: State, worker: nat)
    requires Inv(r) && !Failed(r) && worker !in r.pool.registered
    ensures worker in r.pool.workers ==> !r.pool.workers[worker].open
  {
    hide QueuesOk, OwnersOk, HeldOk;
  }

  lemma {:induction false} FirstOfWorker(s: State, w: Waiter, worker: nat)
    requires Inv(s) && !Failed(s) && w in s.worker.queue && w.worker == Some(worker)
    ensures w.role == WorkerRole
    ensures var p := WaiterOf(s.worker.queue, worker); p < |s.worker.queue| && s.worker.queue[p] == w
  {
    hide HeldOk, BooksOk;
    var p := WaiterOf(s.worker.queue, worker);
    var i :| 0 <= i < |s.worker.queue| && s.worker.queue[i] == w;
    assert s.worker.queue[p] in s.worker.queue;
    SameWaiter(s.worker.queue, s.worker.queue[p], w);
  }

  lemma {:induction false} ClosedHeld(s: State, waiters: seq<Waiter>, now: real)
    requires s.life.closed
    ensures CancelAll(s, waiters, now).held == s.held && CancelAll(s, waiters, now).life.closed
    decreases |waiters|
  {
    if waiters != [] && !Failed(s) {
      ClosedCancelHeld(s, waiters[0], now);
      hide Cancel;
      ClosedHeld(Cancel(s, waiters[0], now), waiters[1..], now);
    }
  }

  lemma {:induction false} ClosedCancelHeld(s: State, v: Waiter, now: real)
    requires s.life.closed
    ensures Cancel(s, v, now).held == s.held && Cancel(s, v, now).life.closed
  {
    FailHeld(s, InvalidClock);
    FailHeld(s, CounterOverflow);
    FailClosed(s, InvalidClock);
    FailClosed(s, CounterOverflow);
    hide Without, Fail, Clear;
  }

  lemma {:induction false} FailClosed(s: State, code: FailureCode)
    ensures Fail(s, code).life.closed
  {
    hide RefuseAll, Unregister;
  }

  /** Closing refuses nobody a permit already given and turns away everyone who waits. */
  lemma {:induction false} CloseDone(s: State, clock: Option<real>)
    requires Inv(s) && !Failed(s) && !s.life.closed
    ensures var r := DoClose(s, clock).0;
            !Failed(r) ==>
              && r.life.closed && r.held == s.held && r.worker.queue == [] && r.classifier.queue == []
              && forall w: Waiter :: w in SideOf(s, w.role).queue ==> TurnedAway(r, w)
  {
    hide Inv, DoClose, TurnedAway;
    StepKeeps(s, Close(clock));
    var r := DoClose(s, clock).0;
    if !Failed(r) {
      CloseHeld(s, clock);
      ClosedQueues(r);
      forall w: Waiter | w in SideOf(s, w.role).queue ensures TurnedAway(r, w) { CloseWaiter(s, clock, w); }
    }
  }

  lemma {:induction false} CloseHeld(s: State, clock: Option<real>)
    requires !s.life.closed && !Failed(DoClose(s, clock).0)
    ensures var r := DoClose(s, clock).0; r.life.closed && r.held == s.held
  {
    hide ReadClock, CancelAll, Unregister;
    ClockHeld(s, clock);
    var s1 := ReadClock(s, clock);
    if !Failed(s1) {
      var s2 := s1.(life := s1.life.(closed := true), pool := Unregister(s1.pool, s1.pool.registered));
      ClosedHeld(s2, s2.worker.queue + s2.classifier.queue, s1.life.lastNow.value);
    }
  }

  lemma {:induction false} ClosedQueues(s: State)
    requires Inv(s) && s.life.closed
    ensures s.worker.queue == [] && s.classifier.queue == []
  {
    hide Core, PeaksOk;
  }

  lemma {:induction false} CloseWaiter(s: State, clock: Option<real>, w: Waiter)
    requires Inv(s) && !Failed(s) && !s.life.closed && w in SideOf(s, w.role).queue
    requires var r := DoClose(s, clock).0; !Failed(r) && r.worker.queue == [] && r.classifier.queue == [] && r.held == s.held
    ensures TurnedAway(DoClose(s, clock).0, w)
  {
    hide Inv, DoClose, Lined;
    QueuedFate(s, w);
    CloseFates(s, 0, clock, w);
  }

  // ------------------------------------------------------- new requests

  /** Registration hands out a new, open, idle worker, unless closed or failed. */
  lemma {:induction false} RegisterDone(s: State, clock: Option<real>)
    requires Inv(s) && !Failed(s)
    ensures var (r, reply) := DoRegister(s, clock);
            && (reply.Handle? <==> !Failed(r) && !s.life.closed)
            && (reply.Handle? ==>
                  && reply.worker !in s.pool.workers && reply.worker in r.pool.workers && reply.worker in r.pool.registered
                  && r.pool.workers[reply.worker] == WorkerEntry(true, Outstanding.Idle))
  {
    ClockHeld(s, clock);
    hide ReadClock, Fail, QueuesOk, OwnersOk, HeldOk;
  }

  /** A worker's request is accepted exactly when it is open, idle, and asks for a proper group or none. */
  lemma {:induction false} WorkerAccepted(s: State, worker: nat, key: Option<string>, aborted: bool, clock: Option<real>)
    requires !Failed(s)
    ensures var (r, reply) := DoAcquireWorker(s, worker, key, aborted, clock);
            !Failed(r) ==>
              (reply == Promise(s.ids.next) <==>
               && !s.life.closed && worker in s.pool.workers && s.pool.workers[worker].open && key != Some("")
               && s.pool.workers[worker].outstanding == Outstanding.Idle && !aborted)
              && (s.life.closed || worker !in s.pool.workers || !s.pool.workers[worker].open ==> reply == Null)
              && (reply == ErrWorkerOutstanding ==> s.pool.workers[worker].outstanding != Outstanding.Idle)
              && ((reply.Null? && !aborted) || reply == ErrInvalidKey || reply == ErrWorkerOutstanding ==> r == s.(life := r.life))
  {
    ClockHeld(s, clock);
    hide ReadClock, Request;
  }

  /** A classifier's request is accepted exactly when its group is active or nobody waits for another one. */
  lemma {:induction false} ClassifierAccepted(s: State, key: string, aborted: bool, clock: Option<real>)
    requires Inv(s) && !Failed(s)
    ensures var (r, reply) := DoAcquireClassifier(s, key, aborted, clock);
            !Failed(r) ==>
              (reply == Promise(s.ids.next) <==>
               && !s.life.closed && key != "" && !aborted
               && (HasGroup(s, key) || forall w :: w in s.classifier.queue ==> w.key == Some(key)))
              && (s.life.closed ==> reply == Null)
              && ((reply.Null? && !aborted) || reply == ErrInvalidKey || reply == ErrPendingGroupConflict ==> r == s.(life := r.life))
  {
    ClockHeld(s, clock);
    hide ReadClock, Request, Core;
    if s.classifier.queue != [] { assert s.classifier.queue[0] in s.classifier.queue; }
  }

  /** Whoever asks for the active group's key joins it at once. */
  lemma {:induction false} JoinsAtOnce(s: State, w: Waiter)
    requires Inv(s) && !Failed(s) && w.id == s.ids.next && w.key.Some? && HasGroup(s, w.key.value)
    ensures var r := Request(s, w.role, w.key, w.worker, false, w.startedAt);
            !Failed(r) ==> Served(r, w)
  {
    hide Inv, Lined, Grant, Enqueue, Raise, Waits, Served, Fate;
    InvLined(s);
    NewWaits(s, w);
    EnqueueLife(s, w);
    assert Enqueue(s, w).held == s.held by { EnqueueHeld(s, w); }
    GrantFate(Enqueue(s, w), w, w.startedAt, w);
    RaisedFate(Grant(Enqueue(s, w), w, w.startedAt), w);
  }

  lemma {:induction false} EnqueueHeld(s: State, w: Waiter)
    ensures Enqueue(s, w).held == s.held
  {
    hide Assign;
  }
}
