/**
 The hydration group admission as the object that updates its fields in place.
 Related private fields of the source are kept together in one record field each.
 */
module HydrationGroupAdmission {
  import opened Prelude
  import opened AdmissionSpec

  class Admission {
    var pool: Pool
    var worker: Side
    var classifier: Side
    var held: Held
    var turn: Turn
    var life: Life
    var peaks: Peaks
    var ids: Ids

    /** The abstract state these fields stand for. */
    ghost function Model(): State
      reads this
    {
      State(pool, worker, classifier, held, turn, life, peaks, ids)
    }

    constructor ()
      ensures Model() == Initial
    {
      pool := Pool(map[], {});
      worker, classifier := Side([], 0, 0, None, None, 0), Side([], 0, 0, None, None, 0);
      held := Held(None, None, map[]);
      turn := Turn(WorkerRole, 0, 0);
      life := Life(None, None, false);
      peaks := Peaks(0, 0, 0);
      ids := Ids(0, map[]);
    }

    /** Splices the waiter out of its role's queue. */
    method RemoveWaiter(w: Waiter)
      modifies this`worker, this`classifier
      ensures var s := old(Model()); var side := SideOf(s, w.role);
              Model() == WithSide(s, w.role, side.(queue := Without(side.queue, w.id)))
    {
      var queue := if w.role.WorkerRole? then worker.queue else classifier.queue;
      var index := 0;
      while index < |queue| && queue[index].id != w.id
        invariant 0 <= index <= |queue|
        invariant forall i :: 0 <= i < index ==> queue[i].id != w.id
      {
        index := index + 1;
      }
      if index < |queue| {
        queue := queue[..index] + queue[index + 1..];
      }
      if w.role.WorkerRole? { worker := worker.(queue := queue); } else { classifier := classifier.(queue := queue); }
    }

    /** Takes a waiter out of its queue and settles its promise. */
    method DismissWaiter(w: Waiter, how: Settlement)
      modifies this`worker, this`classifier, this`pool, this`ids
      ensures Model() == Dismiss(old(Model()), w, how)
    {
      RemoveWaiter(w);
      if w.worker.Some? && w.worker.value in pool.workers && pool.workers[w.worker.value].outstanding == Waiting(w.id) {
        pool := pool.(workers := pool.workers[w.worker.value := pool.workers[w.worker.value].(outstanding := Idle)]);
      }
      ids := ids.(settled := ids.settled[w.id := how]);
    }

    method CloseWorkers(which: set<nat>)
      modifies this`pool
      ensures Model() == old(Model()).(pool := Unregister(old(pool), which))
    {
      pool := Pool(map w | w in pool.workers :: if w in which then pool.workers[w].(open := false) else pool.workers[w],
                   pool.registered - which);
    }

    /** Fails closed: every worker closes and every waiter is refused with the first failure. */
    method Fail(code: FailureCode)
      modifies this
      ensures Model() == AdmissionSpec.Fail(old(Model()), code)
    {
      hide Dismiss, Unregister;
      if life.failure.None? { life := life.(failure := Some(code)); }
      var first := life.failure.value;
      life := life.(closed := true);
      CloseWorkers(pool.registered);
      var waiters := worker.queue + classifier.queue;
      ghost var goal := RefuseAll(Model(), waiters, first);
      var i := 0;
      while i < |waiters|
        invariant 0 <= i <= |waiters|
        invariant RefuseAll(Model(), waiters[i..], first) == goal
      {
        DismissWaiter(waiters[i], Refused(first));
        assert waiters[i..][1..] == waiters[i + 1..];
        i := i + 1;
      }
    }

    method ReadClock(sample: Option<real>) returns (ok: bool)
      modifies this
      ensures Model() == AdmissionSpec.ReadClock(old(Model()), sample)
      ensures ok <==> !Failed(Model())
    {
      hide AdmissionSpec.Fail;
      if life.failure.Some? { return false; }
      if sample.None? || (life.lastNow.Some? && sample.value < life.lastNow.value) {
        Fail(InvalidClock);
        return false;
      }
      life := life.(lastNow := sample);
      return true;
    }

    /** Counts a grant and takes its waiter out of the queue; refuses to count past 2^53 - 1. */
    method RecordGrant(w: Waiter, elapsed: nat) returns (ok: bool)
      modifies this
      ensures ok <==> CanIncrement(SideOf(old(Model()), w.role).grants)
      ensures ok ==> Model() == CountGrant(old(Model()), w, elapsed)
      ensures !ok ==> Model() == AdmissionSpec.Fail(old(Model()), CounterOverflow)
    {
      hide AdmissionSpec.Fail, Without;
      var side := if w.role.WorkerRole? then worker else classifier;
      if side.grants >= MAX_SAFE {
        Fail(CounterOverflow);
        return false;
      }
      side := side.(grants := side.grants + 1, lastWait := Some(elapsed),
                    maximumWait := Some(if side.maximumWait.Some? && side.maximumWait.value > elapsed
                                        then side.maximumWait.value else elapsed));
      if w.role.WorkerRole? { worker := side; } else { classifier := side; }
      RemoveWaiter(w);
      if w.worker.Some? && w.worker.value in pool.workers {
        pool := pool.(workers := pool.workers[w.worker.value := pool.workers[w.worker.value].(outstanding := Holding(w.id))]);
      }
      return true;
    }

    /** Installs ownership synchronously: the reservation, or a reference to the group. */
    method Install(w: Waiter) returns (ok: bool)
      modifies this
      ensures var s := old(Model());
              && ok == !(w.key.Some? && !CanIncrement(|GroupFor(s.held, w.key.value).references|))
              && Model() == (if ok then s.(held := Admit(s.held, w), peaks := s.peaks.(admitted := 1),
                                           ids := s.ids.(settled := s.ids.settled[w.id := Granted]))
                             else AdmissionSpec.Fail(s.(held := s.held.(group := Some(GroupFor(s.held, w.key.value)))),
                                                     CounterOverflow))
    {
      hide AdmissionSpec.Fail;
      if w.key.None? {
        held := held.(unbound := Some(w.id), tickets := held.tickets[w.id := Ticket(Unbound, w.worker, None)]);
      } else {
        if held.group.None? { held := held.(group := Some(Group(w.key.value, {}))); }
        var g := held.group.value;
        if |g.references| >= MAX_SAFE {
          Fail(CounterOverflow);
          return false;
        }
        held := held.(group := Some(g.(references := g.references + {w.id})),
                      tickets := held.tickets[w.id := Ticket(Bound, w.worker, w.key)]);
      }
      peaks := peaks.(admitted := 1);
      ids := ids.(settled := ids.settled[w.id := Granted]);
      return true;
    }

    method Grant(w: Waiter, now: real) returns (ok: bool)
      requires !Failed(Model())
      modifies this
      ensures Model() == AdmissionSpec.Grant(old(Model()), w, now)
      ensures ok <==> !Failed(Model())
    {
      hide AdmissionSpec.Fail, CountGrant, Admit;
      var elapsed := Elapsed(now, w.startedAt);
      if elapsed.None? {
        Fail(InvalidClock);
        return false;
      }
      CountGrantFrame(old(Model()), w, elapsed.value);
      ok := RecordGrant(w, elapsed.value);
      if ok {
        ok := Install(w);
      }
    }

    /** Grants a snapshot of waiters, stopping at a failure. */
    method GrantEach(waiters: seq<Waiter>, now: real)
      modifies this
      ensures Model() == GrantAll(old(Model()), waiters, now)
    {
      hide AdmissionSpec.Grant;
      var i := 0;
      while i < |waiters| && life.failure.None?
        invariant 0 <= i <= |waiters|
        invariant GrantAll(Model(), waiters[i..], now) == GrantAll(old(Model()), waiters, now)
      {
        assert waiters[i..][1..] == waiters[i + 1..];
        var _ := Grant(waiters[i], now);
        i := i + 1;
      }
    }

    /** Same-group consumers are references, not another admission or a fairness turn. */
    method JoinEach(waiters: seq<Waiter>, now: real)
      modifies this
      ensures Model() == JoinAll(old(Model()), waiters, now)
    {
      hide AdmissionSpec.Grant;
      var i := 0;
      while i < |waiters| && life.failure.None? && held.group.Some?
        invariant 0 <= i <= |waiters|
        invariant JoinAll(Model(), waiters[i..], now) == JoinAll(old(Model()), waiters, now)
      {
        assert waiters[i..][1..] == waiters[i + 1..];
        if waiters[i].key == Some(held.group.value.key) {
          var _ := Grant(waiters[i], now);
        }
        i := i + 1;
      }
    }

    method DispatchGroup(now: real)
      modifies this
      ensures Model() == DispatchJoins(old(Model()), now)
    {
      hide JoinAll, GrantAll;
      JoinEach(worker.queue, now);
      if life.failure.None? && held.group.Some? {
        if classifier.queue != [] && classifier.queue[0].key == Some(held.group.value.key) {
          GrantEach(classifier.queue, now);
        }
      }
    }

    method Dispatch(now: real)
      requires !Failed(Model())
      modifies this
      ensures Model() == AdmissionSpec.Dispatch(old(Model()), now)
    {
      hide AdmissionSpec.Grant, GrantAll, DispatchJoins;
      if life.closed || held.unbound.Some? { return; }
      if held.group.Some? {
        DispatchGroup(now);
        return;
      }
      if worker.queue == [] && classifier.queue == [] { return; }
      var contested := worker.queue != [] && classifier.queue != [];
      var role := if contested then turn.next else if worker.queue != [] then WorkerRole else ClassifierRole;
      if contested { turn := turn.(next := if role.WorkerRole? then ClassifierRole else WorkerRole); }
      if role.WorkerRole? && worker.queue != [] {
        turn := turn.(freshWorkers := turn.freshWorkers + 1);
        assert Model() == TakeTurn(old(Model()));
        var _ := Grant(worker.queue[0], now);
      } else {
        turn := turn.(freshClassifiers := turn.freshClassifiers + 1);
        assert Model() == TakeTurn(old(Model()));
        GrantEach(classifier.queue, now);
      }
      if !life.closed && held.unbound.None? {
        DispatchGroup(now);
      }
    }

    method Cancel(w: Waiter, now: real)
      requires !Failed(Model())
      modifies this
      ensures Model() == AdmissionSpec.Cancel(old(Model()), w, now)
    {
      hide AdmissionSpec.Fail, AdmissionSpec.Dispatch, Dismiss;
      var side := if w.role.WorkerRole? then worker else classifier;
      if Position(side.queue, w.id) == |side.queue| { return; }
      var elapsed := Elapsed(now, w.startedAt);
      if elapsed.None? {
        Fail(InvalidClock);
      } else if side.cancellations >= MAX_SAFE {
        Fail(CounterOverflow);
      } else {
        side := Waited(side.(cancellations := side.cancellations + 1), elapsed.value);
        if w.role.WorkerRole? { worker := side; } else { classifier := side; }
        DismissFrame(Model(), w, Cancelled);
        DismissWaiter(w, Cancelled);
        Dispatch(now);
      }
    }

    /** One request: recorded as cancelled if already aborted, else queued and joined or dispatched. */
    method Request(role: Role, key: Option<string>, requester: Option<nat>, aborted: bool, now: real) returns (id: nat)
      requires !Failed(Model())
      modifies this
      ensures Model() == AdmissionSpec.Request(old(Model()), role, key, requester, aborted, now)
      ensures id == old(ids.next)
    {
      hide AdmissionSpec.Fail, AdmissionSpec.Dispatch, AdmissionSpec.Grant;
      id := ids.next;
      var side := if role.WorkerRole? then worker else classifier;
      var counted := side.(requests := side.requests + 1);
      if aborted {
        if role.WorkerRole? { worker := counted; } else { classifier := counted; }
        if counted.cancellations >= MAX_SAFE {
          Fail(CounterOverflow);
        } else {
          counted := Waited(counted.(cancellations := counted.cancellations + 1), 0);
          if role.WorkerRole? { worker := counted; } else { classifier := counted; }
        }
        return;
      }
      var w := Waiter(id, role, key, requester, now);
      ids := ids.(next := ids.next + 1);
      if requester.Some? && requester.value in pool.workers {
        pool := pool.(workers := pool.workers[requester.value := pool.workers[requester.value].(outstanding := Waiting(id))]);
      }
      counted := counted.(queue := counted.queue + [w]);
      if role.WorkerRole? { worker := counted; } else { classifier := counted; }
      assert Model() == Enqueue(old(Model()), w);
      if key.Some? && held.group.Some? && held.group.value.key == key.value {
        var _ := Grant(w, now);
      } else {
        Dispatch(now);
      }
      if life.failure.None? {
        peaks := peaks.(pendingWorkers := Max(peaks.pendingWorkers, |worker.queue|),
                        pendingClassifierGroups := Max(peaks.pendingClassifierGroups, if classifier.queue == [] then 0 else 1));
      }
    }

    method RegisterWorker(clock: Option<real>) returns (reply: Reply)
      modifies this
      ensures (Model(), reply) == DoRegister(old(Model()), clock)
    {
      hide AdmissionSpec.Fail, AdmissionSpec.ReadClock;
      var ok := ReadClock(clock);
      if !ok { return FailedClosed; }
      if life.closed { return ErrClosed; }
      if |pool.registered| >= MAX_SAFE {
        Fail(CounterOverflow);
        return FailedClosed;
      }
      reply := Handle(ids.next);
      pool := Pool(pool.workers[ids.next := WorkerEntry(true, Idle)], pool.registered + {ids.next});
      ids := ids.(next := ids.next + 1);
    }

    method AcquireWorker(handle: nat, key: Option<string>, aborted: bool, clock: Option<real>) returns (reply: Reply)
      modifies this
      ensures (Model(), reply) == DoAcquireWorker(old(Model()), handle, key, aborted, clock)
    {
      hide AdmissionSpec.ReadClock, AdmissionSpec.Request;
      var ok := ReadClock(clock);
      if !ok { return FailedClosed; }
      if life.closed || handle !in pool.workers || !pool.workers[handle].open { return Null; }
      if key == Some("") { return ErrInvalidKey; }
      if pool.workers[handle].outstanding != Idle { return ErrWorkerOutstanding; }
      assert life.lastNow.Some? by { ClockRead(old(Model()), clock); }
      var id := Request(WorkerRole, key, Some(handle), aborted, life.lastNow.value);
      reply := if life.failure.Some? then FailedClosed else if aborted then Null else Promise(id);
    }

    method AcquireClassifier(key: string, aborted: bool, clock: Option<real>) returns (reply: Reply)
      modifies this
      ensures (Model(), reply) == DoAcquireClassifier(old(Model()), key, aborted, clock)
    {
      hide AdmissionSpec.ReadClock, AdmissionSpec.Request;
      var ok := ReadClock(clock);
      if !ok { return FailedClosed; }
      if life.closed { return Null; }
      if key == "" { return ErrInvalidKey; }
      if !aborted && !(held.group.Some? && held.group.value.key == key)
         && classifier.queue != [] && classifier.queue[0].key != Some(key) { return ErrPendingGroupConflict; }
      assert life.lastNow.Some? by { ClockRead(old(Model()), clock); }
      var id := Request(ClassifierRole, Some(key), None, aborted, life.lastNow.value);
      reply := if life.failure.Some? then FailedClosed else if aborted then Null else Promise(id);
    }

    method BindGroup(ticket: nat, key: string, clock: Option<real>) returns (reply: Reply)
      modifies this
      ensures (Model(), reply) == DoBind(old(Model()), ticket, key, clock)
    {
      hide AdmissionSpec.Dispatch, AdmissionSpec.ReadClock;
      if ticket !in held.tickets || held.tickets[ticket].state != Unbound || held.unbound != Some(ticket) {
        return ErrInvalidPermit;
      }
      if key == "" { return ErrInvalidKey; }
      var ok := ReadClock(clock);
      if !ok { return FailedClosed; }
      ClockRead(old(Model()), clock);
      held := Held(None, Some(Group(key, {ticket})),
                   held.tickets[ticket := held.tickets[ticket].(state := Bound, key := Some(key))]);
      Dispatch(life.lastNow.value);
      reply := if life.failure.Some? then FailedClosed else Done;
    }

    method Release(ticket: nat, clock: Option<real>) returns (reply: Reply)
      modifies this
      ensures (Model(), reply) == DoRelease(old(Model()), ticket, clock)
    {
      hide AdmissionSpec.Dispatch, AdmissionSpec.ReadClock;
      if ticket !in held.tickets || held.tickets[ticket].state == Released { return Done; }
      var t := held.tickets[ticket];
      if t.state.Unbound? {
        held := held.(unbound := None);
      } else if held.group.Some? {
        var refs := held.group.value.references - {ticket};
        held := held.(group := if refs == {} then None else Some(held.group.value.(references := refs)));
      }
      held := held.(tickets := held.tickets[ticket := t.(state := Released)]);
      if t.worker.Some? && t.worker.value in pool.workers && pool.workers[t.worker.value].outstanding == Holding(ticket) {
        pool := pool.(workers := pool.workers[t.worker.value := pool.workers[t.worker.value].(outstanding := Idle)]);
      }
      // A granted permit is releasable even after failure or close.
      if life.closed { return Done; }
      ghost var s1 := Model();
      var ok := ReadClock(clock);
      if !ok { return FailedClosed; }
      ClockRead(s1, clock);
      Dispatch(life.lastNow.value);
      reply := if life.failure.Some? then FailedClosed else Done;
    }

    method Abort(w: Waiter, clock: Option<real>)
      modifies this
      ensures Model() == DoAbort(old(Model()), w, clock).0
    {
      hide AdmissionSpec.Cancel, AdmissionSpec.ReadClock;
      var queue := if w.role.WorkerRole? then worker.queue else classifier.queue;
      if w !in queue { return; }
      var ok := ReadClock(clock);
      if ok {
        ClockRead(old(Model()), clock);
        Cancel(w, life.lastNow.value);
      }
    }

    method CloseWorker(handle: nat, clock: Option<real>) returns (reply: Reply)
      modifies this
      ensures (Model(), reply) == DoCloseWorker(old(Model()), handle, clock)
    {
      hide AdmissionSpec.Cancel, AdmissionSpec.ReadClock, Unregister;
      if handle !in pool.workers || !pool.workers[handle].open { return Done; }
      var ok := ReadClock(clock);
      if !ok { return FailedClosed; }
      ClockRead(old(Model()), clock);
      CloseWorkers({handle});
      var index := WaiterOf(worker.queue, handle);
      if index < |worker.queue| { Cancel(worker.queue[index], life.lastNow.value); }
      reply := if life.failure.Some? then FailedClosed else Done;
    }

    method Close(clock: Option<real>) returns (reply: Reply)
      modifies this
      ensures (Model(), reply) == DoClose(old(Model()), clock)
    {
      hide AdmissionSpec.Cancel, AdmissionSpec.ReadClock, Unregister;
      if life.closed { return Done; }
      var ok := ReadClock(clock);
      if !ok { return FailedClosed; }
      ClockRead(old(Model()), clock);
      life := life.(closed := true);
      CloseWorkers(pool.registered);
      var waiters := worker.queue + classifier.queue;
      var now := life.lastNow.value;
      ghost var s2 := Model();
      var i := 0;
      while i < |waiters| && life.failure.None?
        invariant 0 <= i <= |waiters|
        invariant CancelAll(Model(), waiters[i..], now) == CancelAll(s2, waiters, now)
      {
        assert waiters[i..][1..] == waiters[i + 1..];
        Cancel(waiters[i], now);
        i := i + 1;
      }
      reply := if life.failure.Some? then FailedClosed else Done;
    }
  }

  lemma CountGrantFrame(s: State, w: Waiter, elapsed: nat)
    ensures var r := CountGrant(s, w, elapsed);
            r.life == s.life && r.held == s.held && r.peaks == s.peaks && r.ids == s.ids && r.turn == s.turn
  {
  }

  lemma DismissFrame(s: State, w: Waiter, how: Settlement)
    ensures Dismiss(s, w, how).life == s.life
  {
  }

  lemma ClockRead(s: State, clock: Option<real>)
    ensures var r := AdmissionSpec.ReadClock(s, clock);
            !Failed(r) ==> r == s.(life := s.life.(lastNow := clock)) && clock.Some?
  {
  }
}
