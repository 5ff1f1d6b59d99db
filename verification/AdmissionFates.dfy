/**
 What becomes of each request: over every operation and every run it waits, holds
 the permit it asked for, or has been turned away, unless the allocator failed on it.
 */
module AdmissionFates {
  import opened Prelude
  import opened AdmissionSpec
  import opened AdmissionInvariant
  import opened AdmissionDispatch
  import opened AdmissionRuns
  import opened AdmissionTheorems

  ghost predicate NoId(q: seq<Waiter>, id: nat) {
    forall v :: v in q ==> v.id != id
  }

  ghost predicate Only(q: seq<Waiter>, w: Waiter) {
    forall v :: v in q && v.id == w.id ==> v == w
  }

  ghost predicate Below(q: seq<Waiter>, next: nat) {
    forall v :: v in q ==> v.id < next
  }

  /** Queues hold requests of their own role, in the order they were made. */
  ghost predicate Lined(s: State) {
    && HasRole(s.worker.queue, WorkerRole) && HasRole(s.classifier.queue, ClassifierRole)
    && Ordered(s.worker.queue) && Ordered(s.classifier.queue)
    && Below(s.worker.queue, s.ids.next) && Below(s.classifier.queue, s.ids.next)
  }

  ghost predicate Away(s: State, id: nat) {
    NoId(s.worker.queue, id) && NoId(s.classifier.queue, id)
  }

  /** The request waits in its role's queue, unchanged, without a permit. */
  ghost predicate Waits(s: State, w: Waiter) {
    && w in SideOf(s, w.role).queue && Only(s.worker.queue, w) && Only(s.classifier.queue, w)
    && w.id !in s.held.tickets
  }

  /** It has a permit, for its worker and for the key it named, if it named one. */
  ghost predicate Served(s: State, w: Waiter) {
    && w.id in s.held.tickets && s.held.tickets[w.id].worker == w.worker
    && (w.key.Some? ==> s.held.tickets[w.id].key == w.key && !s.held.tickets[w.id].state.Unbound?)
    && Away(s, w.id)
  }

  /** It was cancelled or refused and has no permit. */
  ghost predicate TurnedAway(s: State, w: Waiter) {
    && w.id in s.ids.settled && s.ids.settled[w.id] != Granted && w.id !in s.held.tickets
    && Away(s, w.id)
  }

  /** The allocator failed on the very grant of this request, after taking it out of its queue. */
  ghost predicate Dropped(s: State, w: Waiter) {
    s.life.failure == Some(CounterOverflow) && w.id !in s.held.tickets && Away(s, w.id)
  }

  ghost predicate Fate(s: State, w: Waiter) {
    Lined(s) && w.id < s.ids.next && (Waits(s, w) || Served(s, w) || TurnedAway(s, w) || Dropped(s, w))
  }

  ghost function Ending(s: State, id: nat): Option<Settlement> {
    if id in s.ids.settled then Some(s.ids.settled[id]) else None
  }

  /** From `s` to `r`; a fate is final once the request has left its queue. */
  ghost predicate FateOn(s: State, w: Waiter, r: State) {
    && Fate(r, w) && (Served(s, w) ==> Served(r, w))
    && (TurnedAway(s, w) ==> TurnedAway(r, w) && Ending(r, w.id) == Ending(s, w.id))
  }

  // ---------------------------------------------------------- snapshots

  /** At most one member of a snapshot is `w`, and none other has its identity. */
  ghost predicate Once(q: seq<Waiter>, w: Waiter) {
    q != [] ==> if q[0].id == w.id then q[0] == w && NoId(q[1..], w.id) else Once(q[1..], w)
  }

  ghost predicate Snap(q: seq<Waiter>, w: Waiter, s: State) {
    NoId(q, w.id) || (Waits(s, w) && Once(q, w))
  }

  lemma {:induction false} OnceOrdered(q: seq<Waiter>, w: Waiter)
    requires Ordered(q) && Only(q, w)
    ensures Once(q, w)
    decreases |q|
  {
    if q != [] {
      assert q[0] in q;
      if q[0].id == w.id {
        forall v | v in q[1..] ensures v.id != w.id {
          var i :| 0 <= i < |q[1..]| && q[1..][i] == v;
          assert q[i + 1] == v;
        }
      } else {
        OnceOrdered(q[1..], w);
      }
    }
  }

  lemma {:induction false} OnceNone(q: seq<Waiter>, w: Waiter)
    requires NoId(q, w.id)
    ensures Once(q, w)
    decreases |q|
  {
    if q != [] {
      assert q[0] in q;
      OnceNone(q[1..], w);
    }
  }

  lemma {:induction false} OnceConcat(a: seq<Waiter>, b: seq<Waiter>, w: Waiter)
    requires Once(a, w) && Once(b, w) && (NoId(a, w.id) || NoId(b, w.id))
    ensures Once(a + b, w)
    decreases |a|
  {
    if a == [] {
      assert a + b == b;
    } else {
      assert (a + b)[1..] == a[1..] + b && (a + b)[0] == a[0];
      if a[0].id == w.id {
        assert a[0] in a;
      } else {
        OnceConcat(a[1..], b, w);
      }
    }
  }

  /** Any queue of the state, or both together, is a snapshot. */
  lemma {:induction false} QueuesSnap(s: State, w: Waiter)
    requires Fate(s, w)
    ensures Snap(s.worker.queue, w, s) && Snap(s.classifier.queue, w, s)
    ensures Snap(s.worker.queue + s.classifier.queue, w, s)
  {
    hide Ordered, Once;
    if Waits(s, w) {
      OnceOrdered(s.worker.queue, w);
      OnceOrdered(s.classifier.queue, w);
      OnceConcat(s.worker.queue, s.classifier.queue, w);
    }
  }

  // ------------------------------------------------------- one waiter leaves

  lemma {:induction false} WithoutLined(q: seq<Waiter>, id: nat, role: Role, next: nat)
    requires Ordered(q) && HasRole(q, role) && Below(q, next)
    ensures Ordered(Without(q, id)) && HasRole(Without(q, id), role) && Below(Without(q, id), next)
    ensures NoId(Without(q, id), id)
    ensures forall v :: v in q && v.id != id ==> v in Without(q, id)
    ensures forall v :: v in Without(q, id) ==> v in q
  {
    if Queued(q, id) {
      WithoutProps(q, id);
      WithoutKeeps(q, id);
    } else {
      forall v | v in q ensures v.id != id {
        var i :| 0 <= i < |q| && q[i] == v;
      }
    }
  }

  /** `r` is `s` with waiter `v` out of its queue. */
  ghost predicate Removed(s: State, v: Waiter, r: State) {
    && r.worker.queue == (if v.role.WorkerRole? then Without(s.worker.queue, v.id) else s.worker.queue)
    && r.classifier.queue == (if v.role.WorkerRole? then s.classifier.queue else Without(s.classifier.queue, v.id))
    && r.ids.next == s.ids.next
  }

  lemma {:induction false} RemovedQueues(s: State, v: Waiter, r: State, w: Waiter)
    requires Lined(s) && Removed(s, v, r)
    ensures Lined(r) && (Away(s, w.id) ==> Away(r, w.id))
    ensures Only(s.worker.queue, w) && Only(s.classifier.queue, w) ==> Only(r.worker.queue, w) && Only(r.classifier.queue, w)
    ensures v.id != w.id && w in SideOf(s, w.role).queue ==> w in SideOf(r, w.role).queue
    ensures v == w && Only(s.worker.queue, w) && Only(s.classifier.queue, w) ==> Away(r, w.id)
  {
    WithoutLined(s.worker.queue, v.id, WorkerRole, s.ids.next);
    WithoutLined(s.classifier.queue, v.id, ClassifierRole, s.ids.next);
    hide Without, Ordered;
  }

  lemma {:induction false} DismissFate(s: State, v: Waiter, how: Settlement, w: Waiter)
    requires Fate(s, w) && how != Granted && (v.id == w.id ==> v == w && Waits(s, w))
    ensures FateOn(s, w, Dismiss(s, v, how))
    ensures v.id != w.id && Waits(s, w) ==> Waits(Dismiss(s, v, how), w)
  {
    hide Without, Lined, Only, Clear;
    RemovedQueues(s, v, Dismiss(s, v, how), w);
  }

  lemma {:induction false} RefuseFate(s: State, waiters: seq<Waiter>, code: FailureCode, w: Waiter)
    requires Fate(s, w) && Snap(waiters, w, s)
    ensures FateOn(s, w, RefuseAll(s, waiters, code))
    decreases |waiters|
  {
    hide Fate, Served, TurnedAway, Ending, Dismiss, Waits;
    if waiters != [] {
      var v := waiters[0];
      assert v in waiters;
      DismissFate(s, v, Refused(code), w);
      RefuseFate(Dismiss(s, v, Refused(code)), waiters[1..], code, w);
    }
  }

  lemma {:induction false} UnchangedFate(s: State, r: State, w: Waiter)
    requires Fate(s, w) && r.worker.queue == s.worker.queue && r.classifier.queue == s.classifier.queue
    requires r.held.tickets == s.held.tickets && r.ids == s.ids && (Failed(s) ==> r.life.failure == s.life.failure)
    ensures FateOn(s, w, r) && (Waits(s, w) ==> Waits(r, w))
  {
    hide Ordered, HasRole, Below;
  }

  lemma {:induction false} FailFate(s: State, code: FailureCode, w: Waiter)
    requires Fate(s, w)
    ensures FateOn(s, w, Fail(s, code))
  {
    hide Fate, Served, TurnedAway, Ending, RefuseAll, Unregister, Snap;
    var first := if Failed(s) then s.life.failure.value else code;
    var s1 := s.(life := s.life.(failure := Some(first), closed := true), pool := Unregister(s.pool, s.pool.registered));
    UnchangedFate(s, s1, w);
    QueuesSnap(s1, w);
    RefuseFate(s1, s1.worker.queue + s1.classifier.queue, first, w);
  }

  // -------------------------------------------------------------- grants

  lemma {:induction false} CountGrantLeaves(s: State, v: Waiter, elapsed: nat)
    ensures Removed(s, v, CountGrant(s, v, elapsed))
    ensures CountGrant(s, v, elapsed).held == s.held && CountGrant(s, v, elapsed).ids == s.ids
  {
    hide Without, Assign;
  }

  lemma {:induction false} AdmitTickets(h: Held, v: Waiter)
    ensures Admit(h, v).tickets == h.tickets[v.id := Admit(h, v).tickets[v.id]]
    ensures Admit(h, v).tickets[v.id].worker == v.worker
    ensures v.key.Some? ==> Admit(h, v).tickets[v.id] == Ticket(Bound, v.worker, v.key)
  {
  }

  /** `r` is `s` after the grant of `v`. */
  lemma {:induction false} GrantedFate(s: State, v: Waiter, r: State, w: Waiter)
    requires Fate(s, w) && !Failed(s) && (v.id == w.id ==> v == w && Waits(s, w)) && Removed(s, v, r)
    requires r.held == Admit(s.held, v) && r.ids.settled == s.ids.settled[v.id := Granted]
    ensures FateOn(s, w, r)
    ensures v.id != w.id && Waits(s, w) ==> Waits(r, w)
    ensures v == w ==> Served(r, w)
  {
    hide Without, Lined, Only, Removed, Admit;
    RemovedQueues(s, v, r, w);
    RemovedNext(s, v, r);
    AdmitTickets(s.held, v);
  }

  lemma {:induction false} RemovedNext(s: State, v: Waiter, r: State)
    requires Removed(s, v, r)
    ensures r.ids.next == s.ids.next
  {
  }

  lemma {:induction false} GrantFate(s: State, v: Waiter, now: real, w: Waiter)
    requires Fate(s, w) && !Failed(s) && (v.id == w.id ==> v == w && Waits(s, w))
    ensures FateOn(s, w, Grant(s, v, now))
    ensures v.id != w.id && Waits(s, w) && !Failed(Grant(s, v, now)) ==> Waits(Grant(s, v, now), w)
    ensures v == w && !Failed(Grant(s, v, now)) ==> Served(Grant(s, v, now), w)
  {
    hide Fail, Fate, Waits, CountGrant, Admit, Removed;
    var e := Elapsed(now, v.startedAt);
    if e.None? {
      FailFate(s, InvalidClock, w);
    } else if !CanIncrement(SideOf(s, v.role).grants) {
      FailFate(s, CounterOverflow, w);
    } else if v.key.Some? && !CanIncrement(|GroupFor(s.held, v.key.value).references|) {
      OverflowFate(s, v, e.value, w);
    } else {
      CountGrantLeaves(s, v, e.value);
      var r := Grant(s, v, now);
      RemovedSame(s, v, CountGrant(s, v, e.value), r);
      GrantedFate(s, v, r, w);
    }
  }

  lemma {:induction false} RemovedSame(s: State, v: Waiter, r: State, r': State)
    requires Removed(s, v, r) && r'.worker == r.worker && r'.classifier == r.classifier && r'.ids.next == r.ids.next
    ensures Removed(s, v, r')
  {
    hide Without;
  }

  lemma {:induction false} OverflowFate(s: State, v: Waiter, elapsed: nat, w: Waiter)
    requires Fate(s, w) && !Failed(s) && v.key.Some? && (v.id == w.id ==> v == w && Waits(s, w))
    ensures var s1 := CountGrant(s, v, elapsed);
            FateOn(s, w, Fail(s1.(held := s1.held.(group := Some(GroupFor(s.held, v.key.value)))), CounterOverflow))
  {
    var s1 := CountGrant(s, v, elapsed);
    var s2 := s1.(held := s1.held.(group := Some(GroupFor(s.held, v.key.value))));
    CountGrantLeaves(s, v, elapsed);
    assert !Failed(s2);
    hide Without, Only, NoId, CountGrant, Removed, Fail, Lined;
    RemovedSame(s, v, s1, s2);
    RemovedQueues(s, v, s2, w);
    if v == w {
      FailEmpties(s2, w.id);
    } else {
      FailFate(s2, CounterOverflow, w);
    }
  }

  lemma {:induction false} FailEmpties(s: State, id: nat)
    requires Lined(s) && !Failed(s)
    ensures var r := Fail(s, CounterOverflow);
            && Lined(r) && Away(r, id) && r.held == s.held && r.ids.next == s.ids.next
            && r.life.failure == Some(CounterOverflow)
  {
    hide RefuseAll, Unregister;
    var s1 := s.(life := s.life.(failure := Some(CounterOverflow), closed := true), pool := Unregister(s.pool, s.pool.registered));
    RefuseEmpties(s1, CounterOverflow);
    RefuseNext(s1, s1.worker.queue + s1.classifier.queue, CounterOverflow);
  }

  lemma {:induction false} RefuseNext(s: State, waiters: seq<Waiter>, code: FailureCode)
    ensures RefuseAll(s, waiters, code).ids.next == s.ids.next
    decreases |waiters|
  {
    hide Without, Clear;
    if waiters != [] { RefuseNext(Dismiss(s, waiters[0], Refused(code)), waiters[1..], code); }
  }

  lemma {:induction false} GrantAllFate(s: State, waiters: seq<Waiter>, now: real, w: Waiter)
    requires Fate(s, w) && Snap(waiters, w, s)
    ensures FateOn(s, w, GrantAll(s, waiters, now))
    decreases |waiters|
  {
    hide Fate, Served, TurnedAway, Ending, Grant, Waits;
    if waiters != [] && !Failed(s) {
      var v := waiters[0];
      assert v in waiters;
      GrantFate(s, v, now, w);
      var s1 := Grant(s, v, now);
      if !Failed(s1) { GrantAllFate(s1, waiters[1..], now, w); }
    }
  }

  lemma {:induction false} JoinAllFate(s: State, waiters: seq<Waiter>, now: real, w: Waiter)
    requires Fate(s, w) && Snap(waiters, w, s)
    ensures FateOn(s, w, JoinAll(s, waiters, now))
    decreases |waiters|
  {
    hide Fate, Served, TurnedAway, Ending, Grant, Waits;
    if waiters != [] && !Failed(s) && s.held.group.Some? {
      var v := waiters[0];
      assert v in waiters;
      if v.key == Some(s.held.group.value.key) {
        GrantFate(s, v, now, w);
        var s1 := Grant(s, v, now);
        if !Failed(s1) { JoinAllFate(s1, waiters[1..], now, w); }
      } else {
        JoinAllFate(s, waiters[1..], now, w);
      }
    }
  }

  lemma {:induction false} JoinsFate(s: State, now: real, w: Waiter)
    requires Fate(s, w)
    ensures FateOn(s, w, DispatchJoins(s, now))
  {
    hide Fate, Served, TurnedAway, Ending, JoinAll, GrantAll, Snap;
    QueuesSnap(s, w);
    JoinAllFate(s, s.worker.queue, now, w);
    var s1 := JoinAll(s, s.worker.queue, now);
    QueuesSnap(s1, w);
    GrantAllFate(s1, s1.classifier.queue, now, w);
  }

  lemma {:induction false} DispatchFate(s: State, now: real, w: Waiter)
    requires Fate(s, w) && !Failed(s)
    ensures FateOn(s, w, Dispatch(s, now))
  {
    hide Fate, Served, TurnedAway, Ending, DispatchJoins, GrantAll, Grant, Snap;
    JoinsFate(s, now, w);
    var s1 := TakeTurn(s);
    UnchangedFate(s, s1, w);
    QueuesSnap(s1, w);
    if s.worker.queue != [] { HeadGrantFate(s1, now, w); }
    GrantAllFate(s1, s1.classifier.queue, now, w);
    JoinsFate(DispatchFresh(s, now), now, w);
  }

  lemma {:induction false} HeadGrantFate(s: State, now: real, w: Waiter)
    requires Fate(s, w) && !Failed(s) && s.worker.queue != []
    ensures FateOn(s, w, Grant(s, s.worker.queue[0], now))
  {
    hide Grant;
    assert s.worker.queue[0] in s.worker.queue;
    GrantFate(s, s.worker.queue[0], now, w);
  }

  // ------------------------------------------------------ every operation

  lemma {:induction false} ClockFate(s: State, sample: Option<real>, w: Waiter)
    requires Fate(s, w)
    ensures FateOn(s, w, ReadClock(s, sample))
  {
    hide Fate, Served, TurnedAway, Ending, Fail;
    FailFate(s, InvalidClock, w);
    if !Failed(s) && !Failed(ReadClock(s, sample)) { UnchangedFate(s, ReadClock(s, sample), w); }
  }

  lemma {:induction false} CancelFate(s: State, v: Waiter, now: real, w: Waiter)
    requires Fate(s, w) && !Failed(s) && (v.id == w.id ==> v == w)
    ensures FateOn(s, w, Cancel(s, v, now))
  {
    hide Fail, Dismiss, Dispatch, Lined;
    if Queued(SideOf(s, v.role).queue, v.id) {
      var e := Elapsed(now, v.startedAt);
      FailFate(s, InvalidClock, w);
      FailFate(s, CounterOverflow, w);
      if e.Some? && CanIncrement(SideOf(s, v.role).cancellations) {
        var s1 := CountCancellation(s, v.role, e.value);
        UnchangedFate(s, s1, w);
        if v == w { QueuedWaits(s, w); }
        DismissFate(s1, v, Cancelled, w);
        DismissLife(s1, v, Cancelled);
        DispatchFate(Dismiss(s1, v, Cancelled), now, w);
      }
    }
  }

  lemma {:induction false} DismissLife(s: State, v: Waiter, how: Settlement)
    ensures Dismiss(s, v, how).life == s.life
  {
    hide Without, Clear;
  }

  lemma {:induction false} QueuedWaits(s: State, w: Waiter)
    requires Fate(s, w) && !Failed(s) && Queued(SideOf(s, w.role).queue, w.id)
    ensures Waits(s, w)
  {
    var q := SideOf(s, w.role).queue;
    assert q[Position(q, w.id)] in q;
  }

  lemma {:induction false} CancelAllFate(s: State, waiters: seq<Waiter>, now: real, w: Waiter)
    requires Fate(s, w) && Only(waiters, w)
    ensures FateOn(s, w, CancelAll(s, waiters, now))
    decreases |waiters|
  {
    hide Fate, Served, TurnedAway, Ending, Cancel;
    if waiters != [] && !Failed(s) {
      assert waiters[0] in waiters;
      CancelFate(s, waiters[0], now, w);
      CancelAllFate(Cancel(s, waiters[0], now), waiters[1..], now, w);
    }
  }

  lemma {:induction false} EnqueueFate(s: State, v: Waiter, w: Waiter)
    requires Fate(s, w) && v.id == s.ids.next
    ensures FateOn(s, w, Enqueue(s, v))
  {
    hide Assign;
    EnqueueLined(s, v);
    hide Lined;
  }

  lemma {:induction false} EnqueueLined(s: State, v: Waiter)
    requires Lined(s) && v.id == s.ids.next
    ensures Lined(Enqueue(s, v))
  {
    hide Assign;
    var q := SideOf(s, v.role).queue;
    assert forall i :: 0 <= i < |q| ==> q[i] in q;
  }

  /** A new request waits, and nobody else has its identity. */
  lemma {:induction false} NewWaits(s: State, w: Waiter)
    requires Lined(s) && w.id == s.ids.next && w.id !in s.held.tickets
    ensures Fate(Enqueue(s, w), w) && Waits(Enqueue(s, w), w)
  {
    hide Assign;
    EnqueueLined(s, w);
    hide Lined, Ordered;
    assert Below(s.worker.queue, s.ids.next) && Below(s.classifier.queue, s.ids.next) by { LinedBelow(s); }
  }

  lemma {:induction false} LinedBelow(s: State)
    requires Lined(s)
    ensures Below(s.worker.queue, s.ids.next) && Below(s.classifier.queue, s.ids.next)
  {
  }

  lemma {:induction false} PlaceFate(s: State, v: Waiter, now: real, w: Waiter)
    requires Fate(s, w) && !Failed(s) && (v.id == w.id ==> v == w && Waits(s, w))
    ensures FateOn(s, w, Place(s, v, now))
  {
    hide Fate, Served, TurnedAway, Ending, Grant, Dispatch, Waits;
    GrantFate(s, v, now, w);
    DispatchFate(s, now, w);
  }

  lemma {:induction false} RaisedFate(s: State, w: Waiter)
    requires Fate(s, w)
    ensures FateOn(s, w, if Failed(s) then s else s.(peaks := Raise(s.peaks, |s.worker.queue|, |s.classifier.queue|)))
  {
    hide Fate, Served, TurnedAway, Ending, Raise;
    UnchangedFate(s, s.(peaks := Raise(s.peaks, |s.worker.queue|, |s.classifier.queue|)), w);
  }

  /** Somebody else's request. */
  lemma {:induction false} OtherRequestFate(s: State, role: Role, key: Option<string>, worker: Option<nat>, aborted: bool,
                                            now: real, w: Waiter)
    requires Fate(s, w) && !Failed(s)
    ensures FateOn(s, w, Request(s, role, key, worker, aborted, now))
  {
    assert w.id < s.ids.next;
    hide Fate, FateOn, Served, TurnedAway, Ending, Place, Fail, Enqueue, Raise, CountRequest, CountCancellation;
    if aborted {
      AbortedRequestFate(s, role, w);
    } else {
      var v := Waiter(s.ids.next, role, key, worker, now);
      EnqueueFate(s, v, w);
      EnqueueLife(s, v);
      PlaceFate(Enqueue(s, v), v, now, w);
      RaisedFate(Place(Enqueue(s, v), v, now), w);
    }
  }

  lemma {:induction false} AbortedRequestFate(s: State, role: Role, w: Waiter)
    requires Fate(s, w) && !Failed(s)
    ensures FateOn(s, w, Request(s, role, None, None, true, 0.0))
  {
    hide Fate, Served, TurnedAway, Ending, Place, Fail, Enqueue, Raise;
    var s1 := CountRequest(s, role);
    UnchangedFate(s, s1, w);
    FailFate(s1, CounterOverflow, w);
    UnchangedFate(s1, CountCancellation(s1, role, 0), w);
  }

  lemma {:induction false} EnqueueLife(s: State, v: Waiter)
    ensures Enqueue(s, v).life == s.life
  {
    hide Assign;
  }

  /** The request itself. */
  lemma {:induction false} OwnRequestFate(s: State, w: Waiter)
    requires Lined(s) && !Failed(s) && w.id == s.ids.next && w.id !in s.held.tickets
    ensures Fate(Request(s, w.role, w.key, w.worker, false, w.startedAt), w)
  {
    hide Fate, Waits, Lined, Place, Enqueue, Raise;
    NewWaits(s, w);
    EnqueueLife(s, w);
    PlaceFate(Enqueue(s, w), w, w.startedAt, w);
    RaisedFate(Place(Enqueue(s, w), w, w.startedAt), w);
  }

  lemma {:induction false} BindFate(s: State, ticket: nat, key: string, w: Waiter)
    requires Fate(s, w) && ticket in s.held.tickets && s.held.tickets[ticket].state.Unbound?
    ensures FateOn(s, w, s.(held := Bind(s.held, ticket, key)))
  {
    hide Lined;
    var r := s.(held := Bind(s.held, ticket, key));
    SameLined(s, r);
  }

  lemma {:induction false} SameLined(s: State, r: State)
    requires Lined(s) && r.worker.queue == s.worker.queue && r.classifier.queue == s.classifier.queue && r.ids.next == s.ids.next
    ensures Lined(r)
  {
  }

  lemma {:induction false} DetachFate(s: State, ticket: nat, r: State, w: Waiter)
    requires Fate(s, w) && ticket in s.held.tickets
    requires r == s.(held := Detach(s.held, ticket), pool := r.pool)
    ensures FateOn(s, w, r)
  {
    hide Lined;
    SameLined(s, r);
    assert r.held.tickets == s.held.tickets[ticket := s.held.tickets[ticket].(state := Released)];
  }

  lemma {:induction false} ReleaseFate(s: State, ticket: nat, clock: Option<real>, w: Waiter)
    requires Fate(s, w)
    ensures FateOn(s, w, DoRelease(s, ticket, clock).0)
  {
    hide Fate, Served, TurnedAway, Ending, Detach, Clear, ReadClock, Dispatch;
    if ticket in s.held.tickets && s.held.tickets[ticket].state != Released {
      var s1 := s.(held := Detach(s.held, ticket), pool := Clear(s.pool, s.held.tickets[ticket].worker, Holding(ticket)));
      DetachFate(s, ticket, s1, w);
      ClockFate(s1, clock, w);
      var s2 := ReadClock(s1, clock);
      if !Failed(s2) { DispatchFate(s2, s2.life.lastNow.value, w); }
    }
  }

  lemma {:induction false} DoBindFate(s: State, ticket: nat, key: string, clock: Option<real>, w: Waiter)
    requires Fate(s, w)
    ensures FateOn(s, w, DoBind(s, ticket, key, clock).0)
  {
    hide Fate, Served, TurnedAway, Ending, Bind, ReadClock, Dispatch;
    ClockFate(s, clock, w);
    var s1 := ReadClock(s, clock);
    if ticket in s.held.tickets && s.held.tickets[ticket].state == Unbound && !Failed(s1) {
      ClockHeld(s, clock);
      BindFate(s1, ticket, key, w);
      DispatchFate(s1.(held := Bind(s.held, ticket, key)), s1.life.lastNow.value, w);
    }
  }

  lemma {:induction false} ClockHeld(s: State, clock: Option<real>)
    ensures var r := ReadClock(s, clock);
            !Failed(r) ==> r == s.(life := s.life.(lastNow := clock)) && !Failed(s) && clock.Some?
  {
  }

  lemma {:induction false} AbortFate(s: State, v: Waiter, clock: Option<real>, w: Waiter)
    requires Fate(s, w)
    ensures FateOn(s, w, DoAbort(s, v, clock).0)
  {
    hide Cancel, ReadClock, Lined;
    ClockFate(s, clock, w);
    ClockHeld(s, clock);
    var s1 := ReadClock(s, clock);
    if v in SideOf(s, v.role).queue && !Failed(s1) { CancelFate(s1, v, s1.life.lastNow.value, w); }
  }

  lemma {:induction false} UnregisterFate(s: State, which: set<nat>, w: Waiter)
    requires Fate(s, w)
    ensures FateOn(s, w, s.(pool := Unregister(s.pool, which)))
  {
    hide Fate, Served, TurnedAway, Ending, Unregister;
    UnchangedFate(s, s.(pool := Unregister(s.pool, which)), w);
  }

  lemma {:induction false} MemberIs(s: State, w: Waiter)
    requires Fate(s, w)
    ensures Only(s.worker.queue, w) && Only(s.worker.queue + s.classifier.queue, w)
  {
    hide Lined;
  }

  lemma {:induction false} CloseFates(s: State, worker: nat, clock: Option<real>, w: Waiter)
    requires Fate(s, w)
    ensures FateOn(s, w, DoCloseWorker(s, worker, clock).0) && FateOn(s, w, DoClose(s, clock).0)
  {
    hide Fate, Served, TurnedAway, Ending, ReadClock, Cancel, CancelAll, Unregister;
    ClockFate(s, clock, w);
    ClockHeld(s, clock);
    var s1 := ReadClock(s, clock);
    if !Failed(s1) {
      UnregisterFate(s1, {worker}, w);
      var s2 := s1.(pool := Unregister(s1.pool, {worker}));
      var p := WaiterOf(s2.worker.queue, worker);
      MemberIs(s2, w);
      if p < |s2.worker.queue| { CancelFate(s2, s2.worker.queue[p], s1.life.lastNow.value, w); }
      UnregisterFate(s1, s1.pool.registered, w);
      var s3 := s1.(life := s1.life.(closed := true), pool := Unregister(s1.pool, s1.pool.registered));
      UnchangedFate(s1, s3, w);
      MemberIs(s3, w);
      CancelAllFate(s3, s3.worker.queue + s3.classifier.queue, s1.life.lastNow.value, w);
    }
  }

  lemma {:induction false} RegisterFate(s: State, w: Waiter)
    requires Fate(s, w)
    ensures FateOn(s, w, Register(s))
  {
    var r := Register(s);
    assert Below(r.worker.queue, r.ids.next) && Below(r.classifier.queue, r.ids.next);
    hide Below, Ordered;
  }

  lemma {:induction false} DoRegisterFate(s: State, clock: Option<real>, w: Waiter)
    requires Fate(s, w)
    ensures FateOn(s, w, DoRegister(s, clock).0)
  {
    hide Fate, Served, TurnedAway, Ending, ReadClock, Fail, Register;
    ClockFate(s, clock, w);
    var s1 := ReadClock(s, clock);
    FailFate(s1, CounterOverflow, w);
    RegisterFate(s1, w);
  }

  lemma {:induction false} AcquireFates(s: State, worker: nat, key: Option<string>, groupKey: string, aborted: bool,
                                        clock: Option<real>, w: Waiter)
    requires Fate(s, w)
    ensures FateOn(s, w, DoAcquireWorker(s, worker, key, aborted, clock).0)
    ensures FateOn(s, w, DoAcquireClassifier(s, groupKey, aborted, clock).0)
  {
    hide Fate, Served, TurnedAway, Ending, ReadClock, Request;
    ClockFate(s, clock, w);
    var s1 := ReadClock(s, clock);
    if !Failed(s1) {
      OtherRequestFate(s1, WorkerRole, key, Some(worker), aborted, s1.life.lastNow.value, w);
      OtherRequestFate(s1, ClassifierRole, Some(groupKey), None, aborted, s1.life.lastNow.value, w);
    }
  }

  lemma {:induction false} StepFate(s: State, e: Event, w: Waiter)
    requires Fate(s, w)
    ensures FateOn(s, w, Step(s, e))
  {
    hide Fate, Served, TurnedAway, Ending, DoRegister, DoAcquireWorker, DoAcquireClassifier, DoBind, DoRelease, DoAbort, DoCloseWorker, DoClose;
    match e
    case RegisterWorker(clock) => DoRegisterFate(s, clock, w);
    case AcquireWorker(worker, key, aborted, clock) => AcquireFates(s, worker, key, "", aborted, clock, w);
    case AcquireClassifier(key, aborted, clock) => AcquireFates(s, 0, None, key, aborted, clock, w);
    case BindGroup(ticket, key, clock) => DoBindFate(s, ticket, key, clock, w);
    case Release(ticket, clock) => ReleaseFate(s, ticket, clock, w);
    case Abort(v, clock) => AbortFate(s, v, clock, w);
    case CloseWorker(worker, clock) => CloseFates(s, worker, clock, w);
    case Close(clock) => CloseFates(s, 0, clock, w);
  }

  lemma {:induction false} RunFate(s: State, events: seq<Event>, w: Waiter)
    requires Fate(s, w)
    ensures FateOn(s, w, Run(s, events))
    decreases |events|
  {
    hide Fate, Served, TurnedAway, Ending, Step;
    if events != [] {
      StepFate(s, events[0], w);
      RunFate(Step(s, events[0]), events[1..], w);
    }
  }

  // ------------------------------------------------------------ theorems

  lemma {:induction false} InvLined(s: State)
    requires Inv(s)
    ensures Lined(s)
    ensures !Failed(s) ==> s.ids.next !in s.held.tickets
  {
  }

  /** An accepted worker request keeps its key and its worker: it waits, holds its permit or is turned away, in every later state. */
  lemma {:induction false} WorkerRequestFate(s: State, worker: nat, key: Option<string>, clock: Option<real>,
                                             events: seq<Event>)
    requires Inv(s) && DoAcquireWorker(s, worker, key, false, clock).1.Promise?
    ensures clock.Some?
    ensures var (r, reply) := DoAcquireWorker(s, worker, key, false, clock);
            Fate(Run(r, events), Waiter(reply.waiter, WorkerRole, key, Some(worker), clock.value))
  {
    hide Inv, ReadClock, Request, Fate, Lined, Run;
    InvLined(s);
    ClockHeld(s, clock);
    var s1 := ReadClock(s, clock);
    var w := Waiter(s.ids.next, WorkerRole, key, Some(worker), clock.value);
    SameLined(s, s1);
    OwnRequestFate(s1, w);
    RunFate(DoAcquireWorker(s, worker, key, false, clock).0, events, w);
  }

  lemma {:induction false} ClassifierRequestFate(s: State, key: string, clock: Option<real>, events: seq<Event>)
    requires Inv(s) && DoAcquireClassifier(s, key, false, clock).1.Promise?
    ensures clock.Some?
    ensures var (r, reply) := DoAcquireClassifier(s, key, false, clock);
            Fate(Run(r, events), Waiter(reply.waiter, ClassifierRole, Some(key), None, clock.value))
  {
    hide Inv, ReadClock, Request, Fate, Lined, Run;
    InvLined(s);
    ClockHeld(s, clock);
    var s1 := ReadClock(s, clock);
    var w := Waiter(s.ids.next, ClassifierRole, Some(key), None, clock.value);
    SameLined(s, s1);
    OwnRequestFate(s1, w);
    RunFate(DoAcquireClassifier(s, key, false, clock).0, events, w);
  }
}
