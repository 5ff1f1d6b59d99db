/**
 The allocator fails closed only for cause: a run of fewer than 2^53 operations,
 under a clock that neither fails, goes back nor spans 2^53 milliseconds, never fails.
 */
module AdmissionHealth {
  import opened Prelude
  import opened AdmissionSpec
  import opened AdmissionInvariant
  import opened AdmissionDispatch
  import opened AdmissionFates

  function Spent(side: Side): nat {
    side.grants + side.cancellations + |side.queue|
  }

  function Admitted(h: Held): nat {
    (if h.unbound.Some? then 1 else 0) + (if h.group.Some? then |h.group.value.references| else 0)
  }

  /** No counter exceeds `n`, whatever is granted or cancelled next. */
  predicate Counts(s: State, n: nat) {
    && Spent(s.worker) <= n && Spent(s.classifier) <= n && |s.pool.registered| <= n
    && Admitted(s.held) + |s.worker.queue| + |s.classifier.queue| <= n
  }

  ghost predicate Since(q: seq<Waiter>, lo: real, last: real) {
    forall v :: v in q ==> lo <= v.startedAt <= last
  }

  ghost predicate Calm(s: State, n: nat, lo: real, last: real) {
    && !Failed(s) && Lined(s) && Counts(s, n) && n <= MAX_SAFE
    && Since(s.worker.queue, lo, last) && Since(s.classifier.queue, lo, last)
    && (s.life.lastNow.Some? ==> s.life.lastNow.value <= last)
  }

  predicate InSpan(lo: real, now: real) {
    lo <= now <= lo + MAX_SAFE as real
  }

  lemma {:induction false} ElapsedFits(lo: real, startedAt: real, now: real)
    requires InSpan(lo, now) && lo <= startedAt <= now
    ensures Elapsed(now, startedAt).Some?
  {
  }

  // ------------------------------------------------------------ one grant

  lemma {:induction false} RemovedShorter(s: State, v: Waiter, r: State)
    requires Lined(s) && v in SideOf(s, v.role).queue && Removed(s, v, r)
    ensures |SideOf(r, v.role).queue| == |SideOf(s, v.role).queue| - 1
    ensures SideOf(r, Other(v.role)).queue == SideOf(s, Other(v.role)).queue
    ensures Within(r.worker.queue, s.worker.queue) && Within(r.classifier.queue, s.classifier.queue)
    ensures forall u: Waiter :: u in SideOf(s, u.role).queue && u.id != v.id ==> u in SideOf(r, u.role).queue
  {
    WithoutLined(s.worker.queue, v.id, WorkerRole, s.ids.next);
    WithoutLined(s.classifier.queue, v.id, ClassifierRole, s.ids.next);
    var q := SideOf(s, v.role).queue;
    assert Queued(q, v.id);
    WithoutAt(q, v.id);
    hide Without, Ordered;
  }

  lemma {:induction false} AdmitCounts(h: Held, v: Waiter)
    ensures Admitted(Admit(h, v)) <= Admitted(h) + 1
    ensures v.key.Some? ==> |GroupFor(h, v.key.value).references| <= Admitted(h)
  {
  }

  /** One waiter leaves its queue and is counted once, and admitted at most once. */
  lemma {:induction false} LeftCalm(s: State, v: Waiter, r: State, n: nat, lo: real, last: real)
    requires Calm(s, n, lo, last) && v in SideOf(s, v.role).queue && Removed(s, v, r) && !Failed(r)
    requires r.worker.grants + r.worker.cancellations
             <= s.worker.grants + s.worker.cancellations + if v.role.WorkerRole? then 1 else 0
    requires r.classifier.grants + r.classifier.cancellations
             <= s.classifier.grants + s.classifier.cancellations + if v.role.WorkerRole? then 0 else 1
    requires r.pool.registered == s.pool.registered && Admitted(r.held) <= Admitted(s.held) + 1
    requires r.life.lastNow == s.life.lastNow
    ensures Calm(r, n, lo, last)
  {
    hide Without, Admitted;
    RemovedQueues(s, v, r, v);
    RemovedShorter(s, v, r);
    hide Lined, Removed;
  }

  lemma {:induction false} GrantShape(s: State, v: Waiter, now: real)
    requires Elapsed(now, v.startedAt).Some? && CanIncrement(SideOf(s, v.role).grants)
    requires v.key.Some? ==> CanIncrement(|GroupFor(s.held, v.key.value).references|)
    ensures var r := Grant(s, v, now);
            && Removed(s, v, r) && r.held == Admit(s.held, v) && r.life == s.life && r.pool.registered == s.pool.registered
            && r.worker.cancellations == s.worker.cancellations && r.classifier.cancellations == s.classifier.cancellations
            && r.worker.grants == s.worker.grants + (if v.role.WorkerRole? then 1 else 0)
            && r.classifier.grants == s.classifier.grants + (if v.role.WorkerRole? then 0 else 1)
  {
    hide Without, Admit, Fail;
  }

  lemma {:induction false} GrantCalm(s: State, v: Waiter, now: real, n: nat, lo: real, last: real)
    requires Calm(s, n, lo, last) && v in SideOf(s, v.role).queue && InSpan(lo, now) && last <= now
    ensures var r := Grant(s, v, now); Calm(r, n, lo, last) && Removed(s, v, r)
  {
    assert lo <= v.startedAt <= last && SideOf(s, v.role).queue != [];
    ElapsedFits(lo, v.startedAt, now);
    AdmitCounts(s.held, v);
    hide Grant, Lined, Removed, Admit, GroupFor, Admitted;
    GrantShape(s, v, now);
    LeftCalm(s, v, Grant(s, v, now), n, lo, last);
  }

  lemma {:induction false} GrantAllCalm(s: State, waiters: seq<Waiter>, now: real, n: nat, lo: real, last: real)
    requires Calm(s, n, lo, last) && InSpan(lo, now) && last <= now
    requires Ordered(waiters) && Within(waiters, s.classifier.queue)
    ensures Calm(GrantAll(s, waiters, now), n, lo, last)
    decreases |waiters|
  {
    hide Grant, Calm, Removed;
    if waiters != [] && !Failed(s) {
      var v := waiters[0];
      assert v in waiters;
      assert v.role == ClassifierRole && Lined(s) by { CalmLined(s, n, lo, last); }
      GrantCalm(s, v, now, n, lo, last);
      RemovedShorter(s, v, Grant(s, v, now));
      assert Within(waiters[1..], Grant(s, v, now).classifier.queue) by {
        forall u | u in waiters[1..] ensures u in Grant(s, v, now).classifier.queue { TailApart(waiters, u); assert u in s.classifier.queue; assert u.role == ClassifierRole by { CalmLined(s, n, lo, last); } }
      }
      GrantAllCalm(Grant(s, v, now), waiters[1..], now, n, lo, last);
    }
  }

  lemma {:induction false} TailApart(waiters: seq<Waiter>, u: Waiter)
    requires Ordered(waiters) && waiters != [] && u in waiters[1..]
    ensures u in waiters && u.id != waiters[0].id
  {
    var i :| 0 <= i < |waiters[1..]| && waiters[1..][i] == u;
    assert waiters[i + 1] == u;
  }

  lemma {:induction false} CalmLined(s: State, n: nat, lo: real, last: real)
    requires Calm(s, n, lo, last)
    ensures Lined(s) && !Failed(s)
    ensures forall v :: v in s.worker.queue ==> v.role == WorkerRole
    ensures forall v :: v in s.classifier.queue ==> v.role == ClassifierRole
  {
  }

  lemma {:induction false} JoinAllCalm(s: State, waiters: seq<Waiter>, now: real, n: nat, lo: real, last: real)
    requires Calm(s, n, lo, last) && InSpan(lo, now) && last <= now
    requires Ordered(waiters) && Within(waiters, s.worker.queue)
    ensures Calm(JoinAll(s, waiters, now), n, lo, last)
    decreases |waiters|
  {
    hide Grant, Calm, Removed;
    if waiters != [] && !Failed(s) && s.held.group.Some? {
      var v := waiters[0];
      assert v in waiters;
      if v.key == Some(s.held.group.value.key) {
        assert v.role == WorkerRole && Lined(s) by { CalmLined(s, n, lo, last); }
        GrantCalm(s, v, now, n, lo, last);
        RemovedShorter(s, v, Grant(s, v, now));
        assert Within(waiters[1..], Grant(s, v, now).worker.queue) by {
          forall u | u in waiters[1..] ensures u in Grant(s, v, now).worker.queue { TailApart(waiters, u); assert u in s.worker.queue; assert u.role == WorkerRole by { CalmLined(s, n, lo, last); } }
        }
        JoinAllCalm(Grant(s, v, now), waiters[1..], now, n, lo, last);
      } else {
        JoinAllCalm(s, waiters[1..], now, n, lo, last);
      }
    }
  }

  lemma {:induction false} CalmOrdered(s: State, n: nat, lo: real, last: real)
    requires Calm(s, n, lo, last)
    ensures Ordered(s.worker.queue) && Ordered(s.classifier.queue) && !Failed(s)
  {
  }

  lemma {:induction false} JoinsCalm(s: State, now: real, n: nat, lo: real, last: real)
    requires Calm(s, n, lo, last) && InSpan(lo, now) && last <= now
    ensures Calm(DispatchJoins(s, now), n, lo, last)
  {
    hide Calm, JoinAll, GrantAll, Ordered;
    CalmOrdered(s, n, lo, last);
    JoinAllCalm(s, s.worker.queue, now, n, lo, last);
    var s1 := JoinAll(s, s.worker.queue, now);
    CalmOrdered(s1, n, lo, last);
    GrantAllCalm(s1, s1.classifier.queue, now, n, lo, last);
  }

  lemma {:induction false} SameCalm(s: State, r: State, n: nat, lo: real, last: real)
    requires Calm(s, n, lo, last) && r.worker == s.worker && r.classifier == s.classifier && r.ids.next == s.ids.next
    requires |r.pool.registered| <= |s.pool.registered| && Admitted(r.held) <= Admitted(s.held) && !Failed(r)
    requires r.life.lastNow.Some? ==> r.life.lastNow.value <= last
    ensures Calm(r, n, lo, last)
  {
    hide Admitted;
    SameLined(s, r);
    hide Lined;
  }

  lemma {:induction false} DispatchCalm(s: State, now: real, n: nat, lo: real, last: real)
    requires Calm(s, n, lo, last) && InSpan(lo, now) && last <= now
    ensures Calm(Dispatch(s, now), n, lo, last)
  {
    hide Calm, DispatchJoins, DispatchFresh;
    JoinsCalm(s, now, n, lo, last);
    FreshCalm(s, now, n, lo, last);
    JoinsCalm(DispatchFresh(s, now), now, n, lo, last);
  }

  lemma {:induction false} FreshCalm(s: State, now: real, n: nat, lo: real, last: real)
    requires Calm(s, n, lo, last) && InSpan(lo, now) && last <= now
    ensures Calm(DispatchFresh(s, now), n, lo, last)
  {
    CalmLined(s, n, lo, last);
    CalmClock(s, n, lo, last);
    hide Calm, GrantAll, Grant, Lined;
    var s1 := TakeTurn(s);
    SameCalm(s, s1, n, lo, last);
    if s.worker.queue != [] {
      assert s.worker.queue[0] in s1.worker.queue;
      GrantCalm(s1, s.worker.queue[0], now, n, lo, last);
    }
    CalmOrdered(s1, n, lo, last);
    GrantAllCalm(s1, s1.classifier.queue, now, n, lo, last);
  }

  lemma {:induction false} CalmClock(s: State, n: nat, lo: real, last: real)
    requires Calm(s, n, lo, last)
    ensures s.life.lastNow.Some? ==> s.life.lastNow.value <= last
  {
  }

  // ------------------------------------------------------ every operation

  /** A good clock sample. */
  lemma {:induction false} ClockCalm(s: State, t: real, n: nat, lo: real, last: real)
    requires Calm(s, n, lo, last) && last <= t
    ensures var r := ReadClock(s, Some(t)); Calm(r, n, lo, t) && r == s.(life := s.life.(lastNow := Some(t)))
  {
    hide Fail;
    var r := ReadClock(s, Some(t));
    SameLined(s, r);
    hide Lined;
  }

  lemma {:induction false} DismissShape(s: State, v: Waiter, elapsed: nat)
    ensures var r := Dismiss(CountCancellation(s, v.role, elapsed), v, Cancelled);
            && Removed(s, v, r) && r.held == s.held && r.life == s.life && r.pool.registered == s.pool.registered
            && r.worker.grants == s.worker.grants && r.classifier.grants == s.classifier.grants
            && r.worker.cancellations == s.worker.cancellations + (if v.role.WorkerRole? then 1 else 0)
            && r.classifier.cancellations == s.classifier.cancellations + (if v.role.WorkerRole? then 0 else 1)
  {
    hide Without;
  }

  lemma {:induction false} DismissCalm(s: State, v: Waiter, n: nat, lo: real, last: real, elapsed: nat)
    requires Calm(s, n, lo, last) && v in SideOf(s, v.role).queue
    ensures Calm(Dismiss(CountCancellation(s, v.role, elapsed), v, Cancelled), n, lo, last)
  {
    CalmLined(s, n, lo, last);
    hide Calm, Lined, Removed, Admitted, Dismiss, CountCancellation;
    DismissShape(s, v, elapsed);
    LeftCalm(s, v, Dismiss(CountCancellation(s, v.role, elapsed), v, Cancelled), n, lo, last);
  }

  lemma {:induction false} CancelCalm(s: State, v: Waiter, now: real, n: nat, lo: real, last: real)
    requires Calm(s, n, lo, last) && InSpan(lo, now) && last <= now && Only(SideOf(s, v.role).queue, v)
    ensures Calm(Cancel(s, v, now), n, lo, last)
  {
    var q := SideOf(s, v.role).queue;
    if Queued(q, v.id) {
      assert q[Position(q, v.id)] in q;
      assert v in q;
      ElapsedFits(lo, v.startedAt, now);
      var e := Elapsed(now, v.startedAt).value;
      DismissCalm(s, v, n, lo, last, e);
      hide Calm, Dispatch, Dismiss, Lined;
      DispatchCalm(Dismiss(CountCancellation(s, v.role, e), v, Cancelled), now, n, lo, last);
    }
  }

  lemma {:induction false} EnqueueCalm(s: State, v: Waiter, n: nat, lo: real, last: real)
    requires Calm(s, n, lo, last) && v.id == s.ids.next && n < MAX_SAFE && lo <= v.startedAt <= last
    ensures Calm(Enqueue(s, v), n + 1, lo, last) && v in SideOf(Enqueue(s, v), v.role).queue
  {
    EnqueueLined(s, v);
    hide Lined, Admitted;
  }

  lemma {:induction false} RequestCalm(s: State, role: Role, key: Option<string>, worker: Option<nat>, aborted: bool,
                                       now: real, n: nat, lo: real)
    requires Calm(s, n, lo, now) && n < MAX_SAFE && InSpan(lo, now)
    ensures Calm(Request(s, role, key, worker, aborted, now), n + 1, lo, now)
  {
    if aborted {
      hide Calm, Fail;
      AbortedCalm(s, role, n, lo, now);
    } else {
      hide Calm, Grant, Dispatch, Enqueue, Raise;
      var v := Waiter(s.ids.next, role, key, worker, now);
      EnqueueCalm(s, v, n, lo, now);
      GrantCalm(Enqueue(s, v), v, now, n + 1, lo, now);
      DispatchCalm(Enqueue(s, v), now, n + 1, lo, now);
      var s1 := Place(Enqueue(s, v), v, now);
      CalmClock(s1, n + 1, lo, now);
      CalmLined(s1, n + 1, lo, now);
      SameCalm(s1, s1.(peaks := Raise(s1.peaks, |s1.worker.queue|, |s1.classifier.queue|)), n + 1, lo, now);
    }
  }

  lemma {:induction false} AbortedCalm(s: State, role: Role, n: nat, lo: real, last: real)
    requires Calm(s, n, lo, last) && n < MAX_SAFE
    ensures CanIncrement(SideOf(s, role).cancellations)
    ensures Calm(CountCancellation(CountRequest(s, role), role, 0), n + 1, lo, last)
  {
    var r := CountCancellation(CountRequest(s, role), role, 0);
    SameLined(s, r);
    hide Lined, Admitted;
  }

  lemma {:induction false} MoreCalm(s: State, n: nat, lo: real, last: real, n': nat, last': real)
    requires Calm(s, n, lo, last) && last <= last' && (n' == n || n <= n' <= MAX_SAFE)
    ensures Calm(s, n', lo, last')
  {
    hide Lined, Admitted;
  }

  lemma {:induction false} DetachCounts(h: Held, ticket: nat)
    requires ticket in h.tickets
    ensures Admitted(Detach(h, ticket)) <= Admitted(h)
  {
    if h.group.Some? {
      var refs := h.group.value.references;
      assert refs - {ticket} <= refs;
      Subset(refs - {ticket}, refs);
    }
  }

  lemma {:induction false} Subset(a: set<nat>, b: set<nat>)
    requires a <= b
    ensures |a| <= |b|
  {
    assert b == a + (b - a);
  }

  lemma {:induction false} CloseAllCalm(s: State, waiters: seq<Waiter>, now: real, n: nat, lo: real, last: real)
    requires Calm(s, n, lo, last) && InSpan(lo, now) && last <= now && s.life.closed
    requires forall v: Waiter :: v in waiters ==> Only(SideOf(s, v.role).queue, v)
    ensures Calm(CancelAll(s, waiters, now), n, lo, last)
    decreases |waiters|
  {
    hide Calm, Cancel, Only;
    if waiters != [] && !Failed(s) {
      assert waiters[0] in waiters;
      CancelCalm(s, waiters[0], now, n, lo, last);
      var s1 := Cancel(s, waiters[0], now);
      assert Lined(s) by { CalmLined(s, n, lo, last); }
      ClosedCancel(s, waiters[0], now);
      if !Failed(s1) {
        forall v | v in waiters[1..] ensures Only(SideOf(s1, v.role).queue, v) {
          assert v in waiters;
          OnlyWithin(SideOf(s, v.role).queue, SideOf(s1, v.role).queue, v);
        }
        CloseAllCalm(s1, waiters[1..], now, n, lo, last);
      } else {
        CalmLined(s1, n, lo, last);
      }
    }
  }

  lemma {:induction false} OnlyWithin(q: seq<Waiter>, q': seq<Waiter>, v: Waiter)
    requires Only(q, v) && Within(q', q)
    ensures Only(q', v)
  {
  }

  /** A closed allocator cancels without dispatching. */
  lemma {:induction false} ClosedCancel(s: State, v: Waiter, now: real)
    requires Lined(s) && s.life.closed
    ensures var r := Cancel(s, v, now);
            !Failed(r) ==> Within(r.worker.queue, s.worker.queue) && Within(r.classifier.queue, s.classifier.queue) && r.life.closed
  {
    WithoutLined(s.worker.queue, v.id, WorkerRole, s.ids.next);
    WithoutLined(s.classifier.queue, v.id, ClassifierRole, s.ids.next);
    hide Without, Fail, Clear, Lined;
  }

  lemma {:induction false} RegisterCalm(s: State, n: nat, lo: real, last: real)
    requires Calm(s, n, lo, last) && n < MAX_SAFE
    ensures Calm(Register(s), n + 1, lo, last)
  {
    var r := Register(s);
    assert Lined(r) by {
      assert Below(r.worker.queue, r.ids.next) && Below(r.classifier.queue, r.ids.next);
      hide Below, Ordered;
    }
    hide Lined, Admitted;
  }

  lemma {:induction false} DoRegisterCalm(s: State, t: real, n: nat, lo: real, last: real)
    requires Calm(s, n, lo, last) && n < MAX_SAFE && last <= t
    ensures Calm(DoRegister(s, Some(t)).0, n + 1, lo, t)
  {
    hide Lined, Admitted, ReadClock, Register, Fail;
    ClockCalm(s, t, n, lo, last);
    var s1 := ReadClock(s, Some(t));
    MoreCalm(s1, n, lo, t, n + 1, t);
    RegisterCalm(s1, n, lo, t);
  }

  lemma {:induction false} AcquireCalm(s: State, worker: nat, key: Option<string>, groupKey: string, aborted: bool, t: real,
                                       n: nat, lo: real, last: real)
    requires Calm(s, n, lo, last) && n < MAX_SAFE && last <= t && InSpan(lo, t)
    ensures Calm(DoAcquireWorker(s, worker, key, aborted, Some(t)).0, n + 1, lo, t)
    ensures Calm(DoAcquireClassifier(s, groupKey, aborted, Some(t)).0, n + 1, lo, t)
  {
    hide Calm, ReadClock, Request;
    ClockCalm(s, t, n, lo, last);
    var s1 := ReadClock(s, Some(t));
    CalmLined(s1, n, lo, t);
    MoreCalm(s1, n, lo, t, n + 1, t);
    RequestCalm(s1, WorkerRole, key, Some(worker), aborted, t, n, lo);
    RequestCalm(s1, ClassifierRole, Some(groupKey), None, aborted, t, n, lo);
  }

  lemma {:induction false} BindCalm(s: State, ticket: nat, key: string, t: real, n: nat, lo: real, last: real)
    requires Calm(s, n, lo, last) && last <= t && InSpan(lo, t)
    ensures Calm(DoBind(s, ticket, key, Some(t)).0, n, lo, t)
  {
    MoreCalm(s, n, lo, last, n, t);
    ClockCalm(s, t, n, lo, last);
    var s1 := ReadClock(s, Some(t));
    CalmLined(s1, n, lo, t);
    hide Calm, ReadClock, Dispatch, Lined;
    if ticket in s.held.tickets && s.held.unbound == Some(ticket) {
      var s2 := s1.(held := Bind(s.held, ticket, key));
      SameCalm(s1, s2, n, lo, t);
      DispatchCalm(s2, t, n, lo, t);
    }
  }

  lemma {:induction false} ReleaseCalm(s: State, ticket: nat, t: real, n: nat, lo: real, last: real)
    requires Calm(s, n, lo, last) && last <= t && InSpan(lo, t)
    ensures Calm(DoRelease(s, ticket, Some(t)).0, n, lo, t)
  {
    MoreCalm(s, n, lo, last, n, t);
    CalmLined(s, n, lo, last);
    CalmClock(s, n, lo, last);
    hide Calm, ReadClock, Dispatch, Lined, Detach, Admitted;
    if ticket in s.held.tickets && s.held.tickets[ticket].state != Released {
      var s1 := s.(held := Detach(s.held, ticket), pool := Clear(s.pool, s.held.tickets[ticket].worker, Holding(ticket)));
      DetachCounts(s.held, ticket);
      SameCalm(s, s1, n, lo, last);
      MoreCalm(s1, n, lo, last, n, t);
      ClockCalm(s1, t, n, lo, last);
      DispatchCalm(ReadClock(s1, Some(t)), t, n, lo, t);
    }
  }

  lemma {:induction false} QueueOnly(s: State, v: Waiter, n: nat, lo: real, last: real)
    requires Calm(s, n, lo, last) && (v in s.worker.queue || v in s.classifier.queue)
    ensures Only(SideOf(s, v.role).queue, v)
  {
    var q := SideOf(s, v.role).queue;
    forall u | u in q && u.id == v.id ensures u == v { SameWaiter(q, u, v); }
  }

  lemma {:induction false} AbortCalm(s: State, v: Waiter, t: real, n: nat, lo: real, last: real)
    requires Calm(s, n, lo, last) && last <= t && InSpan(lo, t)
    ensures Calm(DoAbort(s, v, Some(t)).0, n, lo, t)
  {
    hide Calm, ReadClock, Cancel, Only;
    MoreCalm(s, n, lo, last, n, t);
    ClockCalm(s, t, n, lo, last);
    var s1 := ReadClock(s, Some(t));
    if v in SideOf(s, v.role).queue {
      QueueOnly(s1, v, n, lo, t);
      CancelCalm(s1, v, t, n, lo, t);
    }
  }

  lemma {:induction false} UnregisterCalm(s: State, which: set<nat>, closed: bool, n: nat, lo: real, last: real)
    requires Calm(s, n, lo, last)
    ensures Calm(s.(life := s.life.(closed := closed), pool := Unregister(s.pool, which)), n, lo, last)
  {
    var r := s.(life := s.life.(closed := closed), pool := Unregister(s.pool, which));
    Subset(s.pool.registered - which, s.pool.registered);
    CalmLined(s, n, lo, last);
    CalmClock(s, n, lo, last);
    hide Calm, Lined;
    SameCalm(s, r, n, lo, last);
  }

  lemma {:induction false} CloseWorkerCalm(s: State, worker: nat, t: real, n: nat, lo: real, last: real)
    requires Calm(s, n, lo, last) && last <= t && InSpan(lo, t)
    ensures Calm(DoCloseWorker(s, worker, Some(t)).0, n, lo, t)
  {
    hide Calm, ReadClock, Cancel, Only, Unregister;
    MoreCalm(s, n, lo, last, n, t);
    ClockCalm(s, t, n, lo, last);
    var s1 := ReadClock(s, Some(t));
    CalmLined(s1, n, lo, t);
    UnregisterCalm(s1, {worker}, s1.life.closed, n, lo, t);
    var s2 := s1.(pool := Unregister(s1.pool, {worker}));
    assert s1.(life := s1.life.(closed := s1.life.closed), pool := Unregister(s1.pool, {worker})) == s2;
    var p := WaiterOf(s2.worker.queue, worker);
    if p < |s2.worker.queue| {
      QueueOnly(s2, s2.worker.queue[p], n, lo, t);
      CancelCalm(s2, s2.worker.queue[p], t, n, lo, t);
    }
  }

  lemma {:induction false} CloseCalm(s: State, t: real, n: nat, lo: real, last: real)
    requires Calm(s, n, lo, last) && last <= t && InSpan(lo, t)
    ensures Calm(DoClose(s, Some(t)).0, n, lo, t)
  {
    hide Calm, ReadClock, CancelAll, Only, Unregister;
    MoreCalm(s, n, lo, last, n, t);
    ClockCalm(s, t, n, lo, last);
    var s1 := ReadClock(s, Some(t));
    CalmLined(s1, n, lo, t);
    UnregisterCalm(s1, s1.pool.registered, true, n, lo, t);
    var s2 := s1.(life := s1.life.(closed := true), pool := Unregister(s1.pool, s1.pool.registered));
    forall v | v in s2.worker.queue + s2.classifier.queue ensures Only(SideOf(s2, v.role).queue, v) {
      QueueOnly(s2, v, n, lo, t);
    }
    CloseAllCalm(s2, s2.worker.queue + s2.classifier.queue, t, n, lo, t);
  }

  lemma {:induction false} StepCalm(s: State, e: Event, t: real, n: nat, lo: real, last: real)
    requires Calm(s, n, lo, last) && n < MAX_SAFE && e.clock == Some(t) && last <= t && InSpan(lo, t)
    ensures Calm(Step(s, e), n + 1, lo, t)
  {
    hide Calm, DoRegister, DoAcquireWorker, DoAcquireClassifier, DoBind, DoRelease, DoAbort, DoCloseWorker, DoClose;
    match e
    case RegisterWorker(_) => DoRegisterCalm(s, t, n, lo, last);
    case AcquireWorker(worker, key, aborted, _) => AcquireCalm(s, worker, key, "", aborted, t, n, lo, last);
    case AcquireClassifier(key, aborted, _) => AcquireCalm(s, 0, None, key, aborted, t, n, lo, last);
    case BindGroup(ticket, key, _) => BindCalm(s, ticket, key, t, n, lo, last); MoreCalm(Step(s, e), n, lo, t, n + 1, t);
    case Release(ticket, _) => ReleaseCalm(s, ticket, t, n, lo, last); MoreCalm(Step(s, e), n, lo, t, n + 1, t);
    case Abort(v, _) => AbortCalm(s, v, t, n, lo, last); MoreCalm(Step(s, e), n, lo, t, n + 1, t);
    case CloseWorker(worker, _) => CloseWorkerCalm(s, worker, t, n, lo, last); MoreCalm(Step(s, e), n, lo, t, n + 1, t);
    case Close(_) => CloseCalm(s, t, n, lo, last); MoreCalm(Step(s, e), n, lo, t, n + 1, t);
  }

  // ------------------------------------------------------------- the theorem

  /** Every sample is a number, none is below the one before, and none is more than 2^53 - 1 above `lo`. */
  predicate SteadyClock(events: seq<Event>, lo: real, last: real)
    decreases |events|
  {
    events == [] ||
    (events[0].clock.Some? && last <= events[0].clock.value <= lo + MAX_SAFE as real
     && SteadyClock(events[1..], lo, events[0].clock.value))
  }

  lemma {:induction false} RunCalm(s: State, events: seq<Event>, n: nat, lo: real, last: real)
    requires Calm(s, n, lo, last) && n + |events| <= MAX_SAFE && lo <= last && SteadyClock(events, lo, last)
    ensures !Failed(Run(s, events))
    decreases |events|
  {
    CalmLined(s, n, lo, last);
    hide Calm, Step;
    if events != [] {
      var t := events[0].clock.value;
      StepCalm(s, events[0], t, n, lo, last);
      RunCalm(Step(s, events[0]), events[1..], n + 1, lo, t);
    }
  }

  /** Nothing but its clock or 2^53 operations makes the allocator fail closed. */
  lemma {:induction false} NeverFailsWithoutCause(events: seq<Event>, lo: real)
    requires |events| <= MAX_SAFE && SteadyClock(events, lo, lo)
    ensures !Failed(Run(Initial, events))
  {
    RunCalm(Initial, events, 0, lo, lo);
  }
}
