/**
 Whole runs of the hydration admission: the invariant is never broken, and
 neither role is bypassed without bound.
 */
module AdmissionRuns {
  import opened Prelude
  import opened AdmissionSpec
  import opened AdmissionInvariant
  import opened AdmissionDispatch

  // ------------------------------------------------------------- fairness

  function Owed(t: Turn): nat {
    if t.next.ClassifierRole? then 1 else 0
  }

  function FreshAdmissions(s: State): nat {
    s.turn.freshWorkers + s.turn.freshClassifiers
  }

  /** Twice the waiters ahead, plus the turn owed to classifiers, plus the fresh admissions so far. */
  function Score(s: State, id: nat): nat {
    2 * Position(s.worker.queue, id) + Owed(s.turn) + FreshAdmissions(s)
  }

  /** A worker that still waits was waiting before, and every fresh admission brought it forward. */
  ghost predicate WorkerFair(s: State, r: State) {
    && s.ids.next <= r.ids.next
    && forall id: nat :: Queued(r.worker.queue, id) && id < s.ids.next ==>
         Queued(s.worker.queue, id) && Score(r, id) <= Score(s, id)
  }

  /** While classifiers wait, a fresh worker admission uses up the workers' turn. */
  ghost predicate ClassifierFair(s: State, r: State) {
    s.classifier.queue != [] && r.classifier.queue != [] ==>
      r.turn.freshClassifiers == s.turn.freshClassifiers
      && r.turn.freshWorkers - Owed(r.turn) <= s.turn.freshWorkers - Owed(s.turn)
  }

  ghost predicate Fair(s: State, r: State) {
    !Failed(r) ==> WorkerFair(s, r) && ClassifierFair(s, r)
  }

  /** Nobody was added, and the peaks stand. */
  ghost predicate Drained(s: State, r: State) {
    !Failed(r) ==>
      && |r.worker.queue| <= |s.worker.queue| && (r.classifier.queue != [] ==> s.classifier.queue != [])
      && SamePeaks(s, r) && r.life == s.life
  }

  lemma {:induction false} DrainedPeaks(s: State, r: State)
    requires PeaksOk(s) && Drained(s, r) && Quiet(r)
    ensures Inv(r)
  {
  }

  lemma {:induction false} AdvancedFair(s: State, r: State)
    requires Advanced(s.worker.queue, r.worker.queue) && r.turn == s.turn && s.ids.next <= r.ids.next
    ensures WorkerFair(s, r) && ClassifierFair(s, r)
  {
  }

  lemma {:induction false} FairTransitive(s: State, s1: State, r: State)
    requires WorkerFair(s, s1) && WorkerFair(s1, r)
    ensures WorkerFair(s, r)
  {
    hide Position, Queued;
  }

  lemma {:induction false} TailPosition(q: seq<Waiter>, id: nat)
    requires q != [] && Queued(q[1..], id) && Ordered(q)
    ensures Queued(q, id) && Position(q, id) == Position(q[1..], id) + 1
  {
  }

  /** A fresh admission: the head worker leaves, or all classifiers do, and contested turns alternate. */
  lemma {:induction false} FreshFair(s: State, r: State)
    requires s.worker.queue != [] || s.classifier.queue != []
    requires r.turn == TakeTurn(s).turn && s.ids.next == r.ids.next && Ordered(s.worker.queue)
    requires if NextRole(s).WorkerRole?
             then s.worker.queue != [] && r.worker.queue == s.worker.queue[1..] && r.classifier.queue == s.classifier.queue
             else r.worker.queue == s.worker.queue && r.classifier.queue == []
    ensures WorkerFair(s, r) && ClassifierFair(s, r)
  {
    forall id: nat | Queued(r.worker.queue, id) && id < s.ids.next
      ensures Queued(s.worker.queue, id) && Score(r, id) <= Score(s, id)
    {
      if NextRole(s).WorkerRole? { TailPosition(s.worker.queue, id); }
    }
  }

  /** The two halves of a dispatch after a fresh admission, put together. */
  lemma {:induction false} ClassifierFairChain(s: State, s1: State, r: State)
    requires ClassifierFair(s, s1) && ClassifierFair(s1, r)
    requires r.classifier.queue != [] ==> s1.classifier.queue != []
    ensures ClassifierFair(s, r)
  {
  }

  lemma {:induction false} JoinsFair(s: State, now: real)
    requires Core(s) && OneKey(s.classifier.queue) && s.held.group.Some?
    ensures var r := DispatchJoins(s, now); Fair(s, r) && Drained(s, r)
  {
    hide DispatchJoins, Core, Down, Advanced;
    JoinsSettle(s, now);
    var r := DispatchJoins(s, now);
    if !Failed(r) {
      AdvancedFair(s, r);
      AdvancedShorter(s.worker.queue, r.worker.queue);
    }
  }

  lemma {:induction false} AdvancedShorter(q: seq<Waiter>, q': seq<Waiter>)
    requires Advanced(q, q')
    ensures |q'| <= |q|
  {
  }

  lemma {:induction false} SameFair(s: State)
    ensures Fair(s, s) && Drained(s, s)
  {
  }

  /** A dispatch never bypasses a waiting role beyond its turn. */
  lemma {:induction false} DispatchFair(s: State, now: real)
    requires Core(s) && OneKey(s.classifier.queue)
    ensures var r := Dispatch(s, now); Fair(s, r) && Drained(s, r)
  {
    hide DispatchFresh, DispatchJoins, Core, Fair, WorkerFair, ClassifierFair;
    CoreFacts(s);
    if s.life.closed || s.held.unbound.Some? {
      SameFair(s);
    } else if s.held.group.Some? {
      JoinsFair(s, now);
    } else if s.worker.queue == [] && s.classifier.queue == [] {
      SameFair(s);
    } else {
      FreshThenJoinsFair(s, now);
    }
  }

  lemma {:induction false} FreshThenJoinsFair(s: State, now: real)
    requires Core(s) && OneKey(s.classifier.queue) && IsIdle(s.held)
    requires (s.worker.queue != [] || s.classifier.queue != [])
    requires !s.life.closed
    ensures var r := Dispatch(s, now); Fair(s, r) && Drained(s, r)
  {
    hide DispatchFresh, DispatchJoins, Core, Down, WorkerFair, ClassifierFair, OneKey, Ordered;
    CoreFacts(s);
    FreshAdmission(s, now);
    var s1 := DispatchFresh(s, now);
    if Failed(s1) {
      DownQuiet(s1);
    } else {
      FreshFair(s, s1);
      if s1.held.unbound.None? {
        assert OneKey(s1.classifier.queue) by { WithinKeepsKey(s1.classifier.queue, s.classifier.queue); }
        JoinsFair(s1, now);
        var r := DispatchJoins(s1, now);
        if !Failed(r) {
          FairTransitive(s, s1, r);
          ClassifierFairChain(s, s1, r);
        }
      }
    }
  }

  // ------------------------------------------------------------ the clock

  lemma {:induction false} LifeKeepsCore(s: State, r: State)
    requires Core(s) && r == s.(life := r.life) && !Failed(r)
    ensures Core(r)
  {
  }

  lemma {:induction false} ClockKeepsCore(s: State, sample: Option<real>)
    requires Core(s)
    ensures var r := ReadClock(s, sample);
            if Failed(r) then Down(r) else Core(r) && r == s.(life := s.life.(lastNow := sample))
  {
    FailRoles(s);
    hide Core, Fail, Down;
    CoreFacts(s);
    var r := ReadClock(s, sample);
    if Failed(r) { FailKeeps(s, InvalidClock); } else { LifeKeepsCore(s, r); }
  }

  lemma {:induction false} FailRoles(s: State)
    requires Core(s)
    ensures HeldOk(s.held)
  {
  }

  lemma {:induction false} FailKeeps(s: State, code: FailureCode)
    requires Core(s)
    ensures Down(Fail(s, code))
  {
    OwnedOnce(s);
    FailGoesDown(s, code);
  }

  // --------------------------------------------------------- cancellation

  lemma {:induction false} ClearIsAssign(p: Pool, w: Waiter)
    requires w.worker.Some? ==> w.worker.value in p.workers && p.workers[w.worker.value].outstanding == Waiting(w.id)
    ensures Clear(p, w.worker, Waiting(w.id)) == Assign(p, w.worker, Idle)
  {
  }

  function CancelOut(s: State, w: Waiter, elapsed: nat): State {
    Dismiss(CountCancellation(s, w.role, elapsed), w, Cancelled)
  }

  lemma {:induction false} CancelOutSettles(s: State, w: Waiter, elapsed: nat)
    requires w in SideOf(s, w.role).queue && w.id !in s.held.tickets
    requires |Without(SideOf(s, w.role).queue, w.id)| == |SideOf(s, w.role).queue| - 1
    requires Counted(s.worker) && Counted(s.classifier)
    requires Clear(s.pool, w.worker, Waiting(w.id)) == Assign(s.pool, w.worker, Idle)
    ensures var r := CancelOut(s, w, elapsed);
            Settles(s, w, Cancelled, Idle, r) && Counted(r.worker) && Counted(r.classifier) && r.held == s.held
  {
    AssignKeys(s.pool, w.worker, Idle);
    hide Without, Assign, Clear;
    var r := CancelOut(s, w, elapsed);
    assert r.ids.settled.Keys == s.ids.settled.Keys + {w.id};
  }

  lemma {:induction false} CancelOutKeepsCore(s: State, w: Waiter, elapsed: nat)
    requires Core(s) && w in SideOf(s, w.role).queue
    ensures var r := CancelOut(s, w, elapsed); Core(r) && Left(s, w, r) && r.held == s.held
  {
    WorkerIffRole(s, w);
    WithoutProps(SideOf(s, w.role).queue, w.id);
    ClearIsAssign(s.pool, w);
    CancelOutSettles(s, w, elapsed);
    hide CancelOut, Without, Assign;
    SettlingKeepsCore(s, w, Cancelled, Idle, CancelOut(s, w, elapsed));
  }

  lemma {:induction false} LeftMoves(s: State, w: Waiter, r: State)
    requires Core(s) && OneKey(s.classifier.queue) && w in SideOf(s, w.role).queue && Left(s, w, r)
    ensures OneKey(r.classifier.queue) && (ClosedOk(s) ==> ClosedOk(r))
    ensures WorkerFair(s, r) && ClassifierFair(s, r) && Drained(s, r)
  {
    hide Core, WorkerFair, ClassifierFair;
    CoreFacts(s);
    var q := SideOf(s, w.role).queue;
    WithoutAdvances(q, w.id);
    hide Without, Advanced;
    AdvancedReflexive(s.worker.queue);
    AdvancedWithin(q, Without(q, w.id));
    AdvancedShorter(q, Without(q, w.id));
    if !w.role.WorkerRole? { WithinKeepsKey(r.classifier.queue, s.classifier.queue); }
    AdvancedFair(s, r);
  }

  lemma {:induction false} MovesTransitive(s: State, s1: State, r: State)
    requires !Failed(s1) && Fair(s, s1) && Fair(s1, r) && Drained(s, s1) && Drained(s1, r)
    ensures Fair(s, r) && Drained(s, r)
  {
    hide WorkerFair, ClassifierFair;
    if !Failed(r) {
      FairTransitive(s, s1, r);
      ClassifierFairChain(s, s1, r);
    }
  }

  /** A cancellation of a queued request leaves the allocator quiet. */
  lemma {:induction false} CancelSettles(s: State, w: Waiter, now: real)
    requires Core(s) && OneKey(s.classifier.queue) && ClosedOk(s) && w in SideOf(s, w.role).queue
    ensures var r := Cancel(s, w, now); Quiet(r) && Fair(s, r) && Drained(s, r)
  {
    hide Core, Dispatch, WorkerFair, ClassifierFair, OneKey, ClosedOk, Fail, Quiet, Dismiss;
    var e := Elapsed(now, w.startedAt);
    if e.None? {
      FailKeeps(s, InvalidClock);
      DownQuiet(Fail(s, InvalidClock));
    } else if !CanIncrement(SideOf(s, w.role).cancellations) {
      FailKeeps(s, CounterOverflow);
      DownQuiet(Fail(s, CounterOverflow));
    } else {
      var s1 := CancelOut(s, w, e.value);
      CancelOutKeepsCore(s, w, e.value);
      LeftMoves(s, w, s1);
      CoreFacts(s1);
      DispatchSettles(s1, now);
      DispatchFair(s1, now);
      MovesTransitive(s, s1, Dispatch(s1, now));
    }
  }

  lemma {:induction false} CancelClosedStep(s: State, w: Waiter, now: real)
    requires Core(s) && s.life.closed && w in SideOf(s, w.role).queue
    ensures var r := Cancel(s, w, now);
            if Failed(r) then Down(r) else Core(r) && Left(s, w, r) && r.held == s.held
  {
    hide Core, Down, Fail, Dismiss;
    var e := Elapsed(now, w.startedAt);
    if e.None? {
      FailKeeps(s, InvalidClock);
    } else if !CanIncrement(SideOf(s, w.role).cancellations) {
      FailKeeps(s, CounterOverflow);
    } else {
      CancelOutKeepsCore(s, w, e.value);
      CoreFacts(CancelOut(s, w, e.value));
    }
  }

  lemma {:induction false} CancelHead(s: State, now: real)
    requires Core(s) && s.life.closed && s.worker.queue + s.classifier.queue != []
    ensures var waiters := s.worker.queue + s.classifier.queue;
            var r := Cancel(s, waiters[0], now);
            if Failed(r) then Down(r) else Core(r) && Onward(s, r) && r.worker.queue + r.classifier.queue == waiters[1..]
  {
    hide Core, Down, Cancel, Without;
    CoreFacts(s);
    var waiters := s.worker.queue + s.classifier.queue;
    var w := waiters[0];
    var q := SideOf(s, w.role).queue;
    assert w == q[0] && w in q;
    CancelClosedStep(s, w, now);
    WithoutHead(q);
  }

  lemma {:induction false} OnwardTransitive(a: State, b: State, c: State)
    requires Onward(a, b) && Onward(b, c)
    ensures Onward(a, c)
  {
  }

  lemma {:induction false} OnwardLife(a: State, b: State)
    requires Onward(a, b)
    ensures a.life == b.life
  {
  }

  /** Closing cancels every pending request. */
  lemma {:induction false} CancelAllEmpties(s: State, now: real)
    requires Core(s) && s.life.closed
    ensures var r := CancelAll(s, s.worker.queue + s.classifier.queue, now);
            if Failed(r) then Down(r) else Core(r) && Onward(s, r) && r.worker.queue == [] && r.classifier.queue == []
    decreases |s.worker.queue| + |s.classifier.queue|
  {
    assert !Failed(s) by { CoreFacts(s); }
    hide Core, Down, Cancel, Onward;
    var waiters := s.worker.queue + s.classifier.queue;
    if waiters == [] {
      OnwardSelf(s);
    } else {
      CancelHead(s, now);
      var s1 := Cancel(s, waiters[0], now);
      if !Failed(s1) {
        OnwardLife(s, s1);
        CancelAllEmpties(s1, now);
        var r := CancelAll(s1, s1.worker.queue + s1.classifier.queue, now);
        if !Failed(r) { OnwardTransitive(s, s1, r); }
      }
    }
  }

  lemma {:induction false} OnwardSelf(s: State)
    ensures Onward(s, s)
  {
  }

  // ------------------------------------------------------------- arrivals

  /** A request that may be queued: the next identity, from an idle worker or from a classifier. */
  ghost predicate Arrives(s: State, w: Waiter) {
    && w.id == s.ids.next
    && (w.role.WorkerRole? ==> w.worker.Some? && w.worker.value in s.pool.workers
                               && s.pool.workers[w.worker.value].outstanding == Idle)
    && (w.role.ClassifierRole? ==> w.worker.None? && w.key.Some?)
  }

  lemma {:induction false} AppendQueue(s: State, q: seq<Waiter>, w: Waiter, r: State)
    requires Ordered(q) && Pending(q, s.held, s.ids, s.pool) && HasRole(q, w.role)
    requires w.id == s.ids.next && w.id !in s.held.tickets && w.id !in s.ids.settled && w.id !in s.pool.workers
    requires r.held == s.held && r.ids == s.ids.(next := s.ids.next + 1) && r.pool.workers.Keys == s.pool.workers.Keys
    ensures Ordered(q + [w]) && Pending(q + [w], r.held, r.ids, r.pool) && HasRole(q + [w], w.role)
  {
    assert forall v :: v in q + [w] ==> v in q || v == w;
    assert forall i :: 0 <= i < |q| ==> q[i] in q;
  }

  /** Waiting elsewhere is not disturbed by a new identity. */
  lemma {:induction false} PendingGrows(q: seq<Waiter>, h: Held, ids: Ids, p: Pool, ids': Ids, p': Pool)
    requires Pending(q, h, ids, p) && ids' == ids.(next := ids.next + 1) && p'.workers.Keys == p.workers.Keys
    ensures Pending(q, h, ids', p')
  {
  }

  lemma {:induction false} ApartAppend(a: seq<Waiter>, b: seq<Waiter>, w: Waiter, h: Held, ids: Ids, p: Pool)
    requires Apart(a, b) && Pending(a, h, ids, p) && Pending(b, h, ids, p) && w.id == ids.next
    ensures Apart(a + [w], b) && Apart(a, b + [w])
  {
    assert forall v :: v in a + [w] ==> v in a || v == w;
    assert forall v :: v in b + [w] ==> v in b || v == w;
  }

  lemma {:induction false} KeyedAppend(q: seq<Waiter>, w: Waiter)
    requires Keyed(q) && w.key.Some? && w.worker.None?
    ensures Keyed(q + [w])
  {
  }

  lemma {:induction false} NextIsNew(s: State, w: Waiter)
    requires RegistryOk(s.pool, s.ids) && SettledOk(s.held, s.ids) && w.id == s.ids.next
    ensures w.id !in s.held.tickets && w.id !in s.ids.settled && w.id !in s.pool.workers
  {
  }

  lemma {:induction false} EnqueueQueues(s: State, w: Waiter)
    requires QueuesOk(s) && RegistryOk(s.pool, s.ids) && SettledOk(s.held, s.ids) && Arrives(s, w)
    ensures QueuesOk(Enqueue(s, w))
  {
    hide Assign, Ordered, Pending, HasRole, Apart, Keyed, RegistryOk, SettledOk;
    AssignKeys(s.pool, w.worker, Waiting(w.id));
    NextIsNew(s, w);
    var r := Enqueue(s, w);
    AppendQueue(s, SideOf(s, w.role).queue, w, r);
    ApartAppend(s.worker.queue, s.classifier.queue, w, s.held, s.ids, s.pool);
    PendingGrows(s.worker.queue, s.held, s.ids, s.pool, r.ids, r.pool);
    PendingGrows(s.classifier.queue, s.held, s.ids, s.pool, r.ids, r.pool);
    if w.role.ClassifierRole? { KeyedAppend(s.classifier.queue, w); }
  }

  lemma {:induction false} EnqueueOwners(s: State, w: Waiter)
    requires OwnersOk(s) && Arrives(s, w) && HasRole(s.worker.queue, WorkerRole)
    ensures OwnersOk(Enqueue(s, w))
  {
    var r := Enqueue(s, w);
    forall x | x in r.pool.workers && r.pool.workers[x].outstanding.Waiting?
      ensures Owns(r.worker.queue, r.pool.workers[x].outstanding.waiter, x)
    {
      if w.worker == Some(x) {
        assert w in r.worker.queue;
      } else {
        assert ItemReal(x, s.pool.workers[x].outstanding, s.worker.queue, s.held);
        var v :| v in s.worker.queue && v.id == s.pool.workers[x].outstanding.waiter && v.worker == Some(x);
        assert v in r.worker.queue;
      }
    }
  }

  lemma {:induction false} AppendQueued(q: seq<Waiter>, w: Waiter, id: nat)
    ensures Queued(q, id) ==> Queued(q + [w], id) && Position(q + [w], id) == Position(q, id)
    ensures Queued(q + [w], w.id)
  {
    if Queued(q, id) {
      var p := Position(q, id);
      assert (q + [w])[p] == q[p];
      assert forall i :: 0 <= i < p ==> (q + [w])[i] == q[i];
    }
    assert (q + [w])[|q|] == w;
  }

  lemma {:induction false} EnqueueBooks(s: State, w: Waiter)
    requires BooksOk(s) && Arrives(s, w)
    ensures BooksOk(Enqueue(s, w))
  {
    AssignKeys(s.pool, w.worker, Waiting(w.id));
    var r := Enqueue(s, w);
    forall id | 0 <= id < r.ids.next
      ensures id in r.pool.workers || Queued(r.worker.queue, id) || Queued(r.classifier.queue, id) || id in r.ids.settled
    {
      AppendQueued(SideOf(s, w.role).queue, w, id);
    }
  }

  lemma {:induction false} EnqueueKeepsCore(s: State, w: Waiter)
    requires Core(s) && Arrives(s, w)
    ensures Core(Enqueue(s, w))
  {
    EnqueueQueues(s, w);
    EnqueueOwners(s, w);
    EnqueueBooks(s, w);
  }

  // -------------------------------------------------------------- permits

  lemma {:induction false} DetachKeepsHeld(h: Held, ticket: nat)
    requires HeldOk(h) && ticket in h.tickets && !h.tickets[ticket].state.Released?
    ensures HeldOk(Detach(h, ticket))
    ensures OneTicket(h) ==> OneTicket(Detach(h, ticket))
  {
    var r := Detach(h, ticket);
    forall t | t in r.tickets && r.tickets[t].state.Bound?
      ensures r.group.Some? && t in r.group.value.references
    {
      assert t in h.tickets && h.tickets[t].state.Bound?;
      assert t in h.group.value.references - {ticket};
    }
  }

  function Freed(s: State, ticket: nat): State
    requires ticket in s.held.tickets
  {
    s.(held := Detach(s.held, ticket), pool := Clear(s.pool, s.held.tickets[ticket].worker, Holding(ticket)))
  }

  lemma {:induction false} DetachOwners(s: State, ticket: nat)
    requires OwnersOk(s) && ticket in s.held.tickets && !s.held.tickets[ticket].state.Released?
    ensures OwnersOk(Freed(s, ticket))
  {
    var r := Freed(s, ticket);
    assert Detach(s.held, ticket).tickets == s.held.tickets[ticket := s.held.tickets[ticket].(state := TicketState.Released)];
    hide Detach;
    forall x | x in r.pool.workers
      ensures ItemReal(x, r.pool.workers[x].outstanding, r.worker.queue, r.held)
    {
      assert ItemReal(x, s.pool.workers[x].outstanding, s.worker.queue, s.held);
    }
  }

  /** Queue facts depend on identities only. */
  lemma {:induction false} PoolKeepsQueues(s: State, r: State)
    requires QueuesOk(s) && r == s.(held := r.held, pool := r.pool)
    requires r.held.tickets.Keys == s.held.tickets.Keys && r.pool.workers.Keys == s.pool.workers.Keys
    ensures QueuesOk(r)
  {
  }

  lemma {:induction false} DetachKeepsCore(s: State, ticket: nat)
    requires Core(s) && ticket in s.held.tickets && !s.held.tickets[ticket].state.Released?
    ensures Core(Freed(s, ticket))
  {
    hide Detach, HeldOk, OwnersOk, QueuesOk, BooksOk, Clear;
    DetachKeepsHeld(s.held, ticket);
    DetachOwners(s, ticket);
    DetachKeys(s, ticket);
    PoolKeepsQueues(s, Freed(s, ticket));
    DetachBooks(s, ticket);
  }

  lemma {:induction false} DetachKeys(s: State, ticket: nat)
    requires ticket in s.held.tickets
    ensures Detach(s.held, ticket).tickets.Keys == s.held.tickets.Keys
    ensures Freed(s, ticket).pool.workers.Keys == s.pool.workers.Keys
  {
  }

  lemma {:induction false} DetachBooks(s: State, ticket: nat)
    requires BooksOk(s) && ticket in s.held.tickets
    ensures BooksOk(Freed(s, ticket))
  {
    hide Detach;
    DetachKeys(s, ticket);
  }

  lemma {:induction false} BindKeepsCore(s: State, ticket: nat, key: string)
    requires Core(s) && ticket in s.held.tickets && s.held.unbound == Some(ticket)
    ensures Core(s.(held := Bind(s.held, ticket, key)))
  {
    assert Bind(s.held, ticket, key).tickets.Keys == s.held.tickets.Keys;
  }

  // -------------------------------------------------------------- workers

  lemma {:induction false} UnregisterKeepsCore(s: State, which: set<nat>)
    requires Core(s) && which <= s.pool.registered
    ensures Core(s.(pool := Unregister(s.pool, which)))
  {
    assert Unregister(s.pool, which).workers.Keys == s.pool.workers.Keys;
  }

  lemma {:induction false} RegisterQueues(s: State)
    requires QueuesOk(s)
    ensures QueuesOk(Register(s))
  {
    var r := Register(s);
    assert Pending(s.worker.queue, r.held, r.ids, r.pool) && Pending(s.classifier.queue, r.held, r.ids, r.pool);
    hide Pending;
  }

  lemma {:induction false} RegisterOwners(s: State)
    requires OwnersOk(s) && RegistryOk(s.pool, s.ids)
    ensures OwnersOk(Register(s))
  {
    var r := Register(s);
    forall x | x in r.pool.workers
      ensures ItemReal(x, r.pool.workers[x].outstanding, r.worker.queue, r.held)
    {
      if x != s.ids.next { assert ItemReal(x, s.pool.workers[x].outstanding, s.worker.queue, s.held); }
    }
    assert WaitersOwned(r.worker.queue, r.pool) && TicketsOwned(r.held, r.pool);
  }

  lemma {:induction false} RegisterKeepsCore(s: State)
    requires Core(s)
    ensures Core(Register(s))
  {
    hide QueuesOk, OwnersOk, HeldOk, BooksOk;
    assert RegistryOk(s.pool, s.ids) by { BooksRegistry(s); }
    RegisterQueues(s);
    RegisterOwners(s);
    RegisterBooks(s);
  }

  lemma {:induction false} BooksRegistry(s: State)
    requires BooksOk(s)
    ensures RegistryOk(s.pool, s.ids)
  {
  }

  lemma {:induction false} RegisterBooks(s: State)
    requires BooksOk(s)
    ensures BooksOk(Register(s))
  {
  }

  // ------------------------------------------------------ every operation

  /** The operation's result keeps the invariant and bypasses nobody. */
  ghost predicate Keeps(s: State, r: State) {
    Inv(r) && Fair(s, r)
  }

  lemma {:induction false} DownKeeps(s: State, r: State)
    requires Down(r)
    ensures Keeps(s, r)
  {
  }

  /** An operation that leaves queues, turn and admissions alone. */
  lemma {:induction false} StillKeeps(s: State, r: State)
    requires Inv(s) && !Failed(s) && Core(r)
    requires r.worker.queue == s.worker.queue && r.classifier.queue == s.classifier.queue && r.held == s.held
    requires r.turn == s.turn && s.ids.next <= r.ids.next && SamePeaks(s, r) && r.life.closed == s.life.closed
    requires r.life.closed ==> r.pool.registered == {}
    ensures Keeps(s, r)
  {
    hide Core;
    CoreFacts(r);
  }

  /** After something was freed or bound, a dispatch restores the invariant. */
  lemma {:induction false} DispatchKeeps(s: State, s1: State, now: real)
    requires Inv(s) && !Failed(s) && Core(s1)
    requires s1.worker.queue == s.worker.queue && s1.classifier.queue == s.classifier.queue && s1.turn == s.turn
    requires s1.ids.next == s.ids.next && SamePeaks(s, s1) && s1.life.closed == s.life.closed
    requires s1.life.closed ==> s1.pool.registered == {}
    ensures Keeps(s, Dispatch(s1, now))
  {
    hide Core, Dispatch, Quiet, Down;
    var r := Dispatch(s1, now);
    DispatchSettles(s1, now);
    DispatchFair(s1, now);
    DrainedPeaks(s1, r);
    if !Failed(r) { FairFrom(s, s1, r); }
  }

  lemma {:induction false} FairFrom(s: State, s1: State, r: State)
    requires s1.worker.queue == s.worker.queue && s1.classifier.queue == s.classifier.queue && s1.turn == s.turn
    requires s1.ids.next == s.ids.next && Fair(s1, r)
    ensures Fair(s, r)
  {
    hide Position, Queued;
  }

  lemma {:induction false} InvFacts(s: State)
    requires Inv(s) && !Failed(s)
    ensures Core(s) && OneKey(s.classifier.queue) && ClosedOk(s) && PeaksOk(s)
    ensures s.life.closed ==> s.worker.queue == [] && s.classifier.queue == [] && s.pool.registered == {}
  {
  }

  lemma {:induction false} RegisterKeeps(s: State, clock: Option<real>)
    requires Inv(s) && !Failed(s)
    ensures Keeps(s, DoRegister(s, clock).0)
  {
    hide Inv, Core, ReadClock, Fail, Keeps, Down;
    InvFacts(s);
    ClockKeepsCore(s, clock);
    var s1 := ReadClock(s, clock);
    if Failed(s1) {
      DownKeeps(s, s1);
    } else if s1.life.closed {
      StillKeeps(s, s1);
    } else if !CanIncrement(|s1.pool.registered|) {
      FailKeeps(s1, CounterOverflow);
      DownKeeps(s, Fail(s1, CounterOverflow));
    } else {
      RegisterKeepsCore(s1);
      StillKeeps(s, Register(s1));
    }
  }

  lemma {:induction false} BindKeeps(s: State, ticket: nat, key: string, clock: Option<real>)
    requires Inv(s) && !Failed(s)
    ensures Keeps(s, DoBind(s, ticket, key, clock).0)
  {
    hide Inv, Core, ReadClock, Keeps, Down, Dispatch;
    InvFacts(s);
    ClockKeepsCore(s, clock);
    var s1 := ReadClock(s, clock);
    if ticket !in s.held.tickets || s.held.tickets[ticket].state != Unbound || s.held.unbound != Some(ticket) || key == "" {
      StillKeeps(s, s);
    } else if Failed(s1) {
      DownKeeps(s, s1);
    } else {
      BindKeepsCore(s1, ticket, key);
      DispatchKeeps(s, s1.(held := Bind(s.held, ticket, key)), s1.life.lastNow.value);
    }
  }

  lemma {:induction false} ClosedKeeps(s: State, r: State)
    requires Core(r) && r.life.closed && r.worker.queue == [] && r.classifier.queue == [] && r.pool.registered == {}
    requires s.ids.next <= r.ids.next
    ensures Keeps(s, r)
  {
    hide Core;
    CoreFacts(r);
  }

  lemma {:induction false} ReleaseKeeps(s: State, ticket: nat, clock: Option<real>)
    requires Inv(s) && !Failed(s)
    ensures Keeps(s, DoRelease(s, ticket, clock).0)
  {
    hide Inv, Core, ReadClock, Keeps, Down, Dispatch, Detach, Clear;
    InvFacts(s);
    if ticket !in s.held.tickets || s.held.tickets[ticket].state == Released {
      StillKeeps(s, s);
    } else {
      var s1 := Freed(s, ticket);
      DetachKeepsCore(s, ticket);
      ClearRegistered(s.pool, s.held.tickets[ticket].worker, Holding(ticket));
      if s1.life.closed {
        ClosedKeeps(s, s1);
      } else {
        ClockKeepsCore(s1, clock);
        var s2 := ReadClock(s1, clock);
        if Failed(s2) {
          DownKeeps(s, s2);
        } else {
          DispatchKeeps(s, s2, s2.life.lastNow.value);
        }
      }
    }
  }

  lemma {:induction false} ClearRegistered(p: Pool, worker: Option<nat>, item: Outstanding)
    ensures Clear(p, worker, item).registered == p.registered
  {
  }

  lemma {:induction false} CancelKeeps(s: State, s1: State, w: Waiter, now: real)
    requires Inv(s) && !Failed(s) && Core(s1)
    requires s1.worker.queue == s.worker.queue && s1.classifier.queue == s.classifier.queue && s1.turn == s.turn
    requires s1.ids.next == s.ids.next && SamePeaks(s, s1) && s1.life.closed == s.life.closed
    requires s1.life.closed ==> s1.pool.registered == {}
    requires w in SideOf(s1, w.role).queue
    ensures Keeps(s, Cancel(s1, w, now))
  {
    hide Core, Cancel, Quiet, Down;
    var r := Cancel(s1, w, now);
    CancelSettles(s1, w, now);
    DrainedPeaks(s1, r);
    if !Failed(r) { FairFrom(s, s1, r); }
  }

  lemma {:induction false} AbortKeeps(s: State, w: Waiter, clock: Option<real>)
    requires Inv(s) && !Failed(s)
    ensures Keeps(s, DoAbort(s, w, clock).0)
  {
    hide Inv, Core, ReadClock, Keeps, Down, Cancel;
    InvFacts(s);
    if w !in SideOf(s, w.role).queue {
      StillKeeps(s, s);
    } else {
      ClockKeepsCore(s, clock);
      var s1 := ReadClock(s, clock);
      if Failed(s1) { DownKeeps(s, s1); } else { CancelKeeps(s, s1, w, s1.life.lastNow.value); }
    }
  }

  lemma {:induction false} OpenRegistered(s: State, worker: nat)
    requires Core(s) && worker in s.pool.workers && s.pool.workers[worker].open
    ensures {worker} <= s.pool.registered
  {
  }

  lemma {:induction false} CloseWorkerKeeps(s: State, worker: nat, clock: Option<real>)
    requires Inv(s) && !Failed(s)
    ensures Keeps(s, DoCloseWorker(s, worker, clock).0)
  {
    hide Inv, Core, ReadClock, Keeps, Down, Cancel;
    InvFacts(s);
    if worker !in s.pool.workers || !s.pool.workers[worker].open {
      StillKeeps(s, s);
    } else {
      ClockKeepsCore(s, clock);
      var s1 := ReadClock(s, clock);
      if Failed(s1) {
        DownKeeps(s, s1);
      } else {
        OpenRegistered(s1, worker);
        UnregisterKeepsCore(s1, {worker});
        var s2 := s1.(pool := Unregister(s1.pool, {worker}));
        var p := WaiterOf(s2.worker.queue, worker);
        if p < |s2.worker.queue| {
          CoreFacts(s2);
          var w := s2.worker.queue[p];
          assert w in s2.worker.queue;
          CancelKeeps(s, s2, w, s1.life.lastNow.value);
        } else {
          StillKeeps(s, s2);
        }
      }
    }
  }

  lemma {:induction false} CloseKeeps(s: State, clock: Option<real>)
    requires Inv(s) && !Failed(s)
    ensures Keeps(s, DoClose(s, clock).0)
  {
    hide Inv, Core, ReadClock, Keeps, Down, CancelAll;
    InvFacts(s);
    if s.life.closed {
      StillKeeps(s, s);
    } else {
      ClockKeepsCore(s, clock);
      var s1 := ReadClock(s, clock);
      if Failed(s1) {
        DownKeeps(s, s1);
      } else {
        var s1' := s1.(life := s1.life.(closed := true));
        CoreFacts(s1);
        LifeKeepsCore(s1, s1');
        UnregisterKeepsCore(s1', s1.pool.registered);
        var s2 := s1'.(pool := Unregister(s1.pool, s1.pool.registered));
        CancelAllEmpties(s2, s1.life.lastNow.value);
        var r := CancelAll(s2, s2.worker.queue + s2.classifier.queue, s1.life.lastNow.value);
        if Failed(r) { DownKeeps(s, r); } else { ClosedKeeps(s, r); }
      }
    }
  }

  // ------------------------------------------------------------- requests

  lemma {:induction false} CountKeepsCore(s: State, role: Role)
    requires Core(s)
    ensures var r := CountCancellation(CountRequest(s, role), role, 0);
            Core(r) && r.worker.queue == s.worker.queue && r.classifier.queue == s.classifier.queue
  {
  }

  lemma {:induction false} OverflowKeeps(s: State, role: Role)
    requires Core(s)
    ensures Down(Fail(CountRequest(s, role), CounterOverflow))
  {
    OwnedOnce(s);
    FailGoesDown(CountRequest(s, role), CounterOverflow);
  }

  lemma {:induction false} AbortedRequestKeeps(s: State, role: Role, key: Option<string>, worker: Option<nat>,
                                               now: real)
    requires Inv(s) && !Failed(s)
    ensures Keeps(s, Request(s, role, key, worker, true, now))
  {
    hide Inv, Core, Keeps, Down, Fail;
    InvFacts(s);
    if !CanIncrement(SideOf(s, role).cancellations) {
      OverflowKeeps(s, role);
      DownKeeps(s, Fail(CountRequest(s, role), CounterOverflow));
    } else {
      CountKeepsCore(s, role);
      StillKeeps(s, CountCancellation(CountRequest(s, role), role, 0));
    }
  }

  /** A waiter pushed and granted at once leaves its queue as it was. */
  lemma {:induction false} PushThenRemove(q: seq<Waiter>, w: Waiter)
    requires forall v :: v in q ==> v.id != w.id
    ensures Without(q + [w], w.id) == q
  {
    var q' := q + [w];
    assert q'[|q|] == w;
    assert forall i :: 0 <= i < |q| ==> q'[i] in q;
    assert Position(q', w.id) == |q|;
  }

  lemma {:induction false} NewIdentity(s: State, w: Waiter)
    requires Core(s) && w.id == s.ids.next
    ensures forall v :: v in s.worker.queue || v in s.classifier.queue ==> v.id != w.id
  {
  }

  /** A request for the active group's key joins it without waiting. */
  lemma {:induction false} JoiningRequestKeeps(s: State, w: Waiter, now: real)
    requires Inv(s) && !Failed(s) && !s.life.closed && Arrives(s, w)
    requires w.key.Some? && HasGroup(s, w.key.value)
    ensures var r := Grant(Enqueue(s, w), w, now);
            if Failed(r) then Down(r)
            else Core(r) && r.worker.queue == s.worker.queue && r.classifier.queue == s.classifier.queue
                 && HasGroup(r, w.key.value) && r.turn == s.turn && r.ids.next == s.ids.next + 1 && SamePeaks(s, r)
                 && r.life == s.life
  {
    hide Inv, Core;
    InvFacts(s);
    CoreFacts(s);
    NewIdentity(s, w);
    PushThenRemove(SideOf(s, w.role).queue, w);
    var s1 := Enqueue(s, w);
    EnqueueKeepsCore(s, w);
    assert w in SideOf(s1, w.role).queue by { assert SideOf(s1, w.role).queue[|SideOf(s, w.role).queue|] == w; }
    GrantKeepsCore(s1, w, now);
    hide Without, Grant;
  }

  lemma {:induction false} EnqueueFair(s: State, w: Waiter)
    requires Core(s) && w.id == s.ids.next
    ensures WorkerFair(s, Enqueue(s, w)) && ClassifierFair(s, Enqueue(s, w))
  {
    var r := Enqueue(s, w);
    forall id: nat | Queued(r.worker.queue, id) && id < s.ids.next
      ensures Queued(s.worker.queue, id) && Score(r, id) <= Score(s, id)
    {
      if w.role.WorkerRole? {
        var v := r.worker.queue[Position(r.worker.queue, id)];
        assert v in s.worker.queue;
        AppendQueued(s.worker.queue, w, id);
      }
    }
  }

  /** A classifier request that does not conflict keeps the pending classifiers on one key. */
  lemma {:induction false} PushKeepsKey(s: State, w: Waiter)
    requires OneKey(s.classifier.queue)
    requires w.role.ClassifierRole? && s.classifier.queue != [] ==> s.classifier.queue[0].key == w.key
    ensures OneKey(Enqueue(s, w).classifier.queue)
  {
  }

  lemma {:induction false} WaitingRequestKeeps(s: State, w: Waiter, now: real)
    requires Inv(s) && !Failed(s) && !s.life.closed && Arrives(s, w)
    requires w.role.ClassifierRole? && s.classifier.queue != [] ==> s.classifier.queue[0].key == w.key
    ensures var r := Dispatch(Enqueue(s, w), now);
            Quiet(r) && (!Failed(r) ==> WorkerFair(s, r) && ClassifierFair(s, r))
  {
    hide Inv, Core, Dispatch, Quiet, WorkerFair, ClassifierFair, OneKey;
    InvFacts(s);
    var s1 := Enqueue(s, w);
    EnqueueKeepsCore(s, w);
    PushKeepsKey(s, w);
    EnqueueFair(s, w);
    hide Enqueue;
    assert !s1.life.closed by { EnqueueOpen(s, w); }
    DispatchSettles(s1, now);
    DispatchFair(s1, now);
    var r := Dispatch(s1, now);
    if !Failed(r) {
      FairTransitive(s, s1, r);
      if s.classifier.queue != [] { EnqueueOpen(s, w); }
      ClassifierFairChain(s, s1, r);
    }
  }

  lemma {:induction false} EnqueueOpen(s: State, w: Waiter)
    ensures Enqueue(s, w).life == s.life
    ensures s.classifier.queue != [] ==> Enqueue(s, w).classifier.queue != []
  {
  }

  lemma {:induction false} RaiseKeeps(s: State, s1: State, r: State)
    requires Quiet(s1) && !Failed(s1) && Fair(s, s1)
    requires r == s1.(peaks := Raise(s1.peaks, |s1.worker.queue|, |s1.classifier.queue|))
    ensures Keeps(s, r)
  {
    assert Core(r) by { PeaksKeepCore(s1, r); }
    hide Core, Position, Queued;
  }

  lemma {:induction false} PeaksKeepCore(s: State, r: State)
    requires Core(s) && r == s.(peaks := r.peaks)
    ensures Core(r)
  {
  }

  lemma {:induction false} JoinedQuiet(s: State, r: State, key: string)
    requires Inv(s) && !Failed(s) && !s.life.closed && HasGroup(s, key)
    requires Core(r) && r.worker.queue == s.worker.queue && r.classifier.queue == s.classifier.queue
    requires HasGroup(r, key) && r.turn == s.turn && s.ids.next <= r.ids.next && r.life == s.life
    ensures Quiet(r) && Fair(s, r)
  {
    hide Core;
    CoreFacts(r);
  }

  lemma {:induction false} RequestKeeps(s: State, w: Waiter, now: real)
    requires Inv(s) && !Failed(s) && !s.life.closed && Arrives(s, w) && w.startedAt == now
    requires w.role.ClassifierRole? ==> !Conflicts(s, w.key.value)
    ensures Keeps(s, Request(s, w.role, w.key, w.worker, false, now))
  {
    hide Inv, Core, Dispatch, Grant, Quiet, Keeps, Down, Fair;
    var s1 := Enqueue(s, w);
    var r := Place(s1, w, now);
    assert w == Waiter(s.ids.next, w.role, w.key, w.worker, now);
    if w.key.Some? && HasGroup(s, w.key.value) {
      JoiningRequestKeeps(s, w, now);
      if !Failed(r) { JoinedQuiet(s, r, w.key.value); }
    } else {
      WaitingRequestKeeps(s, w, now);
      if Failed(r) { QuietDown(r); } else { FairIntro(s, r); }
    }
    if Failed(r) {
      DownKeeps(s, r);
    } else {
      RaiseKeeps(s, r, r.(peaks := Raise(r.peaks, |r.worker.queue|, |r.classifier.queue|)));
    }
  }

  lemma {:induction false} QuietDown(s: State)
    requires Quiet(s) && Failed(s)
    ensures Down(s)
  {
  }

  lemma {:induction false} FairIntro(s: State, r: State)
    requires WorkerFair(s, r) && ClassifierFair(s, r)
    ensures Fair(s, r)
  {
  }
}
