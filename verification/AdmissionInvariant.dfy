/**
 What every interleaving of admission operations keeps.

 `Inv` is the allocator's invariant; `RunKeepsInvariant` says it holds in every
 state reachable by any sequence of operations with any clock samples.
 */
module AdmissionInvariant {
  import opened Prelude
  import opened AdmissionSpec

  // ------------------------------------------------------- the invariant

  /** Never both an unbound ticket and a group; the group's references are exactly the bound tickets, all of its key. */
  ghost predicate HeldOk(h: Held) {
    && (h.unbound.Some? ==> h.unbound.value in h.tickets && h.tickets[h.unbound.value].state.Unbound?)
    && (forall t :: t in h.tickets && h.tickets[t].state.Unbound? ==> h.unbound == Some(t))
    && (h.group.Some? ==> h.unbound.None? && h.group.value.references != {})
    && (h.group.Some? ==>
          forall t :: t in h.group.value.references ==>
            t in h.tickets && h.tickets[t].state.Bound? && h.tickets[t].key == Some(h.group.value.key))
    && (forall t :: t in h.tickets && h.tickets[t].state.Bound? ==> h.group.Some? && t in h.group.value.references)
  }

  ghost predicate HasRole(q: seq<Waiter>, role: Role) {
    forall w :: w in q ==> w.role == role
  }

  /** Queues are in request order. */
  ghost predicate Ordered(q: seq<Waiter>) {
    forall i, j :: 0 <= i < j < |q| ==> q[i].id < q[j].id
  }

  ghost predicate Apart(q: seq<Waiter>, p: seq<Waiter>) {
    forall w, v :: w in q && v in p ==> w.id != v.id
  }

  /** A pending request has no permit, is not settled and is not a worker's identity. */
  ghost predicate Pending(q: seq<Waiter>, h: Held, ids: Ids, p: Pool) {
    forall w :: w in q ==>
      w.id < ids.next && w.id !in h.tickets && w.id !in ids.settled && w.id !in p.workers
  }

  /** Classifier requests name a group and belong to no worker. */
  ghost predicate Keyed(q: seq<Waiter>) {
    forall w :: w in q ==> w.key.Some? && w.worker.None?
  }

  /** Pending classifier waiters all ask for one group. */
  ghost predicate OneKey(q: seq<Waiter>) {
    forall w :: w in q ==> w.key == q[0].key
  }

  /** A pending worker request is its worker's outstanding item. */
  ghost predicate WaitersOwned(q: seq<Waiter>, p: Pool) {
    forall w :: w in q ==>
      w.worker.Some? && w.worker.value in p.workers && p.workers[w.worker.value].outstanding == Waiting(w.id)
  }

  /** An unreleased permit is its worker's outstanding item. */
  ghost predicate TicketsOwned(h: Held, p: Pool) {
    forall t :: t in h.tickets && !h.tickets[t].state.Released? && h.tickets[t].worker.Some? ==>
      h.tickets[t].worker.value in p.workers && p.workers[h.tickets[t].worker.value].outstanding == Holding(t)
  }

  /** No worker has two unreleased permits. */
  ghost predicate OneTicket(h: Held) {
    forall t, u ::
      (&& t in h.tickets && u in h.tickets && !h.tickets[t].state.Released? && !h.tickets[u].state.Released?
       && h.tickets[t].worker.Some? && h.tickets[t].worker == h.tickets[u].worker) ==> t == u
  }

  ghost predicate Owns(q: seq<Waiter>, id: nat, worker: nat) {
    exists v :: v in q && v.id == id && v.worker == Some(worker)
  }

  ghost predicate ItemReal(w: nat, item: Outstanding, q: seq<Waiter>, h: Held) {
    match item
    case Idle => true
    case Waiting(i) => Owns(q, i, w)
    case Holding(t) => t in h.tickets && !h.tickets[t].state.Released? && h.tickets[t].worker == Some(w)
  }

  /** A worker's outstanding item exists and is its own: a pending request or an unreleased permit. */
  ghost predicate OutstandingReal(p: Pool, q: seq<Waiter>, h: Held) {
    forall w :: w in p.workers ==> ItemReal(w, p.workers[w].outstanding, q, h)
  }

  ghost predicate RegistryOk(p: Pool, ids: Ids) {
    && p.registered <= p.workers.Keys
    && (forall w :: w in p.workers ==> (p.workers[w].open <==> w in p.registered) && w < ids.next)
  }

  ghost predicate SettledOk(h: Held, ids: Ids) {
    && (forall t :: t in h.tickets ==> t in ids.settled && ids.settled[t] == Granted)
    && (forall t :: t in ids.settled ==> t < ids.next)
  }

  /** Every request of the role is a grant, a cancellation or still pending. */
  ghost predicate Counted(side: Side) {
    side.requests == side.grants + side.cancellations + |side.queue|
  }

  /** No identity is lost: it is a worker, a pending request or a settled request. */
  ghost predicate Ledger(s: State) {
    forall id :: 0 <= id < s.ids.next ==>
      id in s.pool.workers || Queued(s.worker.queue, id) || Queued(s.classifier.queue, id) || id in s.ids.settled
  }

  ghost predicate QueuesOk(s: State) {
    && HasRole(s.worker.queue, WorkerRole) && HasRole(s.classifier.queue, ClassifierRole)
    && Ordered(s.worker.queue) && Ordered(s.classifier.queue) && Apart(s.worker.queue, s.classifier.queue)
    && Pending(s.worker.queue, s.held, s.ids, s.pool) && Pending(s.classifier.queue, s.held, s.ids, s.pool)
    && Keyed(s.classifier.queue)
  }

  ghost predicate OwnersOk(s: State) {
    && WaitersOwned(s.worker.queue, s.pool) && TicketsOwned(s.held, s.pool)
    && OutstandingReal(s.pool, s.worker.queue, s.held)
  }

  ghost predicate BooksOk(s: State) {
    RegistryOk(s.pool, s.ids) && SettledOk(s.held, s.ids) && Counted(s.worker) && Counted(s.classifier) && Ledger(s)
  }

  ghost predicate Core(s: State) {
    !Failed(s) && HeldOk(s.held) && QueuesOk(s) && OwnersOk(s) && BooksOk(s)
  }

  /** Failed closed: nothing waits and nothing opens again, but issued permits stay accounted for. */
  ghost predicate Down(s: State) {
    Failed(s) && s.life.closed && s.worker.queue == [] && s.classifier.queue == [] && HeldOk(s.held) && OneTicket(s.held)
  }

  ghost predicate NoKey(q: seq<Waiter>, key: string) {
    forall w :: w in q ==> w.key != Some(key)
  }

  /** No pending waiter could join the active group. */
  ghost predicate NothingToJoin(s: State) {
    s.held.group.Some? ==>
      NoKey(s.worker.queue, s.held.group.value.key) && NoKey(s.classifier.queue, s.held.group.value.key)
  }

  /** While open and idle nobody waits. */
  ghost predicate WorkConserving(s: State) {
    !s.life.closed && IsIdle(s.held) ==> s.worker.queue == [] && s.classifier.queue == []
  }

  ghost predicate ClosedOk(s: State) {
    s.life.closed ==> s.worker.queue == [] && s.classifier.queue == [] && s.pool.registered == {}
  }

  ghost predicate PeaksOk(s: State) {
    |s.worker.queue| <= s.peaks.pendingWorkers
    && (s.classifier.queue != [] ==> s.peaks.pendingClassifierGroups >= 1)
  }

  ghost predicate Settled(s: State) {
    OneKey(s.classifier.queue) && NothingToJoin(s) && WorkConserving(s) && ClosedOk(s)
  }

  ghost predicate Inv(s: State) {
    if Failed(s) then Down(s) else Core(s) && Settled(s) && PeaksOk(s)
  }

  // ------------------------------------------------------------- queues

  lemma {:induction false} WithoutAt(q: seq<Waiter>, id: nat)
    requires Queued(q, id)
    ensures |Without(q, id)| == |q| - 1
    ensures forall i :: 0 <= i < Position(q, id) ==> Without(q, id)[i] == q[i]
    ensures forall i :: Position(q, id) <= i < |q| - 1 ==> Without(q, id)[i] == q[i + 1]
  {
  }

  lemma {:induction false} WithoutProps(q: seq<Waiter>, id: nat)
    requires Ordered(q) && Queued(q, id)
    ensures |Without(q, id)| == |q| - 1 && Ordered(Without(q, id))
    ensures forall w :: w in Without(q, id) ==> w in q && w.id != id
    ensures !Queued(Without(q, id), id)
  {
    WithoutAt(q, id);
    var p := Position(q, id);
    var r := Without(q, id);
    forall w | w in r
      ensures w in q && w.id != id
    {
      var i :| 0 <= i < |r| && r[i] == w;
      if i < p { assert r[i] == q[i]; } else { assert r[i] == q[i + 1]; }
    }
  }

  lemma {:induction false} WithoutKeeps(q: seq<Waiter>, id: nat)
    requires Queued(q, id)
    ensures forall w :: w in q && w.id != id ==> w in Without(q, id)
  {
    WithoutAt(q, id);
    var p := Position(q, id);
    var r := Without(q, id);
    forall w | w in q && w.id != id
      ensures w in r
    {
      var i :| 0 <= i < |q| && q[i] == w;
      if i < p { assert r[i] == w; } else { assert r[i - 1] == w; }
    }
  }

  /** Two queued waiters with one identity are one waiter. */
  lemma {:induction false} SameWaiter(q: seq<Waiter>, v: Waiter, w: Waiter)
    requires Ordered(q) && v in q && w in q && v.id == w.id
    ensures v == w
  {
  }

  /** Removing one waiter leaves every other waiter queued, no further back than before. */
  lemma {:induction false} WithoutPosition(q: seq<Waiter>, id: nat, other: nat)
    requires Ordered(q) && Queued(q, id) && other != id
    ensures Queued(Without(q, id), other) <==> Queued(q, other)
    ensures Queued(q, other) ==> Position(Without(q, id), other) <= Position(q, other)
    ensures Queued(q, other) && Position(q, id) < Position(q, other)
            ==> Position(Without(q, id), other) == Position(q, other) - 1
  {
    WithoutAt(q, id);
    WithoutProps(q, id);
    hide Without;
    var r := Without(q, id);
    if Queued(q, other) {
      var j := Position(q, other);
      var i := if j < Position(q, id) then j else j - 1;
      assert r[i].id == other;
      assert Position(r, other) <= i;
    }
    if Queued(r, other) {
      assert r[Position(r, other)] in q;
    }
  }

  // ------------------------------------------------------------ failing

  /** Same admissions and same life: only queues, statistics and workers differ. */
  ghost predicate SameHolders(s: State, r: State) {
    r.held == s.held && r.life == s.life
  }

  lemma {:induction false} DismissHead(s: State, how: Settlement)
    requires HasRole(s.worker.queue, WorkerRole) && HasRole(s.classifier.queue, ClassifierRole)
    ensures s.worker.queue != [] ==>
              var r := Dismiss(s, s.worker.queue[0], how);
              r.worker.queue == s.worker.queue[1..] && r.classifier == s.classifier && SameHolders(s, r)
    ensures s.classifier.queue != [] ==>
              var r := Dismiss(s, s.classifier.queue[0], how);
              r.worker == s.worker && r.classifier.queue == s.classifier.queue[1..] && SameHolders(s, r)
  {
  }

  lemma {:induction false} RefuseEmpties(s: State, code: FailureCode)
    requires HasRole(s.worker.queue, WorkerRole) && HasRole(s.classifier.queue, ClassifierRole)
    ensures var r := RefuseAll(s, s.worker.queue + s.classifier.queue, code);
            r.worker.queue == [] && r.classifier.queue == [] && SameHolders(s, r)
    decreases |s.worker.queue| + |s.classifier.queue|
  {
    hide Dismiss;
    var waiters := s.worker.queue + s.classifier.queue;
    if waiters != [] {
      DismissHead(s, Refused(code));
      var r := Dismiss(s, waiters[0], Refused(code));
      assert waiters[1..] == r.worker.queue + r.classifier.queue;
      RefuseEmpties(r, code);
    }
  }

  /** Failing closed settles every pending request and keeps issued permits accounted for. */
  lemma {:induction false} FailGoesDown(s: State, code: FailureCode)
    requires HasRole(s.worker.queue, WorkerRole) && HasRole(s.classifier.queue, ClassifierRole) && HeldOk(s.held)
    requires OneTicket(s.held)
    ensures Down(Fail(s, code)) && Fail(s, code).held == s.held
  {
    hide RefuseAll, Unregister, OneTicket;
    var first := if Failed(s) then s.life.failure.value else code;
    var s1 := s.(life := s.life.(failure := Some(first), closed := true), pool := Unregister(s.pool, s.pool.registered));
    RefuseEmpties(s1, first);
  }

  lemma {:induction false} OwnedOnce(s: State)
    requires OwnersOk(s)
    ensures OneTicket(s.held)
  {
  }

  // ------------------------------------------------------------ granting

  /** What may be granted: anything when idle, else only the active group's key. */
  ghost predicate Grantable(s: State, w: Waiter) {
    && s.held.unbound.None? && w in SideOf(s, w.role).queue
    && (s.held.group.Some? ==> w.key == Some(s.held.group.value.key))
  }

  lemma {:induction false} AdmitKeepsHeld(h: Held, w: Waiter)
    requires HeldOk(h) && h.unbound.None? && w.id !in h.tickets
    requires h.group.Some? ==> w.key == Some(h.group.value.key)
    ensures HeldOk(Admit(h, w))
    ensures w.key.Some? ==> Admit(h, w).group.Some? && Admit(h, w).group.value.key == w.key.value
  {
  }

  ghost predicate SamePeaks(s: State, r: State) {
    r.peaks.pendingWorkers == s.peaks.pendingWorkers
    && r.peaks.pendingClassifierGroups == s.peaks.pendingClassifierGroups
  }

  /** The queues after one waiter has left, and what else a grant or a cancellation changes. */
  ghost predicate Left(s: State, w: Waiter, r: State) {
    && r.worker.queue == (if w.role.WorkerRole? then Without(s.worker.queue, w.id) else s.worker.queue)
    && r.classifier.queue == (if w.role.WorkerRole? then s.classifier.queue else Without(s.classifier.queue, w.id))
    && r.turn == s.turn && r.life == s.life && r.ids.next == s.ids.next && r.pool.registered == s.pool.registered
    && SamePeaks(s, r)
  }

  ghost predicate Within(r: seq<Waiter>, q: seq<Waiter>) {
    forall w :: w in r ==> w in q
  }

  lemma {:induction false} WithinKeepsKey(r: seq<Waiter>, q: seq<Waiter>)
    requires Within(r, q) && OneKey(q)
    ensures OneKey(r)
  {
    if r != [] { assert r[0] in r; }
  }

  /** `r` is `s` after waiter `w` was settled. */
  ghost predicate Resolved(s: State, w: Waiter, r: State) {
    && Left(s, w, r) && w in SideOf(s, w.role).queue
    && r.held.tickets.Keys <= s.held.tickets.Keys + {w.id}
    && r.ids.settled.Keys == s.ids.settled.Keys + {w.id}
    && r.pool.workers.Keys == s.pool.workers.Keys
  }

  lemma {:induction false} ResolvedPending(q: seq<Waiter>, q': seq<Waiter>, s: State, w: Waiter, r: State)
    requires Pending(q, s.held, s.ids, s.pool) && Resolved(s, w, r)
    requires Within(q', q) && forall v :: v in q' ==> v.id != w.id
    ensures Pending(q', r.held, r.ids, r.pool)
  {
  }

  lemma {:induction false} ResolvedQueues(s: State, w: Waiter, r: State)
    requires QueuesOk(s) && Resolved(s, w, r)
    ensures QueuesOk(r)
  {
    var q := SideOf(s, w.role).queue;
    WithoutProps(q, w.id);
    hide Without, Pending;
    assert Pending(r.worker.queue, r.held, r.ids, r.pool) by { ResolvedPending(s.worker.queue, r.worker.queue, s, w, r); }
    assert Pending(r.classifier.queue, r.held, r.ids, r.pool) by { ResolvedPending(s.classifier.queue, r.classifier.queue, s, w, r); }
  }

  // -------------------------------------------------- outstanding items

  /** The worker of a queued waiter owns nothing else. */
  lemma {:induction false} ReassignKeepsWaiters(q: seq<Waiter>, q': seq<Waiter>, p: Pool, w: Waiter, item: Outstanding)
    requires WaitersOwned(q, p) && Within(q', q) && forall v :: v in q' ==> v.id != w.id
    requires w.worker.Some? ==> w in q
    ensures WaitersOwned(q', Assign(p, w.worker, item))
  {
  }

  lemma {:induction false} ReassignKeepsTickets(h: Held, h': Held, p: Pool, w: Waiter, item: Outstanding)
    requires TicketsOwned(h, p)
    requires w.worker.Some? ==> w.worker.value in p.workers && p.workers[w.worker.value].outstanding == Waiting(w.id)
    requires forall t :: t in h'.tickets && t != w.id ==> t in h.tickets && h.tickets[t] == h'.tickets[t]
    requires w.id in h'.tickets ==> item == Holding(w.id) && h'.tickets[w.id].worker == w.worker
    ensures TicketsOwned(h', Assign(p, w.worker, item))
  {
  }

  lemma {:induction false} ReassignKeepsReal(s: State, h': Held, w: Waiter, item: Outstanding)
    requires OutstandingReal(s.pool, s.worker.queue, s.held) && Ordered(s.worker.queue)
    requires HasRole(s.worker.queue, WorkerRole) && HasRole(s.classifier.queue, ClassifierRole)
    requires w in SideOf(s, w.role).queue && w.id !in s.held.tickets
    requires w.worker.Some? <==> w.role.WorkerRole?
    requires forall t :: t in s.held.tickets ==> t in h'.tickets && h'.tickets[t] == s.held.tickets[t]
    requires item == Idle || (item == Holding(w.id) && w.id in h'.tickets && h'.tickets[w.id].worker == w.worker
                              && !h'.tickets[w.id].state.Released?)
    ensures OutstandingReal(Assign(s.pool, w.worker, item),
                            if w.role.WorkerRole? then Without(s.worker.queue, w.id) else s.worker.queue, h')
  {
    var q := s.worker.queue;
    var q' := if w.role.WorkerRole? then Without(q, w.id) else q;
    var p' := Assign(s.pool, w.worker, item);
    if w.role.WorkerRole? { WithoutKeeps(q, w.id); }
    hide Without;
    forall x | x in p'.workers && p'.workers[x].outstanding.Waiting?
      ensures Owns(q', p'.workers[x].outstanding.waiter, x)
    {
      var i := p'.workers[x].outstanding.waiter;
      var v :| v in q && v.id == i && v.worker == Some(x);
      if v.id == w.id && w.role.WorkerRole? { SameWaiter(q, v, w); assert false; }
      assert v in q';
    }
  }

  // ---------------------------------------------- one request is settled

  lemma {:induction false} ResolvedLedger(s: State, w: Waiter, r: State)
    requires Ledger(s) && Resolved(s, w, r) && Ordered(s.worker.queue) && Ordered(s.classifier.queue)
    ensures Ledger(r)
  {
    hide Without;
    forall id | 0 <= id < r.ids.next
      ensures id in r.pool.workers || Queued(r.worker.queue, id) || Queued(r.classifier.queue, id) || id in r.ids.settled
    {
      if id != w.id { WithoutPosition(SideOf(s, w.role).queue, w.id, id); }
    }
  }

  /** The worker queue's waiters have workers, the classifiers' have none. */
  lemma {:induction false} WorkerIffRole(s: State, w: Waiter)
    requires QueuesOk(s) && OwnersOk(s) && w in SideOf(s, w.role).queue
    ensures w.worker.Some? <==> w.role.WorkerRole?
    ensures w.worker.Some? ==>
              w.worker.value in s.pool.workers && s.pool.workers[w.worker.value].outstanding == Waiting(w.id)
    ensures w.id !in s.held.tickets && w.id !in s.pool.workers && w.id !in s.ids.settled && w.id < s.ids.next
    ensures Queued(SideOf(s, w.role).queue, w.id) && Ordered(SideOf(s, w.role).queue)
  {
  }

  ghost predicate Extends(h: Held, h': Held, w: Waiter, item: Outstanding) {
    && (forall t :: t in h.tickets ==> t in h'.tickets && h'.tickets[t] == h.tickets[t])
    && (forall t :: t in h'.tickets ==> t in h.tickets || t == w.id)
    && (item == Idle || item == Holding(w.id))
    && (w.id in h'.tickets <==> item == Holding(w.id))
    && (w.id in h'.tickets ==> h'.tickets[w.id].worker == w.worker && !h'.tickets[w.id].state.Released?)
  }

  lemma {:induction false} ResolvedOwners(s: State, w: Waiter, item: Outstanding, r: State)
    requires QueuesOk(s) && OwnersOk(s) && Resolved(s, w, r)
    requires r.pool == Assign(s.pool, w.worker, item) && Extends(s.held, r.held, w, item)
    ensures OwnersOk(r)
  {
    WorkerIffRole(s, w);
    WithoutProps(SideOf(s, w.role).queue, w.id);
    hide Without, Assign, WaitersOwned, TicketsOwned, OutstandingReal;
    ReassignKeepsWaiters(s.worker.queue, r.worker.queue, s.pool, w, item);
    ReassignKeepsTickets(s.held, r.held, s.pool, w, item);
    ReassignKeepsReal(s, r.held, w, item);
  }

  ghost predicate Settles(s: State, w: Waiter, how: Settlement, item: Outstanding, r: State) {
    && Resolved(s, w, r)
    && r.pool == Assign(s.pool, w.worker, item) && Extends(s.held, r.held, w, item)
    && r.ids.settled == s.ids.settled[w.id := how] && (item == Holding(w.id) ==> how == Granted)
  }

  lemma {:induction false} SettlesBooks(s: State, w: Waiter, how: Settlement, item: Outstanding, r: State)
    requires RegistryOk(s.pool, s.ids) && SettledOk(s.held, s.ids) && Settles(s, w, how, item, r) && w.id < s.ids.next
    requires w.id !in s.held.tickets
    ensures RegistryOk(r.pool, r.ids) && SettledOk(r.held, r.ids)
  {
  }

  /** Settling one queued request, by a grant or a cancellation, keeps the core invariant. */
  lemma {:induction false} SettlingKeepsCore(s: State, w: Waiter, how: Settlement, item: Outstanding, r: State)
    requires Core(s) && Settles(s, w, how, item, r)
    requires HeldOk(r.held) && Counted(r.worker) && Counted(r.classifier)
    ensures Core(r)
  {
    WorkerIffRole(s, w);
    ResolvedQueues(s, w, r);
    ResolvedOwners(s, w, item, r);
    ResolvedLedger(s, w, r);
    SettlesBooks(s, w, how, item, r);
  }

  lemma {:induction false} QueueRoles(s: State)
    requires QueuesOk(s)
    ensures HasRole(s.worker.queue, WorkerRole) && HasRole(s.classifier.queue, ClassifierRole)
  {
  }

  lemma {:induction false} AssignKeys(p: Pool, worker: Option<nat>, item: Outstanding)
    ensures Assign(p, worker, item).workers.Keys == p.workers.Keys
    ensures Assign(p, worker, item).registered == p.registered
  {
  }

  lemma {:induction false} GrantSettles(s: State, w: Waiter, elapsed: nat, r: State)
    requires w in SideOf(s, w.role).queue && w.id !in s.held.tickets
    requires |Without(SideOf(s, w.role).queue, w.id)| == |SideOf(s, w.role).queue| - 1
    requires Counted(s.worker) && Counted(s.classifier)
    requires r == CountGrant(s, w, elapsed).(held := Admit(s.held, w), peaks := s.peaks.(admitted := 1),
                                             ids := s.ids.(settled := s.ids.settled[w.id := Granted]))
    ensures Settles(s, w, Granted, Holding(w.id), r) && Counted(r.worker) && Counted(r.classifier)
  {
    AssignKeys(s.pool, w.worker, Holding(w.id));
    hide Without, Assign;
    assert r.ids.settled.Keys == s.ids.settled.Keys + {w.id};
  }

  /** A grant either fails the allocator closed or moves one waiter into the admission. */
  lemma {:induction false} GrantKeepsCore(s: State, w: Waiter, now: real)
    requires Core(s) && Grantable(s, w)
    ensures var r := Grant(s, w, now);
            if Failed(r) then Down(r)
            else Core(r) && Left(s, w, r) && r.held == Admit(s.held, w)
  {
    WorkerIffRole(s, w);
    var q := SideOf(s, w.role).queue;
    WithoutProps(q, w.id);
    AdmitKeepsHeld(s.held, w);
    hide Fail, Without, Assign, HeldOk, QueuesOk, OwnersOk, OneTicket;
    OwnedOnce(s);
    var e := Elapsed(now, w.startedAt);
    var r := Grant(s, w, now);
    assert HasRole(s.worker.queue, WorkerRole) && HasRole(s.classifier.queue, ClassifierRole) by { QueueRoles(s); }
    if e.None? {
      FailGoesDown(s, InvalidClock);
    } else if !CanIncrement(SideOf(s, w.role).grants) {
      FailGoesDown(s, CounterOverflow);
    } else if w.key.Some? && !CanIncrement(|GroupFor(s.held, w.key.value).references|) {
      var s1 := CountGrant(s, w, e.value);
      assert s1.(held := s1.held.(group := Some(GroupFor(s.held, w.key.value)))).held == s.held;
      assert HasRole(Without(q, w.id), w.role);
      FailGoesDown(s1.(held := s1.held.(group := Some(GroupFor(s.held, w.key.value)))), CounterOverflow);
    } else {
      GrantSettles(s, w, e.value, r);
      SettlingKeepsCore(s, w, Granted, Holding(w.id), r);
    }
  }
}
