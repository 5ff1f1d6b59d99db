/** Dispatching keeps the admission invariant and settles the allocator. */
module AdmissionDispatch {
  import opened Prelude
  import opened AdmissionSpec
  import opened AdmissionInvariant

  // ---------------------------------------------------- queues only advance

  /** Whoever is still queued was queued before and is no further back. */
  ghost predicate Advanced(q: seq<Waiter>, q': seq<Waiter>) {
    Within(q', q) && |q'| <= |q| && forall id :: Queued(q', id) ==> Queued(q, id) && Position(q', id) <= Position(q, id)
  }

  lemma {:induction false} WithoutAdvances(q: seq<Waiter>, id: nat)
    requires Ordered(q) && Queued(q, id)
    ensures Advanced(q, Without(q, id))
  {
    WithoutProps(q, id);
    hide Without;
    forall other | Queued(Without(q, id), other)
      ensures Queued(q, other) && Position(Without(q, id), other) <= Position(q, other)
    {
      if other != id { WithoutPosition(q, id, other); }
    }
  }

  lemma {:induction false} AdvancedReflexive(q: seq<Waiter>)
    ensures Advanced(q, q)
  {
  }

  lemma {:induction false} AdvancedWithin(q: seq<Waiter>, q': seq<Waiter>)
    requires Advanced(q, q')
    ensures Within(q', q)
  {
  }

  lemma {:induction false} AdvancedTransitive(q: seq<Waiter>, q': seq<Waiter>, q'': seq<Waiter>)
    requires Advanced(q, q') && Advanced(q', q'')
    ensures Advanced(q, q'')
  {
  }

  lemma {:induction false} WithoutHead(q: seq<Waiter>)
    requires q != []
    ensures Without(q, q[0].id) == q[1..]
  {
  }

  /** What a batch of grants leaves alone. */
  ghost predicate Onward(s: State, r: State) {
    r.turn == s.turn && r.life == s.life && r.pool.registered == s.pool.registered && r.ids.next == s.ids.next && SamePeaks(s, r)
  }

  // ------------------------------------------------------------- joining

  ghost predicate HasGroup(s: State, key: string) {
    s.held.group.Some? && s.held.group.value.key == key
  }

  /** Some worker waiters joined the active group. */
  ghost predicate Joined(s: State, key: string, r: State) {
    if Failed(r) then Down(r)
    else Core(r) && HasGroup(r, key) && Onward(s, r) && r.classifier.queue == s.classifier.queue
         && Advanced(s.worker.queue, r.worker.queue)
  }

  /** No waiter of the snapshot with this key still waits. */
  ghost predicate NoneLeft(waiters: seq<Waiter>, key: string, r: State) {
    Failed(r) || forall w :: w in waiters && w.key == Some(key) ==> w !in r.worker.queue
  }

  lemma {:induction false} JoinOne(s: State, w: Waiter, rest: seq<Waiter>, key: string, now: real)
    requires Core(s) && HasGroup(s, key) && w in s.worker.queue && w.key == Some(key)
    requires Within(rest, s.worker.queue) && forall v :: v in rest ==> w.id < v.id
    ensures var r := Grant(s, w, now);
            Joined(s, key, r)
            && (!Failed(r) ==> Core(r) && HasGroup(r, key) && Within(rest, r.worker.queue) && w !in r.worker.queue)
  {
    assert w.role.WorkerRole?;
    GrantKeepsCore(s, w, now);
    WithoutAdvances(s.worker.queue, w.id);
    WithoutKeeps(s.worker.queue, w.id);
    WithoutProps(s.worker.queue, w.id);
  }

  lemma {:induction false} JoinedTransitive(s: State, s1: State, w: Waiter, key: string, r: State)
    requires Joined(s, key, s1) && !Failed(s1) && Joined(s1, key, r) && w !in s1.worker.queue
    ensures Joined(s, key, r) && (Failed(r) || w !in r.worker.queue)
  {
    hide Core;
    if !Failed(r) { AdvancedTransitive(s.worker.queue, s1.worker.queue, r.worker.queue); }
  }

  /** Every waiter of the snapshot with the group's key has joined; the rest wait as before. */
  lemma {:induction false} JoinAllJoins(s: State, waiters: seq<Waiter>, key: string, now: real)
    requires Core(s) && HasGroup(s, key)
    requires Ordered(waiters) && Within(waiters, s.worker.queue)
    ensures Joined(s, key, JoinAll(s, waiters, now)) && NoneLeft(waiters, key, JoinAll(s, waiters, now))
    decreases |waiters|
  {
    hide Core;
    CoreFacts(s);
    if waiters == [] {
      AdvancedReflexive(s.worker.queue);
    } else {
      hide Grant, Joined;
      var w, rest := waiters[0], waiters[1..];
      var s1 := Grant(s, w, now);
      if w.key != Some(key) {
        JoinAllJoins(s, rest, key, now);
      } else {
        JoinOne(s, w, rest, key, now);
        if !Failed(s1) {
          JoinAllJoins(s1, rest, key, now);
          JoinedTransitive(s, s1, w, key, JoinAll(s1, rest, now));
        }
      }
    }
  }

  lemma {:induction false} CoreFacts(s: State)
    requires Core(s)
    ensures !Failed(s) && Ordered(s.worker.queue) && Ordered(s.classifier.queue) && Keyed(s.classifier.queue)
    ensures HasRole(s.worker.queue, WorkerRole) && HasRole(s.classifier.queue, ClassifierRole)
    ensures s.held.group.Some? ==> s.held.unbound.None?
  {
  }

  /** The first waiting classifier enters its group. */
  lemma {:induction false} GrantClassifier(s: State, now: real)
    requires Core(s) && s.held.unbound.None? && s.classifier.queue != []
    requires s.held.group.Some? ==> s.classifier.queue[0].key == Some(s.held.group.value.key)
    ensures var r := Grant(s, s.classifier.queue[0], now);
            if Failed(r) then Down(r)
            else Core(r) && Onward(s, r) && r.classifier.queue == s.classifier.queue[1..]
                 && r.worker.queue == s.worker.queue && r.held.unbound.None?
                 && r.held.group.Some? && Some(r.held.group.value.key) == s.classifier.queue[0].key
  {
    var w := s.classifier.queue[0];
    assert w in s.classifier.queue;
    assert w.role.ClassifierRole? && w.key.Some?;
    GrantKeepsCore(s, w, now);
    WithoutHead(s.classifier.queue);
  }

  /** All waiting classifiers enter one group together. */
  lemma {:induction false} GrantClassifiers(s: State, now: real)
    requires Core(s) && OneKey(s.classifier.queue) && s.held.unbound.None?
    requires s.held.group.Some? && s.classifier.queue != [] ==> s.classifier.queue[0].key == Some(s.held.group.value.key)
    ensures var r := GrantAll(s, s.classifier.queue, now);
            if Failed(r) then Down(r)
            else Core(r) && Onward(s, r) && r.classifier.queue == [] && r.worker.queue == s.worker.queue
                 && r.held.unbound.None?
                 && (s.held.group.Some? ==> HasGroup(r, s.held.group.value.key))
                 && (s.classifier.queue != [] ==> r.held.group.Some?)
    decreases |s.classifier.queue|
  {
    hide Grant, Core, Down, Without;
    CoreFacts(s);
    var q := s.classifier.queue;
    if q != [] {
      var s1 := Grant(s, q[0], now);
      GrantClassifier(s, now);
      if !Failed(s1) {
        WithinKeepsKey(q[1..], q);
        assert q[1..] != [] ==> q[1] in q;
        GrantClassifiers(s1, now);
      }
    }
  }

  // ---------------------------------------------------------- dispatching

  /** Everyone who can join the active group has joined. */
  lemma {:induction false} JoinsSettle(s: State, now: real)
    requires Core(s) && OneKey(s.classifier.queue) && s.held.group.Some?
    ensures var r := DispatchJoins(s, now);
            if Failed(r) then Down(r)
            else Core(r) && HasGroup(r, s.held.group.value.key) && Onward(s, r) && NothingToJoin(r)
                 && Advanced(s.worker.queue, r.worker.queue)
                 && (r.classifier.queue == [] || r.classifier.queue == s.classifier.queue)
  {
    hide Core, Down, Without, Grant, GrantAll, JoinAll, Advanced;
    CoreFacts(s);
    var key := s.held.group.value.key;
    var s1 := JoinAll(s, s.worker.queue, now);
    JoinAllJoins(s, s.worker.queue, key, now);
    if !Failed(s1) {
      CoreFacts(s1);
      AdvancedWithin(s.worker.queue, s1.worker.queue);
      var r := JoinClassifiers(s1, now);
      if s1.classifier.queue != [] && s1.classifier.queue[0].key == Some(key) {
        GrantClassifiers(s1, now);
      }
    }
  }

  /** A fresh admission when the allocator is idle and someone waits. */
  lemma {:induction false} FreshAdmission(s: State, now: real)
    requires Core(s) && OneKey(s.classifier.queue) && IsIdle(s.held)
    requires (s.worker.queue != [] || s.classifier.queue != [])
    ensures var r := DispatchFresh(s, now);
            if Failed(r) then Down(r)
            else Core(r) && Onward(TakeTurn(s), r)
                 && (r.held.unbound.Some? ==> r.held.group.None?) && !IsIdle(r.held)
                 && (if NextRole(s).WorkerRole?
                     then r.worker.queue == s.worker.queue[1..] && r.classifier.queue == s.classifier.queue
                     else r.worker.queue == s.worker.queue && r.classifier.queue == [])
  {
    var s1 := TakeTurn(s);
    assert Core(s1) by { TurnKeepsCore(s, s1); }
    CoreFacts(s1);
    if s.worker.queue != [] && NextRole(s).WorkerRole? {
      var w := s.worker.queue[0];
      assert w in s.worker.queue;
      GrantKeepsCore(s1, w, now);
      WithoutHead(s.worker.queue);
    } else {
      hide Core, Grant, GrantAll;
      GrantClassifiers(s1, now);
    }
  }

  lemma {:induction false} TurnKeepsCore(s: State, r: State)
    requires Core(s) && r == s.(turn := r.turn)
    ensures Core(r)
  {
  }

  /** Failed closed, or nothing left to join and nobody waiting on an idle allocator. */
  ghost predicate Quiet(s: State) {
    if Failed(s) then Down(s) else Core(s) && Settled(s)
  }

  lemma {:induction false} JoinsQuiet(s: State, now: real)
    requires Core(s) && OneKey(s.classifier.queue) && s.held.group.Some? && !s.life.closed
    ensures Quiet(DispatchJoins(s, now))
  {
    hide Core, Down, DispatchJoins;
    JoinsSettle(s, now);
  }

  lemma {:induction false} BusyQuiet(s: State)
    requires Core(s) && OneKey(s.classifier.queue) && ClosedOk(s)
    requires s.life.closed || s.held.unbound.Some? || (s.worker.queue == [] && s.classifier.queue == [])
    ensures Quiet(s)
  {
    CoreFacts(s);
  }

  /** A dispatch always leaves the allocator quiet. */
  lemma {:induction false} DispatchSettles(s: State, now: real)
    requires Core(s) && OneKey(s.classifier.queue) && ClosedOk(s)
    ensures Quiet(Dispatch(s, now))
  {
    if s.life.closed || s.held.unbound.Some? {
      BusyQuiet(s);
    } else if s.held.group.Some? {
      JoinsQuiet(s, now);
    } else if s.worker.queue == [] && s.classifier.queue == [] {
      BusyQuiet(s);
    } else {
      FreshAdmission(s, now);
      hide DispatchFresh, DispatchJoins, Core, Down, Quiet;
      var s1 := DispatchFresh(s, now);
      if Failed(s1) {
        DownQuiet(s1);
      } else if s1.held.unbound.Some? {
        BusyQuiet(s1);
      } else {
        JoinsQuiet(s1, now);
      }
    }
  }

  lemma {:induction false} DownQuiet(s: State)
    requires Down(s)
    ensures Quiet(s) && Failed(s) && s.life.closed
  {
  }
}
