/**
 The one way an accepted request goes unanswered: its own grant overflows the
 group's reference count, after it has left the queue and before it is resolved.
 */
module AdmissionLoss {
  import opened Prelude
  import opened AdmissionSpec
  import opened AdmissionInvariant

  // --------------------------------------------------- the exact condition

  lemma {:induction false} RefuseAnswers(s: State, waiters: seq<Waiter>, code: FailureCode, id: nat)
    ensures id in RefuseAll(s, waiters, code).ids.settled <==>
            id in s.ids.settled || exists i :: 0 <= i < |waiters| && waiters[i].id == id
    decreases |waiters|
  {
    hide Without, Clear;
    if waiters != [] {
      var s1 := Dismiss(s, waiters[0], Refused(code));
      RefuseAnswers(s1, waiters[1..], code, id);
      assert id in s1.ids.settled <==> id in s.ids.settled || id == waiters[0].id;
      assert waiters == [waiters[0]] + waiters[1..];
    }
  }

  lemma {:induction false} FailAnswers(s: State, code: FailureCode, id: nat)
    ensures id in Fail(s, code).ids.settled <==>
            id in s.ids.settled || exists i :: 0 <= i < |s.worker.queue + s.classifier.queue| && (s.worker.queue + s.classifier.queue)[i].id == id
  {
    hide RefuseAll, Unregister;
    var first := if Failed(s) then s.life.failure.value else code;
    var s1 := s.(life := s.life.(failure := Some(first), closed := true), pool := Unregister(s.pool, s.pool.registered));
    RefuseAnswers(s1, s1.worker.queue + s1.classifier.queue, first, id);
  }

  predicate Pends(s: State, id: nat) {
    exists i :: 0 <= i < |s.worker.queue + s.classifier.queue| && (s.worker.queue + s.classifier.queue)[i].id == id
  }

  lemma {:induction false} QueuedPends(s: State, v: Waiter)
    requires v in SideOf(s, v.role).queue
    ensures Pends(s, v.id)
  {
    var all := s.worker.queue + s.classifier.queue;
    var q := SideOf(s, v.role).queue;
    var i :| 0 <= i < |q| && q[i] == v;
    if v.role.WorkerRole? { assert all[i] == v; } else { assert all[|s.worker.queue| + i] == v; }
  }

  lemma {:induction false} GonePends(s: State, v: Waiter, elapsed: nat)
    requires Only(s.worker.queue, v) && Only(s.classifier.queue, v) && v in SideOf(s, v.role).queue
    requires v.role.WorkerRole? ==> v !in s.classifier.queue
    requires v.role.ClassifierRole? ==> v !in s.worker.queue
    ensures !Pends(CountGrant(s, v, elapsed), v.id)
  {
    hide Without, Assign;
    var r := CountGrant(s, v, elapsed);
    OnlyGone(SideOf(s, v.role).queue, v);
  }

  /** Whoever has this identity is this waiter, and it is there once. */
  ghost predicate Only(q: seq<Waiter>, v: Waiter) {
    && (forall i :: 0 <= i < |q| && q[i].id == v.id ==> q[i] == v)
    && forall i, j :: 0 <= i < j < |q| ==> q[i].id != q[j].id
  }

  lemma {:induction false} OnlyGone(q: seq<Waiter>, v: Waiter)
    requires Only(q, v)
    ensures forall i :: 0 <= i < |Without(q, v.id)| ==> Without(q, v.id)[i].id != v.id
  {
  }

  /**
   A waiter's grant leaves it without an answer exactly when clock and grant counter
   are in order and the group already holds 2^53 - 1 references.
   */
  lemma {:induction false} LostIffFull(s: State, v: Waiter, now: real)
    requires !Failed(s) && v in SideOf(s, v.role).queue && v.id !in s.ids.settled
    requires Only(s.worker.queue, v) && Only(s.classifier.queue, v)
    requires (v.role.WorkerRole? ==> v !in s.classifier.queue) && (v.role.ClassifierRole? ==> v !in s.worker.queue)
    ensures v.id !in Grant(s, v, now).ids.settled <==>
            && 0 <= (now - v.startedAt).Floor <= MAX_SAFE && SideOf(s, v.role).grants < MAX_SAFE
            && v.key.Some? && s.held.group.Some? && |s.held.group.value.references| >= MAX_SAFE
  {
    hide Fail, CountGrant, Admit, Pends, Only;
    QueuedPends(s, v);
    FailAnswers(s, InvalidClock, v.id);
    FailAnswers(s, CounterOverflow, v.id);
    assert Pends(s, v.id) ==> v.id in Fail(s, InvalidClock).ids.settled && v.id in Fail(s, CounterOverflow).ids.settled by {
      PendsMeans(s, v.id);
    }
    var e := Elapsed(now, v.startedAt);
    if e.Some? && v.key.Some? {
      var s1 := CountGrant(s, v, e.value);
      var s2 := s1.(held := s1.held.(group := Some(GroupFor(s.held, v.key.value))));
      GonePends(s, v, e.value);
      PendsMeans(s2, v.id);
      PendsMeans(s1, v.id);
      FailAnswers(s2, CounterOverflow, v.id);
      CountsOnly(s, v, e.value);
    }
  }

  lemma {:induction false} PendsMeans(s: State, id: nat)
    ensures Pends(s, id) <==> exists i :: 0 <= i < |s.worker.queue + s.classifier.queue| && (s.worker.queue + s.classifier.queue)[i].id == id
  {
  }

  lemma {:induction false} CountsOnly(s: State, v: Waiter, elapsed: nat)
    ensures CountGrant(s, v, elapsed).ids == s.ids && CountGrant(s, v, elapsed).held == s.held
  {
    hide Without, Assign;
  }

  // ------------------------------------------------- a run that gets there

  const AT: Option<real> := Some(0.0)
  const KEY: string := "group"

  /** The classifiers that wait for `KEY`, from identity `from` on. */
  predicate Waiters(q: seq<Waiter>, from: nat) {
    forall i :: 0 <= i < |q| ==> q[i] == Waiter(from + i, ClassifierRole, Some(KEY), None, 0.0)
  }

  /** A reservation is held, and `n` classifiers wait. */
  ghost predicate Lining(s: State, n: nat) {
    && !Failed(s) && !s.life.closed && s.life.lastNow == AT && s.ids.next == 2 + n && s.worker.queue == []
    && s.held.unbound == Some(1) && s.held.group.None? && s.held.tickets.Keys == {1}
    && s.held.tickets[1].state.Unbound? && s.ids.settled.Keys == {1}
    && |s.classifier.queue| == n && Waiters(s.classifier.queue, 2) && s.classifier.grants == 0
  }

  const ASK: Event := AcquireClassifier(KEY, false, AT)

  lemma {:induction false} StartLines()
    ensures Lining(Run(Initial, [RegisterWorker(AT), AcquireWorker(0, None, false, AT)]), 0)
  {
    var es := [RegisterWorker(AT), AcquireWorker(0, None, false, AT)];
    var s1 := Step(Initial, es[0]);
    assert es[1..] == [es[1]] && es[1..][1..] == [];
    assert s1 == Initial.(pool := Pool(map[0 := WorkerEntry(true, Idle)], {0}), ids := Ids(1, map[]), life := Life(AT, None, false));
    ReservationTaken(s1);
    assert Run(s1, es[1..]) == Step(s1, es[1]);
  }

  lemma {:induction false} ReservationTaken(s: State)
    requires s == Initial.(pool := Pool(map[0 := WorkerEntry(true, Idle)], {0}), ids := Ids(1, map[]), life := Life(AT, None, false))
    ensures Lining(Step(s, AcquireWorker(0, None, false, AT)), 0)
  {
    var w := Waiter(1, WorkerRole, None, Some(0), 0.0);
    var q := Enqueue(s, w);
    assert q.worker.queue == [w];
    assert Position([w], 1) == 0;
    assert Without([w], 1) == [];
    var t := TakeTurn(q);
    var g := Grant(t, w, 0.0);
    assert (0.0 - 0.0).Floor == 0;
    assert g.held.unbound == Some(1);
    assert Dispatch(q, 0.0) == g;
    assert Place(q, w, 0.0) == g;
  }

  lemma {:induction false} AskLines(s: State, n: nat)
    requires Lining(s, n)
    ensures Lining(Step(s, ASK), n + 1)
    ensures DoAcquireClassifier(s, KEY, false, AT).1 == Promise(2 + n)
  {
    if n > 0 { assert s.classifier.queue[0].key == Some(KEY); }
  }

  function Asks(n: nat): (es: seq<Event>)
    ensures |es| == n && forall i :: 0 <= i < n ==> es[i] == ASK
  {
    seq(n, _ => ASK)
  }

  lemma {:induction false} AsksLine(s: State, n: nat, k: nat)
    requires Lining(s, n)
    ensures Lining(Run(s, Asks(k)), n + k)
    decreases k
  {
    hide Lining, Step;
    if k > 0 {
      AskLines(s, n);
      assert Asks(k)[1..] == Asks(k - 1);
      AsksLine(Step(s, ASK), n + 1, k - 1);
    }
  }

  /** A group of `KEY` that can take all of its waiters but the last. */
  ghost predicate Filling(s: State, from: nat) {
    && !Failed(s) && s.worker.queue == [] && s.classifier.queue != [] && Waiters(s.classifier.queue, from)
    && s.held.group.Some? && s.held.group.value.key == KEY
    && (forall t :: t in s.held.group.value.references ==> t < from)
    && |s.held.group.value.references| + |s.classifier.queue| == MAX_SAFE + 1
    && s.classifier.grants + |s.classifier.queue| <= MAX_SAFE
    && (forall t :: t in s.held.tickets ==> t < from) && (forall t :: t in s.ids.settled ==> t < from)
  }

  /** The request is nowhere any more, and was never answered. */
  ghost predicate Lost(s: State, id: nat) {
    && s.life.failure == Some(CounterOverflow) && id !in s.ids.settled && id !in s.held.tickets
    && s.worker.queue == [] && s.classifier.queue == []
  }

  lemma {:induction false} HeadLeaves(q: seq<Waiter>, from: nat)
    requires q != [] && Waiters(q, from)
    ensures Without(q, from) == q[1..] && Waiters(q[1..], from + 1)
  {
    assert q[0].id == from;
    assert Position(q, from) == 0;
    assert q[..0] + q[1..] == q[1..];
  }

  lemma {:induction false} OneJoins(s: State, from: nat)
    requires Filling(s, from) && |s.classifier.queue| > 1
    ensures var r := Grant(s, s.classifier.queue[0], 0.0);
            Filling(r, from + 1) && r.classifier.queue == s.classifier.queue[1..]
  {
    hide Without;
    var w := s.classifier.queue[0];
    assert w == Waiter(from, ClassifierRole, Some(KEY), None, 0.0);
    HeadLeaves(s.classifier.queue, from);
    assert (0.0 - 0.0).Floor == 0;
    var refs := s.held.group.value.references;
    assert |refs + {from}| == |refs| + 1;
  }

  lemma {:induction false} LastIsLost(s: State, from: nat)
    requires Filling(s, from) && |s.classifier.queue| == 1
    ensures Lost(Grant(s, s.classifier.queue[0], 0.0), from)
  {
    hide Without;
    var w := s.classifier.queue[0];
    assert w == Waiter(from, ClassifierRole, Some(KEY), None, 0.0);
    HeadLeaves(s.classifier.queue, from);
    assert (0.0 - 0.0).Floor == 0;
    var s1 := CountGrant(s, w, 0);
    assert s1.classifier.queue == [] && s1.worker.queue == [];
    assert s1.worker.queue + s1.classifier.queue == [];
  }

  lemma {:induction false} JoinsLose(s: State, from: nat)
    requires Filling(s, from)
    ensures Lost(GrantAll(s, s.classifier.queue, 0.0), from + |s.classifier.queue| - 1)
    decreases |s.classifier.queue|
  {
    hide Filling, Lost, Grant;
    FillingFacts(s, from);
    var q := s.classifier.queue;
    var r := Grant(s, q[0], 0.0);
    if |q| == 1 {
      LastIsLost(s, from);
      LostFailed(r, from);
      assert q[1..] == [];
    } else {
      OneJoins(s, from);
      JoinsLose(r, from + 1);
    }
  }

  lemma {:induction false} FillingFacts(s: State, from: nat)
    requires Filling(s, from)
    ensures s.classifier.queue != [] && !Failed(s)
  {
  }

  lemma {:induction false} LostFailed(s: State, id: nat)
    requires Lost(s, id)
    ensures Failed(s)
  {
  }

  lemma {:induction false} BindLoses(s: State)
    requires Lining(s, MAX_SAFE)
    ensures Lost(Step(s, BindGroup(1, KEY, AT)), MAX_SAFE + 1)
  {
    hide GrantAll, Lost;
    var s1 := s.(held := Bind(s.held, 1, KEY));
    assert ReadClock(s, AT) == s;
    assert |{1 as nat}| == 1;
    assert s1.held.group.value.references == {1};
    assert Filling(s1, 2);
    assert s1.classifier.queue[0].key == Some(KEY);
    JoinsLose(s1, 2);
  }

  function LosingRun(): seq<Event> {
    [RegisterWorker(AT), AcquireWorker(0, None, false, AT)] + Asks(MAX_SAFE) + [BindGroup(1, KEY, AT)]
  }

  lemma {:induction false} RunParts(s: State, a: seq<Event>, b: seq<Event>)
    ensures Run(s, a + b) == Run(Run(s, a), b)
    decreases |a|
  {
    hide Step;
    if a == [] {
      assert a + b == b;
    } else {
      assert (a + b)[1..] == a[1..] + b;
      RunParts(Step(s, a[0]), a[1..], b);
    }
  }

  /**
   A run that loses an answer: a worker reserves, 2^53 - 1 classifiers ask for one
   group and are all accepted, and the worker binds its reservation to that group.
   The last classifier is neither granted, cancelled nor refused.
   */
  lemma {:induction false} AnswerCanBeLost()
    ensures Lost(Run(Initial, LosingRun()), MAX_SAFE + 1)
    ensures var before := Run(Initial, LosingRun()[..MAX_SAFE + 1]);
            DoAcquireClassifier(before, KEY, false, AT).1 == Promise(MAX_SAFE + 1)
  {
    hide Lining, Lost, Step, Run;
    var start := [RegisterWorker(AT), AcquireWorker(0, None, false, AT)];
    var bind := [BindGroup(1, KEY, AT)];
    StartLines();
    var s := Run(Initial, start);
    AsksLine(s, 0, MAX_SAFE);
    BindLoses(Run(s, Asks(MAX_SAFE)));
    RunParts(Initial, start, Asks(MAX_SAFE));
    RunParts(Initial, start + Asks(MAX_SAFE), bind);
    RunOne(Run(s, Asks(MAX_SAFE)), bind[0]);
    AsksLine(s, 0, MAX_SAFE - 1);
    AskLines(Run(s, Asks(MAX_SAFE - 1)), MAX_SAFE - 1);
    RunParts(Initial, start, Asks(MAX_SAFE - 1));
    assert LosingRun()[..MAX_SAFE + 1] == start + Asks(MAX_SAFE - 1);
  }

  lemma {:induction false} RunOne(s: State, e: Event)
    ensures Run(s, [e]) == Step(s, e)
  {
    hide Step;
    assert [e][1..] == [];
  }
}
