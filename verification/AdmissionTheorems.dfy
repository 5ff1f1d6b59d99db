/** The hydration admission's guarantees over every run. */
module AdmissionTheorems {
  import opened Prelude
  import opened AdmissionSpec
  import opened AdmissionInvariant
  import opened AdmissionDispatch
  import opened AdmissionRuns

  // ------------------------------------------------------------ one event

  lemma {:induction false} LifeKeepsInv(s: State, r: State)
    requires Inv(s) && !Failed(s) && r == s.(life := s.life.(lastNow := r.life.lastNow))
    ensures Inv(r) && !Failed(r)
  {
    LifeKeepsCore(s, r);
  }

  lemma {:induction false} KeepsFrom(s: State, s1: State, r: State)
    requires Keeps(s1, r) && s1 == s.(life := s1.life)
    ensures Keeps(s, r)
  {
    hide Inv;
    FairFrom(s, s1, r);
  }

  lemma {:induction false} AcquireWorkerKeeps(s: State, worker: nat, key: Option<string>, aborted: bool,
                                              clock: Option<real>)
    requires Inv(s) && !Failed(s)
    ensures Keeps(s, DoAcquireWorker(s, worker, key, aborted, clock).0)
  {
    hide Inv, Core, ReadClock, Keeps, Down, Request;
    InvFacts(s);
    ClockKeepsCore(s, clock);
    var s1 := ReadClock(s, clock);
    if Failed(s1) {
      DownKeeps(s, s1);
    } else {
      LifeKeepsInv(s, s1);
      if s1.life.closed || worker !in s1.pool.workers || !s1.pool.workers[worker].open || key == Some("")
         || s1.pool.workers[worker].outstanding != Idle {
        StillKeeps(s, s1);
      } else {
        var now := s1.life.lastNow.value;
        if aborted {
          AbortedRequestKeeps(s1, WorkerRole, key, Some(worker), now);
        } else {
          RequestKeeps(s1, Waiter(s1.ids.next, WorkerRole, key, Some(worker), now), now);
        }
        KeepsFrom(s, s1, Request(s1, WorkerRole, key, Some(worker), aborted, now));
      }
    }
  }

  lemma {:induction false} AcquireClassifierKeeps(s: State, key: string, aborted: bool, clock: Option<real>)
    requires Inv(s) && !Failed(s)
    ensures Keeps(s, DoAcquireClassifier(s, key, aborted, clock).0)
  {
    hide Inv, Core, ReadClock, Keeps, Down, Request;
    InvFacts(s);
    ClockKeepsCore(s, clock);
    var s1 := ReadClock(s, clock);
    if Failed(s1) {
      DownKeeps(s, s1);
    } else {
      LifeKeepsInv(s, s1);
      if s1.life.closed || key == "" || (!aborted && Conflicts(s1, key)) {
        StillKeeps(s, s1);
      } else {
        var now := s1.life.lastNow.value;
        if aborted {
          AbortedRequestKeeps(s1, ClassifierRole, Some(key), None, now);
        } else {
          RequestKeeps(s1, Waiter(s1.ids.next, ClassifierRole, Some(key), None, now), now);
        }
        KeepsFrom(s, s1, Request(s1, ClassifierRole, Some(key), None, aborted, now));
      }
    }
  }

  /** No permit and no worker is added, and a permit changes only by being released. */
  ghost predicate OnlyReleases(s: State, t: State) {
    && t.held.tickets.Keys == s.held.tickets.Keys
    && (forall k :: k in s.held.tickets ==>
          t.held.tickets[k] == s.held.tickets[k] || t.held.tickets[k] == s.held.tickets[k].(state := Released))
    && t.pool.workers.Keys == s.pool.workers.Keys && t.pool.registered <= s.pool.registered
    && (forall k :: k in s.pool.workers && t.pool.workers[k].open ==> s.pool.workers[k].open)
    && t.worker.grants == s.worker.grants && t.classifier.grants == s.classifier.grants
  }

  /** After failing closed only permits are released; nothing waits, is admitted or opens again. */
  lemma {:induction false} FailedStays(s: State, e: Event)
    requires Down(s)
    ensures Down(Step(s, e)) && OnlyReleases(s, Step(s, e)) && Step(s, e).life == s.life
  {
    hide HeldOk, OneTicket;
    match e
    case Release(ticket, clock) =>
      if ticket in s.held.tickets && !s.held.tickets[ticket].state.Released? { DetachKeepsHeld(s.held, ticket); }
    case _ =>
  }

  lemma {:induction false} StepKeeps(s: State, e: Event)
    requires Inv(s)
    ensures Keeps(s, Step(s, e))
  {
    if Failed(s) {
      FailedStays(s, e);
      DownKeeps(s, Step(s, e));
    } else {
      hide Inv, Keeps;
      match e
      case RegisterWorker(clock) => RegisterKeeps(s, clock);
      case AcquireWorker(worker, key, aborted, clock) => AcquireWorkerKeeps(s, worker, key, aborted, clock);
      case AcquireClassifier(key, aborted, clock) => AcquireClassifierKeeps(s, key, aborted, clock);
      case BindGroup(ticket, key, clock) => BindKeeps(s, ticket, key, clock);
      case Release(ticket, clock) => ReleaseKeeps(s, ticket, clock);
      case Abort(w, clock) => AbortKeeps(s, w, clock);
      case CloseWorker(worker, clock) => CloseWorkerKeeps(s, worker, clock);
      case Close(clock) => CloseKeeps(s, clock);
    }
  }

  // ---------------------------------------------------------- whole runs

  /** Every reachable state satisfies the admission invariant, whatever the interleaving and the clock. */
  lemma {:induction false} RunKeepsInvariant(s: State, events: seq<Event>)
    requires Inv(s)
    ensures Inv(Run(s, events))
    decreases |events|
  {
    if events != [] {
      StepKeeps(s, events[0]);
      RunKeepsInvariant(Step(s, events[0]), events[1..]);
    }
  }

  lemma InitialInvariant()
    ensures Inv(Initial)
  {
  }

  lemma {:induction false} FailedRun(s: State, events: seq<Event>)
    requires Down(s)
    ensures Down(Run(s, events))
    decreases |events|
  {
    if events != [] {
      FailedStays(s, events[0]);
      FailedRun(Step(s, events[0]), events[1..]);
    }
  }

  /**
   Bounded bypass of workers: a worker that waits at position p and still waits after a run
   has seen fewer than 2(p + 1) fresh admissions of either role.
   */
  lemma {:induction false} WorkerGrantedWithin(s: State, events: seq<Event>, id: nat)
    requires Inv(s) && Queued(s.worker.queue, id)
    requires Queued(Run(s, events).worker.queue, id)
    ensures FreshAdmissions(Run(s, events)) < FreshAdmissions(s) + 2 * (Position(s.worker.queue, id) + 1)
  {
    assert id < s.ids.next by {
      if Failed(s) { assert false; }
      assert s.worker.queue[Position(s.worker.queue, id)] in s.worker.queue;
    }
    RunFair(s, events, id);
  }

  lemma {:induction false} RunFair(s: State, events: seq<Event>, id: nat)
    requires Inv(s) && id < s.ids.next && Queued(Run(s, events).worker.queue, id)
    ensures Queued(s.worker.queue, id) && Score(Run(s, events), id) <= Score(s, id)
    decreases |events|
  {
    hide Inv, Down, Step;
    if events != [] {
      var s1, rest := Step(s, events[0]), events[1..];
      StepKeeps(s, events[0]);
      if Failed(s1) {
        FailedInv(s1);
        FailedRun(s1, rest);
        FailedQueue(Run(s1, rest));
        assert false;
      }
      RunFair(s1, rest, id);
    }
  }

  lemma {:induction false} FailedInv(s: State)
    requires Inv(s) && Failed(s)
    ensures Down(s)
  {
  }

  lemma {:induction false} FailedQueue(s: State)
    requires Down(s)
    ensures s.worker.queue == [] && s.classifier.queue == []
  {
  }

  /** Classifiers wait in every state of the run. */
  ghost predicate ClassifiersWait(s: State, events: seq<Event>)
    decreases |events|
  {
    s.classifier.queue != [] && (events != [] ==> ClassifiersWait(Step(s, events[0]), events[1..]))
  }

  /** Bounded bypass of classifiers: while their group waits, at most one fresh worker admission passes it. */
  lemma {:induction false} ClassifierBypassedAtMostOnce(s: State, events: seq<Event>)
    requires Inv(s) && ClassifiersWait(s, events)
    ensures Run(s, events).turn.freshWorkers <= s.turn.freshWorkers + 1
    ensures Run(s, events).turn.freshClassifiers == s.turn.freshClassifiers
  {
    ClassifierRunFair(s, events);
  }

  lemma {:induction false} ClassifierRunFair(s: State, events: seq<Event>)
    requires Inv(s) && ClassifiersWait(s, events)
    ensures var r := Run(s, events);
            r.turn.freshClassifiers == s.turn.freshClassifiers
            && r.turn.freshWorkers - Owed(r.turn) <= s.turn.freshWorkers - Owed(s.turn)
    decreases |events|
  {
    hide Inv, Down, Step;
    if events != [] {
      var s1, rest := Step(s, events[0]), events[1..];
      StepKeeps(s, events[0]);
      assert s1.classifier.queue != [];
      if Failed(s1) {
        FailedInv(s1);
        FailedQueue(s1);
        assert false;
      }
      ClassifierRunFair(s1, rest);
    }
  }

  // ------------------------------------------- what the invariant gives

  /** Never both a reservation and a group, and the group is held by exactly its unreleased bound permits, all of its key. */
  lemma {:induction false} OneAdmission(events: seq<Event>)
    ensures var h := Run(Initial, events).held;
            && !(h.unbound.Some? && h.group.Some?)
            && forall t: nat :: t in h.tickets ==>
                 && (h.tickets[t].state.Bound? <==> h.group.Some? && t in h.group.value.references)
                 && (h.tickets[t].state.Bound? ==> h.tickets[t].key == Some(h.group.value.key))
  {
    InitialInvariant();
    RunKeepsInvariant(Initial, events);
  }

  /** Until failure every request is granted, cancelled or pending, role by role. */
  lemma {:induction false} RequestsConserved(events: seq<Event>)
    ensures var s := Run(Initial, events);
            !Failed(s) ==>
              && s.worker.requests == s.worker.grants + s.worker.cancellations + |s.worker.queue|
              && s.classifier.requests == s.classifier.grants + s.classifier.cancellations + |s.classifier.queue|
  {
    InitialInvariant();
    RunKeepsInvariant(Initial, events);
  }

  /** While open and idle both queues are empty. */
  lemma {:induction false} IdleMeansEmpty(events: seq<Event>)
    ensures var s := Run(Initial, events);
            !s.life.closed && IsIdle(s.held) ==> s.worker.queue == [] && s.classifier.queue == []
  {
    InitialInvariant();
    RunKeepsInvariant(Initial, events);
  }

  /** Pending classifiers ask for one key, and nobody pending asks for the active group's key. */
  lemma {:induction false} PendingKeys(events: seq<Event>)
    ensures var s := Run(Initial, events);
            && (forall v, w :: v in s.classifier.queue && w in s.classifier.queue ==> v.key == w.key)
            && (s.held.group.Some? ==>
                  forall w :: w in s.worker.queue + s.classifier.queue ==> w.key != Some(s.held.group.value.key))
  {
    InitialInvariant();
    RunKeepsInvariant(Initial, events);
  }

  ghost predicate WaitsFor(s: State, w: Waiter, worker: nat) {
    w in s.worker.queue && w.worker == Some(worker)
  }

  ghost predicate Holds(s: State, t: nat, worker: nat) {
    t in s.held.tickets && !s.held.tickets[t].state.Released? && s.held.tickets[t].worker == Some(worker)
  }

  /** A worker never has two outstanding items: two requests, two permits, or one of each. */
  lemma {:induction false} OneItemPerWorker(events: seq<Event>, worker: nat)
    ensures var s := Run(Initial, events);
            && (forall v, w :: WaitsFor(s, v, worker) && WaitsFor(s, w, worker) ==> v == w)
            && (forall t, u :: Holds(s, t, worker) && Holds(s, u, worker) ==> t == u)
            && (forall v, t :: WaitsFor(s, v, worker) ==> !Holds(s, t, worker))
  {
    InitialInvariant();
    RunKeepsInvariant(Initial, events);
    var s := Run(Initial, events);
    if !Failed(s) {
      OwnedOnce(s);
      forall v, w | WaitsFor(s, v, worker) && WaitsFor(s, w, worker)
        ensures v == w
      {
        SameWaiter(s.worker.queue, v, w);
      }
    }
  }
}
