/**
 What each permit event brings about: who is granted, who is rejected and why,
 and which route the block cache is bound to.
 */
module PermitOutcomes {
  import opened Prelude
  import opened PermitLock

  // ------------------------------------------------------------ the route

  /** While workers of a context hold the permit, the cache is bound to that context or, once `cleared`, to none. */
  predicate RouteOk(s: Lock, cleared: bool) {
    s.held.kind == Some(Worker) && s.held.context.Some? ==>
      s.route.active == s.held.context || (cleared && s.route.active.None?)
  }

  /** The route stays, or it changes together with its epoch. */
  predicate Moves(from: Route, to: Route) {
    to == from || to.epoch == AdvanceEpoch(from.epoch)
  }

  lemma {:induction false} GrantRoutes(s: Lock, cleared: bool)
    requires Core(s) && s.queue != [] && RouteOk(s, cleared) && (s.held.kind.None? || Joins(s))
    ensures var t := Grant(s.(queue := s.queue[1..]), s.queue[0]);
            RouteOk(t, cleared) && Moves(s.route, t.route) && t.held.kind.Some? && (s.held.kind.Some? ==> t.route == s.route)
  {
    hide HoldersOk, OrderOk, AccountsOk;
    FreeHasNone(s);
  }

  lemma {:induction false} DrainRoutes(s: Lock, cleared: bool)
    requires Core(s) && RouteOk(s, cleared)
    ensures RouteOk(Drain(s), cleared) && Moves(s.route, Drain(s).route)
    ensures s.held.kind.Some? ==> Drain(s).route == s.route
    decreases |s.queue|
  {
    hide Core, Joins, Moves;
    if s.closed || s.queue == [] || (s.held.kind.Some? && !Joins(s)) {
      StaysPut(s.route);
    } else if s.queue[0].id in s.aborted {
      DropKeeps(s);
      DrainRoutes(s.(queue := s.queue[1..], rejected := s.rejected + {s.queue[0].id}), cleared);
    } else {
      GrantKeeps(s);
      GrantRoutes(s, cleared);
      DrainRoutes(Grant(s.(queue := s.queue[1..]), s.queue[0]), cleared);
    }
  }

  lemma {:induction false} StaysPut(r: Route)
    ensures Moves(r, r)
  {
  }

  lemma {:induction false} HolderContext(s: Lock, id: nat)
    requires HoldersOk(s) && id in s.holders && s.held.kind == Some(Worker)
    ensures s.holders[id].context == s.held.context
  {
  }

  lemma {:induction false} BindMoves(r: Route, c: Context)
    ensures Moves(r, Bind(r, c))
  {
  }

  lemma {:induction false} AdvanceMoves(r: Route, active: Option<Context>)
    ensures Moves(r, Route(active, AdvanceEpoch(r.epoch)))
  {
  }

  lemma {:induction false} ReleaseRoutes(s: Lock, id: nat, cleared: bool)
    requires Inv(s) && RouteOk(s, cleared)
    ensures RouteOk(DoRelease(s, id), cleared) && Moves(s.route, DoRelease(s, id).route)
  {
    hide OrderOk, AccountsOk, Drain, Moves, Waiting;
    StaysPut(s.route);
    if id in s.holders {
      HolderGone(s, id);
      if s.holders[id].kind == Scan || s.held.references == 1 {
        var t := s.(holders := s.holders - {id}, held := Held(None, None, 0));
        FreedCore(s, id);
        DrainRoutes(t, cleared);
      }
    }
  }

  lemma {:induction false} FreedCore(s: Lock, id: nat)
    requires Core(s) && id in s.holders && (s.holders[id].kind == Scan || s.held.references == 1)
    ensures Core(s.(holders := s.holders - {id}, held := Held(None, None, 0)))
  {
    hide OrderOk;
    HolderGone(s, id);
    OrderSame(s, s.(holders := s.holders - {id}, held := Held(None, None, 0)));
  }

  /** Every step keeps the cache bound to the holders' route, and changes the route only together with its epoch. */
  lemma {:induction false} StepRoutes(s: Lock, e: Event, cleared: bool)
    requires (e.Unroute? ==> cleared) && Inv(s) && RouteOk(s, cleared)
    ensures RouteOk(Step(s, e), cleared) && Moves(s.route, Step(s, e).route)
  {
    hide HoldersOk, OrderOk, AccountsOk, Drain, DoRelease, Moves, Waiting;
    StaysPut(s.route);
    match e
    case Acquire(kind, context, fired) =>
      if !Refuses(s, fired) {
        PushKeeps(s, kind, context);
        DrainRoutes(s.(next := s.next + 1, queue := s.queue + [Waiter(s.next, kind, context)]), cleared);
      }
    case Release(id) => ReleaseRoutes(s, id, cleared);
    case BindScan(c) => BindMoves(s.route, c);
    case BindWorker(id, c) =>
      BindMoves(s.route, c);
      if id in s.holders && s.held.kind == Some(Worker) { HolderContext(s, id); }
    case Unroute => AdvanceMoves(s.route, None);
    case Invalidate => AdvanceMoves(s.route, s.route.active);
    case _ =>
  }

  /** How many events changed the route or invalidated it. */
  function Changes(s: Lock, events: seq<Event>): nat
    decreases |events|
  {
    if events == [] then 0
    else (if Step(s, events[0]).route != s.route then 1 else 0) + Changes(Step(s, events[0]), events[1..])
  }

  lemma {:induction false} EpochStep(from: Route, to: Route, n: nat)
    requires Moves(from, to) && from.epoch == n % (MAX_SAFE + 1)
    ensures to.epoch == (n + if to != from then 1 else 0) % (MAX_SAFE + 1)
  {
    assert (n + 1) % (MAX_SAFE + 1) == if n % (MAX_SAFE + 1) == MAX_SAFE then 0 else n % (MAX_SAFE + 1) + 1;
  }

  lemma {:induction false} RoutesFrom(s: Lock, events: seq<Event>, n: nat, cleared: bool)
    requires Inv(s) && RouteOk(s, cleared) && s.route.epoch == n % (MAX_SAFE + 1)
    requires cleared || Unroute !in events
    ensures RouteOk(Run(s, events), cleared) && Run(s, events).route.epoch == (n + Changes(s, events)) % (MAX_SAFE + 1)
    decreases |events|
  {
    hide Inv, Step, RouteOk, Moves;
    if events != [] {
      var t := Step(s, events[0]);
      StepKeeps(s, events[0]);
      StepRoutes(s, events[0], cleared);
      EpochStep(s.route, t.route, n);
      RoutesFrom(t, events[1..], n + (if t.route != s.route then 1 else 0), cleared);
    }
  }

  /**
   In every reachable state the cache is bound to the context of the workers that hold
   the permit, or to none if the route was cleared, and never to another; and the epoch
   counts the changes of route, wrapping at the largest safe integer.
   */
  lemma {:induction false} EpochCountsRoutes(events: seq<Event>)
    ensures var s := Run(INITIAL, events);
            && (s.held.kind == Some(Worker) && s.held.context.Some? ==>
                  s.route.active == s.held.context || (Unroute in events && s.route.active.None?))
            && s.route.epoch == Changes(INITIAL, events) % (MAX_SAFE + 1)
  {
    hide Run, Changes, Inv;
    InitialOk();
    RoutesFrom(INITIAL, events, 0, Unroute in events);
  }

  /** What each event does to the route: a grant or a scan binds its own context, a clearing unbinds, all at the next epoch. */
  lemma {:induction false} RouteEvents(s: Lock, c: Context)
    ensures Step(s, Unroute).route == Route(None, AdvanceEpoch(s.route.epoch))
    ensures Step(s, Invalidate).route == Route(s.route.active, AdvanceEpoch(s.route.epoch))
    ensures s.held.kind == Some(Scan) ==>
              Step(s, BindScan(c)).route == if s.route.active == Some(c) then s.route else Route(Some(c), AdvanceEpoch(s.route.epoch))
    ensures forall id :: id in s.holders && s.holders[id].kind == Worker && s.holders[id].context in {None, Some(c)} ==>
              Step(s, BindWorker(id, c)).route.active == Some(c)
    ensures AdvanceEpoch(s.route.epoch) != s.route.epoch
  {
  }

  // ---------------------------------------------------- what a drain does

  /** Grants and rejections since `s`: holders stay, and only aborted waiters are rejected. */
  ghost predicate Serves(s: Lock, t: Lock) {
    && t.aborted == s.aborted && t.closed == s.closed && t.next == s.next
    && s.rejected <= t.rejected && t.rejected <= s.rejected + s.aborted
    && (forall id :: id in s.holders ==> id in t.holders && t.holders[id] == s.holders[id])
    && (forall id :: id in t.holders && id !in s.holders ==> t.holders[id] in s.queue && t.holders[id].id == id)
    && (forall w :: w in s.queue ==> w in t.queue || w.id in t.rejected || (w.id in t.holders && t.holders[w.id] == w))
  }

  lemma {:induction false} GrantServes(s: Lock)
    requires s.queue != [] && s.queue[0].id !in s.holders
    ensures Serves(s, Grant(s.(queue := s.queue[1..]), s.queue[0]))
  {
    assert forall w :: w in s.queue ==> w == s.queue[0] || w in s.queue[1..];
  }

  lemma {:induction false} DropServes(s: Lock)
    requires s.queue != [] && s.queue[0].id in s.aborted
    ensures Serves(s, s.(queue := s.queue[1..], rejected := s.rejected + {s.queue[0].id}))
  {
    assert forall w :: w in s.queue ==> w == s.queue[0] || w in s.queue[1..];
  }

  lemma {:induction false} ServesOn(a: Lock, b: Lock, c: Lock)
    requires Serves(a, b) && Serves(b, c)
    requires forall w :: w in b.queue ==> w in a.queue
    ensures Serves(a, c)
  {
  }

  lemma {:induction false} DrainServes(s: Lock)
    requires Core(s)
    ensures Serves(s, Drain(s))
    decreases |s.queue|
  {
    hide Core, Joins, Serves, Grant;
    if s.closed || s.queue == [] || (s.held.kind.Some? && !Joins(s)) {
      ServesSelf(s);
    } else {
      var t := if s.queue[0].id in s.aborted then s.(queue := s.queue[1..], rejected := s.rejected + {s.queue[0].id})
               else Grant(s.(queue := s.queue[1..]), s.queue[0]);
      if s.queue[0].id in s.aborted {
        DropKeeps(s);
        DropServes(s);
      } else {
        GrantKeeps(s);
        HeadIsFree(s);
        GrantServes(s);
        GrantQueue(s.(queue := s.queue[1..]), s.queue[0]);
      }
      DrainServes(t);
      ServesOn(s, t, Drain(t));
    }
  }

  lemma {:induction false} HeadIsFree(s: Lock)
    requires Core(s) && s.queue != []
    ensures s.queue[0].id !in s.holders
  {
    HeadIsNew(s);
  }

  lemma {:induction false} ServesSelf(s: Lock)
    ensures Serves(s, s)
  {
  }

  // ----------------------------------------------------------- the events

  /** A request is rejected for one of three reasons: it was aborted, refused on arrival, or the permit closed. */
  lemma {:induction false} RejectedForCause(s: Lock, e: Event, id: nat)
    requires Inv(s) && id in Step(s, e).rejected && id !in s.rejected
    ensures id in s.aborted || e.Close? || (e.Acquire? && id == s.next && (s.closed || e.fired || Waiting(s) >= MAX_PERMIT_WAITERS))
  {
    hide HoldersOk, OrderOk, AccountsOk, Drain, DoRelease, Waiting;
    match e
    case Acquire(kind, context, fired) =>
      if !Refuses(s, fired) {
        PushKeeps(s, kind, context);
        DrainServes(s.(next := s.next + 1, queue := s.queue + [Waiter(s.next, kind, context)]));
      }
    case Release(r) => ReleaseRejects(s, r);
    case _ =>
  }

  lemma {:induction false} ReleaseRejects(s: Lock, id: nat)
    requires Inv(s)
    ensures DoRelease(s, id).rejected <= s.rejected + s.aborted
  {
    hide OrderOk, AccountsOk, Drain, Waiting;
    if id in s.holders {
      HolderGone(s, id);
      if s.holders[id].kind == Scan || s.held.references == 1 {
        FreedCore(s, id);
        DrainServes(s.(holders := s.holders - {id}, held := Held(None, None, 0)));
      }
    }
  }

  /** A holder keeps the permit until it is released, and not longer. */
  lemma {:induction false} HoldsUntilReleased(s: Lock, e: Event, id: nat)
    requires Inv(s) && id in s.holders
    ensures id in Step(s, e).holders <==> e != Release(id)
  {
    hide HoldersOk, OrderOk, AccountsOk, Drain, DoRelease, Waiting;
    match e
    case Acquire(kind, context, fired) =>
      if !Refuses(s, fired) {
        PushKeeps(s, kind, context);
        DrainServes(s.(next := s.next + 1, queue := s.queue + [Waiter(s.next, kind, context)]));
      }
    case Release(r) => ReleaseHolders(s, r, id);
    case _ =>
  }

  lemma {:induction false} ReleaseHolders(s: Lock, id: nat, k: nat)
    requires Inv(s) && k in s.holders
    ensures k in DoRelease(s, id).holders <==> k != id
  {
    hide OrderOk, AccountsOk, Drain, Waiting;
    if id in s.holders {
      HolderGone(s, id);
      if s.holders[id].kind == Scan || s.held.references == 1 {
        var t := s.(holders := s.holders - {id}, held := Held(None, None, 0));
        FreedCore(s, id);
        DrainServes(t);
        HeldNotQueued(s, k);
        OnlyOne(s, id, k);
      }
    }
  }

  lemma {:induction false} HeldNotQueued(s: Lock, k: nat)
    requires Core(s) && k in s.holders
    ensures forall w :: w in s.queue ==> w.id != k
  {
    assert k in s.granted;
  }

  lemma {:induction false} OnlyOne(s: Lock, id: nat, k: nat)
    requires s.holders - {id} == map[] && k in s.holders
    ensures k == id
  {
    var rest := s.holders - {id};
    assert k in rest <==> k != id;
  }

  /** Releasing one of several workers only gives its reference back. */
  lemma {:induction false} SharedRelease(s: Lock, id: nat)
    requires Inv(s) && id in s.holders && |s.holders| > 1
    ensures Step(s, Release(id)) == s.(holders := s.holders - {id}, held := s.held.(references := |s.holders| - 1))
  {
    hide OrderOk, AccountsOk, Drain, Waiting;
    HolderGone(s, id);
  }

  /** `i` is the first waiter that has not been aborted. */
  ghost predicate FirstLive(s: Lock, i: nat) {
    i < |s.queue| && s.queue[i].id !in s.aborted && forall j :: 0 <= j < i ==> s.queue[j].id in s.aborted
  }

  /** Releasing the last holder hands the permit to the first waiter that has not been aborted. */
  lemma {:induction false} LastRelease(s: Lock, id: nat, i: nat)
    requires Inv(s) && id in s.holders && |s.holders| == 1 && !s.closed && FirstLive(s, i)
    ensures var r := Step(s, Release(id)); s.queue[i].id in r.holders && r.holders[s.queue[i].id] == s.queue[i]
  {
    hide OrderOk, AccountsOk, Drain, Waiting;
    HolderGone(s, id);
    FreedCore(s, id);
    var t := s.(holders := s.holders - {id}, held := Held(None, None, 0));
    FreeDrain(t, i);
  }

  lemma {:induction false} FreeDrain(s: Lock, i: nat)
    requires Core(s) && s.held.kind.None? && !s.closed && FirstLive(s, i)
    ensures s.queue[i].id in Drain(s).holders && Drain(s).holders[s.queue[i].id] == s.queue[i]
    decreases |s.queue|
  {
    hide Core, Joins, Serves;
    if i > 0 {
      var t := s.(queue := s.queue[1..], rejected := s.rejected + {s.queue[0].id});
      DropKeeps(s);
      FreeDrain(t, i - 1);
    } else {
      var t := Grant(s.(queue := s.queue[1..]), s.queue[0]);
      GrantKeeps(s);
      DrainServes(t);
      KeepsHolder(t, Drain(t), s.queue[0].id);
    }
  }

  /** With nobody left to serve, the permit is free again. */
  lemma {:induction false} LastReleaseFrees(s: Lock, id: nat)
    requires Inv(s) && id in s.holders && |s.holders| == 1 && !s.closed
    requires forall w :: w in s.queue ==> w.id in s.aborted
    ensures var r := Step(s, Release(id)); r.held.kind.None? && r.holders == map[] && r.queue == []
  {
    hide OrderOk, AccountsOk, Drain, Waiting;
    HolderGone(s, id);
    AbortedDrain(s.(holders := s.holders - {id}, held := Held(None, None, 0)));
  }

  lemma {:induction false} AbortedDrain(s: Lock)
    requires s.held.kind.None? && !s.closed && forall w :: w in s.queue ==> w.id in s.aborted
    ensures Drain(s).held == s.held && Drain(s).holders == s.holders && Drain(s).queue == []
    decreases |s.queue|
  {
    if s.queue != [] {
      assert s.queue[0] in s.queue;
      AbortedDrain(s.(queue := s.queue[1..], rejected := s.rejected + {s.queue[0].id}));
    }
  }

  lemma {:induction false} KeepsHolder(s: Lock, t: Lock, id: nat)
    requires Serves(s, t) && id in s.holders
    ensures id in t.holders && t.holders[id] == s.holders[id]
  {
  }

  /** The request would be served on arrival: nobody waits, and the permit is free or held by workers of its context. */
  predicate Servable(s: Lock, kind: Kind, context: Option<Context>) {
    && s.queue == []
    && (s.held.kind.None?
        || (s.held.kind == Some(Worker) && kind == Worker && context.Some? && s.held.context == context))
  }

  /** A request that is not refused is granted at once exactly if it is servable, and joins the end of the queue otherwise. */
  lemma {:induction false} AcquireDone(s: Lock, kind: Kind, context: Option<Context>, fired: bool)
    requires Inv(s) && Settled(s) && !Refuses(s, fired) && s.next !in s.aborted
    ensures var r, w := Step(s, Acquire(kind, context, fired)), Waiter(s.next, kind, context);
            && r.next == s.next + 1
            && (Servable(s, kind, context) ==>
                  r.queue == [] && r.holders == s.holders[w.id := w] && r.granted == s.granted + [w.id])
            && (!Servable(s, kind, context) ==>
                  r.queue == s.queue + [w] && r.holders == s.holders && r.held == s.held && r.granted == s.granted)
  {
    hide HoldersOk, OrderOk, AccountsOk, Waiting;
    var w := Waiter(s.next, kind, context);
    var t := s.(next := s.next + 1, queue := s.queue + [w]);
    if Servable(s, kind, context) {
      assert t.queue == [w] && t.queue[1..] == [];
      assert !ScanQueued(t.queue) || s.held.kind.None?;
      var g := Grant(t.(queue := t.queue[1..]), w);
      assert Drain(t) == Drain(g);
    } else if s.queue != [] {
      assert t.queue[0] == s.queue[0];
      if Joins(t) { ScansStay(s.queue, t.queue); }
    }
  }

  lemma {:induction false} ScansStay(q: seq<Waiter>, p: seq<Waiter>)
    requires q <= p && !ScanQueued(p)
    ensures !ScanQueued(q)
  {
    assert forall i :: 0 <= i < |q| ==> p[i] == q[i];
  }

  /** Closing rejects whoever waits, takes nothing from the holders, and every later request is refused. */
  lemma {:induction false} CloseDone(s: Lock, kind: Kind, context: Option<Context>, fired: bool)
    requires !s.closed
    ensures var r := Step(s, Close);
            && r.closed && r.queue == [] && r.holders == s.holders && r.held == s.held
            && (forall w :: w in s.queue ==> w.id in r.rejected)
            && Step(r, Acquire(kind, context, fired)) == r.(next := r.next + 1, rejected := r.rejected + {r.next})
  {
  }

  /** Withdrawing removes the aborted waiter and nothing else. */
  lemma {:induction false} DequeueDone(s: Lock, id: nat)
    requires Inv(s) && id in s.aborted && Queued(s.queue, id)
    ensures var r := Step(s, Dequeue(id));
            && r == s.(queue := r.queue, rejected := s.rejected + {id})
            && (forall w :: w in r.queue <==> w in s.queue && w.id != id)
            && forall i, j :: 0 <= i < j < |r.queue| ==> r.queue[i].id < r.queue[j].id
  {
    hide HoldersOk, AccountsOk, Without;
    WithoutIs(s.queue, id);
  }
}
