/**
 The hydration permit: one exclusive scan, or workers that share one
 provider/token route, granted strictly in queue order.
 */
module PermitLock {
  import opened Prelude

  datatype Kind = Worker | Scan

  datatype Context = Context(provider: string, token: string)

  datatype Waiter = Waiter(id: nat, kind: Kind, context: Option<Context>)

  const MAX_PERMIT_WAITERS: nat := 1024

  /** The provider route the block cache is bound to, and its epoch. */
  datatype Route = Route(active: Option<Context>, epoch: nat)

  /** `held` is what the fields hold; `holders`, `granted`, `rejected` and `next` record the requests for the theorems. */
  datatype Held = Held(kind: Option<Kind>, context: Option<Context>, references: nat)

  datatype Lock = Lock(queue: seq<Waiter>, held: Held, route: Route, closed: bool, aborted: set<nat>,
                       holders: map<nat, Waiter>, granted: seq<nat>, rejected: set<nat>, next: nat)

  datatype Event =
    /** `fired`: the caller's signal has fired already. */
    | Acquire(kind: Kind, context: Option<Context>, fired: bool)
    | Release(id: nat)
    | Signal(ids: set<nat>)
    | Dequeue(id: nat)
    | Close
    /** A scan that holds the permit binds its own route. */
    | BindScan(route: Context)
    /** A worker that holds it binds the route it asked with, or any if it asked with none. */
    | BindWorker(id: nat, route: Context)
    /** The selection moved on, or a scan was aborted: the cache is bound to no route. */
    | Unroute
    /** Worker sharing of a scan was revoked: the route stays, the cache does not. */
    | Invalidate

  function AdvanceEpoch(epoch: nat): nat {
    if epoch == MAX_SAFE then 0 else epoch + 1
  }

  function Bind(r: Route, c: Context): Route {
    if r.active == Some(c) then r else Route(Some(c), AdvanceEpoch(r.epoch))
  }

  predicate ScanQueued(q: seq<Waiter>) {
    exists i :: 0 <= i < |q| && q[i].kind == Scan
  }

  /** The first waiter may join the route in use: the same context, and no scan waiting anywhere. */
  predicate Joins(s: Lock) {
    && s.held.kind == Some(Worker) && s.held.context.Some? && !ScanQueued(s.queue)
    && s.queue != [] && s.queue[0].kind == Worker && s.queue[0].context == s.held.context
  }

  function Grant(s: Lock, w: Waiter): Lock {
    var first := w.kind == Worker && s.held.references == 0;
    s.(held := Held(Some(w.kind), if first then w.context else s.held.context,
                    if w.kind == Worker then s.held.references + 1 else s.held.references),
       route := if first && w.context.Some? then Bind(s.route, w.context.value) else s.route,
       holders := s.holders[w.id := w], granted := s.granted + [w.id])
  }

  function Drain(s: Lock): Lock
    decreases |s.queue|
  {
    if s.closed || s.queue == [] || (s.held.kind.Some? && !Joins(s)) then s
    else
      var w, rest := s.queue[0], s.(queue := s.queue[1..]);
      if w.id in s.aborted then Drain(rest.(rejected := s.rejected + {w.id})) else Drain(Grant(rest, w))
  }

  function Waiting(s: Lock): nat {
    |s.queue| + if s.held.references == 0 then 0 else s.held.references - 1
  }

  predicate Refuses(s: Lock, fired: bool) {
    s.closed || fired || Waiting(s) >= MAX_PERMIT_WAITERS
  }

  /** A request is refused when closed, aborted or when the envelope is full; otherwise it queues and the lock drains. */
  function DoAcquire(s: Lock, kind: Kind, context: Option<Context>, fired: bool): Lock {
    var s1 := s.(next := s.next + 1);
    if Refuses(s, fired) then s1.(rejected := s.rejected + {s.next})
    else Drain(s1.(queue := s.queue + [Waiter(s.next, kind, context)]))
  }

  function Freed(s: Lock): Lock {
    Drain(s.(held := Held(None, None, s.held.references)))
  }

  function DoRelease(s: Lock, id: nat): Lock {
    if id !in s.holders then s
    else
      var s1 := s.(holders := s.holders - {id});
      if s.holders[id].kind == Scan then Freed(s1)
      else if s.held.references == 0 then s1
      else
        var s2 := s1.(held := s.held.(references := s.held.references - 1));
        if s2.held.references == 0 then Freed(s2) else s2
  }

  function Without(q: seq<Waiter>, id: nat): seq<Waiter> {
    if q == [] then [] else if q[0].id == id then q[1..] else [q[0]] + Without(q[1..], id)
  }

  predicate Queued(q: seq<Waiter>, id: nat) {
    exists i :: 0 <= i < |q| && q[i].id == id
  }

  /** The abort listener of a waiter: it leaves the queue; nothing is drained. */
  function DoDequeue(s: Lock, id: nat): Lock {
    if id !in s.aborted || !Queued(s.queue, id) then s
    else s.(queue := Without(s.queue, id), rejected := s.rejected + {id})
  }

  function Ids(q: seq<Waiter>): set<nat> {
    set w <- q :: w.id
  }

  function DoClose(s: Lock): Lock {
    if s.closed then s else s.(closed := true, queue := [], rejected := s.rejected + Ids(s.queue))
  }

  function Step(s: Lock, e: Event): Lock {
    match e
    case Acquire(kind, context, fired) => DoAcquire(s, kind, context, fired)
    case Release(id) => DoRelease(s, id)
    case Signal(ids) => s.(aborted := s.aborted + ids)
    case Dequeue(id) => DoDequeue(s, id)
    case Close => DoClose(s)
    case BindScan(c) => if s.held.kind == Some(Scan) then s.(route := Bind(s.route, c)) else s
    case BindWorker(id, c) =>
      if id in s.holders && s.holders[id].kind == Worker && (s.holders[id].context.None? || s.holders[id].context == Some(c))
      then s.(route := Bind(s.route, c)) else s
    case Unroute => s.(route := Route(None, AdvanceEpoch(s.route.epoch)))
    case Invalidate => s.(route := s.route.(epoch := AdvanceEpoch(s.route.epoch)))
  }

  function Run(s: Lock, events: seq<Event>): Lock
    decreases |events|
  {
    if events == [] then s else Run(Step(s, events[0]), events[1..])
  }

  const INITIAL: Lock := Lock([], Held(None, None, 0), Route(None, 0), false, {}, map[], [], {}, 0)

  // ----------------------------------------------------------- invariant

  /** A scan holds alone; workers together hold one context. */
  ghost predicate HoldersOk(s: Lock) {
    && (forall id :: id in s.holders ==> s.holders[id].id == id)
    && (s.held.kind.None? ==> s.holders == map[] && s.held.references == 0 && s.held.context.None?)
    && (s.held.kind == Some(Scan) ==>
          s.held.references == 0 && s.held.context.None? && |s.holders| == 1
          && forall id :: id in s.holders ==> s.holders[id].kind == Scan)
    && (s.held.kind == Some(Worker) ==>
          && s.held.references == |s.holders| > 0
          && (forall id :: id in s.holders ==> s.holders[id].kind == Worker && s.holders[id].context == s.held.context)
          && (|s.holders| > 1 ==> s.held.context.Some?))
  }

  predicate Increasing(xs: seq<nat>) {
    forall i, j :: 0 <= i < j < |xs| ==> xs[i] < xs[j]
  }

  /** Everything granted was asked for before everything still queued, in order. */
  predicate OrderOk(s: Lock) {
    && Increasing(s.granted)
    && (forall i, j :: 0 <= i < j < |s.queue| ==> s.queue[i].id < s.queue[j].id)
    && (forall i, j :: 0 <= i < |s.granted| && 0 <= j < |s.queue| ==> s.granted[i] < s.queue[j].id)
    && (forall i :: 0 <= i < |s.granted| ==> s.granted[i] < s.next)
    && forall j :: 0 <= j < |s.queue| ==> s.queue[j].id < s.next
  }

  /** Each request is queued, granted or rejected, and only one of them. */
  ghost predicate AccountsOk(s: Lock) {
    && (forall id: nat :: id < s.next <==> Queued(s.queue, id) || id in s.granted || id in s.rejected)
    && (forall id: nat :: id in s.rejected ==> !Queued(s.queue, id) && id !in s.granted)
    && forall id: nat :: id in s.holders ==> id in s.granted
  }

  /** An open lock is never free with a waiter. */
  predicate Busy(s: Lock) {
    !s.closed && s.held.kind.None? ==> s.queue == []
  }

  predicate Bounded(s: Lock) {
    Waiting(s) <= MAX_PERMIT_WAITERS && (s.closed ==> s.queue == [])
  }

  ghost predicate Core(s: Lock) {
    HoldersOk(s) && OrderOk(s) && AccountsOk(s) && Bounded(s)
  }

  ghost predicate Inv(s: Lock) {
    Core(s) && Busy(s)
  }

  // ------------------------------------------------------------- draining

  lemma {:induction false} HoldersAdd(s: Lock, w: Waiter)
    requires HoldersOk(s) && w.id !in s.holders
    requires s.held.kind.None? || (s.held.kind == Some(Worker) && w.kind == Worker && s.held.context.Some? && w.context == s.held.context)
    ensures HoldersOk(Grant(s, w))
  {
    var t := Grant(s, w);
    assert t.holders.Keys == s.holders.Keys + {w.id};
    assert |t.holders| == |s.holders| + 1;
  }

  lemma {:induction false} PopAccounts(s: Lock, t: Lock, w: Waiter)
    requires AccountsOk(s) && OrderOk(s) && s.queue != [] && w == s.queue[0] && t.queue == s.queue[1..]
    requires t.next == s.next
    requires (t.granted == s.granted + [w.id] && t.rejected == s.rejected && t.holders == s.holders[w.id := w])
             || (t.granted == s.granted && t.rejected == s.rejected + {w.id} && t.holders == s.holders)
    ensures AccountsOk(t)
  {
    QueuedHead(s.queue);
    assert s.queue[0].id == w.id && Queued(s.queue, w.id);
    assert w.id !in s.granted;
    assert !Queued(t.queue, w.id);
  }

  lemma {:induction false} QueuedHead(q: seq<Waiter>)
    requires q != []
    ensures forall id: nat :: Queued(q, id) <==> id == q[0].id || Queued(q[1..], id)
  {
    forall id: nat ensures Queued(q, id) <==> id == q[0].id || Queued(q[1..], id) {
      if Queued(q, id) && id != q[0].id {
        var i :| 0 <= i < |q| && q[i].id == id;
        assert q[1..][i - 1].id == id;
      }
      if Queued(q[1..], id) {
        var i :| 0 <= i < |q[1..]| && q[1..][i].id == id;
        assert q[i + 1].id == id;
      }
    }
  }

  lemma {:induction false} PopOrder(s: Lock, t: Lock)
    requires OrderOk(s) && s.queue != [] && t.queue == s.queue[1..] && t.next == s.next
    requires t.granted == s.granted || t.granted == s.granted + [s.queue[0].id]
    ensures OrderOk(t)
  {
  }

  /** The request at the head is new to the holders. */
  lemma {:induction false} HeadIsNew(s: Lock)
    requires AccountsOk(s) && OrderOk(s) && s.queue != []
    ensures s.queue[0].id !in s.holders && s.queue[0].id !in s.granted
  {
  }

  lemma {:induction false} GrantKeeps(s: Lock)
    requires Core(s) && s.queue != [] && !s.closed && (s.held.kind.None? || Joins(s))
    ensures Core(Grant(s.(queue := s.queue[1..]), s.queue[0]))
  {
    hide HoldersOk, OrderOk, AccountsOk, Bind, Increasing;
    var w, rest := s.queue[0], s.(queue := s.queue[1..]);
    HeadIsNew(s);
    SameHolders(s, rest);
    HoldersAdd(rest, w);
    PopOrder(s, Grant(rest, w));
    PopAccounts(s, Grant(rest, w), w);
    FreeHasNone(s);
  }

  lemma {:induction false} SameHolders(s: Lock, t: Lock)
    requires HoldersOk(s) && t.holders == s.holders && t.held == s.held
    ensures HoldersOk(t)
  {
  }

  lemma {:induction false} FreeHasNone(s: Lock)
    requires HoldersOk(s)
    ensures s.held.kind.None? ==> s.held.references == 0
    ensures s.held.kind == Some(Worker) ==> s.held.references > 0
  {
  }

  lemma {:induction false} DropKeeps(s: Lock)
    requires Core(s) && s.queue != []
    ensures Core(s.(queue := s.queue[1..], rejected := s.rejected + {s.queue[0].id}))
  {
    hide HoldersOk, OrderOk, AccountsOk;
    var t := s.(queue := s.queue[1..], rejected := s.rejected + {s.queue[0].id});
    SameHolders(s, t);
    PopOrder(s, t);
    PopAccounts(s, t, s.queue[0]);
  }

  /** Draining settles the lock: what is left waiting has to wait. */
  lemma {:induction false} DrainKeeps(s: Lock)
    requires Core(s)
    ensures Inv(Drain(s))
    decreases |s.queue|
  {
    hide Core, Joins;
    if s.closed || s.queue == [] || (s.held.kind.Some? && !Joins(s)) {
    } else if s.queue[0].id in s.aborted {
      DropKeeps(s);
      DrainKeeps(s.(queue := s.queue[1..], rejected := s.rejected + {s.queue[0].id}));
    } else {
      GrantKeeps(s);
      DrainKeeps(Grant(s.(queue := s.queue[1..]), s.queue[0]));
    }
  }

  // ---------------------------------------------------------------- steps

  lemma {:induction false} PushKeeps(s: Lock, kind: Kind, context: Option<Context>)
    requires Core(s) && !s.closed && Waiting(s) < MAX_PERMIT_WAITERS
    ensures Core(s.(next := s.next + 1, queue := s.queue + [Waiter(s.next, kind, context)]))
  {
    hide HoldersOk;
    var t := s.(next := s.next + 1, queue := s.queue + [Waiter(s.next, kind, context)]);
    SameHolders(s, t);
    forall id: nat ensures Queued(t.queue, id) <==> Queued(s.queue, id) || id == s.next {
      if Queued(s.queue, id) { var i :| 0 <= i < |s.queue| && s.queue[i].id == id; assert t.queue[i].id == id; }
      assert t.queue[|s.queue|].id == s.next;
    }
  }

  lemma {:induction false} RefuseKeeps(s: Lock)
    requires Inv(s)
    ensures Inv(s.(next := s.next + 1, rejected := s.rejected + {s.next}))
  {
    hide HoldersOk;
    SameHolders(s, s.(next := s.next + 1, rejected := s.rejected + {s.next}));
  }

  lemma {:induction false} KindOfHolder(s: Lock, id: nat)
    requires HoldersOk(s) && id in s.holders
    ensures s.held.kind == Some(s.holders[id].kind)
  {
    if s.held.kind.Some? {
      match s.held.kind.value
      case Worker =>
      case Scan =>
    }
  }

  lemma {:induction false} HolderGone(s: Lock, id: nat)
    requires HoldersOk(s) && id in s.holders
    ensures |s.holders - {id}| == |s.holders| - 1
    ensures s.held.kind == Some(s.holders[id].kind)
    ensures s.holders[id].kind == Scan ==> s.holders - {id} == map[]
    ensures s.held.references == 1 && s.holders[id].kind == Worker ==> s.holders - {id} == map[]
  {
    KindOfHolder(s, id);
    var rest := s.holders - {id};
    assert rest.Keys == s.holders.Keys - {id};
    assert |rest.Keys| == |s.holders.Keys| - 1;
    assert |rest| == 0 ==> rest == map[];
  }

  lemma {:induction false} FreeKeeps(s: Lock, id: nat)
    requires Core(s) && id in s.holders && (s.holders[id].kind == Scan || s.held.references == 1)
    ensures Inv(Freed(s.(holders := s.holders - {id}, held := s.held.(references := 0))))
  {
    hide OrderOk, Drain;
    HolderGone(s, id);
    var t := s.(holders := s.holders - {id}, held := Held(None, None, 0));
    assert OrderOk(t) by { OrderSame(s, t); }
    DrainKeeps(t);
  }

  lemma {:induction false} OrderSame(s: Lock, t: Lock)
    requires OrderOk(s) && t.queue == s.queue && t.granted == s.granted && t.next == s.next
    ensures OrderOk(t)
  {
  }

  lemma {:induction false} ReleaseKeeps(s: Lock, id: nat)
    requires Inv(s)
    ensures Inv(DoRelease(s, id))
  {
    hide OrderOk, Freed;
    if id in s.holders {
      HolderGone(s, id);
      if s.holders[id].kind == Scan || s.held.references == 1 {
        FreeKeeps(s, id);
      } else {
        var t := s.(holders := s.holders - {id}, held := s.held.(references := s.held.references - 1));
        assert OrderOk(t) by { OrderSame(s, t); }
      }
    }
  }

  lemma {:induction false} WithoutIs(q: seq<Waiter>, id: nat)
    requires forall i, j :: 0 <= i < j < |q| ==> q[i].id < q[j].id
    ensures |Without(q, id)| <= |q|
    ensures forall i, j :: 0 <= i < j < |Without(q, id)| ==> Without(q, id)[i].id < Without(q, id)[j].id
    ensures forall w :: w in Without(q, id) <==> w in q && w.id != id
    decreases |q|
  {
    if q != [] {
      assert q == [q[0]] + q[1..];
      if q[0].id != id {
        WithoutIs(q[1..], id);
        var r := Without(q[1..], id);
        forall j | 0 <= j < |r| ensures q[0].id < r[j].id { assert r[j] in q[1..]; }
      } else {
        forall w | w in q[1..] ensures w.id != id {}
      }
    }
  }

  lemma {:induction false} WithoutQueued(q: seq<Waiter>, id: nat)
    requires forall i, j :: 0 <= i < j < |q| ==> q[i].id < q[j].id
    ensures forall k: nat :: Queued(Without(q, id), k) <==> Queued(q, k) && k != id
  {
    hide Without;
    WithoutIs(q, id);
    var r := Without(q, id);
    forall k: nat ensures Queued(r, k) <==> Queued(q, k) && k != id {
      if Queued(q, k) && k != id {
        var i :| 0 <= i < |q| && q[i].id == k;
        assert q[i] in r;
      }
      if Queued(r, k) {
        var i :| 0 <= i < |r| && r[i].id == k;
        assert r[i] in r;
      }
    }
  }

  lemma {:induction false} DequeueOrder(s: Lock, id: nat)
    requires OrderOk(s)
    ensures OrderOk(s.(queue := Without(s.queue, id)))
  {
    hide Without;
    WithoutIs(s.queue, id);
    var r := Without(s.queue, id);
    forall j | 0 <= j < |r| ensures r[j].id < s.next && forall i :: 0 <= i < |s.granted| ==> s.granted[i] < r[j].id {
      assert r[j] in r;
    }
  }

  lemma {:induction false} DequeueKeeps(s: Lock, id: nat)
    requires Inv(s) && Queued(s.queue, id)
    ensures Inv(s.(queue := Without(s.queue, id), rejected := s.rejected + {id}))
  {
    hide HoldersOk, Without, Queued;
    var t := s.(queue := Without(s.queue, id), rejected := s.rejected + {id});
    SameHolders(s, t);
    WithoutIs(s.queue, id);
    WithoutQueued(s.queue, id);
    DequeueOrder(s, id);
    QueuedNotGranted(s, id);
  }

  lemma {:induction false} QueuedNotGranted(s: Lock, id: nat)
    requires OrderOk(s) && Queued(s.queue, id)
    ensures id !in s.granted
  {
  }

  lemma {:induction false} CloseKeeps(s: Lock)
    requires Inv(s)
    ensures Inv(DoClose(s))
  {
    hide HoldersOk;
    if !s.closed {
      var t := DoClose(s);
      SameHolders(s, t);
      forall id: nat ensures id in Ids(s.queue) <==> Queued(s.queue, id) {
        if id in Ids(s.queue) { var w :| w in s.queue && w.id == id; }
        if Queued(s.queue, id) { var i :| 0 <= i < |s.queue| && s.queue[i].id == id; assert s.queue[i] in s.queue; }
      }
    }
  }

  lemma {:induction false} StepKeeps(s: Lock, e: Event)
    requires Inv(s)
    ensures Inv(Step(s, e))
  {
    hide HoldersOk, OrderOk, AccountsOk, Drain, DoRelease, DoClose, Bind;
    match e
    case Acquire(kind, context, fired) =>
      if Refuses(s, fired) {
        RefuseKeeps(s);
      } else {
        PushKeeps(s, kind, context);
        DrainKeeps(s.(next := s.next + 1, queue := s.queue + [Waiter(s.next, kind, context)]));
      }
    case Release(id) => ReleaseKeeps(s, id);
    case Signal(ids) => SignalKeeps(s, ids);
    case Dequeue(id) => if Queued(s.queue, id) { DequeueKeeps(s, id); }
    case Close => CloseKeeps(s);
    case BindScan(_) => RouteKeeps(s, Step(s, e).route);
    case BindWorker(_, _) => RouteKeeps(s, Step(s, e).route);
    case Unroute => RouteKeeps(s, Step(s, e).route);
    case Invalidate => RouteKeeps(s, Step(s, e).route);
  }

  lemma {:induction false} RouteKeeps(s: Lock, r: Route)
    requires Inv(s)
    ensures Inv(s.(route := r))
  {
  }

  lemma {:induction false} SignalKeeps(s: Lock, ids: set<nat>)
    requires Inv(s)
    ensures Inv(s.(aborted := s.aborted + ids))
  {
  }

  lemma {:induction false} RunKeeps(s: Lock, events: seq<Event>)
    requires Inv(s)
    ensures Inv(Run(s, events))
    decreases |events|
  {
    hide Inv, Step;
    if events != [] {
      StepKeeps(s, events[0]);
      RunKeeps(Step(s, events[0]), events[1..]);
    }
  }

  lemma {:induction false} InitialOk()
    ensures Inv(INITIAL)
  {
  }

  // ------------------------------------------------------------ theorems

  /** In every reachable state a scan holds the permit alone, and workers that hold it together share one context. */
  lemma {:induction false} ScansExclusive(events: seq<Event>, a: nat, b: nat)
    requires a != b && a in Run(INITIAL, events).holders && b in Run(INITIAL, events).holders
    ensures var h := Run(INITIAL, events).holders;
            h[a].kind == Worker && h[b].kind == Worker && h[a].context.Some? && h[a].context == h[b].context
  {
    hide Run, HoldersOk;
    InitialOk();
    RunKeeps(INITIAL, events);
    SharedByWorkers(Run(INITIAL, events), a, b);
  }

  lemma {:induction false} SharedByWorkers(s: Lock, a: nat, b: nat)
    requires HoldersOk(s) && a != b && a in s.holders && b in s.holders
    ensures s.holders[a].kind == Worker && s.holders[b].kind == Worker
    ensures s.holders[a].context.Some? && s.holders[a].context == s.holders[b].context
  {
    TwoHolders(s.holders, a, b);
    KindOfHolder(s, a);
    KindOfHolder(s, b);
  }

  lemma {:induction false} TwoHolders(h: map<nat, Waiter>, a: nat, b: nat)
    requires a != b && a in h && b in h
    ensures |h| > 1
  {
    var rest := h.Keys - {a};
    assert b in rest;
    assert |rest| > 0;
  }

  /** Grants follow the order of the requests: nothing queued was asked for before anything granted. */
  lemma {:induction false} GrantsInOrder(events: seq<Event>)
    ensures var s := Run(INITIAL, events);
            && Increasing(s.granted)
            && forall i, j :: 0 <= i < |s.granted| && 0 <= j < |s.queue| ==> s.granted[i] < s.queue[j].id
  {
    hide Run;
    InitialOk();
    RunKeeps(INITIAL, events);
  }

  /** The envelope is bounded, and an open permit is never free while someone waits. */
  lemma {:induction false} NeverFreeWithWaiter(events: seq<Event>)
    ensures var s := Run(INITIAL, events);
            && |s.queue| + Max(0, s.held.references - 1) <= MAX_PERMIT_WAITERS
            && (!s.closed && s.held.kind.None? ==> s.queue == [])
  {
    hide Run, HoldersOk, OrderOk, AccountsOk;
    InitialOk();
    RunKeeps(INITIAL, events);
  }

  /** Every request is queued, granted or rejected, never two of these. */
  lemma {:induction false} RequestsAccounted(events: seq<Event>, id: nat)
    requires id < Run(INITIAL, events).next
    ensures var s := Run(INITIAL, events);
            && (Queued(s.queue, id) || id in s.granted || id in s.rejected)
            && !(Queued(s.queue, id) && id in s.granted) && !(Queued(s.queue, id) && id in s.rejected)
            && !(id in s.granted && id in s.rejected)
  {
    hide Run, HoldersOk;
    InitialOk();
    RunKeeps(INITIAL, events);
  }

  // -------------------------------------------------- who is left waiting

  /** No waiter could be served: the permit is taken and the first in line cannot share it. */
  predicate Settled(s: Lock) {
    !s.closed && s.queue != [] ==> s.held.kind.Some? && !Joins(s)
  }

  lemma {:induction false} DrainSettles(s: Lock)
    ensures Settled(Drain(s))
    decreases |s.queue|
  {
    hide Joins, Grant;
    if s.closed || s.queue == [] || (s.held.kind.Some? && !Joins(s)) {
    } else if s.queue[0].id in s.aborted {
      DrainSettles(s.(queue := s.queue[1..], rejected := s.rejected + {s.queue[0].id}));
    } else {
      GrantQueue(s.(queue := s.queue[1..]), s.queue[0]);
      DrainSettles(Grant(s.(queue := s.queue[1..]), s.queue[0]));
    }
  }

  lemma {:induction false} GrantQueue(s: Lock, w: Waiter)
    ensures Grant(s, w).queue == s.queue
  {
  }

  /** Whatever happens, short of a withdrawal, leaves no servable waiter behind. */
  lemma {:induction false} OthersSettle(s: Lock, e: Event)
    requires Settled(s) && !e.Dequeue?
    ensures Settled(Step(s, e))
  {
    hide Drain;
    match e
    case Acquire(kind, context, fired) =>
      if !Refuses(s, fired) {
        DrainSettles(s.(next := s.next + 1, queue := s.queue + [Waiter(s.next, kind, context)]));
      }
    case Release(id) => ReleaseSettles(s, id);
    case _ =>
  }

  lemma {:induction false} ReleaseSettles(s: Lock, id: nat)
    requires Settled(s)
    ensures Settled(DoRelease(s, id))
  {
    hide Drain;
    if id in s.holders {
      var s1 := s.(holders := s.holders - {id});
      DrainSettles(s1.(held := Held(None, None, s.held.references)));
      if s.held.references > 0 {
        DrainSettles(s1.(held := Held(None, None, s.held.references - 1)));
      }
    }
  }

  /** The first waiter once `id` has left is a worker that could share the permit, and no scan waits. */
  predicate Strands(s: Lock, id: nat) {
    var rest := Without(s.queue, id);
    && !s.closed && id in s.aborted && Queued(s.queue, id)
    && s.held.kind == Some(Worker) && s.held.context.Some?
    && rest != [] && !ScanQueued(rest) && rest[0].kind == Worker && rest[0].context == s.held.context
  }

  /** A withdrawal leaves a servable waiter waiting in exactly one case, which its caller can see beforehand. */
  lemma {:induction false} WithdrawalStrandsIff(s: Lock, id: nat)
    requires Inv(s) && Settled(s)
    ensures !Settled(Step(s, Dequeue(id))) <==> Strands(s, id)
  {
    hide HoldersOk, OrderOk, AccountsOk, Without, Queued, ScanQueued;
    if Queued(s.queue, id) {
      assert s.queue != [] by { QueuedSome(s.queue, id); }
    }
  }

  lemma {:induction false} QueuedSome(q: seq<Waiter>, id: nat)
    requires Queued(q, id)
    ensures q != []
  {
  }

  /** What was withdrawn then is the only scan waiting, or a worker of another route at the head. */
  lemma {:induction false} StrandedBy(s: Lock, id: nat)
    requires Inv(s) && Settled(s) && Strands(s, id)
    ensures exists i :: 0 <= i < |s.queue| && s.queue[i].id == id && (s.queue[i].kind == Scan || i == 0)
  {
    hide HoldersOk, AccountsOk;
    var i :| 0 <= i < |s.queue| && s.queue[i].id == id;
    WithoutIs(s.queue, id);
    var rest := Without(s.queue, id);
    assert i != 0 ==> rest[0] == s.queue[0];
    forall j | 0 <= j < |s.queue| && j != i ensures s.queue[j].kind != Scan {
      assert s.queue[j] in rest;
    }
  }

  /** Over whole runs: a servable waiter is left waiting only after some withdrawal that strands it. */
  lemma {:induction false} SettledUnlessStranded(s: Lock, events: seq<Event>)
    requires Inv(s) && Settled(s) && !SomeStrands(s, events)
    ensures Settled(Run(s, events))
    decreases |events|
  {
    hide Inv, Settled, Strands, Step;
    if events != [] {
      StepKeeps(s, events[0]);
      if events[0].Dequeue? {
        WithdrawalStrandsIff(s, events[0].id);
      } else {
        OthersSettle(s, events[0]);
      }
      SettledUnlessStranded(Step(s, events[0]), events[1..]);
    }
  }

  predicate SomeStrands(s: Lock, events: seq<Event>)
    decreases |events|
  {
    events != [] && ((events[0].Dequeue? && Strands(s, events[0].id)) || SomeStrands(Step(s, events[0]), events[1..]))
  }

  /** A worker holds, one of `kind` and `context` waits, then a worker of the held context; the first of them withdraws. */
  function StrandingRun(c: Context, kind: Kind, context: Option<Context>): seq<Event> {
    [Acquire(Worker, Some(c), false), Acquire(kind, context, false), Acquire(Worker, Some(c), false),
     Signal({1}), Dequeue(1)]
  }

  /** From the start: withdrawing a scan, or a worker of another route, leaves a worker waiting that could share. */
  lemma {:induction false} WithdrawalCanStrand(c: Context, kind: Kind, context: Option<Context>)
    requires kind == Scan || context != Some(c)
    ensures var s := Run(INITIAL, StrandingRun(c, kind, context));
            s.queue == [Waiter(2, Worker, Some(c))] && s.held == Held(Some(Worker), Some(c), 1) && Joins(s) && !Settled(s)
  {
    hide Run, Step, Joins, Settled;
    var a, x, b := Waiter(0, Worker, Some(c)), Waiter(1, kind, context), Waiter(2, Worker, Some(c));
    var s1 := Lock([], Held(Some(Worker), Some(c), 1), Route(Some(c), 1), false, {}, map[0 := a], [0], {}, 1);
    var s2 := s1.(queue := [x], next := 2);
    var s3 := s2.(queue := [x, b], next := 3);
    FirstGranted(c);
    Blocked(s1, x);
    assert [] + [x] == [x];
    Blocked(s2, b);
    assert [x] + [b] == [x, b];
    var s4 := s3.(aborted := {1});
    Fires(s3, 1);
    Withdraws(s4, x, b);
    RunFive(INITIAL, StrandingRun(c, kind, context));
  }

  /** Behind a scan, or a worker of another route, nobody gets in. */
  lemma {:induction false} Blocked(s: Lock, w: Waiter)
    requires !s.closed && s.held.kind == Some(Worker) && Waiting(s) < MAX_PERMIT_WAITERS && w.id == s.next
    requires var first := (s.queue + [w])[0]; first.kind == Scan || first.context != s.held.context
    ensures Step(s, Acquire(w.kind, w.context, false)) == s.(queue := s.queue + [w], next := s.next + 1)
  {
  }

  lemma {:induction false} Fires(s: Lock, id: nat)
    requires s.aborted == {}
    ensures Step(s, Signal({id})) == s.(aborted := {id})
  {
  }

  lemma {:induction false} Withdraws(s: Lock, x: Waiter, b: Waiter)
    requires s.queue == [x, b] && s.aborted == {x.id} && s.rejected == {} && !s.closed
    requires s.held.kind == Some(Worker) && s.held.context.Some? && b.kind == Worker && b.context == s.held.context
    ensures var t := s.(queue := [b], rejected := {x.id}); Step(s, Dequeue(x.id)) == t && Joins(t) && !Settled(t)
  {
    assert s.queue[0].id == x.id && s.queue[1..] == [b];
  }

  lemma {:induction false} FirstGranted(c: Context)
    ensures Step(INITIAL, Acquire(Worker, Some(c), false))
         == Lock([], Held(Some(Worker), Some(c), 1), Route(Some(c), 1), false, {}, map[0 := Waiter(0, Worker, Some(c))], [0], {}, 1)
  {
    var a := Waiter(0, Worker, Some(c));
    var s := INITIAL.(next := 1, queue := [a]);
    assert [] + [a] == [a] && s.queue[1..] == [];
    var g := Grant(s.(queue := []), a);
    assert Drain(g) == g;
    assert Drain(s) == g;
  }

  lemma {:induction false} RunFive(s: Lock, es: seq<Event>)
    requires |es| == 5
    ensures Run(s, es) == Step(Step(Step(Step(Step(s, es[0]), es[1]), es[2]), es[3]), es[4])
  {
    hide Step;
    var s1 := Step(s, es[0]);
    var s2 := Step(s1, es[1]);
    var s3 := Step(s2, es[2]);
    assert Run(s, es) == Run(s1, es[1..]) == Run(s2, es[1..][1..]);
    assert es[1..][1..] == es[2..];
    assert Run(s2, es[2..]) == Run(s3, es[2..][1..]);
    assert es[2..][1..] == es[3..];
    assert Run(s3, es[3..]) == Run(Step(s3, es[3]), es[3..][1..]);
    assert es[3..][1..] == es[4..];
    assert es[4..][1..] == [];
  }
}
