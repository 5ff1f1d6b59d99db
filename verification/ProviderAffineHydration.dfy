/** The permit as an object: its methods change the fields the source changes. */
module ProviderAffineHydration {
  import opened Prelude
  import P = PermitLock

  class Permit {
    var queue: seq<P.Waiter>
    var permitKind: Option<P.Kind>
    var workerRouteContext: Option<P.Context>
    var workerRouteReferences: nat
    var active: Option<P.Context>
    var epoch: nat
    var closed: bool
    /** Requests whose signal has fired. */
    var aborted: set<nat>
    var next: nat
    ghost var holders: map<nat, P.Waiter>
    ghost var granted: seq<nat>
    ghost var rejected: set<nat>

    ghost function Model(): P.Lock
      reads this
    {
      P.Lock(queue, P.Held(permitKind, workerRouteContext, workerRouteReferences), P.Route(active, epoch), closed, aborted,
             holders, granted, rejected, next)
    }

    constructor ()
      ensures Model() == P.INITIAL
    {
      queue, permitKind, workerRouteContext, workerRouteReferences := [], None, None, 0;
      active, epoch, closed, aborted, next := None, 0, false, {}, 0;
      holders, granted, rejected := map[], [], {};
    }

    method Bind(context: P.Context)
      modifies `active, `epoch
      ensures P.Route(active, epoch) == P.Bind(old(P.Route(active, epoch)), context)
    {
      if active == Some(context) { return; }
      active := Some(context);
      epoch := if epoch == MAX_SAFE then 0 else epoch + 1;
    }

    /** A scan binds its route once it holds the permit. */
    method BindScanRoute(context: P.Context)
      requires permitKind == Some(P.Scan)
      modifies `active, `epoch
      ensures Model() == P.Step(old(Model()), P.BindScan(context))
      ensures active == Some(context)
    {
      Bind(context);
    }

    /** A worker binds its route once it holds the permit. */
    method BindWorkerRoute(ghost id: nat, context: P.Context)
      requires id in holders && holders[id].kind == P.Worker
      requires holders[id].context.None? || holders[id].context == Some(context)
      modifies `active, `epoch
      ensures Model() == P.Step(old(Model()), P.BindWorker(id, context))
      ensures active == Some(context)
    {
      Bind(context);
    }

    /** The selection moved on, or the scan was aborted. */
    method ClearRoute()
      modifies `active, `epoch
      ensures Model() == P.Step(old(Model()), P.Unroute)
      ensures active.None?
    {
      active := None;
      epoch := if epoch == MAX_SAFE then 0 else epoch + 1;
    }

    method InvalidateActiveCacheEpoch()
      modifies `epoch
      ensures Model() == P.Step(old(Model()), P.Invalidate)
      ensures epoch != old(epoch)
    {
      epoch := if epoch == MAX_SAFE then 0 else epoch + 1;
    }

    method AnyScan() returns (b: bool)
      ensures b <==> P.ScanQueued(queue)
    {
      for i := 0 to |queue|
        invariant forall j :: 0 <= j < i ==> queue[j].kind != P.Scan
      {
        if queue[i].kind == P.Scan { return true; }
      }
      return false;
    }

    method Drain()
      modifies this
      ensures Model() == P.Drain(old(Model()))
      decreases |queue|
    {
      if closed || queue == [] { return; }
      if permitKind.Some? {
        var scan := AnyScan();
        if permitKind != Some(P.Worker) || workerRouteContext.None? || scan || queue[0].kind != P.Worker
           || queue[0].context != workerRouteContext {
          return;
        }
      }
      var waiter := queue[0];
      queue := queue[1..];
      if waiter.id in aborted {
        rejected := rejected + {waiter.id};
        Drain();
        return;
      }
      GrantWaiter(waiter);
      Drain();
    }

    method GrantWaiter(waiter: P.Waiter)
      modifies this
      ensures Model() == P.Grant(old(Model()), waiter)
    {
      permitKind := Some(waiter.kind);
      if waiter.kind == P.Worker {
        if workerRouteReferences == 0 {
          workerRouteContext := waiter.context;
          if waiter.context.Some? { Bind(waiter.context.value); }
        }
        workerRouteReferences := workerRouteReferences + 1;
      }
      holders := holders[waiter.id := waiter];
      granted := granted + [waiter.id];
    }

    method Acquire(kind: P.Kind, context: Option<P.Context>, fired: bool) returns (accepted: bool)
      modifies this
      ensures Model() == P.DoAcquire(old(Model()), kind, context, fired)
      ensures accepted <==> !old(closed) && !fired && P.Waiting(old(Model())) < P.MAX_PERMIT_WAITERS
    {
      hide P.Drain;
      next := next + 1;
      if closed || fired || |queue| + Max(0, workerRouteReferences - 1) >= P.MAX_PERMIT_WAITERS {
        rejected := rejected + {next - 1};
        return false;
      }
      queue := queue + [P.Waiter(next - 1, kind, context)];
      Drain();
      return true;
    }

    /** The scan's release, and the last worker's. */
    method ReleasePermit()
      modifies this
      ensures Model() == P.Freed(old(Model()))
    {
      hide P.Drain;
      permitKind := None;
      workerRouteContext := None;
      Drain();
    }

    method ReleaseScan(ghost id: nat)
      requires id in holders && holders[id].kind == P.Scan
      modifies this
      ensures Model() == P.DoRelease(old(Model()), id)
    {
      hide P.Drain;
      holders := holders - {id};
      ReleasePermit();
    }

    method ReleaseWorkerRoute(ghost id: nat)
      requires id in holders && holders[id].kind == P.Worker && workerRouteReferences > 0
      modifies this
      ensures Model() == P.DoRelease(old(Model()), id)
    {
      hide P.Drain;
      holders := holders - {id};
      workerRouteReferences := workerRouteReferences - 1;
      if workerRouteReferences == 0 { ReleasePermit(); }
    }

    method Position(id: nat) returns (index: int)
      ensures index >= 0 ==> index < |queue| && queue[index].id == id && forall j :: 0 <= j < index ==> queue[j].id != id
      ensures index < 0 ==> !P.Queued(queue, id)
    {
      for i := 0 to |queue|
        invariant forall j :: 0 <= j < i ==> queue[j].id != id
      {
        if queue[i].id == id { return i; }
      }
      return -1;
    }

    method OnAbort(id: nat)
      requires id in aborted
      modifies this
      ensures Model() == P.DoDequeue(old(Model()), id)
    {
      var index := Position(id);
      if index < 0 { return; }
      WithoutAt(queue, id, index);
      queue := queue[..index] + queue[index + 1..];
      rejected := rejected + {id};
    }

    method CloseHydration()
      modifies this
      ensures Model() == P.DoClose(old(Model()))
    {
      if closed { return; }
      closed := true;
      rejected := rejected + P.Ids(queue);
      queue := [];
    }
  }

  lemma {:induction false} WithoutAt(q: seq<P.Waiter>, id: nat, i: nat)
    requires i < |q| && q[i].id == id && forall j :: 0 <= j < i ==> q[j].id != id
    ensures P.Without(q, id) == q[..i] + q[i + 1..]
    decreases i
  {
    if i > 0 {
      WithoutAt(q[1..], id, i - 1);
      assert q[..i] == [q[0]] + q[1..][..i - 1] && q[1..][i..] == q[i + 1..];
    }
  }
}
