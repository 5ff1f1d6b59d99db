/** The selector and the recurring reconciler as objects, each method against its step of the readiness model. */
module RecurringReconciler {
  import opened Prelude
  import opened Readiness

  class PromotedProviderSelector {
    const providers: set<Provider>
    var active: Option<Provider>
    var revision: nat
    ghost var history: seq<Option<Provider>>

    constructor (providers: set<Provider>)
      ensures this.providers == providers && Current() == INITIAL.selector && history == INITIAL.history
    {
      this.providers := providers;
      active, revision, history := None, 0, [None];
    }

    function Current(): Selection
      reads this
    {
      Selection(active, revision)
    }

    method Promote(provider: Provider) returns (ok: bool)
      modifies this
      ensures ok <==> provider in providers
      ensures Current() == (if ok then Selection(Some(provider), old(revision) + 1) else old(Current()))
      ensures history == if ok then old(history) + [Some(provider)] else old(history)
    {
      if provider !in providers { return false; }
      revision := revision + 1;
      active := Some(provider);
      history := history + [active];
      return true;
    }

    method Clear(provider: Provider)
      modifies this
      ensures Current() == Cleared(old(Current()), provider)
      ensures active == (if old(active) == Some(provider) then None else old(active))
      ensures revision == old(revision) + (if old(active) == Some(provider) then 1 else 0)
      ensures history == if old(active) == Some(provider) then old(history) + [None] else old(history)
    {
      if active != Some(provider) { return; }
      revision := revision + 1;
      active := None;
      history := history + [None];
    }
  }

  class RecurringFinalityReconciler {
    const cfg: Config
    const selector: PromotedProviderSelector
    var currentState: RunState
    var ready: Option<Selection>
    var closed: bool
    var closing: bool
    var inFlight: Option<nat>
    var handle: bool
    var timers: nat
    var passes: map<nat, Pass>
    var next: nat
    ghost var log: seq<Success>

    constructor (selector: PromotedProviderSelector, watched: bool, failStart: bool)
      requires selector.Current() == INITIAL.selector && selector.history == INITIAL.history
      ensures Model() == INITIAL && this.selector == selector && cfg == Config(selector.providers, watched, failStart)
    {
      this.selector := selector;
      cfg := Config(selector.providers, watched, failStart);
      currentState, ready, closed, closing, inFlight, handle, timers := Stopped, None, false, false, None, false, 0;
      passes, next, log := map[], 0, [];
    }

    function Fields(): Recon
      reads this
    {
      Recon(currentState, ready, closed, closing, inFlight, handle, timers)
    }

    ghost function Model(): System
      reads this, selector
    {
      System(selector.Current(), Fields(), passes, next, log, selector.history)
    }

    method Start()
      modifies this
      ensures Model() == DoStart(old(Model()), cfg)
    {
      if closed { return; }
      currentState := Starting;
      ready := None;
      RunCurrentPass(true);
    }

    /** Up to the first await; the pass is registered as the one in flight. */
    method RunCurrentPass(initial: bool)
      modifies this
      ensures Model() == BeginPass(old(Model()), initial, cfg)
    {
      ready := None;
      var pass := Active(None, None, initial);
      if cfg.watched {
        var selection := selector.Current();
        pass := if selection.provider.None? then Settled(false, initial) else Active(Some(selection), None, initial);
      }
      passes := passes[next := pass];
      inFlight := Some(next);
      next := next + 1;
    }

    method Fire()
      modifies this
      ensures Model() == DoFire(old(Model()), cfg)
    {
      if timers == 0 { return; }
      timers := timers - 1;
      handle := false;
      if closed { return; }
      ready := None;
      RunCurrentPass(false);
    }

    method OpenPass(id: nat)
      modifies this
      ensures Model() == DoOpen(old(Model()), id)
    {
      if id !in passes { return; }
      match passes[id] {
        case Settled(_, _) =>
        case Active(selection, used, initial) =>
          if used.Some? { return; }
          if selector.active.None? {
            passes := passes[id := Settled(false, initial)];
          } else {
            passes := passes[id := Active(selection, Some(selector.Current()), initial)];
          }
      }
    }

    method SettlePass(id: nat, ok: bool)
      modifies this
      ensures Model() == DoSettle(old(Model()), id, ok)
    {
      if id !in passes { return; }
      match passes[id] {
        case Settled(_, _) =>
        case Active(selection, used, initial) =>
          if !ok {
            passes := passes[id := Settled(false, initial)];
          } else if selection.None? {
            passes := passes[id := Settled(true, initial)];
          } else if selector.active != selection.value.provider || selector.revision != selection.value.revision {
            passes := passes[id := Settled(false, initial)];
          } else {
            if !closed { ready := selection; }
            log := log + [Success(selection.value, used, selector.Current())];
            passes := passes[id := Settled(true, initial)];
          }
      }
    }

    method ScheduleNext()
      modifies `handle, `timers
      ensures Fields() == Schedule(old(Fields()))
    {
      if closed { return; }
      handle := true;
      timers := timers + 1;
    }

    method HandlePass(id: nat)
      modifies this
      ensures Model() == DoHandle(old(Model()), id, cfg)
    {
      if id !in passes { return; }
      match passes[id] {
        case Active(_, _, _) =>
        case Settled(ok, initial) =>
          passes := passes - {id};
          if inFlight == Some(id) { inFlight := None; }
          if closed { return; }
          if ok {
            currentState := Running;
            ScheduleNext();
          } else if initial {
            currentState := Degraded;
            if cfg.failStart { return; }
            ScheduleNext();
          } else {
            ready := None;
            currentState := Degraded;
            ScheduleNext();
          }
      }
    }

    method CloseReconciler()
      modifies this
      ensures Model() == DoClose(old(Model()))
    {
      if closed { return; }
      closed := true;
      if handle && timers > 0 { timers := timers - 1; }
      handle := false;
      ready := None;
      if inFlight.None? { currentState := Stopped; } else { closing := true; }
    }

    method SettleClose(timeout: bool)
      modifies this
      ensures Model() == DoCloseSettles(old(Model()), timeout)
    {
      if !closing { return; }
      closing := false;
      currentState := if timeout then Degraded else Stopped;
    }

    /** Answers, and revokes a readiness that is no longer current. */
    method IsReadyFor(selection: Selection) returns (b: bool)
      modifies `ready
      ensures b <==> ReadyFor(old(Model()), selection, cfg)
      ensures Model() == DoAsk(old(Model()), cfg)
    {
      var current: Option<Selection> := None;
      if ready.Some? && cfg.watched {
        if ready.value == selector.Current() { current := ready; } else { ready := None; }
      }
      b := currentState == Running && current == Some(selection);
    }
  }
}
