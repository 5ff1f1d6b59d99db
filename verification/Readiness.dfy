/**
 Readiness of finality for a promoted provider: what every interleaving of
 promotions, clears, passes, timers and close leaves true.

 A pass is asynchronous: it reads the selection when it starts, may open one
 provider pass later, settles later still, and its handlers run after that.
 */
module Readiness {
  import opened Prelude

  type Provider = string

  /** The selector's state, and what `selection()` reports: the active provider and a revision. */
  datatype Selection = Selection(provider: Option<Provider>, revision: nat)

  datatype Config = Config(providers: set<Provider>, watched: bool, failStart: bool)

  datatype RunState = Starting | Running | Degraded | Stopped

  datatype Pass =
    | Active(selection: Option<Selection>, used: Option<Selection>, initial: bool)
    | Settled(ok: bool, initial: bool)

  /** A pass whose run succeeded at an unchanged selection. */
  datatype Success = Success(selection: Selection, used: Option<Selection>, ended: Selection)

  /** The reconciler's own fields. */
  datatype Recon = Recon(state: RunState, ready: Option<Selection>, closed: bool, closing: bool, inFlight: Option<nat>,
                         handle: bool, timers: nat)

  /** `log` and `history` record, for the theorems, the successes and the provider of each revision. */
  datatype System = System(selector: Selection, recon: Recon, passes: map<nat, Pass>, next: nat,
                           log: seq<Success>, history: seq<Option<Provider>>)

  datatype Event =
    | Promote(provider: Provider)
    | Clear(provider: Provider)
    | Start
    | Fire
    | Open(pass: nat)
    | Settle(pass: nat, ok: bool)
    | Handle(pass: nat)
    | Close
    | CloseSettles(timeout: bool)
    | Ask

  // ------------------------------------------------------------ selector

  function Promoted(s: Selection, provider: Provider, cfg: Config): Selection {
    if provider in cfg.providers then Selection(Some(provider), s.revision + 1) else s
  }

  function Cleared(s: Selection, provider: Provider): Selection {
    if s.provider != Some(provider) then s else Selection(None, s.revision + 1)
  }

  function Select(s: System, next: Selection): System {
    if next == s.selector then s else s.(selector := next, history := s.history + [next.provider])
  }

  // ---------------------------------------------------------- reconciler

  /** The synchronous part of a pass: readiness is withdrawn and the selection read. */
  function BeginPass(s: System, initial: bool, cfg: Config): System {
    var pass := if !cfg.watched then Active(None, None, initial)
                else if s.selector.provider.None? then Settled(false, initial)
                else Active(Some(s.selector), None, initial);
    s.(recon := s.recon.(ready := None, inFlight := Some(s.next)), passes := s.passes[s.next := pass], next := s.next + 1)
  }

  function DoStart(s: System, cfg: Config): System {
    if s.recon.closed then s else BeginPass(s.(recon := s.recon.(state := Starting)), true, cfg)
  }

  function DoFire(s: System, cfg: Config): System {
    if s.recon.timers == 0 then s
    else
      var s1 := s.(recon := s.recon.(handle := false, timers := s.recon.timers - 1));
      if s.recon.closed then s1 else BeginPass(s1, false, cfg)
  }

  function SetPass(s: System, id: nat, p: Pass): System {
    s.(passes := s.passes[id := p])
  }

  /** The run opens its provider pass, once; without a provider the run fails. */
  function DoOpen(s: System, id: nat): System {
    if id !in s.passes || !s.passes[id].Active? || s.passes[id].used.Some? then s
    else
      var p := s.passes[id];
      if s.selector.provider.None? then SetPass(s, id, Settled(false, p.initial))
      else SetPass(s, id, Active(p.selection, Some(s.selector), p.initial))
  }

  /** After the run: the selection must not have changed. */
  function DoSettle(s: System, id: nat, ok: bool): System {
    if id !in s.passes || !s.passes[id].Active? then s
    else
      var p := s.passes[id];
      if !ok then SetPass(s, id, Settled(false, p.initial))
      else if p.selection.None? then SetPass(s, id, Settled(true, p.initial))
      else if s.selector != p.selection.value then SetPass(s, id, Settled(false, p.initial))
      else
        SetPass(s.(recon := if s.recon.closed then s.recon else s.recon.(ready := p.selection),
                   log := s.log + [Success(p.selection.value, p.used, s.selector)]), id, Settled(true, p.initial))
  }

  function Schedule(r: Recon): Recon {
    if r.closed then r else r.(handle := true, timers := r.timers + 1)
  }

  function Landed(r: Recon, id: nat): Recon {
    if r.inFlight == Some(id) then r.(inFlight := None) else r
  }

  function Handled(r: Recon, p: Pass, cfg: Config): Recon
    requires p.Settled?
  {
    if r.closed then r
    else if p.ok then Schedule(r.(state := Running))
    else if p.initial then (if cfg.failStart then r.(state := Degraded) else Schedule(r.(state := Degraded)))
    else Schedule(r.(ready := None, state := Degraded))
  }

  function DoHandle(s: System, id: nat, cfg: Config): System {
    if id !in s.passes || !s.passes[id].Settled? then s
    else s.(recon := Handled(Landed(s.recon, id), s.passes[id], cfg), passes := s.passes - {id})
  }

  function DoClose(s: System): System {
    if s.recon.closed then s
    else
      var r := s.recon.(closed := true, ready := None, handle := false,
                        timers := if s.recon.handle && s.recon.timers > 0 then s.recon.timers - 1 else s.recon.timers);
      s.(recon := if r.inFlight.None? then r.(state := Stopped) else r.(closing := true))
  }

  function DoCloseSettles(s: System, timeout: bool): System {
    if !s.recon.closing then s
    else s.(recon := s.recon.(closing := false, state := if timeout then Degraded else Stopped))
  }

  /** Asking for readiness revokes it when the selection has moved on. */
  function DoAsk(s: System, cfg: Config): System {
    if s.recon.ready.None? || !cfg.watched || s.recon.ready.value == s.selector then s
    else s.(recon := s.recon.(ready := None))
  }

  predicate ReadyFor(s: System, selection: Selection, cfg: Config) {
    s.recon.state == Running && cfg.watched && s.recon.ready == Some(selection) && s.selector == selection
  }

  function Step(s: System, e: Event, cfg: Config): System {
    match e
    case Promote(p) => Select(s, Promoted(s.selector, p, cfg))
    case Clear(p) => Select(s, Cleared(s.selector, p))
    case Start => DoStart(s, cfg)
    case Fire => DoFire(s, cfg)
    case Open(id) => DoOpen(s, id)
    case Settle(id, ok) => DoSettle(s, id, ok)
    case Handle(id) => DoHandle(s, id, cfg)
    case Close => DoClose(s)
    case CloseSettles(timeout) => DoCloseSettles(s, timeout)
    case Ask => DoAsk(s, cfg)
  }

  function Run(s: System, events: seq<Event>, cfg: Config): System
    decreases |events|
  {
    if events == [] then s else Run(Step(s, events[0], cfg), events[1..], cfg)
  }

  const INITIAL: System :=
    System(Selection(None, 0), Recon(Stopped, None, false, false, None, false, 0), map[], 0, [], [None])

  // ----------------------------------------------------------- invariant

  /** The selection once was the selector's state. */
  predicate Was(s: System, x: Selection) {
    x.revision < |s.history| && s.history[x.revision] == x.provider
  }

  predicate SelectorOk(s: System) {
    |s.history| == s.selector.revision + 1 && Was(s, s.selector)
  }

  predicate PassOk(s: System, p: Pass) {
    p.Active? && p.selection.Some? ==>
      && Was(s, p.selection.value) && p.selection.value.provider.Some?
      && (p.used.Some? ==> Was(s, p.used.value) && p.selection.value.revision <= p.used.value.revision
                             && p.used.value.provider.Some?)
  }

  /** A success that started, opened its pass and ended at one and the same revision. */
  predicate Genuine(e: Success) {
    && e.ended == e.selection && e.selection.provider.Some?
    && (e.used.Some? ==> e.used.value == e.selection)
  }

  ghost predicate Inv(s: System, cfg: Config) {
    && SelectorOk(s)
    && (forall id :: id in s.passes ==> PassOk(s, s.passes[id]))
    && (forall e :: e in s.log ==> Genuine(e))
    && (s.recon.ready.Some? ==> exists e :: e in s.log && e.selection == s.recon.ready.value)
    && (s.recon.ready.Some? ==> !s.recon.closed && cfg.watched)
    && (forall id :: id in s.passes && s.passes[id].Active? && s.passes[id].selection.Some? ==> cfg.watched)
  }

  lemma {:induction false} SelectKeeps(s: System, next: Selection, cfg: Config)
    requires Inv(s, cfg) && (next == s.selector || next.revision == s.selector.revision + 1)
    ensures Inv(Select(s, next), cfg)
  {
    var s' := Select(s, next);
    forall id | id in s'.passes ensures PassOk(s', s'.passes[id]) { assert PassOk(s, s.passes[id]); }
  }

  /** If the selector is back at the selection's revision, it never left it. */
  lemma {:induction false} SettleKeeps(s: System, id: nat, ok: bool, cfg: Config)
    requires Inv(s, cfg)
    ensures Inv(DoSettle(s, id, ok), cfg)
  {
    var s' := DoSettle(s, id, ok);
    if id in s.passes && s.passes[id].Active? {
      var p := s.passes[id];
      assert PassOk(s, p);
      if |s'.log| > |s.log| {
        var e := Success(p.selection.value, p.used, s.selector);
        assert Genuine(e);
        assert e in s'.log;
        forall x | x in s.log ensures x in s'.log {}
      }
      forall k | k in s'.passes ensures PassOk(s', s'.passes[k]) {
        if k != id { assert PassOk(s, s.passes[k]); }
      }
    }
  }

  lemma {:induction false} OpenKeeps(s: System, id: nat, cfg: Config)
    requires Inv(s, cfg)
    ensures Inv(DoOpen(s, id), cfg)
  {
    var s' := DoOpen(s, id);
    forall k | k in s'.passes ensures PassOk(s', s'.passes[k]) { assert k in s.passes && PassOk(s, s.passes[k]); }
  }

  lemma {:induction false} BeginKeeps(s: System, initial: bool, cfg: Config)
    requires Inv(s, cfg)
    ensures Inv(BeginPass(s, initial, cfg), cfg)
  {
    var s' := BeginPass(s, initial, cfg);
    forall k | k in s'.passes ensures PassOk(s', s'.passes[k]) {
      if k != s.next { assert PassOk(s, s.passes[k]); }
    }
  }

  lemma {:induction false} ReconKeeps(s: System, r: Recon, passes: map<nat, Pass>, cfg: Config)
    requires Inv(s, cfg) && (forall k :: k in passes ==> k in s.passes && passes[k] == s.passes[k])
    requires r.ready == s.recon.ready || r.ready.None?
    requires r.closed == s.recon.closed || r.ready.None?
    ensures Inv(s.(recon := r, passes := passes), cfg)
  {
    var s' := s.(recon := r, passes := passes);
    forall k | k in s'.passes ensures PassOk(s', s'.passes[k]) { assert PassOk(s, s.passes[k]); }
  }

  lemma {:induction false} StepKeeps(s: System, e: Event, cfg: Config)
    requires Inv(s, cfg)
    ensures Inv(Step(s, e, cfg), cfg)
  {
    hide Inv;
    match e
    case Promote(p) => SelectKeeps(s, Promoted(s.selector, p, cfg), cfg);
    case Clear(p) => SelectKeeps(s, Cleared(s.selector, p), cfg);
    case Start =>
      var s1 := s.(recon := s.recon.(state := Starting));
      ReconKeeps(s, s1.recon, s.passes, cfg);
      BeginKeeps(s1, true, cfg);
    case Fire =>
      if s.recon.timers > 0 {
        var s1 := s.(recon := s.recon.(handle := false, timers := s.recon.timers - 1));
        ReconKeeps(s, s1.recon, s.passes, cfg);
        BeginKeeps(s1, false, cfg);
      }
    case Open(id) => OpenKeeps(s, id, cfg);
    case Settle(id, ok) => SettleKeeps(s, id, ok, cfg);
    case Handle(id) =>
      if id in s.passes && s.passes[id].Settled? {
        ReconKeeps(s, Handled(Landed(s.recon, id), s.passes[id], cfg), s.passes - {id}, cfg);
      }
    case Close => ReconKeeps(s, DoClose(s).recon, s.passes, cfg);
    case CloseSettles(timeout) => ReconKeeps(s, DoCloseSettles(s, timeout).recon, s.passes, cfg);
    case Ask => ReconKeeps(s, DoAsk(s, cfg).recon, s.passes, cfg);
  }

  lemma {:induction false} RunKeeps(s: System, events: seq<Event>, cfg: Config)
    requires Inv(s, cfg)
    ensures Inv(Run(s, events, cfg), cfg)
    decreases |events|
  {
    hide Inv, Step;
    if events != [] {
      StepKeeps(s, events[0], cfg);
      RunKeeps(Step(s, events[0], cfg), events[1..], cfg);
    }
  }

  // ------------------------------------------------------------ theorems

  /**
   Ready for a selection means: it is current, it names a provider, and a pass
   succeeded that started, opened its provider and ended at that very revision.
   */
  lemma {:induction false} ReadyMeansProven(events: seq<Event>, cfg: Config, selection: Selection)
    requires ReadyFor(Run(INITIAL, events, cfg), selection, cfg)
    ensures var s := Run(INITIAL, events, cfg);
            && s.selector == selection && selection.provider.Some? && !s.recon.closed
            && exists e :: e in s.log && Genuine(e) && e.selection == selection
  {
    hide Run, Genuine;
    RunKeeps(INITIAL, events, cfg);
    var s := Run(INITIAL, events, cfg);
    var e :| e in s.log && e.selection == selection;
    assert Genuine(e);
    GenuineProvider(e);
  }

  lemma {:induction false} GenuineProvider(e: Success)
    requires Genuine(e)
    ensures e.selection.provider.Some?
  {
  }

  /** A pass that ends at the selection it started from makes an open reconciler ready for it. */
  lemma {:induction false} PassMakesReady(s: System, id: nat, cfg: Config)
    requires id in s.passes && s.passes[id].Active? && s.passes[id].selection == Some(s.selector)
    requires !s.recon.closed && cfg.watched
    ensures ReadyFor(Step(Step(s, Settle(id, true), cfg), Handle(id), cfg), s.selector, cfg)
  {
  }

  /** Any change of provider withdraws readiness, even one that returns to the same provider. */
  lemma {:induction false} ChangeWithdraws(events: seq<Event>, cfg: Config, selection: Selection, provider: Provider,
                                           back: Provider)
    requires ReadyFor(Run(INITIAL, events, cfg), selection, cfg)
    requires provider in cfg.providers && back in cfg.providers
    ensures var s := Step(Step(Run(INITIAL, events, cfg), Promote(provider), cfg), Promote(back), cfg);
            !ReadyFor(s, selection, cfg) && !ReadyFor(s, s.selector, cfg)
  {
    hide Run;
  }

  // ----------------------------------------------- what each event brings

  /** Promoting a known provider selects it at the next revision; clearing deselects only the provider that is selected. */
  lemma {:induction false} SelectorMoves(s: System, provider: Provider, cfg: Config)
    ensures Step(s, Promote(provider), cfg).selector
            == if provider in cfg.providers then Selection(Some(provider), s.selector.revision + 1) else s.selector
    ensures Step(s, Clear(provider), cfg).selector
            == if s.selector.provider == Some(provider) then Selection(None, s.selector.revision + 1) else s.selector
    ensures s.selector.provider == Some(provider) ==>
              Step(s, Clear(provider), cfg).history == s.history + [None]
              && !ReadyFor(Step(s, Clear(provider), cfg), s.selector, cfg)
  {
  }

  /** A pass that runs undisturbed to its handler, from the state that began it as `id`. */
  function Undisturbed(id: nat, ok: bool): seq<Event> {
    [Settle(id, ok), Handle(id)]
  }

  lemma {:induction false} RunTwo(s: System, id: nat, ok: bool, cfg: Config)
    ensures Run(s, Undisturbed(id, ok), cfg) == Step(Step(s, Settle(id, ok), cfg), Handle(id), cfg)
  {
    hide Step;
    var es := Undisturbed(id, ok);
    assert es[1..] == [Handle(id)] && es[1..][1..] == [];
    assert Run(s, es, cfg) == Run(Step(s, es[0], cfg), es[1..], cfg);
  }

  /** Starting an open reconciler, or its timer firing, begins a pass at the current selection and withdraws readiness. */
  lemma {:induction false} PassBegins(s: System, e: Event, cfg: Config)
    requires !s.recon.closed && (e.Start? || (e.Fire? && s.recon.timers > 0))
    ensures var r := Step(s, e, cfg);
            && r.recon.ready.None? && r.recon.inFlight == Some(s.next) && r.next == s.next + 1 && s.next in r.passes
            && r.selector == s.selector && !r.recon.closed
            && r.recon.timers == (if e.Fire? then s.recon.timers - 1 else s.recon.timers)
            && (cfg.watched && s.selector.provider.Some? ==> r.passes[s.next] == Active(Some(s.selector), None, e.Start?))
            && (cfg.watched && s.selector.provider.None? ==> r.passes[s.next] == Settled(false, e.Start?))
            && (!cfg.watched ==> r.passes[s.next] == Active(None, None, e.Start?))
  {
  }

  /** From any state of an open, watched reconciler with a provider selected: the next pass that succeeds makes it ready. */
  lemma {:induction false} ReadyAfterPass(s: System, e: Event, cfg: Config)
    requires !s.recon.closed && cfg.watched && s.selector.provider.Some?
    requires e.Start? || (e.Fire? && s.recon.timers > 0)
    ensures var r := Run(Step(s, e, cfg), Undisturbed(s.next, true), cfg);
            ReadyFor(r, s.selector, cfg) && r.recon.inFlight.None? && r.recon.timers > 0
  {
    hide Run, Step;
    var b := Step(s, e, cfg);
    PassBegins(s, e, cfg);
    RunTwo(b, s.next, true, cfg);
    PassMakesReady(b, s.next, cfg);
    SettleSettles(b, s.next, true, cfg);
    HandledSchedules(Step(b, Settle(s.next, true), cfg), s.next, cfg);
  }

  /** A pass uses the provider that is selected when it opens it, fails without one, and opens one only once. */
  lemma {:induction false} OpenUses(s: System, id: nat, cfg: Config)
    requires id in s.passes && s.passes[id].Active? && s.passes[id].used.None?
    ensures var r, p := Step(s, Open(id), cfg), s.passes[id];
            && id in r.passes && r.recon == s.recon && r.selector == s.selector
            && (s.selector.provider.None? ==> r.passes[id] == Settled(false, p.initial))
            && (s.selector.provider.Some? ==> r.passes[id].Active? && r.passes[id].used == Some(s.selector) && r.passes[id].selection == p.selection)
            && Step(r, Open(id), cfg) == r
  {
  }

  /** Asking keeps readiness for the current selection and revokes any other. */
  lemma {:induction false} AskRevokes(s: System, cfg: Config)
    requires cfg.watched
    ensures var r := Step(s, Ask, cfg);
            && r == s.(recon := r.recon) && r.recon == s.recon.(ready := r.recon.ready)
            && r.recon.ready == (if s.recon.ready == Some(s.selector) then Some(s.selector) else None)
            && forall x :: ReadyFor(r, x, cfg) <==> ReadyFor(s, x, cfg)
  {
  }

  /** A run that succeeded counts only if the selection did not change under it. */
  lemma {:induction false} SettleSettles(s: System, id: nat, ok: bool, cfg: Config)
    requires id in s.passes && s.passes[id].Active?
    ensures var r, p := Step(s, Settle(id, ok), cfg), s.passes[id];
            && id in r.passes && r.recon.closed == s.recon.closed && r.recon.inFlight == s.recon.inFlight
            && r.recon.timers == s.recon.timers && r.recon.state == s.recon.state
            && r.passes[id] == Settled(ok && (p.selection.None? || p.selection.value == s.selector), p.initial)
  {
  }

  /** Every handled pass of an open reconciler schedules the next, except a failed start that is to fail. */
  lemma {:induction false} HandledSchedules(s: System, id: nat, cfg: Config)
    requires !s.recon.closed && id in s.passes && s.passes[id].Settled?
    ensures var r, p := Step(s, Handle(id), cfg), s.passes[id];
            && id !in r.passes
            && r.recon.state == (if p.ok then Running else Degraded)
            && r.recon.timers == s.recon.timers + (if !p.ok && p.initial && cfg.failStart then 0 else 1)
            && (!p.ok && !p.initial ==> r.recon.ready.None?)
            && (p.ok ==> r.recon.ready == s.recon.ready)
            && r.recon.inFlight == (if s.recon.inFlight == Some(id) then None else s.recon.inFlight)
  {
  }

  /** A reconciler that was closed stays closed, begins no pass and is never ready again. */
  lemma {:induction false} ClosedForGood(s: System, events: seq<Event>, cfg: Config)
    requires s.recon.closed && s.recon.ready.None?
    ensures var r := Run(s, events, cfg);
            r.recon.closed && r.recon.ready.None? && r.next == s.next && forall x :: !ReadyFor(r, x, cfg)
    decreases |events|
  {
    hide Step;
    if events != [] {
      ClosedStep(s, events[0], cfg);
      ClosedForGood(Step(s, events[0], cfg), events[1..], cfg);
    }
  }

  lemma {:induction false} ClosedStep(s: System, e: Event, cfg: Config)
    requires s.recon.closed && s.recon.ready.None?
    ensures var r := Step(s, e, cfg); r.recon.closed && r.recon.ready.None? && r.next == s.next
  {
  }

  /** Closing an open reconciler stops it at once if no pass is in flight, and when that pass or its deadline ends otherwise. */
  lemma {:induction false} CloseStops(s: System, timeout: bool, cfg: Config)
    requires !s.recon.closed
    ensures var r := Step(s, Close, cfg);
            && r.recon.closed && r.recon.ready.None? && !r.recon.handle
            && (s.recon.inFlight.None? ==> r.recon.state == Stopped && r.recon.closing == s.recon.closing)
            && (s.recon.inFlight.Some? ==>
                  r.recon.closing
                  && Step(r, CloseSettles(timeout), cfg).recon.state == (if timeout then RunState.Degraded else Stopped))
  {
  }
}
