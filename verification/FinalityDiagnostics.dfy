/**
 The finality incident tracker: consecutive failures form an incident, of which
 the first failure and every twelfth are reported and the rest suppressed.
 */
module FinalityDiagnostics {
  import opened Prelude

  type Reason = string
  type Time = t: nat | t <= MAX_SAFE witness 0

  datatype Tracker = Tracker(degradedAt: Option<Time>, lastAt: Option<Time>, failures: nat, suppressed: nat,
                             cadence: nat, reason: Option<Reason>)

  datatype Phase = Degraded | Recovered

  datatype Diagnostic = Diagnostic(phase: Phase, reason: Option<Reason>, degradedAt: Time, observedAt: Time,
                                   duration: nat, failures: nat, suppressed: nat)

  datatype Error = InvalidState | InvalidDiagnostic

  /** A reduction: the next state, and the diagnostic to report, if any. */
  datatype Reduction = Reduction(state: Tracker, diagnostic: Option<Diagnostic>)

  const IDLE: Tracker := Tracker(None, None, 0, 0, 0, None)

  function Saturating(x: nat): nat {
    if x == MAX_SAFE then x else x + 1
  }

  // ------------------------------------------------------- the validators

  const SATURATED_BASE_CADENCE: nat := MAX_SAFE % 12
  const SATURATED_SUPPRESSION_BASELINE: int := MAX_SAFE - 1 - MAX_SAFE / 12

  predicate CoherentCounters(failures: nat, suppressed: nat, cadence: nat) {
    if failures == MAX_SAFE then
      suppressed == MAX_SAFE ||
      var delta := suppressed - SATURATED_SUPPRESSION_BASELINE;
      var offset := (cadence - SATURATED_BASE_CADENCE + 12) % 12;
      var atOffset := offset - (SATURATED_BASE_CADENCE + offset) / 12;
      delta >= 0 && delta >= atOffset && (delta - atOffset) % 11 == 0
    else cadence == failures % 12 && suppressed == failures - 1 - failures / 12
  }

  predicate Accepts(s: Tracker) {
    && s.failures <= MAX_SAFE && s.suppressed <= MAX_SAFE && s.cadence <= 11
    && (s == IDLE ||
        (&& s.degradedAt.Some? && s.lastAt.Some? && s.lastAt.value >= s.degradedAt.value && s.failures >= 1
         && CoherentCounters(s.failures, s.suppressed, s.cadence) && s.reason.Some?))
  }

  predicate ValidDiagnostic(d: Diagnostic) {
    && 1 <= d.failures <= MAX_SAFE && d.suppressed <= d.failures
    && (var first := d.failures - 1 - d.failures / 12;
        if d.failures == MAX_SAFE then d.suppressed >= first else d.suppressed == first)
    && d.observedAt >= d.degradedAt && d.duration == d.observedAt - d.degradedAt
    && (d.phase == Degraded <==> d.reason.Some?)
  }

  function CreateDiagnostic(d: Diagnostic): Result<Option<Diagnostic>, Error> {
    if ValidDiagnostic(d) then Ok(Some(d)) else Err(InvalidDiagnostic)
  }

  // --------------------------------------------------------- the reducers

  function Later(last: Option<Time>, at: Time): Time {
    if last.None? || last.value <= at then at else last.value
  }

  function Report(s: Tracker, d: Result<Option<Diagnostic>, Error>): Result<Reduction, Error> {
    match d
    case Ok(diagnostic) => Ok(Reduction(s, diagnostic))
    case Err(e) => Err(e)
  }

  function DegradedDiagnostic(s: Tracker): Result<Option<Diagnostic>, Error> {
    if s.degradedAt.None? || s.lastAt.None? || s.reason.None? || s.lastAt.value < s.degradedAt.value then Err(InvalidState)
    else CreateDiagnostic(Diagnostic(Degraded, s.reason, s.degradedAt.value, s.lastAt.value,
                                     s.lastAt.value - s.degradedAt.value, s.failures, s.suppressed))
  }

  function RecordFailure(s: Tracker, reason: Reason, at: Time): Result<Reduction, Error> {
    if !Accepts(s) then Err(InvalidState)
    else
      var accepted := Later(s.lastAt, at);
      if s.degradedAt.None? then
        var next := Tracker(Some(accepted), Some(accepted), 1, 0, 1, Some(reason));
        Report(next, DegradedDiagnostic(next))
      else
        var cadence := if s.cadence == 11 then 0 else s.cadence + 1;
        var next := Tracker(s.degradedAt, Some(accepted), Saturating(s.failures),
                            if cadence == 0 then s.suppressed else Saturating(s.suppressed), cadence, Some(reason));
        Report(next, if cadence == 0 then DegradedDiagnostic(next) else Ok(None))
  }

  function RecordRecovery(s: Tracker, at: Time): Result<Reduction, Error> {
    if !Accepts(s) then Err(InvalidState)
    else if s.degradedAt.None? || s.lastAt.None? then Ok(Reduction(IDLE, None))
    else
      var accepted := Later(s.lastAt, at);
      if accepted < s.degradedAt.value then Err(InvalidState)
      else Report(IDLE, CreateDiagnostic(Diagnostic(Recovered, None, s.degradedAt.value, accepted,
                                                    accepted - s.degradedAt.value, s.failures, s.suppressed)))
  }

  // ------------------------------------------- an incident of n failures

  function Least(a: int, b: int): int {
    if a <= b then a else b
  }

  /** How many of `n` failures were not reported. */
  function Suppressed(n: nat): nat
    requires n >= 1
  {
    n - 1 - n / 12
  }

  /** The counters of an incident of exactly `n` failures, each stuck at 2^53 - 1 once it gets there. */
  predicate CountersAfter(n: nat, failures: nat, suppressed: nat, cadence: nat) {
    n >= 1 && failures == Least(n, MAX_SAFE) && suppressed == Least(Suppressed(n), MAX_SAFE) && cadence == n % 12
  }

  predicate Incident(s: Tracker, n: nat, start: Time, last: Time, reason: Reason) {
    s.degradedAt == Some(start) && s.lastAt == Some(last) && s.reason == Some(reason) && start <= last
    && CountersAfter(n, s.failures, s.suppressed, s.cadence)
  }

  /** Past saturation, `n` failures are an offset to the cadence and some whole cycles of twelve. */
  lemma {:induction false} SuppressedAbove(offset: nat, cycles: nat)
    requires offset < 12
    ensures var n := MAX_SAFE + offset + 12 * cycles;
            && n % 12 == (SATURATED_BASE_CADENCE + offset) % 12
            && Suppressed(n) == SATURATED_SUPPRESSION_BASELINE + offset
                                - (SATURATED_BASE_CADENCE + offset) / 12 + 11 * cycles
  {
    var n := MAX_SAFE + offset + 12 * cycles;
    var q := MAX_SAFE / 12;
    assert n == 12 * (q + cycles) + (SATURATED_BASE_CADENCE + offset);
    if SATURATED_BASE_CADENCE + offset < 12 {
      assert n / 12 == q + cycles;
    } else {
      assert n / 12 == q + cycles + 1;
    }
  }

  /** The predicate rejects no reachable triple. */
  lemma {:induction false} ReachableIsCoherent(n: nat, failures: nat, suppressed: nat, cadence: nat)
    requires CountersAfter(n, failures, suppressed, cadence)
    ensures CoherentCounters(failures, suppressed, cadence)
  {
    if n >= MAX_SAFE {
      var offset, cycles := (n - MAX_SAFE) % 12, (n - MAX_SAFE) / 12;
      assert n == MAX_SAFE + offset + 12 * cycles;
      SuppressedAbove(offset, cycles);
      SaturatedCoherent(offset, cycles, suppressed, cadence);
    }
  }

  lemma {:induction false} SaturatedCoherent(offset: nat, cycles: nat, suppressed: nat, cadence: nat)
    requires offset < 12 && cadence == (SATURATED_BASE_CADENCE + offset) % 12
    requires suppressed == MAX_SAFE ||
             suppressed == SATURATED_SUPPRESSION_BASELINE + offset
                           - (SATURATED_BASE_CADENCE + offset) / 12 + 11 * cycles
    ensures CoherentCounters(MAX_SAFE, suppressed, cadence)
  {
    assert (cadence - SATURATED_BASE_CADENCE + 12) % 12 == offset;
    assert (11 * cycles) % 11 == 0;
  }

  /** The number of failures behind a coherent triple. */
  function FailuresBehind(failures: nat, suppressed: nat, cadence: nat): nat {
    if failures != MAX_SAFE then failures
    else
      var offset := (cadence - SATURATED_BASE_CADENCE + 12) % 12;
      if suppressed == MAX_SAFE then MAX_SAFE + offset + 12 * MAX_SAFE
      else
        var atOffset := offset - (SATURATED_BASE_CADENCE + offset) / 12;
        var delta := suppressed - SATURATED_SUPPRESSION_BASELINE;
        MAX_SAFE + offset + 12 * (if delta >= atOffset then (delta - atOffset) / 11 else 0)
  }

  /** The predicate accepts nothing else. */
  lemma {:induction false} CoherentIsReachable(failures: nat, suppressed: nat, cadence: nat)
    requires 1 <= failures <= MAX_SAFE && suppressed <= MAX_SAFE && cadence <= 11
    requires CoherentCounters(failures, suppressed, cadence)
    ensures CountersAfter(FailuresBehind(failures, suppressed, cadence), failures, suppressed, cadence)
  {
    if failures == MAX_SAFE {
      var offset := (cadence - SATURATED_BASE_CADENCE + 12) % 12;
      var atOffset := offset - (SATURATED_BASE_CADENCE + offset) / 12;
      var delta := suppressed - SATURATED_SUPPRESSION_BASELINE;
      var cycles: nat := if suppressed == MAX_SAFE then MAX_SAFE
                         else (delta - atOffset) / 11;
      SuppressedAbove(offset, cycles);
    }
  }

  /** `CoherentCounters` holds of exactly the triples some incident of at least one failure reaches. */
  lemma {:induction false} CoherentIffReachable(failures: nat, suppressed: nat, cadence: nat)
    requires 1 <= failures <= MAX_SAFE && suppressed <= MAX_SAFE && cadence <= 11
    ensures CoherentCounters(failures, suppressed, cadence) <==>
            exists n: nat :: CountersAfter(n, failures, suppressed, cadence)
  {
    if CoherentCounters(failures, suppressed, cadence) {
      CoherentIsReachable(failures, suppressed, cadence);
    }
    if n: nat :| CountersAfter(n, failures, suppressed, cadence) {
      ReachableIsCoherent(n, failures, suppressed, cadence);
    }
  }

  /** The counters of a state that is about to be reported pass the diagnostic's own check. */
  lemma {:induction false} CountersReportable(n: nat, failures: nat, suppressed: nat, cadence: nat)
    requires CountersAfter(n, failures, suppressed, cadence)
    ensures suppressed <= failures && failures >= 1
    ensures var first := failures - 1 - failures / 12;
            if failures == MAX_SAFE then suppressed >= first else suppressed == first
  {
    if n >= MAX_SAFE {
      assert n / 12 <= MAX_SAFE / 12 + (n - MAX_SAFE);
    }
  }

  lemma {:induction false} SuppressedStep(n: nat)
    requires n >= 1
    ensures (n + 1) % 12 == (if n % 12 == 11 then 0 else n % 12 + 1)
    ensures Suppressed(n + 1) == if (n + 1) % 12 == 0 then Suppressed(n) else Suppressed(n) + 1
  {
  }

  /** One more failure: never rejected, and reported exactly when it is a multiple of twelve. */
  lemma {:induction false} FailureContinues(s: Tracker, n: nat, start: Time, last: Time, was: Reason, reason: Reason,
                                            at: Time)
    requires Incident(s, n, start, last, was)
    ensures RecordFailure(s, reason, at).Ok?
    ensures var r := RecordFailure(s, reason, at).value;
            && Incident(r.state, n + 1, start, Later(Some(last), at), reason)
            && r.state.lastAt == Some(if last <= at then at else last)
            && (r.diagnostic.Some? <==> (n + 1) % 12 == 0)
            && (r.diagnostic.Some? ==>
                  var observed := if last <= at then at else last;
                  && ValidDiagnostic(r.diagnostic.value)
                  && r.diagnostic.value == Diagnostic(Degraded, Some(reason), start, observed, observed - start,
                                                      Least(n + 1, MAX_SAFE), Least(Suppressed(n + 1), MAX_SAFE)))
  {
    hide CoherentCounters;
    ReachableIsCoherent(n, s.failures, s.suppressed, s.cadence);
    SuppressedStep(n);
    var cadence := if s.cadence == 11 then 0 else s.cadence + 1;
    var failures := Saturating(s.failures);
    var suppressed := if cadence == 0 then s.suppressed else Saturating(s.suppressed);
    assert CountersAfter(n + 1, failures, suppressed, cadence) by { CounterStep(n, s.failures, s.suppressed, s.cadence); }
    CountersReportable(n + 1, failures, suppressed, cadence);
  }

  lemma {:induction false} CounterStep(n: nat, failures: nat, suppressed: nat, cadence: nat)
    requires CountersAfter(n, failures, suppressed, cadence)
    ensures var next := if cadence == 11 then 0 else cadence + 1;
            CountersAfter(n + 1, Saturating(failures), if next == 0 then suppressed else Saturating(suppressed), next)
  {
    SuppressedStep(n);
  }

  /** A first failure opens an incident and is always reported; a recovery of no incident reports nothing. */
  lemma {:induction false} FailureOpens(reason: Reason, at: Time)
    ensures RecordFailure(IDLE, reason, at).Ok?
    ensures var r := RecordFailure(IDLE, reason, at).value;
            && Incident(r.state, 1, at, at, reason)
            && r.diagnostic == Some(Diagnostic(Degraded, Some(reason), at, at, 0, 1, 0))
            && ValidDiagnostic(r.diagnostic.value)
    ensures RecordRecovery(IDLE, at) == Ok(Reduction(IDLE, None))
  {
  }

  /** A recovery of an incident is always reported, with a valid diagnostic, and leaves the tracker idle. */
  lemma {:induction false} RecoveryCloses(s: Tracker, n: nat, start: Time, last: Time, reason: Reason, at: Time)
    requires Incident(s, n, start, last, reason)
    ensures RecordRecovery(s, at).Ok?
    ensures var r := RecordRecovery(s, at).value;
            && r.state == IDLE && r.diagnostic.Some? && ValidDiagnostic(r.diagnostic.value)
            && (var observed := if last <= at then at else last;
                r.diagnostic.value == Diagnostic(Recovered, None, start, observed, observed - start,
                                                 Least(n, MAX_SAFE), Least(Suppressed(n), MAX_SAFE)))
  {
    hide CoherentCounters;
    ReachableIsCoherent(n, s.failures, s.suppressed, s.cadence);
    CountersReportable(n, s.failures, s.suppressed, s.cadence);
  }

  // ----------------------------------------------------------- whole runs

  datatype Event = Failure(reason: Reason, at: Time) | Recovery(at: Time)

  function Reduce(s: Tracker, e: Event): Result<Reduction, Error> {
    match e
    case Failure(reason, at) => RecordFailure(s, reason, at)
    case Recovery(at) => RecordRecovery(s, at)
  }

  /** The state after a run and everything reported on the way; an error stops it. */
  function RunTracker(s: Tracker, events: seq<Event>): Result<(Tracker, seq<Diagnostic>), Error>
    decreases |events|
  {
    if events == [] then Ok((s, []))
    else
      match Reduce(s, events[0])
      case Err(e) => Err(e)
      case Ok(r) =>
        match RunTracker(r.state, events[1..])
        case Err(e) => Err(e)
        case Ok(rest) => Ok((rest.0, (if r.diagnostic.Some? then [r.diagnostic.value] else []) + rest.1))
  }

  ghost predicate Reached(s: Tracker) {
    s == IDLE ||
    exists n: nat, start: Time, last: Time, reason: Reason ::
      Incident(s, n, start, last, reason) && (n == 1 ==> start == last)
  }

  /** No reachable state is ever rejected, and nothing the tracker reports is ever invalid. */
  lemma {:induction false} RunNeverFails(s: Tracker, events: seq<Event>)
    requires Reached(s)
    ensures RunTracker(s, events).Ok?
    ensures Reached(RunTracker(s, events).value.0)
    ensures forall d :: d in RunTracker(s, events).value.1 ==> ValidDiagnostic(d)
    decreases |events|
  {
    hide RecordFailure, RecordRecovery, ValidDiagnostic, Incident;
    if events != [] {
      ReduceNeverFails(s, events[0]);
      RunNeverFails(Reduce(s, events[0]).value.state, events[1..]);
    }
  }

  lemma {:induction false} IncidentStarted(s: Tracker, n: nat, start: Time, last: Time, reason: Reason)
    requires Incident(s, n, start, last, reason)
    ensures n >= 1
  {
  }

  lemma {:induction false} ReduceNeverFails(s: Tracker, e: Event)
    requires Reached(s)
    ensures Reduce(s, e).Ok? && Reached(Reduce(s, e).value.state)
    ensures Reduce(s, e).value.diagnostic.Some? ==> ValidDiagnostic(Reduce(s, e).value.diagnostic.value)
  {
    hide RecordFailure, ValidDiagnostic, Incident;
    if s == IDLE {
      if e.Failure? { FailureOpens(e.reason, e.at); }
    } else {
      var n: nat, start: Time, last: Time, reason: Reason :| Incident(s, n, start, last, reason);
      match e
      case Failure(next, at) =>
        FailureContinues(s, n, start, last, reason, next, at);
        IncidentStarted(s, n, start, last, reason);
        assert Incident(Reduce(s, e).value.state, n + 1, start, Later(Some(last), at), next);
      case Recovery(at) => RecoveryCloses(s, n, start, last, reason, at);
    }
  }

  /** Of `n` failures in a row, 1 + n/12 are reported; below saturation the rest are counted as suppressed. */
  lemma {:induction false} EmittedPlusSuppressed(events: seq<Event>, s: Tracker, n: nat, start: Time, last: Time,
                                                 was: Reason)
    requires Incident(s, n, start, last, was)
    requires forall e :: e in events ==> e.Failure?
    ensures RunTracker(s, events).Ok?
    ensures var r := RunTracker(s, events).value;
            && |r.1| == (n + |events|) / 12 - n / 12
            && r.0.failures == Least(n + |events|, MAX_SAFE)
            && r.0.suppressed == Least(Suppressed(n + |events|), MAX_SAFE)
            && r.0.cadence == (n + |events|) % 12
    decreases |events|
  {
    hide RecordFailure, ValidDiagnostic;
    if events != [] {
      var e := events[0];
      FailureContinues(s, n, start, last, was, e.reason, e.at);
      EmittedPlusSuppressed(events[1..], RecordFailure(s, e.reason, e.at).value.state, n + 1, start, Later(Some(last), e.at), e.reason);
      assert (n + 1) / 12 == n / 12 + if (n + 1) % 12 == 0 then 1 else 0;
    }
  }

  /** A whole incident, from idle: emitted + suppressed = n, and emitted = 1 + n/12. */
  lemma {:induction false} IncidentAccounts(events: seq<Event>)
    requires events != [] && forall e :: e in events ==> e.Failure?
    ensures RunTracker(IDLE, events).Ok?
    ensures var r := RunTracker(IDLE, events).value;
            && |r.1| == 1 + |events| / 12
            && (|events| < MAX_SAFE ==> |r.1| + r.0.suppressed == |events| == r.0.failures)
  {
    hide RecordFailure;
    var e := events[0];
    FailureOpens(e.reason, e.at);
    EmittedPlusSuppressed(events[1..], RecordFailure(IDLE, e.reason, e.at).value.state, 1, e.at, e.at, e.reason);
  }

  // --------------------------------------- accepted and reachable states

  /** A state some run of failures and recoveries leaves the tracker in. */
  ghost predicate ReachedFromIdle(s: Tracker) {
    exists events: seq<Event> :: RunTracker(IDLE, events).Ok? && RunTracker(IDLE, events).value.0 == s
  }

  lemma {:induction false} RunAppend(s: Tracker, events: seq<Event>, e: Event)
    requires RunTracker(s, events).Ok?
    ensures RunTracker(s, events + [e]).Ok? <==> Reduce(RunTracker(s, events).value.0, e).Ok?
    ensures Reduce(RunTracker(s, events).value.0, e).Ok? ==>
              RunTracker(s, events + [e]).value.0 == Reduce(RunTracker(s, events).value.0, e).value.state
    decreases |events|
  {
    hide Reduce;
    if events == [] {
      assert RunTracker(s, [e]) == RunTracker(s, events + [e]);
    } else {
      assert (events + [e])[1..] == events[1..] + [e];
      RunAppend(Reduce(s, events[0]).value.state, events[1..], e);
    }
  }

  lemma {:induction false} Reach(n: nat, start: Time, last: Time, reason: Reason) returns (events: seq<Event>)
    requires n >= 1 && start <= last && (n == 1 ==> start == last)
    ensures RunTracker(IDLE, events).Ok? && Incident(RunTracker(IDLE, events).value.0, n, start, last, reason)
    decreases n
  {
    hide RecordFailure;
    if n == 1 {
      events := [Failure(reason, start)];
      FailureOpens(reason, start);
      RunAppend(IDLE, [], Failure(reason, start));
      assert [] + [Failure(reason, start)] == events;
    } else {
      var before := Reach(n - 1, start, if n == 2 then start else last, reason);
      RunAppend(IDLE, before, Failure(reason, last));
      FailureContinues(RunTracker(IDLE, before).value.0, n - 1, start, if n == 2 then start else last, reason, reason, last);
      events := before + [Failure(reason, last)];
    }
  }

  /**
   The state check admits one family of states no run reaches, a single failure
   observed after the incident it opened; apart from these it is exact.
   */
  lemma {:induction false} AcceptedIffReached(s: Tracker)
    ensures ReachedFromIdle(s) <==> Accepts(s) && (s.failures == 1 ==> s.lastAt == s.degradedAt)
  {
    hide RecordFailure, CoherentCounters, RunTracker;
    if s == IDLE {
      assert RunTracker(IDLE, []) == Ok((IDLE, [])) by { RunNothing(IDLE); }
    } else if Accepts(s) && (s.failures == 1 ==> s.lastAt == s.degradedAt) {
      CoherentIsReachable(s.failures, s.suppressed, s.cadence);
      var n := FailuresBehind(s.failures, s.suppressed, s.cadence);
      var events := Reach(n, s.degradedAt.value, s.lastAt.value, s.reason.value);
      IncidentUnique(s, RunTracker(IDLE, events).value.0, n, s.degradedAt.value, s.lastAt.value, s.reason.value);
    }
    if ReachedFromIdle(s) && s != IDLE {
      var events: seq<Event> :| RunTracker(IDLE, events).Ok? && RunTracker(IDLE, events).value.0 == s;
      RunNeverFails(IDLE, events);
      var n: nat, start: Time, last: Time, reason: Reason :|
        Incident(s, n, start, last, reason) && (n == 1 ==> start == last);
      ReachableIsCoherent(n, s.failures, s.suppressed, s.cadence);
    }
  }

  lemma {:induction false} RunNothing(s: Tracker)
    ensures RunTracker(s, []) == Ok((s, []))
  {
  }

  lemma {:induction false} IncidentUnique(a: Tracker, b: Tracker, n: nat, start: Time, last: Time, reason: Reason)
    requires Incident(a, n, start, last, reason) && Incident(b, n, start, last, reason)
    ensures a == b
  {
  }

  /** Such a state, accepted and out of reach. */
  lemma {:induction false} AcceptedButUnreachable()
    ensures Accepts(Tracker(Some(0), Some(5), 1, 0, 1, Some("UNKNOWN")))
    ensures !ReachedFromIdle(Tracker(Some(0), Some(5), 1, 0, 1, Some("UNKNOWN")))
  {
    hide RecordFailure;
    AcceptedIffReached(Tracker(Some(0), Some(5), 1, 0, 1, Some("UNKNOWN")));
  }
}
