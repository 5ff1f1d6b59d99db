/**
 The finality gate of the canary verdict: an automaton that pairs each reported
 degradation with its recovery, and what it says of the tracker's own reports.
 */
module FinalityPairing {
  import opened Prelude
  import opened FinalityDiagnostics

  datatype Verdict =
    | Healthy | NotRunning | Contradiction | OverlapMissing | Unpairable | AfterStop | IncidentOpen

  /** A log line: its event name says degraded or recovered, apart from the diagnostic's phase. */
  datatype Logged = Logged(event: Phase, diagnostic: Diagnostic)

  datatype Evidence = Evidence(running: bool, contradictions: nat, receiptViolations: nat, overlap: int,
                               diagnostics: seq<Logged>, stoppedAt: Time)

  predicate Opens(l: Logged, open: Option<Time>) {
    l.diagnostic.phase == Degraded && l.diagnostic.reason.Some? && open.None?
    && l.diagnostic.observedAt == l.diagnostic.degradedAt
  }

  predicate Closes(l: Logged, open: Option<Time>) {
    l.diagnostic.phase == Recovered && l.diagnostic.reason.None? && open == Some(l.diagnostic.degradedAt)
    && l.diagnostic.observedAt >= l.diagnostic.degradedAt
  }

  /** The verdict on the remaining log, given the open incident and the latest time seen. */
  function Pair(ls: seq<Logged>, open: Option<Time>, last: int, stop: Time): Verdict {
    if ls == [] then (if open.None? then Healthy else IncidentOpen)
    else
      var l := ls[0];
      if l.diagnostic.observedAt < last then Unpairable
      else if l.diagnostic.observedAt > stop then (if open.None? then AfterStop else IncidentOpen)
      else if l.event == Degraded then
        if !Opens(l, open) then Unpairable
        else Pair(ls[1..], Some(l.diagnostic.degradedAt), l.diagnostic.observedAt, stop)
      else
        if !Closes(l, open) then Unpairable
        else Pair(ls[1..], None, l.diagnostic.observedAt, stop)
  }

  predicate OtherChecksPass(e: Evidence) {
    e.running && e.contradictions == 0 && e.receiptViolations == 0 && e.overlap > 0
  }

  method EvaluateFinality(e: Evidence) returns (v: Verdict)
    ensures OtherChecksPass(e) ==> v == Pair(e.diagnostics, None, -1, e.stoppedAt)
    ensures v == Healthy <==> OtherChecksPass(e) && PairedTo(e.diagnostics, |e.diagnostics|, e.stoppedAt) && |e.diagnostics| % 2 == 0
    ensures !e.running <==> v == NotRunning
    ensures v == Contradiction <==> e.running && (e.contradictions > 0 || e.receiptViolations > 0)
    ensures v == OverlapMissing <==>
            e.running && e.contradictions == 0 && e.receiptViolations == 0 && e.overlap <= 0
  {
    PairMeans(e.diagnostics, e.stoppedAt);
    if !e.running { return NotRunning; }
    if e.contradictions > 0 || e.receiptViolations > 0 { return Contradiction; }
    if e.overlap <= 0 { return OverlapMissing; }
    var open: Option<Time> := None;
    var last: int := -1;
    for i := 0 to |e.diagnostics|
      invariant Pair(e.diagnostics[i..], open, last, e.stoppedAt) == Pair(e.diagnostics, None, -1, e.stoppedAt)
    {
      assert e.diagnostics[i..][1..] == e.diagnostics[i + 1..];
      var l := e.diagnostics[i];
      if l.diagnostic.observedAt < last { return Unpairable; }
      last := l.diagnostic.observedAt;
      if l.diagnostic.observedAt > e.stoppedAt {
        return if open.None? then AfterStop else IncidentOpen;
      }
      if l.event == Degraded {
        if l.diagnostic.phase != Degraded || l.diagnostic.reason.None? || open.Some?
           || l.diagnostic.observedAt != l.diagnostic.degradedAt {
          return Unpairable;
        }
        open := Some(l.diagnostic.degradedAt);
      } else {
        if l.diagnostic.phase != Recovered || l.diagnostic.reason.Some? || open != Some(l.diagnostic.degradedAt)
           || l.diagnostic.observedAt < l.diagnostic.degradedAt {
          return Unpairable;
        }
        open := None;
      }
    }
    return if open.None? then Healthy else IncidentOpen;
  }

  // ------------------------------------------------------- any log at all

  /** Not earlier than the entry before it. */
  predicate InOrder(ls: seq<Logged>, i: nat)
    requires i < |ls|
  {
    i > 0 ==> ls[i - 1].diagnostic.observedAt <= ls[i].diagnostic.observedAt
  }

  /** Entry `i` is, in turn, a degradation reported when it began, or the recovery from the one before it. */
  predicate WellPlaced(ls: seq<Logged>, i: nat, stop: Time)
    requires i < |ls|
  {
    var d := ls[i].diagnostic;
    && InOrder(ls, i) && d.observedAt <= stop
    && if i % 2 == 0 then
         ls[i].event == Degraded && d.phase == Degraded && d.reason.Some? && d.observedAt == d.degradedAt
       else
         ls[i].event == Recovered && d.phase == Recovered && d.reason.None?
         && d.degradedAt == ls[i - 1].diagnostic.degradedAt && d.observedAt >= d.degradedAt
  }

  /** The first `n` entries are well placed. */
  predicate PairedTo(ls: seq<Logged>, n: nat, stop: Time) {
    n <= |ls| && forall i: nat :: i < n ==> WellPlaced(ls, i, stop)
  }

  /** After `n` well placed entries the log ends, or goes on after the stop. */
  predicate StopsAt(ls: seq<Logged>, n: nat, stop: Time) {
    PairedTo(ls, n, stop) && (n == |ls| || (InOrder(ls, n) && ls[n].diagnostic.observedAt > stop))
  }

  function OpenAt(ls: seq<Logged>, i: nat): Option<Time>
    requires i <= |ls|
  {
    if i % 2 == 0 then None else Some(ls[i - 1].diagnostic.degradedAt)
  }

  function LastAt(ls: seq<Logged>, i: nat): int
    requires i <= |ls|
  {
    if i == 0 then -1 else ls[i - 1].diagnostic.observedAt
  }

  lemma {:induction false} PairedFrom(ls: seq<Logged>, i: nat, stop: Time)
    requires i <= |ls| && PairedTo(ls, i, stop)
    ensures var v := Pair(ls[i..], OpenAt(ls, i), LastAt(ls, i), stop);
            && (v == Unpairable <==> forall n: nat :: i <= n <= |ls| ==> !StopsAt(ls, n, stop))
            && forall n: nat :: i <= n <= |ls| && StopsAt(ls, n, stop) ==>
                 v == if n % 2 == 1 then IncidentOpen else if n == |ls| then Healthy else AfterStop
    decreases |ls| - i
  {
    hide PairedTo;
    if i == |ls| {
      assert ls[i..] == [];
      assert StopsAt(ls, i, stop);
    } else {
      assert ls[i..][0] == ls[i] && ls[i..][1..] == ls[i + 1..];
      if WellPlaced(ls, i, stop) {
        assert PairedTo(ls, i + 1, stop) by { PairedMore(ls, i, stop); }
        PairedFrom(ls, i + 1, stop);
        assert !StopsAt(ls, i, stop);
      } else {
        forall n: nat | i < n <= |ls| ensures !StopsAt(ls, n, stop) { NotFurther(ls, i, n, stop); }
        assert StopsAt(ls, i, stop) <==> InOrder(ls, i) && ls[i].diagnostic.observedAt > stop;
      }
    }
  }

  lemma {:induction false} PairedMore(ls: seq<Logged>, i: nat, stop: Time)
    requires i < |ls| && PairedTo(ls, i, stop) && WellPlaced(ls, i, stop)
    ensures PairedTo(ls, i + 1, stop)
  {
  }

  lemma {:induction false} NotFurther(ls: seq<Logged>, i: nat, n: nat, stop: Time)
    requires i < n <= |ls| && !WellPlaced(ls, i, stop)
    ensures !PairedTo(ls, n, stop)
  {
  }

  /**
   Any log at all: it is healthy if its entries are degradations and recoveries in
   turn, each recovery of the degradation before it, in order of time and before the
   stop.  It is read up to the first entry after the stop, and otherwise unpairable.
   */
  lemma {:induction false} PairMeans(ls: seq<Logged>, stop: Time)
    ensures var v := Pair(ls, None, -1, stop);
            && (v == Healthy <==> PairedTo(ls, |ls|, stop) && |ls| % 2 == 0)
            && (v == IncidentOpen <==> exists n: nat :: n <= |ls| && StopsAt(ls, n, stop) && n % 2 == 1)
            && (v == AfterStop <==> exists n: nat :: n < |ls| && StopsAt(ls, n, stop) && n % 2 == 0)
            && (v == Unpairable <==> forall n: nat :: n <= |ls| ==> !StopsAt(ls, n, stop))
  {
    PairedFrom(ls, 0, stop);
    hide Pair, StopsAt;
    assert ls[0..] == ls;
    StopsAtEnd(ls, stop);
  }

  lemma {:induction false} StopsAtEnd(ls: seq<Logged>, stop: Time)
    ensures StopsAt(ls, |ls|, stop) <==> PairedTo(ls, |ls|, stop)
  {
  }

  // -------------------------------------------- the tracker's own reports

  function Log(ds: seq<Diagnostic>): seq<Logged> {
    if ds == [] then [] else [Logged(ds[0].phase, ds[0])] + Log(ds[1..])
  }

  /** The clock never goes back and the process stops after the last event. */
  predicate Clocked(events: seq<Event>, stop: Time) {
    && (forall i :: 0 <= i < |events| ==> events[i].at <= stop)
    && forall i, j :: 0 <= i < j < |events| ==> events[i].at <= events[j].at
  }

  predicate FailuresFrom(events: seq<Event>, i: nat, n: nat) {
    i + n <= |events| && forall k :: i <= k < i + n ==> events[k].Failure?
  }

  /** Some incident reaches its twelfth failure. */
  ghost predicate LongIncident(events: seq<Event>) {
    exists i: nat :: FailuresFrom(events, i, 12)
  }

  predicate EndsFailing(events: seq<Event>, failing: bool) {
    if events == [] then failing else events[|events| - 1].Failure?
  }

  /** Within the remaining events an incident that already had `n` failures, or a later one, reaches twelve. */
  predicate GetsLong(events: seq<Event>, n: nat) {
    events != [] &&
    (if events[0].Failure? then n + 1 == 12 || GetsLong(events[1..], n + 1) else GetsLong(events[1..], 0))
  }

  lemma {:induction false} GetsLongMeans(events: seq<Event>, n: nat)
    requires n < 12
    ensures GetsLong(events, n) <==> LongIncident(events) || FailuresFrom(events, 0, 12 - n)
    decreases |events|
  {
    if events != [] {
      var rest := events[1..];
      var m := if events[0].Failure? then n + 1 else 0;
      if m < 12 { GetsLongMeans(rest, m); }
      assert forall i: nat, k: nat :: FailuresFrom(rest, i, k) <==> FailuresFrom(events, i + 1, k);
      if i: nat :| FailuresFrom(events, i, 12) {
        if i == 0 {
          assert events[0].Failure?;
          assert FailuresFrom(events, 0, 12 - n);
        } else {
          assert FailuresFrom(rest, i - 1, 12);
        }
      }
      if FailuresFrom(events, 0, 12 - n) {
        assert events[0].Failure?;
        assert m == 12 || FailuresFrom(rest, 0, 12 - m);
      }
      if m < 12 && FailuresFrom(rest, 0, 12 - m) {
        assert FailuresFrom(events, 1, 12 - m);
        assert m > 0 ==> FailuresFrom(events, 0, 12 - n);
        assert m == 0 ==> LongIncident(events);
      }
      if i: nat :| FailuresFrom(rest, i, 12) { assert FailuresFrom(events, i + 1, 12); }
    }
  }

  /** Event `j` opens an incident, given whether one was open before the first event. */
  predicate OpensAt(events: seq<Event>, open: bool, j: nat) {
    j < |events| && events[j].Failure? && if j == 0 then !open else events[j - 1].Recovery?
  }

  /** Event `i` belongs to an incident: a failure, or the recovery that ends one. */
  predicate InIncident(events: seq<Event>, open: bool, i: nat) {
    i < |events| && (events[i].Failure? || if i == 0 then open else events[i - 1].Failure?)
  }

  /** Event `j` is observed before `latest`, or before an event of an incident ahead of it. */
  ghost predicate Behind(events: seq<Event>, open: bool, latest: int, j: nat)
    requires j < |events|
  {
    events[j].at < latest || exists i: nat :: i < j && InIncident(events, open, i) && events[j].at < events[i].at
  }

  /** Some incident opens at an earlier time than one already observed in an incident before it. */
  ghost predicate OpensBehind(events: seq<Event>, open: bool, latest: int) {
    exists j: nat :: OpensAt(events, open, j) && Behind(events, open, latest, j)
  }

  function LatestAfter(e: Event, open: bool, latest: int): int {
    if e.Failure? || open then Max(latest, e.at) else latest
  }

  /** The same, one event at a time. */
  predicate StepsBack(events: seq<Event>, open: bool, latest: int) {
    events != [] &&
    ((events[0].Failure? && !open && events[0].at < latest)
     || StepsBack(events[1..], events[0].Failure?, LatestAfter(events[0], open, latest)))
  }

  lemma {:induction false} BehindTail(events: seq<Event>, open: bool, latest: int, j: nat)
    requires 0 < j < |events|
    ensures OpensAt(events, open, j) <==> OpensAt(events[1..], events[0].Failure?, j - 1)
    ensures Behind(events, open, latest, j) <==>
            Behind(events[1..], events[0].Failure?, LatestAfter(events[0], open, latest), j - 1)
  {
    var rest := events[1..];
    assert forall i: nat :: i < |rest| ==>
      rest[i] == events[i + 1] && (InIncident(rest, events[0].Failure?, i) <==> InIncident(events, open, i + 1));
    if i: nat :| i < j && InIncident(events, open, i) && events[j].at < events[i].at {
      if i > 0 { assert InIncident(rest, events[0].Failure?, i - 1) && rest[j - 1].at < rest[i - 1].at; }
    }
    if i: nat :| i < j - 1 && InIncident(rest, events[0].Failure?, i) && rest[j - 1].at < rest[i].at {
      assert InIncident(events, open, i + 1) && events[j].at < events[i + 1].at;
    }
    if InIncident(events, open, 0) && events[j].at < events[0].at { assert Behind(events, open, latest, j); }
  }

  lemma {:induction false} StepsBackMeans(events: seq<Event>, open: bool, latest: int)
    ensures StepsBack(events, open, latest) <==> OpensBehind(events, open, latest)
    decreases |events|
  {
    hide Behind, LatestAfter;
    if events != [] {
      var rest, after := events[1..], LatestAfter(events[0], open, latest);
      StepsBackMeans(rest, events[0].Failure?, after);
      forall j: nat | 0 < j < |events|
        ensures (OpensAt(events, open, j) && Behind(events, open, latest, j)) <==>
                (OpensAt(rest, events[0].Failure?, j - 1) && Behind(rest, events[0].Failure?, after, j - 1))
      {
        BehindTail(events, open, latest, j);
      }
      BehindFirst(events, open, latest);
      if j: nat :| OpensAt(events, open, j) && Behind(events, open, latest, j) {
        if j > 0 {
          assert OpensAt(rest, events[0].Failure?, j - 1) && Behind(rest, events[0].Failure?, after, j - 1);
        }
      }
      if j: nat :| OpensAt(rest, events[0].Failure?, j) && Behind(rest, events[0].Failure?, after, j) {
        assert OpensAt(rest, events[0].Failure?, j + 1 - 1);
        assert OpensAt(events, open, j + 1) && Behind(events, open, latest, j + 1);
      }
    }
  }

  lemma {:induction false} BehindFirst(events: seq<Event>, open: bool, latest: int)
    requires events != []
    ensures Behind(events, open, latest, 0) <==> events[0].at < latest
  {
  }

  /** One event's report goes before the others. */
  lemma {:induction false} ReportFirst(s: Tracker, events: seq<Event>, r: Reduction)
    requires events != [] && Reduce(s, events[0]) == Ok(r) && RunTracker(r.state, events[1..]).Ok?
    ensures RunTracker(s, events).Ok?
    ensures Log(RunTracker(s, events).value.1)
         == (if r.diagnostic.Some? then [Logged(r.diagnostic.value.phase, r.diagnostic.value)] else [])
            + Log(RunTracker(r.state, events[1..]).value.1)
  {
    hide Reduce;
    var ds := RunTracker(r.state, events[1..]).value.1;
    if r.diagnostic.Some? {
      assert ([r.diagnostic.value] + ds)[1..] == ds;
    } else {
      assert [] + ds == ds;
    }
  }

  lemma {:induction false} PairFirst(l: Logged, ls: seq<Logged>, open: Option<Time>, last: int, stop: Time)
    requires last <= l.diagnostic.observedAt <= stop
    requires if l.event == Degraded then Opens(l, open) else Closes(l, open)
    ensures Pair([l] + ls, open, last, stop)
         == Pair(ls, if l.event == Degraded then Some(l.diagnostic.degradedAt) else None, l.diagnostic.observedAt, stop)
  {
    assert ([l] + ls)[1..] == ls;
  }

  /** The tracker's reports from a state with `n` failures open, and what pairing makes of them. */
  lemma {:induction false} PairFrom(s: Tracker, n: nat, start: Time, last: Time, reason: Reason, events: seq<Event>,
                                    mark: int, stop: Time)
    requires if n == 0 then s == IDLE else n < 12 && Incident(s, n, start, last, reason)
    requires mark <= stop && (n > 0 ==> mark <= last <= stop)
    requires forall e :: e in events ==> e.at <= stop
    ensures RunTracker(s, events).Ok?
    ensures Pair(Log(RunTracker(s, events).value.1), if n == 0 then None else Some(start), mark, stop)
            == if GetsLong(events, n) || StepsBack(events, n > 0, if n == 0 then mark else last) then Unpairable
               else if EndsFailing(events, n > 0) then IncidentOpen else Healthy
    decreases |events|
  {
    hide RecordFailure, RecordRecovery, Incident, ValidDiagnostic, RunTracker, Log, Pair;
    if events == [] {
      PairNothing(s, if n == 0 then None else Some(start), mark, stop);
    } else {
      var e, rest := events[0], events[1..];
      var open := if n == 0 then None else Some(start);
      match e
      case Failure(next, at) =>
        if n == 0 && at < mark {
          EarlyStartUnpairable(events, mark, stop);
        } else if n == 0 {
          FailureOpens(next, at);
          var r := RecordFailure(s, next, at).value;
          PairFrom(r.state, 1, at, at, next, rest, at, stop);
          ReportFirst(s, events, r);
          PairFirst(Logged(Degraded, r.diagnostic.value), Log(RunTracker(r.state, rest).value.1), open, mark, stop);
        } else {
          FailureContinues(s, n, start, last, reason, next, at);
          if n + 1 < 12 {
            var r := RecordFailure(s, next, at).value;
            PairFrom(r.state, n + 1, start, Later(Some(last), at), next, rest, mark, stop);
            ReportFirst(s, events, r);
            assert [] + Log(RunTracker(r.state, rest).value.1) == Log(RunTracker(r.state, rest).value.1);
          } else {
            SummaryUnpairable(s, n, start, last, reason, events, mark, stop);
          }
        }
      case Recovery(at) =>
        if n == 0 {
          IdleRecovery(at);
          PairFrom(IDLE, 0, start, last, reason, rest, mark, stop);
          ReportFirst(s, events, Reduction(IDLE, None));
          assert [] + Log(RunTracker(IDLE, rest).value.1) == Log(RunTracker(IDLE, rest).value.1);
        } else {
          RecoveryCloses(s, n, start, last, reason, at);
          var r := RecordRecovery(s, at).value;
          ReasonOfValid(r.diagnostic.value);
          PairFrom(IDLE, 0, start, last, reason, rest, Later(Some(last), at), stop);
          ReportFirst(s, events, r);
          PairFirst(Logged(Recovered, r.diagnostic.value), Log(RunTracker(IDLE, rest).value.1), open, mark, stop);
        }
    }
  }

  lemma {:induction false} PairNothing(s: Tracker, open: Option<Time>, mark: int, stop: Time)
    ensures RunTracker(s, []).Ok?
    ensures Pair(Log(RunTracker(s, []).value.1), open, mark, stop) == if open.None? then Healthy else IncidentOpen
  {
  }

  lemma {:induction false} IdleRecovery(at: Time)
    ensures RecordRecovery(IDLE, at) == Ok(Reduction(IDLE, None))
  {
  }

  lemma {:induction false} ReasonOfValid(d: Diagnostic)
    requires ValidDiagnostic(d)
    ensures d.phase == Degraded <==> d.reason.Some?
    ensures d.observedAt >= d.degradedAt
  {
  }

  /** The twelfth failure's summary is a second degradation of an open incident. */
  lemma {:induction false} SummaryUnpairable(s: Tracker, n: nat, start: Time, last: Time, reason: Reason,
                                             events: seq<Event>, mark: int, stop: Time)
    requires n == 11 && Incident(s, n, start, last, reason) && events != [] && events[0].Failure?
    requires mark <= last <= stop && events[0].at <= stop
    ensures RunTracker(s, events).Ok?
    ensures Pair(Log(RunTracker(s, events).value.1), Some(start), mark, stop) == Unpairable
  {
    hide RecordFailure, RecordRecovery, Incident, ValidDiagnostic;
    var e := events[0];
    FailureContinues(s, n, start, last, reason, e.reason, e.at);
    assert Incident(RecordFailure(s, e.reason, e.at).value.state, n + 1, start, Later(Some(last), e.at), e.reason);
    RunNeverFails(RecordFailure(s, e.reason, e.at).value.state, events[1..]);
  }

  lemma {:induction false} EarlyStartUnpairable(events: seq<Event>, mark: int, stop: Time)
    requires events != [] && events[0].Failure? && events[0].at < mark
    ensures RunTracker(IDLE, events).Ok?
    ensures Pair(Log(RunTracker(IDLE, events).value.1), None, mark, stop) == Unpairable
  {
    hide RecordFailure, RecordRecovery, ValidDiagnostic, Incident;
    FailureOpens(events[0].reason, events[0].at);
    var s := RecordFailure(IDLE, events[0].reason, events[0].at).value.state;
    assert Incident(s, 1, events[0].at, events[0].at, events[0].reason);
    RunNeverFails(s, events[1..]);
  }

  /**
   Whatever the clock does before the process stops, the tracker's reports pair
   up exactly when every incident recovers before its twelfth failure and none
   opens at an earlier time than one observed in an incident before it.  A clock
   that steps back within an incident does no harm.  The reports are read as an
   open incident exactly when, besides, the last incident has not recovered.
   */
  lemma {:induction false} ReportsPairIff(events: seq<Event>, stop: Time)
    requires forall e :: e in events ==> e.at <= stop
    ensures RunTracker(IDLE, events).Ok?
    ensures Pair(Log(RunTracker(IDLE, events).value.1), None, -1, stop)
            == if LongIncident(events) || OpensBehind(events, false, -1) then Unpairable
               else if EndsFailing(events, false) then IncidentOpen else Healthy
  {
    PairFrom(IDLE, 0, 0, 0, "", events, -1, stop);
    GetsLongMeans(events, 0);
    StepsBackMeans(events, false, -1);
    if FailuresFrom(events, 0, 12) { assert LongIncident(events); }
  }

  /** Under a clock that never goes back only the long incidents remain. */
  lemma {:induction false} TrackerReportsPair(events: seq<Event>, stop: Time)
    requires Clocked(events, stop)
    ensures RunTracker(IDLE, events).Ok?
    ensures Pair(Log(RunTracker(IDLE, events).value.1), None, -1, stop)
            == if LongIncident(events) then Unpairable
               else if EndsFailing(events, false) then IncidentOpen else Healthy
  {
    hide Pair, RunTracker, LongIncident;
    ReportsPairIff(events, stop);
  }

  /** Two runs: a clock that steps back between two incidents spoils the pairing, within an incident it does not. */
  lemma {:induction false} ClockSteps(reason: Reason, early: Time, late: Time)
    requires early < late
    ensures var between := [Failure(reason, late), Recovery(late), Failure(reason, early), Recovery(late)];
            RunTracker(IDLE, between).Ok? && Pair(Log(RunTracker(IDLE, between).value.1), None, -1, late) == Unpairable
    ensures var within := [Failure(reason, late), Failure(reason, early), Recovery(early)];
            RunTracker(IDLE, within).Ok? && Pair(Log(RunTracker(IDLE, within).value.1), None, -1, late) == Healthy
  {
    hide Pair, RunTracker;
    var between := [Failure(reason, late), Recovery(late), Failure(reason, early), Recovery(late)];
    ReportsPairIff(between, late);
    assert OpensAt(between, false, 2) && InIncident(between, false, 0) && between[2].at < between[0].at;
    assert Behind(between, false, -1, 2);
    var within := [Failure(reason, late), Failure(reason, early), Recovery(early)];
    ReportsPairIff(within, late);
    BehindFirst(within, false, -1);
  }
}
