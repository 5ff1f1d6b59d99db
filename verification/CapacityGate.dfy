/**
 The capacity gate of the second canary: a verdict over samples of which some
 evidence may be missing, for any number of samples.
 */
module CapacityGate {
  import opened Prelude

  datatype Cell<T> = Missing | Malformed | Valid(value: T)

  /** Named gauges and counters; a counter may be null. */
  type Metrics = map<string, Option<nat>>

  datatype Budget = Budget(metrics: Metrics, closed: bool)

  datatype Sample = Sample(running: bool, membership: string, hydration: Cell<Metrics>, admission: Cell<Metrics>,
                           budget: Cell<Budget>, memory: Cell<Metrics>)

  /** The snapshots of the run, and the heartbeat after the stop. */
  datatype Evidence = Evidence(snapshots: seq<Sample>, stopped: Sample)

  datatype Verdict =
    | Fail(reason: FailReason)
    | Inconclusive(gap: Gap)
    | Pass

  datatype FailReason = EvidenceMalformed | MembershipChanged | NotDrained | LocallyRejected
  datatype Gap = EvidenceMissing | ResponseSizeUnproven

  const HYDRATION_COUNTERS: seq<string> :=
    ["locates", "hits", "misses", "inFlightJoins", "fetches", "forcedRefreshes", "evictions", "oversizeBypasses",
     "fetchFailures", "epochInvalidations", "sameGroupJoins", "maximumActiveGroups", "maximumQueuedGroups",
     "maximumInFlightFetches", "maximumQueuedFetches", "maximumUnsettledAfterCancel"]
  const ADMISSION_COUNTERS: seq<string> :=
    ["maximumPendingWorkers", "maximumPendingClassifierGroups", "maximumAdmitted", "worker.grants",
     "worker.cancellations", "worker.maximumWaitMs", "classifier.grants", "classifier.cancellations",
     "classifier.maximumWaitMs"]
  const BUDGET_COUNTERS: seq<string> := ["maximumStartsInWindow", "maximumQueuedWaiters", "localRejections"]
  const MEMORY_COUNTERS: seq<string> := ["maximumInFlightBytes", "oversizedResponses", "maximumRssBytes"]
  const HYDRATION_WORK: seq<string> :=
    ["activeGroups", "queuedGroups", "inFlightFetches", "queuedFetches", "unsettledAfterCancel", "retainedEntries", "retainedBytes"]
  const ADMISSION_WORK: seq<string> := ["pendingWorkers", "pendingClassifierGroups", "unboundReservations", "activeGroups"]
  const BUDGET_WORK: seq<string> := ["queuedWaiters"]
  const MEMORY_WORK: seq<string> := ["activeBodies", "inFlightBytes"]

  function Get(m: Metrics, name: string): Option<nat> {
    if name in m then m[name] else None
  }

  // ----------------------------------------------------------- regression

  function Values<T>(cells: seq<Cell<T>>): seq<T> {
    if cells == [] then []
    else Values(cells[..|cells| - 1]) + if cells[|cells| - 1].Valid? then [cells[|cells| - 1].value] else []
  }

  /** A later counter went down, or away. */
  predicate Drops(before: Option<nat>, after: Option<nat>) {
    before.Some? && (after.None? || after.value < before.value)
  }

  predicate Regresses<T>(values: seq<T>, field: T -> Option<nat>) {
    exists i :: 0 < i < |values| && Drops(field(values[i - 1]), field(values[i]))
  }

  function Field(name: string): Metrics -> Option<nat> {
    (m: Metrics) => Get(m, name)
  }

  function BudgetField(name: string): Budget -> Option<nat> {
    (b: Budget) => Get(b.metrics, name)
  }

  function ClosedField(b: Budget): Option<nat> {
    Some(if b.closed then 1 else 0)
  }

  predicate AnyRegresses(cells: seq<Cell<Metrics>>, names: seq<string>) {
    exists k :: 0 <= k < |names| && Regresses(Values(cells), Field(names[k]))
  }

  predicate BudgetRegresses(cells: seq<Cell<Budget>>) {
    (exists k :: 0 <= k < |BUDGET_COUNTERS| && Regresses(Values(cells), BudgetField(BUDGET_COUNTERS[k])))
    || Regresses(Values(cells), ClosedField)
  }

  // ------------------------------------------------------------- the gate

  function HydrationCells(ss: seq<Sample>): (cs: seq<Cell<Metrics>>)
    ensures |cs| == |ss| && forall i :: 0 <= i < |ss| ==> cs[i] == ss[i].hydration
  {
    seq(|ss|, i requires 0 <= i < |ss| => ss[i].hydration)
  }

  function AdmissionCells(ss: seq<Sample>): (cs: seq<Cell<Metrics>>)
    ensures |cs| == |ss| && forall i :: 0 <= i < |ss| ==> cs[i] == ss[i].admission
  {
    seq(|ss|, i requires 0 <= i < |ss| => ss[i].admission)
  }

  function BudgetCells(ss: seq<Sample>): (cs: seq<Cell<Budget>>)
    ensures |cs| == |ss| && forall i :: 0 <= i < |ss| ==> cs[i] == ss[i].budget
  {
    seq(|ss|, i requires 0 <= i < |ss| => ss[i].budget)
  }

  function MemoryCells(ss: seq<Sample>): (cs: seq<Cell<Metrics>>)
    ensures |cs| == |ss| && forall i :: 0 <= i < |ss| ==> cs[i] == ss[i].memory
  {
    seq(|ss|, i requires 0 <= i < |ss| => ss[i].memory)
  }

  predicate HasMalformed(s: Sample) {
    s.hydration.Malformed? || s.admission.Malformed? || s.budget.Malformed? || s.memory.Malformed?
  }

  predicate HasMissing(s: Sample) {
    s.hydration.Missing? || s.admission.Missing? || s.budget.Missing? || s.memory.Missing?
  }

  predicate Working(m: Metrics, names: seq<string>) {
    exists k :: 0 <= k < |names| && Get(m, names[k]) != Some(0)
  }

  predicate StillWorking(s: Sample) {
    || (s.hydration.Valid? && Working(s.hydration.value, HYDRATION_WORK))
    || (s.admission.Valid? && Working(s.admission.value, ADMISSION_WORK))
    || (s.budget.Valid? && (Working(s.budget.value.metrics, BUDGET_WORK) || !s.budget.value.closed))
    || (s.memory.Valid? && Working(s.memory.value, MEMORY_WORK))
  }

  predicate Positive(m: Metrics, name: string) {
    Get(m, name).Some? && Get(m, name).value > 0
  }

  function All(e: Evidence): seq<Sample> {
    e.snapshots + [e.stopped]
  }

  predicate WorkersWrong(s: Sample) {
    s.running && s.admission.Valid? && Get(s.admission.value, "registeredWorkers") != Some(1)
  }

  predicate Unsound(e: Evidence) {
    var ss := All(e);
    || (exists i :: 0 <= i < |ss| && HasMalformed(ss[i]))
    || AnyRegresses(HydrationCells(ss), HYDRATION_COUNTERS) || AnyRegresses(AdmissionCells(ss), ADMISSION_COUNTERS)
    || BudgetRegresses(BudgetCells(ss)) || AnyRegresses(MemoryCells(ss), MEMORY_COUNTERS)
    || exists i :: 0 <= i < |e.snapshots| && WorkersWrong(e.snapshots[i])
  }

  predicate Rejected(s: Sample) {
    s.budget.Valid? && Positive(s.budget.value.metrics, "localRejections")
  }

  predicate Oversized(s: Sample) {
    s.memory.Valid? && Positive(s.memory.value, "oversizedResponses")
  }

  function Capacity(e: Evidence): Verdict {
    var ss := All(e);
    if Unsound(e) then Fail(EvidenceMalformed)
    else if exists i :: 0 <= i < |ss| && ss[i].membership != ss[0].membership then Fail(MembershipChanged)
    else if StillWorking(e.stopped) then Fail(NotDrained)
    else if exists i :: 0 <= i < |ss| && Rejected(ss[i]) then Fail(LocallyRejected)
    else if exists i :: 0 <= i < |ss| && HasMissing(ss[i]) then Inconclusive(EvidenceMissing)
    else if exists i :: 0 <= i < |ss| && Oversized(ss[i]) then Inconclusive(ResponseSizeUnproven)
    else Pass
  }

  // --------------------------------------------- regression, end to end

  /** Null below every number. */
  predicate Leq(a: Option<nat>, b: Option<nat>) {
    a.None? || (b.Some? && a.value <= b.value)
  }

  /** Nothing later is below anything earlier. */
  predicate Chain<T>(values: seq<T>, field: T -> Option<nat>) {
    forall i, j :: 0 <= i < j < |values| ==> Leq(field(values[i]), field(values[j]))
  }

  /** Comparing neighbours is comparing all pairs: the null-bottom order is transitive. */
  lemma {:induction false} RegressesIffNotChain<T>(values: seq<T>, field: T -> Option<nat>)
    ensures Regresses(values, field) <==> !Chain(values, field)
    decreases |values|
  {
    if |values| > 1 {
      var n := |values| - 1;
      var init := values[..n];
      RegressesIffNotChain(init, field);
      if Chain(init, field) && !Drops(field(values[n - 1]), field(values[n])) {
        forall i, j | 0 <= i < j < |values| ensures Leq(field(values[i]), field(values[j])) {
          if j < n {
            assert init[i] == values[i] && init[j] == values[j];
          } else if i < n - 1 {
            assert Leq(field(init[i]), field(init[n - 1]));
          }
        }
        forall i | 0 < i < |values| ensures !Drops(field(values[i - 1]), field(values[i])) {}
      } else if !Chain(init, field) {
        var i :| 0 < i < |init| && Drops(field(init[i - 1]), field(init[i]));
        assert Drops(field(values[i - 1]), field(values[i]));
        assert !Leq(field(values[i - 1]), field(values[i]));
      } else {
        assert !Leq(field(values[n - 1]), field(values[n]));
      }
    }
  }

  // -------------------------------------------------- filling in evidence

  predicate CellFilled<T(==)>(a: Cell<T>, b: Cell<T>) {
    a.Missing? || a == b
  }

  predicate CellsFilled<T(==)>(a: seq<Cell<T>>, b: seq<Cell<T>>) {
    |a| == |b| && forall i :: 0 <= i < |a| ==> CellFilled(a[i], b[i])
  }

  predicate SampleFilled(a: Sample, b: Sample) {
    a.running == b.running && a.membership == b.membership && CellFilled(a.hydration, b.hydration)
    && CellFilled(a.admission, b.admission) && CellFilled(a.budget, b.budget) && CellFilled(a.memory, b.memory)
  }

  /** Every missing cell of `a` is something, anything, in `b`; the rest is the same. */
  predicate Filled(a: Evidence, b: Evidence) {
    |a.snapshots| == |b.snapshots| && SampleFilled(a.stopped, b.stopped)
    && forall i :: 0 <= i < |a.snapshots| ==> SampleFilled(a.snapshots[i], b.snapshots[i])
  }

  lemma {:induction false} ValuesKept<T>(a: seq<Cell<T>>, b: seq<Cell<T>>)
    requires CellsFilled(a, b)
    ensures forall v :: v in Values(a) ==> v in Values(b)
    decreases |a|
  {
    if a != [] {
      var n := |a| - 1;
      assert CellFilled(a[n], b[n]);
      forall i | 0 <= i < n ensures CellFilled(a[..n][i], b[..n][i]) { assert CellFilled(a[i], b[i]); }
      ValuesKept(a[..n], b[..n]);
    }
  }

  /** A chain with links removed is a chain. */
  lemma {:induction false} ChainKept<T>(a: seq<Cell<T>>, b: seq<Cell<T>>, field: T -> Option<nat>)
    requires CellsFilled(a, b) && Chain(Values(b), field)
    ensures Chain(Values(a), field)
    decreases |a|
  {
    if a != [] {
      var n := |a| - 1;
      var x, y := Values(a[..n]), Values(b[..n]);
      assert CellFilled(a[n], b[n]);
      forall i | 0 <= i < n ensures CellFilled(a[..n][i], b[..n][i]) { assert CellFilled(a[i], b[i]); }
      assert forall i :: 0 <= i < |y| ==> y[i] == Values(b)[i];
      ChainKept(a[..n], b[..n], field);
      ValuesKept(a[..n], b[..n]);
      if a[n].Valid? {
        forall i | 0 <= i < |x| ensures Leq(field(x[i]), field(a[n].value)) {
          assert x[i] in y;
          var j :| 0 <= j < |y| && y[j] == x[i];
          assert Values(b)[|y|] == a[n].value;
          assert Leq(field(Values(b)[j]), field(Values(b)[|y|]));
        }
      }
    }
  }

  /** Filling in missing samples cannot hide a regression. */
  lemma {:induction false} RegressionKept<T>(a: seq<Cell<T>>, b: seq<Cell<T>>, field: T -> Option<nat>)
    requires CellsFilled(a, b) && Regresses(Values(a), field)
    ensures Regresses(Values(b), field)
  {
    hide Regresses, Chain, CellsFilled;
    RegressesIffNotChain(Values(a), field);
    RegressesIffNotChain(Values(b), field);
    if Chain(Values(b), field) { ChainKept(a, b, field); }
  }

  lemma {:induction false} AnyRegressionKept(a: seq<Cell<Metrics>>, b: seq<Cell<Metrics>>, names: seq<string>)
    requires CellsFilled(a, b) && AnyRegresses(a, names)
    ensures AnyRegresses(b, names)
  {
    hide Regresses, CellsFilled;
    var k :| 0 <= k < |names| && Regresses(Values(a), Field(names[k]));
    RegressionKept(a, b, Field(names[k]));
  }

  lemma {:induction false} BudgetRegressionKept(a: seq<Cell<Budget>>, b: seq<Cell<Budget>>)
    requires CellsFilled(a, b) && BudgetRegresses(a)
    ensures BudgetRegresses(b)
  {
    hide Regresses, CellsFilled;
    if Regresses(Values(a), ClosedField) {
      RegressionKept(a, b, ClosedField);
    } else {
      var k :| 0 <= k < |BUDGET_COUNTERS| && Regresses(Values(a), BudgetField(BUDGET_COUNTERS[k]));
      RegressionKept(a, b, BudgetField(BUDGET_COUNTERS[k]));
    }
  }

  lemma {:induction false} AllFilled(a: Evidence, b: Evidence)
    requires Filled(a, b)
    ensures |All(a)| == |All(b)| && forall i :: 0 <= i < |All(a)| ==> SampleFilled(All(a)[i], All(b)[i])
  {
    hide SampleFilled;
    forall i | 0 <= i < |All(a)| ensures SampleFilled(All(a)[i], All(b)[i]) {
      if i < |a.snapshots| { assert SampleFilled(a.snapshots[i], b.snapshots[i]); }
    }
  }

  lemma {:induction false} ColumnsFilled(a: seq<Sample>, b: seq<Sample>)
    requires |a| == |b| && forall i :: 0 <= i < |a| ==> SampleFilled(a[i], b[i])
    ensures CellsFilled(HydrationCells(a), HydrationCells(b)) && CellsFilled(AdmissionCells(a), AdmissionCells(b))
    ensures CellsFilled(BudgetCells(a), BudgetCells(b)) && CellsFilled(MemoryCells(a), MemoryCells(b))
  {
    hide CellFilled, HydrationCells, AdmissionCells, BudgetCells, MemoryCells;
    forall i | 0 <= i < |a| ensures SampleFilled(a[i], b[i]) {}
  }

  lemma {:induction false} UnsoundKept(a: Evidence, b: Evidence)
    requires Filled(a, b) && Unsound(a)
    ensures Unsound(b)
  {
    hide AnyRegresses, BudgetRegresses, CellsFilled, HydrationCells, AdmissionCells, BudgetCells, MemoryCells;
    var x, y := All(a), All(b);
    AllFilled(a, b);
    ColumnsFilled(x, y);
    if AnyRegresses(HydrationCells(x), HYDRATION_COUNTERS) {
      AnyRegressionKept(HydrationCells(x), HydrationCells(y), HYDRATION_COUNTERS);
    } else if AnyRegresses(AdmissionCells(x), ADMISSION_COUNTERS) {
      AnyRegressionKept(AdmissionCells(x), AdmissionCells(y), ADMISSION_COUNTERS);
    } else if BudgetRegresses(BudgetCells(x)) {
      BudgetRegressionKept(BudgetCells(x), BudgetCells(y));
    } else if AnyRegresses(MemoryCells(x), MEMORY_COUNTERS) {
      AnyRegressionKept(MemoryCells(x), MemoryCells(y), MEMORY_COUNTERS);
    } else if exists i :: 0 <= i < |x| && HasMalformed(x[i]) {
      var i :| 0 <= i < |x| && HasMalformed(x[i]);
      assert SampleFilled(x[i], y[i]);
      assert HasMalformed(y[i]);
    } else {
      var i :| 0 <= i < |a.snapshots| && WorkersWrong(a.snapshots[i]);
      assert SampleFilled(a.snapshots[i], b.snapshots[i]);
      assert WorkersWrong(b.snapshots[i]);
    }
  }

  // ------------------------------------------------------------ theorems

  /** Evidence that is still missing cannot turn a failure around: however it is filled in, the gate still fails. */
  lemma {:induction false} FailureIsFinal(a: Evidence, b: Evidence)
    requires Filled(a, b) && Capacity(a).Fail?
    ensures Capacity(b).Fail?
  {
    hide Unsound, StillWorking, Rejected, HasMissing, Oversized;
    var x, y := All(a), All(b);
    AllFilled(a, b);
    if Unsound(a) {
      UnsoundKept(a, b);
    } else if exists i :: 0 <= i < |x| && x[i].membership != x[0].membership {
      var i :| 0 <= i < |x| && x[i].membership != x[0].membership;
      assert SampleFilled(x[i], y[i]) && SampleFilled(x[0], y[0]);
      assert y[i].membership != y[0].membership;
    } else if StillWorking(a.stopped) {
      WorkKept(a.stopped, b.stopped);
    } else {
      var i :| 0 <= i < |x| && Rejected(x[i]);
      assert SampleFilled(x[i], y[i]);
      RejectionKept(x[i], y[i]);
    }
  }

  lemma {:induction false} WorkKept(a: Sample, b: Sample)
    requires SampleFilled(a, b) && StillWorking(a)
    ensures StillWorking(b)
  {
    hide Working;
  }

  lemma {:induction false} RejectionKept(a: Sample, b: Sample)
    requires SampleFilled(a, b) && Rejected(a)
    ensures Rejected(b)
  {
  }

  predicate Complete(s: Sample) {
    s.hydration.Valid? && s.admission.Valid? && s.budget.Valid? && s.memory.Valid?
  }

  /** Each counter of a column of metrics never went down over the whole run. */
  ghost predicate Climbs(cells: seq<Cell<Metrics>>, names: seq<string>) {
    forall k :: 0 <= k < |names| ==> Chain(Values(cells), Field(names[k]))
  }

  lemma {:induction false} ClimbsIff(cells: seq<Cell<Metrics>>, names: seq<string>)
    ensures Climbs(cells, names) <==> !AnyRegresses(cells, names)
  {
    hide Chain, Regresses;
    forall k | 0 <= k < |names| ensures Chain(Values(cells), Field(names[k])) <==> !Regresses(Values(cells), Field(names[k])) {
      RegressesIffNotChain(Values(cells), Field(names[k]));
    }
  }

  /** The same of the budget, whose closing is also never undone. */
  ghost predicate BudgetClimbs(cells: seq<Cell<Budget>>) {
    (forall k :: 0 <= k < |BUDGET_COUNTERS| ==> Chain(Values(cells), BudgetField(BUDGET_COUNTERS[k])))
    && Chain(Values(cells), ClosedField)
  }

  lemma {:induction false} BudgetClimbsIff(cells: seq<Cell<Budget>>)
    ensures BudgetClimbs(cells) <==> !BudgetRegresses(cells)
  {
    hide Chain, Regresses;
    RegressesIffNotChain(Values(cells), ClosedField);
    forall k | 0 <= k < |BUDGET_COUNTERS|
      ensures Chain(Values(cells), BudgetField(BUDGET_COUNTERS[k])) <==> !Regresses(Values(cells), BudgetField(BUDGET_COUNTERS[k]))
    {
      RegressesIffNotChain(Values(cells), BudgetField(BUDGET_COUNTERS[k]));
    }
  }

  /** Nothing speaks against the sample by itself. */
  predicate Clean(s: Sample, membership: string) {
    Complete(s) && s.membership == membership && !Rejected(s) && !Oversized(s)
  }

  /**
   A pass means exactly: every cell of every sample present and valid, one
   membership, no rejection and no oversized response anywhere, every counter
   climbing from the first sample to the last, the right worker count while
   running, and nothing left at the stop.
   */
  lemma {:induction false} PassIff(e: Evidence)
    ensures var ss := All(e);
            Capacity(e).Pass? <==>
            && (forall i :: 0 <= i < |ss| ==> Clean(ss[i], ss[0].membership))
            && Climbs(HydrationCells(ss), HYDRATION_COUNTERS) && Climbs(AdmissionCells(ss), ADMISSION_COUNTERS)
            && Climbs(MemoryCells(ss), MEMORY_COUNTERS) && BudgetClimbs(BudgetCells(ss))
            && (forall i :: 0 <= i < |e.snapshots| ==> !WorkersWrong(e.snapshots[i]))
            && !StillWorking(e.stopped)
  {
    hide AnyRegresses, BudgetRegresses, Climbs, BudgetClimbs, HydrationCells, AdmissionCells, BudgetCells, MemoryCells, StillWorking,
         Rejected, Oversized, WorkersWrong;
    var ss := All(e);
    ClimbsIff(HydrationCells(ss), HYDRATION_COUNTERS);
    ClimbsIff(AdmissionCells(ss), ADMISSION_COUNTERS);
    ClimbsIff(MemoryCells(ss), MEMORY_COUNTERS);
    BudgetClimbsIff(BudgetCells(ss));
    forall i | 0 <= i < |ss| ensures Complete(ss[i]) <==> !HasMalformed(ss[i]) && !HasMissing(ss[i]) {}
    if forall i :: 0 <= i < |ss| ==> Clean(ss[i], ss[0].membership) {
      forall i | 0 <= i < |ss|
        ensures !HasMalformed(ss[i]) && !HasMissing(ss[i]) && !Rejected(ss[i]) && !Oversized(ss[i])
        ensures ss[i].membership == ss[0].membership
      {
        assert Clean(ss[i], ss[0].membership);
      }
    }
  }
}
