/** The rows of the terminal attribution artifact: what a valid row is, and the key it sorts and groups by. */
module AttributionRows {
  import opened Prelude
  import opened Sorting
  import opened SortKeys

  datatype Outcome = Failed | Quarantined
  datatype FailureState = Terminal | RetryPending
  datatype Source = Worker | CatchUp
  datatype Surface = Instruction | CpiEvent
  datatype Location = Outer | Inner

  datatype CurrentFields = CurrentFields(
    status: Outcome, errorName: string, retryable: Option<bool>, failureState: FailureState,
    attempts: nat, attemptsInCycle: nat, reason: Option<string>)

  datatype Wire = Wire(surface: Surface, location: Location, discriminator: string, idlName: string,
                       total: nat, payload: nat, suffix: Option<nat>)

  /** Who failed, how often, and whether it will be tried again. */
  datatype Attempt = Attempt(source: Source, outcome: Outcome, cycleAttempt: Option<nat>, recoveries: Option<nat>,
                             retryable: Option<bool>, exhausted: Option<bool>)

  /** Where and why. */
  datatype Cause = Cause(stage: Option<string>, origin: Option<string>, code: string, causeKind: Option<string>,
                         reason: Option<string>, complete: bool)

  datatype Fields = Current(current: CurrentFields) | Diagnostic(attempt: Attempt, cause: Cause, wire: Option<Wire>)

  datatype Representative = Representative(signature: string, slot: nat, transaction: Option<nat>, status: string,
                                           instruction: Option<nat>, inner: Option<nat>)

  datatype Entry = Entry(fields: Fields, count: nat, representative: Option<Representative>)

  /** The closed vocabularies of the artifact; `observed` says of an observed error name whether its origin is unknown. */
  datatype Taxonomy = Taxonomy(observed: map<string, bool>, stages: set<string>, origins: set<string>, codes: set<string>,
                               qualification: set<string>, causeKinds: set<string>, reasons: set<string>, idlNames: set<string>)

  const CURRENT_ERROR_NAMES: set<string> := {"LEGACY_RPC_ERROR", "LEGACY_LEASE_EXPIRED", "LEGACY_OTHER", "UNAVAILABLE"}
  const CONFIRMATION_STATUSES: set<string> := {"processed", "confirmed", "finalized", "orphaned"}

  predicate Token(s: string) {
    s != "" && NUL !in s
  }

  predicate TokensOk(xs: set<string>) {
    forall x :: x in xs ==> Token(x)
  }

  predicate TaxonomyOk(t: Taxonomy) {
    TokensOk(t.observed.Keys) && TokensOk(t.stages) && TokensOk(t.origins) && TokensOk(t.codes)
    && TokensOk(t.causeKinds) && TokensOk(t.reasons) && TokensOk(t.idlNames)
  }

  // ------------------------------------------------------------- validity

  predicate SafeOption(n: Option<nat>) {
    n.Some? ==> n.value <= MAX_SAFE
  }

  predicate InOption(s: Option<string>, xs: set<string>) {
    s.Some? ==> s.value in xs
  }

  predicate ValidReason(t: Taxonomy, r: Option<string>) {
    r.Some? ==> r.value in t.reasons || r.value == "UNAVAILABLE"
  }

  predicate ValidCurrent(t: Taxonomy, c: CurrentFields) {
    && c.attempts <= MAX_SAFE && c.attemptsInCycle <= c.attempts && ValidReason(t, c.reason)
    && (c.errorName in CURRENT_ERROR_NAMES || c.errorName in t.observed)
    && if c.status == Failed then
         && c.retryable.Some? && (c.failureState == RetryPending ==> c.retryable.value) && c.errorName != "UNAVAILABLE"
         && (c.errorName in t.observed ==> c.retryable.value == t.observed[c.errorName])
       else
         && c.retryable.None? && c.failureState == Terminal && c.errorName == "UNAVAILABLE" && c.reason.Some?
         && c.attempts == 0 && c.attemptsInCycle == 0
  }

  predicate ValidWire(t: Taxonomy, w: Wire) {
    && w.idlName in t.idlNames && |w.discriminator| == 16
    && (forall i :: 0 <= i < 16 ==> '0' <= w.discriminator[i] <= '9' || 'a' <= w.discriminator[i] <= 'f')
    && w.total <= 1232 && w.payload <= 1232 && w.payload + (if w.surface == Instruction then 8 else 16) == w.total
    && (w.suffix.Some? ==> w.suffix.value <= w.payload)
  }

  predicate ValidRepresentative(r: Representative) {
    && 0 < |r.signature| <= 128
    && (forall i :: 0 <= i < |r.signature| ==> '1' <= r.signature[i] <= '9' || 'A' <= r.signature[i] <= 'Z' || 'a' <= r.signature[i] <= 'z')
    && r.slot <= MAX_SAFE && SafeOption(r.transaction) && SafeOption(r.instruction) && SafeOption(r.inner)
    && r.status in CONFIRMATION_STATUSES && (r.instruction.None? ==> r.inner.None?)
  }

  predicate ValidAttempt(a: Attempt, c: Cause) {
    && SafeOption(a.cycleAttempt) && SafeOption(a.recoveries)
    && if a.source == Worker then
         && a.outcome == Failed && a.cycleAttempt.Some? && a.recoveries.Some? && a.retryable.Some? && a.exhausted.Some?
         && c.causeKind.None? && c.reason.None?
       else
         && a.outcome == Quarantined && a.cycleAttempt.None? && a.recoveries.None? && a.retryable.None?
         && a.exhausted.None? && c.reason.Some?
  }

  predicate ValidCause(t: Taxonomy, c: Cause) {
    && (c.stage.Some? ==> c.stage.value in t.stages || c.stage.value == "unclassified")
    && InOption(c.origin, t.origins) && c.code in t.codes && InOption(c.causeKind, t.causeKinds) && ValidReason(t, c.reason)
  }

  /** Only a malformed Pump payload carries wire evidence, and then in full, with a representative at the same depth. */
  predicate ValidEvidence(t: Taxonomy, a: Attempt, c: Cause, wire: Option<Wire>, rep: Option<Representative>) {
    && (a.source == CatchUp && c.causeKind.None? ==>
          !c.complete && c.code == "UNAVAILABLE" && c.stage.None? && c.origin.None? && wire.None? && rep.None?)
    && (c.code in t.qualification ==>
          a.source == Worker && c.stage == Some("qualification") && wire.None? && rep.None?)
    && if c.code == "PUMP_BORSH_INVALID" then
         && (a.source == CatchUp ==> c.causeKind == Some("PUMP_DECODER"))
         && (c.origin.Some? ==> c.origin.value == "PUMP_BORSH_INVALID")
         && c.complete && wire.Some? && rep.Some? && rep.value.transaction.Some? && rep.value.instruction.Some?
         && (wire.value.location == Outer <==> rep.value.inner.None?)
       else wire.None? && rep.None?
  }

  predicate ValidEntry(t: Taxonomy, e: Entry) {
    && 0 < e.count <= MAX_SAFE
    && (e.representative.Some? ==> ValidRepresentative(e.representative.value))
    && match e.fields
       case Current(c) => ValidCurrent(t, c) && e.representative.None?
       case Diagnostic(a, c, w) =>
         && ValidAttempt(a, c) && ValidCause(t, c) && (w.Some? ==> ValidWire(t, w.value))
         && ValidEvidence(t, a, c, w, e.representative)
  }

  predicate Unavailable(f: Fields) {
    match f
    case Current(c) => c.errorName == "UNAVAILABLE" || c.errorName == "LEGACY_OTHER" || c.reason == Some("UNAVAILABLE")
    case Diagnostic(_, c, _) => !c.complete || c.code == "UNAVAILABLE"
  }

  // ----------------------------------------------------------------- keys

  function NullableInteger(n: Option<nat>): string {
    if n.None? then "" else SortableInteger(n.value)
  }

  function NullableBoolean(b: Option<bool>): string {
    if b.None? then "" else if b.value then "1" else "0"
  }

  function OrEmpty(s: Option<string>): string {
    if s.None? then "" else s.value
  }

  function OutcomeText(o: Outcome): string {
    if o == Failed then "FAILED" else "QUARANTINED"
  }

  function CurrentParts(c: CurrentFields): seq<string> {
    [OutcomeText(c.status), c.errorName, NullableBoolean(c.retryable),
     if c.failureState == Terminal then "TERMINAL" else "RETRY_PENDING",
     SortableInteger(c.attempts), SortableInteger(c.attemptsInCycle), OrEmpty(c.reason)]
  }

  function AttemptParts(a: Attempt): seq<string> {
    [if a.source == Worker then "WORKER" else "CATCH_UP", OutcomeText(a.outcome), NullableInteger(a.cycleAttempt),
     NullableInteger(a.recoveries), NullableBoolean(a.retryable), NullableBoolean(a.exhausted)]
  }

  function CauseParts(c: Cause): seq<string> {
    [OrEmpty(c.stage), OrEmpty(c.origin), c.code, OrEmpty(c.causeKind), OrEmpty(c.reason),
     if c.complete then "COMPLETE" else "UNAVAILABLE"]
  }

  /** The nested tuple, flattened: it is joined by the same separator. */
  function WireParts(w: Option<Wire>): seq<string> {
    if w.None? then [""]
    else
      var v := w.value;
      [if v.surface == Instruction then "INSTRUCTION" else "CPI_EVENT", if v.location == Outer then "OUTER" else "INNER",
       v.discriminator, v.idlName, SortableInteger(v.total), SortableInteger(v.payload), NullableInteger(v.suffix)]
  }

  function Parts(f: Fields): seq<string> {
    match f
    case Current(c) => CurrentParts(c)
    case Diagnostic(a, c, w) => AttemptParts(a) + CauseParts(c) + WireParts(w)
  }

  function Key(f: Fields): string {
    Join(Parts(f))
  }

  function RepresentativeParts(r: Representative): seq<string> {
    [r.signature, SortableInteger(r.slot), NullableInteger(r.transaction), r.status, NullableInteger(r.instruction),
     NullableInteger(r.inner)]
  }

  function RepresentativeKey(r: Representative): string {
    Join(RepresentativeParts(r))
  }

  // ------------------------------------------------- keys tell rows apart

  lemma {:induction false} IntegersApart(a: Option<nat>, b: Option<nat>)
    requires SafeOption(a) && SafeOption(b)
    ensures NUL !in NullableInteger(a) && NUL !in NullableInteger(b)
    ensures NullableInteger(a) == NullableInteger(b) ==> a == b
  {
    hide SortableInteger;
    if a.Some? { SortableToken(a.value); }
    if b.Some? { SortableToken(b.value); }
    if a.Some? && b.Some? { SortableOrder(a.value, b.value); }
  }

  lemma {:induction false} NumbersApart(a: nat, b: nat)
    requires a <= MAX_SAFE && b <= MAX_SAFE
    ensures NUL !in SortableInteger(a) && NUL !in SortableInteger(b)
    ensures SortableInteger(a) == SortableInteger(b) ==> a == b
  {
    hide SortableInteger;
    SortableToken(a);
    SortableToken(b);
    SortableOrder(a, b);
  }

  lemma {:induction false} BooleansApart(a: Option<bool>, b: Option<bool>)
    ensures NUL !in NullableBoolean(a)
    ensures NullableBoolean(a) == NullableBoolean(b) ==> a == b
  {
    assert "1"[0] != "0"[0];
  }

  lemma {:induction false} OptionsApart(a: Option<string>, b: Option<string>)
    requires (a.Some? ==> Token(a.value)) && (b.Some? ==> Token(b.value))
    ensures NUL !in OrEmpty(a) && NUL !in OrEmpty(b)
    ensures OrEmpty(a) == OrEmpty(b) ==> a == b
  {
  }

  lemma {:induction false} OutcomesApart(a: Outcome, b: Outcome)
    ensures Token(OutcomeText(a)) && (OutcomeText(a) == OutcomeText(b) ==> a == b)
  {
    assert |"FAILED"| == 6 && |"QUARANTINED"| == 11;
  }

  lemma {:induction false} ReasonToken(t: Taxonomy, r: Option<string>)
    requires TaxonomyOk(t) && ValidReason(t, r)
    ensures r.Some? ==> Token(r.value)
  {
  }

  lemma {:induction false} ErrorNameToken(t: Taxonomy, s: string)
    requires TaxonomyOk(t) && (s in CURRENT_ERROR_NAMES || s in t.observed)
    ensures Token(s)
  {
    if s !in t.observed {
      assert s == "LEGACY_RPC_ERROR" || s == "LEGACY_LEASE_EXPIRED" || s == "LEGACY_OTHER" || s == "UNAVAILABLE";
    }
  }

  lemma {:induction false} CurrentApart(t: Taxonomy, a: CurrentFields, b: CurrentFields)
    requires TaxonomyOk(t) && ValidCurrent(t, a) && ValidCurrent(t, b)
    ensures NoNul(CurrentParts(a)) && (CurrentParts(a) == CurrentParts(b) ==> a == b)
  {
    hide SortableInteger, OrEmpty, NullableBoolean, OutcomeText, TaxonomyOk;
    var x, y := CurrentParts(a), CurrentParts(b);
    OutcomesApart(a.status, b.status);
    ErrorNameToken(t, a.errorName);
    BooleansApart(a.retryable, b.retryable);
    NumbersApart(a.attempts, b.attempts);
    NumbersApart(a.attemptsInCycle, b.attemptsInCycle);
    ReasonToken(t, a.reason);
    ReasonToken(t, b.reason);
    OptionsApart(a.reason, b.reason);
    assert |"TERMINAL"| == 8 && |"RETRY_PENDING"| == 13;
    if x == y {
      assert x[0] == y[0] && x[1] == y[1] && x[2] == y[2] && x[3] == y[3] && x[4] == y[4] && x[5] == y[5] && x[6] == y[6];
    }
  }

  lemma {:induction false} AttemptApart(a: Attempt, b: Attempt)
    requires SafeOption(a.cycleAttempt) && SafeOption(a.recoveries) && SafeOption(b.cycleAttempt)
    requires SafeOption(b.recoveries)
    ensures NoNul(AttemptParts(a)) && (AttemptParts(a) == AttemptParts(b) ==> a == b)
  {
    hide NullableInteger, NullableBoolean, OutcomeText;
    var x, y := AttemptParts(a), AttemptParts(b);
    OutcomesApart(a.outcome, b.outcome);
    IntegersApart(a.cycleAttempt, b.cycleAttempt);
    IntegersApart(a.recoveries, b.recoveries);
    BooleansApart(a.retryable, b.retryable);
    BooleansApart(a.exhausted, b.exhausted);
    assert |"WORKER"| == 6 && |"CATCH_UP"| == 8;
    if x == y {
      assert x[0] == y[0] && x[1] == y[1] && x[2] == y[2] && x[3] == y[3] && x[4] == y[4] && x[5] == y[5];
    }
  }

  lemma {:induction false} CauseTokens(t: Taxonomy, c: Cause)
    requires TaxonomyOk(t) && ValidCause(t, c)
    ensures Token(c.code) && (c.stage.Some? ==> Token(c.stage.value)) && (c.origin.Some? ==> Token(c.origin.value))
    ensures (c.causeKind.Some? ==> Token(c.causeKind.value)) && (c.reason.Some? ==> Token(c.reason.value))
  {
  }

  lemma {:induction false} CauseApart(t: Taxonomy, a: Cause, b: Cause)
    requires TaxonomyOk(t) && ValidCause(t, a) && ValidCause(t, b)
    ensures NoNul(CauseParts(a)) && (CauseParts(a) == CauseParts(b) ==> a == b)
  {
    hide OrEmpty, TaxonomyOk, ValidCause;
    var x, y := CauseParts(a), CauseParts(b);
    CauseTokens(t, a);
    CauseTokens(t, b);
    OptionsApart(a.stage, b.stage);
    OptionsApart(a.origin, b.origin);
    OptionsApart(a.causeKind, b.causeKind);
    OptionsApart(a.reason, b.reason);
    assert |"COMPLETE"| == 8 && |"UNAVAILABLE"| == 11;
    if x == y {
      assert x[0] == y[0] && x[1] == y[1] && x[2] == y[2] && x[3] == y[3] && x[4] == y[4] && x[5] == y[5];
    }
  }

  predicate WireSafe(w: Wire) {
    NUL !in w.discriminator && NUL !in w.idlName && w.total <= MAX_SAFE && w.payload <= MAX_SAFE && SafeOption(w.suffix)
  }

  lemma {:induction false} WireIsSafe(t: Taxonomy, w: Wire)
    requires TaxonomyOk(t) && ValidWire(t, w)
    ensures WireSafe(w)
  {
  }

  lemma {:induction false} WireApart(a: Wire, b: Wire)
    requires WireSafe(a) && WireSafe(b)
    ensures NoNul(WireParts(Some(a))) && (WireParts(Some(a)) == WireParts(Some(b)) ==> a == b)
  {
    hide NullableInteger, SortableInteger;
    var x, y := WireParts(Some(a)), WireParts(Some(b));
    NumbersApart(a.total, b.total);
    NumbersApart(a.payload, b.payload);
    IntegersApart(a.suffix, b.suffix);
    assert |"INSTRUCTION"| == 11 && |"CPI_EVENT"| == 9 && "OUTER"[0] != "INNER"[0];
    if x == y {
      assert x[0] == y[0] && x[1] == y[1] && x[2] == y[2] && x[3] == y[3] && x[4] == y[4] && x[5] == y[5] && x[6] == y[6];
    }
  }

  /** Present and absent wire evidence give keys of different length. */
  lemma {:induction false} WiresApart(t: Taxonomy, a: Option<Wire>, b: Option<Wire>)
    requires TaxonomyOk(t) && (a.Some? ==> ValidWire(t, a.value)) && (b.Some? ==> ValidWire(t, b.value))
    ensures NoNul(WireParts(a)) && WireParts(a) != [] && (WireParts(a) == WireParts(b) ==> a == b)
  {
    hide TaxonomyOk, ValidWire, WireSafe;
    if a.Some? {
      WireIsSafe(t, a.value);
      WireApart(a.value, a.value);
    }
    if a.Some? && b.Some? {
      WireIsSafe(t, b.value);
      WireApart(a.value, b.value);
    }
    hide NullableInteger, SortableInteger;
    assert a.Some? <==> |WireParts(a)| == 7;
    assert b.Some? <==> |WireParts(b)| == 7;
  }

  predicate ValidFields(t: Taxonomy, f: Fields) {
    match f
    case Current(c) => ValidCurrent(t, c)
    case Diagnostic(a, c, w) =>
      SafeOption(a.cycleAttempt) && SafeOption(a.recoveries) && ValidCause(t, c) && (w.Some? ==> ValidWire(t, w.value))
  }

  lemma {:induction false} PartsApart(t: Taxonomy, f: Fields, g: Fields)
    requires TaxonomyOk(t) && ValidFields(t, f) && ValidFields(t, g) && f.Current? == g.Current?
    ensures NoNul(Parts(f)) && Parts(f) != [] && (Parts(f) == Parts(g) ==> f == g)
  {
    hide TaxonomyOk, ValidCause, ValidWire, ValidCurrent, CurrentParts, AttemptParts, CauseParts, WireParts;
    match f
    case Current(c) =>
      CurrentApart(t, c, g.current);
      CurrentLength(c);
    case Diagnostic(a, c, w) =>
      AttemptApart(a, g.attempt);
      CauseApart(t, c, g.cause);
      WiresApart(t, w, g.wire);
      SixEach(a, c);
      SixEach(g.attempt, g.cause);
      ConcatApart(AttemptParts(a), CauseParts(c), WireParts(w), AttemptParts(g.attempt), CauseParts(g.cause), WireParts(g.wire));
  }

  lemma {:induction false} CurrentLength(c: CurrentFields)
    ensures |CurrentParts(c)| == 7
  {
  }

  lemma {:induction false} SixEach(a: Attempt, c: Cause)
    ensures |AttemptParts(a)| == 6 && |CauseParts(c)| == 6
  {
  }

  lemma {:induction false} ConcatApart(a: seq<string>, b: seq<string>, c: seq<string>, x: seq<string>, y: seq<string>,
                                       z: seq<string>)
    requires |a| == |x| && |b| == |y|
    ensures a + b + c == x + y + z ==> a == x && b == y && c == z
    ensures NoNul(a) && NoNul(b) && NoNul(c) ==> NoNul(a + b + c)
  {
    if a + b + c == x + y + z {
      var s := a + b + c;
      assert a == s[..|a|] && x == s[..|a|];
      assert b == s[|a|..|a| + |b|] && y == s[|a|..|a| + |b|];
      assert c == s[|a| + |b|..] && z == s[|a| + |b|..];
    }
  }

  /** Rows of one section have the same key exactly when all their fields agree. */
  lemma {:induction false} KeysTellFields(t: Taxonomy, f: Fields, g: Fields)
    requires TaxonomyOk(t) && ValidFields(t, f) && ValidFields(t, g) && f.Current? == g.Current?
    ensures Key(f) == Key(g) <==> f == g
  {
    hide Parts, Join, TaxonomyOk, ValidFields;
    PartsApart(t, f, g);
    PartsApart(t, g, f);
    if Key(f) == Key(g) { JoinInjective(Parts(f), Parts(g)); }
  }

  predicate RepresentativeSafe(r: Representative) {
    NUL !in r.signature && NUL !in r.status && r.slot <= MAX_SAFE && SafeOption(r.transaction) && SafeOption(r.instruction)
    && SafeOption(r.inner)
  }

  lemma {:induction false} RepresentativeIsSafe(r: Representative)
    requires ValidRepresentative(r)
    ensures RepresentativeSafe(r)
  {
    assert r.status == "processed" || r.status == "confirmed" || r.status == "finalized" || r.status == "orphaned";
  }

  /** And representatives have the same key exactly when they are the same. */
  lemma {:induction false} KeysTellRepresentatives(a: Representative, b: Representative)
    requires ValidRepresentative(a) && ValidRepresentative(b)
    ensures RepresentativeKey(a) == RepresentativeKey(b) <==> a == b
  {
    hide NullableInteger, SortableInteger, Join, ValidRepresentative;
    RepresentativeIsSafe(a);
    RepresentativeIsSafe(b);
    var x, y := RepresentativeParts(a), RepresentativeParts(b);
    NumbersApart(a.slot, b.slot);
    IntegersApart(a.transaction, b.transaction);
    IntegersApart(a.instruction, b.instruction);
    IntegersApart(a.inner, b.inner);
    if Join(x) == Join(y) {
      JoinInjective(x, y);
      assert x[0] == y[0] && x[1] == y[1] && x[2] == y[2] && x[3] == y[3] && x[4] == y[4] && x[5] == y[5];
    }
  }
}
