/**
 Finality reconciliation: any number of reconcilers poll a promoted provider and
 write to one durable inbox by compare-and-set.

 Every await of `runOnce` is an interleaving point, so a reconciler is a small
 program counter (`Pass`) and each event is one atomic step.  Provider answers
 are carried by the events and are arbitrary.  Each inbox row also keeps the log
 of the evidence written to it, which no operation reads.
 */
module Finality {
  import opened Prelude

  type Signature = string
  type Provider = string

  datatype Status = Processed | Confirmed | Finalized | Orphaned

  /** One write to a row's evidence; `pass` names the reconciliation pass that made it. */
  datatype Evidence = Missing(provider: Provider, pass: nat) | Seen(status: Status, pass: nat) | Reset

  /** `processing_status`, as far as finality reads it. */
  datatype Phase = Done | Pending | Busy

  datatype Row = Row(slot: nat, status: Status, phase: Phase, missing: nat, provider: Option<Provider>,
                     version: nat, processedAt: nat, log: seq<Evidence>)

  datatype Candidate = Candidate(signature: Signature, slot: nat, status: Status, missing: nat,
                                 provider: Option<Provider>, version: nat, processedAt: nat)

  /** The largest PostgreSQL BIGINT. */
  const MAX_VERSION: nat := 9223372036854775807
  const MAX_BLOCK_SLOTS_PER_RUN: nat := 16

  function ToCandidate(signature: Signature, row: Row): Candidate {
    Candidate(signature, row.slot, row.status, row.missing, row.provider, row.version, row.processedAt)
  }

  predicate Open(status: Status) {
    status == Processed || status == Confirmed
  }

  // ---------------------------------------------------------- repository

  /** The exact compare-and-set on the expected evidence. */
  predicate PollMatches(row: Row, c: Candidate) {
    row.phase == Done && Open(row.status) && row.missing == c.missing && row.provider == c.provider
    && row.version == c.version && row.version != MAX_VERSION
  }

  function NextMissing(missing: nat, last: Option<Provider>, observed: Option<Status>, provider: Provider): nat {
    if observed.Some? then 0 else if last == Some(provider) then missing + 1 else 1
  }

  /** The stronger of two open statuses. */
  function Stronger(current: Status, incoming: Status): Status {
    if current == Confirmed || incoming == Confirmed then Confirmed else Processed
  }

  function RecordPoll(row: Row, c: Candidate, observed: Option<Status>, provider: Provider, pass: nat): Option<Row>
    requires observed.Some? ==> Open(observed.value)
  {
    if !PollMatches(row, c) || NextMissing(row.missing, row.provider, observed, provider) > MAX_SAFE then None
    else Some(row.(status := if observed.Some? then Stronger(row.status, observed.value) else row.status,
                   missing := NextMissing(row.missing, row.provider, observed, provider),
                   provider := if observed.Some? then None else Some(provider),
                   version := row.version + 1,
                   log := row.log + [if observed.Some? then Seen(observed.value, pass) else Missing(provider, pass)]))
  }

  function Revised(row: Row, status: Status): Row {
    row.(status := status, phase := Pending, missing := 0, provider := None,
         version := if row.version < MAX_VERSION then row.version + 1 else row.version, log := row.log + [Reset])
  }

  /** A terminal row accepts the same revision again, without a write. */
  function Repeated(row: Row): Option<Row> {
    if row.phase == Busy then None else Some(row)
  }

  function EnqueueFinalized(row: Row): Option<Row> {
    if row.status == Orphaned then None
    else if row.status == Finalized then Repeated(row)
    else if row.phase != Done then None
    else Some(Revised(row, Finalized))
  }

  /** Orphaning compares status, counter, provider and version, all exactly. */
  function EnqueueOrphaned(row: Row, c: Candidate): Option<Row> {
    if row.status == Finalized then None
    else if row.status == Orphaned then Repeated(row)
    else if row.phase != Done || row.version == MAX_VERSION || row.status != c.status
            || row.missing != c.missing || row.provider != c.provider || row.version != c.version then None
    else Some(Revised(row, Orphaned))
  }

  /**
   What every other writer may do to a row: reset the evidence under the next
   version, or leave the evidence alone while the row is not processed.
   */
  predicate Rewritten(row: Row, row': Row) {
    && row'.slot == row.slot && (row'.status == Orphaned <==> row.status == Orphaned)
    && (row.status == Finalized ==> row'.status == Finalized)
    && (|| (row.version < MAX_VERSION && row'.version == row.version + 1 && row'.missing == 0 && row'.provider.None?
            && row'.log == row.log + [Reset])
        || (row.phase != Done && row'.version == row.version && row'.missing == row.missing
            && row'.provider == row.provider && row'.log == row.log))
  }

  predicate Fresh(row: Row) {
    row.phase == Pending && row.status != Orphaned && row.missing == 0 && row.provider.None? && row.version == 0
    && row.log == []
  }

  // ---------------------------------------------------- the reconciler's checks

  /** The update must be exactly the transition the observation calls for. */
  predicate PollTransition(before: Candidate, observed: Option<Status>, provider: Provider, after: Candidate) {
    && after.signature == before.signature && after.slot == before.slot && after.processedAt == before.processedAt
    && after.version == before.version + 1
    && if observed.None? then
         && NextMissing(before.missing, before.provider, observed, provider) <= MAX_SAFE
         && after.status == before.status
         && after.missing == NextMissing(before.missing, before.provider, observed, provider)
         && after.provider == Some(provider)
       else after.status == Stronger(before.status, observed.value) && after.missing == 0 && after.provider.None?
  }

  datatype History = History(slot: nat, status: Status)

  /** No contradiction between the provider's history, its root and the candidates. */
  predicate ConsistentHistory(candidates: seq<Candidate>, statuses: seq<Option<History>>, root: nat) {
    && |statuses| == |candidates|
    && forall i :: 0 <= i < |candidates| && statuses[i].Some? ==>
         && statuses[i].value.slot == candidates[i].slot && statuses[i].value.status != Orphaned
         && (statuses[i].value.status == Finalized ==> candidates[i].slot <= root)
  }

  // ------------------------------------------------------------ one pass

  datatype SlotGroup = SlotGroup(slot: nat, eligible: seq<Candidate>)

  /** The one provider a pass was opened on, and the finalized root that provider reported. */
  datatype Source = Source(pass: nat, provider: Provider, root: nat)

  datatype Pass =
    | Idle
    | Listed(candidates: seq<Candidate>)
    | Opened(candidates: seq<Candidate>, provider: Provider)
    | Polling(source: Source, candidates: seq<Candidate>, statuses: seq<Option<History>>, groups: seq<SlotGroup>)
    | Proving(source: Source, groups: seq<SlotGroup>, blocks: nat)
    | Orphaning(source: Source, groups: seq<SlotGroup>, blocks: nat, slot: nat, block: seq<Signature>,
                eligible: seq<Candidate>)

  /**
   A committed orphan revision: the block read, the slot it was read for, and the
   evidence the row held when the revision committed.
   */
  datatype OrphanRecord = OrphanRecord(signature: Signature, slot: nat, source: Source, blockSlot: nat,
                                       block: seq<Signature>, evidence: seq<Evidence>)

  /** A committed finalizing revision, with the provider's answer for the row. */
  datatype FinalRecord = FinalRecord(signature: Signature, slot: nat, source: Source, answer: History)

  datatype System = System(rows: map<Signature, Row>, passes: map<nat, Pass>, nextPass: nat,
                           orphans: seq<OrphanRecord>, finals: seq<FinalRecord>)

  datatype Event =
    | List(who: nat, signatures: seq<Signature>)
    | OpenPass(who: nat, provider: Provider)
    | Answer(who: nat, statuses: seq<Option<History>>, root: nat)
    | Poll(who: nat)
    | ReadBlock(who: nat, block: Option<seq<Signature>>)
    | Revise(who: nat)
    | Rewrite(signature: Signature, row: Row)
    | Insert(signature: Signature, row: Row)
    | Abandon(who: nat)

  function AddEligible(groups: seq<SlotGroup>, c: Candidate): seq<SlotGroup> {
    if groups == [] then [SlotGroup(c.slot, [c])]
    else if groups[0].slot == c.slot then [groups[0].(eligible := groups[0].eligible + [c])] + groups[1..]
    else [groups[0]] + AddEligible(groups[1..], c)
  }

  predicate Listable(rows: map<Signature, Row>, signatures: seq<Signature>) {
    forall i :: 0 <= i < |signatures| ==>
      signatures[i] in rows && rows[signatures[i]].phase == Done && Open(rows[signatures[i]].status)
  }

  function Candidates(rows: map<Signature, Row>, signatures: seq<Signature>): (cs: seq<Candidate>)
    requires Listable(rows, signatures)
    ensures |cs| == |signatures|
    ensures forall i :: 0 <= i < |cs| ==> cs[i] == ToCandidate(signatures[i], rows[signatures[i]])
  {
    seq(|signatures|, i requires 0 <= i < |signatures| && Listable(rows, signatures) =>
      ToCandidate(signatures[i], rows[signatures[i]]))
  }

  function PassOf(s: System, who: nat): Pass {
    if who in s.passes then s.passes[who] else Idle
  }

  function WithPass(s: System, who: nat, p: Pass): System {
    s.(passes := s.passes[who := p])
  }

  /** After the last candidate the pass goes on to prove its eligible slots. */
  function Advance(p: Pass, groups: seq<SlotGroup>): Pass
    requires p.Polling? && p.candidates != [] && p.statuses != []
  {
    if |p.candidates| > 1 && |p.statuses| > 1 then Polling(p.source, p.candidates[1..], p.statuses[1..], groups)
    else Proving(p.source, groups, 0)
  }

  predicate Eligible(polled: Candidate, source: Source, threshold: nat) {
    polled.missing >= threshold && polled.provider == Some(source.provider) && source.root > polled.slot
  }

  function PollStep(s: System, who: nat, p: Pass, threshold: nat): System
    requires p.Polling? && p.candidates != [] && p.statuses != []
  {
    var c := p.candidates[0];
    var status := p.statuses[0];
    if c.signature !in s.rows then WithPass(s, who, Idle)
    else if status.Some? && status.value.status == Finalized then
      var row := s.rows[c.signature];
      var row' := EnqueueFinalized(row);
      if row'.None? then WithPass(s, who, Idle)
      else
        var committed := FinalRecord(c.signature, row.slot, p.source, status.value);
        WithPass(s.(rows := s.rows[c.signature := row'.value],
                    finals := if row.status == Finalized then s.finals else s.finals + [committed]),
                 who, Advance(p, p.groups))
    else ObserveStep(s, who, p, if status.Some? then Some(status.value.status) else None, threshold)
  }

  function ObserveStep(s: System, who: nat, p: Pass, observed: Option<Status>, threshold: nat): System
    requires p.Polling? && p.candidates != [] && p.statuses != [] && p.candidates[0].signature in s.rows
  {
    var c := p.candidates[0];
    if observed.Some? && !Open(observed.value) then WithPass(s, who, Idle)
    else
      var row := RecordPoll(s.rows[c.signature], c, observed, p.source.provider, p.source.pass);
      if row.None? then WithPass(s, who, Idle)
      else
        var polled := ToCandidate(c.signature, row.value);
        var s1 := s.(rows := s.rows[c.signature := row.value]);
        if !PollTransition(c, observed, p.source.provider, polled) then WithPass(s1, who, Idle)
        else if observed.None? && Eligible(polled, p.source, threshold)
        then WithPass(s1, who, Advance(p, AddEligible(p.groups, polled)))
        else WithPass(s1, who, Advance(p, p.groups))
  }

  predicate Contradicted(eligible: seq<Candidate>, block: seq<Signature>) {
    exists i :: 0 <= i < |eligible| && eligible[i].signature in block
  }

  function BlockStep(s: System, who: nat, p: Pass, block: Option<seq<Signature>>): System
    requires p.Proving?
  {
    if p.groups == [] || p.blocks >= MAX_BLOCK_SLOTS_PER_RUN then WithPass(s, who, Idle)
    // An unreadable block leaves its slot undecided; the other slots go on.
    else if block.None? then WithPass(s, who, Proving(p.source, p.groups[1..], p.blocks + 1))
    else if Contradicted(p.groups[0].eligible, block.value) then WithPass(s, who, Idle)
    else WithPass(s, who, Orphaning(p.source, p.groups[1..], p.blocks + 1, p.groups[0].slot, block.value,
                                       p.groups[0].eligible))
  }

  function ReviseStep(s: System, who: nat, p: Pass): System
    requires p.Orphaning?
  {
    if p.eligible == [] then WithPass(s, who, Proving(p.source, p.groups, p.blocks))
    else
      var c := p.eligible[0];
      if c.signature !in s.rows || c.provider.None? then WithPass(s, who, Idle)
      else
        var row := s.rows[c.signature];
        var row' := EnqueueOrphaned(row, c);
        if row'.None? then WithPass(s, who, Idle)
        else
          var committed := OrphanRecord(c.signature, row.slot, p.source, p.slot, p.block, row.log);
          WithPass(s.(rows := s.rows[c.signature := row'.value],
                      orphans := if row.status == Orphaned then s.orphans else s.orphans + [committed]),
                   who, Orphaning(p.source, p.groups, p.blocks, p.slot, p.block, p.eligible[1..]))
  }

  function Step(s: System, e: Event, threshold: nat): System {
    match e
    case List(who, signatures) =>
      if PassOf(s, who).Idle? && signatures != [] && Listable(s.rows, signatures)
      then WithPass(s, who, Listed(Candidates(s.rows, signatures))) else s
    case OpenPass(who, provider) =>
      if PassOf(s, who).Listed? then WithPass(s, who, Opened(PassOf(s, who).candidates, provider)) else s
    case Answer(who, statuses, root) =>
      var p := PassOf(s, who);
      if !p.Opened? then s
      else if !ConsistentHistory(p.candidates, statuses, root) then WithPass(s, who, Idle)
      else if p.candidates == [] || statuses == [] then WithPass(s, who, Idle)
      else WithPass(s.(nextPass := s.nextPass + 1), who,
                    Polling(Source(s.nextPass, p.provider, root), p.candidates, statuses, []))
    case Poll(who) =>
      var p := PassOf(s, who);
      if !p.Polling? then s
      else if p.candidates == [] || p.statuses == [] then WithPass(s, who, Idle)
      else PollStep(s, who, p, threshold)
    case ReadBlock(who, block) => if PassOf(s, who).Proving? then BlockStep(s, who, PassOf(s, who), block) else s
    case Revise(who) => if PassOf(s, who).Orphaning? then ReviseStep(s, who, PassOf(s, who)) else s
    case Rewrite(signature, row) =>
      if signature in s.rows && Rewritten(s.rows[signature], row) then s.(rows := s.rows[signature := row]) else s
    case Insert(signature, row) =>
      if signature !in s.rows && Fresh(row) then s.(rows := s.rows[signature := row]) else s
    case Abandon(who) => WithPass(s, who, Idle)
  }

  function Run(s: System, events: seq<Event>, threshold: nat): System
    decreases |events|
  {
    if events == [] then s else Run(Step(s, events[0], threshold), events[1..], threshold)
  }
}
