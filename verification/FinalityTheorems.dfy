/**
 What holds in every reachable state of the finality protocol, whatever the
 providers answer, however the reconcilers interleave and whoever else writes.
 */
module FinalityTheorems {
  import opened Prelude
  import opened Finality

  // ------------------------------------------------------------ evidence

  predicate MissingFrom(e: Evidence, provider: Provider) {
    e.Missing? && e.provider == provider
  }

  /** The last `k` writes all report the transaction missing at `provider`. */
  predicate RunOf(log: seq<Evidence>, k: nat, provider: Provider) {
    k <= |log| && forall i :: |log| - k <= i < |log| ==> MissingFrom(log[i], provider)
  }

  /** The stored counter and provider are the longest such run that ends the log. */
  predicate CountsRun(log: seq<Evidence>, missing: nat, provider: Option<Provider>) {
    if provider.None? then missing == 0 && (log == [] || !log[|log| - 1].Missing?)
    else
      && missing > 0 && RunOf(log, missing, provider.value)
      && (missing == |log| || !MissingFrom(log[|log| - missing - 1], provider.value))
  }

  predicate RowOk(row: Row) {
    && CountsRun(row.log, row.missing, row.provider)
    && row.version <= |row.log| && row.version <= MAX_VERSION
    && (Open(row.status) ==> row.version == |row.log|)
  }

  /** How any write moves a row. */
  predicate Follows(row: Row, row': Row) {
    && row'.slot == row.slot && row.log <= row'.log && row.version <= row'.version
    && (row.status == Orphaned ==> row'.status == Orphaned)
    && (row.status == Finalized ==> row'.status == Finalized)
    && (row'.version == row.version < MAX_VERSION && row.phase == Done ==> row' == row)
  }

  /** A candidate read earlier still describes the prefix of the log at its version. */
  predicate Held(row: Row, c: Candidate) {
    && c.slot == row.slot && c.version <= row.version && c.version <= |row.log|
    && CountsRun(row.log[..c.version], c.missing, c.provider)
    && (c.version == row.version < MAX_VERSION ==>
          row.phase == Done && Open(row.status) && c == ToCandidate(c.signature, row))
  }

  lemma {:induction false} HeldStable(row: Row, row': Row, c: Candidate)
    requires Held(row, c) && Follows(row, row')
    ensures Held(row', c)
  {
    hide CountsRun;
    assert row'.log[..c.version] == row.log[..c.version];
  }

  /** The evidence an orphan revision needs, gathered by the pass itself. */
  predicate Proved(row: Row, c: Candidate, source: Source, threshold: nat) {
    && Held(row, c) && Eligible(c, source, threshold)
    && c.version > 0 && row.log[c.version - 1] == Missing(source.provider, source.pass)
  }

  lemma {:induction false} ProvedStable(row: Row, row': Row, c: Candidate, source: Source, threshold: nat)
    requires Proved(row, c, source, threshold) && Follows(row, row')
    ensures Proved(row', c, source, threshold)
  {
    hide Held;
    HeldStable(row, row', c);
    assert c.version <= |row.log| by { HeldFacts(row, c); }
  }

  lemma {:induction false} HeldFacts(row: Row, c: Candidate)
    requires Held(row, c)
    ensures c.version <= |row.log| && c.slot == row.slot
  {
  }

  // --------------------------------------------------- writes, one by one

  lemma {:induction false} CountsAppend(log: seq<Evidence>, missing: nat, last: Option<Provider>, provider: Provider,
                                        pass: nat)
    requires CountsRun(log, missing, last)
    ensures CountsRun(log + [Missing(provider, pass)], NextMissing(missing, last, None, provider), Some(provider))
  {
    var log', n := log + [Missing(provider, pass)], NextMissing(missing, last, None, provider);
    assert forall i :: 0 <= i < |log| ==> log'[i] == log[i];
  }

  lemma {:induction false} RecordPollFollows(row: Row, c: Candidate, observed: Option<Status>, provider: Provider,
                                             pass: nat)
    requires RowOk(row) && (observed.Some? ==> Open(observed.value))
    requires RecordPoll(row, c, observed, provider, pass).Some?
    ensures RowOk(RecordPoll(row, c, observed, provider, pass).value)
    ensures Follows(row, RecordPoll(row, c, observed, provider, pass).value)
  {
    var row' := RecordPoll(row, c, observed, provider, pass).value;
    if observed.None? {
      CountsAppend(row.log, row.missing, row.provider, provider, pass);
    }
  }

  /** The candidate a successful poll returns describes the row it wrote. */
  lemma {:induction false} PolledHeld(row: Row, c: Candidate, observed: Option<Status>, provider: Provider, pass: nat)
    requires RowOk(row) && (observed.Some? ==> Open(observed.value))
    requires RecordPoll(row, c, observed, provider, pass).Some?
    ensures Held(RecordPoll(row, c, observed, provider, pass).value,
                 ToCandidate(c.signature, RecordPoll(row, c, observed, provider, pass).value))
  {
    var row' := RecordPoll(row, c, observed, provider, pass).value;
    RecordPollFollows(row, c, observed, provider, pass);
    assert row'.log[..row'.version] == row'.log;
  }

  lemma {:induction false} RevisedFollows(row: Row, status: Status)
    requires RowOk(row) && Open(row.status) && row.phase == Done && (status == Finalized || status == Orphaned)
    ensures RowOk(Revised(row, status)) && Follows(row, Revised(row, status))
  {
  }

  lemma {:induction false} RewrittenFollows(row: Row, row': Row)
    requires RowOk(row) && Rewritten(row, row')
    ensures RowOk(row') && Follows(row, row')
  {
  }

  lemma {:induction false} ListedHeld(signature: Signature, row: Row)
    requires RowOk(row) && row.phase == Done && Open(row.status)
    ensures Held(row, ToCandidate(signature, row))
  {
    assert row.log[..row.version] == row.log;
  }

  /**
   The compare-and-set admits exactly the transition the reconciler then checks:
   a poll that commits is never rejected afterwards.
   */
  lemma {:induction false} CommittedPollAccepted(row: Row, c: Candidate, observed: Option<Status>, provider: Provider,
                                                 pass: nat)
    requires RowOk(row) && Held(row, c) && (observed.Some? ==> Open(observed.value))
    requires RecordPoll(row, c, observed, provider, pass).Some?
    ensures PollTransition(c, observed, provider, ToCandidate(c.signature, RecordPoll(row, c, observed, provider, pass).value))
  {
    hide CountsRun;
  }

  /** A poll commits exactly when nobody has written the row since the candidate was read, and no counter is exhausted. */
  lemma {:induction false} PollCommitsIffUntouched(row: Row, c: Candidate, observed: Option<Status>,
                                                   provider: Provider, pass: nat)
    requires RowOk(row) && Held(row, c) && (observed.Some? ==> Open(observed.value))
    ensures RecordPoll(row, c, observed, provider, pass).Some? <==>
            row.version == c.version < MAX_VERSION && NextMissing(c.missing, c.provider, observed, provider) <= MAX_SAFE
  {
    hide CountsRun;
  }

  /** So does an orphan revision. */
  lemma {:induction false} RevisionCommitsIffUntouched(row: Row, c: Candidate)
    requires RowOk(row) && Held(row, c) && row.status != Orphaned
    ensures EnqueueOrphaned(row, c).Some? <==> row.version == c.version < MAX_VERSION
  {
    hide CountsRun;
  }

  /** A terminal row takes its own revision again, unchanged, unless it is being processed, and never the opposite one. */
  lemma {:induction false} TerminalRepeats(row: Row, c: Candidate)
    requires !Open(row.status)
    ensures EnqueueOrphaned(row, c) == (if row.status == Orphaned && row.phase != Busy then Some(row) else None)
    ensures EnqueueFinalized(row) == (if row.status == Finalized && row.phase != Busy then Some(row) else None)
  {
  }

  // ----------------------------------------------------------- invariant

  predicate HeldIn(rows: map<Signature, Row>, c: Candidate) {
    c.signature in rows && Held(rows[c.signature], c)
  }

  predicate ProvedIn(rows: map<Signature, Row>, c: Candidate, source: Source, threshold: nat) {
    c.signature in rows && Proved(rows[c.signature], c, source, threshold)
  }

  ghost predicate AllHeld(rows: map<Signature, Row>, cs: seq<Candidate>) {
    forall c :: c in cs ==> HeldIn(rows, c)
  }

  ghost predicate AllProved(rows: map<Signature, Row>, cs: seq<Candidate>, source: Source, threshold: nat) {
    forall c :: c in cs ==> ProvedIn(rows, c, source, threshold)
  }

  ghost predicate GroupsProved(rows: map<Signature, Row>, groups: seq<SlotGroup>, source: Source, threshold: nat) {
    forall g :: g in groups ==> AllProved(rows, g.eligible, source, threshold) && AllAt(g.eligible, g.slot)
  }

  predicate AllAt(cs: seq<Candidate>, slot: nat) {
    forall c :: c in cs ==> c.slot == slot
  }

  predicate NoneIn(cs: seq<Candidate>, block: seq<Signature>) {
    forall c :: c in cs ==> c.signature !in block
  }

  ghost predicate PassOk(rows: map<Signature, Row>, p: Pass, threshold: nat) {
    match p
    case Idle => true
    case Listed(cs) => AllHeld(rows, cs)
    case Opened(cs, _) => AllHeld(rows, cs)
    case Polling(source, cs, statuses, groups) =>
      && AllHeld(rows, cs) && ConsistentHistory(cs, statuses, source.root) && GroupsProved(rows, groups, source, threshold)
    case Proving(source, groups, _) => GroupsProved(rows, groups, source, threshold)
    case Orphaning(source, groups, _, slot, block, eligible) =>
      && GroupsProved(rows, groups, source, threshold) && AllProved(rows, eligible, source, threshold)
      && NoneIn(eligible, block) && AllAt(eligible, slot)
  }

  /**
   The proof behind an orphan revision: `threshold` consecutive missing polls at
   the pass's provider, the last of them made by this very pass and still the
   newest write; a finalized root past the slot; the block of that slot, without
   the signature.
   */
  predicate Justified(o: OrphanRecord, threshold: nat) {
    && RunOf(o.evidence, threshold, o.source.provider)
    && o.evidence != [] && o.evidence[|o.evidence| - 1] == Missing(o.source.provider, o.source.pass)
    && o.source.root > o.slot
    && o.blockSlot == o.slot && o.signature !in o.block
  }

  predicate Recorded(rows: map<Signature, Row>, o: OrphanRecord) {
    o.signature in rows && rows[o.signature].status == Orphaned && rows[o.signature].slot == o.slot
    && o.evidence < rows[o.signature].log
  }

  ghost predicate OrphansOk(rows: map<Signature, Row>, orphans: seq<OrphanRecord>, threshold: nat) {
    && (forall o :: o in orphans ==> Justified(o, threshold) && Recorded(rows, o))
    && forall i, j :: 0 <= i < j < |orphans| ==> orphans[i].signature != orphans[j].signature
  }

  /** The answer behind a finalizing revision: finalized, at the row's own slot, not above the pass's root. */
  predicate Answered(f: FinalRecord) {
    f.answer == History(f.slot, Finalized) && f.slot <= f.source.root
  }

  predicate Settled(rows: map<Signature, Row>, f: FinalRecord) {
    f.signature in rows && rows[f.signature].status == Finalized && rows[f.signature].slot == f.slot
  }

  ghost predicate FinalsOk(rows: map<Signature, Row>, finals: seq<FinalRecord>) {
    && (forall f :: f in finals ==> Answered(f) && Settled(rows, f))
    && forall i, j :: 0 <= i < j < |finals| ==> finals[i].signature != finals[j].signature
  }

  ghost predicate RowsOk(rows: map<Signature, Row>) {
    forall k :: k in rows ==> RowOk(rows[k])
  }

  ghost predicate PassesOk(s: System, threshold: nat) {
    forall who :: who in s.passes ==> PassOk(s.rows, s.passes[who], threshold)
  }

  ghost predicate SourcesOk(s: System) {
    && (forall who :: who in s.passes && HasSource(s.passes[who]) ==> s.passes[who].source.pass < s.nextPass)
    && forall a, b :: a in s.passes && b in s.passes && a != b && HasSource(s.passes[a]) && HasSource(s.passes[b]) ==>
                        s.passes[a].source.pass != s.passes[b].source.pass
  }

  predicate HasSource(p: Pass) {
    p.Polling? || p.Proving? || p.Orphaning?
  }

  ghost predicate Inv(s: System, threshold: nat) {
    && RowsOk(s.rows) && PassesOk(s, threshold) && SourcesOk(s)
    && OrphansOk(s.rows, s.orphans, threshold) && FinalsOk(s.rows, s.finals)
  }

  // -------------------------------------------- a write to one row keeps it

  ghost predicate RowsFollow(rows: map<Signature, Row>, rows': map<Signature, Row>) {
    forall k :: k in rows ==> k in rows' && Follows(rows[k], rows'[k])
  }

  lemma {:induction false} AllProvedStable(rows: map<Signature, Row>, rows': map<Signature, Row>, cs: seq<Candidate>,
                                           source: Source, threshold: nat)
    requires RowsFollow(rows, rows') && AllProved(rows, cs, source, threshold)
    ensures AllProved(rows', cs, source, threshold)
  {
    hide Proved, Follows;
    forall c | c in cs ensures ProvedIn(rows', c, source, threshold) {
      assert ProvedIn(rows, c, source, threshold);
      ProvedStable(rows[c.signature], rows'[c.signature], c, source, threshold);
    }
  }

  lemma {:induction false} AllHeldStable(rows: map<Signature, Row>, rows': map<Signature, Row>, cs: seq<Candidate>)
    requires RowsFollow(rows, rows') && AllHeld(rows, cs)
    ensures AllHeld(rows', cs)
  {
    hide Held, Follows;
    forall c | c in cs ensures HeldIn(rows', c) {
      assert HeldIn(rows, c);
      HeldStable(rows[c.signature], rows'[c.signature], c);
    }
  }

  lemma {:induction false} GroupsProvedStable(rows: map<Signature, Row>, rows': map<Signature, Row>,
                                              groups: seq<SlotGroup>, source: Source, threshold: nat)
    requires RowsFollow(rows, rows') && GroupsProved(rows, groups, source, threshold)
    ensures GroupsProved(rows', groups, source, threshold)
  {
    hide AllProved, RowsFollow;
    forall g | g in groups ensures AllProved(rows', g.eligible, source, threshold) && AllAt(g.eligible, g.slot) {
      AllProvedStable(rows, rows', g.eligible, source, threshold);
    }
  }

  lemma {:induction false} PassStable(rows: map<Signature, Row>, rows': map<Signature, Row>, p: Pass, threshold: nat)
    requires RowsFollow(rows, rows') && PassOk(rows, p, threshold)
    ensures PassOk(rows', p, threshold)
  {
    hide AllProved, RowsFollow, GroupsProved, AllHeld, NoneIn, AllAt, ConsistentHistory;
    match p
    case Idle =>
    case Listed(cs) => AllHeldStable(rows, rows', cs);
    case Opened(cs, _) => AllHeldStable(rows, rows', cs);
    case Polling(source, cs, _, groups) =>
      AllHeldStable(rows, rows', cs);
      GroupsProvedStable(rows, rows', groups, source, threshold);
    case Proving(source, groups, _) => GroupsProvedStable(rows, rows', groups, source, threshold);
    case Orphaning(source, groups, _, _, _, eligible) =>
      GroupsProvedStable(rows, rows', groups, source, threshold);
      AllProvedStable(rows, rows', eligible, source, threshold);
  }

  lemma {:induction false} OrphansStable(rows: map<Signature, Row>, rows': map<Signature, Row>,
                                         orphans: seq<OrphanRecord>, threshold: nat)
    requires RowsFollow(rows, rows') && OrphansOk(rows, orphans, threshold)
    ensures OrphansOk(rows', orphans, threshold)
  {
    hide Justified;
    forall o | o in orphans ensures Recorded(rows', o) {
      assert Recorded(rows, o);
      assert Follows(rows[o.signature], rows'[o.signature]);
    }
  }

  lemma {:induction false} FinalsStable(rows: map<Signature, Row>, rows': map<Signature, Row>, finals: seq<FinalRecord>)
    requires RowsFollow(rows, rows') && FinalsOk(rows, finals)
    ensures FinalsOk(rows', finals)
  {
    hide Answered;
    forall f | f in finals ensures Settled(rows', f) {
      assert Settled(rows, f);
      assert Follows(rows[f.signature], rows'[f.signature]);
    }
  }

  lemma {:induction false} SetRow(rows: map<Signature, Row>, signature: Signature, row: Row)
    requires RowsOk(rows) && signature in rows && RowOk(row) && Follows(rows[signature], row)
    ensures RowsOk(rows[signature := row]) && RowsFollow(rows, rows[signature := row])
  {
    hide RowOk;
    forall k | k in rows ensures Follows(rows[k], rows[signature := row][k]) {}
  }

  // --------------------------------------------------------------- steps

  /** Changing one pass, on rows that only moved forward. */
  lemma {:induction false} Assemble(s: System, rows: map<Signature, Row>, who: nat, p: Pass, threshold: nat)
    requires Inv(s, threshold) && RowsFollow(s.rows, rows) && RowsOk(rows) && PassOk(rows, p, threshold)
    requires HasSource(p) ==> HasSource(PassOf(s, who)) && p.source.pass == PassOf(s, who).source.pass
    ensures Inv(WithPass(s.(rows := rows), who, p), threshold)
  {
    hide PassOk, RowsFollow, RowsOk, OrphansOk, FinalsOk;
    OrphansStable(s.rows, rows, s.orphans, threshold);
    FinalsStable(s.rows, rows, s.finals);
    var s' := WithPass(s.(rows := rows), who, p);
    forall w | w in s'.passes ensures PassOk(s'.rows, s'.passes[w], threshold) {
      if w != who { PassStable(s.rows, rows, s.passes[w], threshold); }
    }
  }

  lemma {:induction false} RowsReflexive(rows: map<Signature, Row>)
    ensures RowsFollow(rows, rows)
  {
  }

  lemma {:induction false} PassAlone(s: System, who: nat, p: Pass, threshold: nat)
    requires Inv(s, threshold) && PassOk(s.rows, p, threshold)
    requires HasSource(p) ==> HasSource(PassOf(s, who)) && p.source.pass == PassOf(s, who).source.pass
    ensures Inv(WithPass(s, who, p), threshold)
  {
    hide PassOk, RowsFollow, RowsOk, OrphansOk, FinalsOk, PassesOk, SourcesOk;
    RowsReflexive(s.rows);
    Assemble(s, s.rows, who, p, threshold);
  }

  lemma {:induction false} ListKeeps(s: System, who: nat, signatures: seq<Signature>, threshold: nat)
    requires Inv(s, threshold) && Listable(s.rows, signatures)
    ensures Inv(WithPass(s, who, Listed(Candidates(s.rows, signatures))), threshold)
  {
    hide PassesOk, SourcesOk, OrphansOk, FinalsOk, Held;
    var cs := Candidates(s.rows, signatures);
    forall c | c in cs ensures HeldIn(s.rows, c) {
      var i :| 0 <= i < |cs| && cs[i] == c;
      ListedHeld(signatures[i], s.rows[signatures[i]]);
    }
    PassAlone(s, who, Listed(cs), threshold);
  }

  lemma {:induction false} AnswerKeeps(s: System, who: nat, statuses: seq<Option<History>>, root: nat, threshold: nat)
    requires Inv(s, threshold) && PassOf(s, who).Opened? && ConsistentHistory(PassOf(s, who).candidates, statuses, root)
    ensures Inv(WithPass(s.(nextPass := s.nextPass + 1), who,
                         Polling(Source(s.nextPass, PassOf(s, who).provider, root), PassOf(s, who).candidates, statuses, [])), threshold)
  {
    hide RowsOk, OrphansOk, FinalsOk, AllHeld, ConsistentHistory;
    var p := Polling(Source(s.nextPass, PassOf(s, who).provider, root), PassOf(s, who).candidates, statuses, []);
    assert PassOk(s.rows, s.passes[who], threshold);
    assert GroupsProved(s.rows, [], p.source, threshold);
  }

  lemma {:induction false} AddEligibleProved(rows: map<Signature, Row>, groups: seq<SlotGroup>, c: Candidate,
                                             source: Source, threshold: nat)
    requires GroupsProved(rows, groups, source, threshold) && ProvedIn(rows, c, source, threshold)
    ensures GroupsProved(rows, AddEligible(groups, c), source, threshold)
  {
    hide ProvedIn;
    if groups != [] && groups[0].slot != c.slot {
      AddEligibleProved(rows, groups[1..], c, source, threshold);
    }
  }

  lemma {:induction false} AdvanceOk(rows: map<Signature, Row>, p: Pass, groups: seq<SlotGroup>, threshold: nat)
    requires p.Polling? && p.candidates != [] && p.statuses != []
    requires AllHeld(rows, p.candidates) && ConsistentHistory(p.candidates, p.statuses, p.source.root)
    requires GroupsProved(rows, groups, p.source, threshold)
    ensures PassOk(rows, Advance(p, groups), threshold)
    ensures HasSource(Advance(p, groups)) && Advance(p, groups).source == p.source
  {
    hide HeldIn, GroupsProved;
  }

  lemma {:induction false} FinalizeKeeps(s: System, who: nat, threshold: nat)
    requires Inv(s, threshold) && PassOf(s, who).Polling? && PassOf(s, who).candidates != []
    requires PassOf(s, who).statuses != [] && PassOf(s, who).statuses[0].Some?
    requires PassOf(s, who).statuses[0].value.status == Finalized
    requires PassOf(s, who).candidates[0].signature in s.rows
    requires EnqueueFinalized(s.rows[PassOf(s, who).candidates[0].signature]).Some?
    ensures Inv(PollStep(s, who, PassOf(s, who), threshold), threshold)
  {
    hide SourcesOk, OrphansOk, FinalsOk, GroupsProved, AllHeld, RowOk, Follows, RowsFollow, Advance, ConsistentHistory,
      EnqueueFinalized, ObserveStep, Answered;
    var p := PassOf(s, who);
    var c := p.candidates[0];
    var row := s.rows[c.signature];
    var row' := EnqueueFinalized(row).value;
    FinalizedFollows(row);
    var rows := s.rows[c.signature := row'];
    SetRow(s.rows, c.signature, row');
    PassStable(s.rows, rows, s.passes[who], threshold);
    AdvanceOk(rows, p, p.groups, threshold);
    Assemble(s, rows, who, Advance(p, p.groups), threshold);
    if row.status != Finalized {
      var f := FinalRecord(c.signature, row.slot, p.source, p.statuses[0].value);
      assert HeldIn(s.rows, c) by { FirstHeld(s.rows, p.candidates); }
      HeldFacts(row, c);
      FirstAnswered(p.candidates, p.statuses, p.source, row.slot);
      FollowsSlot(row, row');
      AddFinal(s.rows, s.finals, f, row');
      RecordsOnly(WithPass(s.(rows := rows), who, Advance(p, p.groups)), PollStep(s, who, p, threshold), threshold);
    }
  }

  lemma {:induction false} FirstHeld(rows: map<Signature, Row>, cs: seq<Candidate>)
    requires AllHeld(rows, cs) && cs != []
    ensures HeldIn(rows, cs[0])
  {
  }

  lemma {:induction false} FirstAnswered(cs: seq<Candidate>, statuses: seq<Option<History>>, source: Source, slot: nat)
    requires ConsistentHistory(cs, statuses, source.root) && cs != [] && cs[0].slot == slot
    requires statuses[0].Some? && statuses[0].value.status == Finalized
    ensures Answered(FinalRecord(cs[0].signature, slot, source, statuses[0].value))
  {
  }

  lemma {:induction false} AddFinal(rows: map<Signature, Row>, finals: seq<FinalRecord>, f: FinalRecord, row: Row)
    requires FinalsOk(rows, finals) && f.signature in rows && rows[f.signature].status != Finalized
    requires row.status == Finalized && row.slot == f.slot && Answered(f) && RowsFollow(rows, rows[f.signature := row])
    ensures FinalsOk(rows[f.signature := row], finals + [f])
  {
    hide Answered, RowsFollow;
    assert forall e :: e in finals ==> e.signature != f.signature by {
      forall e | e in finals ensures e.signature != f.signature { assert Settled(rows, e); }
    }
    FinalsStable(rows, rows[f.signature := row], finals);
  }

  lemma {:induction false} FinalizedFollows(row: Row)
    requires RowOk(row) && EnqueueFinalized(row).Some?
    ensures RowOk(EnqueueFinalized(row).value) && Follows(row, EnqueueFinalized(row).value)
    ensures EnqueueFinalized(row).value.status == Finalized
  {
    hide RowOk, Follows;
    if Open(row.status) { RevisedFollows(row, Finalized); } else { FollowsSelf(row); }
  }

  lemma {:induction false} FollowsSelf(row: Row)
    ensures Follows(row, row)
  {
  }

  /** The poll that makes a candidate eligible is the proof's newest entry. */
  lemma {:induction false} PolledProved(row: Row, c: Candidate, source: Source, threshold: nat)
    requires RowOk(row) && RecordPoll(row, c, None, source.provider, source.pass).Some?
    requires Eligible(ToCandidate(c.signature, RecordPoll(row, c, None, source.provider, source.pass).value), source, threshold)
    ensures Proved(RecordPoll(row, c, None, source.provider, source.pass).value,
                   ToCandidate(c.signature, RecordPoll(row, c, None, source.provider, source.pass).value), source, threshold)
  {
    hide Held, Eligible, CountsRun;
    PolledHeld(row, c, None, source.provider, source.pass);
  }

  lemma {:induction false} ObserveKeeps(s: System, who: nat, observed: Option<Status>, threshold: nat)
    requires Inv(s, threshold) && PassOf(s, who).Polling? && PassOf(s, who).candidates != []
    requires PassOf(s, who).statuses != []
    requires PassOf(s, who).candidates[0].signature in s.rows
    ensures Inv(ObserveStep(s, who, PassOf(s, who), observed, threshold), threshold)
  {
    hide SourcesOk, OrphansOk, FinalsOk, GroupsProved, AllHeld, RowOk, Follows, RowsFollow, Advance, RecordPoll, Eligible,
      PollTransition, AddEligible, Proved, ConsistentHistory;
    var p := PassOf(s, who);
    var c := p.candidates[0];
    if observed.Some? && !Open(observed.value) {
      PassAlone(s, who, Idle, threshold);
    } else if RecordPoll(s.rows[c.signature], c, observed, p.source.provider, p.source.pass).None? {
      PassAlone(s, who, Idle, threshold);
    } else {
      var row := RecordPoll(s.rows[c.signature], c, observed, p.source.provider, p.source.pass).value;
      var rows := s.rows[c.signature := row];
      var polled := ToCandidate(c.signature, row);
      RecordPollFollows(s.rows[c.signature], c, observed, p.source.provider, p.source.pass);
      SetRow(s.rows, c.signature, row);
      PassStable(s.rows, rows, s.passes[who], threshold);
      if !PollTransition(c, observed, p.source.provider, polled) {
        Assemble(s, rows, who, Idle, threshold);
      } else if observed.None? && Eligible(polled, p.source, threshold) {
        PolledProved(s.rows[c.signature], c, p.source, threshold);
        AddEligibleProved(rows, p.groups, polled, p.source, threshold);
        AdvanceOk(rows, p, AddEligible(p.groups, polled), threshold);
        Assemble(s, rows, who, Advance(p, AddEligible(p.groups, polled)), threshold);
      } else {
        AdvanceOk(rows, p, p.groups, threshold);
        Assemble(s, rows, who, Advance(p, p.groups), threshold);
      }
    }
  }

  lemma {:induction false} BlockKeeps(s: System, who: nat, block: Option<seq<Signature>>, threshold: nat)
    requires Inv(s, threshold) && PassOf(s, who).Proving?
    ensures Inv(BlockStep(s, who, PassOf(s, who), block), threshold)
  {
    hide SourcesOk, OrphansOk, FinalsOk, RowsOk, AllProved, AllAt;
    var p := PassOf(s, who);
    assert PassOk(s.rows, p, threshold);
    if p.groups == [] || p.blocks >= MAX_BLOCK_SLOTS_PER_RUN {
      PassAlone(s, who, Idle, threshold);
    } else if block.None? {
      PassAlone(s, who, Proving(p.source, p.groups[1..], p.blocks + 1), threshold);
    } else if Contradicted(p.groups[0].eligible, block.value) {
      PassAlone(s, who, Idle, threshold);
    } else {
      assert p.groups[0] in p.groups;
      PassAlone(s, who, Orphaning(p.source, p.groups[1..], p.blocks + 1, p.groups[0].slot, block.value, p.groups[0].eligible),
                threshold);
    }
  }

  /** A revision that commits finds the log exactly as the pass's own poll left it. */
  lemma {:induction false} CommitJustified(row: Row, c: Candidate, source: Source, slot: nat,
                                           block: seq<Signature>, threshold: nat)
    requires RowOk(row) && Proved(row, c, source, threshold) && c.signature !in block && c.slot == slot
    requires row.status != Orphaned && EnqueueOrphaned(row, c).Some?
    ensures Justified(OrphanRecord(c.signature, row.slot, source, slot, block, row.log), threshold)
  {
    assert row.log[..c.version] == row.log;
  }

  lemma {:induction false} OrphanedFollows(row: Row, c: Candidate)
    requires RowOk(row) && EnqueueOrphaned(row, c).Some?
    ensures RowOk(EnqueueOrphaned(row, c).value) && Follows(row, EnqueueOrphaned(row, c).value)
    ensures EnqueueOrphaned(row, c).value.status == Orphaned
    ensures row.status != Orphaned ==> row.log < EnqueueOrphaned(row, c).value.log
  {
    hide RowOk, Follows;
    if Open(row.status) { RevisedFollows(row, Orphaned); } else { FollowsSelf(row); }
  }

  lemma {:induction false} AddOrphan(rows: map<Signature, Row>, orphans: seq<OrphanRecord>, o: OrphanRecord, row: Row,
                                     threshold: nat)
    requires OrphansOk(rows, orphans, threshold) && o.signature in rows && rows[o.signature].status != Orphaned
    requires Follows(rows[o.signature], row) && row.status == Orphaned && row.slot == o.slot && o.evidence < row.log
    requires Justified(o, threshold) && RowsFollow(rows, rows[o.signature := row])
    ensures OrphansOk(rows[o.signature := row], orphans + [o], threshold)
  {
    hide Justified, RowsFollow, Follows;
    assert forall e :: e in orphans ==> e.signature != o.signature by {
      forall e | e in orphans ensures e.signature != o.signature { assert Recorded(rows, e); }
    }
    OrphansStable(rows, rows[o.signature := row], orphans, threshold);
  }

  lemma {:induction false} ReviseKeeps(s: System, who: nat, threshold: nat)
    requires Inv(s, threshold) && PassOf(s, who).Orphaning?
    ensures Inv(ReviseStep(s, who, PassOf(s, who)), threshold)
  {
    hide SourcesOk, GroupsProved, RowOk, OrphansOk, FinalsOk, Follows, Proved, EnqueueOrphaned, RowsFollow, Justified;
    var p := PassOf(s, who);
    assert PassOk(s.rows, p, threshold);
    if p.eligible == [] {
      PassAlone(s, who, Proving(p.source, p.groups, p.blocks), threshold);
    } else {
      var c := p.eligible[0];
      assert ProvedIn(s.rows, c, p.source, threshold) && c.signature !in p.block && c.slot == p.slot;
      var row := s.rows[c.signature];
      if c.provider.None? || EnqueueOrphaned(row, c).None? {
        PassAlone(s, who, Idle, threshold);
      } else {
        CommitKeeps(s, who, threshold);
      }
    }
  }

  lemma {:induction false} CommitKeeps(s: System, who: nat, threshold: nat)
    requires Inv(s, threshold) && PassOf(s, who).Orphaning? && PassOf(s, who).eligible != []
    requires PassOf(s, who).eligible[0].signature in s.rows && PassOf(s, who).eligible[0].provider.Some?
    requires EnqueueOrphaned(s.rows[PassOf(s, who).eligible[0].signature], PassOf(s, who).eligible[0]).Some?
    ensures Inv(ReviseStep(s, who, PassOf(s, who)), threshold)
  {
    hide SourcesOk, GroupsProved, RowOk, OrphansOk, FinalsOk, Follows, Proved, EnqueueOrphaned, RowsFollow, Justified;
    var p := PassOf(s, who);
    var c := p.eligible[0];
    assert ProvedIn(s.rows, c, p.source, threshold) && c.signature !in p.block && c.slot == p.slot;
    var row := s.rows[c.signature];
    var row' := EnqueueOrphaned(row, c).value;
    var rows := s.rows[c.signature := row'];
    OrphanedFollows(row, c);
    SetRow(s.rows, c.signature, row');
    PassStable(s.rows, rows, p, threshold);
    var next := Orphaning(p.source, p.groups, p.blocks, p.slot, p.block, p.eligible[1..]);
    assert PassOk(rows, next, threshold);
    Assemble(s, rows, who, next, threshold);
    if row.status != Orphaned {
      CommitJustified(row, c, p.source, p.slot, p.block, threshold);
      FollowsSlot(row, row');
      AddOrphan(s.rows, s.orphans, OrphanRecord(c.signature, row.slot, p.source, p.slot, p.block, row.log), row', threshold);
      RecordsOnly(WithPass(s.(rows := rows), who, next), ReviseStep(s, who, p), threshold);
    }
  }

  lemma {:induction false} FollowsSlot(row: Row, row': Row)
    requires Follows(row, row')
    ensures row'.slot == row.slot
  {
  }

  lemma {:induction false} RecordsOnly(s: System, s': System, threshold: nat)
    requires Inv(s, threshold) && s'.rows == s.rows && s'.passes == s.passes && s'.nextPass == s.nextPass
    requires OrphansOk(s'.rows, s'.orphans, threshold) && FinalsOk(s'.rows, s'.finals)
    ensures Inv(s', threshold)
  {
    hide PassOk, OrphansOk, FinalsOk, RowOk;
  }

  lemma {:induction false} RowAlone(s: System, rows: map<Signature, Row>, threshold: nat)
    requires Inv(s, threshold) && RowsFollow(s.rows, rows) && RowsOk(rows)
    ensures Inv(s.(rows := rows), threshold)
  {
    hide PassOk, RowsFollow, RowsOk, OrphansOk, FinalsOk;
    OrphansStable(s.rows, rows, s.orphans, threshold);
    FinalsStable(s.rows, rows, s.finals);
    forall w | w in s.passes ensures PassOk(rows, s.passes[w], threshold) {
      PassStable(s.rows, rows, s.passes[w], threshold);
    }
  }

  lemma {:induction false} WriterKeeps(s: System, signature: Signature, row: Row, threshold: nat)
    requires Inv(s, threshold)
    requires if signature in s.rows then Rewritten(s.rows[signature], row) else Fresh(row)
    ensures Inv(s.(rows := s.rows[signature := row]), threshold)
  {
    hide PassesOk, OrphansOk, FinalsOk, SourcesOk;
    var rows := s.rows[signature := row];
    if signature in s.rows {
      RewrittenFollows(s.rows[signature], row);
      SetRow(s.rows, signature, row);
    }
    RowAlone(s, rows, threshold);
  }

  lemma {:induction false} PollKeeps(s: System, who: nat, threshold: nat)
    requires Inv(s, threshold) && PassOf(s, who).Polling? && PassOf(s, who).candidates != []
    requires PassOf(s, who).statuses != []
    ensures Inv(PollStep(s, who, PassOf(s, who), threshold), threshold)
  {
    hide Inv, ObserveStep, EnqueueFinalized, Advance;
    var p := PassOf(s, who);
    var c, status := p.candidates[0], p.statuses[0];
    if c.signature !in s.rows {
      PassAlone(s, who, Idle, threshold);
    } else if status.Some? && status.value.status == Finalized {
      if EnqueueFinalized(s.rows[c.signature]).None? {
        PassAlone(s, who, Idle, threshold);
      } else {
        FinalizeKeeps(s, who, threshold);
      }
    } else {
      ObserveKeeps(s, who, if status.Some? then Some(status.value.status) else None, threshold);
    }
  }

  lemma {:induction false} StepKeeps(s: System, e: Event, threshold: nat)
    requires Inv(s, threshold)
    ensures Inv(Step(s, e, threshold), threshold)
  {
    hide PassesOk, OrphansOk, FinalsOk, SourcesOk, RowsOk, PollStep, BlockStep, ReviseStep, Rewritten, Fresh, AllHeld, ConsistentHistory;
    match e
    case List(who, signatures) =>
      if Listable(s.rows, signatures) { ListKeeps(s, who, signatures, threshold); }
    case OpenPass(who, provider) =>
      if PassOf(s, who).Listed? {
        PassHolds(s, who, threshold);
        PassAlone(s, who, Opened(PassOf(s, who).candidates, provider), threshold);
      }
    case Answer(who, statuses, root) =>
      if PassOf(s, who).Opened? {
        if ConsistentHistory(PassOf(s, who).candidates, statuses, root) { AnswerKeeps(s, who, statuses, root, threshold); }
        PassAlone(s, who, Idle, threshold);
      }
    case Poll(who) =>
      PassAlone(s, who, Idle, threshold);
      if PassOf(s, who).Polling? && PassOf(s, who).candidates != [] && PassOf(s, who).statuses != [] {
        PollKeeps(s, who, threshold);
      }
    case ReadBlock(who, block) =>
      if PassOf(s, who).Proving? { BlockKeeps(s, who, block, threshold); }
    case Revise(who) =>
      if PassOf(s, who).Orphaning? { ReviseKeeps(s, who, threshold); }
    case Rewrite(signature, row) =>
      if signature in s.rows && Rewritten(s.rows[signature], row) { WriterKeeps(s, signature, row, threshold); }
    case Insert(signature, row) =>
      if signature !in s.rows && Fresh(row) { WriterKeeps(s, signature, row, threshold); }
    case Abandon(who) => PassAlone(s, who, Idle, threshold);
  }

  lemma {:induction false} PassHolds(s: System, who: nat, threshold: nat)
    requires Inv(s, threshold)
    ensures PassOk(s.rows, PassOf(s, who), threshold)
  {
  }

  lemma {:induction false} RunKeeps(s: System, events: seq<Event>, threshold: nat)
    requires Inv(s, threshold)
    ensures Inv(Run(s, events, threshold), threshold)
    decreases |events|
  {
    hide Inv, Step;
    if events != [] {
      StepKeeps(s, events[0], threshold);
      RunKeeps(Step(s, events[0], threshold), events[1..], threshold);
    }
  }

  // ------------------------------------------------------------ theorems

  const EMPTY: System := System(map[], map[], 0, [], [])

  /** Every orphan revision of every run rests on a complete proof, and a signature is orphaned at most once. */
  lemma {:induction false} OrphanOnlyOnProof(events: seq<Event>, threshold: nat)
    ensures forall o :: o in Run(EMPTY, events, threshold).orphans ==> Justified(o, threshold)
    ensures forall i, j :: 0 <= i < j < |Run(EMPTY, events, threshold).orphans| ==>
                             Run(EMPTY, events, threshold).orphans[i].signature != Run(EMPTY, events, threshold).orphans[j].signature
  {
    hide Justified, Run;
    RunKeeps(EMPTY, events, threshold);
  }

  /**
   Every finalizing revision of every run rests on a finalized answer at the row's
   own slot, at or below the root of the pass that wrote it; no row is finalized twice.
   */
  lemma {:induction false} FinalizedOnlyOnAnswer(events: seq<Event>, threshold: nat)
    ensures forall f :: f in Run(EMPTY, events, threshold).finals ==>
              Answered(f) && Settled(Run(EMPTY, events, threshold).rows, f)
    ensures forall i, j :: 0 <= i < j < |Run(EMPTY, events, threshold).finals| ==>
                             Run(EMPTY, events, threshold).finals[i].signature != Run(EMPTY, events, threshold).finals[j].signature
  {
    hide Answered, Settled, Run;
    RunKeeps(EMPTY, events, threshold);
  }

  /** In every reachable state the stored counter is the length of the run of missing polls that ends the row's history. */
  lemma {:induction false} CounterIsTrailingRun(events: seq<Event>, threshold: nat, signature: Signature)
    requires signature in Run(EMPTY, events, threshold).rows
    ensures var row := Run(EMPTY, events, threshold).rows[signature]; CountsRun(row.log, row.missing, row.provider)
    ensures var row := Run(EMPTY, events, threshold).rows[signature]; Open(row.status) ==> row.version == |row.log|
  {
    hide CountsRun, Run;
    RunKeeps(EMPTY, events, threshold);
  }

  /** Reconcilers in flight never share a pass, so the pass named by a piece of evidence is one reconciler's. */
  lemma {:induction false} PassesAreDistinct(events: seq<Event>, threshold: nat, a: nat, b: nat)
    requires a != b && HasSource(PassOf(Run(EMPTY, events, threshold), a))
    requires HasSource(PassOf(Run(EMPTY, events, threshold), b))
    ensures PassOf(Run(EMPTY, events, threshold), a).source.pass != PassOf(Run(EMPTY, events, threshold), b).source.pass
  {
    hide Run;
    RunKeeps(EMPTY, events, threshold);
  }

  predicate Terminal(status: Status) {
    status == Finalized || status == Orphaned
  }

  lemma {:induction false} StepKeepsTerminal(s: System, e: Event, threshold: nat, signature: Signature)
    requires signature in s.rows && Terminal(s.rows[signature].status)
    ensures signature in Step(s, e, threshold).rows
    ensures Step(s, e, threshold).rows[signature].status == s.rows[signature].status
  {
    hide ConsistentHistory, Listable, Contradicted, PollTransition, Eligible, AddEligible, Advance, NextMissing;
  }

  /** A finalized row is never orphaned and an orphaned row never revived, whatever follows. */
  lemma {:induction false} TerminalStays(s: System, events: seq<Event>, threshold: nat, signature: Signature)
    requires signature in s.rows && Terminal(s.rows[signature].status)
    ensures signature in Run(s, events, threshold).rows
    ensures Run(s, events, threshold).rows[signature].status == s.rows[signature].status
    decreases |events|
  {
    hide Step;
    if events != [] {
      StepKeepsTerminal(s, events[0], threshold, signature);
      TerminalStays(Step(s, events[0], threshold), events[1..], threshold, signature);
    }
  }
}
