/**
 What one uninterrupted reconciliation pass makes of its candidates: which of them
 become due to be orphaned, which slots it goes on to prove, and how each row ends.
 */
module FinalityPass {
  import opened Prelude
  import opened Finality
  import opened FinalityTheorems

  /** With one more missing answer the row's history ends in `threshold` of them at the pass's provider, below its root. */
  predicate Due(row: Row, status: Option<History>, source: Source, threshold: nat) {
    && status.None? && row.slot < source.root
    && (threshold == 0 || RunOf(row.log, threshold - 1, source.provider))
  }

  /** How a row stands after its poll. */
  predicate AfterPoll(row: Row, status: Option<History>, row': Row, source: Source) {
    && row'.slot == row.slot
    && match status
       case None =>
         && Observed(row, row') && row'.status == row.status
         && row'.log == row.log + [Missing(source.provider, source.pass)]
       case Some(h) =>
         if h.status == Finalized then row'.status == Finalized
         else
           && Observed(row, row') && (h.status == Processed || h.status == Confirmed)
           && row'.status == (if row.status == Confirmed || h.status == Confirmed then Confirmed else Processed)
           && row'.log == row.log + [Seen(h.status, source.pass)]
  }

  /** A poll leaves an open row open and processed, one version on. */
  predicate Observed(row: Row, row': Row) {
    row.phase == Done && row'.phase == Done && Open(row.status) && row'.version == row.version + 1
  }

  predicate Distinct(cs: seq<Candidate>) {
    forall i, j :: 0 <= i < j < |cs| ==> cs[i].signature != cs[j].signature
  }

  predicate Among(cs: seq<Candidate>, k: Signature) {
    exists i :: 0 <= i < |cs| && cs[i].signature == k
  }

  /** The slots of the due candidates, each once, in the order in which they are first met. */
  function DueSlots(rows: map<Signature, Row>, cs: seq<Candidate>, statuses: seq<Option<History>>, source: Source,
                    threshold: nat): seq<nat>
    requires |statuses| == |cs|
    decreases |cs|
  {
    if cs == [] then []
    else
      var n := |cs| - 1;
      var slots := DueSlots(rows, cs[..n], statuses[..n], source, threshold);
      var k := cs[n].signature;
      if k in rows && Due(rows[k], statuses[n], source, threshold) && rows[k].slot !in slots
      then slots + [rows[k].slot] else slots
  }

  /** `now` is `was` after the candidates were polled, each once. */
  ghost predicate Polled(was: map<Signature, Row>, now: map<Signature, Row>, cs: seq<Candidate>,
                         statuses: seq<Option<History>>, source: Source) {
    && |statuses| == |cs| && now.Keys == was.Keys
    && (forall j :: 0 <= j < |cs| ==>
          cs[j].signature in was && AfterPoll(was[cs[j].signature], statuses[j], now[cs[j].signature], source))
    && forall k :: k in was && !Among(cs, k) ==> now[k] == was[k]
  }

  function SlotsOf(groups: seq<SlotGroup>): seq<nat> {
    seq(|groups|, i requires 0 <= i < |groups| => groups[i].slot)
  }

  predicate InGroups(groups: seq<SlotGroup>, c: Candidate) {
    exists i :: 0 <= i < |groups| && groups[i].slot == c.slot && c in groups[i].eligible
  }

  ghost predicate DueAt(was: map<Signature, Row>, cs: seq<Candidate>, statuses: seq<Option<History>>, source: Source,
                        threshold: nat, j: nat)
  {
    j < |cs| == |statuses| && cs[j].signature in was && Due(was[cs[j].signature], statuses[j], source, threshold)
  }

  ghost predicate DueSignature(was: map<Signature, Row>, cs: seq<Candidate>, statuses: seq<Option<History>>,
                               source: Source, threshold: nat, k: Signature)
  {
    exists j: nat :: DueAt(was, cs, statuses, source, threshold, j) && cs[j].signature == k
  }

  /** A group's member: the polled row of a due candidate. */
  ghost predicate Member(was: map<Signature, Row>, now: map<Signature, Row>, cs: seq<Candidate>,
                         statuses: seq<Option<History>>, source: Source, threshold: nat, c: Candidate)
  {
    && c.signature in now && c == ToCandidate(c.signature, now[c.signature]) && c.provider.Some?
    && DueSignature(was, cs, statuses, source, threshold, c.signature)
  }

  ghost predicate Members(was: map<Signature, Row>, now: map<Signature, Row>, cs: seq<Candidate>,
                          statuses: seq<Option<History>>, source: Source, threshold: nat, g: SlotGroup)
  {
    g.eligible != [] && AllAt(g.eligible, g.slot) && forall c :: c in g.eligible ==> Member(was, now, cs, statuses, source, threshold, c)
  }

  /** The groups hold exactly the due candidates, by slot. */
  ghost predicate Grouped(was: map<Signature, Row>, now: map<Signature, Row>, cs: seq<Candidate>,
                          statuses: seq<Option<History>>, source: Source, threshold: nat, groups: seq<SlotGroup>)
  {
    && |statuses| == |cs| && SlotsOf(groups) == DueSlots(was, cs, statuses, source, threshold)
    && (forall g :: g in groups ==> Members(was, now, cs, statuses, source, threshold, g))
    && forall j: nat :: DueAt(was, cs, statuses, source, threshold, j) ==>
         cs[j].signature in now && InGroups(groups, ToCandidate(cs[j].signature, now[cs[j].signature]))
  }

  // ------------------------------------------------------- one poll more

  predicate NoRepeat(xs: seq<nat>) {
    forall i, j :: 0 <= i < j < |xs| ==> xs[i] != xs[j]
  }

  lemma {:induction false} NoRepeatAppend(xs: seq<nat>, x: nat)
    requires NoRepeat(xs) && x !in xs
    ensures NoRepeat(xs + [x])
  {
    assert forall i :: 0 <= i < |xs| ==> xs[i] in xs;
  }

  lemma {:induction false} SlotsDistinct(rows: map<Signature, Row>, cs: seq<Candidate>, statuses: seq<Option<History>>,
                                         source: Source, threshold: nat)
    requires |statuses| == |cs|
    ensures NoRepeat(DueSlots(rows, cs, statuses, source, threshold))
    decreases |cs|
  {
    hide Due, NoRepeat;
    if cs == [] {
      assert NoRepeat([]) by { Nothing(); }
    } else {
      var n := |cs| - 1;
      SlotsDistinct(rows, cs[..n], statuses[..n], source, threshold);
      var before := DueSlots(rows, cs[..n], statuses[..n], source, threshold);
      if cs[n].signature in rows && rows[cs[n].signature].slot !in before {
        NoRepeatAppend(before, rows[cs[n].signature].slot);
      }
    }
  }

  lemma {:induction false} Nothing()
    ensures NoRepeat([])
  {
  }

  lemma {:induction false} AddedSlots(groups: seq<SlotGroup>, c: Candidate)
    ensures SlotsOf(AddEligible(groups, c)) == if c.slot in SlotsOf(groups) then SlotsOf(groups) else SlotsOf(groups) + [c.slot]
    decreases |groups|
  {
    if groups == [] {
      assert SlotsOf([]) == [];
    } else if groups[0].slot == c.slot {
      assert SlotsOf(groups)[0] == c.slot;
    } else {
      AddedSlots(groups[1..], c);
      assert SlotsOf(groups) == [groups[0].slot] + SlotsOf(groups[1..]);
      assert SlotsOf(AddEligible(groups, c)) == [groups[0].slot] + SlotsOf(AddEligible(groups[1..], c));
    }
  }

  lemma {:induction false} InGroupsTail(g: SlotGroup, groups: seq<SlotGroup>, c: Candidate)
    ensures InGroups([g] + groups, c) <==> (g.slot == c.slot && c in g.eligible) || InGroups(groups, c)
  {
    var all := [g] + groups;
    if InGroups(groups, c) {
      var i :| 0 <= i < |groups| && groups[i].slot == c.slot && c in groups[i].eligible;
      assert all[i + 1] == groups[i];
    }
    if g.slot == c.slot && c in g.eligible { assert all[0] == g; }
  }

  lemma {:induction false} AddedIn(groups: seq<SlotGroup>, c: Candidate, x: Candidate)
    ensures InGroups(AddEligible(groups, c), x) <==> x == c || InGroups(groups, x)
    decreases |groups|
  {
    if groups == [] {
      assert [SlotGroup(c.slot, [c])][0].eligible == [c];
    } else {
      var g, rest := groups[0], groups[1..];
      assert groups == [g] + rest;
      InGroupsTail(g, rest, x);
      if g.slot == c.slot {
        InGroupsTail(g.(eligible := g.eligible + [c]), rest, x);
      } else {
        AddedIn(rest, c, x);
        InGroupsTail(g, AddEligible(rest, c), x);
      }
    }
  }

  lemma {:induction false} AddedMembers(was: map<Signature, Row>, now: map<Signature, Row>, cs: seq<Candidate>,
                                        statuses: seq<Option<History>>, source: Source, threshold: nat,
                                        groups: seq<SlotGroup>, c: Candidate)
    requires forall g :: g in groups ==> Members(was, now, cs, statuses, source, threshold, g)
    requires Member(was, now, cs, statuses, source, threshold, c)
    ensures forall g :: g in AddEligible(groups, c) ==> Members(was, now, cs, statuses, source, threshold, g)
    decreases |groups|
  {
    hide Member;
    if groups != [] {
      var g, rest := groups[0], groups[1..];
      assert g in groups && forall x :: x in rest ==> x in groups;
      if g.slot == c.slot {
        var grown := g.(eligible := g.eligible + [c]);
        assert forall x :: x in AddEligible(groups, c) ==> x == grown || x in rest;
      } else {
        AddedMembers(was, now, cs, statuses, source, threshold, rest, c);
        assert forall x :: x in AddEligible(groups, c) ==> x == g || x in AddEligible(rest, c);
      }
    }
  }

  /** The evidence of one more candidate: due exactly when its counter now reaches the threshold at this provider. */
  lemma {:induction false} DueIffCounted(row: Row, c: Candidate, source: Source, threshold: nat, row': Row)
    requires RowOk(row) && RecordPoll(row, c, None, source.provider, source.pass) == Some(row')
    ensures Due(row, None, source, threshold) <==>
            row'.missing >= threshold && row'.provider == Some(source.provider) && source.root > row'.slot
  {
    CountsAppend(row.log, row.missing, row.provider, source.provider, source.pass);
    if threshold > 0 {
      RunLonger(row, row', source.provider, source.pass, threshold);
    }
  }

  lemma {:induction false} RunLonger(row: Row, row': Row, provider: Provider, pass: nat, k: nat)
    requires k > 0 && row'.log == row.log + [Missing(provider, pass)] && CountsRun(row'.log, row'.missing, Some(provider))
    ensures RunOf(row.log, k - 1, provider) <==> row'.missing >= k
  {
    assert forall i :: 0 <= i < |row.log| ==> row'.log[i] == row.log[i];
    assert row'.log[|row.log|] == Missing(provider, pass);
    assert RunOf(row.log, k - 1, provider) <==> RunOf(row'.log, k, provider);
  }

  lemma {:induction false} NotAmong(cs: seq<Candidate>, c: Candidate)
    requires Distinct(cs + [c])
    ensures !Among(cs, c.signature)
    ensures forall j :: 0 <= j < |cs| ==> cs[j].signature != c.signature
  {
    var all := cs + [c];
    forall j | 0 <= j < |cs| ensures cs[j].signature != c.signature { assert all[j] == cs[j] && all[|cs|] == c; }
  }

  lemma {:induction false} PolledStep(was: map<Signature, Row>, now: map<Signature, Row>, cs: seq<Candidate>,
                                      statuses: seq<Option<History>>, source: Source, c: Candidate,
                                      status: Option<History>, row': Row)
    requires Polled(was, now, cs, statuses, source) && Distinct(cs + [c]) && c.signature in was
    requires AfterPoll(was[c.signature], status, row', source)
    ensures now[c.signature] == was[c.signature]
    ensures Polled(was, now[c.signature := row'], cs + [c], statuses + [status], source)
  {
    hide AfterPoll;
    NotAmong(cs, c);
    var now' := now[c.signature := row'];
    var all := cs + [c];
    assert all[|cs|] == c;
    forall k | k in was && !Among(all, k) ensures now'[k] == was[k] { AmongGrows(cs, c, k); }
  }

  lemma {:induction false} AmongGrows(cs: seq<Candidate>, c: Candidate, k: Signature)
    ensures Among(cs + [c], k) <==> Among(cs, k) || c.signature == k
  {
    var all := cs + [c];
    assert all[|cs|] == c;
    if Among(cs, k) {
      var i :| 0 <= i < |cs| && cs[i].signature == k;
      assert all[i].signature == k;
    }
  }

  lemma {:induction false} DueAtStep(was: map<Signature, Row>, cs: seq<Candidate>, statuses: seq<Option<History>>,
                                     source: Source, threshold: nat, c: Candidate, status: Option<History>, j: nat)
    requires |statuses| == |cs|
    ensures j < |cs| ==> (DueAt(was, cs + [c], statuses + [status], source, threshold, j)
                          <==> DueAt(was, cs, statuses, source, threshold, j))
    ensures DueAt(was, cs + [c], statuses + [status], source, threshold, |cs|)
            <==> c.signature in was && Due(was[c.signature], status, source, threshold)
  {
    hide Due;
  }

  lemma {:induction false} MemberStep(was: map<Signature, Row>, now: map<Signature, Row>, cs: seq<Candidate>,
                                      statuses: seq<Option<History>>, source: Source, threshold: nat, c: Candidate,
                                      status: Option<History>, row': Row, x: Candidate)
    requires |statuses| == |cs| && Distinct(cs + [c]) && Member(was, now, cs, statuses, source, threshold, x)
    ensures Member(was, now[c.signature := row'], cs + [c], statuses + [status], source, threshold, x)
  {
    hide Due;
    NotAmong(cs, c);
    var j: nat :| DueAt(was, cs, statuses, source, threshold, j) && cs[j].signature == x.signature;
    assert j < |cs| by { DueAtBound(was, cs, statuses, source, threshold, j); }
    DueAtStep(was, cs, statuses, source, threshold, c, status, j);
    assert (cs + [c])[j].signature == x.signature;
  }

  lemma {:induction false} DueAtBound(was: map<Signature, Row>, cs: seq<Candidate>, statuses: seq<Option<History>>,
                                      source: Source, threshold: nat, j: nat)
    requires DueAt(was, cs, statuses, source, threshold, j)
    ensures j < |cs| == |statuses|
  {
  }

  lemma {:induction false} MembersStep(was: map<Signature, Row>, now: map<Signature, Row>, cs: seq<Candidate>,
                                       statuses: seq<Option<History>>, source: Source, threshold: nat, c: Candidate,
                                       status: Option<History>, row': Row, groups: seq<SlotGroup>)
    requires |statuses| == |cs| && Distinct(cs + [c])
    requires forall g :: g in groups ==> Members(was, now, cs, statuses, source, threshold, g)
    ensures forall g :: g in groups ==>
              Members(was, now[c.signature := row'], cs + [c], statuses + [status], source, threshold, g)
  {
    hide Member;
    forall g | g in groups ensures Members(was, now[c.signature := row'], cs + [c], statuses + [status], source, threshold, g) {
      forall x | x in g.eligible
        ensures Member(was, now[c.signature := row'], cs + [c], statuses + [status], source, threshold, x)
      {
        MemberStep(was, now, cs, statuses, source, threshold, c, status, row', x);
      }
    }
  }

  lemma {:induction false} SlotsStep(was: map<Signature, Row>, cs: seq<Candidate>, statuses: seq<Option<History>>,
                                     source: Source, threshold: nat, c: Candidate, status: Option<History>)
    requires |statuses| == |cs|
    ensures var slots := DueSlots(was, cs, statuses, source, threshold);
            DueSlots(was, cs + [c], statuses + [status], source, threshold)
            == if c.signature in was && Due(was[c.signature], status, source, threshold) && was[c.signature].slot !in slots
               then slots + [was[c.signature].slot] else slots
  {
    hide Due;
    assert (cs + [c])[..|cs|] == cs && (statuses + [status])[..|cs|] == statuses;
  }

  /** Polling one more candidate keeps the groups right. */
  lemma {:induction false} GroupedStep(was: map<Signature, Row>, now: map<Signature, Row>, cs: seq<Candidate>,
                                       statuses: seq<Option<History>>, source: Source, threshold: nat,
                                       groups: seq<SlotGroup>, c: Candidate, status: Option<History>, row': Row)
    requires Grouped(was, now, cs, statuses, source, threshold, groups) && Distinct(cs + [c]) && c.signature in was
    requires row'.slot == was[c.signature].slot
    requires Due(was[c.signature], status, source, threshold) ==> row'.provider.Some?
    ensures Grouped(was, now[c.signature := row'], cs + [c], statuses + [status], source, threshold,
                    if Due(was[c.signature], status, source, threshold)
                    then AddEligible(groups, ToCandidate(c.signature, row')) else groups)
  {
    hide Due, Members, DueSlots, AddEligible;
    var now', all, sts := now[c.signature := row'], cs + [c], statuses + [status];
    var x := ToCandidate(c.signature, row');
    var due := Due(was[c.signature], status, source, threshold);
    var groups' := if due then AddEligible(groups, x) else groups;
    MembersStep(was, now, cs, statuses, source, threshold, c, status, row', groups);
    SlotsStep(was, cs, statuses, source, threshold, c, status);
    AddedSlots(groups, x);
    NotAmong(cs, c);
    if due {
      DueAtStep(was, cs, statuses, source, threshold, c, status, |cs|);
      assert all[|cs|].signature == c.signature;
      assert Member(was, now', all, sts, source, threshold, x);
      AddedMembers(was, now', all, sts, source, threshold, groups, x);
    }
    forall j: nat | DueAt(was, all, sts, source, threshold, j)
      ensures all[j].signature in now' && InGroups(groups', ToCandidate(all[j].signature, now'[all[j].signature]))
    {
      DueAtBound(was, all, sts, source, threshold, j);
      DueAtStep(was, cs, statuses, source, threshold, c, status, j);
      AddedIn(groups, x, ToCandidate(all[j].signature, now'[all[j].signature]));
      if j < |cs| { assert all[j] == cs[j]; }
    }
  }

  // ------------------------------------------------- one candidate's poll

  lemma {:induction false} FinalizedOutcome(row: Row, h: History, source: Source)
    requires h.status == Finalized && EnqueueFinalized(row).Some?
    ensures AfterPoll(row, Some(h), EnqueueFinalized(row).value, source)
  {
  }

  lemma {:induction false} ObservedOutcome(row: Row, c: Candidate, status: Option<History>, source: Source,
                                           threshold: nat)
    requires RowOk(row) && (status.Some? ==> Open(status.value.status))
    requires var observed := if status.Some? then Some(status.value.status) else None;
             RecordPoll(row, c, observed, source.provider, source.pass).Some?
    ensures var observed := if status.Some? then Some(status.value.status) else None;
            var row' := RecordPoll(row, c, observed, source.provider, source.pass).value;
            && AfterPoll(row, status, row', source)
            && (observed.None? && Eligible(ToCandidate(c.signature, row'), source, threshold)
                <==> Due(row, status, source, threshold))
            && (Due(row, status, source, threshold) ==> row'.provider.Some?)
  {
    var observed := if status.Some? then Some(status.value.status) else None;
    var row' := RecordPoll(row, c, observed, source.provider, source.pass).value;
    if status.None? { DueIffCounted(row, c, source, threshold, row'); }
  }

  /** The candidate describes the row as it stands, and no counter is exhausted. */
  predicate Current(row: Row, c: Candidate) {
    && c == ToCandidate(c.signature, row) && row.phase == Done && Open(row.status)
    && row.version + 1 < MAX_VERSION && row.missing < MAX_SAFE
  }

  lemma {:induction false} CurrentPolls(row: Row, c: Candidate, observed: Option<Status>, source: Source)
    requires Current(row, c) && (observed.Some? ==> Open(observed.value))
    ensures RecordPoll(row, c, observed, source.provider, source.pass).Some?
    ensures PollTransition(c, observed, source.provider,
                           ToCandidate(c.signature, RecordPoll(row, c, observed, source.provider, source.pass).value))
    ensures EnqueueFinalized(row).Some?
  {
  }

  ghost predicate AllCurrent(rows: map<Signature, Row>, cs: seq<Candidate>, statuses: seq<Option<History>>) {
    && |statuses| == |cs|
    && forall j :: 0 <= j < |cs| ==>
         && cs[j].signature in rows && Current(rows[cs[j].signature], cs[j])
         && (statuses[j].Some? ==> statuses[j].value.status != Orphaned)
  }

  // ------------------------------------------------------- the slots' proof

  predicate Touched(groups: seq<SlotGroup>, k: Signature) {
    exists i :: 0 <= i < |groups| && InSlot(groups[i].eligible, k)
  }

  predicate InSlot(cs: seq<Candidate>, k: Signature) {
    exists j :: 0 <= j < |cs| && cs[j].signature == k
  }

  predicate Orphans(rows: map<Signature, Row>, cs: seq<Candidate>) {
    forall c :: c in cs ==> c.signature in rows && rows[c.signature].status == Orphaned
  }

  ghost predicate AllOrphans(rows: map<Signature, Row>, groups: seq<SlotGroup>) {
    forall g :: g in groups ==> Orphans(rows, g.eligible)
  }

  /** A revision of this candidate will commit, or already has. */
  predicate Revisable(rows: map<Signature, Row>, c: Candidate) {
    && c.signature in rows && c.provider.Some? &&
    var row := rows[c.signature];
    || (row.status == Orphaned && row.phase == Pending)
    || (c == ToCandidate(c.signature, row) && row.phase == Done && Open(row.status) && row.version < MAX_VERSION)
  }

  ghost predicate AllRevisable(rows: map<Signature, Row>, cs: seq<Candidate>) {
    forall c :: c in cs ==> Revisable(rows, c)
  }

  /** Orphaning one candidate. */
  lemma {:induction false} ReviseOutcome(rows: map<Signature, Row>, c: Candidate, x: Candidate)
    requires c.signature in rows
    ensures Revisable(rows, c) ==> EnqueueOrphaned(rows[c.signature], c).Some?
    ensures EnqueueOrphaned(rows[c.signature], c).Some? ==>
              var rows' := rows[c.signature := EnqueueOrphaned(rows[c.signature], c).value];
              && rows'[c.signature].status == Orphaned
              && (x.signature in rows && rows[x.signature].status == Orphaned ==> rows'[x.signature].status == Orphaned)
              && (Revisable(rows, c) && Revisable(rows, x) ==> Revisable(rows', x))
  {
  }

  // --------------------------------------------------------- the whole pass

  /** How a candidate's row ends: orphaned if it is due and its slot was proved, else as its poll left it. */
  predicate Ends(row: Row, status: Option<History>, row': Row, source: Source, threshold: nat, proved: seq<nat>) {
    if Due(row, status, source, threshold) && row.slot in proved then row'.status == Orphaned
    else AfterPoll(row, status, row', source)
  }

  function FirstSixteen(slots: seq<nat>): seq<nat> {
    if |slots| <= MAX_BLOCK_SLOTS_PER_RUN then slots else slots[..MAX_BLOCK_SLOTS_PER_RUN]
  }

  ghost predicate PassEnds(was: map<Signature, Row>, now: map<Signature, Row>, cs: seq<Candidate>,
                           statuses: seq<Option<History>>, source: Source, threshold: nat)
  {
    && |statuses| == |cs| && now.Keys == was.Keys
    && (var proved := FirstSixteen(DueSlots(was, cs, statuses, source, threshold));
        forall j :: 0 <= j < |cs| ==>
          cs[j].signature in was
          && Ends(was[cs[j].signature], statuses[j], now[cs[j].signature], source, threshold, proved))
    && forall k :: k in was && !Among(cs, k) ==> now[k] == was[k]
  }

  lemma {:induction false} SlotIndex(groups: seq<SlotGroup>, i: nat)
    requires i < |groups|
    ensures SlotsOf(groups)[i] == groups[i].slot
  {
  }

  /** A touched signature is due, at a proved slot. */
  lemma {:induction false} TouchedIsDue(was: map<Signature, Row>, mid: map<Signature, Row>, cs: seq<Candidate>,
                                        statuses: seq<Option<History>>, source: Source, threshold: nat,
                                        groups: seq<SlotGroup>, n: nat, k: Signature)
    requires Grouped(was, mid, cs, statuses, source, threshold, groups) && n <= |groups| && Touched(groups[..n], k)
    ensures DueSignature(was, cs, statuses, source, threshold, k)
    ensures k in mid && mid[k].slot in SlotsOf(groups)[..n]
  {
    hide Due, DueSlots, DueSignature;
    var i :| 0 <= i < |groups[..n]| && InSlot(groups[..n][i].eligible, k);
    var g := groups[i];
    var j :| 0 <= j < |g.eligible| && g.eligible[j].signature == k;
    assert g in groups && g.eligible[j] in g.eligible;
    assert Members(was, mid, cs, statuses, source, threshold, g);
    SlotIndex(groups, i);
    assert SlotsOf(groups)[..n][i] == g.slot;
  }

  /** A due candidate whose slot is proved is touched. */
  lemma {:induction false} DueIsTouched(was: map<Signature, Row>, mid: map<Signature, Row>, cs: seq<Candidate>,
                                        statuses: seq<Option<History>>, source: Source, threshold: nat,
                                        groups: seq<SlotGroup>, n: nat, j: nat)
    requires Grouped(was, mid, cs, statuses, source, threshold, groups) && n <= |groups|
    requires DueAt(was, cs, statuses, source, threshold, j)
    requires cs[j].signature in mid && mid[cs[j].signature].slot in SlotsOf(groups)[..n]
    ensures exists g :: g in groups[..n] && InGroups([g], ToCandidate(cs[j].signature, mid[cs[j].signature]))
  {
    hide Due, DueSlots, Members;
    var c := ToCandidate(cs[j].signature, mid[cs[j].signature]);
    var i :| 0 <= i < |groups| && groups[i].slot == c.slot && c in groups[i].eligible;
    var m :| 0 <= m < |SlotsOf(groups)[..n]| && SlotsOf(groups)[..n][m] == c.slot;
    SlotIndex(groups, i);
    SlotsDistinct(was, cs, statuses, source, threshold);
    assert SlotsOf(groups)[m] == SlotsOf(groups)[i];
    assert i == m;
    assert groups[..n][i] == groups[i];
    assert InGroups([groups[i]], c) by { assert [groups[i]][0] == groups[i]; }
  }

  lemma {:induction false} CandidateEnds(was: map<Signature, Row>, mid: map<Signature, Row>, now: map<Signature, Row>,
                                         cs: seq<Candidate>, statuses: seq<Option<History>>, source: Source,
                                         threshold: nat, groups: seq<SlotGroup>, n: nat, j: nat)
    requires Polled(was, mid, cs, statuses, source) && Grouped(was, mid, cs, statuses, source, threshold, groups)
    requires Distinct(cs) && n <= |groups| && j < |cs| && now.Keys == mid.Keys && AllOrphans(now, groups[..n])
    requires forall k :: k in mid && !Touched(groups[..n], k) ==> now[k] == mid[k]
    ensures Ends(was[cs[j].signature], statuses[j], now[cs[j].signature], source, threshold, SlotsOf(groups)[..n])
  {
    hide Due, Grouped, DueSignature, Touched, AfterPoll, AllOrphans;
    var k := cs[j].signature;
    if Due(was[k], statuses[j], source, threshold) && was[k].slot in SlotsOf(groups)[..n] {
      assert mid[k].slot == was[k].slot by { PolledSlot(was, mid, cs, statuses, source, j); }
      DueOrphaned(was, mid, now, cs, statuses, source, threshold, groups, n, j);
    } else if Touched(groups[..n], k) {
      TouchedIsDue(was, mid, cs, statuses, source, threshold, groups, n, k);
      OnlyDue(was, cs, statuses, source, threshold, j);
      PolledSlot(was, mid, cs, statuses, source, j);
    }
  }

  lemma {:induction false} PolledSlot(was: map<Signature, Row>, mid: map<Signature, Row>, cs: seq<Candidate>,
                                      statuses: seq<Option<History>>, source: Source, j: nat)
    requires Polled(was, mid, cs, statuses, source) && j < |cs|
    ensures cs[j].signature in mid && mid[cs[j].signature].slot == was[cs[j].signature].slot
  {
  }

  lemma {:induction false} DueOrphaned(was: map<Signature, Row>, mid: map<Signature, Row>, now: map<Signature, Row>,
                                       cs: seq<Candidate>, statuses: seq<Option<History>>, source: Source,
                                       threshold: nat, groups: seq<SlotGroup>, n: nat, j: nat)
    requires Grouped(was, mid, cs, statuses, source, threshold, groups) && n <= |groups| && AllOrphans(now, groups[..n])
    requires DueAt(was, cs, statuses, source, threshold, j)
    requires cs[j].signature in mid && mid[cs[j].signature].slot in SlotsOf(groups)[..n]
    ensures cs[j].signature in now && now[cs[j].signature].status == Orphaned
  {
    hide Due, Grouped, SlotsOf;
    DueIsTouched(was, mid, cs, statuses, source, threshold, groups, n, j);
    var c := ToCandidate(cs[j].signature, mid[cs[j].signature]);
    var g :| g in groups[..n] && InGroups([g], c);
    assert Orphans(now, g.eligible);
  }

  lemma {:induction false} OnlyDue(was: map<Signature, Row>, cs: seq<Candidate>, statuses: seq<Option<History>>,
                                   source: Source, threshold: nat, j: nat)
    requires Distinct(cs) && j < |cs| == |statuses| && cs[j].signature in was
    requires DueSignature(was, cs, statuses, source, threshold, cs[j].signature)
    ensures Due(was[cs[j].signature], statuses[j], source, threshold)
  {
    hide Due;
    var m: nat :| DueAt(was, cs, statuses, source, threshold, m) && cs[m].signature == cs[j].signature;
    assert m == j;
  }

  /** Polls and proofs together. */
  lemma {:induction false} PassOutcome(was: map<Signature, Row>, mid: map<Signature, Row>, now: map<Signature, Row>,
                                       cs: seq<Candidate>, statuses: seq<Option<History>>, source: Source,
                                       threshold: nat, groups: seq<SlotGroup>, n: nat)
    requires Polled(was, mid, cs, statuses, source) && Grouped(was, mid, cs, statuses, source, threshold, groups)
    requires Distinct(cs) && n <= |groups| && now.Keys == mid.Keys && AllOrphans(now, groups[..n])
    requires n == |groups| <= MAX_BLOCK_SLOTS_PER_RUN || n == MAX_BLOCK_SLOTS_PER_RUN
    requires forall k :: k in mid && !Touched(groups[..n], k) ==> now[k] == mid[k]
    ensures PassEnds(was, now, cs, statuses, source, threshold)
  {
    hide Ends, AfterPoll, DueSlots, AllOrphans;
    var slots := DueSlots(was, cs, statuses, source, threshold);
    assert SlotsOf(groups) == slots && |slots| == |groups|;
    assert FirstSixteen(slots) == SlotsOf(groups)[..n];
    forall j | 0 <= j < |cs|
      ensures cs[j].signature in was
      ensures Ends(was[cs[j].signature], statuses[j], now[cs[j].signature], source, threshold, FirstSixteen(slots))
    {
      CandidateEnds(was, mid, now, cs, statuses, source, threshold, groups, n, j);
    }
    forall k | k in was && !Among(cs, k) ensures now[k] == was[k] {
      if Touched(groups[..n], k) {
        TouchedIsDue(was, mid, cs, statuses, source, threshold, groups, n, k);
        DueAmong(was, cs, statuses, source, threshold, k);
      }
    }
  }

  lemma {:induction false} DueAmong(was: map<Signature, Row>, cs: seq<Candidate>, statuses: seq<Option<History>>,
                                    source: Source, threshold: nat, k: Signature)
    requires DueSignature(was, cs, statuses, source, threshold, k)
    ensures Among(cs, k)
  {
    hide Due;
  }

  /** Nothing stands in the way: every due candidate's block can be read and lacks it. */
  ghost predicate BlocksLack(was: map<Signature, Row>, cs: seq<Candidate>, statuses: seq<Option<History>>, source: Source,
                             threshold: nat, readBlock: nat -> Option<seq<Signature>>)
  {
    forall j: nat :: DueAt(was, cs, statuses, source, threshold, j) ==>
      && readBlock(was[cs[j].signature].slot).Some?
      && cs[j].signature !in readBlock(was[cs[j].signature].slot).value
  }

  predicate Provable(g: SlotGroup, readBlock: nat -> Option<seq<Signature>>) {
    readBlock(g.slot).Some? && !Contradicted(g.eligible, readBlock(g.slot).value)
  }

  /** The members of a group can be orphaned on their block. */
  lemma {:induction false} GroupsProvable(was: map<Signature, Row>, mid: map<Signature, Row>, cs: seq<Candidate>,
                                          statuses: seq<Option<History>>, source: Source, threshold: nat,
                                          groups: seq<SlotGroup>, g: SlotGroup, readBlock: nat -> Option<seq<Signature>>)
    requires Polled(was, mid, cs, statuses, source) && Grouped(was, mid, cs, statuses, source, threshold, groups)
    requires AllCurrent(was, cs, statuses) && BlocksLack(was, cs, statuses, source, threshold, readBlock)
    requires g in groups
    ensures AllRevisable(mid, g.eligible) && Provable(g, readBlock)
  {
    hide DueSlots, InGroups;
    assert Members(was, mid, cs, statuses, source, threshold, g);
    forall c | c in g.eligible
      ensures Revisable(mid, c) && readBlock(g.slot).Some? && c.signature !in readBlock(g.slot).value
    {
      assert Member(was, mid, cs, statuses, source, threshold, c);
      var j: nat :| DueAt(was, cs, statuses, source, threshold, j) && cs[j].signature == c.signature;
      assert AfterPoll(was[c.signature], statuses[j], mid[c.signature], source);
      assert Current(was[c.signature], cs[j]);
    }
    assert g.eligible[0] in g.eligible;
  }

  // ------------------------------------------------------- loop by loop

  /** A poll that was made: the row it left, and the candidate's place in the groups. */
  ghost predicate PollMade(row: Row, k: Signature, status: Option<History>, source: Source, threshold: nat, row': Row,
                           groups: seq<SlotGroup>, groups': seq<SlotGroup>)
  {
    && AfterPoll(row, status, row', source)
    && groups' == (if Due(row, status, source, threshold) then AddEligible(groups, ToCandidate(k, row')) else groups)
    && (Due(row, status, source, threshold) ==> row'.provider.Some?)
  }

  ghost predicate PolledSoFar(was: map<Signature, Row>, now: map<Signature, Row>, cs: seq<Candidate>,
                              statuses: seq<Option<History>>, source: Source, threshold: nat, groups: seq<SlotGroup>,
                              i: nat)
  {
    && i <= |cs| == |statuses| && Polled(was, now, cs[..i], statuses[..i], source)
    && Grouped(was, now, cs[..i], statuses[..i], source, threshold, groups)
  }

  lemma {:induction false} NothingPolled(was: map<Signature, Row>, cs: seq<Candidate>, statuses: seq<Option<History>>,
                                         source: Source, threshold: nat)
    requires |statuses| == |cs|
    ensures PolledSoFar(was, was, cs, statuses, source, threshold, [], 0)
  {
    assert cs[..0] == [] && statuses[..0] == [];
    assert SlotsOf([]) == [];
  }

  lemma {:induction false} DistinctPrefix(cs: seq<Candidate>, i: nat)
    requires Distinct(cs) && i < |cs|
    ensures cs[..i + 1] == cs[..i] + [cs[i]] && Distinct(cs[..i] + [cs[i]])
  {
    assert cs[..i + 1] == cs[..i] + [cs[i]];
  }

  /** The row of the next candidate is as it was. */
  lemma {:induction false} NextUntouched(was: map<Signature, Row>, now: map<Signature, Row>, cs: seq<Candidate>,
                                         statuses: seq<Option<History>>, source: Source, threshold: nat,
                                         groups: seq<SlotGroup>, i: nat)
    requires PolledSoFar(was, now, cs, statuses, source, threshold, groups, i) && Distinct(cs) && i < |cs|
    ensures cs[i].signature in now <==> cs[i].signature in was
    ensures cs[i].signature in was ==> now[cs[i].signature] == was[cs[i].signature]
  {
    hide Grouped, AfterPoll;
    DistinctPrefix(cs, i);
    NotAmong(cs[..i], cs[i]);
  }

  lemma {:induction false} PollCarries(was: map<Signature, Row>, mid: map<Signature, Row>, now: map<Signature, Row>,
                                       cs: seq<Candidate>, statuses: seq<Option<History>>, source: Source,
                                       threshold: nat, groups: seq<SlotGroup>, groups': seq<SlotGroup>, i: nat)
    requires PolledSoFar(was, mid, cs, statuses, source, threshold, groups, i) && Distinct(cs) && i < |cs|
    requires cs[i].signature in mid && cs[i].signature in now && now == mid[cs[i].signature := now[cs[i].signature]]
    requires PollMade(mid[cs[i].signature], cs[i].signature, statuses[i], source, threshold, now[cs[i].signature], groups, groups')
    ensures PolledSoFar(was, now, cs, statuses, source, threshold, groups', i + 1)
  {
    hide Polled, Grouped, AfterPoll, Due;
    NextUntouched(was, mid, cs, statuses, source, threshold, groups, i);
    DistinctPrefix(cs, i);
    assert statuses[..i + 1] == statuses[..i] + [statuses[i]];
    var k := cs[i].signature;
    PolledStep(was, mid, cs[..i], statuses[..i], source, cs[i], statuses[i], now[k]);
    assert now[k].slot == was[k].slot by { AfterPollSlot(was[k], statuses[i], now[k], source); }
    GroupedStep(was, mid, cs[..i], statuses[..i], source, threshold, groups, cs[i], statuses[i], now[k]);
  }

  lemma {:induction false} AfterPollSlot(row: Row, status: Option<History>, row': Row, source: Source)
    requires AfterPoll(row, status, row', source)
    ensures row'.slot == row.slot
  {
  }

  /** How many answers were final. */
  function Finals(statuses: seq<Option<History>>): nat {
    if statuses == [] then 0
    else Finals(statuses[..|statuses| - 1])
         + if statuses[|statuses| - 1].Some? && statuses[|statuses| - 1].value.status == Finalized then 1 else 0
  }

  /** Slots done so far: their members orphaned, every other row as it was, and what is left still revisable. */
  ghost predicate ProvedSoFar(was: map<Signature, Row>, now: map<Signature, Row>, groups: seq<SlotGroup>, n: nat,
                              unreadable: bool)
  {
    && n <= |groups| && now.Keys == was.Keys && (!unreadable ==> AllOrphans(now, groups[..n]))
    && (forall k :: k in was && !Touched(groups[..n], k) ==> now[k] == was[k])
    && forall c: Candidate :: Revisable(was, c) ==> Revisable(now, c)
  }

  lemma {:induction false} TouchedGrows(groups: seq<SlotGroup>, n: nat, k: Signature)
    requires n < |groups|
    ensures Touched(groups[..n + 1], k) <==> Touched(groups[..n], k) || InSlot(groups[n].eligible, k)
  {
    hide InSlot;
    var a, b := groups[..n], groups[..n + 1];
    assert b == a + [groups[n]];
    if Touched(a, k) {
      var i :| 0 <= i < |a| && InSlot(a[i].eligible, k);
      assert b[i] == a[i];
    }
    assert b[n] == groups[n];
  }

  /** One slot more. */
  ghost predicate SlotMade(was: map<Signature, Row>, now: map<Signature, Row>, cs: seq<Candidate>) {
    && now.Keys == was.Keys && Orphans(now, cs)
    && (forall k :: k in was && !InSlot(cs, k) ==> now[k] == was[k])
    && (forall k :: k in was && was[k].status == Orphaned ==> now[k].status == Orphaned)
    && forall c: Candidate :: Revisable(was, c) ==> Revisable(now, c)
  }

  lemma {:induction false} SlotCarries(was: map<Signature, Row>, mid: map<Signature, Row>, now: map<Signature, Row>,
                                       groups: seq<SlotGroup>, n: nat, unreadable: bool)
    requires ProvedSoFar(was, mid, groups, n, unreadable) && n < |groups| && SlotMade(mid, now, groups[n].eligible)
    ensures ProvedSoFar(was, now, groups, n + 1, unreadable)
  {
    hide Revisable, Touched, InSlot;
    forall k | k in was && !Touched(groups[..n + 1], k) ensures now[k] == was[k] { TouchedGrows(groups, n, k); }
    assert groups[..n + 1] == groups[..n] + [groups[n]];
  }

  lemma {:induction false} UnreadCarries(was: map<Signature, Row>, now: map<Signature, Row>, groups: seq<SlotGroup>, n: nat,
                                         unreadable: bool)
    requires ProvedSoFar(was, now, groups, n, unreadable) && n < |groups|
    ensures ProvedSoFar(was, now, groups, n + 1, true)
  {
    hide Revisable, Touched, InSlot;
    forall k | k in was && !Touched(groups[..n + 1], k) ensures now[k] == was[k] { TouchedGrows(groups, n, k); }
  }

  // --------------------------------------------- under any interleaving

  lemma {:induction false} FirstRow(s: System, who: nat, threshold: nat)
    requires Inv(s, threshold) && PassOf(s, who).Polling? && PassOf(s, who).candidates != []
    ensures var c := PassOf(s, who).candidates[0];
            c.signature in s.rows && RowOk(s.rows[c.signature]) && Held(s.rows[c.signature], c)
  {
    hide RowOk, Held, GroupsProved, OrphansOk, FinalsOk, SourcesOk;
    assert PassOk(s.rows, PassOf(s, who), threshold);
    assert PassOf(s, who).candidates[0] in PassOf(s, who).candidates;
    assert HeldIn(s.rows, PassOf(s, who).candidates[0]);
  }

  ghost function GroupsOf(p: Pass): seq<SlotGroup>
  {
    match p
    case Polling(_, _, _, groups) => groups
    case Proving(_, groups, _) => groups
    case Orphaning(_, groups, _, _, _, _) => groups
    case _ => []
  }

  /**
   Whatever else goes on: the poll of a candidate nobody has written since it was
   read, whose answer is missing, puts it among the slots to prove exactly when its
   row is due, beside whatever was there.
   */
  lemma {:induction false} DueIsGrouped(s: System, who: nat, threshold: nat, x: Candidate)
    requires Inv(s, threshold) && PassOf(s, who).Polling? && PassOf(s, who).candidates != []
    requires PassOf(s, who).statuses != [] && PassOf(s, who).statuses[0].None?
    requires var c := PassOf(s, who).candidates[0];
             c.signature in s.rows && s.rows[c.signature].version == c.version < MAX_VERSION && c.missing < MAX_SAFE
    ensures var p, t := PassOf(s, who), Step(s, Poll(who), threshold);
            var k := p.candidates[0].signature;
            && k in t.rows && (PassOf(t, who).Polling? || PassOf(t, who).Proving?)
            && (InGroups(GroupsOf(PassOf(t, who)), x) <==>
                InGroups(p.groups, x)
                || (Due(s.rows[k], None, p.source, threshold) && x == ToCandidate(k, t.rows[k])))
  {
    FirstRow(s, who, threshold);
    hide Inv, RowOk, Held, RecordPoll, Eligible, PollTransition, AddEligible, Due, AfterPoll, InGroups;
    var p := PassOf(s, who);
    var c := p.candidates[0];
    var row := s.rows[c.signature];
    PollCommitsIffUntouched(row, c, None, p.source.provider, p.source.pass);
    CommittedPollAccepted(row, c, None, p.source.provider, p.source.pass);
    ObservedOutcome(row, c, None, p.source, threshold);
    var polled := ToCandidate(c.signature, RecordPoll(row, c, None, p.source.provider, p.source.pass).value);
    AddedIn(p.groups, polled, x);
  }

  // --------------------------------------------------- confirmed for cause

  predicate SeenConfirmed(e: Evidence) {
    e.Seen? && e.status == Confirmed
  }

  ghost predicate SeenSince(log: seq<Evidence>, from: nat) {
    exists i :: from <= i < |log| && SeenConfirmed(log[i])
  }

  /** `row'` is open and confirmed exactly when `row` was or a poll in between saw it so. */
  ghost predicate Confirms(row: Row, row': Row) {
    row.log <= row'.log && (Open(row'.status) ==>
      Open(row.status) && (row'.status == Confirmed <==> row.status == Confirmed || SeenSince(row'.log, |row.log|)))
  }

  lemma {:induction false} ConfirmsSame(row: Row)
    ensures Confirms(row, row)
  {
  }

  lemma {:induction false} ConfirmsOn(a: Row, b: Row, c: Row)
    requires Confirms(a, b) && Confirms(b, c)
    ensures Confirms(a, c)
  {
    if SeenSince(b.log, |a.log|) {
      var i :| |a.log| <= i < |b.log| && SeenConfirmed(b.log[i]);
      assert c.log[i] == b.log[i];
    }
    if SeenSince(c.log, |a.log|) {
      var i :| |a.log| <= i < |c.log| && SeenConfirmed(c.log[i]);
      assert i < |b.log| ==> b.log[i] == c.log[i];
    }
  }

  lemma {:induction false} PollConfirms(row: Row, c: Candidate, observed: Option<Status>, provider: Provider, pass: nat)
    requires observed.Some? ==> Open(observed.value)
    requires RecordPoll(row, c, observed, provider, pass).Some?
    ensures Confirms(row, RecordPoll(row, c, observed, provider, pass).value)
  {
    var row' := RecordPoll(row, c, observed, provider, pass).value;
    assert row'.log[|row.log|] == if observed.Some? then Seen(observed.value, pass) else Missing(provider, pass);
  }

  lemma {:induction false} RevisionConfirms(row: Row, c: Candidate)
    ensures EnqueueFinalized(row).Some? ==> Confirms(row, EnqueueFinalized(row).value)
    ensures EnqueueOrphaned(row, c).Some? ==> Confirms(row, EnqueueOrphaned(row, c).value)
  {
    ConfirmsSame(row);
  }

  predicate Rewrites(e: Event, k: Signature) {
    e.Rewrite? && e.signature == k
  }

  lemma {:induction false} StepConfirms(s: System, e: Event, threshold: nat, k: Signature)
    requires k in s.rows && !Rewrites(e, k)
    ensures k in Step(s, e, threshold).rows && Confirms(s.rows[k], Step(s, e, threshold).rows[k])
  {
    hide Confirms, ConsistentHistory, Listable, Contradicted, PollTransition, Eligible, AddEligible, Advance, RecordPoll,
      EnqueueFinalized, EnqueueOrphaned, Rewritten, Fresh, Candidates;
    ConfirmsSame(s.rows[k]);
    match e
    case Poll(who) =>
      var p := PassOf(s, who);
      if p.Polling? && p.candidates != [] && p.statuses != [] {
        var c, status := p.candidates[0], p.statuses[0];
        if c.signature in s.rows {
          RevisionConfirms(s.rows[c.signature], c);
          var observed := if status.Some? then Some(status.value.status) else None;
          if observed.None? || Open(observed.value) {
            if RecordPoll(s.rows[c.signature], c, observed, p.source.provider, p.source.pass).Some? {
              PollConfirms(s.rows[c.signature], c, observed, p.source.provider, p.source.pass);
            }
          }
        }
      }
    case Revise(who) =>
      var p := PassOf(s, who);
      if p.Orphaning? && p.eligible != [] && p.eligible[0].signature in s.rows {
        RevisionConfirms(s.rows[p.eligible[0].signature], p.eligible[0]);
      }
    case _ =>
  }

  lemma {:induction false} RunConfirms(s: System, events: seq<Event>, threshold: nat, k: Signature)
    requires k in s.rows && forall e :: e in events ==> !Rewrites(e, k)
    ensures k in Run(s, events, threshold).rows && Confirms(s.rows[k], Run(s, events, threshold).rows[k])
    decreases |events|
  {
    hide Step, Confirms, Rewrites;
    if events == [] {
      ConfirmsSame(s.rows[k]);
    } else {
      assert events[0] in events;
      StepConfirms(s, events[0], threshold, k);
      var s1 := Step(s, events[0], threshold);
      RunConfirms(s1, events[1..], threshold, k);
      ConfirmsOn(s.rows[k], s1.rows[k], Run(s1, events[1..], threshold).rows[k]);
    }
  }

  /**
   Since another writer last touched it, an open row is confirmed exactly when it
   was confirmed then or a poll has seen it confirmed.
   */
  lemma {:induction false} ConfirmedForCause(s: System, events: seq<Event>, threshold: nat, k: Signature)
    requires k in s.rows && (forall e :: e in events ==> !Rewrites(e, k)) && k in Run(s, events, threshold).rows
    requires Open(Run(s, events, threshold).rows[k].status)
    ensures var row, row' := s.rows[k], Run(s, events, threshold).rows[k];
            row'.status == Confirmed <==> row.status == Confirmed || SeenSince(row'.log, |row.log|)
  {
    hide Run;
    RunConfirms(s, events, threshold, k);
  }
}
