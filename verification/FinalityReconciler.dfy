/**
 One uninterrupted reconciliation pass, as the loop over candidates and slots it
 is.  Each iteration is one step of the protocol, so a pass is one of its runs.
 */
module FinalityReconciler {
  import opened Prelude
  import opened Finality
  import opened FinalityTheorems
  import opened FinalityPass

  datatype Stage = PollFailed | RevisionFailed | BlockFailed | Contradiction

  datatype Counts = Counts(polls: nat, revisions: nat)

  lemma {:induction false} RunAppend(s: System, events: seq<Event>, e: Event, threshold: nat)
    ensures Run(s, events + [e], threshold) == Step(Run(s, events, threshold), e, threshold)
    decreases |events|
  {
    hide Step;
    if events == [] {
      assert Run(s, [e], threshold) == Run(Step(s, e, threshold), [e][1..], threshold);
      assert events + [e] == [e];
    } else {
      assert (events + [e])[1..] == events[1..] + [e] && (events + [e])[0] == events[0];
      RunAppend(Step(s, events[0], threshold), events[1..], e, threshold);
    }
  }

  class Reconciler {
    const threshold: nat
    /** The durable rows, through the repository. */
    var rows: map<Signature, Row>
    ghost var orphans: seq<OrphanRecord>
    ghost var finals: seq<FinalRecord>

    constructor (threshold: nat, rows: map<Signature, Row>)
      ensures this.threshold == threshold && this.rows == rows && orphans == [] && finals == []
    {
      this.threshold := threshold;
      this.rows := rows;
      orphans, finals := [], [];
    }

    /** The protocol's state while this pass stands at `p`. */
    ghost function At(who: nat, p: Pass, next: nat): System
      reads this
    {
      System(rows, map[who := p], next, orphans, finals)
    }

    /** A finalized answer: the revision is enqueued. */
    method FinalizeCandidate(source: Source, c: Candidate, h: History, ghost groups: seq<SlotGroup>) returns (ok: bool)
      requires c.signature in rows && h.status == Finalized
      modifies `rows, `finals
      ensures ok <==> EnqueueFinalized(old(rows)[c.signature]).Some?
      ensures !ok ==> rows == old(rows) && finals == old(finals)
      ensures ok ==>
                && rows == old(rows)[c.signature := EnqueueFinalized(old(rows)[c.signature]).value]
                && finals == (if old(rows)[c.signature].status == Finalized then old(finals)
                              else old(finals) + [FinalRecord(c.signature, old(rows)[c.signature].slot, source, h)])
                && PollMade(old(rows)[c.signature], c.signature, Some(h), source, threshold, rows[c.signature], groups, groups)
      ensures Current(old(rows)[c.signature], c) ==> ok
    {
      hide EnqueueFinalized, Current, PollMade;
      var row := rows[c.signature];
      var row' := EnqueueFinalized(row);
      if Current(row, c) { CurrentPolls(row, c, None, source); }
      if row'.None? { return false; }
      FinalMade(row, c.signature, h, source, threshold, groups);
      rows := rows[c.signature := row'.value];
      if row.status != Finalized { finals := finals + [FinalRecord(c.signature, row.slot, source, h)]; }
      return true;
    }

    /** Any other answer: the poll is recorded, and a missing candidate may become eligible. */
    method ObserveCandidate(source: Source, c: Candidate, status: Option<History>, groups: seq<SlotGroup>)
      returns (ok: bool, groups': seq<SlotGroup>)
      requires c.signature in rows && (status.Some? ==> Open(status.value.status))
      modifies `rows
      ensures var observed := if status.Some? then Some(status.value.status) else None;
              var row := RecordPoll(old(rows)[c.signature], c, observed, source.provider, source.pass);
              && (row.None? ==> !ok && rows == old(rows))
              && (row.Some? ==>
                    && rows == old(rows)[c.signature := row.value]
                    && var polled := ToCandidate(c.signature, row.value);
                       && (ok <==> PollTransition(c, observed, source.provider, polled))
                       && groups' == if observed.None? && Eligible(polled, source, threshold) then AddEligible(groups, polled) else groups)
      ensures ok && RowOk(old(rows)[c.signature]) ==>
                PollMade(old(rows)[c.signature], c.signature, status, source, threshold, rows[c.signature], groups, groups')
      ensures Current(old(rows)[c.signature], c) ==> ok
    {
      hide PollTransition, Eligible, RecordPoll, RowOk, PollMade, Current, AddEligible;
      ok, groups' := false, groups;
      var observed := if status.Some? then Some(status.value.status) else None;
      var row := RecordPoll(rows[c.signature], c, observed, source.provider, source.pass);
      if Current(rows[c.signature], c) { CurrentPolls(rows[c.signature], c, observed, source); }
      if row.None? { return; }
      if RowOk(rows[c.signature]) { ObservationMade(rows[c.signature], c, status, source, threshold, groups); }
      rows := rows[c.signature := row.value];
      var after := ToCandidate(c.signature, row.value);
      if observed.None? && Eligible(after, source, threshold) { groups' := AddEligible(groups, after); }
      ok := PollTransition(c, observed, source.provider, after);
    }

    /** Polls or finalizes one candidate; a missing one may become eligible. */
    method PollCandidate(ghost who: nat, ghost next: nat, source: Source, candidates: seq<Candidate>,
                         statuses: seq<Option<History>>,
                         groups: seq<SlotGroup>) returns (ok: bool, groups': seq<SlotGroup>, polled: bool)
      requires candidates != [] && statuses != []
      modifies this
      ensures var p := Polling(source, candidates, statuses, groups);
              Step(old(At(who, p, next)), Poll(who), threshold) == At(who, if ok then Advance(p, groups') else Idle, next)
      ensures ok ==> (polled <==> !(statuses[0].Some? && statuses[0].value.status == Finalized))
      ensures ok ==> candidates[0].signature in old(rows) && candidates[0].signature in rows
                     && rows == old(rows)[candidates[0].signature := rows[candidates[0].signature]]
      ensures ok && RowOk(old(rows)[candidates[0].signature]) ==>
                PollMade(old(rows)[candidates[0].signature], candidates[0].signature, statuses[0], source, threshold,
                         rows[candidates[0].signature], groups, groups')
      ensures (&& candidates[0].signature in old(rows) && Current(old(rows)[candidates[0].signature], candidates[0])
               && (statuses[0].Some? ==> statuses[0].value.status != Orphaned)) ==> ok
    {
      hide Advance, AddEligible, PollTransition, Eligible, EnqueueFinalized, RecordPoll, RowOk, PollMade, Current;
      ok, groups', polled := false, groups, false;
      var c, status := candidates[0], statuses[0];
      if c.signature !in rows { return; }
      if status.Some? && status.value.status == Finalized {
        ok := FinalizeCandidate(source, c, status.value, groups);
        return;
      }
      if status.Some? && !Open(status.value.status) { return; }
      ok, groups' := ObserveCandidate(source, c, status, groups);
      polled := true;
    }

    /** Orphans one eligible candidate of a slot whose block lacks it. */
    method ReviseCandidate(ghost who: nat, ghost next: nat, source: Source, ghost rest: seq<SlotGroup>,
                           ghost blocks: nat, ghost slot: nat,
                           block: seq<Signature>, eligible: seq<Candidate>) returns (ok: bool)
      requires eligible != []
      modifies this
      ensures Step(old(At(who, Orphaning(source, rest, blocks, slot, block, eligible), next)), Revise(who), threshold)
           == At(who, if ok then Orphaning(source, rest, blocks, slot, block, eligible[1..]) else Idle, next)
      ensures ok ==> SlotMade(old(rows), rows, [eligible[0]])
      ensures Revisable(old(rows), eligible[0]) ==> ok
    {
      hide EnqueueOrphaned, Revisable, SlotMade;
      RevisableKnown(rows, eligible[0]);
      var c := eligible[0];
      if c.signature !in rows || c.provider.None? { return false; }
      var row := rows[c.signature];
      var row' := EnqueueOrphaned(row, c);
      RevisionMade(rows, c);
      if row'.None? { return false; }
      rows := rows[c.signature := row'.value];
      if row.status != Orphaned {
        orphans := orphans + [OrphanRecord(c.signature, row.slot, source, slot, block, row.log)];
      }
      return true;
    }

    method OrphanSlot(ghost who: nat, ghost next: nat, source: Source, ghost rest: seq<SlotGroup>, ghost blocks: nat,
                      ghost slot: nat, block: seq<Signature>,
                      eligible: seq<Candidate>, ghost start: System, ghost before: seq<Event>)
      returns (ok: bool, revised: nat, ghost events: seq<Event>)
      requires Run(start, before, threshold) == At(who, Orphaning(source, rest, blocks, slot, block, eligible), next)
      modifies this
      ensures Run(start, events, threshold) == At(who, if ok then Proving(source, rest, blocks) else Idle, next)
      ensures ok ==> revised == |eligible| && SlotMade(old(rows), rows, eligible)
      ensures AllRevisable(old(rows), eligible) ==> ok
    {
      hide Run, Step, Revisable;
      events, revised := before, 0;
      SlotStarts(rows);
      assert eligible[..0] == [];
      while revised < |eligible|
        invariant revised <= |eligible| && SlotMade(old(rows), rows, eligible[..revised])
        invariant Run(start, events, threshold) == At(who, Orphaning(source, rest, blocks, slot, block, eligible[revised..]), next)
      {
        assert eligible[revised..][1..] == eligible[revised + 1..];
        RunAppend(start, events, Revise(who), threshold);
        events := events + [Revise(who)];
        ghost var mid := rows;
        assert eligible[revised] in eligible;
        ok := ReviseCandidate(who, next, source, rest, blocks, slot, block, eligible[revised..]);
        if !ok { return; }
        RevisionCarries(old(rows), mid, rows, eligible, revised);
        revised := revised + 1;
      }
      assert eligible[..revised] == eligible;
      assert eligible[revised..] == [];
      RunAppend(start, events, Revise(who), threshold);
      events := events + [Revise(who)];
      SlotDone(At(who, Orphaning(source, rest, blocks, slot, block, []), next), who, threshold);
      ok := true;
    }

    /** Polls every candidate in order, collecting the eligible ones by slot. */
    method PollAll(ghost who: nat, ghost next: nat, source: Source, candidates: seq<Candidate>,
                   statuses: seq<Option<History>>)
      returns (ok: bool, groups: seq<SlotGroup>, counts: Counts, ghost events: seq<Event>)
      requires candidates != [] && |statuses| == |candidates|
      modifies this
      ensures Run(old(At(who, Polling(source, candidates, statuses, []), next)), events, threshold)
           == At(who, if ok then Proving(source, groups, 0) else Idle, next)
      ensures ok ==> counts.polls + counts.revisions == |candidates| && counts.revisions == Finals(statuses)
      ensures ok && RowsOk(old(rows)) && Distinct(candidates) ==>
                && Polled(old(rows), rows, candidates, statuses, source)
                && Grouped(old(rows), rows, candidates, statuses, source, threshold, groups)
      ensures RowsOk(old(rows)) && Distinct(candidates) && AllCurrent(old(rows), candidates, statuses) ==> ok
    {
      hide Run, Step, AddEligible, Polled, Grouped, RowOk, AfterPoll, Due, Current;
      ghost var start := At(who, Polling(source, candidates, statuses, []), next);
      groups, counts, events := [], Counts(0, 0), [];
      assert Run(start, [], threshold) == start by { RunNone(start, threshold); }
      assert candidates[0..] == candidates && statuses[0..] == statuses && statuses[..0] == [];
      ghost var tidy := RowsOk(rows) && Distinct(candidates);
      NothingPolled(rows, candidates, statuses, source, threshold);
      var i := 0;
      while i < |candidates|
        invariant i <= |candidates| && counts.polls + counts.revisions == i && counts.revisions == Finals(statuses[..i])
        invariant tidy ==> PolledSoFar(old(rows), rows, candidates, statuses, source, threshold, groups, i)
        invariant Run(start, events, threshold)
               == At(who, if i < |candidates| then Polling(source, candidates[i..], statuses[i..], groups) else Proving(source, groups, 0), next)
      {
        RunAppend(start, events, Poll(who), threshold);
        events := events + [Poll(who)];
        ghost var p := Polling(source, candidates[i..], statuses[i..], groups);
        var polled;
        ghost var mid, before := rows, groups;
        if tidy { NextUntouched(old(rows), rows, candidates, statuses, source, threshold, groups, i); }
        ok, groups, polled := PollCandidate(who, next, source, candidates[i..], statuses[i..], groups);
        if !ok { return; }
        if tidy { PollCarries(old(rows), mid, rows, candidates, statuses, source, threshold, before, groups, i); }
        assert statuses[..i + 1] == statuses[..i] + [statuses[i]];
        assert candidates[i..][1..] == candidates[i + 1..] && statuses[i..][1..] == statuses[i + 1..];
        counts := if polled then counts.(polls := counts.polls + 1) else counts.(revisions := counts.revisions + 1);
        i := i + 1;
      }
      assert candidates[..i] == candidates && statuses[..i] == statuses;
      FinalsBounded(statuses);
      ok := true;
    }

    /** Reads the blocks of the eligible slots in order and revises each slot; an unreadable one does not stop it. */
    method ProveSlots(ghost who: nat, ghost next: nat, source: Source, eligible: seq<SlotGroup>,
                      readBlock: nat -> Option<seq<Signature>>)
      returns (stopped: Option<Stage>, unreadable: bool, blocks: nat, revised: nat, ghost events: seq<Event>)
      modifies this
      ensures Run(old(At(who, Proving(source, eligible, 0), next)), events, threshold) == At(who, Idle, next)
      ensures blocks <= |eligible| && blocks <= MAX_BLOCK_SLOTS_PER_RUN
      ensures stopped.None? ==> blocks == |eligible| || blocks == MAX_BLOCK_SLOTS_PER_RUN
      ensures stopped.None? ==> (unreadable <==> SomeUnreadable(eligible[..blocks], readBlock))
      ensures stopped.Some? ==> stopped == Some(Contradiction) || stopped == Some(RevisionFailed)
      ensures stopped.None? ==> ProvedSoFar(old(rows), rows, eligible, blocks, unreadable)
      ensures (forall g :: g in eligible ==> AllRevisable(old(rows), g.eligible) && Provable(g, readBlock)) ==> stopped.None? && !unreadable
    {
      hide Run, Step, Contradicted, ProvedSoFar, SlotMade, AllRevisable;
      ghost var start := At(who, Proving(source, eligible, 0), next);
      var groups := eligible;
      unreadable, blocks, revised, events := false, 0, 0, [];
      NothingProved(rows, eligible);
      RunNone(start, threshold);
      while groups != [] && blocks < MAX_BLOCK_SLOTS_PER_RUN
        invariant blocks <= MAX_BLOCK_SLOTS_PER_RUN && blocks <= |eligible| && groups == eligible[blocks..]
        invariant unreadable <==> SomeUnreadable(eligible[..blocks], readBlock)
        invariant ProvedSoFar(old(rows), rows, eligible, blocks, unreadable)
        invariant Run(start, events, threshold) == At(who, Proving(source, groups, blocks), next)
        decreases MAX_BLOCK_SLOTS_PER_RUN - blocks
      {
        var group := groups[0];
        var answer := readBlock(group.slot);
        RunAppend(start, events, ReadBlock(who, answer), threshold);
        events := events + [ReadBlock(who, answer)];
        BlockRead(At(who, Proving(source, groups, blocks), next), who, answer, threshold);
        assert eligible[..blocks + 1] == eligible[..blocks] + [group] && group in eligible;
        ghost var mid := rows;
        StillRevisable(old(rows), rows, eligible, blocks, unreadable, group.eligible);
        if answer.Some? && Contradicted(group.eligible, answer.value) {
          return Some(Contradiction), unreadable, blocks + 1, revised, events;
        }
        groups, blocks := groups[1..], blocks + 1;
        if answer.None? {
          UnreadCarries(old(rows), rows, eligible, blocks - 1, unreadable);
          unreadable := true;
        } else {
          var ok, n;
          ok, n, events := OrphanSlot(who, next, source, groups, blocks, group.slot, answer.value, group.eligible, start, events);
          if !ok { return Some(RevisionFailed), unreadable, blocks, revised, events; }
          SlotCarries(old(rows), mid, rows, eligible, blocks - 1, unreadable);
          revised := revised + n;
        }
      }
      RunAppend(start, events, ReadBlock(who, None), threshold);
      events := events + [ReadBlock(who, None)];
      BlockRead(At(who, Proving(source, groups, blocks), next), who, None, threshold);
      stopped := None;
    }

    /**
     A whole pass: it polls every candidate, then proves slots, and ends idle,
     having made exactly the writes of a run of the protocol.  `eligible` are the
     slots left to prove after the polls.  A pass that succeeds has read each of
     them, up to sixteen, and so has one that reports an unreadable block.
     */
    method RunPass(ghost who: nat, ghost next: nat, source: Source, candidates: seq<Candidate>,
                   statuses: seq<Option<History>>,
                   readBlock: nat -> Option<seq<Signature>>)
      returns (result: Result<Counts, Stage>, blocks: nat, ghost eligible: seq<SlotGroup>, ghost polls: seq<Event>,
               ghost proofs: seq<Event>)
      requires candidates != [] && |statuses| == |candidates|
      modifies this
      ensures Run(old(At(who, Polling(source, candidates, statuses, []), next)), polls + proofs, threshold)
           == At(who, Idle, next)
      ensures var s := Run(old(At(who, Polling(source, candidates, statuses, []), next)), polls, threshold);
              PassOf(s, who) == if result == Err(PollFailed) then Idle else Proving(source, eligible, 0)
      ensures blocks <= |eligible| && blocks <= MAX_BLOCK_SLOTS_PER_RUN
      ensures result.Ok? || result == Err(BlockFailed) ==>
                (blocks == |eligible| || blocks == MAX_BLOCK_SLOTS_PER_RUN)
                && (result.Ok? <==> !SomeUnreadable(eligible[..blocks], readBlock))
      ensures result.Ok? ==> result.value.polls == |candidates| - Finals(statuses) && result.value.revisions >= Finals(statuses)
      ensures result.Ok? && RowsOk(old(rows)) && Distinct(candidates) ==>
                PassEnds(old(rows), rows, candidates, statuses, source, threshold)
      ensures (&& RowsOk(old(rows)) && Distinct(candidates) && AllCurrent(old(rows), candidates, statuses)
               && BlocksLack(old(rows), candidates, statuses, source, threshold, readBlock)) ==> result.Ok?
    {
      hide Run, Step, SomeUnreadable, Polled, Grouped, RowOk, PassEnds, BlocksLack, AllCurrent, Provable, ProvedSoFar;
      ghost var start := At(who, Polling(source, candidates, statuses, []), next);
      blocks, eligible, proofs := 0, [], [];
      var ok, groups, counts;
      ok, groups, counts, polls := PollAll(who, next, source, candidates, statuses);
      assert polls + [] == polls;
      if !ok { return Err(PollFailed), blocks, eligible, polls, proofs; }
      eligible := groups;
      ghost var mid := rows;
      ghost var clean := RowsOk(old(rows)) && Distinct(candidates) && AllCurrent(old(rows), candidates, statuses)
                         && BlocksLack(old(rows), candidates, statuses, source, threshold, readBlock);
      if clean {
        forall g | g in groups ensures AllRevisable(rows, g.eligible) && Provable(g, readBlock) {
          GroupsProvable(old(rows), rows, candidates, statuses, source, threshold, groups, g, readBlock);
        }
      }
      var stopped, unreadable, revised;
      stopped, unreadable, blocks, revised, proofs := ProveSlots(who, next, source, groups, readBlock);
      RunConcat(start, polls, proofs, threshold);
      if stopped.None? && !unreadable && RowsOk(old(rows)) && Distinct(candidates) {
        ProvedFacts(mid, rows, groups, blocks);
        PassOutcome(old(rows), mid, rows, candidates, statuses, source, threshold, groups, blocks);
      }
      result := if stopped.Some? then Err(stopped.value)
                else if unreadable then Err(BlockFailed)
                else Ok(counts.(revisions := counts.revisions + revised));
    }
  }

  lemma {:induction false} FinalMade(row: Row, k: Signature, h: History, source: Source, threshold: nat, groups: seq<SlotGroup>)
    requires h.status == Finalized && EnqueueFinalized(row).Some?
    ensures PollMade(row, k, Some(h), source, threshold, EnqueueFinalized(row).value, groups, groups)
  {
    hide EnqueueFinalized;
    FinalizedOutcome(row, h, source);
  }

  lemma {:induction false} ObservationMade(row: Row, c: Candidate, status: Option<History>, source: Source, threshold: nat,
                                           groups: seq<SlotGroup>)
    requires RowOk(row) && (status.Some? ==> Open(status.value.status))
    requires var observed := if status.Some? then Some(status.value.status) else None;
             RecordPoll(row, c, observed, source.provider, source.pass).Some?
    ensures var observed := if status.Some? then Some(status.value.status) else None;
            var row' := RecordPoll(row, c, observed, source.provider, source.pass).value;
            var polled := ToCandidate(c.signature, row');
            PollMade(row, c.signature, status, source, threshold, row', groups,
                     if observed.None? && Eligible(polled, source, threshold) then AddEligible(groups, polled) else groups)
  {
    hide RecordPoll, AddEligible, Due, Eligible, AfterPoll;
    ObservedOutcome(row, c, status, source, threshold);
  }

  lemma {:induction false} FinalsBounded(statuses: seq<Option<History>>)
    ensures Finals(statuses) <= |statuses|
    decreases |statuses|
  {
    if statuses != [] { FinalsBounded(statuses[..|statuses| - 1]); }
  }

  lemma {:induction false} RevisableKnown(rows: map<Signature, Row>, c: Candidate)
    ensures Revisable(rows, c) ==> c.signature in rows && c.provider.Some?
  {
  }

  /** A committed revision orphans its row and disturbs nothing else. */
  lemma {:induction false} RevisionMade(rows: map<Signature, Row>, c: Candidate)
    requires c.signature in rows
    ensures Revisable(rows, c) ==> EnqueueOrphaned(rows[c.signature], c).Some?
    ensures EnqueueOrphaned(rows[c.signature], c).Some? ==>
              SlotMade(rows, rows[c.signature := EnqueueOrphaned(rows[c.signature], c).value], [c])
  {
    assert [c][0] == c;
    if EnqueueOrphaned(rows[c.signature], c).Some? {
      var rows' := rows[c.signature := EnqueueOrphaned(rows[c.signature], c).value];
      assert forall k :: k in rows && !InSlot([c], k) ==> k != c.signature;
      forall x: Candidate | Revisable(rows, x) ensures Revisable(rows', x) { ReviseOutcome(rows, c, x); }
    }
  }

  lemma {:induction false} SlotStarts(rows: map<Signature, Row>)
    ensures SlotMade(rows, rows, [])
  {
  }

  lemma {:induction false} RevisionCarries(was: map<Signature, Row>, mid: map<Signature, Row>, now: map<Signature, Row>,
                                           cs: seq<Candidate>, i: nat)
    requires i < |cs| && SlotMade(was, mid, cs[..i]) && SlotMade(mid, now, [cs[i]])
    ensures SlotMade(was, now, cs[..i + 1])
  {
    hide Revisable;
    assert cs[..i + 1] == cs[..i] + [cs[i]];
    assert [cs[i]][0] == cs[i];
    forall k | k in was && !InSlot(cs[..i + 1], k) ensures now[k] == was[k] {
      InSlotGrows(cs, i, k);
    }
  }

  lemma {:induction false} InSlotGrows(cs: seq<Candidate>, i: nat, k: Signature)
    requires i < |cs|
    ensures InSlot(cs[..i + 1], k) <==> InSlot(cs[..i], k) || InSlot([cs[i]], k)
  {
    var a, b := cs[..i], cs[..i + 1];
    assert b == a + [cs[i]] && b[i] == cs[i] && [cs[i]][0] == cs[i];
    if InSlot(a, k) {
      var j :| 0 <= j < |a| && a[j].signature == k;
      assert b[j] == a[j];
    }
  }

  lemma {:induction false} NothingProved(rows: map<Signature, Row>, groups: seq<SlotGroup>)
    ensures ProvedSoFar(rows, rows, groups, 0, false)
  {
    hide Revisable;
    assert groups[..0] == [];
  }

  lemma {:induction false} StillRevisable(was: map<Signature, Row>, now: map<Signature, Row>, groups: seq<SlotGroup>, n: nat,
                                          unreadable: bool, cs: seq<Candidate>)
    requires ProvedSoFar(was, now, groups, n, unreadable)
    ensures AllRevisable(was, cs) ==> AllRevisable(now, cs)
  {
    hide Revisable;
  }

  lemma {:induction false} ProvedFacts(was: map<Signature, Row>, now: map<Signature, Row>, groups: seq<SlotGroup>, n: nat)
    requires ProvedSoFar(was, now, groups, n, false)
    ensures n <= |groups| && now.Keys == was.Keys && AllOrphans(now, groups[..n])
    ensures forall k :: k in was && !Touched(groups[..n], k) ==> now[k] == was[k]
  {
    hide Revisable;
  }

  predicate SomeUnreadable(groups: seq<SlotGroup>, readBlock: nat -> Option<seq<Signature>>) {
    exists i :: 0 <= i < |groups| && readBlock(groups[i].slot).None?
  }

  lemma {:induction false} RunConcat(s: System, a: seq<Event>, b: seq<Event>, threshold: nat)
    ensures Run(s, a + b, threshold) == Run(Run(s, a, threshold), b, threshold)
    decreases |a|
  {
    hide Step;
    if a == [] {
      assert a + b == b;
    } else {
      assert (a + b)[1..] == a[1..] + b && (a + b)[0] == a[0];
      RunConcat(Step(s, a[0], threshold), a[1..], b, threshold);
    }
  }

  lemma {:induction false} RunNone(s: System, threshold: nat)
    ensures Run(s, [], threshold) == s
  {
  }

  lemma {:induction false} SlotDone(s: System, who: nat, threshold: nat)
    requires s.passes == map[who := PassOf(s, who)] && PassOf(s, who).Orphaning? && PassOf(s, who).eligible == []
    ensures var p := PassOf(s, who); Step(s, Revise(who), threshold) == s.(passes := map[who := Proving(p.source, p.groups, p.blocks)])
  {
  }

  lemma {:induction false} BlockRead(s: System, who: nat, answer: Option<seq<Signature>>, threshold: nat)
    requires s.passes == map[who := PassOf(s, who)] && PassOf(s, who).Proving?
    ensures var p := PassOf(s, who);
            Step(s, ReadBlock(who, answer), threshold)
            == s.(passes := map[who :=
                 if p.groups == [] || p.blocks >= MAX_BLOCK_SLOTS_PER_RUN then Idle
                 else if answer.None? then Proving(p.source, p.groups[1..], p.blocks + 1)
                 else if Contradicted(p.groups[0].eligible, answer.value) then Idle
                 else Orphaning(p.source, p.groups[1..], p.blocks + 1, p.groups[0].slot, answer.value, p.groups[0].eligible)])
  {
    hide Contradicted;
  }
}
