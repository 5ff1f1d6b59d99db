/**
 What one successful scan does to the checkpoints, the gaps and the inbox, told by
 the histories and their heads alone.
 */
module CatchUpAdvance {
  import opened Prelude
  import opened CatchUpDiscovery
  import opened CatchUpScanner
  import opened CatchUpCoverage

  /** The stored checkpoint is among the visible rows and the pages reach back to it. */
  predicate InWindow(h: seq<Row>, n: nat, c: Checkpoint, o: Options)
    requires n <= |h|
  {
    exists i :: 0 <= i < n && Matches(h[i], c) && n - 1 - i < if o.liveEdge then o.pageSize else o.pageSize * o.maxPages
  }

  /** There is a row newer than the checkpoint, or a first one. */
  predicate SomethingNew(h: seq<Row>, n: nat, was: Option<Checkpoint>)
    requires n <= |h|
  {
    n > 0 && !(was.Some? && Matches(h[n - 1], was.value))
  }

  /** The checkpoint is the newest visible row if that is new, and else what it was. */
  predicate Advanced(h: seq<Row>, n: nat, was: Option<Checkpoint>, now: Option<Checkpoint>)
    requires n <= |h|
  {
    if SomethingNew(h, n, was) then now.Some? && Matches(h[n - 1], now.value) else now == was
  }

  /** The gap noted when the window does not reach the checkpoint. */
  ghost function NotedGap(p: Program, h: seq<Row>, n: nat, was: Option<Checkpoint>, o: Options): set<(Program, Gap)>
    requires n <= |h|
  {
    if was.Some? && n > 0 && !InWindow(h, n, was.value, o) then {(p, Gap(was.value, h[n - 1].slot, h[n - 1].signature))} else {}
  }

  /** The rows a scan takes in: a first page, or everything newer than the checkpoint, or nothing across a gap. */
  predicate TakenIn(h: seq<Row>, n: nat, was: Option<Checkpoint>, o: Options, j: nat)
    requires n <= |h|
  {
    && j < n
    && match was
       case None => n <= j + o.pageSize
       case Some(c) => InWindow(h, n, c, o) && exists i :: 0 <= i < j && Matches(h[i], c)
  }

  ghost function Taken(h: seq<Row>, n: nat, was: Option<Checkpoint>, o: Options): set<Signature>
    requires n <= |h|
  {
    set j: nat | j < n && TakenIn(h, n, was, o, j) :: h[j].signature
  }

  /** The pages can be read: a first scan, a checkpoint in the window, or a live edge that is not behind it. */
  predicate Readable(h: seq<Row>, n: nat, was: Option<Checkpoint>, o: Options)
    requires n <= |h|
  {
    was.None? || InWindow(h, n, was.value, o)
    || (o.liveEdge && n > 0 && h[n - 1].slot >= was.value.slot && !Matches(h[n - 1], was.value))
  }

  /** The repository will take the newest row: a later slot, or the same slot at a later time, or across a gap. */
  predicate Storable(h: seq<Row>, n: nat, was: Option<Checkpoint>, o: Options, at: nat)
    requires n <= |h|
  {
    was.None? || !SomethingNew(h, n, was) || !InWindow(h, n, was.value, o) || h[n - 1].slot > was.value.slot
    || at > was.value.updatedAt
  }

  // ------------------------------------------------------- one program's scan

  lemma {:induction false} WindowIs(h: seq<Row>, n: nat, c: Checkpoint, o: Options)
    requires History(h) && n <= |h|
    ensures InWindow(h, n, c, o) <==>
            Locate(h, n, c).Some? && n - 1 - Locate(h, n, c).value < if o.liveEdge then o.pageSize else o.pageSize * o.maxPages
    ensures forall i :: 0 <= i < n && Matches(h[i], c) ==> Locate(h, n, c) == Some(i)
  {
    forall i | 0 <= i < n && Matches(h[i], c) ensures Locate(h, n, c) == Some(i) {
      var j := Locate(h, n, c).value;
      assert h[i].signature == h[j].signature;
    }
  }

  lemma {:induction false} SliceTaken(h: seq<Row>, n: nat, lo: nat)
    requires lo <= n <= |h|
    ensures Signatures(NewestFirst(h, lo, n)) == set j: nat | lo <= j < n :: h[j].signature
  {
    var rows := NewestFirst(h, lo, n);
    forall x ensures x in Signatures(rows) <==> exists j: nat :: lo <= j < n && h[j].signature == x {
      if x in Signatures(rows) {
        var r :| r in rows && r.signature == x;
        var i :| 0 <= i < |rows| && rows[i] == r;
        assert h[n - 1 - i] == r;
      }
      if j: nat :| lo <= j < n && h[j].signature == x {
        assert rows[n - 1 - j] == h[j];
      }
    }
  }

  /** What a scan returns, in these terms. */
  lemma {:induction false} FullScanMeans(h: seq<Row>, n: nat, was: Option<Checkpoint>, o: Options)
    requires History(h) && n <= |h| && ValidOptions(o)
    ensures var r := FullScan(h, n, was, o);
            && (r.Ok? <==> Readable(h, n, was, o))
            && (r.Ok? ==>
                  && Signatures(r.value.rows) == Taken(h, n, was, o)
                  && (r.value.newest == if SomethingNew(h, n, was) then Some(h[n - 1]) else None)
                  && (r.value.gap == if was.Some? && !InWindow(h, n, was.value, o)
                                     then Some(Gap(was.value, h[n - 1].slot, h[n - 1].signature)) else None))
  {
    if was.None? {
      SliceTaken(h, n, Below(n, o.pageSize));
      TakenFirst(h, n, o);
    } else {
      WindowIs(h, n, was.value, o);
      var at := Locate(h, n, was.value);
      if InWindow(h, n, was.value, o) {
        SliceTaken(h, n, at.value + 1);
        TakenNewer(h, n, was.value, o, at.value);
      } else {
        assert Taken(h, n, was, o) == {};
      }
    }
  }

  lemma {:induction false} TakenFirst(h: seq<Row>, n: nat, o: Options)
    requires n <= |h| && ValidOptions(o)
    ensures Taken(h, n, None, o) == set j: nat | Below(n, o.pageSize) <= j < n :: h[j].signature
  {
    assert forall j: nat :: j < n ==> (TakenIn(h, n, None, o, j) <==> Below(n, o.pageSize) <= j);
  }

  lemma {:induction false} TakenNewer(h: seq<Row>, n: nat, c: Checkpoint, o: Options, at: nat)
    requires History(h) && n <= |h| && InWindow(h, n, c, o) && Locate(h, n, c) == Some(at)
    ensures Taken(h, n, Some(c), o) == set j: nat | at + 1 <= j < n :: h[j].signature
  {
    WindowIs(h, n, c, o);
    assert forall j: nat :: j < n ==> (TakenIn(h, n, Some(c), o, j) <==> at + 1 <= j);
  }

  // --------------------------------------------------------------- storing

  /** What storing one program's scan does: that program's checkpoint and gap, and nothing else. */
  ghost predicate StoredAs(w: World, s: System, s': System, p: Program, n: nat, o: Options)
    requires n <= |HistoryOf(w, p)|
  {
    && Advanced(HistoryOf(w, p), n, Current(s, p), Current(s', p))
    && (forall q: Program :: q != p ==> Current(s', q) == Current(s, q))
    && s'.gaps == s.gaps + NotedGap(p, HistoryOf(w, p), n, Current(s, p), o)
    && s'.inbox == s.inbox
  }

  lemma {:induction false} StoreOneMeans(w: World, s: System, p: Program, n: nat, o: Options, at: nat)
    requires WorldOk(w) && n <= |HistoryOf(w, p)| && ValidOptions(o)
    requires FullScan(HistoryOf(w, p), n, Current(s, p), o).Ok?
    ensures var b := Based(p, Current(s, p), FullScan(HistoryOf(w, p), n, Current(s, p), o).value);
            var r := StoreOne(w, s, b, at);
            && (r.Some? ==> StoredAs(w, s, r.value, p, n, o))
            && (Storable(HistoryOf(w, p), n, Current(s, p), o, at) ==> r.Some?)
  {
    var h, was := HistoryOf(w, p), Current(s, p);
    FullScanMeans(h, n, was, o);
    hide FullScan;
    var scan := FullScan(h, n, was, o).value;
    var b := Based(p, was, scan);
    if scan.newest.None? {
      assert StoreOne(w, s, b, at) == Some(s);
      NothingNew(w, s, p, n, o);
    } else if scan.gap.None? {
      StorePointMeans(w, s, b, Checkpoint(scan.newest.value.slot, scan.newest.value.signature, at));
      if was.Some? { NewerSlot(h, n, was.value, o); }
    } else {
      StoreGapMeans(s, p, scan.gap.value, at);
    }
  }

  lemma {:induction false} NothingNew(w: World, s: System, p: Program, n: nat, o: Options)
    requires n <= |HistoryOf(w, p)| && !SomethingNew(HistoryOf(w, p), n, Current(s, p))
    requires Readable(HistoryOf(w, p), n, Current(s, p), o)
    ensures StoredAs(w, s, s, p, n, o)
  {
    assert s.gaps + {} == s.gaps;
  }

  lemma {:induction false} NewerSlot(h: seq<Row>, n: nat, c: Checkpoint, o: Options)
    requires History(h) && n <= |h| && InWindow(h, n, c, o)
    ensures n > 0 && h[n - 1].slot >= c.slot
  {
  }

  lemma {:induction false} StorePointMeans(w: World, s: System, b: Based, c: Checkpoint)
    ensures var r := StoreCheckpoint(w, s, b, c);
            && (r.Some? <==> Stores(Current(s, b.program), c))
            && (r.Some? ==>
                  && Current(r.value, b.program).Some? && Current(r.value, b.program).value.slot == c.slot
                  && Current(r.value, b.program).value.signature == c.signature
                  && (forall q: Program :: q != b.program ==> Current(r.value, q) == Current(s, q))
                  && r.value.gaps == s.gaps && r.value.inbox == s.inbox)
  {
    hide Stores, Position, Reaches;
  }

  lemma {:induction false} StoreGapMeans(s: System, p: Program, g: Gap, at: nat)
    ensures Current(s, p) == Some(g.previous) ==> RecordGap(s, p, g, at).Some?
    ensures var r := RecordGap(s, p, g, at);
            r.Some? ==>
              && Current(r.value, p).Some? && Current(r.value, p).value.slot == g.baselineSlot
              && Current(r.value, p).value.signature == g.baselineSignature
              && (forall q: Program :: q != p ==> Current(r.value, q) == Current(s, q))
              && r.value.gaps == s.gaps + {(p, g)} && r.value.inbox == s.inbox
  {
  }

  // --------------------------------------------------------------- merging

  /** The two programs never tell a shared signature differently. */
  ghost predicate Agreeing(w: World) {
    forall a, b :: a in w.launchpad && b in w.market && a.signature == b.signature ==> Agree(a, b)
  }

  lemma {:induction false} FlattenOf(scans: seq<Scan>, f: Found)
    requires f in Flatten(scans)
    ensures exists i :: 0 <= i < |scans| && f.row in scans[i].rows
    decreases |scans|
  {
    var last := |scans| - 1;
    if f in Flatten(scans[..last]) {
      FlattenOf(scans[..last], f);
      var i :| 0 <= i < |scans[..last]| && f.row in scans[..last][i].rows;
      assert scans[i] == scans[..last][i];
    } else {
      var k :| 0 <= k < |Tag(scans[last])| && Tag(scans[last])[k] == f;
    }
  }

  /** Every queued signature is one of a scanned row. */
  lemma {:induction false} MergedHoldsOnly(bs: seq<Based>)
    requires Merge(Flatten(Scans(bs))).Ok?
    ensures forall x :: x in Elements(Queue(Merge(Flatten(Scans(bs))).value)) ==>
              exists b :: b in bs && x in Signatures(b.scan.rows)
  {
    hide Merge, Flatten, Describes;
    var fs := Flatten(Scans(bs));
    var ms := Merge(fs).value;
    MergeMeans(fs);
    forall x | x in Elements(Queue(ms)) ensures exists b :: b in bs && x in Signatures(b.scan.rows) {
      var k :| 0 <= k < |ms| && Queue(ms)[k] == x;
      assert ms[k] in ms && Mentions(fs, x);
      var f :| f in fs && f.row.signature == x;
      FlattenOf(Scans(bs), f);
      var i :| 0 <= i < |Scans(bs)| && f.row in Scans(bs)[i].rows;
      assert bs[i] in bs && x in Signatures(bs[i].scan.rows);
    }
  }

  lemma {:induction false} TwoElements(a: Based, b: Based)
    requires Merge(Flatten(Scans([a, b]))).Ok?
    ensures Elements(Queue(Merge(Flatten(Scans([a, b]))).value)) == Signatures(a.scan.rows) + Signatures(b.scan.rows)
  {
    hide Merge, Flatten, Scans, Queue, Elements, Signatures;
    MergedHoldsOnly([a, b]);
    MergedHoldsAll([a, b]);
    assert a in [a, b] && b in [a, b];
  }

  /** Rows of agreeing histories always merge. */
  lemma {:induction false} AgreeingMerge(w: World, a: Based, b: Based)
    requires WorldOk(w) && Agreeing(w)
    requires (forall r :: r in a.scan.rows ==> r in w.launchpad) && forall r :: r in b.scan.rows ==> r in w.market
    ensures Merge(Flatten(Scans([a, b]))).Ok?
  {
    var scans := Scans([a, b]);
    assert scans[0].rows == a.scan.rows && scans[1].rows == b.scan.rows && |scans| == 2;
    hide Merge, Flatten, Scans;
    var fs := Flatten(scans);
    MergeMeans(fs);
    forall f, g | f in fs && g in fs && f.row.signature == g.row.signature ensures Agree(f.row, g.row) {
      FlattenOf(scans, f);
      FlattenOf(scans, g);
      RowsAgree(w, f.row, g.row);
    }
  }

  lemma {:induction false} RowsAgree(w: World, a: Row, b: Row)
    requires WorldOk(w) && Agreeing(w) && a.signature == b.signature
    requires (a in w.launchpad || a in w.market) && (b in w.launchpad || b in w.market)
    ensures Agree(a, b)
  {
    if a in w.launchpad && b in w.launchpad { SameRow(w.launchpad, a, b); }
    if a in w.market && b in w.market { SameRow(w.market, a, b); }
  }

  lemma {:induction false} SameRow(h: seq<Row>, a: Row, b: Row)
    requires History(h) && a in h && b in h && a.signature == b.signature
    ensures a == b
  {
  }

  lemma {:induction false} ScannedRows(h: seq<Row>, n: nat, was: Option<Checkpoint>, o: Options)
    requires n <= |h| && FullScan(h, n, was, o).Ok?
    ensures forall r :: r in FullScan(h, n, was, o).value.rows ==> r in h
  {
    hide Locate;
  }

  // ------------------------------------------------------------ both programs

  /** Every head is within its history. */
  ghost predicate Visible(w: World, s: System) {
    forall p: Program :: Head(s, p) <= |HistoryOf(w, p)|
  }

  ghost predicate AllReadable(w: World, s: System, o: Options)
    requires Visible(w, s)
  {
    forall p: Program :: Readable(HistoryOf(w, p), Head(s, p), Current(s, p), o)
  }

  /** The scan of a program from the stored checkpoint to the head. */
  ghost function ScanOf(w: World, s: System, p: Program, o: Options): Based
    requires Head(s, p) <= |HistoryOf(w, p)| && FullScan(HistoryOf(w, p), Head(s, p), Current(s, p), o).Ok?
  {
    Based(p, Current(s, p), FullScan(HistoryOf(w, p), Head(s, p), Current(s, p), o).value)
  }

  ghost function TakenFrom(w: World, s: System, p: Program, o: Options): set<Signature>
    requires Head(s, p) <= |HistoryOf(w, p)|
  {
    Taken(HistoryOf(w, p), Head(s, p), Current(s, p), o)
  }

  ghost function GapOf(w: World, s: System, p: Program, o: Options): set<(Program, Gap)>
    requires Head(s, p) <= |HistoryOf(w, p)|
  {
    NotedGap(p, HistoryOf(w, p), Head(s, p), Current(s, p), o)
  }

  /**
   What a successful scan leaves: each program's checkpoint at its newest visible
   row if that is new, a gap for each program whose window did not reach, and in
   the inbox exactly the rows taken in.
   */
  ghost predicate ScanDone(w: World, s: System, s': System, o: Options)
    requires Visible(w, s)
  {
    && (forall p: Program :: Advanced(HistoryOf(w, p), Head(s, p), Current(s, p), Current(s', p)))
    && s'.gaps == s.gaps + GapOf(w, s, Launchpad, o) + GapOf(w, s, Market, o)
    && s'.inbox == s.inbox + TakenFrom(w, s, Launchpad, o) + TakenFrom(w, s, Market, o)
  }

  ghost predicate AllStorable(w: World, s: System, o: Options, at: nat)
    requires Visible(w, s)
  {
    forall p: Program :: Storable(HistoryOf(w, p), Head(s, p), Current(s, p), o, at)
  }

  /** After the launchpad's store, and after both. */
  ghost predicate StoredSoFar(w: World, s: System, s': System, o: Options, i: nat)
    requires Visible(w, s)
  {
    && s'.heads == s.heads && s'.inbox == s.inbox
    && s'.gaps == s.gaps + (if i > 0 then GapOf(w, s, Launchpad, o) else {}) + (if i > 1 then GapOf(w, s, Market, o) else {})
    && (if i > 0 then Advanced(w.launchpad, Head(s, Launchpad), Current(s, Launchpad), Current(s', Launchpad))
        else Current(s', Launchpad) == Current(s, Launchpad))
    && (if i > 1 then Advanced(w.market, Head(s, Market), Current(s, Market), Current(s', Market))
        else Current(s', Market) == Current(s, Market))
  }

  lemma {:induction false} NothingStored(w: World, s: System, o: Options)
    requires Visible(w, s)
    ensures StoredSoFar(w, s, s, o, 0)
  {
    assert s.gaps + {} + {} == s.gaps;
  }

  lemma {:induction false} StoreCarries(w: World, s: System, mid: System, i: nat, o: Options, at: nat)
    requires WorldOk(w) && Visible(w, s) && ValidOptions(o) && i < 2 && StoredSoFar(w, s, mid, o, i)
    requires FullScan(HistoryOf(w, ProgramAt(i)), Head(s, ProgramAt(i)), Current(s, ProgramAt(i)), o).Ok?
    ensures var r := StoreOne(w, mid, ScanOf(w, s, ProgramAt(i), o), at);
            && (r.Some? ==> StoredSoFar(w, s, r.value, o, i + 1))
            && (AllStorable(w, s, o, at) ==> r.Some?)
  {
    hide FullScan, Advanced, Storable, NotedGap, StoreOne;
    var p := ProgramAt(i);
    StoreOneMeans(w, mid, p, Head(s, p), o, at);
    HeadsKept(w, mid, ScanOf(w, s, p, o), at);
  }

  lemma {:induction false} HeadsKept(w: World, s: System, b: Based, at: nat)
    ensures StoreOne(w, s, b, at).Some? ==> StoreOne(w, s, b, at).value.heads == s.heads
  {
    hide Stores, Stamped, Position, AtBaseline, AtPrevious, Reaches;
  }
}
