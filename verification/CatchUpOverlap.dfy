/** Two first scans that overlap, from the empty system: the later store skips a row. */
module CatchUpOverlap {
  import opened Prelude
  import Sorting
  import opened CatchUpDiscovery
  import opened CatchUpScanner
  import opened CatchUpCoverage

  /** One row a page, strict. */
  const ONE_ROW: Options := Options(1, 1, false)

  lemma {:induction false} RunCons(w: World, s: System, e: Event, rest: seq<Event>)
    ensures Run(w, s, [e] + rest) == Run(w, Step(w, s, e), rest)
  {
    hide Step;
    assert ([e] + rest)[1..] == rest;
  }

  lemma {:induction false} RunConcat(w: World, s: System, a: seq<Event>, b: seq<Event>)
    ensures Run(w, s, a + b) == Run(w, Run(w, s, a), b)
    decreases |a|
  {
    hide Step;
    if a == [] {
      assert a + b == b;
    } else {
      assert (a + b)[1..] == a[1..] + b && (a + b)[0] == a[0];
      RunConcat(w, Step(w, s, a[0]), a[1..], b);
    }
  }

  function NewestOf(row: Row): Based {
    Based(Launchpad, None, ProgramScan([row], Some(row), None))
  }

  const NOTHING: Based := Based(Market, None, ProgramScan([], None, None))

  lemma {:induction false} MergeOfOne(row: Row)
    ensures var merged := Merge(Flatten(Scans([NewestOf(row), NOTHING])));
            merged.Ok? && Queue(merged.value) == [row.signature]
  {
    hide Merge, Describes, Sorting.Sorted;
    FlattenOfOne(row);
    var fs := [Found(IdOf(Launchpad), row)];
    MergeMeans(fs);
    var ms := Merge(fs).value;
    assert fs[0] in fs;
    forall i | 0 <= i < |ms| ensures ms[i].signature == row.signature {
      assert ms[i] in ms && Mentions(fs, ms[i].signature);
    }
    var m :| m in ms && m.signature == row.signature;
    if |ms| >= 2 { TwoDiffer(ms); }
  }

  lemma {:induction false} TwoDiffer(ms: seq<Merged>)
    requires |ms| >= 2 && forall i, j :: 0 <= i < j < |ms| ==> ms[i].signature != ms[j].signature
    ensures ms[0].signature != ms[1].signature
  {
  }

  lemma {:induction false} FlattenOfOne(row: Row)
    ensures Flatten(Scans([NewestOf(row), NOTHING])) == [Found(IdOf(Launchpad), row)]
  {
    var scans := Scans([NewestOf(row), NOTHING]);
    assert scans == [Scan(IdOf(Launchpad), [row]), Scan(IdOf(Market), [])];
    assert scans[1..] == [Scan(IdOf(Market), [])] && scans[1..][1..] == [];
    assert Tag(scans[0]) == [Found(IdOf(Launchpad), row)] && Tag(scans[1]) == [];
    assert Flatten(scans[1..]) == Tag(scans[1]) + Flatten(scans[1..][1..]);
  }

  // -------------------------------------------- a scan that read nothing

  /** The rest of a scan that has just found no checkpoint: pages, merge, enqueue, store. */
  function Finish(who: nat): seq<Event> {
    [ReadPages(who), ReadCheckpoint(who), ReadPages(who), MergeScans(who), Enqueue(who), Enqueue(who), Store(who),
     Store(who), Store(who)]
  }

  /** What such a scan reads and stores: the newest launchpad row, nothing of the market. */
  predicate FirstScan(w: World, s: System, n: nat) {
    && w.market == [] && Head(s, Market) == 0 && Current(s, Market).None?
    && 1 <= n == Head(s, Launchpad) <= |w.launchpad|
  }

  function PointAt(row: Row, at: nat): Checkpoint {
    Checkpoint(row.slot, row.signature, at)
  }

  lemma {:induction false} WithTwice(s: System, who: nat, a: Local, b: Local)
    ensures With(With(s, who, a), who, b) == With(s, who, b)
    ensures LocalOf(With(s, who, a), who) == a
  {
  }

  /** Reading and merging. */
  lemma {:induction false} ReadsNewest(w: World, s: System, who: nat, at: nat, n: nat)
    requires FirstScan(w, s, n) && LocalOf(s, who) == Paging(ONE_ROW, at, [], None)
    ensures Run(w, s, [ReadPages(who), ReadCheckpoint(who), ReadPages(who), MergeScans(who)])
         == With(s, who, Enqueuing(at, [NewestOf(w.launchpad[n - 1]), NOTHING], [w.launchpad[n - 1].signature]))
  {
    assert 1 <= n <= |w.launchpad|;
    hide Run, Step, FirstScan, LocalOf;
    var b := NewestOf(w.launchpad[n - 1]);
    PagesLaunchpad(w, s, who, at, n);
    ReadsMarket(w, s, who, at, n, b);
    PagesMarket(w, s, who, at, n, b);
    MergesOne(w, s, who, at, w.launchpad[n - 1]);
    RunFour(w, s, [ReadPages(who), ReadCheckpoint(who), ReadPages(who), MergeScans(who)]);
  }

  lemma {:induction false} ReadsMarket(w: World, s: System, who: nat, at: nat, n: nat, b: Based)
    requires FirstScan(w, s, n)
    ensures Step(w, With(s, who, Reading(ONE_ROW, at, [b])), ReadCheckpoint(who))
            == With(s, who, Paging(ONE_ROW, at, [b], None))
  {
    WithTwice(s, who, Reading(ONE_ROW, at, [b]), Paging(ONE_ROW, at, [b], None));
  }

  lemma {:induction false} MergesOne(w: World, s: System, who: nat, at: nat, row: Row)
    ensures Step(w, With(s, who, Reading(ONE_ROW, at, [NewestOf(row), NOTHING])), MergeScans(who))
            == With(s, who, Enqueuing(at, [NewestOf(row), NOTHING], [row.signature]))
  {
    MergeOfOne(row);
    hide Merge, Flatten, Scans, Queue;
    var done := [NewestOf(row), NOTHING];
    WithTwice(s, who, Reading(ONE_ROW, at, done), Enqueuing(at, done, [row.signature]));
  }

  lemma {:induction false} PagesLaunchpad(w: World, s: System, who: nat, at: nat, n: nat)
    requires FirstScan(w, s, n) && LocalOf(s, who) == Paging(ONE_ROW, at, [], None)
    ensures Step(w, s, ReadPages(who)) == With(s, who, Reading(ONE_ROW, at, [NewestOf(w.launchpad[n - 1])]))
  {
    PageOfOne(w.launchpad, n);
    hide FullScan;
    var b := NewestOf(w.launchpad[n - 1]);
    assert [] + [b] == [b];
  }

  lemma {:induction false} PagesMarket(w: World, s: System, who: nat, at: nat, n: nat, b: Based)
    requires FirstScan(w, s, n)
    ensures Step(w, With(s, who, Paging(ONE_ROW, at, [b], None)), ReadPages(who))
            == With(s, who, Reading(ONE_ROW, at, [b, NOTHING]))
  {
    PageOfNone();
    hide FullScan;
    WithTwice(s, who, Paging(ONE_ROW, at, [b], None), Reading(ONE_ROW, at, [b, NOTHING]));
    assert [b] + [NOTHING] == [b, NOTHING];
  }

  lemma {:induction false} PageOfOne(h: seq<Row>, n: nat)
    requires 1 <= n <= |h|
    ensures FullScan(h, n, None, ONE_ROW) == Ok(NewestOf(h[n - 1]).scan)
  {
    assert NewestFirst(h, n - 1, n) == [h[n - 1]];
  }

  lemma {:induction false} PageOfNone()
    ensures FullScan([], 0, None, ONE_ROW) == Ok(NOTHING.scan)
  {
    assert NewestFirst([], 0, 0) == [];
  }

  lemma {:induction false} RunFour(w: World, s: System, e: seq<Event>)
    requires |e| == 4
    ensures Run(w, s, e) == Step(w, Step(w, Step(w, Step(w, s, e[0]), e[1]), e[2]), e[3])
  {
    hide Step;
    var s1 := Step(w, s, e[0]);
    var s2 := Step(w, s1, e[1]);
    var s3 := Step(w, s2, e[2]);
    assert e[1..][1..] == e[2..] && e[2..][1..] == e[3..] && e[3..][1..] == [];
    assert Run(w, s, e) == Run(w, s1, e[1..]) == Run(w, s2, e[2..]);
    assert Run(w, s2, e[2..]) == Run(w, s3, e[3..]) == Run(w, Step(w, s3, e[3]), []);
  }

  lemma {:induction false} RunFive(w: World, s: System, e: seq<Event>)
    requires |e| == 5
    ensures Run(w, s, e) == Step(w, Step(w, Step(w, Step(w, Step(w, s, e[0]), e[1]), e[2]), e[3]), e[4])
  {
    hide Step, Run;
    assert e == e[..4] + [e[4]];
    RunConcat(w, s, e[..4], [e[4]]);
    RunFour(w, s, e[..4]);
    var t := Run(w, s, e[..4]);
    RunCons(w, t, e[4], []);
    assert [e[4]] + [] == [e[4]];
    RunNothing(w, Step(w, t, e[4]));
  }

  lemma {:induction false} RunNothing(w: World, s: System)
    ensures Run(w, s, []) == s
  {
  }

  /** The row is in the inbox and is the checkpoint. */
  function Written(w: World, s: System, row: Row, at: nat): System
    requires Stores(Current(s, Launchpad), PointAt(row, at))
  {
    StoreCheckpoint(w, s, NewestOf(row), PointAt(row, at)).value.(inbox := s.inbox + {row.signature})
  }

  lemma {:induction false} ReachesSame(w: World, s: System, t: System, b: Based, c: Checkpoint)
    requires t.checkpoints == s.checkpoints
    ensures Reaches(w, t, b, c) <==> Reaches(w, s, b, c)
  {
    hide Position;
  }

  /** The store reads neither the scanners nor the inbox. */
  lemma {:induction false} StoreElsewhere(w: World, s: System, who: nat, l: Local, row: Row, at: nat, inbox: set<Signature>)
    requires Stores(Current(s, Launchpad), PointAt(row, at))
    ensures StoreCheckpoint(w, With(s.(inbox := inbox), who, l), NewestOf(row), PointAt(row, at))
            == Some(With(StoreCheckpoint(w, s, NewestOf(row), PointAt(row, at)).value.(inbox := inbox), who, l))
  {
    hide Stores, Stamped, Rebase;
    RebaseElsewhere(w, s, With(s.(inbox := inbox), who, l), NewestOf(row), PointAt(row, at));
    var t := With(s.(inbox := inbox), who, l);
    assert Current(t, Launchpad) == Current(s, Launchpad);
  }

  lemma {:induction false} RebaseElsewhere(w: World, s: System, t: System, b: Based, c: Checkpoint)
    requires t == s.(inbox := t.inbox, scans := t.scans)
    ensures Rebase(w, t, b, c) == Rebase(w, s, b, c).(inbox := t.inbox, scans := t.scans)
    ensures Rebase(w, s, b, c).scans == s.scans && Rebase(w, s, b, c).checkpoints == s.checkpoints
  {
    hide Position, Reaches;
    ReachesSame(w, s, t, b, c);
  }

  lemma {:induction false} StoreStepIs(w: World, s: System, who: nat, at: nat, row: Row)
    requires Stores(Current(s, Launchpad), PointAt(row, at))
    ensures var s1 := s.(inbox := s.inbox + {row.signature});
            Step(w, With(s1, who, Storing(at, [NewestOf(row), NOTHING])), Store(who))
            == With(Written(w, s, row, at), who, Storing(at, [NOTHING]))
  {
    hide Stores, StoreCheckpoint;
    var l2, l3 := Storing(at, [NewestOf(row), NOTHING]), Storing(at, [NOTHING]);
    assert [NewestOf(row), NOTHING][1..] == [NOTHING];
    StoreElsewhere(w, s, who, l2, row, at, s.inbox + {row.signature});
    WithTwice(Written(w, s, row, at), who, l2, l3);
  }

  /** Writing. */
  lemma {:induction false} StoresNewest(w: World, s: System, who: nat, at: nat, row: Row)
    requires LocalOf(s, who) == Enqueuing(at, [NewestOf(row), NOTHING], [row.signature])
    requires Stores(Current(s, Launchpad), PointAt(row, at))
    ensures Run(w, s, [Enqueue(who), Enqueue(who), Store(who), Store(who), Store(who)])
         == With(Written(w, s, row, at), who, Idle)
  {
    hide Run, Stores, StoreOne, Written, StoreCheckpoint;
    var b := NewestOf(row);
    var l1 := Enqueuing(at, [b, NOTHING], []);
    var l2, l3, l4 := Storing(at, [b, NOTHING]), Storing(at, [NOTHING]), Storing(at, []);
    var s1, t1 := s.(inbox := s.inbox + {row.signature}), Written(w, s, row, at);
    var e := [Enqueue(who), Enqueue(who), Store(who), Store(who), Store(who)];
    assert [row.signature][1..] == [];
    WithTwice(s1, who, l1, l2);
    WithTwice(t1, who, l3, l4);
    WithTwice(t1, who, l4, Idle);
    assert Step(w, s, e[0]) == With(s1, who, l1);
    assert Step(w, With(s1, who, l1), e[1]) == With(s1, who, l2);
    StoreStepIs(w, s, who, at, row);
    StoreNothing(w, With(t1, who, l3), at);
    assert Step(w, With(t1, who, l3), e[3]) == With(t1, who, l4) by { assert [NOTHING][1..] == []; }
    assert Step(w, With(t1, who, l4), e[4]) == With(t1, who, Idle);
    RunFive(w, s, e);
  }

  lemma {:induction false} StoreNothing(w: World, s: System, at: nat)
    ensures StoreOne(w, s, NOTHING, at) == Some(s)
  {
  }

  lemma {:induction false} ScanFinishes(w: World, s: System, who: nat, at: nat, n: nat)
    requires FirstScan(w, s, n) && LocalOf(s, who) == Paging(ONE_ROW, at, [], None)
    requires Stores(Current(s, Launchpad), PointAt(w.launchpad[n - 1], at))
    ensures Run(w, s, Finish(who)) == With(Written(w, s, w.launchpad[n - 1], at), who, Idle)
  {
    assert 1 <= n <= |w.launchpad|;
    hide Run, Stores, Step, StoreCheckpoint, FirstScan;
    var row := w.launchpad[n - 1];
    ReadsNewest(w, s, who, at, n);
    var l := Enqueuing(at, [NewestOf(row), NOTHING], [row.signature]);
    StoresNewest(w, With(s, who, l), who, at, row);
    RunConcat(w, s, [ReadPages(who), ReadCheckpoint(who), ReadPages(who), MergeScans(who)],
              [Enqueue(who), Enqueue(who), Store(who), Store(who), Store(who)]);
    assert Finish(who) == [ReadPages(who), ReadCheckpoint(who), ReadPages(who), MergeScans(who)]
                       + [Enqueue(who), Enqueue(who), Store(who), Store(who), Store(who)];
    StoreElsewhere(w, s, who, l, row, at, s.inbox);
    WithTwice(Written(w, s, row, at), who, l, Idle);
  }

  // -------------------------------------------------------------- the run

  function Plain(signature: Signature, slot: nat): Row {
    Row(signature, slot, Confirmed, None, false)
  }

  const HOLE_WORLD: World := World([Plain("a", 0), Plain("b", 1), Plain("c", 2)], [])

  /** Both scanners find no checkpoint; the second finishes; two rows arrive; the first finishes. */
  function Opening(): seq<Event> {
    [Grow(Launchpad, 1), Begin(0, ONE_ROW, 0), ReadCheckpoint(0), Begin(1, ONE_ROW, 0), ReadCheckpoint(1)]
  }

  function Overlap(): seq<Event> {
    Opening() + Finish(1) + [Grow(Launchpad, 3)] + Finish(0)
  }

  const WAITING: Local := Paging(ONE_ROW, 0, [], None)

  lemma {:induction false} OpeningRun()
    ensures Run(HOLE_WORLD, EMPTY, Opening())
         == System({}, map[], {}, map[Launchpad := 1], map[0 := WAITING, 1 := WAITING], map[], {})
  {
    hide Run;
    var w, e := HOLE_WORLD, Opening();
    var s1 := EMPTY.(heads := map[Launchpad := 1]);
    var s2 := s1.(scans := map[0 := Reading(ONE_ROW, 0, [])]);
    var s3 := s1.(scans := map[0 := WAITING]);
    var s4 := s1.(scans := map[0 := WAITING, 1 := Reading(ONE_ROW, 0, [])]);
    var s5 := s1.(scans := map[0 := WAITING, 1 := WAITING]);
    assert Step(w, EMPTY, e[0]) == s1 && Step(w, s1, e[1]) == s2 && Step(w, s2, e[2]) == s3;
    assert Step(w, s3, e[3]) == s4;
    assert Step(w, s4, e[4]) == s5;
    RunFive(w, EMPTY, e);
  }

  lemma {:induction false} HoleHistory()
    ensures WorldOk(HOLE_WORLD)
    ensures Position(HOLE_WORLD, Launchpad, Checkpoint(0, "a", 0)) == Some(0)
    ensures Position(HOLE_WORLD, Launchpad, Checkpoint(2, "c", 0)) == Some(2)
  {
    assert "b"[0] != "a"[0] && "c"[0] != "a"[0] && "b"[0] != "c"[0];
    PositionUnique(HOLE_WORLD, Launchpad, Checkpoint(0, "a", 0), 0);
    PositionUnique(HOLE_WORLD, Launchpad, Checkpoint(2, "c", 0), 2);
  }

  lemma {:induction false} OverlapRun()
    ensures Run(HOLE_WORLD, EMPTY, Overlap())
         == System({"a", "c"}, map[Launchpad := Checkpoint(2, "c", 0)], {}, map[Launchpad := 3], map[0 := Idle, 1 := Idle],
                   map[Launchpad := 0], {Launchpad})
  {
    hide Run, Step, Position;
    var w := HOLE_WORLD;
    HoleHistory();
    OpeningRun();
    var s1 := System({}, map[], {}, map[Launchpad := 1], map[0 := WAITING, 1 := WAITING], map[], {});
    ScanFinishes(w, s1, 1, 0, 1);
    var s2 := System({"a"}, map[Launchpad := Checkpoint(0, "a", 0)], {}, map[Launchpad := 1],
                     map[0 := WAITING, 1 := Idle], map[Launchpad := 0], {});
    assert Run(w, s1, Finish(1)) == s2;
    var s3 := s2.(heads := map[Launchpad := 3]);
    Growth(w, s2);
    ScanFinishes(w, s3, 0, 0, 3);
    RunConcat(w, EMPTY, Opening(), Finish(1));
    RunConcat(w, EMPTY, Opening() + Finish(1), [Grow(Launchpad, 3)]);
    RunConcat(w, EMPTY, Opening() + Finish(1) + [Grow(Launchpad, 3)], Finish(0));
  }

  lemma {:induction false} Growth(w: World, s: System)
    requires s.heads == map[Launchpad := 1] && |w.launchpad| == 3
    ensures Run(w, s, [Grow(Launchpad, 3)]) == s.(heads := map[Launchpad := 3])
  {
    var e := Grow(Launchpad, 3);
    assert Run(w, s, [e]) == Run(w, Step(w, s, e), []);
  }

  /**
   From the empty system: the first checkpoint was row 0 and the last is row 2, but
   row 1 is neither in the inbox nor in a recorded gap.
   */
  lemma {:induction false} OverlappingStartsLeaveHole()
    ensures WorldOk(HOLE_WORLD)
    ensures var s := Run(HOLE_WORLD, EMPTY, Overlap());
            && Current(s, Launchpad).Some? && Position(HOLE_WORLD, Launchpad, s.checkpoints[Launchpad]) == Some(2)
            && s.first == map[Launchpad := 0] && !Covered(HOLE_WORLD, s, Launchpad, 1)
    ensures SomeRestart(HOLE_WORLD, EMPTY, Overlap(), Launchpad)
  {
    hide Run, Position, SomeRestart;
    HoleHistory();
    OverlapRun();
    assert "b"[0] != "a"[0] && "b"[0] != "c"[0];
    var s := Run(HOLE_WORLD, EMPTY, Overlap());
    if !SomeRestart(HOLE_WORLD, EMPTY, Overlap(), Launchpad) {
      CheckpointsCovered(HOLE_WORLD, Overlap(), Launchpad);
    }
  }
}
