/** Joining the discoveries of several program scans into one row per signature. */
module CatchUpDiscovery {
  import opened Prelude
  import opened Sorting

  type Signature = string
  type ProgramId = string

  datatype Status = Processed | Confirmed | Finalized

  datatype Row = Row(signature: Signature, slot: nat, status: Status, blockTime: Option<nat>, failed: bool)

  datatype Merged = Merged(signature: Signature, slot: nat, status: Status, blockTime: Option<nat>, failed: bool,
                           programIds: seq<ProgramId>)

  datatype Scan = Scan(program: ProgramId, rows: seq<Row>)

  /** A row with the program whose scan found it. */
  datatype Found = Found(program: ProgramId, row: Row)

  datatype Error = Conflict(program: ProgramId)

  function Rank(s: Status): nat {
    match s case Processed => 0 case Confirmed => 1 case Finalized => 2
  }

  /** `update` exactly when the incoming status is stronger. */
  function Stronger(current: Status, incoming: Status): Status {
    if Rank(current) < Rank(incoming) then incoming else current
  }

  function Reconcile(m: Merged, f: Found): Result<Merged, Error> {
    var row := f.row;
    if m.slot != row.slot then Err(Conflict(f.program))
    else if m.blockTime.Some? && row.blockTime.Some? && m.blockTime != row.blockTime then Err(Conflict(f.program))
    else if m.failed != row.failed then Err(Conflict(f.program))
    else Ok(Merged(m.signature, m.slot, Stronger(m.status, row.status),
                   if m.blockTime.Some? then m.blockTime else row.blockTime, m.failed,
                   Sort(m.programIds + [f.program], LexLeq)))
  }

  /** The signatures in the order they were first met, and what is known of each. */
  datatype Table = Table(order: seq<Signature>, rows: map<Signature, Merged>)

  function Fresh(f: Found): Merged {
    Merged(f.row.signature, f.row.slot, f.row.status, f.row.blockTime, f.row.failed, [f.program])
  }

  function Add(t: Table, f: Found): Result<Table, Error> {
    var s := f.row.signature;
    if s !in t.rows then Ok(Table(t.order + [s], t.rows[s := Fresh(f)]))
    else
      match Reconcile(t.rows[s], f)
      case Err(e) => Err(e)
      case Ok(m) => Ok(t.(rows := t.rows[s := m]))
  }

  function Collect(fs: seq<Found>): Result<Table, Error> {
    if fs == [] then Ok(Table([], map[]))
    else
      match Collect(fs[..|fs| - 1])
      case Err(e) => Err(e)
      case Ok(t) => Add(t, fs[|fs| - 1])
  }

  function Values(order: seq<Signature>, rows: map<Signature, Merged>): (vs: seq<Merged>)
    requires forall s :: s in order ==> s in rows
    ensures |vs| == |order| && forall i :: 0 <= i < |vs| ==> vs[i] == rows[order[i]]
  {
    if order == [] then [] else [rows[order[0]]] + Values(order[1..], rows)
  }

  function First(ids: seq<ProgramId>): ProgramId {
    if ids == [] then "" else ids[0]
  }

  predicate DiscoveryLeq(a: Merged, b: Merged) {
    if a.slot != b.slot then a.slot < b.slot
    else if a.signature != b.signature then LexLeq(a.signature, b.signature)
    else LexLeq(First(a.programIds), First(b.programIds))
  }

  function Tag(scan: Scan): seq<Found> {
    seq(|scan.rows|, i requires 0 <= i < |scan.rows| => Found(scan.program, scan.rows[i]))
  }

  function Flatten(scans: seq<Scan>): seq<Found> {
    if scans == [] then [] else Flatten(scans[..|scans| - 1]) + Tag(scans[|scans| - 1])
  }

  // -------------------------------------------------- what a merge means

  predicate Agree(a: Row, b: Row) {
    a.slot == b.slot && a.failed == b.failed && (a.blockTime.None? || b.blockTime.None? || a.blockTime == b.blockTime)
  }

  /** No two rows of one signature disagree. */
  ghost predicate Consistent(fs: seq<Found>) {
    forall f, g :: f in fs && g in fs && f.row.signature == g.row.signature ==> Agree(f.row, g.row)
  }

  predicate Bounds(m: Merged, f: Found) {
    f.row.slot == m.slot && f.row.failed == m.failed && Rank(f.row.status) <= Rank(m.status)
    && (f.row.blockTime.Some? ==> m.blockTime == f.row.blockTime)
  }

  /** All program ids of the rows of a signature. */
  function ProgramsOf(fs: seq<Found>, s: Signature): multiset<ProgramId> {
    if fs == [] then multiset{}
    else ProgramsOf(fs[..|fs| - 1], s)
         + if fs[|fs| - 1].row.signature == s then multiset{fs[|fs| - 1].program} else multiset{}
  }

  ghost predicate Attained(fs: seq<Found>, m: Merged) {
    && (exists f :: f in fs && f.row.signature == m.signature && f.row.status == m.status)
    && (m.blockTime.Some? ==> exists f :: f in fs && f.row.signature == m.signature && f.row.blockTime == m.blockTime)
  }

  /** The merged row of a signature: the common facts, the strongest status, the known block time, every program. */
  ghost predicate Describes(fs: seq<Found>, s: Signature, m: Merged) {
    && m.signature == s
    && (forall f :: f in fs && f.row.signature == s ==> Bounds(m, f))
    && Attained(fs, m)
    && Sorted(m.programIds, LexLeq) && multiset(m.programIds) == ProgramsOf(fs, s)
  }

  ghost predicate Mentions(fs: seq<Found>, s: Signature) {
    exists f :: f in fs && f.row.signature == s
  }

  predicate Distinct(order: seq<Signature>) {
    forall i, j :: 0 <= i < j < |order| ==> order[i] != order[j]
  }

  ghost predicate TableOk(fs: seq<Found>, t: Table) {
    && Distinct(t.order)
    && (forall s :: s in t.order <==> s in t.rows)
    && (forall s :: s in t.rows <==> Mentions(fs, s))
    && forall s :: s in t.rows ==> Describes(fs, s, t.rows[s])
  }

  lemma {:induction false} DescribesFresh(fs: seq<Found>, f: Found)
    requires !Mentions(fs, f.row.signature)
    ensures Describes(fs + [f], f.row.signature, Fresh(f))
  {
    NoPrograms(fs, f.row.signature);
    assert (fs + [f])[..|fs|] == fs;
    assert f in fs + [f];
  }

  lemma {:induction false} NoPrograms(fs: seq<Found>, s: Signature)
    requires !Mentions(fs, s)
    ensures ProgramsOf(fs, s) == multiset{}
    decreases |fs|
  {
    if fs != [] {
      assert fs[|fs| - 1] in fs;
      assert forall f :: f in fs[..|fs| - 1] ==> f in fs;
      NoPrograms(fs[..|fs| - 1], s);
    }
  }

  /** Reconciling succeeds exactly when the new row agrees with every earlier row of its signature. */
  lemma {:induction false} ReconcileIff(fs: seq<Found>, m: Merged, f: Found)
    requires Describes(fs, f.row.signature, m)
    ensures Reconcile(m, f).Ok? <==>
            forall g :: g in fs && g.row.signature == f.row.signature ==> Agree(g.row, f.row)
  {
    hide Sort;
    if Reconcile(m, f).Ok? {
      forall g | g in fs && g.row.signature == f.row.signature ensures Agree(g.row, f.row) {
        assert Bounds(m, g);
      }
    }
  }

  lemma {:induction false} ReconcileDescribes(fs: seq<Found>, m: Merged, f: Found)
    requires Describes(fs, f.row.signature, m) && Reconcile(m, f).Ok?
    ensures Describes(fs + [f], f.row.signature, Reconcile(m, f).value)
  {
    hide Sort;
    var m' := Reconcile(m, f).value;
    LexIsOrder();
    SortSorts(m.programIds + [f.program], LexLeq);
    assert (fs + [f])[..|fs|] == fs;
    forall g | g in fs + [f] && g.row.signature == f.row.signature ensures Bounds(m', g) {
      if g in fs { assert Bounds(m, g); }
    }
    AttainedGrows(fs, m, f, m');
  }

  lemma {:induction false} AttainedGrows(fs: seq<Found>, m: Merged, f: Found, m': Merged)
    requires Attained(fs, m) && m'.signature == m.signature == f.row.signature
    requires m'.status == m.status || m'.status == f.row.status
    requires m'.blockTime == m.blockTime || m'.blockTime == f.row.blockTime
    ensures Attained(fs + [f], m')
  {
    assert f in fs + [f];
    var g :| g in fs && g.row.signature == m.signature && g.row.status == m.status;
    assert g in fs + [f];
    if m.blockTime.Some? {
      var h :| h in fs && h.row.signature == m.signature && h.row.blockTime == m.blockTime;
      assert h in fs + [f];
    }
  }

  /** A row of another signature changes nothing. */
  lemma {:induction false} DescribesOther(fs: seq<Found>, f: Found, s: Signature, m: Merged)
    requires Describes(fs, s, m) && f.row.signature != s
    ensures Describes(fs + [f], s, m)
  {
    assert (fs + [f])[..|fs|] == fs;
    assert forall g :: g in fs ==> g in fs + [f];
  }

  lemma {:induction false} AddOk(fs: seq<Found>, t: Table, f: Found)
    requires TableOk(fs, t)
    ensures Add(t, f).Ok? <==> forall g :: g in fs && g.row.signature == f.row.signature ==> Agree(g.row, f.row)
    ensures Add(t, f).Ok? ==> TableOk(fs + [f], Add(t, f).value)
  {
    hide Reconcile, Describes;
    var s := f.row.signature;
    if s in t.rows {
      ReconcileIff(fs, t.rows[s], f);
    } else {
      assert !Mentions(fs, s);
    }
    if Add(t, f).Ok? {
      var t' := Add(t, f).value;
      forall k ensures Mentions(fs + [f], k) <==> Mentions(fs, k) || k == s {
        if g :| g in fs && g.row.signature == k { assert g in fs + [f]; }
        assert f in fs + [f];
      }
      forall k | k in t'.rows ensures Describes(fs + [f], k, t'.rows[k]) {
        if k != s {
          DescribesOther(fs, f, k, t.rows[k]);
        } else if s in t.rows {
          ReconcileDescribes(fs, t.rows[s], f);
        } else {
          DescribesFresh(fs, f);
        }
      }
    }
  }

  /** Collecting fails exactly on a disagreement; otherwise the table describes all the rows. */
  lemma {:induction false} CollectMeans(fs: seq<Found>)
    ensures Collect(fs).Ok? <==> Consistent(fs)
    ensures Collect(fs).Ok? ==> TableOk(fs, Collect(fs).value)
    decreases |fs|
  {
    hide Add, TableOk;
    if fs == [] {
      EmptyTable();
    } else {
      var init, f := fs[..|fs| - 1], fs[|fs| - 1];
      assert fs == init + [f];
      CollectMeans(init);
      if Collect(init).Ok? { AddOk(init, Collect(init).value, f); }
      ConsistentSplit(init, f);
    }
  }

  lemma {:induction false} EmptyTable()
    ensures TableOk([], Table([], map[]))
  {
  }

  lemma {:induction false} ConsistentSplit(fs: seq<Found>, f: Found)
    ensures Consistent(fs + [f]) <==>
            Consistent(fs) && forall g :: g in fs && g.row.signature == f.row.signature ==> Agree(g.row, f.row)
  {
    assert f in fs + [f];
    assert forall g :: g in fs ==> g in fs + [f];
  }

  // -------------------------------------------------------- the whole merge

  lemma {:induction false} DiscoveryIsOrder()
    ensures TotalPreorder(DiscoveryLeq)
  {
    forall a, b ensures DiscoveryLeq(a, b) || DiscoveryLeq(b, a) {
      LexTotal(a.signature, b.signature);
      LexTotal(First(a.programIds), First(b.programIds));
    }
    forall a, b, c | DiscoveryLeq(a, b) && DiscoveryLeq(b, c) ensures DiscoveryLeq(a, c) {
      DiscoveryTransitive(a, b, c);
    }
  }

  lemma {:induction false} DiscoveryTransitive(a: Merged, b: Merged, c: Merged)
    requires DiscoveryLeq(a, b) && DiscoveryLeq(b, c)
    ensures DiscoveryLeq(a, c)
  {
    hide LexLeq;
    if a.slot == b.slot == c.slot {
      LexTotal(a.signature, b.signature);
      LexTotal(b.signature, c.signature);
      if LexLeq(a.signature, b.signature) && LexLeq(b.signature, c.signature) {
        LexTransitive(a.signature, b.signature, c.signature);
      }
      if a.signature == b.signature == c.signature {
        LexTransitive(First(a.programIds), First(b.programIds), First(c.programIds));
      }
    }
  }

  function Output(t: Table): seq<Merged> {
    if forall s :: s in t.order ==> s in t.rows then Sort(Values(t.order, t.rows), DiscoveryLeq) else []
  }

  function Merge(fs: seq<Found>): Result<seq<Merged>, Error> {
    match Collect(fs)
    case Err(e) => Err(e)
    case Ok(t) => Ok(Output(t))
  }

  /** One sorted row per mentioned signature, each describing all its rows. */
  ghost predicate IsMerge(fs: seq<Found>, ms: seq<Merged>) {
    && Sorted(ms, DiscoveryLeq)
    && (forall i, j :: 0 <= i < j < |ms| ==> ms[i].signature != ms[j].signature)
    && (forall m :: m in ms ==> Mentions(fs, m.signature) && Describes(fs, m.signature, m))
    && forall f :: f in fs ==> exists m :: m in ms && m.signature == f.row.signature
  }

  /** The merge fails exactly when two rows of a signature disagree, and otherwise is the described rows in order. */
  lemma {:induction false} MergeMeans(fs: seq<Found>)
    ensures Merge(fs).Ok? <==> Consistent(fs)
    ensures Merge(fs).Ok? ==> IsMerge(fs, Merge(fs).value)
  {
    hide Collect, Describes, Consistent;
    CollectMeans(fs);
    if Collect(fs).Ok? {
      OutputMeans(fs, Collect(fs).value);
    }
  }

  lemma {:induction false} OutputMeans(fs: seq<Found>, t: Table)
    requires TableOk(fs, t)
    ensures IsMerge(fs, Output(t))
  {
    hide TableOk, Describes, Sort, DiscoveryLeq, Sorted, Mentions, Values;
    TableFacts(fs, t);
    var vs := Values(t.order, t.rows);
    var ms := Sort(vs, DiscoveryLeq);
    assert Sorted(ms, DiscoveryLeq) && multiset(ms) == multiset(vs) by {
      DiscoveryIsOrder();
      SortSorts(vs, DiscoveryLeq);
    }
    SameSignatures(vs, ms);
    assert forall m :: m in ms <==> m in vs by { SameMembers(vs, ms); }
    forall f | f in fs ensures exists m :: m in ms && m.signature == f.row.signature {
      var i: nat := FoundIndex(fs, t, f);
      assert vs[i] in vs;
    }
  }

  /** The merged rows ascend by slot, and by signature within a slot. */
  lemma {:induction false} MergeAscends(fs: seq<Found>)
    requires Merge(fs).Ok?
    ensures var ms := Merge(fs).value;
            forall i, j :: 0 <= i < j < |ms| ==>
              ms[i].slot < ms[j].slot
              || (ms[i].slot == ms[j].slot && ms[i].signature != ms[j].signature && LexLeq(ms[i].signature, ms[j].signature))
  {
    hide Merge, Describes, Mentions, Consistent, LexLeq;
    MergeMeans(fs);
    var ms := Merge(fs).value;
    forall i, j | 0 <= i < j < |ms| ensures DiscoveryLeq(ms[i], ms[j]) && ms[i].signature != ms[j].signature {
      SortedPair(ms, i, j);
    }
  }

  lemma {:induction false} SortedPair(ms: seq<Merged>, i: nat, j: nat)
    requires Sorted(ms, DiscoveryLeq) && i < j < |ms|
    ensures DiscoveryLeq(ms[i], ms[j])
  {
    hide DiscoveryLeq;
  }

  /** A conflict is blamed on the program of the first row that disagrees with one before it. */
  lemma {:induction false} ConflictBlamed(fs: seq<Found>)
    requires Merge(fs).Err?
    ensures exists k: nat :: k < |fs| && Consistent(fs[..k]) && !Consistent(fs[..k + 1])
                             && Merge(fs).error == Conflict(fs[k].program)
    decreases |fs|
  {
    hide Consistent, Output;
    var init, f := fs[..|fs| - 1], fs[|fs| - 1];
    CollectMeans(fs);
    CollectMeans(init);
    if Collect(init).Err? {
      ConflictBlamed(init);
      var k: nat :| k < |init| && Consistent(init[..k]) && !Consistent(init[..k + 1]) && Merge(init).error == Conflict(init[k].program);
      assert fs[..k] == init[..k] && fs[..k + 1] == init[..k + 1] && fs[k] == init[k];
    } else {
      AddBlames(Collect(init).value, f);
      assert fs[..|fs| - 1] == init && fs[..|fs|] == fs;
    }
  }

  lemma {:induction false} AddBlames(t: Table, f: Found)
    ensures Add(t, f).Err? ==> Add(t, f).error == Conflict(f.program)
  {
  }

  lemma {:induction false} TableFacts(fs: seq<Found>, t: Table)
    requires TableOk(fs, t)
    ensures forall s :: s in t.order ==> s in t.rows
    ensures var vs := Values(t.order, t.rows);
            && (forall i :: 0 <= i < |vs| ==> vs[i].signature == t.order[i])
            && (forall i, j :: 0 <= i < j < |vs| ==> vs[i].signature != vs[j].signature)
            && forall m :: m in vs ==> Mentions(fs, m.signature) && Describes(fs, m.signature, m)
  {
    hide Describes, Mentions;
    forall i | 0 <= i < |t.order| ensures t.rows[t.order[i]].signature == t.order[i] {
      SignatureOf(fs, t.order[i], t.rows[t.order[i]]);
    }
  }

  lemma {:induction false} FoundIndex(fs: seq<Found>, t: Table, f: Found) returns (i: nat)
    requires TableOk(fs, t) && f in fs
    ensures i < |t.order| && t.order[i] == f.row.signature
  {
    hide Describes;
    assert Mentions(fs, f.row.signature);
    i :| i < |t.order| && t.order[i] == f.row.signature;
  }

  lemma {:induction false} SignatureOf(fs: seq<Found>, s: Signature, m: Merged)
    requires Describes(fs, s, m)
    ensures m.signature == s
  {
  }

  /** Distinct signatures stay distinct under rearrangement. */
  lemma {:induction false} SameSignatures(a: seq<Merged>, b: seq<Merged>)
    requires multiset(a) == multiset(b)
    requires forall i, j :: 0 <= i < j < |a| ==> a[i].signature != a[j].signature
    ensures forall i, j :: 0 <= i < j < |b| ==> b[i].signature != b[j].signature
  {
    forall i, j | 0 <= i < j < |b| ensures b[i].signature != b[j].signature {
      if b[i].signature == b[j].signature {
        assert b[i] in multiset(a) && b[j] in multiset(a);
        assert b[i] == b[j];
        Twice(b, i, j);
        OnlyOnce(a, b[i]);
      }
    }
  }

  // ------------------------------------------------- order independence

  lemma {:induction false} DescribesUnique(fs: seq<Found>, s: Signature, a: Merged, b: Merged)
    requires Mentions(fs, s) && Describes(fs, s, a) && Describes(fs, s, b)
    ensures a == b
  {
    LexIsOrder();
    forall x, y | x in a.programIds && y in a.programIds && LexLeq(x, y) && LexLeq(y, x) ensures x == y {
      LexTotal(x, y);
    }
    SortedUnique(a.programIds, b.programIds, LexLeq);
    CommonFacts(fs, s, a, b);
  }

  lemma {:induction false} CommonFacts(fs: seq<Found>, s: Signature, a: Merged, b: Merged)
    requires Mentions(fs, s) && Describes(fs, s, a) && Describes(fs, s, b)
    ensures a.slot == b.slot && a.status == b.status && a.blockTime == b.blockTime && a.failed == b.failed
  {
    hide ProgramsOf, Sorted;
    var f :| f in fs && f.row.signature == s && f.row.status == a.status;
    var g :| g in fs && g.row.signature == s && g.row.status == b.status;
    assert Bounds(a, f) && Bounds(b, f) && Bounds(a, g) && Bounds(b, g);
    if a.blockTime.Some? {
      var h :| h in fs && h.row.signature == s && h.row.blockTime == a.blockTime;
      assert Bounds(b, h);
    }
    if b.blockTime.Some? {
      var h :| h in fs && h.row.signature == s && h.row.blockTime == b.blockTime;
      assert Bounds(a, h);
    }
  }

  lemma {:induction false} ProgramsAppend(a: seq<Found>, b: seq<Found>, s: Signature)
    ensures ProgramsOf(a + b, s) == ProgramsOf(a, s) + ProgramsOf(b, s)
    decreases |b|
  {
    if b == [] {
      assert a + b == a;
    } else {
      assert (a + b)[..|a + b| - 1] == a + b[..|b| - 1];
      ProgramsAppend(a, b[..|b| - 1], s);
    }
  }

  lemma {:induction false} ProgramsRemove(fs: seq<Found>, k: nat, s: Signature)
    requires k < |fs|
    ensures ProgramsOf(fs, s) == ProgramsOf(fs[..k] + fs[k + 1..], s) + ProgramsOf([fs[k]], s)
  {
    hide ProgramsOf;
    assert fs == fs[..k] + ([fs[k]] + fs[k + 1..]);
    ProgramsAppend(fs[..k], [fs[k]] + fs[k + 1..], s);
    ProgramsAppend([fs[k]], fs[k + 1..], s);
    ProgramsAppend(fs[..k], fs[k + 1..], s);
  }

  lemma {:induction false} ProgramsPermute(a: seq<Found>, b: seq<Found>, s: Signature)
    requires multiset(a) == multiset(b)
    ensures ProgramsOf(a, s) == ProgramsOf(b, s)
    decreases |a|
  {
    if a == [] {
      assert |b| == |multiset(b)| == 0;
    } else {
      hide ProgramsOf;
      var n := |a| - 1;
      assert a[n] in multiset(b);
      var k :| 0 <= k < |b| && b[k] == a[n];
      assert a[n + 1..] == [] && a[..n] + [] == a[..n];
      RemoveAt(a, n);
      RemoveAt(b, k);
      ProgramsPermute(a[..n], b[..k] + b[k + 1..], s);
      ProgramsRemove(a, n, s);
      ProgramsRemove(b, k, s);
    }
  }

  lemma {:induction false} DescribesPermute(a: seq<Found>, b: seq<Found>, s: Signature, m: Merged)
    requires multiset(a) == multiset(b) && Describes(a, s, m)
    ensures Describes(b, s, m)
  {
    ProgramsPermute(a, b, s);
    SameMembers(a, b);
  }

  lemma {:induction false} MembersDetermined(fs: seq<Found>, gs: seq<Found>, a: seq<Merged>, b: seq<Merged>)
    requires multiset(fs) == multiset(gs) && IsMerge(fs, a) && IsMerge(gs, b)
    ensures forall x :: x in a ==> x in b
  {
    hide Describes, Sorted;
    SameMembers(fs, gs);
    forall x | x in a ensures x in b {
      var f :| f in fs && f.row.signature == x.signature;
      var y :| y in b && y.signature == f.row.signature;
      DescribesPermute(gs, fs, y.signature, y);
      DescribesUnique(fs, x.signature, x, y);
    }
  }

  /** Neither the order of the scans nor of their rows matters. */
  lemma {:induction false} MergeIgnoresOrder(fs: seq<Found>, gs: seq<Found>)
    requires multiset(fs) == multiset(gs)
    ensures Merge(fs).Ok? <==> Merge(gs).Ok?
    ensures Merge(fs).Ok? ==> Merge(fs) == Merge(gs)
  {
    hide Merge;
    MergeMeans(fs);
    MergeMeans(gs);
    SameMembers(fs, gs);
    if Merge(fs).Ok? {
      IsMergeUnique(fs, gs, Merge(fs).value, Merge(gs).value);
    }
  }

  lemma {:induction false} IsMergeUnique(fs: seq<Found>, gs: seq<Found>, a: seq<Merged>, b: seq<Merged>)
    requires multiset(fs) == multiset(gs) && IsMerge(fs, a) && IsMerge(gs, b)
    ensures a == b
  {
    hide Describes, Mentions;
    MembersDetermined(fs, gs, a, b);
    MembersDetermined(gs, fs, b, a);
    SameSets(a, b);
    forall x, y | x in a && y in a && DiscoveryLeq(x, y) && DiscoveryLeq(y, x) ensures x == y {
      LexTotal(x.signature, y.signature);
    }
    SortedUnique(a, b, DiscoveryLeq);
  }

  // ------------------------------------------------------------ the loop

  method MergeCatchUpDiscoveries(scans: seq<Scan>) returns (r: Result<seq<Merged>, Error>)
    ensures r == Merge(Flatten(scans))
    ensures r.Ok? <==> Consistent(Flatten(scans))
    ensures r.Ok? ==> IsMerge(Flatten(scans), r.value)
  {
    hide Collect, Consistent, IsMerge, Output, Tag;
    MergeMeans(Flatten(scans));
    var table := Table([], map[]);
    NothingCollected();
    for i := 0 to |scans|
      invariant Collect(Flatten(scans[..i])) == Ok(table)
    {
      assert scans[..i + 1][..i] == scans[..i];
      var next := MergeScan(table, scans[i], Flatten(scans[..i]));
      if next.Err? {
        FlattenPrefix(scans, i + 1);
        FailureSticks(Flatten(scans[..i + 1]), Flatten(scans));
        return Err(next.error);
      }
      table := next.value;
    }
    assert scans[..|scans|] == scans;
    return Ok(Output(table));
  }

  lemma {:induction false} NothingCollected()
    ensures Collect(Flatten([])) == Ok(Table([], map[]))
  {
  }

  /** The rows of one scan, on top of what came before. */
  method MergeScan(before: Table, scan: Scan, ghost done: seq<Found>) returns (r: Result<Table, Error>)
    requires Collect(done) == Ok(before)
    ensures r == Collect(done + Tag(scan))
  {
    hide Add, Reconcile;
    var table := before;
    assert done + Tag(scan)[..0] == done;
    for j := 0 to |scan.rows|
      invariant Collect(done + Tag(scan)[..j]) == Ok(table)
    {
      var f := Found(scan.program, scan.rows[j]);
      ghost var prefix := done + Tag(scan)[..j + 1];
      assert prefix[..|prefix| - 1] == done + Tag(scan)[..j] && prefix[|prefix| - 1] == f;
      var next := Add(table, f);
      if next.Err? {
        FailureSticks(prefix, done + Tag(scan));
        return Err(next.error);
      }
      table := next.value;
    }
    assert Tag(scan)[..|scan.rows|] == Tag(scan);
    return Ok(table);
  }

  /** The first disagreement decides the outcome. */
  lemma {:induction false} FailureSticks(prefix: seq<Found>, fs: seq<Found>)
    requires prefix <= fs && Collect(prefix).Err?
    ensures Collect(fs) == Collect(prefix)
    decreases |fs|
  {
    hide Add;
    if |prefix| < |fs| {
      FailureSticks(prefix, fs[..|fs| - 1]);
    } else {
      assert prefix == fs;
    }
  }

  lemma {:induction false} FlattenPrefix(scans: seq<Scan>, i: nat)
    requires i <= |scans|
    ensures Flatten(scans[..i]) <= Flatten(scans)
    decreases |scans|
  {
    if i < |scans| {
      FlattenPrefix(scans[..|scans| - 1], i);
      assert scans[..|scans| - 1][..i] == scans[..i];
    } else {
      assert scans[..i] == scans;
    }
  }
}
