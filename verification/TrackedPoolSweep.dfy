/**
 One sweep of a tracked pool: pages read backwards from the head to the stored
 checkpoint, and a probe that confirms the boundary.
 */
module TrackedPoolSweep {
  import opened Prelude
  import opened CatchUpDiscovery
  import opened CatchUpScanner

  const PAGE_SIZE: nat := 1000
  const MAX_PAGES: nat := 5

  datatype SweepError = RequestFailed | Malformed | Inconsistent

  /** What a sweep goes on to do with what it read. */
  datatype Sweep = AwaitingBoundary | Planned(rows: seq<Row>, confirmed: bool)

  datatype Read = Read(rows: seq<Row>, reachedEnd: bool)

  /** The k-th page older than a cursor and newer than the checkpoint, and the single row older than a cursor. */
  type Pager = (nat, Option<Signature>) -> Option<seq<Row>>
  type Prober = Option<Signature> -> Option<seq<Row>>

  function Last(rows: seq<Row>): Option<Signature> {
    if rows == [] then None else Some(rows[|rows| - 1].signature)
  }

  /** An entry continues the rows: newest first, not below the checkpoint, not repeated, finalized. */
  predicate Continues(rows: seq<Row>, c: Checkpoint, entry: Row) {
    && (rows == [] || entry.slot <= rows[|rows| - 1].slot) && entry.slot >= c.slot
    && entry.signature != c.signature && entry.signature !in Signatures(rows) && entry.status == Finalized
  }

  function Append(rows: seq<Row>, page: seq<Row>, c: Checkpoint): Option<seq<Row>>
    decreases |page|
  {
    if page == [] then Some(rows)
    else if !Continues(rows, c, page[0]) then None
    else Append(rows + [page[0]], page[1..], c)
  }

  function Pages(pager: Pager, c: Checkpoint, k: nat, rows: seq<Row>): Result<Read, SweepError>
    decreases MAX_PAGES - k
  {
    if k >= MAX_PAGES then Ok(Read(rows, false))
    else if pager(k, Last(rows)).None? then Err(RequestFailed)
    else
      var page := pager(k, Last(rows)).value;
      if |page| > PAGE_SIZE then Err(Malformed)
      else
        match Append(rows, page, c)
        case None => Err(Inconsistent)
        case Some(rows') => if |page| < PAGE_SIZE then Ok(Read(rows', true)) else Pages(pager, c, k + 1, rows')
  }

  predicate Confirms(answer: seq<Row>, c: Checkpoint) {
    |answer| == 1 && Matches(answer[0], c)
  }

  function Decide(r: Read, prober: Prober, c: Checkpoint): Result<Sweep, SweepError> {
    if prober(Last(r.rows)).None? then Err(RequestFailed)
    else if |prober(Last(r.rows)).value| > 1 then Err(Malformed)
    else
      var confirmed := Confirms(prober(Last(r.rows)).value, c);
      Ok(if !confirmed && r.reachedEnd then AwaitingBoundary else Planned(r.rows, confirmed))
  }

  function SweepOf(pager: Pager, prober: Prober, c: Checkpoint): Result<Sweep, SweepError> {
    match Pages(pager, c, 0, [])
    case Err(e) => Err(e)
    case Ok(r) => Decide(r, prober, c)
  }

  /** The paging loop with its progress counters. */
  method ReadSweep(pager: Pager, prober: Prober, c: Checkpoint)
    returns (r: Result<Sweep, SweepError>, pageCount: nat, signaturesRead: nat)
    ensures r == SweepOf(pager, prober, c)
    ensures pageCount <= MAX_PAGES && signaturesRead <= PAGE_SIZE * pageCount
    ensures r.Ok? && r.value.Planned? ==> |r.value.rows| == signaturesRead
  {
    hide Continues;
    var rows: seq<Row> := [];
    var reachedEnd := false;
    pageCount, signaturesRead := 0, 0;
    while pageCount < MAX_PAGES && !reachedEnd
      invariant pageCount <= MAX_PAGES && signaturesRead == |rows| <= PAGE_SIZE * pageCount
      invariant if reachedEnd then Pages(pager, c, 0, []) == Ok(Read(rows, true))
                else Pages(pager, c, pageCount, rows) == Pages(pager, c, 0, [])
      decreases !reachedEnd, MAX_PAGES - pageCount
    {
      var answer := pager(pageCount, Last(rows));
      if answer.None? { return Err(RequestFailed), pageCount, signaturesRead; }
      var page := answer.value;
      if |page| > PAGE_SIZE { return Err(Malformed), pageCount, signaturesRead; }
      pageCount, signaturesRead := pageCount + 1, signaturesRead + |page|;
      var all := AppendPage(rows, page, c);
      if all.None? { return Err(Inconsistent), pageCount, signaturesRead; }
      AppendLength(rows, page, c);
      rows := all.value;
      if |page| < PAGE_SIZE { reachedEnd := true; }
    }
    r := Decide(Read(rows, reachedEnd), prober, c);
  }

  method AppendPage(rows: seq<Row>, page: seq<Row>, c: Checkpoint) returns (r: Option<seq<Row>>)
    ensures r == Append(rows, page, c)
  {
    hide Continues;
    var all := rows;
    for i := 0 to |page|
      invariant Append(all, page[i..], c) == Append(rows, page, c)
    {
      assert page[i..][1..] == page[i + 1..] && page[i..][0] == page[i];
      if !Continues(all, c, page[i]) { return None; }
      all := all + [page[i]];
    }
    assert page[|page|..] == [];
    return Some(all);
  }

  lemma {:induction false} AppendLength(rows: seq<Row>, page: seq<Row>, c: Checkpoint)
    requires Append(rows, page, c).Some?
    ensures |Append(rows, page, c).value| == |rows| + |page|
    decreases |page|
  {
    hide Continues;
    if page != [] { AppendLength(rows + [page[0]], page[1..], c); }
  }

  // --------------------------------------------------- an honest history

  /** What a truthful provider that knows `n` rows answers: up to `limit` rows older than the cursor and newer than `floor`. */
  predicate Truthful(h: seq<Row>, n: nat, before: Option<Signature>, floor: nat, limit: nat, answer: seq<Row>) {
    n <= |h| && floor <= n &&
    if before.None? then answer == NewestFirst(h, Max(floor, Below(n, limit)), n)
    else forall b :: floor <= b < n && h[b].signature == before.value ==> answer == NewestFirst(h, Max(floor, Below(b, limit)), b)
  }

  /** The first row newer than the checkpoint, where it is visible; an unknown checkpoint bounds nothing. */
  function Floor(h: seq<Row>, n: nat, c: Checkpoint): nat
    requires n <= |h|
  {
    var at := Locate(h, n, c);
    if at.Some? then at.value + 1 else 0
  }

  /** Pages and probe answered truthfully while the head moves from `head(0)` on. */
  ghost predicate Honest(pager: Pager, prober: Prober, h: seq<Row>, head: nat -> nat, c: Checkpoint) {
    && History(h) && (forall k: nat :: head(0) <= head(k) <= |h|)
    && (forall k: nat, before ::
          && pager(k, before).Some?
          && (before.None? ==> k == 0 ==> Truthful(h, head(0), before, Floor(h, head(0), c), PAGE_SIZE, pager(k, before).value))
          && (before.Some? ==> Truthful(h, head(0), before, Floor(h, head(0), c), PAGE_SIZE, pager(k, before).value)))
    && forall before :: prober(before).Some? &&
                        Truthful(h, if before.None? then head(MAX_PAGES) else head(0), before, 0, 1, prober(before).value)
  }

  lemma {:induction false} FreshRow(h: seq<Row>, lo: nat, n: nat)
    requires History(h) && lo < n <= |h|
    ensures h[lo].signature !in Signatures(NewestFirst(h, lo + 1, n))
  {
  }

  /** The next row down continues the rows, if the sweep accepts it at all. */
  lemma {:induction false} NextContinues(h: seq<Row>, n: nat, mid: nat, c: Checkpoint)
    requires History(h) && 0 < mid <= n <= |h|
    requires h[mid - 1].status == Finalized && h[mid - 1].slot >= c.slot && h[mid - 1].signature != c.signature
    ensures Continues(NewestFirst(h, mid, n), c, h[mid - 1])
  {
    FreshRow(h, mid - 1, n);
  }

  /** Appending a slice keeps the rows contiguous. */
  lemma {:induction false} AppendSlice(h: seq<Row>, n: nat, mid: nat, lo: nat, c: Checkpoint)
    requires History(h) && lo <= mid <= n <= |h|
    ensures var r := Append(NewestFirst(h, mid, n), NewestFirst(h, lo, mid), c);
            && (r.Some? ==> r.value == NewestFirst(h, lo, n))
            && ((forall j :: lo <= j < mid ==> h[j].status == Finalized && h[j].slot >= c.slot && h[j].signature != c.signature) ==> r.Some?)
    decreases mid - lo
  {
    hide Continues, History;
    var rows, page := NewestFirst(h, mid, n), NewestFirst(h, lo, mid);
    if lo < mid {
      assert rows + [page[0]] == NewestFirst(h, mid - 1, n);
      assert page[1..] == NewestFirst(h, lo, mid - 1);
      if h[mid - 1].status == Finalized && h[mid - 1].slot >= c.slot && h[mid - 1].signature != c.signature {
        NextContinues(h, n, mid, c);
      }
      AppendSlice(h, n, mid - 1, lo, c);
    }
  }

  lemma {:induction false} PageIs(pager: Pager, prober: Prober, h: seq<Row>, head: nat -> nat, c: Checkpoint, k: nat,
                                  mid: nat)
    requires Honest(pager, prober, h, head, c) && Floor(h, head(0), c) <= mid <= head(0) && (mid == head(0) ==> k == 0)
    ensures pager(k, Last(NewestFirst(h, mid, head(0)))) == Some(NewestFirst(h, Max(Floor(h, head(0), c), Below(mid, PAGE_SIZE)), mid))
  {
    hide Locate, History;
    var rows := NewestFirst(h, mid, head(0));
    if rows != [] { assert rows[|rows| - 1] == h[mid]; }
    assert pager(k, Last(rows)).Some?;
  }

  /** Every row between the checkpoint and the head is one the sweep accepts. */
  predicate Acceptable(h: seq<Row>, n: nat, c: Checkpoint) {
    n <= |h| && forall j :: Floor(h, n, c) <= j < n ==> h[j].status == Finalized && h[j].slot >= c.slot && h[j].signature != c.signature
  }

  /** The pages read are the contiguous rows at the head: down to the floor, or a full budget. */
  lemma {:induction false} PagesContiguous(pager: Pager, prober: Prober, h: seq<Row>, head: nat -> nat, c: Checkpoint,
                                           k: nat, mid: nat)
    requires Honest(pager, prober, h, head, c) && k <= MAX_PAGES
    requires mid + PAGE_SIZE * k == head(0) && Floor(h, head(0), c) <= mid
    ensures var floor := Floor(h, head(0), c);
            var r := Pages(pager, c, k, NewestFirst(h, mid, head(0)));
            && (Acceptable(h, head(0), c) ==> r.Ok?)
            && (r.Ok? ==> if head(0) - floor >= PAGE_SIZE * MAX_PAGES
                          then r.value == Read(NewestFirst(h, head(0) - PAGE_SIZE * MAX_PAGES, head(0)), false)
                          else r.value == Read(NewestFirst(h, floor, head(0)), true))
    decreases MAX_PAGES - k
  {
    hide Honest, Append, Locate, Floor;
    var n := head(0);
    HonestFacts(pager, prober, h, head, c);
    if k < MAX_PAGES {
      var floor := Floor(h, n, c);
      var lo := Max(floor, Below(mid, PAGE_SIZE));
      PageIs(pager, prober, h, head, c, k, mid);
      AppendSlice(h, n, mid, lo, c);
      if mid - lo == PAGE_SIZE { PagesContiguous(pager, prober, h, head, c, k + 1, lo); }
    }
  }

  lemma {:induction false} HonestFacts(pager: Pager, prober: Prober, h: seq<Row>, head: nat -> nat, c: Checkpoint)
    requires Honest(pager, prober, h, head, c)
    ensures History(h) && head(0) <= |h| && head(0) <= head(MAX_PAGES) <= |h|
  {
  }

  lemma {:induction false} ProbeIs(pager: Pager, prober: Prober, h: seq<Row>, head: nat -> nat, c: Checkpoint, mid: nat)
    requires Honest(pager, prober, h, head, c) && mid <= head(0)
    ensures var top := if mid == head(0) then head(MAX_PAGES) else mid;
            prober(Last(NewestFirst(h, mid, head(0)))) == Some(if top == 0 then [] else [h[top - 1]])
  {
    hide Locate, History;
    var rows := NewestFirst(h, mid, head(0));
    var top := if mid == head(0) then head(MAX_PAGES) else mid;
    if rows != [] { assert rows[|rows| - 1] == h[mid]; }
    assert prober(Last(rows)).Some?;
    assert NewestFirst(h, Max(0, Below(top, 1)), top) == if top == 0 then [] else [h[top - 1]];
  }

  /** The row just below `top` is the checkpoint. */
  predicate Newest(h: seq<Row>, top: nat, c: Checkpoint) {
    0 < top <= |h| && Matches(h[top - 1], c)
  }

  /** How many rows a sweep reads before its page budget runs out. */
  const BUDGET: nat := PAGE_SIZE * MAX_PAGES

  /**
   What a sweep does against an honest history: with a visible checkpoint within
   the budget it plans exactly the rows newer than the checkpoint, confirmed;
   beyond the budget it plans the newest rows, unconfirmed.
   */
  lemma {:induction false} SweepIs(pager: Pager, prober: Prober, h: seq<Row>, head: nat -> nat, c: Checkpoint)
    requires Honest(pager, prober, h, head, c)
    ensures var n, at := head(0), Locate(h, head(0), c);
            var r := SweepOf(pager, prober, c);
            && (Acceptable(h, n, c) ==> r.Ok?)
            && (r.Ok? && r.value.Planned? ==>
                  && exists m: nat :: m <= n && r.value.rows == NewestFirst(h, m, n)
                                      && (r.value.confirmed ==> Newest(h, if m == n then head(MAX_PAGES) else m, c))
                                      && (!r.value.confirmed ==> n - m == BUDGET))
            && (r.Ok? && at.Some? && n - 1 - at.value <= BUDGET && at.value + 1 < n ==>
                  r.value == Planned(NewestFirst(h, at.value + 1, n), true))
            && (r.Ok? && at == Some(n - 1) ==>
                  r.value == if head(MAX_PAGES) == n then Planned([], true) else AwaitingBoundary)
            && (r.Ok? && at.Some? && n - 1 - at.value > BUDGET ==>
                  r.value == Planned(NewestFirst(h, n - BUDGET, n), false))
  {
    hide Honest, Pages, Locate, History;
    var n := head(0);
    HonestFacts(pager, prober, h, head, c);
    assert NewestFirst(h, n, n) == [];
    PagesContiguous(pager, prober, h, head, c, 0, n);
    var r := Pages(pager, c, 0, []);
    var floor := Floor(h, n, c);
    var m := if n - floor >= BUDGET then n - BUDGET else floor;
    ProbeIs(pager, prober, h, head, c, m);
    if r.Ok? {
      assert r.value.rows == NewestFirst(h, m, n);
      ConfirmedAt(h, n, c, m);
      ConfirmedAt(h, head(MAX_PAGES), c, head(MAX_PAGES));
      if Locate(h, n, c) == Some(n - 1) { MatchesOnce(h, |h|, c, n - 1); }
    }
  }

  /** Right below the rows stands the checkpoint exactly when the rows are all of the newer ones. */
  lemma {:induction false} ConfirmedAt(h: seq<Row>, n: nat, c: Checkpoint, m: nat)
    requires History(h) && m <= n <= |h|
    ensures var at := Locate(h, n, c);
            && (at.Some? && m == at.value + 1 ==> Matches(h[m - 1], c))
            && (at.Some? && m > at.value + 1 ==> m > 0 && !Matches(h[m - 1], c))
  {
  }

  /** A page shorter than a full one comes before the budget runs out. */
  predicate PagesEnd(h: seq<Row>, n: nat, c: Checkpoint)
    requires n <= |h|
  {
    n - Floor(h, n, c) < BUDGET
  }

  /** The lowest row a sweep reads. */
  function Lowest(h: seq<Row>, n: nat, c: Checkpoint): (m: nat)
    requires n <= |h|
    ensures m <= n
  {
    if PagesEnd(h, n, c) then Floor(h, n, c) else n - BUDGET
  }

  /** The row below those read, or the newest at the time of the probe when none was read, is the checkpoint. */
  predicate BoundarySeen(h: seq<Row>, n: nat, later: nat, c: Checkpoint)
    requires n <= |h|
  {
    Newest(h, if Lowest(h, n, c) == n then later else Lowest(h, n, c), c)
  }

  /** A sweep of acceptable rows, in full. */
  lemma {:induction false} SweepExactly(pager: Pager, prober: Prober, h: seq<Row>, head: nat -> nat, c: Checkpoint)
    requires Honest(pager, prober, h, head, c)
    ensures head(0) <= |h|
    ensures var n := head(0);
            Acceptable(h, n, c) ==>
              SweepOf(pager, prober, c)
              == if !BoundarySeen(h, n, head(MAX_PAGES), c) && PagesEnd(h, n, c) then Ok(AwaitingBoundary)
                 else Ok(Planned(NewestFirst(h, Lowest(h, n, c), n), BoundarySeen(h, n, head(MAX_PAGES), c)))
  {
    hide Honest, Pages, Locate, History, Floor;
    var n := head(0);
    HonestFacts(pager, prober, h, head, c);
    FloorBelow(h, n, c);
    assert NewestFirst(h, n, n) == [];
    PagesContiguous(pager, prober, h, head, c, 0, n);
    ProbeIs(pager, prober, h, head, c, Lowest(h, n, c));
  }

  lemma {:induction false} FloorBelow(h: seq<Row>, n: nat, c: Checkpoint)
    requires n <= |h|
    ensures Floor(h, n, c) <= n
  {
    hide Locate;
  }

  /** A checkpoint below the head is confirmed within the budget and never beyond it. */
  lemma {:induction false} BoundaryIff(h: seq<Row>, n: nat, later: nat, c: Checkpoint, at: nat)
    requires History(h) && n <= |h| && at < n && Matches(h[at], c)
    ensures Locate(h, n, c) == Some(at)
    ensures n - 1 - at > BUDGET ==> !BoundarySeen(h, n, later, c) && !PagesEnd(h, n, c)
    ensures at + 1 < n && n - 1 - at <= BUDGET ==> BoundarySeen(h, n, later, c)
    ensures at + 1 == n && n <= later <= |h| ==> (BoundarySeen(h, n, later, c) <==> later == n)
  {
    var i := Locate(h, n, c).value;
    assert i == at by { assert h[i].signature == h[at].signature; }
  }
}
