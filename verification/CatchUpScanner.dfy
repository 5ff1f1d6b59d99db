/**
 Scanning one program's history backwards, page by page, until the stored
 checkpoint: what the paging loop returns against an honest source whose history
 keeps growing at the head between requests.
 */
module CatchUpScanner {
  import opened Prelude
  import opened CatchUpDiscovery

  datatype Checkpoint = Checkpoint(slot: nat, signature: Signature, updatedAt: nat)

  datatype Gap = Gap(previous: Checkpoint, baselineSlot: nat, baselineSignature: Signature)

  datatype Options = Options(pageSize: nat, maxPages: nat, liveEdge: bool)

  /** The constructor refuses other bounds. */
  predicate ValidOptions(o: Options) {
    1 <= o.pageSize <= 1000 && 1 <= o.maxPages <= 100
  }

  datatype ScanError = Request | Response | Pagination | Window | InvalidGap

  datatype ProgramScan = ProgramScan(rows: seq<Row>, newest: Option<Row>, gap: Option<Gap>)

  /** The answer to the k-th request, for the page older than a cursor; `None` is a failed request. */
  type Source = (nat, Option<Signature>) -> Option<seq<Row>>

  predicate Matches(row: Row, c: Checkpoint) {
    row.signature == c.signature && row.slot == c.slot
  }

  datatype PageOutcome = Reached(rows: seq<Row>) | More(rows: seq<Row>) | Refused(error: ScanError)

  function Signatures(rows: seq<Row>): set<Signature> {
    set row <- rows :: row.signature
  }

  function TakePage(rows: seq<Row>, page: seq<Row>, checkpoint: Option<Checkpoint>): PageOutcome
    decreases |page|
  {
    if page == [] then More(rows)
    else
      var row := page[0];
      if rows != [] && row.slot > rows[|rows| - 1].slot then Refused(Response)
      else if row.signature in Signatures(rows) then Refused(Pagination)
      else if checkpoint.Some? && Matches(row, checkpoint.value) then Reached(rows)
      else TakePage(rows + [row], page[1..], checkpoint)
  }

  function Finish(rows: seq<Row>, checkpoint: Option<Checkpoint>): ProgramScan {
    var newest := if rows == [] then None else Some(rows[0]);
    ProgramScan(rows, if checkpoint.Some? && newest.Some? && newest.value.slot < checkpoint.value.slot then None else newest, None)
  }

  /** A gap must move the checkpoint forward. */
  function LiveEdge(checkpoint: Checkpoint, page: seq<Row>): Result<ProgramScan, ScanError> {
    if page == [] then Err(Window)
    else if page[0].slot < checkpoint.slot || Matches(page[0], checkpoint) then Err(InvalidGap)
    else Ok(ProgramScan([], Some(page[0]), Some(Gap(checkpoint, page[0].slot, page[0].signature))))
  }

  function ScanPages(source: Source, o: Options, checkpoint: Option<Checkpoint>, k: nat, before: Option<Signature>,
                     rows: seq<Row>, cursors: set<Signature>): Result<ProgramScan, ScanError>
    decreases o.maxPages - k
  {
    if k >= o.maxPages then Err(Window)
    else if source(k, before).None? then Err(Request)
    else
      var page := source(k, before).value;
      if |page| > o.pageSize then Err(Response)
      else
        match TakePage(rows, page, checkpoint)
        case Refused(e) => Err(e)
        case Reached(rows') => Ok(Finish(rows', checkpoint))
        case More(rows') =>
          if checkpoint.None? then Ok(Finish(rows', checkpoint))
          else if o.liveEdge then LiveEdge(checkpoint.value, page)
          else if |page| < o.pageSize then Err(Window)
          else if page == [] || Some(page[|page| - 1].signature) == before || page[|page| - 1].signature in cursors
          then Err(Pagination)
          else ScanPages(source, o, checkpoint, k + 1, Some(page[|page| - 1].signature), rows',
                         cursors + {page[|page| - 1].signature})
  }

  method ReadPage(rows: seq<Row>, page: seq<Row>, checkpoint: Option<Checkpoint>) returns (r: PageOutcome)
    ensures r == TakePage(rows, page, checkpoint)
  {
    var all, seen := rows, Signatures(rows);
    var previousSlot := if rows == [] then None else Some(rows[|rows| - 1].slot);
    for i := 0 to |page|
      invariant TakePage(all, page[i..], checkpoint) == TakePage(rows, page, checkpoint)
      invariant seen == Signatures(all)
      invariant previousSlot == if all == [] then None else Some(all[|all| - 1].slot)
    {
      var row := page[i];
      assert page[i..][1..] == page[i + 1..];
      if previousSlot.Some? && row.slot > previousSlot.value { return Refused(Response); }
      previousSlot := Some(row.slot);
      if row.signature in seen { return Refused(Pagination); }
      if checkpoint.Some? && row.signature == checkpoint.value.signature && row.slot == checkpoint.value.slot {
        return Reached(all);
      }
      seen := seen + {row.signature};
      all := all + [row];
    }
    return More(all);
  }

  method ScanProgram(source: Source, o: Options,
                     checkpoint: Option<Checkpoint>) returns (r: Result<ProgramScan, ScanError>)
    ensures r == ScanPages(source, o, checkpoint, 0, None, [], {})
  {
    hide TakePage, LiveEdge;
    var rows: seq<Row>, cursors: set<Signature>, before: Option<Signature>, pageCount := [], {}, None, 0;
    while pageCount < o.maxPages
      invariant ScanPages(source, o, checkpoint, pageCount, before, rows, cursors)
             == ScanPages(source, o, checkpoint, 0, None, [], {})
    {
      var raw := source(pageCount, before);
      if raw.None? { return Err(Request); }
      var page := raw.value;
      if |page| > o.pageSize { return Err(Response); }
      var taken := ReadPage(rows, page, checkpoint);
      if taken.Refused? { return Err(taken.error); }
      if taken.Reached? || checkpoint.None? { return Ok(Finish(taken.rows, checkpoint)); }
      if o.liveEdge { return LiveEdge(checkpoint.value, page); }
      if |page| < o.pageSize { return Err(Window); }
      if page == [] { return Err(Pagination); }
      var cursor := page[|page| - 1].signature;
      if Some(cursor) == before || cursor in cursors { return Err(Pagination); }
      rows, cursors, before, pageCount := taken.rows, cursors + {cursor}, Some(cursor), pageCount + 1;
    }
    return Err(Window);
  }

  // -------------------------------------------------- an honest source

  /** Oldest first: slots never decrease and signatures never repeat. */
  predicate History(h: seq<Row>) {
    && (forall i, j :: 0 <= i < j < |h| ==> h[i].slot <= h[j].slot)
    && forall i, j :: 0 <= i < j < |h| ==> h[i].signature != h[j].signature
  }

  /** The rows from `lo` up to `hi`, newest first. */
  function NewestFirst(h: seq<Row>, lo: nat, hi: nat): (rs: seq<Row>)
    requires lo <= hi <= |h|
    ensures |rs| == hi - lo
    ensures forall i :: 0 <= i < |rs| ==> rs[i] == h[hi - 1 - i]
  {
    seq(hi - lo, i requires 0 <= i < hi - lo => h[hi - 1 - i])
  }

  function Below(n: nat, k: nat): nat {
    if n < k then 0 else n - k
  }

  /** What a truthful source answers while it knows the first `n` rows. */
  predicate Truthful(h: seq<Row>, n: nat, before: Option<Signature>, size: nat, answer: seq<Row>) {
    n <= |h| &&
    if before.None? then answer == NewestFirst(h, Below(n, size), n)
    else forall b :: 0 <= b < n && h[b].signature == before.value ==> answer == NewestFirst(h, Below(b, size), b)
  }

  /** Every request is answered, truthfully, from a history that only grows. */
  ghost predicate Honest(source: Source, h: seq<Row>, head: nat -> nat, size: nat) {
    && History(h)
    && (forall k: nat :: head(0) <= head(k) <= |h|)
    && forall k: nat, before :: source(k, before).Some? && Truthful(h, head(k), before, size, source(k, before).value)
  }

  /** The checkpoint among the first `n` rows. */
  function Locate(h: seq<Row>, n: nat, c: Checkpoint): (i: Option<nat>)
    requires n <= |h|
    ensures i.Some? ==> i.value < n && Matches(h[i.value], c)
    ensures i.None? ==> forall j :: 0 <= j < n ==> !Matches(h[j], c)
  {
    if n == 0 then None else if Matches(h[n - 1], c) then Some(n - 1) else Locate(h, n - 1, c)
  }

  /**
   The scan the paging loop is meant to perform: everything newer than the
   checkpoint, provided the checkpoint is within the window.
   */
  function FullScan(h: seq<Row>, n: nat, checkpoint: Option<Checkpoint>, o: Options): Result<ProgramScan, ScanError>
    requires n <= |h|
  {
    if checkpoint.None? then
      var rows := NewestFirst(h, Below(n, o.pageSize), n);
      Ok(ProgramScan(rows, if rows == [] then None else Some(rows[0]), None))
    else
      var at := Locate(h, n, checkpoint.value);
      var window := if o.liveEdge then o.pageSize else o.pageSize * o.maxPages;
      if at.Some? && n - 1 - at.value < window then
        var rows := NewestFirst(h, at.value + 1, n);
        Ok(ProgramScan(rows, if rows == [] then None else Some(rows[0]), None))
      else if o.liveEdge then LiveEdge(checkpoint.value, NewestFirst(h, Below(n, o.pageSize), n))
      else Err(Window)
  }

  lemma {:induction false} FreshSignature(h: seq<Row>, lo: nat, n: nat)
    requires History(h) && lo < n <= |h|
    ensures h[lo].signature !in Signatures(NewestFirst(h, lo + 1, n))
  {
  }

  /** Taking a slice that continues the rows read so far, without the checkpoint in it. */
  lemma {:induction false} TakeSlice(h: seq<Row>, n: nat, mid: nat, lo: nat, checkpoint: Option<Checkpoint>)
    requires History(h) && lo <= mid <= n <= |h|
    requires checkpoint.Some? ==> forall j :: lo <= j < mid ==> !Matches(h[j], checkpoint.value)
    ensures TakePage(NewestFirst(h, mid, n), NewestFirst(h, lo, mid), checkpoint) == More(NewestFirst(h, lo, n))
    decreases mid - lo
  {
    if lo < mid {
      var rows, page := NewestFirst(h, mid, n), NewestFirst(h, lo, mid);
      FreshSignature(h, mid - 1, n);
      assert rows + [page[0]] == NewestFirst(h, mid - 1, n);
      assert page[1..] == NewestFirst(h, lo, mid - 1);
      TakeSlice(h, n, mid - 1, lo, checkpoint);
    }
  }

  /** Taking a slice that holds the checkpoint at `c`. */
  lemma {:induction false} TakeSliceTo(h: seq<Row>, n: nat, mid: nat, lo: nat, c: nat, checkpoint: Checkpoint)
    requires History(h) && lo <= c < mid <= n <= |h| && Matches(h[c], checkpoint)
    ensures TakePage(NewestFirst(h, mid, n), NewestFirst(h, lo, mid), Some(checkpoint)) == Reached(NewestFirst(h, c + 1, n))
    decreases mid - lo
  {
    var rows, page := NewestFirst(h, mid, n), NewestFirst(h, lo, mid);
    FreshSignature(h, mid - 1, n);
    if mid - 1 != c {
      assert rows + [page[0]] == NewestFirst(h, mid - 1, n);
      assert page[1..] == NewestFirst(h, lo, mid - 1);
      TakeSliceTo(h, n, mid - 1, lo, c, checkpoint);
    }
  }

  lemma {:induction false} NewestKept(h: seq<Row>, n: nat, c: nat, checkpoint: Checkpoint)
    requires History(h) && c < n <= |h| && Matches(h[c], checkpoint)
    ensures var rows := NewestFirst(h, c + 1, n);
            Finish(rows, Some(checkpoint)) == ProgramScan(rows, if rows == [] then None else Some(rows[0]), None)
  {
  }

  /** Everything newer than the checkpoint, if that is within `window` rows of the head. */
  function Newer(h: seq<Row>, n: nat, c: Checkpoint, window: nat): Result<ProgramScan, ScanError>
    requires n <= |h|
  {
    var at := Locate(h, n, c);
    if at.Some? && n - 1 - at.value < window then Ok(Finish(NewestFirst(h, at.value + 1, n), Some(c))) else Err(Window)
  }

  /** Where a strict scan stands once it has read down to `mid`. */
  ghost predicate Standing(h: seq<Row>, n: nat, c: Checkpoint, k: nat, mid: nat, before: Option<Signature>,
                           cursors: set<Signature>) {
    && History(h) && mid <= n <= |h|
    && (if k == 0 then before.None? && mid == n else mid < n && before == Some(h[mid].signature))
    && (forall s :: s in cursors ==> exists j :: mid <= j < |h| && h[j].signature == s)
    && forall j :: mid <= j < n ==> !Matches(h[j], c)
  }

  lemma {:induction false} CursorFresh(h: seq<Row>, n: nat, c: Checkpoint, k: nat, mid: nat,
                                       before: Option<Signature>, cursors: set<Signature>, lo: nat)
    requires Standing(h, n, c, k, mid, before, cursors) && lo < mid
    requires forall j :: lo <= j < mid ==> !Matches(h[j], c)
    ensures Some(h[lo].signature) != before && h[lo].signature !in cursors
    ensures Standing(h, n, c, k + 1, lo, Some(h[lo].signature), cursors + {h[lo].signature})
  {
    hide Matches;
    forall s | s in cursors + {h[lo].signature} ensures exists j :: lo <= j < |h| && h[j].signature == s {
      if s in cursors { var j :| mid <= j < |h| && h[j].signature == s; assert lo <= j; }
    }
  }

  /** One more page, either way. */
  lemma {:induction false} TakeNext(h: seq<Row>, n: nat, c: Checkpoint, k: nat, mid: nat, before: Option<Signature>,
                                    cursors: set<Signature>, lo: nat)
    requires Standing(h, n, c, k, mid, before, cursors) && lo <= mid
    ensures var at := Locate(h, n, c);
            TakePage(NewestFirst(h, mid, n), NewestFirst(h, lo, mid), Some(c))
            == if at.Some? && lo <= at.value then Reached(NewestFirst(h, at.value + 1, n)) else More(NewestFirst(h, lo, n))
  {
    hide TakePage;
    var at := Locate(h, n, c);
    if at.Some? && lo <= at.value {
      TakeSliceTo(h, n, mid, lo, at.value, c);
    } else {
      if at.Some? { MatchesOnce(h, n, c, at.value); }
      TakeSlice(h, n, mid, lo, Some(c));
    }
  }

  lemma {:induction false} MatchesOnce(h: seq<Row>, n: nat, c: Checkpoint, i: nat)
    requires History(h) && i < n <= |h| && Matches(h[i], c)
    ensures forall j :: 0 <= j < n && j != i ==> !Matches(h[j], c)
  {
  }

  /** A strict scan after `k` full pages: it still has to read everything below `mid`. */
  lemma {:induction false} StrictScan(source: Source, h: seq<Row>, head: nat -> nat, o: Options, c: Checkpoint,
                                      k: nat, mid: nat, before: Option<Signature>, cursors: set<Signature>)
    requires Honest(source, h, head, o.pageSize) && ValidOptions(o) && !o.liveEdge && k <= o.maxPages
    requires mid + o.pageSize * k == head(0) && Standing(h, head(0), c, k, mid, before, cursors)
    ensures ScanPages(source, o, Some(c), k, before, NewestFirst(h, mid, head(0)), cursors)
         == Newer(h, head(0), c, o.pageSize * o.maxPages)
    decreases o.maxPages - k
  {
    hide TakePage, Finish, Honest, Standing, NewestFirst, Matches;
    var n := head(0);
    StandingBounds(h, n, c, k, mid, before, cursors);
    if k < o.maxPages {
      var lo := Below(mid, o.pageSize);
      PageIs(source, h, head, o.pageSize, k, mid, before);
      var page := NewestFirst(h, lo, mid);
      WindowStep(o.pageSize, k, o.maxPages);
      TakeNext(h, n, c, k, mid, before, cursors, lo);
      var at := Locate(h, n, c);
      if (at.None? || at.value < lo) && |page| == o.pageSize {
        CursorFresh(h, n, c, k, mid, before, cursors, lo);
        StrictScan(source, h, head, o, c, k + 1, lo, Some(h[lo].signature), cursors + {h[lo].signature});
      }
    }
  }

  lemma {:induction false} StandingBounds(h: seq<Row>, n: nat, c: Checkpoint, k: nat, mid: nat,
                                          before: Option<Signature>, cursors: set<Signature>)
    requires Standing(h, n, c, k, mid, before, cursors)
    ensures mid <= n <= |h| && History(h)
    ensures if k == 0 then before.None? && mid == n else mid < n && before == Some(h[mid].signature)
    ensures Locate(h, n, c).Some? ==> Locate(h, n, c).value < mid
    ensures Locate(h, n, c).Some? ==> forall j :: 0 <= j < n && j != Locate(h, n, c).value ==> !Matches(h[j], c)
  {
  }

  lemma {:induction false} WindowStep(size: nat, k: nat, max: nat)
    requires k < max
    ensures size * (k + 1) == size * k + size <= size * max
  {
    assert size * (max - k - 1) >= 0;
    assert size * max == size * (k + 1) + size * (max - k - 1);
  }

  /** The page an honest source gives is the next slice down. */
  lemma {:induction false} PageIs(source: Source, h: seq<Row>, head: nat -> nat, size: nat, k: nat, mid: nat,
                                  before: Option<Signature>)
    requires Honest(source, h, head, size) && mid <= head(0)
    requires if k == 0 then before.None? && mid == head(0) else mid < head(0) && before == Some(h[mid].signature)
    ensures source(k, before) == Some(NewestFirst(h, Below(mid, size), mid))
  {
    assert Truthful(h, head(k), before, size, source(k, before).value);
  }

  /**
   The paging loop is the full scan: for every honest source, however its head
   moves while the pages are read, and for every option.
   */
  lemma {:induction false} ScanIsFull(source: Source, h: seq<Row>, head: nat -> nat, o: Options,
                                      checkpoint: Option<Checkpoint>)
    requires Honest(source, h, head, o.pageSize) && ValidOptions(o)
    ensures ScanPages(source, o, checkpoint, 0, None, [], {}) == FullScan(h, head(0), checkpoint, o)
  {
    hide TakePage, Standing;
    var n := head(0);
    assert NewestFirst(h, n, n) == [];
    if checkpoint.None? {
      PageIs(source, h, head, o.pageSize, 0, n, None);
      TakeSlice(h, n, n, Below(n, o.pageSize), None);
    } else {
      StandingAtHead(h, n, checkpoint.value);
      var at := Locate(h, n, checkpoint.value);
      if at.Some? { NewestKept(h, n, at.value, checkpoint.value); }
      if o.liveEdge {
        PageIs(source, h, head, o.pageSize, 0, n, None);
        TakeNext(h, n, checkpoint.value, 0, n, None, {}, Below(n, o.pageSize));
      } else {
        StrictScan(source, h, head, o, checkpoint.value, 0, n, None, {});
      }
    }
  }

  lemma {:induction false} StandingAtHead(h: seq<Row>, n: nat, c: Checkpoint)
    requires History(h) && n <= |h|
    ensures Standing(h, n, c, 0, n, None, {})
  {
  }
}
