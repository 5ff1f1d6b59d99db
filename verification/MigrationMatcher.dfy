/**
 Matching PumpSwap pool creations to the Pump migrations that made them, by
 reading the CPI tree back from a flat instruction listing.
 */
module MigrationMatcher {
  import opened Prelude

  // ------------------------------------------------- the tree and its listing

  /** An instruction with the instructions it invoked, in order. */
  datatype Call = Call(program: string, children: seq<Call>)

  /** A normalised instruction: outer when `inner` is absent. */
  datatype Instruction = Instruction(index: nat, inner: Option<nat>, height: Option<nat>, program: string)

  /** An inner instruction of a listing, with the tree node that invoked it: `None` is the outer instruction. */
  datatype Node = Node(program: string, height: nat, parent: Option<nat>)

  /** Pre-order: a call, everything below it, then its later siblings; `base` is the first position used. */
  function Nodes(calls: seq<Call>, height: nat, parent: Option<nat>, base: nat): seq<Node> {
    if calls == [] then []
    else
      var first := [Node(calls[0].program, height, parent)] + Nodes(calls[0].children, height + 1, Some(base), base + 1);
      first + Nodes(calls[1..], height, parent, base + |first|)
  }

  /** The inner instructions of the outer call at `index`, which stands at height 1. */
  function InnerNodes(forest: seq<Call>, index: nat): seq<Node>
    requires index < |forest|
  {
    Nodes(forest[index].children, 2, None, 0)
  }

  function Outer(forest: seq<Call>, index: nat): Instruction
    requires index < |forest|
  {
    Instruction(index, None, Some(1), forest[index].program)
  }

  function Inner(forest: seq<Call>, index: nat, k: nat): Instruction
    requires index < |forest| && k < |InnerNodes(forest, index)|
  {
    var node := InnerNodes(forest, index)[k];
    Instruction(index, Some(k), Some(node.height), node.program)
  }

  function Group(forest: seq<Call>, index: nat): (g: seq<Instruction>)
    requires index < |forest|
    ensures |g| == 1 + |InnerNodes(forest, index)| && g[0] == Outer(forest, index)
    ensures forall k :: 0 <= k < |InnerNodes(forest, index)| ==> g[k + 1] == Inner(forest, index, k)
  {
    [Outer(forest, index)] + seq(|InnerNodes(forest, index)|, k requires 0 <= k < |InnerNodes(forest, index)| => Inner(forest, index, k))
  }

  function Listing(forest: seq<Call>, upTo: nat): seq<Instruction>
    requires upTo <= |forest|
  {
    if upTo == 0 then [] else Listing(forest, upTo - 1) + Group(forest, upTo - 1)
  }

  // ------------------------------------------------------------ the check

  /** Ends the subtree of an inner parent. */
  predicate Bounds(parent: Instruction, candidate: Instruction) {
    && parent.inner.Some? && parent.height.Some?
    && candidate.index == parent.index && candidate.inner.Some? && candidate.inner.value > parent.inner.value
    && candidate.height.Some? && candidate.height.value <= parent.height.value
  }

  function Boundary(parent: Instruction, instructions: seq<Instruction>): (b: Option<Instruction>)
    ensures b.Some? ==> b.value in instructions && Bounds(parent, b.value)
    ensures b.None? ==> forall i :: i in instructions ==> !Bounds(parent, i)
  {
    if instructions == [] then None
    else if Bounds(parent, instructions[0]) then Some(instructions[0])
    else Boundary(parent, instructions[1..])
  }

  predicate IsDirectCpiChild(parent: Instruction, child: Instruction, instructions: seq<Instruction>) {
    && parent.height.Some? && child.height == Some(parent.height.value + 1)
    && child.index == parent.index && child.inner.Some?
    && (parent.inner.Some? ==> child.inner.value > parent.inner.value)
    && (parent.inner.None?
        || (var boundary := Boundary(parent, instructions);
            boundary.None? || child.inner.value < boundary.value.inner.value))
  }

  // -------------------------------------------------- pre-order, read back

  /** A node's parent is the nearest earlier node of lower height, one lower. */
  ghost predicate Nested(ns: seq<Node>, height: nat, parent: Option<nat>, base: nat, j: nat)
    requires j < |ns|
  {
    && ns[j].height >= height
    && (ns[j].height == height ==> ns[j].parent == parent)
    && (ns[j].height > height ==>
          && ns[j].parent.Some? && base <= ns[j].parent.value < base + j
          && ns[ns[j].parent.value - base].height + 1 == ns[j].height
          && forall k :: ns[j].parent.value - base < k < j ==> ns[k].height >= ns[j].height)
  }

  ghost predicate AllNested(ns: seq<Node>, height: nat, parent: Option<nat>, base: nat) {
    forall j: nat :: j < |ns| ==> Nested(ns, height, parent, base, j)
  }

  lemma {:induction false} NodesNested(calls: seq<Call>, height: nat, parent: Option<nat>, base: nat)
    ensures AllNested(Nodes(calls, height, parent, base), height, parent, base)
    decreases calls
  {
    if calls != [] {
      var head := Node(calls[0].program, height, parent);
      var below := Nodes(calls[0].children, height + 1, Some(base), base + 1);
      var first := [head] + below;
      var later := Nodes(calls[1..], height, parent, base + |first|);
      var ns := first + later;
      NodesNested(calls[0].children, height + 1, Some(base), base + 1);
      NodesNested(calls[1..], height, parent, base + |first|);
      forall j: nat | j < |ns| ensures Nested(ns, height, parent, base, j) {
        if j == 0 {
        } else if j < |first| {
          NestedBelow(ns, head, below, later, height, parent, base, j);
        } else {
          NestedLater(ns, first, later, height, parent, base, j);
        }
      }
    }
  }

  lemma {:induction false} NestedAt(ns: seq<Node>, height: nat, parent: Option<nat>, base: nat, j: nat)
    requires AllNested(ns, height, parent, base) && j < |ns|
    ensures Nested(ns, height, parent, base, j)
  {
  }

  lemma {:induction false} HeightsFrom(ns: seq<Node>, height: nat, parent: Option<nat>, base: nat)
    requires AllNested(ns, height, parent, base)
    ensures forall k :: 0 <= k < |ns| ==> ns[k].height >= height
  {
    hide AllNested;
    forall k | 0 <= k < |ns| ensures ns[k].height >= height { NestedAt(ns, height, parent, base, k); }
  }

  lemma {:induction false} NestedBelow(ns: seq<Node>, head: Node, below: seq<Node>, later: seq<Node>, height: nat,
                                       parent: Option<nat>, base: nat, j: nat)
    requires ns == [head] + below + later && 1 <= j <= |below| && head.height == height
    requires AllNested(below, height + 1, Some(base), base + 1)
    ensures Nested(ns, height, parent, base, j)
  {
    hide AllNested;
    assert ns[0] == head && forall k :: 0 < k <= |below| ==> ns[k] == below[k - 1];
    NestedAt(below, height + 1, Some(base), base + 1, j - 1);
    HeightsFrom(below, height + 1, Some(base), base + 1);
  }

  lemma {:induction false} NestedLater(ns: seq<Node>, first: seq<Node>, later: seq<Node>, height: nat,
                                       parent: Option<nat>, base: nat, j: nat)
    requires ns == first + later && |first| <= j < |ns|
    requires AllNested(later, height, parent, base + |first|)
    ensures Nested(ns, height, parent, base, j)
  {
    assert Nested(later, height, parent, base + |first|, j - |first|);
    assert forall i :: |first| <= i < |ns| ==> ns[i] == later[i - |first|];
  }

  // ----------------------------------------------- the check is the tree

  /** `k` was invoked by `p`: by the outer instruction when `p` is absent. */
  predicate IsChild(forest: seq<Call>, index: nat, p: Option<nat>, k: nat)
    requires index < |forest| && k < |InnerNodes(forest, index)|
  {
    InnerNodes(forest, index)[k].parent == p
  }

  lemma {:induction false} ListingHolds(forest: seq<Call>, upTo: nat, index: nat)
    requires index < upTo <= |forest|
    ensures forall i :: i in Group(forest, index) ==> i in Listing(forest, upTo)
    decreases upTo
  {
    hide Group;
    if index < upTo - 1 { ListingHolds(forest, upTo - 1, index); }
  }

  lemma {:induction false} ListingOnly(forest: seq<Call>, upTo: nat, i: Instruction)
    requires upTo <= |forest| && i in Listing(forest, upTo)
    ensures i.index < upTo && i in Group(forest, i.index)
    decreases upTo
  {
    hide Group;
    if i in Listing(forest, upTo - 1) {
      ListingOnly(forest, upTo - 1, i);
    } else {
      assert i in Group(forest, upTo - 1);
      GroupIndex(forest, upTo - 1, i);
    }
  }

  lemma {:induction false} GroupIndex(forest: seq<Call>, index: nat, i: Instruction)
    requires index < |forest| && i in Group(forest, index)
    ensures i.index == index
    ensures i.inner.Some? ==> i.inner.value < |InnerNodes(forest, index)| && i == Inner(forest, index, i.inner.value)
    ensures i.inner.None? ==> i == Outer(forest, index)
  {
    hide InnerNodes;
    var g := Group(forest, index);
    var k :| 0 <= k < |g| && g[k] == i;
    if k > 0 { assert g[k] == Inner(forest, index, k - 1); }
  }

  /** No boundary stands before a later position exactly when nothing in between is as low as the parent. */
  lemma {:induction false} BoundaryMeans(forest: seq<Call>, index: nat, p: nat, k: nat)
    requires index < |forest| && p < k < |InnerNodes(forest, index)|
    requires InnerNodes(forest, index)[k].height > InnerNodes(forest, index)[p].height
    ensures var ns := InnerNodes(forest, index);
            var b := Boundary(Inner(forest, index, p), Listing(forest, |forest|));
            (b.None? || k < b.value.inner.value) <==> forall j :: p < j < k ==> ns[j].height > ns[p].height
  {
    hide InnerNodes, Listing, Boundary, Group;
    var ns := InnerNodes(forest, index);
    var b := Boundary(Inner(forest, index, p), Listing(forest, |forest|));
    if b.None? || k < b.value.inner.value {
      forall j | p < j < k ensures ns[j].height > ns[p].height {
        if ns[j].height <= ns[p].height { FirstBoundary(forest, |forest|, index, p, j); }
      }
    } else {
      BoundaryIsLow(forest, index, p);
    }
  }

  /** A boundary is a later position of the same group, no higher than the parent. */
  lemma {:induction false} BoundaryIsLow(forest: seq<Call>, index: nat, p: nat)
    requires index < |forest| && p < |InnerNodes(forest, index)|
    requires Boundary(Inner(forest, index, p), Listing(forest, |forest|)).Some?
    ensures var ns := InnerNodes(forest, index);
            var b := Boundary(Inner(forest, index, p), Listing(forest, |forest|)).value;
            b.inner.Some? && p < b.inner.value < |ns| && ns[b.inner.value].height <= ns[p].height
  {
    hide InnerNodes, Listing, Boundary, Group;
    var b := Boundary(Inner(forest, index, p), Listing(forest, |forest|)).value;
    ListingOnly(forest, |forest|, b);
    GroupIndex(forest, index, b);
  }

  /** The boundary found is the first one of its group: positions ascend within a group. */
  lemma {:induction false} FirstBoundary(forest: seq<Call>, upTo: nat, index: nat, p: nat, j: nat)
    requires index < upTo <= |forest| && p < j < |InnerNodes(forest, index)|
    requires InnerNodes(forest, index)[j].height <= InnerNodes(forest, index)[p].height
    ensures var b := Boundary(Inner(forest, index, p), Listing(forest, upTo)); b.Some? && b.value.inner.Some? && b.value.inner.value <= j
    decreases upTo
  {
    hide InnerNodes, Boundary, Group, Bounds;
    var parent := Inner(forest, index, p);
    if index < upTo - 1 {
      FirstBoundary(forest, upTo - 1, index, p, j);
      BoundaryAppend(parent, Listing(forest, upTo - 1), Group(forest, upTo - 1));
    } else {
      NoBoundaryBefore(forest, index, parent);
      BoundaryAppend(parent, Listing(forest, index), Group(forest, index));
      BoundaryInGroup(forest, index, p, j);
    }
  }

  lemma {:induction false} BoundaryInGroup(forest: seq<Call>, index: nat, p: nat, j: nat)
    requires index < |forest| && p < j < |InnerNodes(forest, index)|
    requires InnerNodes(forest, index)[j].height <= InnerNodes(forest, index)[p].height
    ensures var b := Boundary(Inner(forest, index, p), Group(forest, index)); b.Some? && b.value.inner.Some? && b.value.inner.value <= j
  {
    hide InnerNodes, Boundary;
    var g := Group(forest, index);
    assert g[j + 1] == Inner(forest, index, j);
    GroupAscends(forest, index);
    hide Group;
    BoundaryAt(Inner(forest, index, p), g, j + 1);
  }

  lemma {:induction false} GroupAscends(forest: seq<Call>, index: nat)
    requires index < |forest|
    ensures var g := Group(forest, index);
            forall a, b :: 0 <= a < b < |g| && g[a].inner.Some? && g[b].inner.Some? ==> g[a].inner.value < g[b].inner.value
  {
    hide InnerNodes;
    var g := Group(forest, index);
    forall k | 0 < k < |g| ensures g[k].inner == Some(k - 1) { assert g[k] == Inner(forest, index, k - 1); }
  }

  lemma {:induction false} NoBoundaryBefore(forest: seq<Call>, index: nat, parent: Instruction)
    requires index < |forest| && parent.index == index
    ensures Boundary(parent, Listing(forest, index)).None?
  {
    hide Group, Listing;
    var b := Boundary(parent, Listing(forest, index));
    if b.Some? { ListingOnly(forest, index, b.value); }
  }

  lemma {:induction false} BoundaryAppend(parent: Instruction, a: seq<Instruction>, b: seq<Instruction>)
    ensures Boundary(parent, a + b) == if Boundary(parent, a).Some? then Boundary(parent, a) else Boundary(parent, b)
    decreases |a|
  {
    if a == [] {
      assert a + b == b;
    } else {
      assert (a + b)[1..] == a[1..] + b && (a + b)[0] == a[0];
      BoundaryAppend(parent, a[1..], b);
    }
  }

  /** In a sequence, the first boundary is no later than any given one. */
  lemma {:induction false} BoundaryAt(parent: Instruction, s: seq<Instruction>, i: nat)
    requires i < |s| && Bounds(parent, s[i])
    requires forall a, b :: 0 <= a < b < |s| && s[a].inner.Some? && s[b].inner.Some? ==> s[a].inner.value < s[b].inner.value
    ensures Boundary(parent, s).Some? && Boundary(parent, s).value.inner.Some?
    ensures Boundary(parent, s).value.inner.value <= s[i].inner.value
    decreases |s|
  {
    if !Bounds(parent, s[0]) { BoundaryAt(parent, s[1..], i - 1); }
  }

  /** On the listing of any CPI forest, the check holds exactly of tree children: of an outer instruction, */
  lemma {:induction false} OuterChildren(forest: seq<Call>, index: nat, other: nat, k: nat)
    requires index < |forest| && other < |forest| && k < |InnerNodes(forest, other)|
    ensures IsDirectCpiChild(Outer(forest, index), Inner(forest, other, k), Listing(forest, |forest|)) <==>
            index == other && IsChild(forest, other, None, k)
  {
    hide Listing;
    NodesNested(forest[other].children, 2, None, 0);
    assert Nested(InnerNodes(forest, other), 2, None, 0, k);
  }

  /** and of an inner one. */
  lemma {:induction false} InnerChildren(forest: seq<Call>, index: nat, p: nat, other: nat, k: nat)
    requires index < |forest| && p < |InnerNodes(forest, index)| && other < |forest| && k < |InnerNodes(forest, other)|
    ensures IsDirectCpiChild(Inner(forest, index, p), Inner(forest, other, k), Listing(forest, |forest|)) <==>
            index == other && IsChild(forest, other, Some(p), k)
  {
    hide Listing, Nodes, Boundary;
    var ns := InnerNodes(forest, other);
    NodesNested(forest[other].children, 2, None, 0);
    assert Nested(ns, 2, None, 0, k);
    if index == other {
      assert Nested(ns, 2, None, 0, p);
      if p < k && ns[k].height == ns[p].height + 1 {
        BoundaryMeans(forest, index, p, k);
        NearestLower(ns, p, k);
      }
    }
  }

  /** The parent is the only earlier node one lower with nothing as low in between. */
  lemma {:induction false} NearestLower(ns: seq<Node>, p: nat, k: nat)
    requires p < k < |ns| && ns[k].height == ns[p].height + 1 && ns[p].height >= 2 && Nested(ns, 2, None, 0, k)
    ensures (forall j :: p < j < k ==> ns[j].height > ns[p].height) <==> ns[k].parent == Some(p)
  {
    var q := ns[k].parent.value;
    assert ns[q].height == ns[p].height;
  }

  // ------------------------------------------------------------- matching

  const PUMP_PROGRAM_ID: string := "6EF8rrecthR5Dkzon8Nwu78hRvfCKubJ14M5uBEwF6P"

  datatype Migration = Migration(index: nat, inner: Option<nat>, pool: string, mint: string, quoteMint: string)

  datatype Creation = Creation(pool: string, baseMint: string, quoteMint: string, index: nat, instruction: Instruction)

  datatype MatchError = MissingInstruction | Ambiguous | Mismatch

  function FindInstruction(instructions: seq<Instruction>, m: Migration): (f: Option<Instruction>)
    ensures f.Some? ==> f.value in instructions && f.value.index == m.index && f.value.inner == m.inner && f.value.program == PUMP_PROGRAM_ID
  {
    if instructions == [] then None
    else if instructions[0].index == m.index && instructions[0].inner == m.inner && instructions[0].program == PUMP_PROGRAM_ID
    then Some(instructions[0])
    else FindInstruction(instructions[1..], m)
  }

  predicate Fits(m: Migration, parent: Instruction, c: Creation, instructions: seq<Instruction>) {
    c.pool == m.pool && c.baseMint == m.mint && c.quoteMint == m.quoteMint && c.index == 0
    && IsDirectCpiChild(parent, c.instruction, instructions)
  }

  /** The positions of the unconsumed creations that fit, in order. */
  function Candidates(m: Migration, parent: Instruction, cs: seq<Creation>, instructions: seq<Instruction>,
                      consumed: set<nat>): (r: seq<nat>)
    ensures forall k :: k in r ==> k < |cs| && k !in consumed && Fits(m, parent, cs[k], instructions)
    ensures forall k :: 0 <= k < |cs| && k !in consumed && Fits(m, parent, cs[k], instructions) ==> k in r
  {
    if cs == [] then []
    else
      var n := |cs| - 1;
      Candidates(m, parent, cs[..n], instructions, consumed)
      + if n !in consumed && Fits(m, parent, cs[n], instructions) then [n] else []
  }

  /** One migration: its activated creation, if any. `valid` is the check of the validated pool. */
  function MatchOne<P>(instructions: seq<Instruction>, m: Migration, cs: seq<Creation>, pools: map<string, P>,
                       valid: (P, Creation, Migration) -> bool, consumed: set<nat>): Result<Option<nat>, MatchError> {
    match FindInstruction(instructions, m)
    case None => Err(MissingInstruction)
    case Some(parent) =>
      var found := Candidates(m, parent, cs, instructions, consumed);
      assert found != [] ==> found[0] in found;
      if |found| > 1 then Err(Ambiguous)
      else if found == [] || cs[found[0]].pool !in pools then Ok(None)
      else if !valid(pools[cs[found[0]].pool], cs[found[0]], m) then Err(Mismatch)
      else Ok(Some(found[0]))
  }

  function Consume(consumed: set<nat>, k: Option<nat>): set<nat> {
    if k.None? then consumed else consumed + {k.value}
  }

  function MatchFrom<P>(instructions: seq<Instruction>, ms: seq<Migration>, cs: seq<Creation>, pools: map<string, P>,
                        valid: (P, Creation, Migration) -> bool, consumed: set<nat>): Result<seq<Option<nat>>, MatchError>
    decreases |ms|
  {
    if ms == [] then Ok([])
    else
      match MatchOne(instructions, ms[0], cs, pools, valid, consumed)
      case Err(e) => Err(e)
      case Ok(k) =>
        match MatchFrom(instructions, ms[1..], cs, pools, valid, Consume(consumed, k))
        case Err(e) => Err(e)
        case Ok(rest) => Ok([k] + rest)
  }

  function Continued(done: seq<Option<nat>>,
                     rest: Result<seq<Option<nat>>, MatchError>): Result<seq<Option<nat>>, MatchError> {
    match rest
    case Err(e) => Err(e)
    case Ok(ks) => Ok(done + ks)
  }

  method MatchMigrations<P>(instructions: seq<Instruction>, ms: seq<Migration>, cs: seq<Creation>,
                            pools: map<string, P>,
                            valid: (P, Creation, Migration) -> bool) returns (r: Result<seq<Option<nat>>, MatchError>)
    ensures r == MatchFrom(instructions, ms, cs, pools, valid, {})
  {
    hide MatchOne;
    var consumed: set<nat>, done: seq<Option<nat>> := {}, [];
    ghost var goal := MatchFrom(instructions, ms, cs, pools, valid, {});
    assert goal.Ok? ==> [] + goal.value == goal.value;
    for i := 0 to |ms|
      invariant Continued(done, MatchFrom(instructions, ms[i..], cs, pools, valid, consumed)) == goal
    {
      assert ms[i..][1..] == ms[i + 1..] && ms[i..][0] == ms[i];
      var k := MatchOne(instructions, ms[i], cs, pools, valid, consumed);
      if k.Err? { return Err(k.error); }
      ghost var rest := MatchFrom(instructions, ms[i + 1..], cs, pools, valid, Consume(consumed, k.value));
      assert rest.Ok? ==> done + ([k.value] + rest.value) == done + [k.value] + rest.value;
      consumed := Consume(consumed, k.value);
      done := done + [k.value];
    }
    assert ms[|ms|..] == [];
    assert done + [] == done;
    return Ok(done);
  }

  /** The creation answers this migration: it is invoked directly by the migration's instruction. */
  predicate Answers(instructions: seq<Instruction>, m: Migration, cs: seq<Creation>, k: nat) {
    k < |cs| && FindInstruction(instructions, m).Some? && Fits(m, FindInstruction(instructions, m).value, cs[k], instructions)
  }

  /** Each creation is activated at most once, by a migration whose direct child it is. */
  lemma {:induction false} ActivatedOnce<P>(instructions: seq<Instruction>, ms: seq<Migration>, cs: seq<Creation>,
                                            pools: map<string, P>,
                                           valid: (P, Creation, Migration) -> bool, consumed: set<nat>)
    requires MatchFrom(instructions, ms, cs, pools, valid, consumed).Ok?
    ensures var r := MatchFrom(instructions, ms, cs, pools, valid, consumed).value;
            && |r| == |ms|
            && (forall i :: 0 <= i < |r| && r[i].Some? ==> Answers(instructions, ms[i], cs, r[i].value) && r[i].value !in consumed)
            && forall i, j :: 0 <= i < j < |r| && r[i].Some? && r[j].Some? ==> r[i].value != r[j].value
    decreases |ms|
  {
    hide Fits;
    if ms != [] {
      var k := MatchOne(instructions, ms[0], cs, pools, valid, consumed).value;
      ActivatedOnce(instructions, ms[1..], cs, pools, valid, Consume(consumed, k));
    }
  }

  // --------------------------------------------- what one match decides

  /** An unconsumed creation of the migration's pool and mints, at index zero, invoked directly by its instruction. */
  predicate Claimable(instructions: seq<Instruction>, m: Migration, cs: seq<Creation>, consumed: set<nat>, k: nat) {
    && k < |cs| && k !in consumed && FindInstruction(instructions, m).Some?
    && cs[k].index == 0 && cs[k].pool == m.pool && cs[k].baseMint == m.mint && cs[k].quoteMint == m.quoteMint
    && IsDirectCpiChild(FindInstruction(instructions, m).value, cs[k].instruction, instructions)
  }

  lemma {:induction false} ClaimableAre(instructions: seq<Instruction>, m: Migration, cs: seq<Creation>, consumed: set<nat>)
    requires FindInstruction(instructions, m).Some?
    ensures var found := Candidates(m, FindInstruction(instructions, m).value, cs, instructions, consumed);
            forall k: nat :: Claimable(instructions, m, cs, consumed, k) <==> k in found
  {
    hide FindInstruction, IsDirectCpiChild, Candidates;
  }

  lemma {:induction false} FindMeans(instructions: seq<Instruction>, m: Migration)
    ensures FindInstruction(instructions, m).None? <==>
            forall i :: i in instructions ==> !(i.index == m.index && i.inner == m.inner && i.program == PUMP_PROGRAM_ID)
    decreases |instructions|
  {
    if instructions != [] {
      FindMeans(instructions[1..], m);
      assert instructions == [instructions[0]] + instructions[1..];
    }
  }

  predicate Ascending(ks: seq<nat>) {
    forall i, j :: 0 <= i < j < |ks| ==> ks[i] < ks[j]
  }

  lemma {:induction false} CandidatesIncrease(m: Migration, parent: Instruction, cs: seq<Creation>,
                                              instructions: seq<Instruction>, consumed: set<nat>)
    ensures Ascending(Candidates(m, parent, cs, instructions, consumed))
    decreases |cs|
  {
    hide Fits;
    if cs != [] {
      var n := |cs| - 1;
      CandidatesIncrease(m, parent, cs[..n], instructions, consumed);
      var before := Candidates(m, parent, cs[..n], instructions, consumed);
      forall i | 0 <= i < |before| ensures before[i] < n { assert before[i] in before; }
    }
  }

  lemma {:induction false} NeedsInstruction(instructions: seq<Instruction>, m: Migration, cs: seq<Creation>, consumed: set<nat>)
    ensures FindInstruction(instructions, m).None? ==> forall k: nat :: !Claimable(instructions, m, cs, consumed, k)
  {
  }

  /**
   One migration: refused if its instruction is missing or two creations answer it;
   otherwise its sole answering creation is activated if its pool was validated and
   agrees, and is a mismatch if it does not agree.
   */
  lemma {:induction false} MatchOneMeans<P>(instructions: seq<Instruction>, m: Migration, cs: seq<Creation>,
                                            pools: map<string, P>, valid: (P, Creation, Migration) -> bool,
                                            consumed: set<nat>)
    ensures var r := MatchOne(instructions, m, cs, pools, valid, consumed);
            && (r == Err(MissingInstruction) <==> FindInstruction(instructions, m).None?)
            && (r == Err(Ambiguous) <==>
                exists j: nat, k: nat :: j != k && Claimable(instructions, m, cs, consumed, j) && Claimable(instructions, m, cs, consumed, k))
            && (r.Ok? && r.value.Some? ==> Claimable(instructions, m, cs, consumed, r.value.value))
    ensures forall k: nat :: Claimable(instructions, m, cs, consumed, k)
                             && (forall j: nat :: Claimable(instructions, m, cs, consumed, j) ==> j == k) ==>
              MatchOne(instructions, m, cs, pools, valid, consumed)
              == if cs[k].pool !in pools then Ok(None)
                 else if valid(pools[cs[k].pool], cs[k], m) then Ok(Some(k)) else Err(Mismatch)
    ensures FindInstruction(instructions, m).Some? && (forall k: nat :: !Claimable(instructions, m, cs, consumed, k)) ==>
              MatchOne(instructions, m, cs, pools, valid, consumed) == Ok(None)
  {
    hide Fits, FindInstruction, Candidates, Claimable, IsDirectCpiChild;
    NeedsInstruction(instructions, m, cs, consumed);
    if FindInstruction(instructions, m).Some? {
      var found := Candidates(m, FindInstruction(instructions, m).value, cs, instructions, consumed);
      CandidatesIncrease(m, FindInstruction(instructions, m).value, cs, instructions, consumed);
      ClaimableAre(instructions, m, cs, consumed);
      if |found| > 1 {
        var j, k := found[0], found[1];
        assert j < k && j in found && k in found;
      } else if |found| == 1 {
        assert found == [found[0]];
      }
    }
  }

  // ------------------------------------ consumption, on a real listing

  /** The creation's instruction is an inner instruction of the forest. */
  predicate FromForest(forest: seq<Call>, c: Creation) {
    c.instruction in Listing(forest, |forest|)
  }

  /** A tree node has one parent, so only one cursor can answer for it. */
  lemma {:induction false} OneParent(forest: seq<Call>, a: Instruction, b: Instruction, child: Instruction)
    requires a in Listing(forest, |forest|) && b in Listing(forest, |forest|) && child in Listing(forest, |forest|)
    requires IsDirectCpiChild(a, child, Listing(forest, |forest|))
    requires IsDirectCpiChild(b, child, Listing(forest, |forest|))
    ensures a.index == b.index && a.inner == b.inner
  {
    hide Boundary, Nodes, InnerNodes, Listing;
    ListingOnly(forest, |forest|, a);
    ListingOnly(forest, |forest|, b);
    ListingOnly(forest, |forest|, child);
    GroupIndex(forest, a.index, a);
    GroupIndex(forest, b.index, b);
    GroupIndex(forest, child.index, child);
    var k := child.inner.value;
    ParentOf(forest, a, child.index, k);
    ParentOf(forest, b, child.index, k);
  }

  lemma {:induction false} ParentOf(forest: seq<Call>, a: Instruction, index: nat, k: nat)
    requires a.index < |forest| && index < |forest| && k < |InnerNodes(forest, index)|
    requires if a.inner.None? then a == Outer(forest, a.index)
             else a.inner.value < |InnerNodes(forest, a.index)| && a == Inner(forest, a.index, a.inner.value)
    requires IsDirectCpiChild(a, Inner(forest, index, k), Listing(forest, |forest|))
    ensures a.index == index && InnerNodes(forest, index)[k].parent == a.inner
  {
    hide Boundary, Nodes, InnerNodes, Listing;
    if a.inner.None? {
      OuterChildren(forest, a.index, index, k);
    } else {
      InnerChildren(forest, a.index, a.inner.value, index, k);
    }
  }

  predicate DistinctCursors(ms: seq<Migration>) {
    forall i, j :: 0 <= i < j < |ms| ==> ms[i].index != ms[j].index || ms[i].inner != ms[j].inner
  }

  /** What was consumed answers only earlier cursors. */
  ghost predicate Spent(forest: seq<Call>, ms: seq<Migration>, cs: seq<Creation>, consumed: set<nat>) {
    forall k, i :: k in consumed && 0 <= i < |ms| ==> !Answers(Listing(forest, |forest|), ms[i], cs, k)
  }

  lemma {:induction false} SpentCandidates(forest: seq<Call>, m: Migration, parent: Instruction, cs: seq<Creation>,
                                           consumed: set<nat>)
    requires forall k :: k in consumed && k < |cs| ==> !Fits(m, parent, cs[k], Listing(forest, |forest|))
    ensures Candidates(m, parent, cs, Listing(forest, |forest|), consumed) == Candidates(m, parent, cs, Listing(forest, |forest|), {})
    decreases |cs|
  {
    hide Fits, Listing;
    if cs != [] { SpentCandidates(forest, m, parent, cs[..|cs| - 1], consumed); }
  }

  /** Every migration matched by itself, as if nothing were ever consumed. */
  function MatchFreely<P>(instructions: seq<Instruction>, ms: seq<Migration>, cs: seq<Creation>, pools: map<string, P>,
                          valid: (P, Creation, Migration) -> bool): Result<seq<Option<nat>>, MatchError>
    decreases |ms|
  {
    if ms == [] then Ok([])
    else
      match MatchOne(instructions, ms[0], cs, pools, valid, {})
      case Err(e) => Err(e)
      case Ok(k) =>
        match MatchFreely(instructions, ms[1..], cs, pools, valid)
        case Err(e) => Err(e)
        case Ok(rest) => Ok([k] + rest)
  }

  /**
   Marking creations as consumed never changes the outcome, error or matches: on
   the listing of a CPI forest, migrations at distinct instructions cannot claim
   the same creation.
   */
  lemma {:induction false} ConsumptionRedundant<P>(forest: seq<Call>, ms: seq<Migration>, cs: seq<Creation>,
                                                   pools: map<string, P>,
                                                   valid: (P, Creation, Migration) -> bool, consumed: set<nat>)
    requires DistinctCursors(ms) && (forall c :: c in cs ==> FromForest(forest, c)) && Spent(forest, ms, cs, consumed)
    ensures var all := Listing(forest, |forest|);
            MatchFrom(all, ms, cs, pools, valid, consumed) == MatchFreely(all, ms, cs, pools, valid)
    decreases |ms|
  {
    hide Fits, Listing, IsDirectCpiChild, Candidates, FindInstruction, MatchOne;
    var all := Listing(forest, |forest|);
    if ms != [] {
      SpentMatch(forest, ms, cs, pools, valid, consumed);
      var one := MatchOne(all, ms[0], cs, pools, valid, consumed);
      if one.Ok? {
        SpentAfter(forest, ms, cs, pools, valid, consumed, one.value);
        ConsumptionRedundant(forest, ms[1..], cs, pools, valid, Consume(consumed, one.value));
      }
    }
  }

  lemma {:induction false} SpentMatch<P>(forest: seq<Call>, ms: seq<Migration>, cs: seq<Creation>, pools: map<string, P>,
                                         valid: (P, Creation, Migration) -> bool, consumed: set<nat>)
    requires ms != [] && Spent(forest, ms, cs, consumed)
    ensures var all := Listing(forest, |forest|);
            MatchOne(all, ms[0], cs, pools, valid, consumed) == MatchOne(all, ms[0], cs, pools, valid, {})
  {
    hide Fits, Listing, IsDirectCpiChild, Candidates, FindInstruction;
    var all := Listing(forest, |forest|);
    if FindInstruction(all, ms[0]).Some? {
      var parent := FindInstruction(all, ms[0]).value;
      forall k | k in consumed && k < |cs| ensures !Fits(ms[0], parent, cs[k], all) { assert !Answers(all, ms[0], cs, k); }
      SpentCandidates(forest, ms[0], parent, cs, consumed);
    }
  }

  lemma {:induction false} SpentAfter<P>(forest: seq<Call>, ms: seq<Migration>, cs: seq<Creation>,
                                         pools: map<string, P>,
                                        valid: (P, Creation, Migration) -> bool, consumed: set<nat>, k: Option<nat>)
    requires ms != [] && DistinctCursors(ms) && (forall c :: c in cs ==> FromForest(forest, c))
    requires Spent(forest, ms, cs, consumed)
    requires MatchOne(Listing(forest, |forest|), ms[0], cs, pools, valid, consumed) == Ok(k)
    ensures Spent(forest, ms[1..], cs, Consume(consumed, k))
  {
    hide Listing, IsDirectCpiChild;
    var all := Listing(forest, |forest|);
    forall c, i | c in Consume(consumed, k) && 0 <= i < |ms[1..]| ensures !Answers(all, ms[1..][i], cs, c) {
      if c in consumed {
        assert !Answers(all, ms[i + 1], cs, c);
      } else if Answers(all, ms[i + 1], cs, c) {
        assert cs[c] in cs;
        OneParent(forest, FindInstruction(all, ms[0]).value, FindInstruction(all, ms[i + 1]).value, cs[c].instruction);
      }
    }
  }
}
