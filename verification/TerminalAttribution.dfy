/**
 The terminal attribution artifact: rows with equal fields are coalesced, the
 groups sorted by key, the first of them retained and the rest summed up.
 */
module TerminalAttribution {
  import opened Prelude
  import opened Sorting
  import opened AttributionRows

  const MAX_GROUPS: nat := 128

  datatype Section = Section(total: nat, retained: nat, unavailable: nat, overflowGroups: nat, overflowCount: nat,
                             groups: seq<Entry>)

  datatype Incomplete = Incomplete(parentRows: nat, missing: nat)

  datatype Artifact = Artifact(current: Section, diagnostics: Section, incomplete: Incomplete)

  datatype Error = InvalidEvidence

  // -------------------------------------------------------------- building

  function CheckedAdd(a: nat, b: nat): Option<nat> {
    if a + b > MAX_SAFE then None else Some(a + b)
  }

  function MinimumRepresentative(a: Option<Representative>, b: Option<Representative>): Option<Representative> {
    if a.None? then b
    else if b.None? then a
    else if LexLeq(RepresentativeKey(a.value), RepresentativeKey(b.value)) then a else b
  }

  /** The groups by key, and the order in which the keys were first met. */
  datatype Table = Table(order: seq<string>, groups: map<string, Entry>)

  function Merged(prior: Entry, e: Entry): Option<Entry> {
    var count := CheckedAdd(prior.count, e.count);
    if count.None? then None
    else Some(Entry(prior.fields, count.value, MinimumRepresentative(prior.representative, e.representative)))
  }

  function Add(t: Table, e: Entry): Option<Table> {
    var k := Key(e.fields);
    if k !in t.groups then Some(Table(t.order + [k], t.groups[k := e]))
    else
      match Merged(t.groups[k], e)
      case None => None
      case Some(m) => Some(t.(groups := t.groups[k := m]))
  }

  function Coalesce(es: seq<Entry>): Option<Table> {
    if es == [] then Some(Table([], map[]))
    else
      match Coalesce(es[..|es| - 1])
      case None => None
      case Some(t) => Add(t, es[|es| - 1])
  }

  predicate KeyLeq(a: Entry, b: Entry) {
    LexLeq(Key(a.fields), Key(b.fields))
  }

  function Values(order: seq<string>, groups: map<string, Entry>): (vs: seq<Entry>)
    requires forall k :: k in order ==> k in groups
    ensures |vs| == |order| && forall i :: 0 <= i < |vs| ==> vs[i] == groups[order[i]]
  {
    if order == [] then [] else [groups[order[0]]] + Values(order[1..], groups)
  }

  /** The counts of the entries a caller asks for. */
  function Sum(es: seq<Entry>, want: Entry -> bool): nat {
    if es == [] then 0 else Sum(es[..|es| - 1], want) + if want(es[|es| - 1]) then es[|es| - 1].count else 0
  }

  predicate Any(e: Entry) {
    true
  }

  predicate IsUnavailable(e: Entry) {
    Unavailable(e.fields)
  }

  function Cut(groups: seq<Entry>): nat {
    if |groups| <= MAX_GROUPS then |groups| else MAX_GROUPS
  }

  function SectionOf(groups: seq<Entry>): Section {
    var n := Cut(groups);
    Section(Sum(groups, Any), Sum(groups[..n], Any), Sum(groups, IsUnavailable), |groups| - n, Sum(groups[n..], Any), groups[..n])
  }

  function BuildSection(es: seq<Entry>): Result<Section, Error> {
    match Coalesce(es)
    case None => Err(InvalidEvidence)
    case Some(t) =>
      if !(forall k :: k in t.order ==> k in t.groups) then Err(InvalidEvidence)
      else
        var groups := Sort(Values(t.order, t.groups), KeyLeq);
        if Sum(groups, Any) > MAX_SAFE then Err(InvalidEvidence) else Ok(SectionOf(groups))
  }

  // --------------------------------------------------------------- parsing

  predicate Ascending(groups: seq<Entry>) {
    forall i :: 0 < i < |groups| ==>
      KeyLeq(groups[i - 1], groups[i]) && Key(groups[i - 1].fields) != Key(groups[i].fields)
  }

  /** What the parser demands of a section, and nothing else. */
  predicate Accepts(t: Taxonomy, current: bool, s: Section) {
    && |s.groups| <= MAX_GROUPS
    && (forall e :: e in s.groups ==> ValidEntry(t, e) && e.fields.Current? == current)
    && s.retained == Sum(s.groups, Any) && s.total <= MAX_SAFE && s.total == s.retained + s.overflowCount
    && Sum(s.groups, IsUnavailable) <= s.unavailable <= s.total
    && s.overflowGroups <= MAX_SAFE && (s.overflowGroups > 0 <==> s.overflowCount > 0)
    && Ascending(s.groups)
  }

  function ParseSection(t: Taxonomy, current: bool, s: Section): Result<Section, Error> {
    if Accepts(t, current, s) then Ok(s) else Err(InvalidEvidence)
  }

  predicate IncompleteOk(i: Incomplete) {
    (i.parentRows == 0 <==> i.missing == 0) && i.missing >= i.parentRows && i.missing <= MAX_SAFE
  }

  // -------------------------------------------------- the whole artifact

  predicate AllValid(t: Taxonomy, current: bool, es: seq<Entry>) {
    forall e :: e in es ==> ValidEntry(t, e) && e.fields.Current? == current
  }

  /** `fits` is the size limit on the serialised artifact. */
  function Build(t: Taxonomy, current: seq<Entry>, diagnostics: seq<Entry>, incomplete: Incomplete,
                 fits: Artifact -> bool): Result<Artifact, Error> {
    if !AllValid(t, true, current) || !AllValid(t, false, diagnostics) || !IncompleteOk(incomplete) then Err(InvalidEvidence)
    else
      match BuildSection(current)
      case Err(e) => Err(e)
      case Ok(c) =>
        match BuildSection(diagnostics)
        case Err(e) => Err(e)
        case Ok(d) => if fits(Artifact(c, d, incomplete)) then Ok(Artifact(c, d, incomplete)) else Err(InvalidEvidence)
  }

  function Parse(t: Taxonomy, a: Artifact, fits: Artifact -> bool): Result<Artifact, Error> {
    match ParseSection(t, true, a.current)
    case Err(e) => Err(e)
    case Ok(c) =>
      match ParseSection(t, false, a.diagnostics)
      case Err(e) => Err(e)
      case Ok(d) =>
        if IncompleteOk(a.incomplete) && fits(Artifact(c, d, a.incomplete)) then Ok(Artifact(c, d, a.incomplete)) else Err(InvalidEvidence)
  }

  // --------------------------------------------------- sums of entries

  lemma {:induction false} SumAppend(a: seq<Entry>, b: seq<Entry>, want: Entry -> bool)
    ensures Sum(a + b, want) == Sum(a, want) + Sum(b, want)
    decreases |b|
  {
    if b == [] {
      assert a + b == a;
    } else {
      assert (a + b)[..|a + b| - 1] == a + b[..|b| - 1];
      SumAppend(a, b[..|b| - 1], want);
    }
  }

  lemma {:induction false} SumSingle(e: Entry, want: Entry -> bool)
    ensures Sum([e], want) == if want(e) then e.count else 0
  {
    assert [e][..0] == [];
  }

  lemma {:induction false} SumRemove(es: seq<Entry>, k: nat, want: Entry -> bool)
    requires k < |es|
    ensures Sum(es, want) == Sum(es[..k] + es[k + 1..], want) + if want(es[k]) then es[k].count else 0
  {
    hide Sum;
    assert es == es[..k] + ([es[k]] + es[k + 1..]);
    SumAppend(es[..k], [es[k]] + es[k + 1..], want);
    SumAppend([es[k]], es[k + 1..], want);
    SumAppend(es[..k], es[k + 1..], want);
    SumSingle(es[k], want);
  }

  lemma {:induction false} SumPermute(a: seq<Entry>, b: seq<Entry>, want: Entry -> bool)
    requires multiset(a) == multiset(b)
    ensures Sum(a, want) == Sum(b, want)
    decreases |a|
  {
    if a == [] {
      assert |b| == |multiset(b)| == 0;
    } else {
      hide Sum;
      var n := |a| - 1;
      assert a[n] in multiset(b);
      var k :| 0 <= k < |b| && b[k] == a[n];
      assert a[n + 1..] == [] && a[..n] + [] == a[..n];
      RemoveAt(a, n);
      RemoveAt(b, k);
      SumPermute(a[..n], b[..k] + b[k + 1..], want);
      SumRemove(a, n, want);
      SumRemove(b, k, want);
    }
  }

  lemma {:induction false} SumAtMost(es: seq<Entry>, want: Entry -> bool)
    ensures Sum(es, want) <= Sum(es, Any)
    decreases |es|
  {
    if es != [] { SumAtMost(es[..|es| - 1], want); }
  }

  lemma {:induction false} SumSplit(es: seq<Entry>, n: nat, want: Entry -> bool)
    requires n <= |es|
    ensures Sum(es, want) == Sum(es[..n], want) + Sum(es[n..], want)
  {
    SumAppend(es[..n], es[n..], want);
    assert es == es[..n] + es[n..];
  }

  lemma {:induction false} SumPositive(es: seq<Entry>)
    requires forall e :: e in es ==> e.count > 0
    ensures Sum(es, Any) > 0 <==> es != []
  {
    if es != [] { assert es[|es| - 1] in es; }
  }

  /** Replacing one entry changes the sum by the difference. */
  lemma {:induction false} SumReplace(es: seq<Entry>, i: nat, e: Entry, want: Entry -> bool)
    requires i < |es| && want(e) == want(es[i])
    ensures Sum(es[i := e], want) + (if want(e) then es[i].count else 0) == Sum(es, want) + if want(e) then e.count else 0
  {
    assert es == es[..i] + ([es[i]] + es[i + 1..]);
    assert es[i := e] == es[..i] + ([e] + es[i + 1..]);
    SumAppend(es[..i], [es[i]] + es[i + 1..], want);
    SumAppend(es[..i], [e] + es[i + 1..], want);
    SumAppend([es[i]], es[i + 1..], want);
    SumAppend([e], es[i + 1..], want);
    SumSingle(es[i], want);
    SumSingle(e, want);
  }

  // -------------------------------------------- what coalescing keeps

  function WithKey(k: string): Entry -> bool {
    (e: Entry) => Key(e.fields) == k
  }

  ghost predicate Mentions(es: seq<Entry>, k: string) {
    exists e :: e in es && Key(e.fields) == k
  }

  predicate NoBetter(r: Option<Representative>, e: Entry) {
    e.representative.Some? ==> r.Some? && LexLeq(RepresentativeKey(r.value), RepresentativeKey(e.representative.value))
  }

  /** The group of a key: the common fields, the sum of the counts, the least representative. */
  ghost predicate Groups(es: seq<Entry>, k: string, g: Entry) {
    && Key(g.fields) == k && g.count == Sum(es, WithKey(k)) && g.count > 0
    && (exists e :: e in es && e.fields == g.fields)
    && (forall e :: e in es && Key(e.fields) == k ==> e.fields == g.fields && NoBetter(g.representative, e))
    && (g.representative.Some? ==> exists e :: e in es && Key(e.fields) == k && e.representative == g.representative)
  }

  predicate Distinct(order: seq<string>) {
    forall i, j :: 0 <= i < j < |order| ==> order[i] != order[j]
  }

  ghost predicate TableOk(es: seq<Entry>, t: Table) {
    && Distinct(t.order) && (forall k :: k in t.order <==> k in t.groups)
    && (forall k :: k in t.groups <==> Mentions(es, k))
    && (forall k :: k in t.groups ==> Groups(es, k, t.groups[k]))
  }

  lemma {:induction false} GroupsFresh(es: seq<Entry>, e: Entry)
    requires !Mentions(es, Key(e.fields)) && e.count > 0
    ensures Groups(es + [e], Key(e.fields), e)
  {
    hide Key;
    var k := Key(e.fields);
    SumNone(es, k);
    assert (es + [e])[..|es|] == es && e in es + [e];
    LexTotal(if e.representative.Some? then RepresentativeKey(e.representative.value) else "",
             if e.representative.Some? then RepresentativeKey(e.representative.value) else "");
  }

  lemma {:induction false} SumNone(es: seq<Entry>, k: string)
    requires !Mentions(es, k)
    ensures Sum(es, WithKey(k)) == 0
    decreases |es|
  {
    hide Key;
    if es != [] {
      assert es[|es| - 1] in es;
      SumNone(es[..|es| - 1], k);
    }
  }

  /** A row of the group's key has the group's fields. */
  lemma {:induction false} GroupsMerged(t: Taxonomy, es: seq<Entry>, g: Entry, e: Entry)
    requires TaxonomyOk(t) && Groups(es, Key(e.fields), g) && e.fields == g.fields && Merged(g, e).Some?
    ensures Groups(es + [e], Key(e.fields), Merged(g, e).value)
  {
    hide Key, TaxonomyOk, RepresentativeKey;
    var m := Merged(g, e).value;
    assert (es + [e])[..|es|] == es && e in es + [e];
    assert forall x :: x in es ==> x in es + [e];
    LeastOfTwo(g.representative, e.representative);
    forall x | x in es + [e] && Key(x.fields) == Key(e.fields) ensures x.fields == m.fields && NoBetter(m.representative, x) {
      if x in es && x.representative.Some? { Lower(m.representative, g.representative, x); }
    }
    if m.representative.Some? && m.representative != e.representative {
      var x :| x in es && Key(x.fields) == Key(e.fields) && x.representative == g.representative;
      assert x in es + [e];
    }
  }

  lemma {:induction false} LeastOfTwo(a: Option<Representative>, b: Option<Representative>)
    ensures var m := MinimumRepresentative(a, b);
            && (m == a || m == b)
            && (a.Some? ==> m.Some? && LexLeq(RepresentativeKey(m.value), RepresentativeKey(a.value)))
            && (b.Some? ==> m.Some? && LexLeq(RepresentativeKey(m.value), RepresentativeKey(b.value)))
  {
    if a.Some? { LexTotal(RepresentativeKey(a.value), RepresentativeKey(a.value)); }
    if b.Some? { LexTotal(RepresentativeKey(b.value), RepresentativeKey(b.value)); }
    if a.Some? && b.Some? { LexTotal(RepresentativeKey(a.value), RepresentativeKey(b.value)); }
  }

  lemma {:induction false} Lower(m: Option<Representative>, g: Option<Representative>, x: Entry)
    requires NoBetter(g, x) && (g.Some? ==> m.Some? && LexLeq(RepresentativeKey(m.value), RepresentativeKey(g.value)))
    ensures NoBetter(m, x)
  {
    if x.representative.Some? {
      LexTransitive(RepresentativeKey(m.value), RepresentativeKey(g.value), RepresentativeKey(x.representative.value));
    }
  }

  lemma {:induction false} GroupsOther(es: seq<Entry>, e: Entry, k: string, g: Entry)
    requires Groups(es, k, g) && Key(e.fields) != k
    ensures Groups(es + [e], k, g)
  {
    hide Key, RepresentativeKey;
    assert (es + [e])[..|es|] == es;
    assert forall x :: x in es ==> x in es + [e];
  }

  lemma {:induction false} AddOk(t: Taxonomy, es: seq<Entry>, tab: Table, e: Entry)
    requires TaxonomyOk(t) && AllValid(t, e.fields.Current?, es + [e]) && TableOk(es, tab)
    ensures Add(tab, e).Some? ==> TableOk(es + [e], Add(tab, e).value)
  {
    hide Key, TaxonomyOk, Groups, Merged;
    var k := Key(e.fields);
    if Add(tab, e).Some? {
      var tab' := Add(tab, e).value;
      forall x ensures Mentions(es + [e], x) <==> Mentions(es, x) || x == k {
        if y :| y in es && Key(y.fields) == x { assert y in es + [e]; }
        assert e in es + [e];
      }
      forall x | x in tab'.groups ensures Groups(es + [e], x, tab'.groups[x]) {
        if x != k {
          GroupsOther(es, e, x, tab.groups[x]);
        } else if k in tab.groups {
          SameFields(t, es, e, tab.groups[k]);
          GroupsMerged(t, es, tab.groups[k], e);
        } else {
          CountPositive(t, es, e);
          GroupsFresh(es, e);
        }
      }
    }
  }

  lemma {:induction false} CountPositive(t: Taxonomy, es: seq<Entry>, e: Entry)
    requires AllValid(t, e.fields.Current?, es + [e])
    ensures e.count > 0
  {
    assert e in es + [e];
  }

  lemma {:induction false} EntryFields(t: Taxonomy, e: Entry)
    requires ValidEntry(t, e)
    ensures ValidFields(t, e.fields)
  {
  }

  lemma {:induction false} SameFields(t: Taxonomy, es: seq<Entry>, e: Entry, g: Entry)
    requires TaxonomyOk(t) && AllValid(t, e.fields.Current?, es + [e]) && Groups(es, Key(e.fields), g)
    ensures e.fields == g.fields
  {
    hide Key, TaxonomyOk, ValidEntry, RepresentativeKey, Sum;
    var x :| x in es && x.fields == g.fields;
    assert x in es + [e] && e in es + [e];
    EntryFields(t, x);
    EntryFields(t, e);
    KeysTellFields(t, x.fields, e.fields);
  }

  lemma {:induction false} CoalesceOk(t: Taxonomy, current: bool, es: seq<Entry>)
    requires TaxonomyOk(t) && AllValid(t, current, es)
    ensures Coalesce(es).Some? ==> TableOk(es, Coalesce(es).value)
    decreases |es|
  {
    hide TaxonomyOk, ValidEntry, Add, TableOk;
    if es == [] {
      EmptyTable();
    } else {
      var init, e := es[..|es| - 1], es[|es| - 1];
      assert es == init + [e] && e in es;
      CoalesceOk(t, current, init);
      if Coalesce(init).Some? { AddOk(t, init, Coalesce(init).value, e); }
    }
  }

  lemma {:induction false} EmptyTable()
    ensures TableOk([], Table([], map[]))
  {
  }

  // ------------------------------------------------------- conservation

  ghost predicate KeysIn(t: Table) {
    Distinct(t.order) && forall k :: k in t.order <==> k in t.groups
  }

  lemma {:induction false} ValuesUpdate(order: seq<string>, groups: map<string, Entry>, i: nat, e: Entry)
    requires Distinct(order) && (forall k :: k in order ==> k in groups) && i < |order|
    ensures Values(order, groups[order[i] := e]) == Values(order, groups)[i := e]
  {
    hide Values;
  }

  lemma {:induction false} ValuesExtend(order: seq<string>, groups: map<string, Entry>, k: string, e: Entry)
    requires (forall x :: x in order ==> x in groups) && k !in order
    ensures Values(order + [k], groups[k := e]) == Values(order, groups) + [e]
  {
    hide Values;
  }

  /** Adding a row adds its count, to some group, and nothing else. */
  lemma {:induction false} AddConserves(t: Table, e: Entry)
    requires KeysIn(t) && Add(t, e).Some?
    ensures KeysIn(Add(t, e).value)
    ensures Sum(Values(Add(t, e).value.order, Add(t, e).value.groups), Any) == Sum(Values(t.order, t.groups), Any) + e.count
  {
    hide Key, Values, Sum;
    var k := Key(e.fields);
    if k !in t.groups {
      ValuesExtend(t.order, t.groups, k, e);
      SumAppend(Values(t.order, t.groups), [e], Any);
      SumSingle(e, Any);
    } else {
      var i :| 0 <= i < |t.order| && t.order[i] == k;
      var m := Merged(t.groups[k], e).value;
      ValuesUpdate(t.order, t.groups, i, m);
      SumReplace(Values(t.order, t.groups), i, m, Any);
    }
  }

  lemma {:induction false} CoalesceConserves(es: seq<Entry>)
    ensures Coalesce(es).Some? ==>
              KeysIn(Coalesce(es).value) && Sum(Values(Coalesce(es).value.order, Coalesce(es).value.groups), Any) == Sum(es, Any)
    decreases |es|
  {
    hide Add, Values;
    if es != [] {
      CoalesceConserves(es[..|es| - 1]);
      if Coalesce(es[..|es| - 1]).Some? && Coalesce(es).Some? {
        AddConserves(Coalesce(es[..|es| - 1]).value, es[|es| - 1]);
      }
    } else {
      NoValues();
    }
  }

  lemma {:induction false} NoValues()
    ensures Values([], map[]) == []
  {
  }

  /** Only a total beyond 2^53 - 1 stops the coalescing. */
  lemma {:induction false} CoalesceSucceeds(es: seq<Entry>)
    requires Sum(es, Any) <= MAX_SAFE
    ensures Coalesce(es).Some?
    decreases |es|
  {
    hide Values;
    if es != [] {
      var init, e := es[..|es| - 1], es[|es| - 1];
      CoalesceSucceeds(init);
      CoalesceConserves(init);
      var t := Coalesce(init).value;
      var k := Key(e.fields);
      if k in t.groups {
        var i :| 0 <= i < |t.order| && t.order[i] == k;
        CountWithin(Values(t.order, t.groups), i);
      }
    }
  }

  lemma {:induction false} CountWithin(es: seq<Entry>, i: nat)
    requires i < |es|
    ensures es[i].count <= Sum(es, Any)
    decreases |es|
  {
    if i < |es| - 1 { CountWithin(es[..|es| - 1], i); }
  }

  lemma {:induction false} KeyLeqIsOrder()
    ensures TotalPreorder(KeyLeq)
  {
    hide Key, LexLeq;
    forall a, b ensures KeyLeq(a, b) || KeyLeq(b, a) { LexTotal(Key(a.fields), Key(b.fields)); }
    forall a, b, c | KeyLeq(a, b) && KeyLeq(b, c) ensures KeyLeq(a, c) {
      LexTransitive(Key(a.fields), Key(b.fields), Key(c.fields));
    }
  }

  /** For valid rows the same holds of the unavailable ones: a row joins a group of its own fields. */
  lemma {:induction false} UnavailableConserved(t: Taxonomy, current: bool, es: seq<Entry>)
    requires TaxonomyOk(t) && AllValid(t, current, es) && Coalesce(es).Some?
    ensures KeysIn(Coalesce(es).value)
    ensures Sum(Values(Coalesce(es).value.order, Coalesce(es).value.groups), IsUnavailable) == Sum(es, IsUnavailable)
    decreases |es|
  {
    hide TaxonomyOk, ValidEntry, Add, TableOk, Values;
    CoalesceConserves(es);
    if es == [] {
      NoValues();
    } else {
      var init, e := es[..|es| - 1], es[|es| - 1];
      assert es == init + [e] && e in es;
      UnavailableConserved(t, current, init);
      CoalesceOk(t, current, init);
      AddUnavailable(t, init, Coalesce(init).value, e);
    }
  }

  lemma {:induction false} AddUnavailable(t: Taxonomy, es: seq<Entry>, tab: Table, e: Entry)
    requires TaxonomyOk(t) && AllValid(t, e.fields.Current?, es + [e]) && TableOk(es, tab) && KeysIn(tab)
    requires Add(tab, e).Some? && KeysIn(Add(tab, e).value)
    ensures Sum(Values(Add(tab, e).value.order, Add(tab, e).value.groups), IsUnavailable)
         == Sum(Values(tab.order, tab.groups), IsUnavailable) + if IsUnavailable(e) then e.count else 0
  {
    hide Key, Values, Sum, Groups, TaxonomyOk, ValidEntry, Unavailable;
    var k := Key(e.fields);
    if k !in tab.groups {
      ValuesExtend(tab.order, tab.groups, k, e);
      SumAppend(Values(tab.order, tab.groups), [e], IsUnavailable);
      SumSingle(e, IsUnavailable);
    } else {
      var i :| 0 <= i < |tab.order| && tab.order[i] == k;
      SameFields(t, es, e, tab.groups[k]);
      var m := Merged(tab.groups[k], e).value;
      ValuesUpdate(tab.order, tab.groups, i, m);
      SumReplace(Values(tab.order, tab.groups), i, m, IsUnavailable);
    }
  }

  /**
   A section is built exactly when the counts of its rows sum to a safe integer,
   and then it accounts for all of them: total, retained plus overflow and, for
   valid rows, the unavailable ones.
   */
  lemma {:induction false} SectionConserves(t: Taxonomy, current: bool, es: seq<Entry>)
    ensures BuildSection(es).Ok? <==> Sum(es, Any) <= MAX_SAFE
    ensures BuildSection(es).Ok? ==>
              && BuildSection(es).value.total == Sum(es, Any)
              && BuildSection(es).value.total == BuildSection(es).value.retained + BuildSection(es).value.overflowCount
    ensures BuildSection(es).Ok? && TaxonomyOk(t) && AllValid(t, current, es) ==>
              BuildSection(es).value.unavailable == Sum(es, IsUnavailable)
  {
    hide Sum, Coalesce, Values, Sort, TaxonomyOk, AllValid;
    CoalesceConserves(es);
    if Sum(es, Any) <= MAX_SAFE { CoalesceSucceeds(es); }
    if Coalesce(es).Some? {
      var tab := Coalesce(es).value;
      var vs := Values(tab.order, tab.groups);
      KeyLeqIsOrder();
      SortSorts(vs, KeyLeq);
      SumPermute(vs, Sort(vs, KeyLeq), Any);
      SumSplit(Sort(vs, KeyLeq), Cut(Sort(vs, KeyLeq)), Any);
      SumPermute(vs, Sort(vs, KeyLeq), IsUnavailable);
      if TaxonomyOk(t) && AllValid(t, current, es) { UnavailableConserved(t, current, es); }
    }
  }

  // ---------------------------------------------------- the sorted groups

  /** One group per key of the rows, in strict key order. */
  ghost predicate IsGrouping(es: seq<Entry>, gs: seq<Entry>) {
    && Sorted(gs, KeyLeq)
    && (forall i, j :: 0 <= i < j < |gs| ==> Key(gs[i].fields) != Key(gs[j].fields))
    && (forall g :: g in gs ==> Groups(es, Key(g.fields), g))
    && forall e :: e in es ==> exists g :: g in gs && Key(g.fields) == Key(e.fields)
  }

  lemma {:induction false} GroupingOf(es: seq<Entry>, t: Table)
    requires TableOk(es, t)
    ensures (forall k :: k in t.order ==> k in t.groups) && IsGrouping(es, Sort(Values(t.order, t.groups), KeyLeq))
  {
    hide Key, Groups, Sort, Values, KeyLeq, Sorted;
    var vs := Values(t.order, t.groups);
    var gs := Sort(vs, KeyLeq);
    KeyLeqIsOrder();
    SortSorts(vs, KeyLeq);
    SameMembers(vs, gs);
    forall i | 0 <= i < |vs| ensures Key(vs[i].fields) == t.order[i] { GroupKey(es, t.order[i], vs[i]); }
    DistinctKeys(vs, gs);
    forall g | g in gs ensures Groups(es, Key(g.fields), g) {
      assert g in vs;
    }
    forall e | e in es ensures exists g :: g in gs && Key(g.fields) == Key(e.fields) {
      assert Mentions(es, Key(e.fields));
      var i :| 0 <= i < |t.order| && t.order[i] == Key(e.fields);
      assert vs[i] in gs;
    }
  }

  lemma {:induction false} GroupKey(es: seq<Entry>, k: string, g: Entry)
    requires Groups(es, k, g)
    ensures Key(g.fields) == k
  {
  }

  lemma {:induction false} DistinctKeys(a: seq<Entry>, b: seq<Entry>)
    requires multiset(a) == multiset(b)
    requires forall i, j :: 0 <= i < j < |a| ==> Key(a[i].fields) != Key(a[j].fields)
    ensures forall i, j :: 0 <= i < j < |b| ==> Key(b[i].fields) != Key(b[j].fields)
  {
    hide Key;
    forall i, j | 0 <= i < j < |b| ensures Key(b[i].fields) != Key(b[j].fields) {
      if Key(b[i].fields) == Key(b[j].fields) {
        assert b[i] in multiset(a) && b[j] in multiset(a);
        assert b[i] == b[j];
        Twice(b, i, j);
        OnlyOnce(a, b[i]);
      }
    }
  }

  // ----------------------------------------------- input order is ignored

  lemma {:induction false} GroupsUnique(t: Taxonomy, current: bool, es: seq<Entry>, fs: seq<Entry>, k: string,
                                        a: Entry, b: Entry)
    requires AllValid(t, current, es) && multiset(es) == multiset(fs)
    requires Groups(es, k, a) && Groups(fs, k, b)
    ensures a == b
  {
    hide Key, ValidEntry, RepresentativeKey, Sum;
    SumPermute(es, fs, WithKey(k));
    SameMembers(es, fs);
    if a.representative.Some? {
      var x :| x in es && Key(x.fields) == k && x.representative == a.representative;
      assert NoBetter(b.representative, x);
    }
    if b.representative.Some? {
      var x :| x in fs && Key(x.fields) == k && x.representative == b.representative;
      assert x in es && NoBetter(a.representative, x);
    }
    if a.representative.Some? && b.representative.Some? {
      RepresentativesEqual(t, current, es, a.representative.value, b.representative.value);
    }
  }

  lemma {:induction false} RepresentativesEqual(t: Taxonomy, current: bool, es: seq<Entry>, a: Representative,
                                                b: Representative)
    requires AllValid(t, current, es)
    requires exists x :: x in es && x.representative == Some(a)
    requires exists x :: x in es && x.representative == Some(b)
    requires LexLeq(RepresentativeKey(a), RepresentativeKey(b)) && LexLeq(RepresentativeKey(b), RepresentativeKey(a))
    ensures a == b
  {
    hide RepresentativeKey;
    LexTotal(RepresentativeKey(a), RepresentativeKey(b));
    KeysTellRepresentatives(a, b);
  }

  lemma {:induction false} MembersDetermined(t: Taxonomy, current: bool, es: seq<Entry>, fs: seq<Entry>,
                                             a: seq<Entry>, b: seq<Entry>)
    requires AllValid(t, current, es) && multiset(es) == multiset(fs) && IsGrouping(es, a) && IsGrouping(fs, b)
    ensures forall x :: x in a ==> x in b
  {
    hide Key, ValidEntry, Groups, Sorted;
    SameMembers(es, fs);
    forall x | x in a ensures x in b {
      var e := GroupMember(es, Key(x.fields), x);
      var y :| y in b && Key(y.fields) == Key(e.fields);
      GroupsUnique(t, current, es, fs, Key(x.fields), x, y);
    }
  }

  lemma {:induction false} GroupMember(es: seq<Entry>, k: string, g: Entry) returns (e: Entry)
    requires Groups(es, k, g)
    ensures e in es && Key(e.fields) == k
  {
    hide Key, Sum;
    e :| e in es && e.fields == g.fields;
  }

  lemma {:induction false} GroupingUnique(t: Taxonomy, current: bool, es: seq<Entry>, fs: seq<Entry>, a: seq<Entry>,
                                          b: seq<Entry>)
    requires AllValid(t, current, es) && AllValid(t, current, fs) && multiset(es) == multiset(fs)
    requires IsGrouping(es, a) && IsGrouping(fs, b)
    ensures a == b
  {
    hide Key, ValidEntry, Groups;
    MembersDetermined(t, current, es, fs, a, b);
    MembersDetermined(t, current, fs, es, b, a);
    SameSets(a, b);
    forall x, y | x in a && y in a && KeyLeq(x, y) && KeyLeq(y, x) ensures x == y {
      LexTotal(Key(x.fields), Key(y.fields));
    }
    SortedUnique(a, b, KeyLeq);
  }

  /** Any order of the same rows builds the same section, minimum representatives included. */
  lemma {:induction false} SectionIgnoresOrder(t: Taxonomy, current: bool, es: seq<Entry>, fs: seq<Entry>)
    requires TaxonomyOk(t) && AllValid(t, current, es) && multiset(es) == multiset(fs)
    ensures BuildSection(es) == BuildSection(fs)
  {
    hide Sum, Coalesce, IsGrouping, TableOk, ValidEntry, TaxonomyOk, SectionOf;
    SameMembers(es, fs);
    SectionConserves(t, current, es);
    SectionConserves(t, current, fs);
    SumPermute(es, fs, Any);
    if BuildSection(es).Ok? {
      CoalesceOk(t, current, es);
      CoalesceOk(t, current, fs);
      GroupingOf(es, Coalesce(es).value);
      GroupingOf(fs, Coalesce(fs).value);
      GroupingUnique(t, current, es, fs, Sort(Values(Coalesce(es).value.order, Coalesce(es).value.groups), KeyLeq),
                     Sort(Values(Coalesce(fs).value.order, Coalesce(fs).value.groups), KeyLeq));
    }
  }

  // --------------------------------------------------- what is retained

  ghost function KeysOf(es: seq<Entry>): set<string> {
    set e <- es :: Key(e.fields)
  }

  predicate Retains(groups: seq<Entry>, k: string) {
    exists i :: 0 <= i < |groups| && Key(groups[i].fields) == k
  }

  /**
   The section of these rows: the groups of their least keys, up to 128, each with
   its rows' summed count and least representative; and figures that account for all.
   */
  ghost predicate SectionFor(es: seq<Entry>, s: Section) {
    && |s.groups| == (if |KeysOf(es)| <= MAX_GROUPS then |KeysOf(es)| else MAX_GROUPS)
    && (forall g :: g in s.groups ==> Groups(es, Key(g.fields), g))
    && Ascending(s.groups)
    && (forall g, e :: g in s.groups && e in es && !Retains(s.groups, Key(e.fields)) ==>
          LexLeq(Key(g.fields), Key(e.fields)) && Key(g.fields) != Key(e.fields))
    && s.overflowGroups == |KeysOf(es)| - |s.groups|
    && s.total == Sum(es, Any) && s.unavailable == Sum(es, IsUnavailable)
    && s.retained == Sum(s.groups, Any) && s.overflowCount == s.total - s.retained
  }

  lemma {:induction false} CardinalityOf(gs: seq<Entry>)
    requires forall i, j :: 0 <= i < j < |gs| ==> Key(gs[i].fields) != Key(gs[j].fields)
    ensures |KeysOf(gs)| == |gs|
    decreases |gs|
  {
    hide Key;
    if gs != [] {
      var n := |gs| - 1;
      var k := Key(gs[n].fields);
      CardinalityOf(gs[..n]);
      assert gs == gs[..n] + [gs[n]];
      assert KeysOf(gs) == KeysOf(gs[..n]) + {k};
      assert k !in KeysOf(gs[..n]);
    }
  }

  lemma {:induction false} GroupingKeys(es: seq<Entry>, gs: seq<Entry>)
    requires IsGrouping(es, gs)
    ensures |gs| == |KeysOf(es)|
  {
    hide Key, Sum, NoBetter, Sorted;
    CardinalityOf(gs);
    forall k ensures k in KeysOf(gs) <==> k in KeysOf(es) {
      if k in KeysOf(gs) {
        var g :| g in gs && Key(g.fields) == k;
        var e :| e in es && e.fields == g.fields;
      }
      if k in KeysOf(es) {
        var e :| e in es && Key(e.fields) == k;
        var g :| g in gs && Key(g.fields) == Key(e.fields);
      }
    }
    assert KeysOf(gs) == KeysOf(es);
  }

  lemma {:induction false} RetainsAt(gs: seq<Entry>, n: nat, j: nat)
    requires j < n <= |gs|
    ensures Retains(gs[..n], Key(gs[j].fields))
  {
    hide Key;
    assert gs[..n][j] == gs[j];
  }

  /** A prefix of the sorted groups is below every group it leaves out. */
  lemma {:induction false} PrefixLeast(es: seq<Entry>, gs: seq<Entry>, n: nat, g: Entry, e: Entry)
    requires IsGrouping(es, gs) && n <= |gs| && g in gs[..n] && e in es && !Retains(gs[..n], Key(e.fields))
    ensures LexLeq(Key(g.fields), Key(e.fields)) && Key(g.fields) != Key(e.fields)
  {
    hide Key, Groups, LexLeq;
    var x :| x in gs && Key(x.fields) == Key(e.fields);
    var i :| 0 <= i < |gs[..n]| && gs[..n][i] == g;
    var j :| 0 <= j < |gs| && gs[j] == x;
    if j < n { RetainsAt(gs, n, j); }
    assert KeyLeq(gs[i], gs[j]);
  }

  lemma {:induction false} SectionRetained(es: seq<Entry>, gs: seq<Entry>)
    requires IsGrouping(es, gs) && Sum(gs, Any) == Sum(es, Any) && Sum(gs, IsUnavailable) == Sum(es, IsUnavailable)
    ensures SectionFor(es, SectionOf(gs))
  {
    hide Key, Groups, Sum, LexLeq, Sorted;
    GroupingKeys(es, gs);
    var n := Cut(gs);
    SumSplit(gs, n, Any);
    var s := SectionOf(gs);
    assert forall g :: g in gs[..n] ==> g in gs;
    assert Ascending(gs[..n]) by { GroupingAscends(es, gs, n); }
    forall g, e | g in s.groups && e in es && !Retains(s.groups, Key(e.fields))
      ensures LexLeq(Key(g.fields), Key(e.fields)) && Key(g.fields) != Key(e.fields)
    {
      PrefixLeast(es, gs, n, g, e);
    }
  }

  lemma {:induction false} GroupingAscends(es: seq<Entry>, gs: seq<Entry>, n: nat)
    requires IsGrouping(es, gs) && n <= |gs|
    ensures Ascending(gs[..n])
  {
    hide Key, Groups, KeyLeq;
  }

  /** What a section of valid rows is, whenever it is built. */
  lemma {:induction false} SectionBuilt(t: Taxonomy, current: bool, es: seq<Entry>)
    requires TaxonomyOk(t) && AllValid(t, current, es)
    ensures BuildSection(es).Ok? <==> Sum(es, Any) <= MAX_SAFE
    ensures BuildSection(es).Ok? ==> SectionFor(es, BuildSection(es).value)
  {
    hide Sum, Coalesce, IsGrouping, TableOk, ValidEntry, TaxonomyOk, SectionOf, Values, Sort, SectionFor;
    SectionConserves(t, current, es);
    if BuildSection(es).Ok? {
      var tab := Coalesce(es).value;
      CoalesceOk(t, current, es);
      CoalesceConserves(es);
      UnavailableConserved(t, current, es);
      GroupingOf(es, tab);
      var vs := Values(tab.order, tab.groups);
      KeyLeqIsOrder();
      SortSorts(vs, KeyLeq);
      SumPermute(vs, Sort(vs, KeyLeq), Any);
      SumPermute(vs, Sort(vs, KeyLeq), IsUnavailable);
      SectionRetained(es, Sort(vs, KeyLeq));
    }
  }

  // -------------------------------------------- a parsed section, rebuilt

  lemma {:induction false} AscendingPair(gs: seq<Entry>, i: nat, j: nat)
    requires Ascending(gs) && i < j < |gs|
    ensures KeyLeq(gs[i], gs[j]) && Key(gs[i].fields) != Key(gs[j].fields)
    decreases j
  {
    hide Key, LexLeq;
    assert KeyLeq(gs[j - 1], gs[j]) && Key(gs[j - 1].fields) != Key(gs[j].fields);
    if i < j - 1 {
      AscendingPair(gs, i, j - 1);
      LexTransitive(Key(gs[i].fields), Key(gs[j - 1].fields), Key(gs[j].fields));
      LexTotal(Key(gs[i].fields), Key(gs[j - 1].fields));
    }
  }

  lemma {:induction false} SumUnique(gs: seq<Entry>, i: nat)
    requires i < |gs| && forall i, j :: 0 <= i < j < |gs| ==> Key(gs[i].fields) != Key(gs[j].fields)
    ensures Sum(gs, WithKey(Key(gs[i].fields))) == gs[i].count
    decreases |gs|
  {
    hide Key;
    var n := |gs| - 1;
    if i == n { SumNone(gs[..n], Key(gs[n].fields)); } else { SumUnique(gs[..n], i); }
  }

  /** Groups in strict key order are their own grouping. */
  lemma {:induction false} OwnGrouping(t: Taxonomy, current: bool, gs: seq<Entry>)
    requires Ascending(gs) && AllValid(t, current, gs)
    ensures IsGrouping(gs, gs)
  {
    hide Key, LexLeq, ValidEntry, Ascending, Groups, Sum;
    forall i, j | 0 <= i < j < |gs| ensures KeyLeq(gs[i], gs[j]) && Key(gs[i].fields) != Key(gs[j].fields) {
      AscendingPair(gs, i, j);
    }
    forall g | g in gs ensures Groups(gs, Key(g.fields), g) {
      var i :| 0 <= i < |gs| && gs[i] == g;
      SumUnique(gs, i);
      OwnGroup(t, current, gs, i);
    }
  }

  lemma {:induction false} OwnGroup(t: Taxonomy, current: bool, gs: seq<Entry>, i: nat)
    requires i < |gs| && AllValid(t, current, gs) && Sum(gs, WithKey(Key(gs[i].fields))) == gs[i].count
    requires forall i, j :: 0 <= i < j < |gs| ==> Key(gs[i].fields) != Key(gs[j].fields)
    ensures Groups(gs, Key(gs[i].fields), gs[i])
  {
    hide Key, Sum, ValidCurrent, ValidRepresentative, ValidAttempt, ValidCause, ValidWire, RepresentativeKey;
    assert gs[i] in gs;
    forall e | e in gs && Key(e.fields) == Key(gs[i].fields) ensures e == gs[i] {
      var j :| 0 <= j < |gs| && gs[j] == e;
    }
    var r := gs[i].representative;
    LexTotal(if r.Some? then RepresentativeKey(r.value) else "", if r.Some? then RepresentativeKey(r.value) else "");
  }

  lemma {:induction false} WholeSection(gs: seq<Entry>)
    requires |gs| <= MAX_GROUPS
    ensures SectionOf(gs) == Section(Sum(gs, Any), Sum(gs, Any), Sum(gs, IsUnavailable), 0, 0, gs)
  {
    assert gs[..|gs|] == gs && gs[|gs|..] == [];
  }

  /**
   A section without overflow is accepted exactly when building its own groups gives
   it back.  The unavailable count is the exception: it is only held between what the
   groups show and the total.
   */
  lemma {:induction false} ParsedRebuilds(t: Taxonomy, current: bool, s: Section)
    requires TaxonomyOk(t) && AllValid(t, current, s.groups) && s.overflowGroups == 0
    ensures ParseSection(t, current, s).Ok? <==>
            && BuildSection(s.groups) == Ok(s.(unavailable := Sum(s.groups, IsUnavailable)))
            && Sum(s.groups, IsUnavailable) <= s.unavailable <= s.total
  {
    hide Sum, ValidEntry, BuildSection, Ascending, SectionFor, TaxonomyOk;
    SectionBuilt(t, current, s.groups);
    if ParseSection(t, current, s).Ok? {
      RebuiltFrom(t, current, s.groups);
    }
    if BuildSection(s.groups).Ok? && BuildSection(s.groups).value == s.(unavailable := Sum(s.groups, IsUnavailable)) {
      BuiltFacts(s.groups, BuildSection(s.groups).value);
    }
  }

  lemma {:induction false} BuiltFacts(es: seq<Entry>, s: Section)
    requires SectionFor(es, s) && s.groups == es
    ensures |es| <= MAX_GROUPS && Ascending(es) && s.total == Sum(es, Any) == s.retained && s.overflowCount == 0
  {
    hide Key, Sum, Groups, Ascending, LexLeq;
  }

  lemma {:induction false} RebuiltFrom(t: Taxonomy, current: bool, gs: seq<Entry>)
    requires TaxonomyOk(t) && AllValid(t, current, gs) && Ascending(gs) && |gs| <= MAX_GROUPS && Sum(gs, Any) <= MAX_SAFE
    ensures BuildSection(gs) == Ok(Section(Sum(gs, Any), Sum(gs, Any), Sum(gs, IsUnavailable), 0, 0, gs))
  {
    hide Sum, ValidEntry, Coalesce, IsGrouping, TableOk, Ascending, SectionOf, Values, Sort, SectionFor, TaxonomyOk;
    SectionBuilt(t, current, gs);
    CoalesceOk(t, current, gs);
    GroupingOf(gs, Coalesce(gs).value);
    OwnGrouping(t, current, gs);
    GroupingUnique(t, current, gs, gs, Sort(Values(Coalesce(gs).value.order, Coalesce(gs).value.groups), KeyLeq), gs);
    WholeSection(gs);
  }

  /** The artifact: built exactly from valid rows whose counts sum safely, and then each part is its rows' own. */
  lemma {:induction false} ArtifactBuilt(t: Taxonomy, current: seq<Entry>, diagnostics: seq<Entry>, incomplete: Incomplete,
                                         fits: Artifact -> bool)
    requires TaxonomyOk(t)
    ensures var r := Build(t, current, diagnostics, incomplete, fits);
            && (r.Ok? ==>
                  && AllValid(t, true, current) && AllValid(t, false, diagnostics)
                  && (incomplete == Incomplete(0, 0) || 1 <= incomplete.parentRows <= incomplete.missing <= MAX_SAFE)
                  && SectionFor(current, r.value.current) && SectionFor(diagnostics, r.value.diagnostics)
                  && r.value.incomplete == incomplete && fits(r.value))
            && (r.Err? ==>
                  || !AllValid(t, true, current) || !AllValid(t, false, diagnostics)
                  || (incomplete != Incomplete(0, 0) && !(1 <= incomplete.parentRows <= incomplete.missing <= MAX_SAFE))
                  || Sum(current, Any) > MAX_SAFE || Sum(diagnostics, Any) > MAX_SAFE
                  || exists a: Artifact :: SectionFor(current, a.current) && SectionFor(diagnostics, a.diagnostics) && !fits(a))
  {
    hide TaxonomyOk, AllValid, BuildSection, SectionFor, Sum;
    if AllValid(t, true, current) { SectionBuilt(t, true, current); }
    if AllValid(t, false, diagnostics) { SectionBuilt(t, false, diagnostics); }
    if AllValid(t, true, current) && AllValid(t, false, diagnostics) && BuildSection(current).Ok? && BuildSection(diagnostics).Ok? {
      var a := Artifact(BuildSection(current).value, BuildSection(diagnostics).value, incomplete);
      assert SectionFor(current, a.current) && SectionFor(diagnostics, a.diagnostics);
    }
  }

  // ------------------------------------------ the parser takes it as it is

  lemma {:induction false} GroupValid(t: Taxonomy, current: bool, es: seq<Entry>, g: Entry)
    requires AllValid(t, current, es) && Groups(es, Key(g.fields), g) && g.count <= MAX_SAFE
    ensures ValidEntry(t, g) && g.fields.Current? == current
  {
    hide Key, Sum, RepresentativeKey, ValidCurrent, ValidRepresentative, ValidAttempt, ValidCause, ValidWire;
    var e :| e in es && e.fields == g.fields;
    assert NoBetter(g.representative, e);
    if g.representative.Some? {
      var x :| x in es && Key(x.fields) == Key(g.fields) && x.representative == g.representative;
      assert x.fields == g.fields;
    }
  }

  lemma {:induction false} GroupsValid(t: Taxonomy, current: bool, es: seq<Entry>, gs: seq<Entry>)
    requires AllValid(t, current, es) && IsGrouping(es, gs) && Sum(gs, Any) <= MAX_SAFE
    ensures AllValid(t, current, gs)
  {
    hide Key, Groups, ValidEntry, Sum, Sorted;
    forall g | g in gs ensures ValidEntry(t, g) && g.fields.Current? == current {
      var i :| 0 <= i < |gs| && gs[i] == g;
      CountWithin(gs, i);
      GroupValid(t, current, es, g);
    }
  }

  lemma {:induction false} SectionAccepted(t: Taxonomy, current: bool, gs: seq<Entry>)
    requires AllValid(t, current, gs) && Sum(gs, Any) <= MAX_SAFE && |gs| <= MAX_SAFE
    requires Sorted(gs, KeyLeq) && forall i, j :: 0 <= i < j < |gs| ==> Key(gs[i].fields) != Key(gs[j].fields)
    ensures Accepts(t, current, SectionOf(gs))
  {
    hide Key, Sum, KeyLeq;
    var n := Cut(gs);
    SumSplit(gs, n, Any);
    SumSplit(gs, n, IsUnavailable);
    SumAtMost(gs, IsUnavailable);
    CountsPositive(t, current, gs[n..]);
    SumPositive(gs[n..]);
    hide ValidEntry;
    assert forall e :: e in gs[..n] ==> e in gs;
  }

  lemma {:induction false} CountsPositive(t: Taxonomy, current: bool, gs: seq<Entry>)
    requires forall e :: e in gs ==> ValidEntry(t, e)
    ensures forall e :: e in gs ==> e.count > 0
  {
  }

  lemma {:induction false} FewGroups(es: seq<Entry>)
    requires forall e :: e in es ==> e.count > 0
    ensures |es| <= Sum(es, Any)
    decreases |es|
  {
    if es != [] {
      assert es[|es| - 1] in es;
      FewGroups(es[..|es| - 1]);
    }
  }

  /** The parser accepts every built section, unchanged. */
  lemma {:induction false} SectionParses(t: Taxonomy, current: bool, es: seq<Entry>)
    requires TaxonomyOk(t) && AllValid(t, current, es) && BuildSection(es).Ok?
    ensures ParseSection(t, current, BuildSection(es).value) == Ok(BuildSection(es).value)
  {
    hide Coalesce, TableOk, Sum, ValidEntry, TaxonomyOk, SectionOf, Values, Sort, Accepts;
    CoalesceOk(t, current, es);
    var tab := Coalesce(es).value;
    GroupingOf(es, tab);
    var gs := Sort(Values(tab.order, tab.groups), KeyLeq);
    GroupsValid(t, current, es, gs);
    CountsPositive(t, current, gs);
    FewGroups(gs);
    SectionAccepted(t, current, gs);
  }

  // ------------------------------------------------------------ theorems

  /** A built artifact is read back unchanged by its own parser. */
  lemma {:induction false} BuiltArtifactParses(t: Taxonomy, current: seq<Entry>, diagnostics: seq<Entry>,
                                               incomplete: Incomplete, fits: Artifact -> bool)
    requires TaxonomyOk(t) && Build(t, current, diagnostics, incomplete, fits).Ok?
    ensures Parse(t, Build(t, current, diagnostics, incomplete, fits).value, fits) == Build(t, current, diagnostics, incomplete, fits)
  {
    hide TaxonomyOk, AllValid, BuildSection, ParseSection;
    SectionParses(t, true, current);
    SectionParses(t, false, diagnostics);
  }

  /** The artifact does not depend on the order of its input rows. */
  lemma {:induction false} ArtifactIgnoresOrder(t: Taxonomy, current: seq<Entry>, current': seq<Entry>,
                                                diagnostics: seq<Entry>,
                                               diagnostics': seq<Entry>, incomplete: Incomplete, fits: Artifact -> bool)
    requires TaxonomyOk(t) && multiset(current) == multiset(current') && multiset(diagnostics) == multiset(diagnostics')
    ensures Build(t, current, diagnostics, incomplete, fits) == Build(t, current', diagnostics', incomplete, fits)
  {
    hide TaxonomyOk, BuildSection, ValidEntry;
    SameMembers(current, current');
    SameMembers(diagnostics, diagnostics');
    if AllValid(t, true, current) && AllValid(t, false, diagnostics) {
      SectionIgnoresOrder(t, true, current, current');
      SectionIgnoresOrder(t, false, diagnostics, diagnostics');
    }
  }

  // ------------------------------------------------------------- the loop

  method CoalesceRows(es: seq<Entry>) returns (r: Option<Table>)
    ensures r == Coalesce(es)
  {
    hide Add;
    var order: seq<string>, groups: map<string, Entry> := [], map[];
    for i := 0 to |es|
      invariant Coalesce(es[..i]) == Some(Table(order, groups))
    {
      assert es[..i + 1][..i] == es[..i];
      var next := AddRow(order, groups, es[i]);
      if next.None? {
        FailureSticks(es, i + 1);
        return None;
      }
      order, groups := next.value.order, next.value.groups;
    }
    assert es[..|es|] == es;
    return Some(Table(order, groups));
  }

  method AddRow(order: seq<string>, groups: map<string, Entry>, e: Entry) returns (r: Option<Table>)
    ensures r == Add(Table(order, groups), e)
  {
    var key := Key(e.fields);
    if key !in groups { return Some(Table(order + [key], groups[key := e])); }
    var prior := groups[key];
    if prior.count + e.count > MAX_SAFE { return None; }
    var least := MinimumRepresentative(prior.representative, e.representative);
    return Some(Table(order, groups[key := Entry(prior.fields, prior.count + e.count, least)]));
  }

  lemma {:induction false} FailureSticks(es: seq<Entry>, i: nat)
    requires i <= |es| && Coalesce(es[..i]).None?
    ensures Coalesce(es).None?
    decreases |es|
  {
    hide Add;
    if i < |es| {
      assert es[..|es| - 1][..i] == es[..i];
      FailureSticks(es[..|es| - 1], i);
    } else {
      assert es[..i] == es;
    }
  }
}
