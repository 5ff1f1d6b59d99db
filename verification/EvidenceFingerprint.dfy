/**
 The bytes hashed into a classification's evidence fingerprint: a list of text
 segments, each written as its UTF-8 length, a colon and its bytes.
 */
module EvidenceFingerprint {
  import opened Prelude
  import opened Utf
  import opened UtfCodes

  type Bytes = seq<Byte>

  datatype Family = Create | Buy | Sell | Migrate

  datatype Action = Action(family: Family, mint: Text, instruction: nat, inner: Option<nat>)

  datatype Classification = Classification(
    signature: Text, slot: nat, disposition: Text, reason: Text, hint: Option<Text>, hintMint: Option<Text>,
    mints: seq<Text>, actions: seq<Action>, marker: Text)

  const COLON: Unit := 0x3A
  const NONE: Text := Ascii("NONE")

  function FamilyText(f: Family): (t: Text)
    ensures IsAscii(t)
  {
    match f
    case Create => Ascii("CREATE")
    case Buy => Ascii("BUY")
    case Sell => Ascii("SELL")
    case Migrate => Ascii("MIGRATE")
  }

  function OrNone(t: Option<Text>): Text {
    if t.None? then NONE else t.value
  }

  function Inner(n: Option<nat>): Text {
    if n.None? then NONE else Digits(n.value)
  }

  function ActionText(a: Action): Text {
    Ascii("ACTION:") + (Digits(a.instruction) + [COLON] + (Inner(a.inner) + [COLON] + (FamilyText(a.family) + [COLON] + a.mint)))
  }

  function MintTexts(ms: seq<Text>): (ts: seq<Text>)
    ensures |ts| == |ms|
    ensures forall i :: 0 <= i < |ms| ==> ts[i] == Ascii("MINT:") + ms[i]
  {
    if ms == [] then [] else [Ascii("MINT:") + ms[0]] + MintTexts(ms[1..])
  }

  function ActionTexts(xs: seq<Action>): (ts: seq<Text>)
    ensures |ts| == |xs|
    ensures forall i :: 0 <= i < |xs| ==> ts[i] == ActionText(xs[i])
  {
    if xs == [] then [] else [ActionText(xs[0])] + ActionTexts(xs[1..])
  }

  function Header(c: Classification): seq<Text> {
    [Ascii("pumpfun-catch-up-classification-v1"),
     Ascii("SIGNATURE:") + c.signature,
     Ascii("SLOT:") + Digits(c.slot),
     Ascii("DISPOSITION:") + c.disposition,
     Ascii("REASON:") + c.reason,
     Ascii("HINT:") + OrNone(c.hint),
     Ascii("HINT_MINT:") + OrNone(c.hintMint),
     Ascii("MINT_COUNT:") + Digits(|c.mints|)]
  }

  function Segments(c: Classification): seq<Text> {
    Header(c) + MintTexts(c.mints) + [Ascii("ACTION_COUNT:") + Digits(|c.actions|)] + ActionTexts(c.actions)
    + [Ascii("OUTCOME:") + c.marker]
  }

  function Frame(b: Bytes): Bytes {
    Utf8(Digits(|b|)) + [COLON as Byte] + b
  }

  function Frames(segments: seq<Text>): Bytes {
    if segments == [] then [] else Frame(Utf8(segments[0])) + Frames(segments[1..])
  }

  function Preimage(c: Classification): Bytes {
    Frames(Segments(c))
  }

  /** The updates made to the digest, segment by segment. */
  method Digest(c: Classification) returns (input: Bytes)
    ensures input == Preimage(c)
  {
    hide Segments, Frame;
    var segments := Segments(c);
    input := [];
    for i := 0 to |segments|
      invariant input + Frames(segments[i..]) == Frames(segments)
    {
      assert segments[i..][1..] == segments[i + 1..] && segments[i..][0] == segments[i];
      input := input + Frame(Utf8(segments[i]));
    }
    assert segments[|segments|..] == [];
  }

  // ---------------------------------------------------- reading it back

  lemma {:induction false} AsciiBytes(t: Text)
    requires IsAscii(t)
    ensures |Utf8(t)| == |t| && forall i :: 0 <= i < |t| ==> Utf8(t)[i] == t[i]
    decreases |t|
  {
    if t != [] {
      AsciiBytes(t[1..]);
      assert Utf8(t) == [t[0]] + Utf8(t[1..]);
    }
  }

  lemma {:induction false} LengthBytes(n: nat)
    ensures (COLON as Byte) !in Utf8(Digits(n))
  {
    AsciiBytes(Digits(n));
    DigitsHaveNoColon(n);
  }

  /** A frame ends where its length says. */
  lemma {:induction false} FrameInjective(a: Bytes, p: Bytes, b: Bytes, q: Bytes)
    requires Frame(a) + p == Frame(b) + q
    ensures a == b && p == q
  {
    hide Utf8, Digits;
    var x, y := Utf8(Digits(|a|)), Utf8(Digits(|b|));
    var colon := COLON as Byte;
    LengthBytes(|a|);
    LengthBytes(|b|);
    assert Frame(a) + p == x + [colon] + (a + p) && Frame(b) + q == y + [colon] + (b + q);
    SplitAt(colon, x, a + p, y, b + q);
    SameLength(|a|, |b|);
    assert a == (a + p)[..|a|] && b == (b + q)[..|b|];
    assert p == (a + p)[|a|..] && q == (b + q)[|b|..];
  }

  lemma {:induction false} SameLength(m: nat, n: nat)
    requires Utf8(Digits(m)) == Utf8(Digits(n))
    ensures m == n
  {
    AsciiBytes(Digits(m));
    AsciiBytes(Digits(n));
    assert Digits(m) == Digits(n);
    DigitsInjective(m, n);
  }

  /** The segment stream decodes uniquely, up to lone surrogates. */
  lemma {:induction false} FramesInjective(a: seq<Text>, b: seq<Text>)
    requires Frames(a) == Frames(b)
    ensures |a| == |b| && forall i :: 0 <= i < |a| ==> Scrub(a[i]) == Scrub(b[i])
    decreases |a|
  {
    hide Frame, Utf8, Scrub;
    if a == [] || b == [] {
      if a != [] { FrameNonEmpty(Utf8(a[0])); }
      if b != [] { FrameNonEmpty(Utf8(b[0])); }
    } else {
      FrameInjective(Utf8(a[0]), Frames(a[1..]), Utf8(b[0]), Frames(b[1..]));
      SameBytesIff(a[0], b[0]);
      FramesInjective(a[1..], b[1..]);
    }
  }

  lemma {:induction false} FrameNonEmpty(b: Bytes)
    ensures Frame(b) != []
  {
  }

  lemma {:induction false} FramesScrub(a: seq<Text>, b: seq<Text>)
    requires |a| == |b| && forall i :: 0 <= i < |a| ==> Scrub(a[i]) == Scrub(b[i])
    ensures Frames(a) == Frames(b)
    decreases |a|
  {
    hide Frame, Utf8, Scrub;
    if a != [] {
      SameBytesIff(a[0], b[0]);
      FramesScrub(a[1..], b[1..]);
    }
  }

  // ------------------------------------------------------- normal forms

  /** What the fingerprint cannot see: lone surrogates, and a hint spelled "NONE". */
  function NormalOption(t: Option<Text>): Option<Text> {
    if t.None? || Scrub(t.value) == NONE then None else Some(Scrub(t.value))
  }

  function NormalMints(ms: seq<Text>): (r: seq<Text>)
    ensures |r| == |ms| && forall i :: 0 <= i < |ms| ==> r[i] == Scrub(ms[i])
  {
    if ms == [] then [] else [Scrub(ms[0])] + NormalMints(ms[1..])
  }

  function NormalActions(xs: seq<Action>): (r: seq<Action>)
    ensures |r| == |xs| && forall i :: 0 <= i < |xs| ==> r[i] == xs[i].(mint := Scrub(xs[i].mint))
  {
    if xs == [] then [] else [xs[0].(mint := Scrub(xs[0].mint))] + NormalActions(xs[1..])
  }

  function Normal(c: Classification): Classification {
    Classification(Scrub(c.signature), c.slot, Scrub(c.disposition), Scrub(c.reason), NormalOption(c.hint),
                   NormalOption(c.hintMint), NormalMints(c.mints), NormalActions(c.actions), Scrub(c.marker))
  }

  // ------------------------------------------ one segment at a time

  lemma {:induction false} PrefixedIff(prefix: Text, a: Text, b: Text)
    requires IsAscii(prefix)
    ensures Scrub(prefix + a) == Scrub(prefix + b) <==> Scrub(a) == Scrub(b)
  {
    hide Scrub;
    ScrubAfterAscii(prefix, a);
    ScrubAfterAscii(prefix, b);
    assert (prefix + Scrub(a))[|prefix|..] == Scrub(a) && (prefix + Scrub(b))[|prefix|..] == Scrub(b);
  }

  lemma {:induction false} AsciiScrub(t: Text)
    requires IsAscii(t)
    ensures Scrub(t) == t
  {
    ScrubAfterAscii(t, []);
    assert t + [] == t;
  }

  lemma {:induction false} OrNoneIff(a: Option<Text>, b: Option<Text>)
    ensures Scrub(OrNone(a)) == Scrub(OrNone(b)) <==> NormalOption(a) == NormalOption(b)
  {
    hide Scrub;
    AsciiScrub(NONE);
  }

  lemma {:induction false} CountIff(prefix: Text, m: nat, n: nat)
    requires IsAscii(prefix)
    ensures Scrub(prefix + Digits(m)) == Scrub(prefix + Digits(n)) <==> m == n
  {
    hide Scrub;
    PrefixedIff(prefix, Digits(m), Digits(n));
    AsciiScrub(Digits(m));
    AsciiScrub(Digits(n));
    if Digits(m) == Digits(n) { DigitsInjective(m, n); }
  }

  lemma {:induction false} FamilyFacts(f: Family, g: Family)
    ensures COLON !in FamilyText(f)
    ensures FamilyText(f) == FamilyText(g) ==> f == g
  {
    hide Ascii;
    assert |FamilyText(Create)| == 6 && |FamilyText(Buy)| == 3 && |FamilyText(Sell)| == 4 && |FamilyText(Migrate)| == 7;
    match f
    case Create => NoColon("CREATE");
    case Buy => NoColon("BUY");
    case Sell => NoColon("SELL");
    case Migrate => NoColon("MIGRATE");
  }

  lemma {:induction false} NoColon(s: string)
    requires forall i :: 0 <= i < |s| ==> 'A' <= s[i] <= 'Z'
    ensures COLON !in Ascii(s)
    ensures forall i :: 0 <= i < |s| ==> Ascii(s)[i] >= 0x41
  {
    Spell(s);
  }

  lemma {:induction false} Spell(s: string)
    requires forall i :: 0 <= i < |s| ==> s[i] < 128 as char
    ensures forall i :: 0 <= i < |s| ==> Ascii(s)[i] == s[i] as nat
    decreases |s|
  {
    if s != [] { Spell(s[1..]); }
  }

  lemma {:induction false} InnerFacts(a: Option<nat>, b: Option<nat>)
    ensures IsAscii(Inner(a)) && COLON !in Inner(a)
    ensures Inner(a) == Inner(b) ==> a == b
  {
    hide Ascii;
    NoColon("NONE");
    if a.Some? { DigitsHaveNoColon(a.value); }
    if b.Some? { DigitsHaveNoColon(b.value); }
    if a.Some? && b.Some? && Inner(a) == Inner(b) { DigitsInjective(a.value, b.value); }
    if a.Some? && b.None? { assert Inner(a)[0] <= 0x39 && Inner(b)[0] >= 0x41; }
    if a.None? && b.Some? { assert Inner(b)[0] <= 0x39 && Inner(a)[0] >= 0x41; }
  }

  /** The scrubbed text of an action, with its four fields in the open. */
  lemma {:induction false} ActionScrubbed(a: Action)
    ensures Scrub(ActionText(a))
         == Ascii("ACTION:") + (Digits(a.instruction) + [COLON] + (Inner(a.inner) + [COLON] + (FamilyText(a.family) + [COLON] + Scrub(a.mint))))
  {
    hide Scrub, Ascii, Digits, FamilyText, Inner;
    InnerFacts(a.inner, a.inner);
    var f := FamilyText(a.family) + [COLON];
    var i := Inner(a.inner) + [COLON];
    var d := Digits(a.instruction) + [COLON];
    ScrubAfterAscii(f, a.mint);
    ScrubAfterAscii(i, f + a.mint);
    ScrubAfterAscii(d, i + (f + a.mint));
    ScrubAfterAscii(Ascii("ACTION:"), d + (i + (f + a.mint)));
  }

  lemma {:induction false} ActionIff(a: Action, b: Action)
    ensures Scrub(ActionText(a)) == Scrub(ActionText(b)) <==>
            a.(mint := Scrub(a.mint)) == b.(mint := Scrub(b.mint))
  {
    hide Scrub, ActionText, Ascii, Digits, FamilyText, Inner;
    ActionScrubbed(a);
    ActionScrubbed(b);
    if Scrub(ActionText(a)) == Scrub(ActionText(b)) { ActionInjective(a, b, Scrub(a.mint), Scrub(b.mint)); }
  }

  lemma {:induction false} ActionInjective(a: Action, b: Action, m: Text, n: Text)
    requires Ascii("ACTION:") + (Digits(a.instruction) + [COLON] + (Inner(a.inner) + [COLON] + (FamilyText(a.family) + [COLON] + m)))
          == Ascii("ACTION:") + (Digits(b.instruction) + [COLON] + (Inner(b.inner) + [COLON] + (FamilyText(b.family) + [COLON] + n)))
    ensures a.instruction == b.instruction && a.inner == b.inner && a.family == b.family && m == n
  {
    hide Ascii, Digits, FamilyText, Inner;
    var p := Ascii("ACTION:");
    var f, g := FamilyText(a.family) + [COLON] + m, FamilyText(b.family) + [COLON] + n;
    var i, j := Inner(a.inner) + [COLON] + f, Inner(b.inner) + [COLON] + g;
    var x, y := Digits(a.instruction) + [COLON] + i, Digits(b.instruction) + [COLON] + j;
    assert x == (p + x)[|p|..] && y == (p + y)[|p|..];
    NoColonInDigits(a.instruction);
    NoColonInDigits(b.instruction);
    SplitAt(COLON, Digits(a.instruction), i, Digits(b.instruction), j);
    DigitsInjective(a.instruction, b.instruction);
    InnerFacts(a.inner, b.inner);
    InnerFacts(b.inner, a.inner);
    SplitAt(COLON, Inner(a.inner), f, Inner(b.inner), g);
    FamilyFacts(a.family, b.family);
    FamilyFacts(b.family, a.family);
    SplitAt(COLON, FamilyText(a.family), m, FamilyText(b.family), n);
  }

  lemma {:induction false} NoColonInDigits(n: nat)
    ensures COLON !in Digits(n)
  {
    DigitsHaveNoColon(n);
  }

  // -------------------------------------------------- all the segments

  predicate SameScrubbed(a: seq<Text>, b: seq<Text>) {
    |a| == |b| && forall i :: 0 <= i < |a| ==> Scrub(a[i]) == Scrub(b[i])
  }

  lemma {:induction false} MintsIff(a: seq<Text>, b: seq<Text>)
    ensures SameScrubbed(MintTexts(a), MintTexts(b)) <==> NormalMints(a) == NormalMints(b)
  {
    hide Scrub, MintTexts, NormalMints, Ascii;
    if |a| == |b| {
      forall i | 0 <= i < |a| ensures Scrub(MintTexts(a)[i]) == Scrub(MintTexts(b)[i]) <==> Scrub(a[i]) == Scrub(b[i]) {
        PrefixedIff(Ascii("MINT:"), a[i], b[i]);
      }
      if SameScrubbed(MintTexts(a), MintTexts(b)) {
        assert forall i :: 0 <= i < |a| ==> NormalMints(a)[i] == NormalMints(b)[i] by {
          forall i | 0 <= i < |a| ensures NormalMints(a)[i] == NormalMints(b)[i] {
            assert Scrub(MintTexts(a)[i]) == Scrub(MintTexts(b)[i]);
          }
        }
      }
    }
  }

  lemma {:induction false} ActionsIff(a: seq<Action>, b: seq<Action>)
    ensures SameScrubbed(ActionTexts(a), ActionTexts(b)) <==> NormalActions(a) == NormalActions(b)
  {
    hide Scrub, ActionTexts, NormalActions, ActionText;
    if |a| == |b| {
      forall i | 0 <= i < |a| ensures Scrub(ActionTexts(a)[i]) == Scrub(ActionTexts(b)[i]) <==> NormalActions(a)[i] == NormalActions(b)[i] {
        ActionIff(a[i], b[i]);
      }
    }
  }

  predicate SameHeaderFields(a: Classification, b: Classification) {
    Scrub(a.signature) == Scrub(b.signature) && a.slot == b.slot && Scrub(a.disposition) == Scrub(b.disposition)
    && Scrub(a.reason) == Scrub(b.reason) && NormalOption(a.hint) == NormalOption(b.hint)
    && NormalOption(a.hintMint) == NormalOption(b.hintMint) && |a.mints| == |b.mints|
  }

  lemma {:induction false} HeaderIff(a: Classification, b: Classification)
    ensures SameScrubbed(Header(a), Header(b)) <==> SameHeaderFields(a, b)
  {
    hide Scrub, Ascii, Digits, OrNone, NormalOption;
    var x, y := Header(a), Header(b);
    PrefixedIff(Ascii("SIGNATURE:"), a.signature, b.signature);
    CountIff(Ascii("SLOT:"), a.slot, b.slot);
    PrefixedIff(Ascii("DISPOSITION:"), a.disposition, b.disposition);
    PrefixedIff(Ascii("REASON:"), a.reason, b.reason);
    PrefixedIff(Ascii("HINT:"), OrNone(a.hint), OrNone(b.hint));
    OrNoneIff(a.hint, b.hint);
    PrefixedIff(Ascii("HINT_MINT:"), OrNone(a.hintMint), OrNone(b.hintMint));
    OrNoneIff(a.hintMint, b.hintMint);
    CountIff(Ascii("MINT_COUNT:"), |a.mints|, |b.mints|);
    EightFold(x, y);
  }

  lemma {:induction false} EightFold(x: seq<Text>, y: seq<Text>)
    requires |x| == 8 && |y| == 8
    ensures SameScrubbed(x, y) <==>
            Scrub(x[0]) == Scrub(y[0]) && Scrub(x[1]) == Scrub(y[1]) && Scrub(x[2]) == Scrub(y[2]) && Scrub(x[3]) == Scrub(y[3])
            && Scrub(x[4]) == Scrub(y[4]) && Scrub(x[5]) == Scrub(y[5]) && Scrub(x[6]) == Scrub(y[6]) && Scrub(x[7]) == Scrub(y[7])
  {
    hide Scrub;
  }

  lemma {:induction false} SameConcat(a: seq<Text>, p: seq<Text>, b: seq<Text>, q: seq<Text>)
    requires |a| == |b|
    ensures SameScrubbed(a + p, b + q) <==> SameScrubbed(a, b) && SameScrubbed(p, q)
  {
    hide Scrub;
    if SameScrubbed(a + p, b + q) {
      assert forall i :: 0 <= i < |a| ==> a[i] == (a + p)[i] && b[i] == (b + q)[i];
      assert forall i :: 0 <= i < |p| ==> p[i] == (a + p)[|a| + i] && q[i] == (b + q)[|a| + i];
    }
  }

  /** The segments after the mints. */
  function Tail(c: Classification): seq<Text> {
    [Ascii("ACTION_COUNT:") + Digits(|c.actions|)] + (ActionTexts(c.actions) + [Ascii("OUTCOME:") + c.marker])
  }

  lemma {:induction false} TailIff(a: Classification, b: Classification)
    ensures SameScrubbed(Tail(a), Tail(b)) <==>
            NormalActions(a.actions) == NormalActions(b.actions) && Scrub(a.marker) == Scrub(b.marker)
  {
    hide Scrub, Ascii, Digits, ActionTexts, NormalActions;
    var ca, cb := Ascii("ACTION_COUNT:") + Digits(|a.actions|), Ascii("ACTION_COUNT:") + Digits(|b.actions|);
    var oa, ob := Ascii("OUTCOME:") + a.marker, Ascii("OUTCOME:") + b.marker;
    CountIff(Ascii("ACTION_COUNT:"), |a.actions|, |b.actions|);
    PrefixedIff(Ascii("OUTCOME:"), a.marker, b.marker);
    ActionsIff(a.actions, b.actions);
    SameConcat([ca], ActionTexts(a.actions) + [oa], [cb], ActionTexts(b.actions) + [ob]);
    SameSingle(ca, cb);
    SameSingle(oa, ob);
    if |a.actions| == |b.actions| {
      SameConcat(ActionTexts(a.actions), [oa], ActionTexts(b.actions), [ob]);
    }
  }

  lemma {:induction false} SameSingle(a: Text, b: Text)
    ensures SameScrubbed([a], [b]) <==> Scrub(a) == Scrub(b)
  {
    hide Scrub;
    assert [a][0] == a && [b][0] == b;
  }

  lemma {:induction false} SegmentsIff(a: Classification, b: Classification)
    ensures SameScrubbed(Segments(a), Segments(b)) <==> Normal(a) == Normal(b)
  {
    hide Header, MintTexts, Tail, SameScrubbed, NormalMints, NormalActions, Scrub, NormalOption;
    assert Segments(a) == Header(a) + (MintTexts(a.mints) + Tail(a)) by { SegmentsShape(a); }
    assert Segments(b) == Header(b) + (MintTexts(b.mints) + Tail(b)) by { SegmentsShape(b); }
    HeaderLength(a);
    HeaderLength(b);
    SameConcat(Header(a), MintTexts(a.mints) + Tail(a), Header(b), MintTexts(b.mints) + Tail(b));
    HeaderIff(a, b);
    MintsIff(a.mints, b.mints);
    TailIff(a, b);
    if |a.mints| == |b.mints| {
      SameConcat(MintTexts(a.mints), Tail(a), MintTexts(b.mints), Tail(b));
    }
  }

  lemma {:induction false} HeaderLength(c: Classification)
    ensures |Header(c)| == 8
  {
  }

  lemma {:induction false} SegmentsShape(c: Classification)
    ensures Segments(c) == Header(c) + (MintTexts(c.mints) + Tail(c))
  {
    hide Header, MintTexts, ActionTexts, Ascii, Digits;
  }

  // ------------------------------------------------------------ theorems

  /** Two classifications hash the same bytes exactly when their normal forms agree. */
  lemma {:induction false} PreimageIff(a: Classification, b: Classification)
    ensures Preimage(a) == Preimage(b) <==> Normal(a) == Normal(b)
  {
    hide Segments, Normal, Scrub, Frames;
    SegmentsIff(a, b);
    if Preimage(a) == Preimage(b) { FramesInjective(Segments(a), Segments(b)); }
    if SameScrubbed(Segments(a), Segments(b)) { FramesScrub(Segments(a), Segments(b)); }
  }

  predicate Plain(t: Option<Text>) {
    t.None? || (WellFormed(t.value) && t.value != NONE)
  }

  /** Every text is well-formed Unicode, and neither hint is spelled "NONE". */
  predicate Ordinary(c: Classification) {
    && WellFormed(c.signature) && WellFormed(c.disposition) && WellFormed(c.reason) && WellFormed(c.marker)
    && Plain(c.hint) && Plain(c.hintMint)
    && (forall i :: 0 <= i < |c.mints| ==> WellFormed(c.mints[i]))
    && forall i :: 0 <= i < |c.actions| ==> WellFormed(c.actions[i].mint)
  }

  lemma {:induction false} OrdinaryIsNormal(c: Classification)
    requires Ordinary(c)
    ensures Normal(c) == c
  {
    hide Scrub, WellFormed;
    ScrubFixed(c.signature);
    ScrubFixed(c.disposition);
    ScrubFixed(c.reason);
    ScrubFixed(c.marker);
    if c.hint.Some? { ScrubFixed(c.hint.value); }
    if c.hintMint.Some? { ScrubFixed(c.hintMint.value); }
    forall i | 0 <= i < |c.mints| ensures NormalMints(c.mints)[i] == c.mints[i] { ScrubFixed(c.mints[i]); }
    forall i | 0 <= i < |c.actions| ensures NormalActions(c.actions)[i] == c.actions[i] { ScrubFixed(c.actions[i].mint); }
  }

  /** On ordinary classifications the preimage is injective. */
  lemma {:induction false} PreimageInjective(a: Classification, b: Classification)
    requires Ordinary(a) && Ordinary(b) && Preimage(a) == Preimage(b)
    ensures a == b
  {
    hide Preimage, Normal, Ordinary;
    PreimageIff(a, b);
    OrdinaryIsNormal(a);
    OrdinaryIsNormal(b);
  }

  /** Outside them it is not: a lone surrogate hashes like U+FFFD. */
  lemma {:induction false} LoneSurrogateCollides(c: Classification)
    ensures Preimage(c.(signature := [0xD800])) == Preimage(c.(signature := [0xFFFD]))
  {
    hide Preimage;
    var a, b := c.(signature := [0xD800]), c.(signature := [0xFFFD]);
    assert Scrub([0xD800]) == [0xFFFD] == Scrub([0xFFFD]);
    PreimageIff(a, b);
  }

  /**
   And a hint mint spelled "NONE" hashes like no hint mint.  The letter O is not in
   the base58 alphabet, so no mint decoded from a transaction is spelled that way.
   */
  lemma {:induction false} NoneCollides(c: Classification)
    ensures Preimage(c.(hintMint := Some(NONE))) == Preimage(c.(hintMint := None))
  {
    hide Preimage, Scrub;
    AsciiScrub(NONE);
    PreimageIff(c.(hintMint := Some(NONE)), c.(hintMint := None));
  }
}
