/** UTF-8 as a code: texts with the same bytes are the same up to lone surrogates. */
module UtfCodes {
  import opened Utf

  /** Every surrogate stands in a pair: the text is a sequence of Unicode scalar values. */
  predicate WellFormed(t: Text) {
    t == [] ||
    (if PairAhead(t) then WellFormed(t[2..]) else !IsSurrogate(t[0]) && WellFormed(t[1..]))
  }

  /** Lone surrogates replaced by U+FFFD, as encoding does. */
  function Scrub(t: Text): Text {
    if t == [] then []
    else if PairAhead(t) then [t[0], t[1]] + Scrub(t[2..])
    else [if IsSurrogate(t[0]) then 0xFFFD else t[0]] + Scrub(t[1..])
  }

  lemma {:induction false} ScrubWellFormed(t: Text)
    ensures WellFormed(Scrub(t))
    decreases |t|
  {
    if t != [] {
      if PairAhead(t) {
        ScrubWellFormed(t[2..]);
        assert Scrub(t)[2..] == Scrub(t[2..]);
      } else {
        ScrubWellFormed(t[1..]);
        assert Scrub(t)[1..] == Scrub(t[1..]);
      }
    }
  }

  lemma {:induction false} ScrubKeepsBytes(t: Text)
    ensures Utf8(Scrub(t)) == Utf8(t)
    decreases |t|
  {
    hide Encode;
    if t != [] {
      if PairAhead(t) {
        ScrubKeepsBytes(t[2..]);
        assert Scrub(t)[2..] == Scrub(t[2..]);
      } else {
        ScrubKeepsBytes(t[1..]);
        assert Scrub(t)[1..] == Scrub(t[1..]);
        Replacement();
      }
    }
  }

  lemma {:induction false} Replacement()
    ensures Encode(0xFFFD) == [0xEF, 0xBF, 0xBD]
  {
  }

  lemma {:induction false} ScrubFixed(t: Text)
    requires WellFormed(t)
    ensures Scrub(t) == t
    decreases |t|
  {
    if t != [] {
      if PairAhead(t) { ScrubFixed(t[2..]); } else { ScrubFixed(t[1..]); }
    }
  }

  /** The first scalar value of a well-formed text, and how many units it takes. */
  function Leading(t: Text): nat
    requires t != []
  {
    if PairAhead(t) then Scalar(t[0], t[1]) else t[0]
  }

  function Width(t: Text): nat
    requires t != []
  {
    if PairAhead(t) then 2 else 1
  }

  /** No code of a scalar value is a prefix of another's. */
  lemma {:induction false} EncodePrefixFree(c: nat, d: nat, x: seq<Byte>, y: seq<Byte>)
    requires c < 0x110000 && d < 0x110000 && Encode(c) + x == Encode(d) + y
    ensures c == d && x == y
  {
    var s := Encode(c) + x;
    var e, f := Encode(c), Encode(d);
    assert forall i :: 0 <= i < |e| ==> s[i] == e[i];
    assert forall i :: 0 <= i < |f| ==> s[i] == f[i];
    FirstByte(c);
    FirstByte(d);
    assert e[0] == f[0] && |e| == |f|;
    assert e == f by { assert e == s[..|e|] && f == s[..|f|]; }
    EncodeInjective(c, d);
    assert x == s[|e|..] && y == s[|f|..];
  }

  /** The first byte of a code tells its length. */
  lemma {:induction false} FirstByte(c: nat)
    requires c < 0x110000
    ensures var e := Encode(c);
            && |e| > 0 && |e| == (if e[0] < 0x80 then 1 else if e[0] < 0xE0 then 2 else if e[0] < 0xF0 then 3 else 4)
  {
  }

  lemma {:induction false} EncodeInjective(c: nat, d: nat)
    requires c < 0x110000 && d < 0x110000 && Encode(c) == Encode(d)
    ensures c == d
  {
    Rebuild(c);
    Rebuild(d);
  }

  /** The payload of a code's bytes, base 64. */
  function Payload(e: seq<Byte>): int
    requires 1 <= |e| <= 4
  {
    if |e| == 1 then e[0]
    else if |e| == 2 then (e[0] as int - 0xC0) * 0x40 + (e[1] as int - 0x80)
    else if |e| == 3 then (e[0] as int - 0xE0) * 0x1000 + (e[1] as int - 0x80) * 0x40 + (e[2] as int - 0x80)
    else (e[0] as int - 0xF0) * 0x40000 + (e[1] as int - 0x80) * 0x1000 + (e[2] as int - 0x80) * 0x40 + (e[3] as int - 0x80)
  }

  lemma {:induction false} Rebuild(c: nat)
    requires c < 0x110000
    ensures 1 <= |Encode(c)| <= 4 && Payload(Encode(c)) == c
  {
    assert c / 0x1000 == c / 0x40 / 0x40;
    assert c / 0x40000 == c / 0x1000 / 0x40;
  }

  lemma {:induction false} ScalarInjective(a: Unit, b: Unit, c: Unit, d: Unit)
    requires IsHigh(a) && IsLow(b) && IsHigh(c) && IsLow(d) && Scalar(a, b) == Scalar(c, d)
    ensures a == c && b == d
  {
  }

  lemma {:induction false} Unfold(t: Text)
    requires t != [] && WellFormed(t)
    ensures Leading(t) < 0x110000 && Width(t) <= |t|
    ensures Utf8(t) == Encode(Leading(t)) + Utf8(t[Width(t)..]) && WellFormed(t[Width(t)..])
  {
    hide Encode;
  }

  /** On well-formed texts the bytes determine the text. */
  lemma {:induction false} Utf8Injective(t: Text, u: Text)
    requires WellFormed(t) && WellFormed(u) && Utf8(t) == Utf8(u)
    ensures t == u
    decreases |t|
  {
    hide Encode, Utf8, WellFormed;
    if t == [] || u == [] {
      NonEmpty(t);
      NonEmpty(u);
    } else {
      Unfold(t);
      Unfold(u);
      EncodePrefixFree(Leading(t), Leading(u), Utf8(t[Width(t)..]), Utf8(u[Width(u)..]));
      Utf8Injective(t[Width(t)..], u[Width(u)..]);
      HeadsEqual(t, u);
      assert t == t[..Width(t)] + t[Width(t)..] && u == u[..Width(u)] + u[Width(u)..];
    }
  }

  lemma {:induction false} NonEmpty(t: Text)
    ensures Utf8(t) == [] <==> t == []
  {
  }

  lemma {:induction false} HeadsEqual(t: Text, u: Text)
    requires t != [] && u != [] && Leading(t) == Leading(u)
    ensures Width(t) == Width(u) <= |t| && Width(u) <= |u| && t[..Width(t)] == u[..Width(u)]
  {
    if PairAhead(t) && PairAhead(u) { ScalarInjective(t[0], t[1], u[0], u[1]); }
  }

  /** Texts have the same bytes exactly when they agree once lone surrogates are replaced. */
  lemma {:induction false} SameBytesIff(t: Text, u: Text)
    ensures Utf8(t) == Utf8(u) <==> Scrub(t) == Scrub(u)
  {
    hide Utf8, Scrub, WellFormed;
    ScrubKeepsBytes(t);
    ScrubKeepsBytes(u);
    ScrubWellFormed(t);
    ScrubWellFormed(u);
    if Utf8(t) == Utf8(u) { Utf8Injective(Scrub(t), Scrub(u)); }
  }

  /** Scrubbing passes over an ASCII prefix. */
  lemma {:induction false} ScrubAfterAscii(a: Text, t: Text)
    requires IsAscii(a)
    ensures Scrub(a + t) == a + Scrub(t)
    decreases |a|
  {
    if a == [] {
      assert a + t == t;
    } else {
      assert (a + t)[1..] == a[1..] + t && (a + t)[0] == a[0];
      ScrubAfterAscii(a[1..], t);
      assert a == [a[0]] + a[1..];
    }
  }

  /** Decimal digits determine the number. */
  lemma {:induction false} DigitsInjective(m: nat, n: nat)
    requires Digits(m) == Digits(n)
    ensures m == n
  {
    if m >= 10 && n >= 10 {
      var a, b := Digits(m), Digits(n);
      assert a[..|a| - 1] == Digits(m / 10) && b[..|b| - 1] == Digits(n / 10);
      DigitsInjective(m / 10, n / 10);
      assert a[|a| - 1] == 0x30 + m % 10 && b[|b| - 1] == 0x30 + n % 10;
    }
  }

  lemma {:induction false} DigitsHaveNoColon(n: nat)
    ensures forall i :: 0 <= i < |Digits(n)| ==> 0x30 <= Digits(n)[i] <= 0x39
  {
    if n >= 10 { DigitsHaveNoColon(n / 10); }
  }
}
