/**
 UTF-16 text, as JavaScript strings hold it, and its UTF-8 encoding by section 3
 of RFC 3629.  A surrogate without a partner is encoded as U+FFFD.
 */
module Utf {
  type Unit = u: nat | u < 0x10000 witness 0
  type Byte = b: nat | b < 256 witness 0
  type Text = seq<Unit>

  predicate IsHigh(u: Unit) {
    0xD800 <= u <= 0xDBFF
  }

  predicate IsLow(u: Unit) {
    0xDC00 <= u <= 0xDFFF
  }

  predicate IsSurrogate(u: Unit) {
    0xD800 <= u <= 0xDFFF
  }

  /** The text begins with a surrogate pair. */
  predicate PairAhead(t: Text) {
    |t| >= 2 && IsHigh(t[0]) && IsLow(t[1])
  }

  function Scalar(high: Unit, low: Unit): nat
    requires IsHigh(high) && IsLow(low)
  {
    0x10000 + (high - 0xD800) * 0x400 + (low - 0xDC00)
  }

  function Encode(c: nat): seq<Byte>
    requires c < 0x110000
  {
    if c < 0x80 then [c]
    else if c < 0x800 then [0xC0 + c / 0x40, 0x80 + c % 0x40]
    else if c < 0x10000 then [0xE0 + c / 0x1000, 0x80 + c / 0x40 % 0x40, 0x80 + c % 0x40]
    else [0xF0 + c / 0x40000, 0x80 + c / 0x1000 % 0x40, 0x80 + c / 0x40 % 0x40, 0x80 + c % 0x40]
  }

  function EncodeUnit(u: Unit): seq<Byte> {
    if IsSurrogate(u) then [0xEF, 0xBF, 0xBD] else Encode(u)
  }

  function Utf8(t: Text): seq<Byte> {
    if t == [] then []
    else if PairAhead(t) then Encode(Scalar(t[0], t[1])) + Utf8(t[2..])
    else EncodeUnit(t[0]) + Utf8(t[1..])
  }

  /** No surrogate pair is split between the two texts. */
  predicate Separable(a: Text, b: Text) {
    a == [] || b == [] || !IsHigh(a[|a| - 1]) || !IsLow(b[0])
  }

  lemma {:induction false} Utf8Concat(a: Text, b: Text)
    requires Separable(a, b)
    ensures Utf8(a + b) == Utf8(a) + Utf8(b)
    decreases |a|
  {
    if a == [] {
      assert a + b == b;
    } else if PairAhead(a) {
      assert (a + b)[2..] == a[2..] + b;
      Utf8Concat(a[2..], b);
    } else {
      assert (a + b)[1..] == a[1..] + b;
      assert !PairAhead(a + b);
      Utf8Concat(a[1..], b);
    }
  }

  predicate IsAscii(t: Text) {
    forall i :: 0 <= i < |t| ==> t[i] < 0x80
  }

  /** ASCII text is its own encoding. */
  lemma {:induction false} Utf8Ascii(t: Text)
    requires IsAscii(t)
    ensures |Utf8(t)| == |t|
    decreases |t|
  {
    if t != [] {
      Utf8Ascii(t[1..]);
    }
  }

  function Ascii(s: string): (t: Text)
    requires forall i :: 0 <= i < |s| ==> s[i] < 128 as char
    ensures IsAscii(t) && |t| == |s|
  {
    if s == [] then [] else [s[0] as nat] + Ascii(s[1..])
  }

  /** Decimal digits, as numbers are written. */
  function Digits(n: nat): (t: Text)
    ensures IsAscii(t) && |t| > 0
  {
    if n < 10 then [0x30 + n] else Digits(n / 10) + [0x30 + n % 10]
  }

  function Decimal(n: int): (t: Text)
    ensures IsAscii(t) && |t| > 0
  {
    if n < 0 then [0x2D] + Digits(-n) else Digits(n)
  }
}
