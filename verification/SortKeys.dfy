/** Text keys that sort tuples: components joined by NUL, integers padded to sixteen digits. */
module SortKeys {
  import opened Prelude
  import opened Sorting

  const NUL: char := '\U{0000}'

  /** Sixteen digits hold every safe integer. */
  const WIDTH: nat := 16

  function Join(parts: seq<string>): string {
    if parts == [] then "" else if |parts| == 1 then parts[0] else parts[0] + [NUL] + Join(parts[1..])
  }

  predicate NoNul(parts: seq<string>) {
    forall i :: 0 <= i < |parts| ==> NUL !in parts[i]
  }

  /** A joined key determines its components. */
  lemma {:induction false} JoinInjective(a: seq<string>, b: seq<string>)
    requires a != [] && b != [] && NoNul(a) && NoNul(b) && Join(a) == Join(b)
    ensures a == b
    decreases |a|
  {
    NulMeansMore(a);
    NulMeansMore(b);
    if |a| > 1 {
      SplitAt(NUL, a[0], Join(a[1..]), b[0], Join(b[1..]));
      JoinInjective(a[1..], b[1..]);
      assert a == [a[0]] + a[1..] && b == [b[0]] + b[1..];
    }
  }

  lemma {:induction false} NulMeansMore(parts: seq<string>)
    requires parts != [] && NoNul(parts)
    ensures NUL in Join(parts) <==> |parts| > 1
  {
    if |parts| > 1 { assert Join(parts)[|parts[0]|] == NUL; }
  }

  // ------------------------------------------------------------- integers

  function Digit(d: nat): char
    requires d < 10
  {
    '0' + d as char
  }

  function DecimalText(n: nat): string {
    if n < 10 then [Digit(n)] else DecimalText(n / 10) + [Digit(n % 10)]
  }

  function PadStart(s: string, width: nat): string
    decreases width - |s|
  {
    if |s| >= width then s else PadStart(['0'] + s, width)
  }

  function SortableInteger(n: nat): string {
    PadStart(DecimalText(n), WIDTH)
  }

  /** Exactly `k` digits, the most significant first. */
  function Fixed(n: nat, k: nat): (s: string)
    ensures |s| == k
  {
    if k == 0 then "" else Fixed(n / 10, k - 1) + [Digit(n % 10)]
  }

  function Power(k: nat): nat {
    if k == 0 then 1 else 10 * Power(k - 1)
  }

  lemma {:induction false} FixedZero(k: nat)
    ensures Fixed(0, k + 1) == ['0'] + Fixed(0, k)
    decreases k
  {
    if k > 0 { FixedZero(k - 1); }
  }

  lemma {:induction false} FixedPads(n: nat, k: nat)
    requires n < Power(k)
    ensures Fixed(n, k + 1) == ['0'] + Fixed(n, k)
    decreases k
  {
    if k == 0 {
      FixedZero(0);
    } else {
      FixedPads(n / 10, k - 1);
    }
  }

  lemma {:induction false} DecimalIsFixed(n: nat) returns (k: nat)
    ensures k > 0 && n < Power(k) && DecimalText(n) == Fixed(n, k)
    ensures k == 1 || Power(k - 1) <= n
    decreases n
  {
    if n < 10 {
      k := 1;
      assert Fixed(n / 10, 0) == "";
      assert Power(1) == 10 * Power(0);
    } else {
      var j := DecimalIsFixed(n / 10);
      k := j + 1;
    }
  }

  lemma {:induction false} PadIsFixed(n: nat, k: nat, width: nat)
    requires n < Power(k) && k <= width
    ensures PadStart(Fixed(n, k), width) == Fixed(n, width)
    decreases width - k
  {
    if k < width {
      FixedPads(n, k);
      assert Power(k) <= Power(k + 1);
      PadIsFixed(n, k + 1, width);
    }
  }

  lemma {:induction false} PowerMonotone(a: nat, b: nat)
    requires a <= b
    ensures Power(a) <= Power(b)
    decreases b - a
  {
    if a < b { PowerMonotone(a + 1, b); }
  }

  lemma {:induction false} SafeFits()
    ensures MAX_SAFE < Power(WIDTH)
  {
    assert Power(4) == 10000;
    assert Power(8) == 10000 * Power(4);
    assert Power(12) == 10000 * Power(8);
    assert Power(16) == 10000 * Power(12);
  }

  /** Every safe integer is written with exactly sixteen digits. */
  lemma {:induction false} SortableIsFixed(n: nat)
    requires n <= MAX_SAFE
    ensures SortableInteger(n) == Fixed(n, WIDTH) && n < Power(WIDTH)
  {
    hide Power, Fixed, DecimalText, PadStart;
    SafeFits();
    var k := DecimalIsFixed(n);
    if k > WIDTH {
      PowerMonotone(WIDTH, k - 1);
      assert false;
    }
    PadIsFixed(n, k, WIDTH);
  }

  /** The last character decides between strings equal before it. */
  lemma {:induction false} LexLast(x: string, c: char, y: string, d: char)
    requires |x| == |y|
    ensures LexLeq(x + [c], y + [d]) <==> (x != y && LexLeq(x, y)) || (x == y && c <= d)
    decreases |x|
  {
    if x == [] {
      assert x + [c] == [c] && y + [d] == [d];
    } else {
      assert (x + [c])[1..] == x[1..] + [c] && (y + [d])[1..] == y[1..] + [d];
      assert x == [x[0]] + x[1..] && y == [y[0]] + y[1..];
      LexLast(x[1..], c, y[1..], d);
    }
  }

  lemma {:induction false} FixedOrder(a: nat, b: nat, k: nat)
    requires a < Power(k) && b < Power(k)
    ensures LexLeq(Fixed(a, k), Fixed(b, k)) <==> a <= b
    ensures Fixed(a, k) == Fixed(b, k) <==> a == b
    decreases k
  {
    if k > 0 {
      FixedOrder(a / 10, b / 10, k - 1);
      LexLast(Fixed(a / 10, k - 1), Digit(a % 10), Fixed(b / 10, k - 1), Digit(b % 10));
      assert a == 10 * (a / 10) + a % 10 && b == 10 * (b / 10) + b % 10;
      var x, y := Fixed(a, k), Fixed(b, k);
      assert x[..k - 1] == Fixed(a / 10, k - 1) && y[..k - 1] == Fixed(b / 10, k - 1);
      assert x[k - 1] == Digit(a % 10) && y[k - 1] == Digit(b % 10);
    }
  }

  /** Padded keys order safe integers numerically and tell them apart. */
  lemma {:induction false} SortableOrder(a: nat, b: nat)
    requires a <= MAX_SAFE && b <= MAX_SAFE
    ensures LexLeq(SortableInteger(a), SortableInteger(b)) <==> a <= b
    ensures SortableInteger(a) == SortableInteger(b) <==> a == b
  {
    hide SortableInteger, Fixed, Power;
    SortableIsFixed(a);
    SortableIsFixed(b);
    FixedOrder(a, b, WIDTH);
  }

  lemma {:induction false} FixedDigits(n: nat, k: nat)
    ensures forall i :: 0 <= i < k ==> '0' <= Fixed(n, k)[i] <= '9'
    decreases k
  {
    if k > 0 { FixedDigits(n / 10, k - 1); }
  }

  lemma {:induction false} SortableToken(n: nat)
    requires n <= MAX_SAFE
    ensures NUL !in SortableInteger(n) && SortableInteger(n) != ""
  {
    hide SortableInteger, Power;
    SortableIsFixed(n);
    FixedDigits(n, WIDTH);
  }
}
