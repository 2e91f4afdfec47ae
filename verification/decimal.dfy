/** Decimal rendering of non-negative integers and the string slicing the
    document numbers are built from: `String(n)`, `padStart(w, '0')`,
    `slice(0, k)`, `slice(-k)` and `indexOf`. Each rendering has a parser
    partner, `DecimalValue`, so that formats can be shown to round-trip. */
module Decimal {
  import opened Wrappers

  predicate IsDigit(c: char) {
    '0' <= c <= '9'
  }

  predicate AllDigits(s: string) {
    forall i :: 0 <= i < |s| ==> IsDigit(s[i])
  }

  function DigitChar(d: nat): (c: char)
    requires d < 10
    ensures IsDigit(c)
    ensures c as int - '0' as int == d
  {
    ('0' as int + d) as char
  }

  function DigitValue(c: char): (d: nat)
    requires IsDigit(c)
    ensures d < 10
    ensures DigitChar(d) == c
  {
    c as int - '0' as int
  }

  function Pow10(k: nat): (r: nat)
    ensures 1 <= r
  {
    if k == 0 then 1 else 10 * Pow10(k - 1)
  }

  /** `String(n)` for a non-negative integer: its decimal digits with no
      leading zero (zero itself is "0"). */
  function NatToDecimal(n: nat): (s: string)
    ensures 1 <= |s|
    ensures AllDigits(s)
    ensures s[0] == '0' ==> n == 0 && s == "0"
    decreases n
  {
    if n < 10 then [DigitChar(n)] else NatToDecimal(n / 10) + [DigitChar(n % 10)]
  }

  /** The number a string of decimal digits denotes (leading zeros allowed). */
  function DecimalValue(s: string): nat
    requires AllDigits(s)
  {
    if s == [] then 0 else DecimalValue(s[..|s| - 1]) * 10 + DigitValue(s[|s| - 1])
  }

  /** Reading back the rendering of `n` gives `n`. */
  lemma {:induction false} DecimalRoundTrip(n: nat)
    ensures DecimalValue(NatToDecimal(n)) == n
  {
    if n >= 10 {
      var s := NatToDecimal(n);
      assert s[..|s| - 1] == NatToDecimal(n / 10);
      DecimalRoundTrip(n / 10);
    }
  }

  /** A number below 10^k needs at most k digits. */
  lemma {:induction false} DecimalLength(n: nat, k: nat)
    requires 1 <= k
    requires n < Pow10(k)
    ensures |NatToDecimal(n)| <= k
  {
    assert Pow10(1) == 10;
    if n >= 10 {
      assert 2 <= k;
      assert n / 10 < Pow10(k - 1);
      DecimalLength(n / 10, k - 1);
    }
  }

  /** A string of k digits denotes a number below 10^k. */
  lemma {:induction false} DecimalValueBound(s: string)
    requires AllDigits(s)
    ensures DecimalValue(s) < Pow10(|s|)
  {
    if s != [] {
      var t := s[..|s| - 1];
      DecimalValueBound(t);
      assert DecimalValue(t) + 1 <= Pow10(|t|);
      assert (DecimalValue(t) + 1) * 10 <= Pow10(|t|) * 10;
    }
  }

  /** The value of a concatenation: the left part is shifted by the length of the right. */
  lemma {:induction false} DecimalValueConcat(a: string, b: string)
    requires AllDigits(a)
    requires AllDigits(b)
    ensures AllDigits(a + b)
    ensures DecimalValue(a + b) == DecimalValue(a) * Pow10(|b|) + DecimalValue(b)
  {
    assert AllDigits(a + b) by {
      forall i | 0 <= i < |a + b|
        ensures IsDigit((a + b)[i])
      {
        if i < |a| { assert (a + b)[i] == a[i]; } else { assert (a + b)[i] == b[i - |a|]; }
      }
    }
    if b == [] {
      assert a + b == a;
    } else {
      var b' := b[..|b| - 1];
      assert (a + b)[..|a + b| - 1] == a + b';
      assert (a + b)[|a + b| - 1] == b[|b| - 1];
      DecimalValueConcat(a, b');
      ShiftDigit(DecimalValue(a), Pow10(|b'|), DecimalValue(b'), DigitValue(b[|b| - 1]));
    }
  }

  lemma ShiftDigit(x: nat, p: nat, y: nat, d: nat)
    ensures (x * p + y) * 10 + d == x * (10 * p) + (y * 10 + d)
  {
  }

  /** `s.padStart(width, fill)`: `s` preceded by enough `fill` characters to
      reach `width`; a string already that long is returned as it is. */
  function PadStart(s: string, width: nat, fill: char): (r: string)
    ensures |r| == if |s| < width then width else |s|
    ensures r[|r| - |s|..] == s
    ensures forall i :: 0 <= i < |r| - |s| ==> r[i] == fill
  {
    if |s| < width then seq(width - |s|, _ => fill) + s else s
  }

  /** Leading zeros do not change the value of a digit string. */
  lemma {:induction false} LeadingZeros(z: string, s: string)
    requires forall i :: 0 <= i < |z| ==> z[i] == '0'
    requires AllDigits(s)
    ensures AllDigits(z + s)
    ensures DecimalValue(z + s) == DecimalValue(s)
  {
    assert AllDigits(z);
    DecimalValueConcat(z, s);
    ZerosValue(z);
  }

  lemma {:induction false} ZerosValue(z: string)
    requires forall i :: 0 <= i < |z| ==> z[i] == '0'
    ensures AllDigits(z)
    ensures DecimalValue(z) == 0
  {
    if z != [] {
      ZerosValue(z[..|z| - 1]);
    }
  }

  /** `String(n).padStart(width, '0')`: it still denotes `n`, and it is exactly
      `width` characters long whenever `n` fits in that many digits. */
  function ZeroPadded(n: nat, width: nat): (s: string)
    ensures AllDigits(s)
    ensures DecimalValue(s) == n
    ensures 1 <= width && n < Pow10(width) ==> |s| == width
    ensures width <= |s|
  {
    PaddedDecimal(n, width);
    PadStart(NatToDecimal(n), width, '0')
  }

  lemma PaddedDecimal(n: nat, width: nat)
    ensures AllDigits(PadStart(NatToDecimal(n), width, '0'))
    ensures DecimalValue(PadStart(NatToDecimal(n), width, '0')) == n
    ensures 1 <= width && n < Pow10(width) ==> |PadStart(NatToDecimal(n), width, '0')| == width
  {
    var d := NatToDecimal(n);
    var r := PadStart(d, width, '0');
    DecimalRoundTrip(n);
    assert r == r[..|r| - |d|] + d;
    LeadingZeros(r[..|r| - |d|], d);
    if 1 <= width && n < Pow10(width) {
      DecimalLength(n, width);
    }
  }

  /** `s.slice(0, k)`: the first k characters, or all of a shorter string. */
  function Prefix(s: string, k: nat): (r: string)
    ensures |r| == if |s| < k then |s| else k
    ensures r <= s
  {
    if |s| <= k then s else s[..k]
  }

  /** `s.slice(-k)` for k > 0: the last k characters, or all of a shorter string. */
  function Suffix(s: string, k: nat): (r: string)
    ensures |r| == if |s| < k then |s| else k
    ensures r == s[|s| - |r|..]
  {
    if |s| <= k then s else s[|s| - k..]
  }

  /** The last k digits of `String(n)` denote `n` modulo 10^k. */
  lemma SuffixValue(n: nat, k: nat)
    ensures AllDigits(Suffix(NatToDecimal(n), k))
    ensures DecimalValue(Suffix(NatToDecimal(n), k)) == n % Pow10(k)
  {
    var s := NatToDecimal(n);
    DecimalRoundTrip(n);
    if |s| <= k {
      DecimalValueBound(s);
      Pow10Monotone(|s|, k);
      ModOfSum(0, Pow10(k), n);
    } else {
      var h, r := s[..|s| - k], s[|s| - k..];
      assert s == h + r;
      DecimalValueConcat(h, r);
      DecimalValueBound(r);
      ModOfSum(DecimalValue(h), Pow10(k), DecimalValue(r));
    }
  }

  lemma ModOfSum(q: nat, p: nat, r: nat)
    requires 0 < p
    requires r < p
    ensures (q * p + r) % p == r
  {
    var x := q * p + r;
    var d, m := x / p, x % p;
    assert x == d * p + m;
    assert (d - q) * p == r - m;
    MultipleInWindow(d - q, p, r - m);
  }

  /** The only multiple of p strictly between -p and p is 0. */
  lemma MultipleInWindow(k: int, p: int, v: int)
    requires 0 < p
    requires k * p == v
    requires -p < v < p
    ensures k == 0
  {
    if k > 0 {
      PositiveMultiple(k, p);
    } else if k < 0 {
      PositiveMultiple(-k, p);
    }
  }

  lemma {:induction false} PositiveMultiple(k: int, p: int)
    requires 0 < k
    requires 0 < p
    ensures p <= k * p
  {
    if k > 1 {
      PositiveMultiple(k - 1, p);
      assert k * p == (k - 1) * p + p;
    }
  }

  lemma {:induction false} Pow10Monotone(i: nat, j: nat)
    requires i <= j
    ensures Pow10(i) <= Pow10(j)
  {
    if i < j {
      Pow10Monotone(i, j - 1);
    }
  }

  /** `s.indexOf(c)` with "not found" as `None`: the first position holding `c`. */
  function IndexOf(s: string, c: char): (r: Option<nat>)
    ensures r.Some? ==> r.value < |s| && s[r.value] == c
    ensures r.Some? ==> forall j :: 0 <= j < r.value ==> s[j] != c
    ensures r.None? ==> forall j :: 0 <= j < |s| ==> s[j] != c
  {
    if s == [] then None
    else if s[0] == c then Some(0)
    else match IndexOf(s[1..], c)
      case None => None
      case Some(i) => Some(i + 1)
  }

  /** In a digit string followed by `c`, a non-digit, the first `c` is right after the digits. */
  lemma IndexAfterDigits(d: string, c: char, rest: string)
    requires AllDigits(d)
    requires !IsDigit(c)
    ensures IndexOf(d + [c] + rest, c) == Some(|d|)
  {
    var s := d + [c] + rest;
    assert s[|d|] == c;
    assert forall j :: 0 <= j < |d| ==> s[j] == d[j];
  }
}
