/** Decimal text: what fmt's %d prints, what strconv.ParseInt reads back, and how
    equal-width numerals compare as strings. */
module Decimal {
  import opened Boundary

  predicate IsDigit(c: char) {
    '0' <= c <= '9'
  }

  function DigitOf(d: nat): (c: char)
    requires d < 10
    ensures IsDigit(c) && ValueOf(c) == d
  {
    '0' + d as char
  }

  function ValueOf(c: char): (d: nat)
    requires IsDigit(c)
    ensures d < 10
  {
    c as int - '0' as int
  }

  predicate AllDigits(s: string) {
    forall i | 0 <= i < |s| :: IsDigit(s[i])
  }

  /** The numeral of a natural number, without leading zeros. */
  function Digits(n: nat): (s: string)
    ensures |s| > 0 && AllDigits(s)
  {
    if n < 10 then [DigitOf(n)] else Digits(n / 10) + [DigitOf(n % 10)]
  }

  function Value(s: string): nat
    requires AllDigits(s)
  {
    if s == [] then 0 else 10 * Value(s[..|s| - 1]) + ValueOf(s[|s| - 1])
  }

  function Zeros(k: nat): (s: string)
    ensures |s| == k && AllDigits(s)
  {
    seq(k, _ => '0')
  }

  /** Left-padding with zeros to a minimum width. */
  function Pad(s: string, width: nat): (p: string)
    requires AllDigits(s)
    ensures AllDigits(p) && |p| >= width && |p| >= |s|
    ensures |s| <= width ==> |p| == width
  {
    if |s| >= width then s else Zeros(width - |s|) + s
  }

  function Format(n: int): string {
    if n < 0 then "-" + Digits(-n) else Digits(n)
  }

  const MIN_INT64: int := -0x8000_0000_0000_0000
  const MAX_INT64: int := 0x7fff_ffff_ffff_ffff

  /** strconv.ParseInt(s, 10, 64): an optional sign, digits, and the int64 range. */
  function ParseInt(s: string): Option<int> {
    var neg := |s| > 0 && s[0] == '-';
    var body := if |s| > 0 && (s[0] == '-' || s[0] == '+') then s[1..] else s;
    if |body| == 0 || !AllDigits(body) then None
    else
      var n: int := Value(body);
      var v := if neg then -n else n;
      if MIN_INT64 <= v <= MAX_INT64 then Some(v) else None
  }

  // ---- reading back -------------------------------------------------------

  lemma {:induction false} ValueDigits(n: nat)
    ensures Value(Digits(n)) == n
  {
    if n >= 10 {
      ValueDigits(n / 10);
      assert Digits(n)[..|Digits(n)| - 1] == Digits(n / 10);
    } else {
      assert Digits(n)[..0] == [];
    }
  }

  lemma {:induction false} ValueZeros(k: nat, s: string)
    requires AllDigits(s)
    ensures AllDigits(Zeros(k) + s) && Value(Zeros(k) + s) == Value(s)
    decreases |s|, k
  {
    if s != [] {
      ValueZeros(k, s[..|s| - 1]);
      assert (Zeros(k) + s)[..|Zeros(k) + s| - 1] == Zeros(k) + s[..|s| - 1];
    } else if k > 0 {
      ValueZeros(k - 1, s);
      assert Zeros(k) + s == Zeros(k);
      assert Zeros(k - 1) + s == Zeros(k - 1);
      assert Zeros(k)[..k - 1] == Zeros(k - 1);
    }
  }

  lemma ValuePad(n: nat, width: nat)
    ensures Value(Pad(Digits(n), width)) == n
  {
    ValueDigits(n);
    if |Digits(n)| < width {
      ValueZeros(width - |Digits(n)|, Digits(n));
    }
  }

  /** ParseInt inverts %d on every int64, padded or not. */
  lemma ParseFormat(n: int)
    requires MIN_INT64 <= n <= MAX_INT64
    ensures ParseInt(Format(n)) == Some(n)
  {
    if n < 0 {
      ValueDigits(-n);
      assert Format(n)[1..] == Digits(-n);
    } else {
      ValueDigits(n);
      assert IsDigit(Digits(n)[0]);
    }
  }

  lemma ParsePad(n: nat, width: nat)
    requires n <= MAX_INT64
    ensures ParseInt(Pad(Digits(n), width)) == Some(n)
  {
    ValuePad(n, width);
    assert IsDigit(Pad(Digits(n), width)[0]);
  }

  // ---- order --------------------------------------------------------------

  /** Go's string order: bytewise, a proper prefix first. */
  predicate Lt(a: string, b: string) {
    b != [] && (a == [] || a[0] < b[0] || (a[0] == b[0] && Lt(a[1..], b[1..])))
  }

  function Pow10(k: nat): (p: nat)
    ensures p > 0
  {
    if k == 0 then 1 else 10 * Pow10(k - 1)
  }

  lemma {:induction false} ValueBound(s: string)
    requires AllDigits(s)
    ensures Value(s) < Pow10(|s|)
  {
    if s == [] {
    } else {
      ValueBound(s[..|s| - 1]);
    }
  }

  /** The same value read from the front. */
  lemma ShiftIn(v: nat, p: nat, rest: nat, d: nat)
    ensures (v * p + rest) * 10 + d == v * (10 * p) + (rest * 10 + d)
  {
  }

  lemma {:induction false} ValueFront(s: string)
    requires AllDigits(s) && s != []
    ensures Value(s) == ValueOf(s[0]) * Pow10(|s| - 1) + Value(s[1..])
  {
    if |s| == 1 {
      assert s[..0] == [] && s[1..] == [];
    } else {
      var init := s[..|s| - 1];
      ValueFront(init);
      assert init[1..] == s[1..][..|s[1..]| - 1];
      ShiftIn(ValueOf(s[0]), Pow10(|init| - 1), Value(init[1..]), ValueOf(s[|s| - 1]));
    }
  }

  /** Equal-width numerals compare as strings exactly as they do as numbers. */
  lemma {:induction false} LtIsNumeric(a: string, b: string)
    requires AllDigits(a) && AllDigits(b) && |a| == |b|
    ensures Lt(a, b) <==> Value(a) < Value(b)
    ensures a == b <==> Value(a) == Value(b)
  {
    if a == [] {
    } else {
      ValueFront(a);
      ValueFront(b);
      ValueBound(a[1..]);
      ValueBound(b[1..]);
      LtIsNumeric(a[1..], b[1..]);
      var p := Pow10(|a| - 1);
      if a[0] == b[0] {
        assert a == [a[0]] + a[1..] && b == [b[0]] + b[1..];
      } else if a[0] < b[0] {
        FirstDigitDecides(ValueOf(a[0]), ValueOf(b[0]), p, Value(a[1..]), Value(b[1..]));
      } else {
        FirstDigitDecides(ValueOf(b[0]), ValueOf(a[0]), p, Value(b[1..]), Value(a[1..]));
      }
    }
  }

  lemma FirstDigitDecides(x: nat, y: nat, p: nat, u: nat, v: nat)
    requires x < y && u < p
    ensures x * p + u < y * p + v
  {
    assert (x + 1) * p <= y * p;
  }

  /** Equal-length heads that differ decide the comparison. */
  lemma {:induction false} LtHead(p: string, q: string, s: string, t: string)
    requires |p| == |q|
    ensures p != q ==> (Lt(p + s, q + t) <==> Lt(p, q))
    ensures p == q ==> (Lt(p + s, q + t) <==> Lt(s, t))
  {
    if p == [] {
      assert p + s == s && q + t == t;
    } else {
      LtHead(p[1..], q[1..], s, t);
      assert (p + s)[1..] == p[1..] + s && (q + t)[1..] == q[1..] + t;
      assert p == [p[0]] + p[1..] && q == [q[0]] + q[1..];
    }
  }

  lemma {:induction false} LtIrreflexive(a: string)
    ensures !Lt(a, a)
  {
    if a == [] {
    } else {
      LtIrreflexive(a[1..]);
    }
  }

  lemma {:induction false} LtTransitive(a: string, b: string, c: string)
    requires Lt(a, b) && Lt(b, c)
    ensures Lt(a, c)
  {
    if a == [] || a[0] != b[0] || b[0] != c[0] {
    } else {
      LtTransitive(a[1..], b[1..], c[1..]);
    }
  }

  lemma {:induction false} LtTotal(a: string, b: string)
    ensures a == b || Lt(a, b) || Lt(b, a)
  {
    if a == [] || b == [] || a[0] != b[0] {
    } else {
      LtTotal(a[1..], b[1..]);
      assert a == [a[0]] + a[1..] && b == [b[0]] + b[1..];
    }
  }

  /** %d is injective, so two rendered counters are equal only when the counters are. */
  lemma DigitsInjective(m: nat, n: nat)
    requires Digits(m) == Digits(n)
    ensures m == n
  {
    ValueDigits(m);
    ValueDigits(n);
  }

  /** A printed number starts with a digit or a minus sign. */
  lemma FormatStart(n: int)
    ensures Format(n) != "" && (IsDigit(Format(n)[0]) || Format(n)[0] == '-')
    ensures n < 0 <==> Format(n)[0] == '-'
  {
    var d := Digits(if n < 0 then -n else n);
    assert |d| > 0 && IsDigit(d[0]);
  }

  lemma FormatInjective(m: int, n: int)
    ensures Format(m) == Format(n) <==> m == n
  {
    FormatStart(m);
    FormatStart(n);
    if Format(m) == Format(n) {
      if m < 0 {
        assert Digits(-m) == Format(m)[1..] && Digits(-n) == Format(n)[1..];
        DigitsInjective(-m, -n);
      } else {
        DigitsInjective(m, n);
      }
    }
  }
}
