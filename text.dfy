/** Strings as the pipeline uses them: Python's ordering of `str` values,
    zero-padded decimal rendering (`%Y`, `%m`, `%d`, f-string integers),
    reading decimal digits back, and prefix / substring tests. */
module Text {

  function Pow10(n: nat): (r: nat)
    ensures r >= 1
  {
    if n == 0 then 1 else 10 * Pow10(n - 1)
  }

  predicate IsDigit(c: char)
  {
    '0' <= c <= '9'
  }

  predicate AllDigits(s: string)
  {
    forall i :: 0 <= i < |s| ==> IsDigit(s[i])
  }

  function DigitChar(d: nat): (c: char)
    requires d < 10
    ensures IsDigit(c)
  {
    ('0' as int + d) as char
  }

  function DigitValue(c: char): (d: nat)
    requires IsDigit(c)
    ensures d < 10 && DigitChar(d) == c
  {
    c as int - '0' as int
  }

  /** The number a string of decimal digits denotes (leading zeros allowed). */
  function ValueOf(s: string): (n: nat)
    requires AllDigits(s)
    ensures n < Pow10(|s|)
  {
    if s == [] then 0 else 10 * ValueOf(s[..|s| - 1]) + DigitValue(s[|s| - 1])
  }

  /** `n` in decimal, left-padded with zeros to at least `w` digits, as
      `strftime("%Y")` (w = 4), `%m` and `%d` (w = 2) and `str(n)` (w = 1)
      render it. */
  function Padded(n: nat, w: nat): (r: string)
    ensures AllDigits(r) && |r| >= 1
    ensures ValueOf(r) == n
    ensures 1 <= w && n < Pow10(w) ==> |r| == w
    decreases n + w
  {
    if n < 10 && w <= 1 then [DigitChar(n)]
    else
      var r := Padded(n / 10, if w == 0 then 0 else w - 1) + [DigitChar(n % 10)];
      assert r[..|r| - 1] == Padded(n / 10, if w == 0 then 0 else w - 1);
      r
  }

  /** Python's `str(n)` for a natural number: no leading zero. */
  function Decimal(n: nat): (r: string)
    ensures AllDigits(r) && |r| >= 1 && ValueOf(r) == n
    ensures |r| == 1 || r[0] != '0'
  {
    if n == 0 then Padded(0, 1)
    else
      UnpaddedLeadsNonZero(n, 1);
      Padded(n, 1)
  }

  /** Without padding, a positive number's rendering starts with a non-zero digit. */
  lemma {:induction false} UnpaddedLeadsNonZero(n: nat, w: nat)
    requires 1 <= n && w <= 1
    ensures Padded(n, w)[0] != '0'
    decreases n
  {
    if !(n < 10 && w <= 1) {
      UnpaddedLeadsNonZero(n / 10, 0);
    }
  }

  /** Rendering a digit string's value at the string's own width gives the
      string back: padded rendering and `ValueOf` are mutually inverse. */
  lemma {:induction false} PaddedValueOf(s: string)
    requires AllDigits(s) && |s| >= 1
    ensures Padded(ValueOf(s), |s|) == s
  {
    var p := s[..|s| - 1];
    var d := DigitValue(s[|s| - 1]);
    if |s| == 1 {
      assert ValueOf(s) == d;
    } else {
      PaddedValueOf(p);
      var n := ValueOf(s);
      assert n / 10 == ValueOf(p) && n % 10 == d;
      assert s == p + [s[|s| - 1]];
    }
  }

  /** Python's `a <= b` on strings: lexicographic by code point, a prefix
      coming first. */
  predicate StrLe(a: string, b: string)
  {
    a == [] || (b != [] && (a[0] < b[0] || (a[0] == b[0] && StrLe(a[1..], b[1..]))))
  }

  lemma {:induction false} StrLeTotal(a: string, b: string)
    ensures StrLe(a, b) || StrLe(b, a)
  {
    if a != [] && b != [] && a[0] == b[0] {
      StrLeTotal(a[1..], b[1..]);
    }
  }

  lemma {:induction false} StrLeTransitive(a: string, b: string, c: string)
    requires StrLe(a, b) && StrLe(b, c)
    ensures StrLe(a, c)
  {
    if a != [] && b != [] && c != [] && a[0] == b[0] && b[0] == c[0] {
      StrLeTransitive(a[1..], b[1..], c[1..]);
    }
  }

  lemma {:induction false} StrLeAntisymmetric(a: string, b: string)
    requires StrLe(a, b) && StrLe(b, a)
    ensures a == b
  {
    if a != [] && b != [] {
      StrLeAntisymmetric(a[1..], b[1..]);
      assert a == [a[0]] + a[1..] && b == [b[0]] + b[1..];
    }
  }

  /** Comparing two strings that start with prefixes of equal length: the
      prefixes decide unless they are equal, and then the rest decides. */
  lemma {:induction false} StrLeConcat(p: string, s: string, q: string, t: string)
    requires |p| == |q|
    ensures StrLe(p + s, q + t) <==> (p == q && StrLe(s, t)) || (p != q && StrLe(p, q))
  {
    if p == [] {
      assert p + s == s && q + t == t;
    } else {
      assert (p + s)[0] == p[0] && (q + t)[0] == q[0];
      assert (p + s)[1..] == p[1..] + s && (q + t)[1..] == q[1..] + t;
      StrLeConcat(p[1..], s, q[1..], t);
      if p[0] == q[0] {
        assert p == q <==> p[1..] == q[1..] by {
          assert p == [p[0]] + p[1..] && q == [q[0]] + q[1..];
        }
      }
    }
  }

  /** Zero-padded renderings of equal width compare as strings exactly as
      the numbers compare: this is why fixed-width date keys sort
      chronologically. */
  lemma {:induction false} PaddedOrder(n: nat, m: nat, w: nat)
    requires 1 <= w && n < Pow10(w) && m < Pow10(w)
    ensures StrLe(Padded(n, w), Padded(m, w)) <==> n <= m
  {
    if w == 1 {
      PaddedOrderOneDigit(n, m);
    } else {
      PaddedOrder(n / 10, m / 10, w - 1);
      PaddedOrderStep(n, m, w);
    }
  }

  lemma PaddedOrderOneDigit(n: nat, m: nat)
    requires n < 10 && m < 10
    ensures StrLe(Padded(n, 1), Padded(m, 1)) <==> n <= m
  {
    assert Padded(n, 1) == [DigitChar(n)] && Padded(m, 1) == [DigitChar(m)];
    assert StrLe([DigitChar(n)], [DigitChar(m)]) <==> DigitChar(n) <= DigitChar(m);
  }

  lemma PaddedOrderStep(n: nat, m: nat, w: nat)
    requires 2 <= w && n < Pow10(w) && m < Pow10(w)
    requires StrLe(Padded(n / 10, w - 1), Padded(m / 10, w - 1)) <==> n / 10 <= m / 10
    ensures StrLe(Padded(n, w), Padded(m, w)) <==> n <= m
  {
    var pn, pm := Padded(n / 10, w - 1), Padded(m / 10, w - 1);
    var cn, cm := [DigitChar(n % 10)], [DigitChar(m % 10)];
    assert Padded(n, w) == pn + cn && Padded(m, w) == pm + cm by {
      PaddedLast(n, w);
      PaddedLast(m, w);
    }
    assert |pn| == |pm| by {
      assert n / 10 < Pow10(w - 1) && m / 10 < Pow10(w - 1);
    }
    assert pn == pm <==> n / 10 == m / 10 by {
      if pn == pm {
        assert ValueOf(pn) == ValueOf(pm);
      }
    }
    assert StrLe(cn, cm) <==> n % 10 <= m % 10 by {
      assert cn[1..] == [] && cm[1..] == [];
    }
    assert StrLe(pn + cn, pm + cm) <==> (pn == pm && StrLe(cn, cm)) || (pn != pm && StrLe(pn, pm)) by {
      StrLeConcat(pn, cn, pm, cm);
    }
    DecimalPlaces(n, m);
  }

  lemma PaddedLast(n: nat, w: nat)
    requires 2 <= w
    ensures Padded(n, w) == Padded(n / 10, w - 1) + [DigitChar(n % 10)]
  {
  }

  lemma DecimalPlaces(n: nat, m: nat)
    ensures n <= m <==> n / 10 < m / 10 || (n / 10 == m / 10 && n % 10 <= m % 10)
  {
  }

  predicate StartsWith(s: string, prefix: string)
  {
    |prefix| <= |s| && s[..|prefix|] == prefix
  }

  /** Python's `sub in s` for strings. */
  predicate Contains(s: string, sub: string)
  {
    exists i :: 0 <= i <= |s| - |sub| && OccursAt(s, sub, i)
  }

  predicate OccursAt(s: string, sub: string, i: int)
  {
    0 <= i <= |s| - |sub| && s[i..i + |sub|] == sub
  }

  /** ASCII lower-casing of one character. */
  function LowerAscii(c: char): char
  {
    if 'A' <= c <= 'Z' then (c as int + 32) as char else c
  }
}
