/**
 * Decimal renderings of numbers and the two string operations the pipeline
 * relies on: zero-padded fields (as written by strftime and Spark's
 * date_format), unpadded decimals (Python's str of an int), reading a digit
 * string back as a number (Spark's cast of a string to int), and substring
 * search (Spark's Column.contains).
 */
module Text {

  predicate IsDigit(c: char) {
    '0' <= c <= '9'
  }

  predicate AllDigits(s: string) {
    forall i :: 0 <= i < |s| ==> IsDigit(s[i])
  }

  function DigitChar(d: nat): (c: char)
    requires d < 10
    ensures IsDigit(c)
  {
    ('0' as int + d) as char
  }

  function DigitValue(c: char): (d: nat)
    requires IsDigit(c)
    ensures d < 10
    ensures DigitChar(d) == c
  {
    c as int - '0' as int
  }

  function Pow10(w: nat): (p: nat)
    ensures p >= 1
  {
    if w == 0 then 1 else 10 * Pow10(w - 1)
  }

  /** The last `w` decimal digits of `n`, padded on the left with zeros. */
  function Pad(n: nat, w: nat): (s: string)
    ensures |s| == w
    ensures AllDigits(s)
  {
    if w == 0 then [] else Pad(n / 10, w - 1) + [DigitChar(n % 10)]
  }

  /** The number of decimal digits of `n` (zero has one). */
  function NumDigits(n: nat): (k: nat)
    ensures k >= 1
  {
    if n < 10 then 1 else 1 + NumDigits(n / 10)
  }

  /** `n` in decimal without leading zeros, as Python's str(n). */
  function Decimal(n: nat): (s: string)
    ensures |s| == NumDigits(n)
    ensures AllDigits(s)
  {
    Pad(n, NumDigits(n))
  }

  /** The value of a string of decimal digits, as a cast from string to int reads it. */
  function ParseDigits(s: string): nat
    requires AllDigits(s)
  {
    if s == [] then 0 else 10 * ParseDigits(s[..|s| - 1]) + DigitValue(s[|s| - 1])
  }

  lemma {:induction false} NumDigitsBound(n: nat)
    ensures n < Pow10(NumDigits(n))
  {
    if n >= 10 {
      NumDigitsBound(n / 10);
    }
  }

  /** Padding to a width that holds the number loses nothing. */
  lemma {:induction false} ParsePad(n: nat, w: nat)
    requires n < Pow10(w)
    ensures ParseDigits(Pad(n, w)) == n
  {
    if w > 0 {
      assert n / 10 < Pow10(w - 1);
      ParsePad(n / 10, w - 1);
      var s := Pad(n, w);
      assert s[..|s| - 1] == Pad(n / 10, w - 1);
    }
  }

  lemma ParseDecimal(n: nat)
    ensures ParseDigits(Decimal(n)) == n
  {
    NumDigitsBound(n);
    ParsePad(n, NumDigits(n));
  }

  /** Reading a concatenation: the left part is shifted by the right part's width. */
  lemma {:induction false} ParseConcat(a: string, b: string)
    requires AllDigits(a) && AllDigits(b)
    ensures AllDigits(a + b)
    ensures ParseDigits(a + b) == ParseDigits(a) * Pow10(|b|) + ParseDigits(b)
  {
    if b == [] {
      assert a + b == a;
    } else {
      var b' := b[..|b| - 1];
      assert (a + b)[..|a + b| - 1] == a + b';
      ParseConcat(a, b');
      var x, p, y, d := ParseDigits(a), Pow10(|b'|), ParseDigits(b'), DigitValue(b[|b| - 1]);
      assert (a + b)[|a + b| - 1] == b[|b| - 1];
      assert ParseDigits(a + b) == 10 * ParseDigits(a + b') + d;
      assert Pow10(|b|) == 10 * p;
      assert ParseDigits(b) == 10 * y + d;
      ShiftDigit(x, p, y, d);
    }
  }

  lemma ShiftDigit(x: int, p: int, y: int, d: int)
    ensures 10 * (x * p + y) + d == x * (10 * p) + (10 * y + d)
  {
  }

  /** The three parts of a concatenation can be sliced back out. */
  lemma Slices3(a: string, b: string, c: string)
    ensures (a + b + c)[..|a|] == a
    ensures (a + b + c)[|a|..|a| + |b|] == b
    ensures (a + b + c)[|a| + |b|..] == c
  {
    var s := a + b + c;
    assert s[..|a|] == a;
    assert s[|a|..|a| + |b|] == b;
    assert s[|a| + |b|..] == c;
  }

  /** Python's str(n) is one-to-one. */
  lemma DecimalInjective(m: nat, n: nat)
    requires Decimal(m) == Decimal(n)
    ensures m == n
  {
    ParseDecimal(m);
    ParseDecimal(n);
  }

  lemma FourDigits(n: nat)
    requires 1000 <= n <= 9999
    ensures NumDigits(n) == 4
    ensures Decimal(n) == Pad(n, 4)
  {
    assert NumDigits(n / 10 / 10 / 10) == 1;
    assert NumDigits(n / 10 / 10) == 2;
    assert NumDigits(n / 10) == 3;
  }

  /** `p` occurs in `s` starting at the first character. */
  predicate StartsWith(s: string, p: string) {
    |p| <= |s| && s[..|p|] == p
  }

  /** `p` occurs in `s` as a contiguous substring, found by scanning from the left. */
  predicate Contains(s: string, p: string)
    decreases |s|
  {
    StartsWith(s, p) || (|s| > 0 && Contains(s[1..], p))
  }

  /** A pattern longer than the text does not occur in it. */
  lemma {:induction false} TooShortToContain(s: string, p: string)
    requires |s| < |p|
    ensures !Contains(s, p)
  {
    if |s| > 0 {
      TooShortToContain(s[1..], p);
    }
  }

  /** `p` occurs in `s` at position `i`. */
  predicate OccursAt(s: string, p: string, i: nat) {
    i + |p| <= |s| && s[i..i + |p|] == p
  }

  /** The scan agrees with the positional definition of a substring. */
  lemma {:induction false} ContainsAt(s: string, p: string)
    ensures Contains(s, p) <==> exists i: nat :: OccursAt(s, p, i)
  {
    if StartsWith(s, p) {
      assert OccursAt(s, p, 0);
    }
    if |s| > 0 {
      ContainsAt(s[1..], p);
      if Contains(s[1..], p) {
        var i: nat :| OccursAt(s[1..], p, i);
        assert s[1..][i..i + |p|] == s[i + 1..i + 1 + |p|];
        assert OccursAt(s, p, i + 1);
      }
      if i: nat :| OccursAt(s, p, i) {
        if i > 0 {
          assert s[1..][i - 1..i - 1 + |p|] == s[i..i + |p|];
          assert OccursAt(s[1..], p, i - 1);
        }
      }
    } else {
      if i: nat :| OccursAt(s, p, i) {
        assert StartsWith(s, p);
      }
    }
  }
}
