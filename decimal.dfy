/** Decimal text of Python integers: `str(n)` and `int(s)` on digit strings,
    with the facts that relate slices of the text to quotient and remainder
    of the number. */
module Decimal {
  import opened Wrappers

  function Pow10(k: nat): (r: nat)
    ensures r >= 1
  {
    if k == 0 then 1 else 10 * Pow10(k - 1)
  }

  predicate IsDigit(c: char)
  {
    '0' <= c <= '9'
  }

  predicate AllDigits(s: seq<char>)
  {
    forall i :: 0 <= i < |s| ==> IsDigit(s[i])
  }

  function DigitChar(d: nat): (c: char)
    requires d < 10
    ensures IsDigit(c) && c as int - '0' as int == d
  {
    (('0' as int) + d) as char
  }

  /** The digits of `n`, most significant first, without leading zeros. */
  function Digits(n: nat): (s: seq<char>)
    ensures |s| >= 1 && AllDigits(s)
    decreases n
  {
    if n < 10 then [DigitChar(n)] else Digits(n / 10) + [DigitChar(n % 10)]
  }

  /** `str(n)`: a minus sign before the digits of a negative number. */
  function ToString(n: int): (s: seq<char>)
    ensures |s| >= 1 && AllDigits(s[1..])
  {
    if n < 0 then ['-'] + Digits(-n) else Digits(n)
  }

  /** The value of a digit string (leading zeros allowed, as `int` allows). */
  function Value(s: seq<char>): nat
    requires AllDigits(s)
  {
    if s == [] then 0 else 10 * Value(s[..|s| - 1]) + (s[|s| - 1] as int - '0' as int)
  }

  /** `int(s)` on a slice of `str(n)`: the slice holds no sign and no
      blanks, so it parses exactly when it is a non-empty digit string. */
  function ParseInt(s: seq<char>): (r: Option<nat>)
    ensures r.Some? <==> |s| >= 1 && AllDigits(s)
  {
    if |s| >= 1 && AllDigits(s) then Some(Value(s)) else None
  }

  /** Parsing the text of a natural number gives the number back. */
  lemma {:induction false} ValueDigits(n: nat)
    ensures Value(Digits(n)) == n
    decreases n
  {
    if n >= 10 {
      ValueDigits(n / 10);
      var s := Digits(n);
      assert s[..|s| - 1] == Digits(n / 10);
    }
  }

  lemma {:induction false} ValueBound(s: seq<char>)
    requires AllDigits(s)
    ensures Value(s) < Pow10(|s|)
  {
    if s != [] {
      ValueBound(s[..|s| - 1]);
    }
  }

  /** The value of a concatenation: the left part shifted by the right
      part's length. */
  lemma {:induction false} ValueAppend(a: seq<char>, b: seq<char>)
    requires AllDigits(a) && AllDigits(b)
    ensures AllDigits(a + b)
    ensures Value(a + b) == Value(a) * Pow10(|b|) + Value(b)
    decreases |b|
  {
    DigitsAppend(a, b);
    if b != [] {
      var b' := b[..|b| - 1];
      var d := b[|b| - 1] as int - '0' as int;
      ValueAppend(a, b');
      assert (a + b)[..|a + b| - 1] == a + b';
      assert (a + b)[|a + b| - 1] == b[|b| - 1];
      assert Value(a + b) == 10 * Value(a + b') + d;
      assert Value(b) == 10 * Value(b') + d;
      Shift(Value(a), Pow10(|b'|), Value(b'));
    } else {
      assert a + b == a;
    }
  }

  lemma DigitsAppend(a: seq<char>, b: seq<char>)
    requires AllDigits(a) && AllDigits(b)
    ensures AllDigits(a + b)
  {
    assert forall i | 0 <= i < |a + b| :: (a + b)[i] == if i < |a| then a[i] else b[i - |a|];
  }

  /** One more digit multiplies the shifted left part by ten. */
  lemma Shift(x: nat, p: nat, y: nat)
    ensures 10 * (x * p + y) == x * (10 * p) + 10 * y
  {
  }

  /** Floor division and remainder are determined by any decomposition
      n == q * p + r with 0 <= r < p. */
  lemma DivModUnique(n: nat, p: nat, q: nat, r: nat)
    requires p >= 1 && r < p && n == q * p + r
    ensures n / p == q && n % p == r
  {
    var q', r' := n / p, n % p;
    assert n == q' * p + r';
    if q' > q {
      assert (q' - q) * p == r - r';
      MulAtLeast(q' - q, p);
    } else if q' < q {
      assert (q - q') * p == r' - r;
      MulAtLeast(q - q', p);
    }
  }

  lemma MulAtLeast(a: nat, p: nat)
    requires a >= 1
    ensures a * p >= p
  {
    assert a * p == (a - 1) * p + p;
  }

  /** Cutting the text at `k` splits the number into quotient and remainder
      by the power of ten of the tail's length. */
  lemma SplitValue(s: seq<char>, k: nat)
    requires AllDigits(s) && k <= |s|
    ensures Value(s) / Pow10(|s| - k) == Value(s[..k])
    ensures Value(s) % Pow10(|s| - k) == Value(s[k..])
  {
    assert s == s[..k] + s[k..];
    ValueAppend(s[..k], s[k..]);
    ValueBound(s[k..]);
    DivModUnique(Value(s), Pow10(|s| - k), Value(s[..k]), Value(s[k..]));
  }

  /** The text of `n` is longer than `k >= 1` characters exactly when
      n >= 10^k. */
  lemma {:induction false} DigitsLonger(n: nat, k: nat)
    requires k >= 1
    ensures |Digits(n)| > k <==> n >= Pow10(k)
    decreases n
  {
    if n >= 10 {
      if k >= 2 {
        DigitsLonger(n / 10, k - 1);
        DivAtLeast(n, Pow10(k - 1));
      }
    } else {
      PowAtLeast10(k);
    }
  }

  lemma DivAtLeast(n: nat, q: nat)
    ensures n / 10 >= q <==> n >= 10 * q
  {
    DivModUnique(n, 10, n / 10, n % 10);
  }

  lemma PowAtLeast10(k: nat)
    requires k >= 1
    ensures Pow10(k) >= 10
  {
    if k > 1 {
      PowAtLeast10(k - 1);
    }
  }
}
