/** Small shared vocabulary: optional values, numeric form fields, sums and
    the exact decimal rounding the user interface applies to money. */
module Prelude {

  datatype Option<T> = None | Some(value: T)

  datatype Result<T, E> = Ok(value: T) | Err(error: E)

  /** A numeric `<input type="number">`: the browser reports "" (Blank) for an
      empty or non-numeric entry, otherwise a decimal number. */
  datatype Field = Blank | Entered(value: real)

  /** Sum of a sequence of amounts, folded left to right like `reduce((a, b) => a + b, 0)`. */
  function Sum(xs: seq<real>): real
  {
    if xs == [] then 0.0 else Sum(xs[..|xs| - 1]) + xs[|xs| - 1]
  }

  lemma {:induction false} SumAppend(a: seq<real>, b: seq<real>)
    ensures Sum(a + b) == Sum(a) + Sum(b)
  {
    if b != [] {
      assert (a + b)[..|a + b| - 1] == a + b[..|b| - 1];
      SumAppend(a, b[..|b| - 1]);
    } else {
      assert a + b == a;
    }
  }

  lemma {:induction false} SumNonNegative(xs: seq<real>)
    requires forall i :: 0 <= i < |xs| ==> xs[i] >= 0.0
    ensures Sum(xs) >= 0.0
  {
    if xs != [] {
      SumNonNegative(xs[..|xs| - 1]);
    }
  }

  /** Comparing a quotient with a constant is comparing the dividend with the scaled divisor. */
  lemma DivCompare(x: real, y: real, c: real)
    requires y > 0.0
    ensures x / y > c <==> x > c * y
    ensures x / y < c <==> x < c * y
  {
    var q := x / y;
    assert q * y == x;
    if q > c { assert (q - c) * y > 0.0; }
    if q < c { assert (c - q) * y > 0.0; }
    if q == c { assert q * y == c * y; }
  }

  function Min(a: int, b: int): int { if a <= b then a else b }

  /** `Math.round`: the nearest integer, halves rounded up. */
  function Round(x: real): (r: int)
    ensures x - 0.5 < r as real <= x + 0.5
  {
    (x + 0.5).Floor
  }

  /** `Number(x.toFixed(2))` on an exact decimal: the nearest multiple of 0.01,
      ties taken away from zero (toFixed rounds the magnitude and keeps the sign). */
  function ToCents(x: real): (r: real)
    ensures -0.005 <= r - x <= 0.005
    ensures x >= 0.0 ==> r >= 0.0
  {
    if x >= 0.0 then ((x * 100.0 + 0.5).Floor as real) / 100.0
    else -(((-x) * 100.0 + 0.5).Floor as real) / 100.0
  }

  /** Rounding an amount that is already a whole number of cents returns it unchanged. */
  lemma ToCentsOfCents(n: int)
    ensures ToCents(n as real / 100.0) == n as real / 100.0
  {
    var x := n as real / 100.0;
    if n >= 0 {
      assert x * 100.0 + 0.5 == n as real + 0.5;
      assert (x * 100.0 + 0.5).Floor == n;
    } else {
      assert (-x) * 100.0 + 0.5 == (-n) as real + 0.5;
      assert ((-x) * 100.0 + 0.5).Floor == -n;
    }
  }

  /** Rounding to cents is idempotent. */
  lemma ToCentsIdempotent(x: real)
    ensures ToCents(ToCents(x)) == ToCents(x)
  {
    if x >= 0.0 {
      ToCentsOfCents((x * 100.0 + 0.5).Floor);
    } else {
      ToCentsOfCents(-(((-x) * 100.0 + 0.5).Floor));
      assert -(((-x) * 100.0 + 0.5).Floor as real) / 100.0 == (-(((-x) * 100.0 + 0.5).Floor)) as real / 100.0;
    }
  }

  /** The characters `String.prototype.trim` removes, which are also
      the ones the regular-expression class `\s` matches. */
  predicate IsSpace(c: char)
  {
    c == ' ' || c == '\t' || c == '\n' || c == '\r' || c == '\U{000B}' || c == '\U{000C}'
    || c == '\U{00A0}' || c == '\U{1680}' || ('\U{2000}' <= c <= '\U{200A}') || c == '\U{2028}'
    || c == '\U{2029}' || c == '\U{202F}' || c == '\U{205F}' || c == '\U{3000}' || c == '\U{FEFF}'
  }

  /** The line terminators a regular-expression `.` does not match. */
  predicate IsLineTerminator(c: char)
  {
    c == '\n' || c == '\r' || c == '\U{2028}' || c == '\U{2029}'
  }

  /** A natural number written in decimal, as a template literal renders it. */
  function Decimal(n: nat): string
  {
    if n < 10 then [(48 + n) as char] else Decimal(n / 10) + [(48 + n % 10) as char]
  }

  // ---------------------------------------------------------------- sequence helpers

  lemma AppendAssoc<T>(a: seq<T>, b: seq<T>, c: seq<T>)
    ensures a + (b + c) == (a + b) + c
  {
  }

  lemma AppendNothing<T>(a: seq<T>)
    ensures a + [] == a
  {
  }

  /** A slice is its two halves at any point between its ends. */
  lemma SplitSlice<T>(s: seq<T>, lo: nat, mid: nat, hi: nat)
    requires lo <= mid <= hi <= |s|
    ensures s[lo..hi] == s[lo..mid] + s[mid..hi]
  {
  }
}
