/** C integer conversions and operators that differ from Dafny's built-in ones.
    Dafny's `/` and `%` on `int` are Euclidean and `.Floor` rounds down; C's
    `(int)` cast of a double and its `%` both truncate toward zero. */
module CArith {

  /** C's `(int)d` for a double `d`: the integer part, rounded toward zero. */
  function Trunc(d: real): (n: int)
    ensures d >= 0.0 ==> 0 <= n && n as real <= d < n as real + 1.0
    ensures d < 0.0 ==> n <= 0 && n as real - 1.0 < d <= n as real
  {
    if d >= 0.0 then d.Floor else -((-d).Floor)
  }

  /** The cast is odd: it rounds a negated value to the negated integer. */
  lemma TruncNegate(d: real)
    ensures Trunc(-d) == -Trunc(d)
  {
  }

  /** C99's `a % b` for a positive divisor: the remainder of the division
      truncated toward zero, so it takes the sign of the dividend; it lies in
      the same residue class as `a`. */
  function CRem(a: int, b: int): (r: int)
    requires b > 0
    ensures a >= 0 ==> 0 <= r < b
    ensures a < 0 ==> -b < r <= 0
    ensures r % b == a % b
  {
    var m := a % b;
    if a < 0 && m != 0 then (ModShift(m, b); m - b) else m
  }

  /** Shifting a residue down by one divisor keeps its class. */
  lemma ModShift(m: int, b: int)
    requires 0 <= m < b
    ensures (m - b) % b == m
  {
    assert m - b == b * (-1) + m;
  }

  /** On a non-negative dividend C's remainder agrees with Dafny's. */
  lemma CRemOfNonNegative(a: int, b: int)
    requires a >= 0 && b > 0
    ensures CRem(a, b) == a % b
  {
  }
}
