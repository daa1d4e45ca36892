/** Python's integer division operators. Dafny's `/` and `%` are Euclidean;
    Python's `//` rounds towards negative infinity and its `%` takes the sign
    of the divisor. The two agree when the divisor is positive. */
module PyArith {

  /** `a // b` for `b != 0`. */
  function FloorDiv(a: int, b: int): (q: int)
    requires b != 0
    ensures b > 0 ==> q == a / b
    ensures b > 0 ==> q * b <= a < q * b + b
    ensures b < 0 ==> q * b >= a > q * b + b
  {
    if b > 0 then a / b
    else if a % b == 0 then a / b
    else a / b - 1
  }

  /** `a % b` for `b != 0`: `a == (a // b) * b + a % b`. */
  function Mod(a: int, b: int): (r: int)
    requires b != 0
    ensures a == FloorDiv(a, b) * b + r
    ensures b > 0 ==> 0 <= r < b
    ensures b < 0 ==> b < r <= 0
  {
    a - FloorDiv(a, b) * b
  }

  /** A multiple of `b` smaller in size than `b` is zero. */
  lemma SmallMultipleIsZero(d: int, b: int)
    requires b != 0 && -(if b > 0 then b else -b) < d * b < (if b > 0 then b else -b)
    ensures d == 0
  {
  }

  /** Python's quotient and remainder are the only pair with `a == q * b + m`
      and `m` between zero and the divisor, on the divisor's side. */
  lemma FloorDivUnique(a: int, b: int, q: int, m: int)
    requires b != 0 && a == q * b + m
    requires b > 0 ==> 0 <= m < b
    requires b < 0 ==> b < m <= 0
    ensures FloorDiv(a, b) == q && Mod(a, b) == m
  {
    var q', m' := FloorDiv(a, b), Mod(a, b);
    assert (q' - q) * b == q' * b - q * b;
    assert (q' - q) * b == m - m';
    SmallMultipleIsZero(q' - q, b);
  }

  /** `math.ceil(a / b)` for a non-negative `a` and a positive `b`. */
  function CeilDiv(a: nat, b: nat): (q: nat)
    requires b > 0
    ensures (q - 1) * b < a <= q * b
  {
    (a + b - 1) / b
  }

  /** Taking `b` off a count larger than `b` takes one off its ceiling. */
  lemma CeilDivStep(a: nat, b: nat)
    requires 0 < b < a
    ensures CeilDiv(a, b) == 1 + CeilDiv(a - b, b)
  {
    var q := CeilDiv(a - b, b);
    assert (q - 1) * b < a - b <= q * b;
    assert ((q + 1) - 1) * b < a <= (q + 1) * b;
    CeilDivUnique(a, b, q + 1);
  }

  lemma CeilDivUnique(a: nat, b: nat, q: int)
    requires b > 0
    requires (q - 1) * b < a <= q * b
    ensures CeilDiv(a, b) == q
  {
  }
}
