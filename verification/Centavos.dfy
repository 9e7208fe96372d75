/** Amounts in cents as Go holds them: int64 arithmetic and its limits. */
module Centavos {

  const MAX_MONEY := 100_000_000_000
  const MAX_INT64 := 0x7FFF_FFFF_FFFF_FFFF
  const MIN_INT64 := -0x8000_0000_0000_0000

  predicate Int64(v: int) {
    MIN_INT64 <= v <= MAX_INT64
  }

  /** int64 arithmetic wraps around. */
  function Wrap(v: int): (w: int)
    ensures Int64(w) && (Int64(v) ==> w == v)
  {
    (v - MIN_INT64) % 0x1_0000_0000_0000_0000 + MIN_INT64
  }

  /** Go's / and %: the quotient is truncated toward zero. */
  function Quo(a: int, b: int): int
    requires b > 0
  {
    if a >= 0 then a / b else -(-a / b)
  }

  function Rem(a: int, b: int): int
    requires b > 0
  {
    a - b * Quo(a, b)
  }

  lemma RestOfDivision(v: int, n: int)
    requires 1 <= n && 0 <= v
    ensures Quo(v, n) == v / n && v - Quo(v, n) * n == v % n
  {
    assert v == n * (v / n) + v % n;
  }
}
