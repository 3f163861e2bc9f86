/** 64-bit integers as Go computes with them. */
module Int64 {
  const TWO63: int := 0x8000_0000_0000_0000
  const TWO64: int := 0x1_0000_0000_0000_0000

  predicate IsInt64(i: int) {
    -TWO63 <= i < TWO63
  }

  // A signed result wraps around.
  function Wrap(i: int): (r: int)
    ensures IsInt64(r)
    ensures IsInt64(i) ==> r == i
    ensures (r - i) % TWO64 == 0
  {
    (i + TWO63) % TWO64 - TWO63
  }

  // int(u) of an unsigned value.
  function AsInt(u: nat): int {
    if u < TWO63 then u else u - TWO64
  }

  // Division truncates toward zero.
  function Quotient(a: int, b: int): int
    requires b > 0
  {
    if a >= 0 then a / b else -(-a / b)
  }

  lemma QuotientTruncates(a: int, b: int)
    requires b > 0
    ensures a >= 0 ==> Quotient(a, b) * b <= a < Quotient(a, b) * b + b
    ensures a < 0 ==> Quotient(a, b) * b - b < a <= Quotient(a, b) * b
  {
    if a >= 0 {
      DivisionBounds(a, b);
    } else {
      DivisionBounds(-a, b);
      assert Quotient(a, b) * b == -((-a / b) * b);
    }
  }

  lemma DivisionBounds(a: int, b: int)
    requires a >= 0 && b > 0
    ensures (a / b) * b <= a < (a / b) * b + b
  {
    assert a == (a / b) * b + a % b;
  }
}
