/** Go's 64-bit signed arithmetic, written out over unbounded integers. */
module Int64 {
  const MAX: int := 0x7FFF_FFFF_FFFF_FFFF
  const TWO_64: int := 0x1_0000_0000_0000_0000

  predicate Fits(x: int) {
    -MAX - 1 <= x <= MAX
  }

  /** The int64 that holds the low 64 bits of x. */
  function Wrap(x: int): (r: int)
    ensures Fits(r)
    ensures Fits(x) ==> r == x
  {
    var m := x % TWO_64;
    if m > MAX then m - TWO_64 else m
  }

  /** Go's `/`: truncates toward zero. */
  function TruncDiv(a: int, b: int): int
    requires b > 0
  {
    if a >= 0 then a / b else -((-a) / b)
  }

  lemma WrapPeriodic(x: int, k: int)
    ensures Wrap(x + k * TWO_64) == Wrap(x)
  {
    var q := x / TWO_64;
    assert x + k * TWO_64 == (q + k) * TWO_64 + x % TWO_64;
  }

  lemma WrapMovesByTurns(x: int)
    ensures exists k :: Wrap(x) == x - k * TWO_64
  {
    var q := x / TWO_64;
    assert x == q * TWO_64 + x % TWO_64;
    if x % TWO_64 > MAX {
      assert Wrap(x) == x - (q + 1) * TWO_64;
    } else {
      assert Wrap(x) == x - q * TWO_64;
    }
  }
}
