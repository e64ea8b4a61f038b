/** Amounts are integer minor units; Fee is the platform fee in basis points. */
module Money {

  const INT64_LIMIT: int := 0x8000_0000_0000_0000
  const TWO64: int := 0x1_0000_0000_0000_0000
  const BPS_UNIT: int := 10_000

  /** The value a 64-bit two's complement register holds after an overflow. */
  function Wrap64(x: int): int {
    var low := x % TWO64;
    if low < INT64_LIMIT then low else low - TWO64
  }

  /** Division that truncates toward zero. */
  function Quotient(a: int, b: int): int
    requires b > 0
  {
    if a >= 0 then a / b else -(-a / b)
  }

  function Fee(amount: int, bps: int): int {
    if amount <= 0 || bps <= 0 then 0 else Quotient(Wrap64(amount * bps), BPS_UNIT)
  }

  /** The product the fee is computed from fits a 64-bit integer. */
  predicate FeeFits(amount: int, bps: int) {
    amount * bps < INT64_LIMIT
  }

  /** The part of the exact fee lost by truncation, in ten-thousandths of a unit. */
  function Remainder(amount: int, bps: int): (r: int)
    ensures 0 <= r < BPS_UNIT
  {
    amount * bps % BPS_UNIT
  }

  /** Inside the 64-bit range the fee is the exact floor, and below the amount for every rate under 100%. */
  lemma FeeIsFloor(amount: int, bps: int)
    requires 0 <= amount && 0 <= bps && FeeFits(amount, bps)
    ensures BPS_UNIT * Fee(amount, bps) + Remainder(amount, bps) == amount * bps
    ensures 0 <= Fee(amount, bps)
    ensures 0 < amount && bps < BPS_UNIT ==> Fee(amount, bps) < amount
    ensures bps == BPS_UNIT ==> Fee(amount, bps) == amount
  {
    if amount == 0 || bps == 0 {
      assert amount * bps == 0;
    } else {
      assert amount * bps >= 0 by { ProductMonotone(0, amount, bps); }
      assert Wrap64(amount * bps) == amount * bps;
      var q, r := amount * bps / BPS_UNIT, amount * bps % BPS_UNIT;
      assert amount * bps == BPS_UNIT * q + r;
      if bps < BPS_UNIT {
        ProductMonotone(bps, BPS_UNIT - 1, amount);
        assert bps * amount == amount * bps;
      }
    }
  }

  /** Exactly when the product overflows, the fee stops being the floor. */
  lemma FeeExactIff(amount: int, bps: int)
    requires 0 < amount && 0 < bps
    ensures Fee(amount, bps) == amount * bps / BPS_UNIT <==> FeeFits(amount, bps)
  {
    var x := amount * bps;
    assert x >= 0 by { ProductMonotone(0, amount, bps); }
    if FeeFits(amount, bps) {
      FeeIsFloor(amount, bps);
    } else {
      var k := x / TWO64;
      assert x == TWO64 * k + x % TWO64;
      assert k >= 0;
      assert Wrap64(x) <= x - TWO64 by {
        if k == 0 {
          assert x % TWO64 == x;
        }
      }
      QuotientMonotone(Wrap64(x), x - TWO64);
    }
  }

  lemma QuotientMonotone(a: int, b: int)
    requires a <= b && -INT64_LIMIT <= b
    ensures Quotient(a, BPS_UNIT) < (b + TWO64) / BPS_UNIT
  {
  }

  lemma ProductMonotone(a: int, b: int, c: int)
    requires a <= b && 0 <= c
    ensures a * c <= b * c
  {
  }

  /** A total built from parts whose fees and remainders are summed: the fee on the total is the
      booked fees plus the whole units hidden in the remainders. */
  lemma FeeOfTotal(total: int, bps: int, fees: int, remainders: int)
    requires 0 <= total && 0 <= bps && FeeFits(total, bps)
    requires BPS_UNIT * fees + remainders == total * bps
    requires 0 <= remainders
    ensures Fee(total, bps) == fees + remainders / BPS_UNIT
  {
    FeeIsFloor(total, bps);
  }

  /** The promise that row and journal fees agree fails under partial capture. */
  lemma PartialCaptureFeesDiffer()
    ensures Fee(49, 200) + Fee(51, 200) == 1
    ensures Fee(49 + 51, 200) == 2
    ensures Remainder(49, 200) + Remainder(51, 200) == BPS_UNIT
  {
  }
}
