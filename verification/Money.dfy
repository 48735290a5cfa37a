// int64 coin arithmetic: what saturates, what wraps, the floor square root behind
// Starseed payouts, and the price ladders.
module Money {
  const MAX: int := 0x7FFF_FFFF_FFFF_FFFF

  // The value an int64 register holds after an unchecked operation.
  function I64(x: int): int {
    (x + MAX + 1) % (2 * MAX + 2) - MAX - 1
  }

  lemma FitsI64(x: int)
    requires -MAX - 1 <= x <= MAX
    ensures I64(x) == x
  {
  }

  lemma WrapsDown(x: int)
    requires x > MAX
    ensures I64(x) <= x - 2 * (MAX + 1)
  {
    var m := 2 * MAX + 2;
    DivMod(x + MAX + 1, m);
    QuotientOne(x + MAX + 1, m);
    MulMonotone(1, (x + MAX + 1) / m, m);
  }

  lemma QuotientOne(x: int, m: int)
    requires x >= m > 0
    ensures x / m >= 1
  {
    DivMod(x, m);
    if x / m <= 0 {
      MulMonotone(x / m, 0, m);
    }
  }

  // Division as the source language does it, towards zero.
  function Quo(a: int, b: int): int
    requires b != 0
  {
    if (a >= 0) == (b > 0) then Abs(a) / Abs(b) else -(Abs(a) / Abs(b))
  }

  function Abs(x: int): nat { if x < 0 then -x else x }

  function Min(a: int, b: int): int { if a < b then a else b }

  function Max(a: int, b: int): int { if a < b then b else a }

  // The guard's own subtraction wraps when b is negative, which no caller intends.
  function SatAdd(a: int, b: int): int {
    if a > (if b >= 0 then MAX - b else -MAX - 2 - b) then MAX else a + b
  }

  function SatMul(a: int, b: int): int {
    if a == 0 || b == 0 then 0 else if a > Quo(MAX, b) then MAX else I64(a * b)
  }

  predicate Coins(x: int) { 0 <= x <= MAX }

  lemma SatMulCaps(a: int, b: int)
    requires a >= 0 && b >= 0
    ensures SatMul(a, b) == Min(a * b, MAX)
  {
    if a > 0 && b > 0 {
      assert a > MAX / b <==> a * b > MAX by {
        DivisionBound(a, b, MAX);
      }
      assert a * b >= 0;
    }
  }

  lemma DivisionBound(a: int, b: int, m: int)
    requires b > 0 && m >= 0
    ensures a > m / b <==> a * b > m
  {
    var q := m / b;
    DivMod(m, b);
    if a > q {
      MulMonotone(q + 1, a, b);
      Distribute(q, 1, b);
    } else {
      MulMonotone(a, q, b);
    }
  }

  lemma DivMod(m: int, b: int)
    requires b > 0
    ensures m == m / b * b + m % b && 0 <= m % b < b
  {
  }

  lemma Distribute(a: int, b: int, c: int)
    ensures (a + b) * c == a * c + b * c
  {
  }

  lemma MulMonotone(a: int, b: int, c: int)
    requires a <= b && c >= 0
    ensures a * c <= b * c
  {
  }

  // Saturating sums do not care how they are grouped.
  lemma SatAddAssociates(a: int, b: int, c: int)
    requires Coins(a) && Coins(b) && Coins(c)
    ensures SatAdd(SatAdd(a, b), c) == SatAdd(a, SatAdd(b, c)) == Min(a + b + c, MAX)
  {
  }

  // ---- The floor square root ----

  function FloorSqrt(n: int): (r: nat)
    ensures n <= 0 ==> r == 0
    ensures n > 0 ==> 1 <= r && r * r <= n < (r + 1) * (r + 1)
    decreases Max(n, 0)
  {
    if n <= 0 then 0
    else
      var p := FloorSqrt(n - 1);
      if (p + 1) * (p + 1) <= n then
        assert (p + 2) * (p + 2) == (p + 1) * (p + 1) + 2 * p + 3;
        p + 1
      else p
  }

  lemma SquareStep(a: nat, b: nat)
    ensures a < b ==> (a + 1) * (a + 1) <= b * b
  {
    if a < b {
      MulMonotone(a + 1, b, a + 1);
      MulMonotone(a + 1, b, b);
    }
  }

  lemma SqrtUnique(n: int, a: nat, b: nat)
    requires a * a <= n < (a + 1) * (a + 1) && b * b <= n < (b + 1) * (b + 1)
    ensures a == b
  {
    SquareStep(a, b);
    SquareStep(b, a);
  }

  lemma FloorSqrtMonotone(m: int, n: int)
    requires m <= n
    ensures FloorSqrt(m) <= FloorSqrt(n)
  {
    SquareStep(FloorSqrt(n), FloorSqrt(m));
  }

  // The integer correction around a floating-point first guess. Whatever non-negative
  // guess it starts from, no intermediate leaves int64 and the result is exact.
  method Isqrt(n: int, guess: int) returns (r: int)
    requires n <= MAX && Coins(guess)
    ensures r == FloorSqrt(n)
  {
    if n <= 0 {
      return 0;
    }
    r := guess;
    while r > 0 && r > n / r
      invariant Coins(r)
      // Nothing is skipped on the way down: the root is at most the cursor, or the guess was low.
      invariant r == guess || FloorSqrt(n) <= r
    {
      TooBig(n, r);
      r := r - 1;
    }
    if r > 0 {
      DivisionBound(r, r, n);
      SmallRoot(n, r);
    }
    while r + 1 <= n / (r + 1)
      invariant 0 <= r && r * r <= n && r + 1 <= MAX
      decreases n - r
    {
      DivisionBound(r + 1, r + 1, n);
      SmallRoot(n, r + 1);
      r := r + 1;
    }
    DivisionBound(r + 1, r + 1, n);
    SqrtUnique(n, r, FloorSqrt(n));
  }

  lemma TooBig(n: int, r: int)
    requires 0 < r && r > n / r && n > 0
    ensures FloorSqrt(n) <= r - 1
  {
    DivisionBound(r, r, n);
    var f := FloorSqrt(n);
    SquareStep(r - 1, f);
  }

  lemma SmallRoot(n: int, r: int)
    requires 0 <= r && r * r <= n <= MAX
    ensures r <= n && r < 0x1_0000_0000
  {
    if r >= 1 {
      MulMonotone(1, r, r);
    }
    if r >= 0x1_0000_0000 {
      MulMonotone(0x1_0000_0000, r, r);
    }
  }

  // ---- Price ladders ----

  // A price after some levels; `capped` once the growth would have overflowed.
  datatype Rung = Rung(cost: int, capped: bool)

  const CEILING: int := MAX / 100

  function Climb(base: int, growth: int, levels: nat): Rung
    requires growth > 0
  {
    if levels == 0 then Rung(base, false)
    else
      var below := Climb(base, growth, levels - 1);
      if below.capped then below
      else if below.cost > MAX / growth then Rung(CEILING, true)
      else Rung(below.cost * growth / 100, false)
  }

  function LadderPrice(base: int, growth: int, levels: nat): int
    requires growth > 0
  {
    Climb(base, growth, levels).cost
  }

  // The loop every ladder in the source runs.
  method ClimbLadder(base: int, growth: int, levels: nat) returns (cost: int)
    requires 1 <= base <= MAX && growth >= 100
    ensures cost == LadderPrice(base, growth, levels)
  {
    cost := base;
    var i := 0;
    while i < levels
      invariant 0 <= i <= levels
      invariant Climb(base, growth, i) == Rung(cost, false) && cost >= 1
    {
      if cost > MAX / growth {
        CappedStays(base, growth, i + 1, levels);
        return CEILING;
      }
      DivisionBound(cost, growth, MAX);
      GrowthGrows(cost, growth);
      cost := cost * growth / 100;
      i := i + 1;
    }
  }

  lemma {:induction false} CappedStays(base: int, growth: int, i: nat, levels: nat)
    requires growth > 0 && i <= levels && Climb(base, growth, i).capped
    ensures Climb(base, growth, levels) == Climb(base, growth, i)
  {
    if i < levels {
      CappedStays(base, growth, i, levels - 1);
    }
  }

  lemma GrowthGrows(cost: int, growth: int)
    requires cost >= 0 && growth >= 100
    ensures cost * growth / 100 >= cost
  {
    MulMonotone(100, growth, cost);
    assert cost * growth >= 100 * cost;
  }

  lemma {:induction false} LadderBounded(base: int, growth: int, levels: nat)
    requires 1 <= base <= CEILING && growth >= 100
    ensures 1 <= Climb(base, growth, levels).cost <= CEILING
  {
    if levels > 0 {
      LadderBounded(base, growth, levels - 1);
      var below := Climb(base, growth, levels - 1).cost;
      if below <= MAX / growth {
        DivisionBound(below, growth, MAX);
        GrowthGrows(below, growth);
      }
    }
  }

  // With a base no higher than the ceiling, every product the loop forms and the
  // discount after it stay inside int64.
  lemma LadderFits(base: int, growth: int, levels: nat, discount: int)
    requires 1 <= base <= CEILING && growth >= 100 && 0 <= discount <= 99
    ensures var c := Climb(base, growth, levels).cost;
      && 1 <= c <= CEILING && 0 <= c * (100 - discount) <= MAX
      && (c <= MAX / growth ==> 0 <= c * growth <= MAX)
  {
    LadderBounded(base, growth, levels);
    var c := Climb(base, growth, levels).cost;
    DivisionBound(c, growth, MAX);
    MulMonotone(0, c, 100 - discount);
    MulMonotone(100 - discount, 100, c);
    MulMonotone(0, c, growth);
  }

  lemma LadderStep(base: int, growth: int, levels: nat)
    requires 1 <= base <= CEILING && growth >= 100
    ensures LadderPrice(base, growth, levels) <= LadderPrice(base, growth, levels + 1)
  {
    LadderFits(base, growth, levels, 0);
    GrowthGrows(LadderPrice(base, growth, levels), growth);
  }

  // A ladder never gets cheaper as it climbs exactly when its base is within the ceiling.
  lemma LadderNeverFallsExactlyWhen(base: int, growth: int)
    requires base >= 1 && growth >= 100
    ensures base <= CEILING <==>
              forall k: nat :: LadderPrice(base, growth, k) <= LadderPrice(base, growth, k + 1)
  {
    if base <= CEILING {
      forall k: nat ensures LadderPrice(base, growth, k) <= LadderPrice(base, growth, k + 1) {
        LadderStep(base, growth, k);
      }
    } else {
      DivisionBound(base, growth, MAX);
      MulMonotone(100, growth, base);
      assert LadderPrice(base, growth, 0) == base && LadderPrice(base, growth, 0 + 1) == CEILING;
    }
  }

  // The scarecrow's ladder saturates instead of stopping.
  function SaturatingPrice(base: int, growth: int, owned: nat): int {
    if owned == 0 then base else SatMul(SaturatingPrice(base, growth, owned - 1), growth) / 100
  }

  // Within the ceiling the two ladders are one.
  lemma {:induction false} LaddersAgree(base: int, growth: int, levels: nat)
    requires 1 <= base <= CEILING && growth >= 100
    ensures SaturatingPrice(base, growth, levels) == LadderPrice(base, growth, levels)
  {
    if levels > 0 {
      LaddersAgree(base, growth, levels - 1);
      LadderFits(base, growth, levels - 1, 0);
      var below := Climb(base, growth, levels - 1);
      CappedCost(base, growth, levels - 1);
      SatMulCaps(below.cost, growth);
      DivisionBound(below.cost, growth, MAX);
      MulMonotone(100, growth, below.cost);
    }
  }

  lemma {:induction false} CappedCost(base: int, growth: int, levels: nat)
    requires growth > 0
    ensures Climb(base, growth, levels).capped ==> LadderPrice(base, growth, levels) == CEILING
  {
    if levels > 0 {
      CappedCost(base, growth, levels - 1);
    }
  }
}
