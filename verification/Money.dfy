/** backend/app/common/money/decimal.py: rounding, discounts and GST splits.

    Money is an integer number of paise. A percentage `p` is a pair `g / unit`,
    so `unit` paise attract `g` paise of tax; percentages stored with two
    decimals use `unit == PERCENT`. A Decimal division is an exact rational
    followed by one rounding. */
module Money {
  import opened Prelude

  const PERCENT: nat := 10000

  datatype MoneyError =
    | DiscountOutOfRange
    | NegativeRate
    | NoWeights
    | NegativeWeight

  /** ROUND_HALF_UP of the rational num / den: ties go away from zero. */
  function HalfUp(num: int, den: nat): (r: int)
    requires 0 < den
  {
    if 0 <= num then (2 * num + den) / (2 * den) else -((2 * -num + den) / (2 * den))
  }

  /** What half-up means: nearest integer, and a tie moves away from zero. */
  ghost predicate IsNearest(num: int, den: nat, r: int) {
    && -(den as int) <= 2 * (r * den - num) <= den
    && (2 * (r * den - num) == den ==> 0 <= num)
    && (2 * (r * den - num) == -(den as int) ==> num <= 0)
  }

  lemma {:induction false} DivBounds(x: int, k: int)
    requires 0 < k
    ensures x / k * k <= x < x / k * k + k
  {
  }

  lemma {:induction false} HalfUpIsNearest(num: int, den: nat)
    requires 0 < den
    ensures IsNearest(num, den, HalfUp(num, den))
  {
    var n := if 0 <= num then num else -num;
    var q := (2 * n + den) / (2 * den);
    DivBounds(2 * n + den, 2 * den);
    assert q * (2 * den) == 2 * (q * den);
    assert -q * den == -(q * den);
  }

  lemma {:induction false} Scale(a: int, b: int, k: int)
    requires a <= b && 0 <= k
    ensures a * k <= b * k
  {
    assert (b - a) * k >= 0;
    assert (b - a) * k == b * k - a * k;
  }

  lemma {:induction false} Separate(a: int, b: int, k: int)
    requires a < b && 0 <= k
    ensures a * k + k <= b * k
  {
    Scale(a + 1, b, k);
    assert (a + 1) * k == a * k + k;
  }

  lemma {:induction false} NearestIsUnique(num: int, den: nat, r: int, s: int)
    requires 0 < den && IsNearest(num, den, r) && IsNearest(num, den, s)
    ensures r == s
  {
    if r < s {
      Separate(r, s, den);
    } else if s < r {
      Separate(s, r, den);
    }
  }

  /** The specification determines the value: anything nearest is the half-up. */
  lemma {:induction false} HalfUpExactly(num: int, den: nat, r: int)
    requires 0 < den
    ensures r == HalfUp(num, den) <==> IsNearest(num, den, r)
  {
    HalfUpIsNearest(num, den);
    if IsNearest(num, den, r) {
      NearestIsUnique(num, den, r, HalfUp(num, den));
    }
  }

  lemma {:induction false} HalfUpMonotone(a: int, b: int, den: nat)
    requires 0 < den && a <= b
    ensures HalfUp(a, den) <= HalfUp(b, den)
  {
    HalfUpIsNearest(a, den);
    HalfUpIsNearest(b, den);
    var r, s := HalfUp(a, den), HalfUp(b, den);
    if s < r {
      Separate(s, r, den);
    }
  }

  lemma {:induction false} HalfUpOfWhole(n: int, den: nat)
    requires 0 < den
    ensures HalfUp(n * den, den) == n
  {
    HalfUpExactly(n * den, den, n);
  }

  function ApplyPercentageDiscount(amount: int, percent: int): Result<int, MoneyError> {
    if percent < 0 || PERCENT < percent then Err(DiscountOutOfRange)
    else Ok(HalfUp(amount * (PERCENT - percent), PERCENT))
  }

  /** A discount is refused exactly outside 0..100 %, never raises a
      non-negative amount, never makes it negative, and a deeper discount
      never leaves more to pay. */
  lemma {:induction false} DiscountBounds(amount: nat, percent: int, deeper: int)
    requires percent <= deeper
    ensures ApplyPercentageDiscount(amount, percent).Ok? <==> 0 <= percent <= PERCENT
    ensures 0 <= percent && deeper <= PERCENT ==>
              0 <= ApplyPercentageDiscount(amount, deeper).value
                <= ApplyPercentageDiscount(amount, percent).value <= amount
  {
    if 0 <= percent && deeper <= PERCENT {
      Scale(0, PERCENT - deeper, amount);
      Scale(PERCENT - deeper, PERCENT - percent, amount);
      Scale(PERCENT - percent, PERCENT, amount);
      HalfUpMonotone(0 * PERCENT, amount * (PERCENT - deeper), PERCENT);
      HalfUpMonotone(amount * (PERCENT - deeper), amount * (PERCENT - percent), PERCENT);
      HalfUpMonotone(amount * (PERCENT - percent), amount * PERCENT, PERCENT);
      HalfUpOfWhole(0, PERCENT);
      HalfUpOfWhole(amount, PERCENT);
    }
  }

  function TaxOnExclusive(amount: int, g: int, unit: nat): Result<int, MoneyError>
    requires 0 < unit
  {
    if g < 0 then Err(NegativeRate) else Ok(HalfUp(amount * g, unit))
  }

  /** (net, tax) of a tax-inclusive gross. */
  function SplitTaxFromInclusive(gross: int, g: int, unit: nat): Result<(int, int), MoneyError>
    requires 0 < unit
  {
    if g < 0 then Err(NegativeRate)
    else
      var net := HalfUp(gross * unit, unit + g);
      Ok((net, gross - net))
  }

  /** Adding tax to a net and splitting the result returns that net and that
      tax, for every rate and every amount. */
  lemma {:induction false} TaxRoundTrip(net: int, g: nat, unit: nat)
    requires 0 < unit
    ensures var tax := TaxOnExclusive(net, g, unit).value;
            SplitTaxFromInclusive(net + tax, g, unit) == Ok((net, tax))
  {
    hide HalfUp, IsNearest;
    var tax := HalfUp(net * g, unit);
    HalfUpIsNearest(net * g, unit);
    if g == 0 {
      HalfUpOfWhole(0, unit);
      assert net * g == 0 * unit;
    }
    NearestBack(net, tax, g, unit);
    HalfUpExactly((net + tax) * unit, unit + g, net);
  }

  lemma {:induction false} NearestBack(net: int, tax: int, g: nat, unit: nat)
    requires 0 < unit && IsNearest(net * g, unit, tax) && (g == 0 ==> tax == 0)
    ensures IsNearest((net + tax) * unit, unit + g, net)
  {
    assert (net + tax) * unit == net * unit + tax * unit;
    assert net * (unit + g) == net * unit + net * g;
  }

  /** Net and tax of an inclusive price always add back to it, and neither is
      negative when the price is not. */
  lemma {:induction false} SplitReconstitutes(gross: int, g: nat, unit: nat)
    requires 0 < unit
    ensures var r := SplitTaxFromInclusive(gross, g, unit);
            r.Ok? && r.value.0 + r.value.1 == gross
            && (0 <= gross ==> 0 <= r.value.0 && 0 <= r.value.1)
  {
    if 0 <= gross {
      Scale(unit, unit + g, gross);
      HalfUpMonotone(0 * (unit + g), gross * unit, unit + g);
      HalfUpMonotone(gross * unit, gross * (unit + g), unit + g);
      HalfUpOfWhole(0, unit + g);
      HalfUpOfWhole(gross, unit + g);
    }
  }

  /** Up to 100 %, the tax taken out of an inclusive price and the tax the
      exclusive rule charges on its net differ by at most one paisa. */
  lemma {:induction false} InclusiveNearExclusive(gross: int, g: nat, unit: nat)
    requires 0 < unit && g <= unit
    ensures var (net, tax) := SplitTaxFromInclusive(gross, g, unit).value;
            -1 <= tax - TaxOnExclusive(net, g, unit).value <= 1
  {
    hide HalfUp;
    var net := HalfUp(gross * unit, unit + g);
    var tax := gross - net;
    var again := HalfUp(net * g, unit);
    HalfUpIsNearest(gross * unit, unit + g);
    HalfUpIsNearest(net * g, unit);
    // unit * tax - net * g is the first rounding error, at most (unit + g) / 2.
    assert net * (unit + g) == net * unit + net * g;
    assert tax * unit == gross * unit - net * unit;
    WithinOne(tax, again, net * g, unit);
  }

  lemma {:induction false} WithinOne(a: int, b: int, p: int, unit: nat)
    requires 0 < unit
    requires -(unit as int) <= p - a * unit <= unit
    requires -(unit as int) <= 2 * (b * unit - p) <= unit
    ensures -1 <= a - b <= 1
  {
    assert (a - b) * unit == a * unit - b * unit;
    if 2 <= a - b {
      Scale(2, a - b, unit);
    } else if a - b <= -2 {
      Scale(a - b, -2, unit);
    }
  }
}
