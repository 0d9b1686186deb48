/** backend/app/modules/purchases/landed_cost.py: landed cost per received line.

    Quantities are in 1/1000 of a base unit, purchase rates and unit costs in
    1/10000 of a rupee, values in paise, percentages in 1/100. */
module LandedCost {
  import opened Prelude
  import opened Money
  import opened Apportion

  datatype PurchaseLine = PurchaseLine(
    billedQuantity: int,
    freeQuantity: int,
    unitRate: int,
    tradeDiscount: int,
    cashDiscount: int)

  datatype LandedLine = LandedLine(
    netValue: int,
    overhead: int,
    totalValue: int,
    totalUnits: int,
    unitCost: int)

  datatype LandedResult = LandedResult(
    lines: seq<LandedLine>,
    goodsValue: int,
    totalOverhead: int,
    grandTotal: int)

  datatype LandedError =
    | NoLines
    | BadQuantity
    | BadMoney(error: MoneyError)

  /** Decimal's default rounding, ROUND_HALF_EVEN, of num / den. */
  function HalfEven(num: int, den: nat): int
    requires 0 < den
  {
    var q := num / den;
    var r := num - q * den;
    if 2 * r < den || (2 * r == den && q % 2 == 0) then q else q + 1
  }

  /** `q` is nearest to num / den, and even when two are. */
  predicate NearestEven(num: int, den: nat, q: int) {
    var off := 2 * (q * den - num);
    -(den as int) <= off <= den && (off == den || off == -(den as int) ==> q % 2 == 0)
  }

  lemma {:induction false} HalfEvenIsNearest(num: int, den: nat, q: int)
    requires 0 < den
    ensures NearestEven(num, den, q) <==> q == HalfEven(num, den)
  {
    var h := HalfEven(num, den);
    DivBounds(num, den);
    assert (num / den + 1) * den == num / den * den + den;
    assert NearestEven(num, den, h);
    if NearestEven(num, den, q) {
      if h <= q {
        NearestEvenIsOne(num, den, q, h);
      } else {
        NearestEvenIsOne(num, den, h, q);
      }
    }
  }

  lemma {:induction false} NearestEvenIsOne(num: int, den: nat, q: int, h: int)
    requires 0 < den && NearestEven(num, den, q) && NearestEven(num, den, h) && h <= q
    ensures q == h
  {
    Apart(den, q, h);
  }

  lemma {:induction false} Apart(den: nat, q: int, h: int)
    ensures q == h + 1 ==> q * den == h * den + den
    ensures h + 2 <= q ==> h * den + 2 * den <= q * den
  {
    if h + 2 <= q {
      assert 0 <= (q - (h + 2)) * den == q * den - (h + 2) * den;
      assert (h + 2) * den == h * den + 2 * den;
    }
  }

  function Gross(line: PurchaseLine): int {
    HalfUp(line.unitRate * line.billedQuantity, 100000)
  }

  function NetLineValue(line: PurchaseLine): Result<int, MoneyError> {
    var afterTrade := ApplyPercentageDiscount(Gross(line), line.tradeDiscount);
    if afterTrade.Err? then afterTrade
    else ApplyPercentageDiscount(afterTrade.value, line.cashDiscount)
  }

  predicate QuantitiesOk(line: PurchaseLine) {
    0 < line.billedQuantity && 0 <= line.freeQuantity
  }

  /** The net value of every line, provided each has one. */
  function NetValues(lines: seq<PurchaseLine>): (nets: seq<int>)
    ensures |nets| == |lines|
  {
    seq(|lines|, i requires 0 <= i < |lines| =>
      var v := NetLineValue(lines[i]); if v.Ok? then v.value else 0)
  }

  /** What the caller sees: the checks in the original's order. */
  predicate Accepted(lines: seq<PurchaseLine>) {
    && lines != []
    && (forall i :: 0 <= i < |lines| ==> QuantitiesOk(lines[i]) && NetLineValue(lines[i]).Ok?)
    && ValidWeights(NetValues(lines))
  }

  /** A line's net value in its own fields: rate times billed quantity, less the trade
      discount, less the cash discount, each to the nearest paisa. */
  ghost predicate IsNetValue(line: PurchaseLine, net: int) {
    exists gross, afterTrade ::
      && IsGross(line, gross)
      && IsDiscounted(gross, line.tradeDiscount, afterTrade)
      && IsDiscounted(afterTrade, line.cashDiscount, net)
  }

  ghost predicate IsGross(line: PurchaseLine, gross: int) {
    IsNearest(line.unitRate * line.billedQuantity, 100000, gross)
  }

  ghost predicate IsDiscounted(amount: int, percent: int, rest: int) {
    0 <= percent <= 10000 && IsNearest(amount * (10000 - percent), 10000, rest)
  }

  lemma {:induction false} DiscountIs(amount: int, percent: int, rest: int)
    ensures ApplyPercentageDiscount(amount, percent).Ok? <==> 0 <= percent <= 10000
    ensures ApplyPercentageDiscount(amount, percent) == Ok(rest) <==> IsDiscounted(amount, percent, rest)
  {
    if 0 <= percent <= 10000 {
      HalfUpExactly(amount * (10000 - percent), 10000, rest);
    }
  }

  /** Billed and free quantities make sense and the net value is not negative. */
  ghost predicate IsPurchase(line: PurchaseLine) {
    0 < line.billedQuantity && 0 <= line.freeQuantity && exists net :: 0 <= net && IsNetValue(line, net)
  }

  /** There is a net value exactly when both discounts are within 0..100 %, and then
      only one. */
  lemma {:induction false} NetValueIs(line: PurchaseLine, net: int)
    ensures NetLineValue(line).Ok? <==> 0 <= line.tradeDiscount <= 10000 && 0 <= line.cashDiscount <= 10000
    ensures NetLineValue(line) == Ok(net) <==> IsNetValue(line, net)
  {
    var gross := Gross(line);
    HalfUpExactly(line.unitRate * line.billedQuantity, 100000, gross);
    DiscountIs(gross, line.tradeDiscount, 0);
    var trade := ApplyPercentageDiscount(gross, line.tradeDiscount);
    if trade.Ok? {
      DiscountIs(gross, line.tradeDiscount, trade.value);
      DiscountIs(trade.value, line.cashDiscount, net);
    }
    hide ApplyPercentageDiscount, IsNearest, IsDiscounted, HalfUp;
    if NetLineValue(line) == Ok(net) {
      assert IsGross(line, gross) && IsDiscounted(gross, line.tradeDiscount, trade.value);
    }
    if IsNetValue(line, net) {
      OneNetValue(line, gross, net);
    }
  }

  lemma {:induction false} OneNetValue(line: PurchaseLine, gross: int, net: int)
    requires IsGross(line, gross) && IsNetValue(line, net)
    ensures ApplyPercentageDiscount(gross, line.tradeDiscount).Ok?
    ensures var afterTrade := ApplyPercentageDiscount(gross, line.tradeDiscount).value;
            ApplyPercentageDiscount(afterTrade, line.cashDiscount) == Ok(net)
  {
    hide ApplyPercentageDiscount, IsNearest, IsDiscounted;
    var g, a :| && IsGross(line, g) && IsDiscounted(g, line.tradeDiscount, a)
                && IsDiscounted(a, line.cashDiscount, net);
    NearestIsUnique(line.unitRate * line.billedQuantity, 100000, g, gross);
    DiscountIs(g, line.tradeDiscount, a);
    DiscountIs(a, line.cashDiscount, net);
  }

  /** Acceptance in the lines' own fields. */
  lemma {:induction false} AcceptedIs(lines: seq<PurchaseLine>)
    ensures Accepted(lines) <==> lines != [] && forall i :: 0 <= i < |lines| ==> IsPurchase(lines[i])
    ensures Accepted(lines) ==> forall i :: 0 <= i < |lines| ==> IsNetValue(lines[i], NetValues(lines)[i])
  {
    hide NetLineValue, IsNetValue;
    forall i | 0 <= i < |lines|
      ensures IsPurchase(lines[i])
              <==> QuantitiesOk(lines[i]) && NetLineValue(lines[i]).Ok? && 0 <= NetValues(lines)[i]
      ensures NetLineValue(lines[i]).Ok? ==> IsNetValue(lines[i], NetValues(lines)[i])
    {
      PurchaseIs(lines[i]);
      NetValueIs(lines[i], NetValues(lines)[i]);
    }
  }

  lemma {:induction false} PurchaseIs(line: PurchaseLine)
    ensures IsPurchase(line) <==> QuantitiesOk(line) && NetLineValue(line).Ok? && 0 <= NetLineValue(line).value
  {
    hide NetLineValue, IsNetValue;
    if IsPurchase(line) {
      var net :| 0 <= net && IsNetValue(line, net);
      NetValueIs(line, net);
    }
    if NetLineValue(line).Ok? {
      NetValueIs(line, NetLineValue(line).value);
    }
  }

  function Nets(lines: seq<LandedLine>): (r: seq<int>)
    ensures |r| == |lines|
  {
    seq(|lines|, i requires 0 <= i < |lines| => lines[i].netValue)
  }

  function Totals(lines: seq<LandedLine>): (r: seq<int>)
    ensures |r| == |lines|
  {
    seq(|lines|, i requires 0 <= i < |lines| => lines[i].totalValue)
  }

  /** One result line of one received line: the value is spread over billed and
      free units, to the nearest 1/10000, ties to even. */
  ghost predicate IsLandedLine(line: PurchaseLine, net: int, overhead: int, out: LandedLine) {
    && out.netValue == net && out.overhead == overhead
    && out.totalValue == net + overhead
    && out.totalUnits == line.billedQuantity + line.freeQuantity
    && 0 < out.totalUnits && NearestEven(out.totalValue * 100000, out.totalUnits, out.unitCost)
  }

  /** Not negative, nothing to spread it over, or no share to round. */
  ghost predicate SharesAddUp(overhead: int, nets: seq<int>) {
    || 0 <= overhead || Sum(nets) <= 0
    || forall i :: 0 <= i < |nets| ==> Fraction(overhead, nets[i], Sum(nets)) == 0
  }

  /** The result, from the lines' own fields and the overhead. */
  ghost predicate IsLanding(lines: seq<PurchaseLine>, overhead: int, v: LandedResult) {
    var nets := Nets(v.lines);
    && |v.lines| == |lines|
    && ValidWeights(nets) && (forall i :: 0 <= i < |lines| ==> IsNetValue(lines[i], nets[i]))
    && v.goodsValue == Sum(nets) && v.totalOverhead == overhead && v.grandTotal == v.goodsValue + overhead
    && (exists shares :: && |shares| == |nets| && IsAllocation(overhead, nets, shares)
                         && forall i :: 0 <= i < |lines| ==> IsLandedLine(lines[i], nets[i], shares[i], v.lines[i]))
    && (Sum(Totals(v.lines)) == v.grandTotal <==> SharesAddUp(overhead, nets))
  }

  method ComputeLandedCost(lines: seq<PurchaseLine>, freight: int, loading: int, otherCharges: int)
    returns (r: Result<LandedResult, LandedError>)
    ensures r.Ok? <==> lines != [] && forall i :: 0 <= i < |lines| ==> IsPurchase(lines[i])
    ensures r == Err(NoLines) <==> lines == []
    ensures r == Err(BadQuantity) <==>
              exists l :: l in lines && !(0 < l.billedQuantity && 0 <= l.freeQuantity)
    ensures r.Ok? ==> IsLanding(lines, freight + loading + otherCharges, r.value)
  {
    AcceptedIs(lines);
    hide IsNetValue, IsPurchase, NetLineValue;
    if lines == [] {
      return Err(NoLines);
    }
    if exists i :: 0 <= i < |lines| && !QuantitiesOk(lines[i]) {
      return Err(BadQuantity);
    }
    var bad := FirstBad(lines);
    if bad.Some? {
      return Err(BadMoney(bad.value));
    }
    var nets := NetValues(lines);
    var goods := Sum(nets);
    var overhead := freight + loading + otherCharges;
    var shares := Allocate(overhead, nets);
    if shares.Err? {
      return Err(BadMoney(shares.error));
    }
    hide IsAllocation, Sum, SharesAddUp;
    var out := [];
    for i := 0 to |lines|
      invariant |out| == i
      invariant forall k :: 0 <= k < i ==> IsLandedLine(lines[k], nets[k], shares.value[k], out[k])
    {
      var units := lines[i].billedQuantity + lines[i].freeQuantity;
      var landed := nets[i] + shares.value[i];
      var unitCost := HalfEven(landed * 100000, units);
      HalfEvenIsNearest(landed * 100000, units, unitCost);
      out := out + [LandedLine(nets[i], shares.value[i], landed, units, unitCost)];
    }
    LandedAddsUp(overhead, nets, shares.value, Totals(out));
    assert Nets(out) == nets;
    r := Ok(LandedResult(out, goods, overhead, goods + overhead));
  }

  /** The first line whose discounts are refused, as the comprehension meets it. */
  method FirstBad(lines: seq<PurchaseLine>) returns (bad: Option<MoneyError>)
    ensures bad.None? <==> forall i :: 0 <= i < |lines| ==> NetLineValue(lines[i]).Ok?
  {
    for i := 0 to |lines|
      invariant forall k :: 0 <= k < i ==> NetLineValue(lines[k]).Ok?
    {
      var v := NetLineValue(lines[i]);
      if v.Err? {
        return Some(v.error);
      }
    }
    return None;
  }

  /** Landed totals are goods plus overhead exactly when the overhead's shares add up. */
  lemma {:induction false} LandedAddsUp(overhead: int, nets: seq<int>, shares: seq<int>, totals: seq<int>)
    requires ValidWeights(nets) && IsAllocation(overhead, nets, shares) && |totals| == |nets| == |shares|
    requires forall i :: 0 <= i < |totals| ==> totals[i] == nets[i] + shares[i]
    ensures Sum(totals) == Sum(nets) + overhead <==> SharesAddUp(overhead, nets)
  {
    hide IsAllocation, Fraction;
    SumPointwise(totals, nets, shares);
    SumsToTotal(overhead, nets, shares);
  }

  lemma {:induction false} SumPointwise(s: seq<int>, t: seq<int>, u: seq<int>)
    requires |s| == |t| == |u| && forall i :: 0 <= i < |s| ==> s[i] == t[i] + u[i]
    ensures Sum(s) == Sum(t) + Sum(u)
  {
    if s != [] {
      SumPointwise(s[..|s| - 1], t[..|s| - 1], u[..|s| - 1]);
    }
  }
}
