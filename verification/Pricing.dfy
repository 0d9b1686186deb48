/** backend/app/modules/pricing/engine.py: the price of one line.

    Prices are whole paise, quantities 1/1000 of a base unit, percentages 1/100. */
module Pricing {
  import opened Prelude
  import opened Money

  datatype PriceSource = Contract | CustomerPriceList | QuantitySlab | Wholesale | Retail | Mrp

  datatype Slab = Slab(minQuantity: int, unitPrice: int)

  datatype PriceInput = PriceInput(
    quantity: int,
    retailPrice: int,
    mrp: int,
    wholesalePrice: Option<int>,
    minWholesaleQuantity: Option<int>,
    contractPrice: Option<int>,
    priceListPrice: Option<int>,
    slabs: seq<Slab>,
    gst: int,
    taxInclusive: bool,
    discount: int)

  datatype PriceResult = PriceResult(
    unitPrice: int,
    source: PriceSource,
    gross: int,
    discountAmount: int,
    net: int,
    tax: int,
    total: int)

  datatype PriceError = NonPositiveQuantity | BadMoney(error: MoneyError)

  /** `i` is the slab `max(eligible, key=min_quantity)` picks: eligible, of the
      highest threshold, and the first of those. */
  ghost predicate IsBestSlab(slabs: seq<Slab>, quantity: int, i: nat) {
    && i < |slabs| && slabs[i].minQuantity <= quantity
    && (forall j :: 0 <= j < |slabs| && slabs[j].minQuantity <= quantity ==>
          slabs[j].minQuantity <= slabs[i].minQuantity)
    && (forall j :: 0 <= j < i && slabs[j].minQuantity <= quantity ==>
          slabs[j].minQuantity < slabs[i].minQuantity)
  }

  function BestSlab(slabs: seq<Slab>, quantity: int): (best: Option<nat>)
    ensures best.None? <==> forall j :: 0 <= j < |slabs| ==> quantity < slabs[j].minQuantity
    ensures best.Some? ==> IsBestSlab(slabs, quantity, best.value)
  {
    if slabs == [] then None
    else
      var n := |slabs| - 1;
      var rest := BestSlab(slabs[..n], quantity);
      if slabs[n].minQuantity <= quantity
         && (rest.None? || slabs[rest.value].minQuantity < slabs[n].minQuantity) then Some(n)
      else rest
  }

  function ResolveUnitPrice(data: PriceInput): (int, PriceSource) {
    if data.contractPrice.Some? then (data.contractPrice.value, Contract)
    else if data.priceListPrice.Some? then (data.priceListPrice.value, CustomerPriceList)
    else
      var slab := BestSlab(data.slabs, data.quantity);
      if slab.Some? then (data.slabs[slab.value].unitPrice, QuantitySlab)
      else if data.wholesalePrice.Some? && data.minWholesaleQuantity.Some?
              && data.minWholesaleQuantity.value <= data.quantity then (data.wholesalePrice.value, Wholesale)
      else if 0 < data.retailPrice then (data.retailPrice, Retail)
      else (data.mrp, Mrp)
  }

  /** What each source would charge, where it applies at all. */
  function Offer(data: PriceInput, source: PriceSource): Option<int> {
    match source
    case Contract => data.contractPrice
    case CustomerPriceList => data.priceListPrice
    case QuantitySlab =>
      var slab := BestSlab(data.slabs, data.quantity);
      if slab.Some? then Some(data.slabs[slab.value].unitPrice) else None
    case Wholesale =>
      if data.minWholesaleQuantity.Some? && data.minWholesaleQuantity.value <= data.quantity
      then data.wholesalePrice else None
    case Retail => if 0 < data.retailPrice then Some(data.retailPrice) else None
    case Mrp => Some(data.mrp)
  }

  function Rank(source: PriceSource): nat {
    match source
    case Contract => 0
    case CustomerPriceList => 1
    case QuantitySlab => 2
    case Wholesale => 3
    case Retail => 4
    case Mrp => 5
  }

  /** The price is that of the first source, in rank, that applies. */
  lemma {:induction false} FirstSourceWins(data: PriceInput, other: PriceSource)
    ensures var (price, source) := ResolveUnitPrice(data);
            && Offer(data, source) == Some(price)
            && (Rank(other) < Rank(source) ==> Offer(data, other).None?)
  {
  }

  function PriceLine(data: PriceInput): Result<PriceResult, PriceError> {
    if data.quantity <= 0 then Err(NonPositiveQuantity)
    else
      var (unitPrice, source) := ResolveUnitPrice(data);
      var gross := HalfUp(unitPrice * data.quantity, 1000);
      var discounted := ApplyPercentageDiscount(gross, data.discount);
      if discounted.Err? then Err(BadMoney(discounted.error))
      else if data.taxInclusive then
        var split := SplitTaxFromInclusive(discounted.value, data.gst, PERCENT);
        if split.Err? then Err(BadMoney(split.error))
        else Ok(PriceResult(unitPrice, source, gross, gross - discounted.value, split.value.0, split.value.1,
                            split.value.0 + split.value.1))
      else
        var tax := TaxOnExclusive(discounted.value, data.gst, PERCENT);
        if tax.Err? then Err(BadMoney(tax.error))
        else Ok(PriceResult(unitPrice, source, gross, gross - discounted.value, discounted.value, tax.value,
                            discounted.value + tax.value))
  }

  predicate PricesNonNegative(data: PriceInput) {
    && 0 <= data.retailPrice && 0 <= data.mrp
    && (data.wholesalePrice.Some? ==> 0 <= data.wholesalePrice.value)
    && (data.contractPrice.Some? ==> 0 <= data.contractPrice.value)
    && (data.priceListPrice.Some? ==> 0 <= data.priceListPrice.value)
    && (forall i :: 0 <= i < |data.slabs| ==> 0 <= data.slabs[i].unitPrice)
  }

  /** Every figure is the nearest paisa to what it stands for. */
  ghost predicate Rounded(data: PriceInput, p: PriceResult) {
    var afterDiscount := p.gross - p.discountAmount;
    && IsNearest(p.unitPrice * data.quantity, 1000, p.gross)
    && IsNearest(p.gross * (PERCENT - data.discount), PERCENT, afterDiscount)
    && (data.taxInclusive ==> 0 <= data.gst && IsNearest(afterDiscount * PERCENT, PERCENT + data.gst, p.net))
    && (!data.taxInclusive ==> IsNearest(p.net * data.gst, PERCENT, p.tax))
  }

  lemma {:induction false} PricedLineRounds(data: PriceInput)
    requires PriceLine(data).Ok?
    ensures Rounded(data, PriceLine(data).value)
  {
    hide HalfUp, IsNearest, ResolveUnitPrice;
    var p := PriceLine(data).value;
    var net := p.gross - p.discountAmount;
    HalfUpIsNearest(p.unitPrice * data.quantity, 1000);
    HalfUpIsNearest(p.gross * (PERCENT - data.discount), PERCENT);
    if data.taxInclusive {
      HalfUpIsNearest(net * PERCENT, PERCENT + data.gst);
    } else {
      HalfUpIsNearest(net * data.gst, PERCENT);
    }
  }

  /** A priced line never shows a negative figure, its total is net plus tax, an
      inclusive line costs what the shelf said after the discount, and an
      exclusive line is charged tax only on something. */
  lemma {:induction false} PricedLine(data: PriceInput)
    requires PricesNonNegative(data)
    ensures PriceLine(data).Ok? <==> 0 < data.quantity && 0 <= data.discount <= PERCENT && 0 <= data.gst
    ensures PriceLine(data).Ok? ==>
              var p := PriceLine(data).value;
              && 0 <= p.net && 0 <= p.tax && 0 <= p.discountAmount
              && p.total == p.net + p.tax
              && (data.taxInclusive ==> p.total == p.gross - p.discountAmount)
              && (!data.taxInclusive ==> p.net == p.gross - p.discountAmount && (p.net == 0 ==> p.total == 0))
  {
    if 0 < data.quantity && 0 <= data.discount <= PERCENT && 0 <= data.gst {
      var (unitPrice, source) := ResolveUnitPrice(data);
      Scale(0, unitPrice, data.quantity);
      HalfUpMonotone(0, unitPrice * data.quantity, 1000);
      var gross := HalfUp(unitPrice * data.quantity, 1000);
      DiscountBounds(gross, data.discount, data.discount);
      var net := ApplyPercentageDiscount(gross, data.discount).value;
      SplitReconstitutes(net, data.gst, PERCENT);
      Scale(0, data.gst, net);
      HalfUpMonotone(0, net * data.gst, PERCENT);
    }
  }
}
