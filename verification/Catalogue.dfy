/** Product and customer rows as a sale or an order reads them, and the totals of a
    priced cart (sales/service.py:122-166, 222-283, wholesale_service.py:128-172). */
module Catalogue {
  import opened Prelude
  import opened Stock
  import opened StockLines
  import opened Money
  import opened Pricing

  /** Prices in paise, GST in 1/100 %; the catalogue endpoint keeps them
      non-negative. */
  datatype Product = Product(retailPrice: nat, mrp: nat, wholesalePrice: nat, gst: nat)

  /** A limit of zero or less means no limit. */
  datatype Customer = Customer(creditLimit: int)

  datatype CartLine = CartLine(product: Id, quantity: int, discount: int)

  /** The wholesale channel prefers the wholesale price from one unit up; the
      counter never uses it. */
  datatype Channel = Counter | Dealer

  function InputOf(p: Product, l: CartLine, channel: Channel): PriceInput {
    PriceInput(l.quantity, p.retailPrice, p.mrp, Some(p.wholesalePrice),
               if channel.Dealer? then Some(1000) else None, None, None, [], p.gst, false, l.discount)
  }

  function PriceOf(products: map<Id, Product>, l: CartLine, channel: Channel): Option<PriceResult> {
    if l.product !in products then None
    else
      var r := PriceLine(InputOf(products[l.product], l, channel));
      if r.Ok? then Some(r.value) else None
  }

  predicate Known(products: map<Id, Product>, lines: seq<CartLine>) {
    forall i :: 0 <= i < |lines| ==> lines[i].product in products
  }

  /** A cart every line of which can be priced. */
  predicate CartOk(products: map<Id, Product>, lines: seq<CartLine>) {
    forall i :: 0 <= i < |lines| ==>
      lines[i].product in products && 0 < lines[i].quantity && 0 <= lines[i].discount <= PERCENT
  }

  datatype Totals = Totals(subtotal: int, tax: int, grand: int)

  /** The running totals; an unpriceable line adds nothing. */
  function CartTotals(products: map<Id, Product>, lines: seq<CartLine>, channel: Channel): Totals {
    if lines == [] then Totals(0, 0, 0)
    else
      var rest := CartTotals(products, lines[..|lines| - 1], channel);
      AddLine(rest, PriceOf(products, lines[|lines| - 1], channel))
  }

  function AddLine(t: Totals, price: Option<PriceResult>): Totals {
    match price
    case None => t
    case Some(p) => Totals(t.subtotal + p.net, t.tax + p.tax, t.grand + p.total)
  }

  function LinesOf(lines: seq<CartLine>): (r: seq<Line>)
    ensures |r| == |lines|
    ensures forall i :: 0 <= i < |lines| ==> r[i] == Line(lines[i].product, lines[i].quantity)
  {
    if lines == [] then []
    else LinesOf(lines[..|lines| - 1]) + [Line(lines[|lines| - 1].product, lines[|lines| - 1].quantity)]
  }

  /** What one price looks like from the outside. */
  lemma {:induction false} PricedLineOk(products: map<Id, Product>, l: CartLine, channel: Channel)
    ensures PriceOf(products, l, channel).Some?
            <==> l.product in products && 0 < l.quantity && 0 <= l.discount <= PERCENT
    ensures PriceOf(products, l, channel).Some? ==>
              var p := PriceOf(products, l, channel).value;
              && 0 <= p.net && 0 <= p.tax && p.total == p.net + p.tax && (p.net == 0 ==> p.total == 0)
  {
    if l.product in products {
      hide PriceLine;
      PricedLine(InputOf(products[l.product], l, channel));
    }
  }

  /** A cart's totals add up, are never negative, and tax is charged only on
      something. */
  lemma {:induction false} CartTotalsAddUp(products: map<Id, Product>, lines: seq<CartLine>, channel: Channel)
    ensures var t := CartTotals(products, lines, channel);
            && 0 <= t.subtotal && 0 <= t.tax && t.grand == t.subtotal + t.tax
            && (t.subtotal == 0 ==> t.grand == 0)
  {
    if lines != [] {
      CartTotalsAddUp(products, lines[..|lines| - 1], channel);
      hide PriceOf;
      PricedLineOk(products, lines[|lines| - 1], channel);
    }
  }

  /** One more line of a cart. */
  lemma {:induction false} CartNext(products: map<Id, Product>, lines: seq<CartLine>, i: nat, channel: Channel)
    requires i < |lines|
    ensures CartTotals(products, lines[..i + 1], channel)
         == AddLine(CartTotals(products, lines[..i], channel), PriceOf(products, lines[i], channel))
    ensures CartOk(products, lines[..i + 1])
            <==> CartOk(products, lines[..i]) && PriceOf(products, lines[i], channel).Some?
    ensures PriceOf(products, lines[i], channel).None? ==> !CartOk(products, lines)
    ensures PriceOf(products, lines[i], channel).Some? ==> 0 < lines[i].quantity
  {
    PricedLineOk(products, lines[i], channel);
    hide PriceOf, AddLine;
    var more := lines[..i + 1];
    assert more[..i] == lines[..i] && more == lines[..i] + [lines[i]];
  }

  lemma {:induction false} CartPositive(products: map<Id, Product>, lines: seq<CartLine>)
    requires CartOk(products, lines)
    ensures AllPositive(LinesOf(lines))
  {
  }

  // --- What a cart is charged, in the rows' own prices ----------------------------------------

  /** The counter charges the retail price, or the MRP where there is none; a dealer the
      wholesale price from one unit up. */
  function ListPrice(p: Product, quantity: int, channel: Channel): int {
    if channel.Dealer? && 1000 <= quantity then p.wholesalePrice
    else if 0 < p.retailPrice then p.retailPrice
    else p.mrp
  }

  /** The figures of one line: price times quantity, less the discount, plus GST, each to
      the nearest paisa. */
  ghost predicate IsCharge(p: Product, l: CartLine, channel: Channel, unitPrice: int, net: int, tax: int, total: int) {
    && unitPrice == ListPrice(p, l.quantity, channel)
    && (exists gross :: && IsNearest(unitPrice * l.quantity, 1000, gross)
                        && IsNearest(gross * (10000 - l.discount), 10000, net))
    && IsNearest(net * p.gst, 10000, tax)
    && total == net + tax
  }

  ghost predicate ChargesLine(products: map<Id, Product>, l: CartLine, channel: Channel, net: int, tax: int) {
    l.product in products
    && var p := products[l.product];
       IsCharge(p, l, channel, ListPrice(p, l.quantity, channel), net, tax, net + tax)
  }

  /** The totals of a cart are the sums of its lines' figures. */
  ghost predicate IsCartCharge(products: map<Id, Product>, lines: seq<CartLine>, channel: Channel, t: Totals) {
    exists nets: seq<int>, taxes: seq<int> ::
      && |nets| == |taxes| == |lines|
      && (forall i :: 0 <= i < |lines| ==> ChargesLine(products, lines[i], channel, nets[i], taxes[i]))
      && t == Totals(Sum(nets), Sum(taxes), Sum(nets) + Sum(taxes))
  }

  lemma {:induction false} LineIsCharged(products: map<Id, Product>, l: CartLine, channel: Channel)
    requires PriceOf(products, l, channel).Some?
    ensures var p := PriceOf(products, l, channel).value;
            && IsCharge(products[l.product], l, channel, p.unitPrice, p.net, p.tax, p.total)
            && ChargesLine(products, l, channel, p.net, p.tax)
  {
    var input := InputOf(products[l.product], l, channel);
    PricedLineRounds(input);
    PricedLineOk(products, l, channel);
    PriceIsListed(products[l.product], l, channel);
    var p := PriceLine(input).value;
    hide IsNearest, PriceLine, ListPrice, InputOf;
    assert IsCharge(products[l.product], l, channel, p.unitPrice, p.net, p.tax, p.total);
  }

  lemma {:induction false} PriceIsListed(p: Product, l: CartLine, channel: Channel)
    requires PriceLine(InputOf(p, l, channel)).Ok?
    ensures var input := InputOf(p, l, channel);
            && PriceLine(input).value.unitPrice == ListPrice(p, l.quantity, channel)
            && input.quantity == l.quantity && input.discount == l.discount && input.gst == p.gst && !input.taxInclusive
  {
    hide HalfUp;
  }

  lemma {:induction false} CartIsCharged(products: map<Id, Product>, lines: seq<CartLine>, channel: Channel)
    requires CartOk(products, lines)
    ensures IsCartCharge(products, lines, channel, CartTotals(products, lines, channel))
  {
    var nets, taxes := CartFigures(products, lines, channel);
  }

  lemma {:induction false} CartFigures(products: map<Id, Product>, lines: seq<CartLine>, channel: Channel)
    returns (nets: seq<int>, taxes: seq<int>)
    requires CartOk(products, lines)
    ensures |nets| == |taxes| == |lines|
    ensures forall i :: 0 <= i < |lines| ==> ChargesLine(products, lines[i], channel, nets[i], taxes[i])
    ensures CartTotals(products, lines, channel) == Totals(Sum(nets), Sum(taxes), Sum(nets) + Sum(taxes))
  {
    if lines == [] {
      nets, taxes := [], [];
    } else {
      var n := |lines| - 1;
      var front, ends := CartFigures(products, lines[..n], channel);
      PricedLineOk(products, lines[n], channel);
      LineIsCharged(products, lines[n], channel);
      hide PriceOf, ChargesLine, IsCharge;
      var p := PriceOf(products, lines[n], channel).value;
      nets, taxes := front + [p.net], ends + [p.tax];
      assert nets[..n] == front && taxes[..n] == ends;
    }
  }
}
