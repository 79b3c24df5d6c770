/**
 * Base order prices (`saleor/order/base_calculations.py`): the subtotal and
 * total of an order, the per-line totals, and the application of the
 * order-level discounts (entire-order and shipping vouchers, staff
 * discounts) to the subtotal, to shipping and, when prices are
 * overridden, back onto the lines.
 *
 * Each line and each order discount is an object whose fields the code
 * updates in place; every method is proved against a function on the
 * fields' values.
 */
module OrderCalculations {
  import opened Wrappers
  import opened Prices
  import opened DiscountRecords

  /** `VoucherType` */
  datatype VoucherType = EntireOrder | Shipping | SpecificProduct

  predicate Distinct<T(==)>(s: seq<T>) {
    forall i, j :: 0 <= i < j < |s| ==> s[i] != s[j]
  }

  // ---------------------------------------------------------------- lines

  /** The price fields of an order line (all amounts net = gross here). */
  datatype LineState = LineState(
    quantity: int,
    baseUnitPrice: real,
    undiscountedBaseUnitPrice: real,
    undiscountedTotalNet: real,
    totalNet: real,
    totalGross: real,
    unitNet: real,
    unitGross: real,
    unitDiscount: real)

  class OrderLine {
    var quantity: int
    var baseUnitPrice: real
    var undiscountedBaseUnitPrice: real
    var undiscountedTotalNet: real
    var totalNet: real
    var totalGross: real
    var unitNet: real
    var unitGross: real
    var unitDiscount: real

    function State(): LineState
      reads this
    {
      LineState(quantity, baseUnitPrice, undiscountedBaseUnitPrice, undiscountedTotalNet,
                totalNet, totalGross, unitNet, unitGross, unitDiscount)
    }

    constructor (s: LineState)
      ensures State() == s
    {
      quantity, baseUnitPrice, undiscountedBaseUnitPrice := s.quantity, s.baseUnitPrice, s.undiscountedBaseUnitPrice;
      undiscountedTotalNet, totalNet, totalGross := s.undiscountedTotalNet, s.totalNet, s.totalGross;
      unitNet, unitGross, unitDiscount := s.unitNet, s.unitGross, s.unitDiscount;
    }
  }

  /** The states of a list of lines, position by position. */
  function States(lines: seq<OrderLine>): (r: seq<LineState>)
    reads set l | l in lines
    ensures |r| == |lines| && forall j :: 0 <= j < |lines| ==> r[j] == lines[j].State()
  {
    seq(|lines|, j requires 0 <= j < |lines| reads lines => lines[j].State())
  }

  /** A `TaxedMoney`. */
  datatype TaxedMoney = TaxedMoney(net: real, gross: real)

  /** `OrderTaxedPricesData` */
  datatype OrderTaxedPricesData = OrderTaxedPricesData(undiscountedPrice: TaxedMoney, priceWithDiscounts: TaxedMoney)

  /** `base_order_line_total`: the unit prices (as net = gross) times the quantity. */
  function BaseOrderLineTotal(p: LineState): OrderTaxedPricesData {
    var q := p.quantity as real;
    OrderTaxedPricesData(
      TaxedMoney(p.undiscountedBaseUnitPrice * q, p.undiscountedBaseUnitPrice * q),
      TaxedMoney(p.baseUnitPrice * q, p.baseUnitPrice * q))
  }

  /**
   * A line's two prices have net equal to gross, and the undiscounted one
   * exceeds the discounted one by the unit-price difference times the
   * quantity; so it is never lower when the unit price is not above the
   * undiscounted unit price.
   */
  lemma LineTotalDiscount(p: LineState)
    ensures var r := BaseOrderLineTotal(p);
            r.undiscountedPrice.net == r.undiscountedPrice.gross && r.priceWithDiscounts.net == r.priceWithDiscounts.gross &&
            r.undiscountedPrice.net - r.priceWithDiscounts.net ==
              (p.undiscountedBaseUnitPrice - p.baseUnitPrice) * p.quantity as real
    ensures p.quantity >= 0 && p.baseUnitPrice <= p.undiscountedBaseUnitPrice ==>
              BaseOrderLineTotal(p).priceWithDiscounts.net <= BaseOrderLineTotal(p).undiscountedPrice.net
  {
    if p.quantity >= 0 && p.baseUnitPrice <= p.undiscountedBaseUnitPrice {
      MultiplyMonotone(p.quantity as real, p.baseUnitPrice, p.undiscountedBaseUnitPrice);
    }
  }

  /** `base_unit_price * quantity` summed over the lines, first to last. */
  function LinesSum(ps: seq<LineState>): real {
    if ps == [] then 0.0
    else LinesSum(ps[..|ps| - 1]) + ps[|ps| - 1].baseUnitPrice * ps[|ps| - 1].quantity as real
  }

  /**
   * The subtotal is the sum of the lines' discounted totals, and a line's
   * discounted total never exceeds its undiscounted one when its unit price
   * does not.
   */
  lemma {:induction false} LinesSumOfLineTotals(ps: seq<LineState>)
    ensures LinesSum(ps) == SumWithDiscounts(ps)
    ensures (forall p | p in ps :: p.quantity >= 0 && p.baseUnitPrice <= p.undiscountedBaseUnitPrice) ==>
              LinesSum(ps) <= SumUndiscounted(ps)
  {
    if ps != [] {
      var init := ps[..|ps| - 1];
      var last := ps[|ps| - 1];
      LinesSumOfLineTotals(init);
      assert (forall p | p in ps :: p.quantity >= 0 && p.baseUnitPrice <= p.undiscountedBaseUnitPrice) ==>
               (forall p | p in init :: p in ps) &&
               last.baseUnitPrice * last.quantity as real <= last.undiscountedBaseUnitPrice * last.quantity as real;
    }
  }

  function SumWithDiscounts(ps: seq<LineState>): real {
    if ps == [] then 0.0
    else SumWithDiscounts(ps[..|ps| - 1]) + BaseOrderLineTotal(ps[|ps| - 1]).priceWithDiscounts.net
  }

  function SumUndiscounted(ps: seq<LineState>): real {
    if ps == [] then 0.0
    else SumUndiscounted(ps[..|ps| - 1]) + BaseOrderLineTotal(ps[|ps| - 1]).undiscountedPrice.net
  }

  /** With non-negative prices and quantities the sum is non-negative. */
  lemma {:induction false} LinesSumNonNegative(ps: seq<LineState>)
    requires forall p | p in ps :: p.quantity >= 0 && p.baseUnitPrice >= 0.0
    ensures LinesSum(ps) >= 0.0
  {
    if ps != [] {
      assert forall p | p in ps[..|ps| - 1] :: p in ps;
      LinesSumNonNegative(ps[..|ps| - 1]);
    }
  }

  /** `base_order_subtotal`: the quantized sum of `base_unit_price * quantity`. */
  method BaseOrderSubtotal(lines: seq<OrderLine>) returns (subtotal: real)
    ensures subtotal == Quantize(LinesSum(States(lines)))
    ensures IsQuantized(subtotal)
  {
    ghost var ps := States(lines);
    var sum := 0.0;
    var i := 0;
    while i < |lines|
      invariant i <= |lines|
      invariant sum == LinesSum(ps[..i])
    {
      assert ps[..i + 1][..i] == ps[..i];
      sum := sum + lines[i].baseUnitPrice * lines[i].quantity as real;
      i := i + 1;
    }
    assert ps[..i] == ps;
    subtotal := Quantize(sum);
  }

  // --------------------------------------------------------------- orders

  /** The settings of an `OrderDiscount` that drive its application. */
  datatype OrderDiscountInfo = OrderDiscountInfo(
    discountType: DiscountType,
    voucherType: Option<VoucherType>,
    value: real,
    valueType: DiscountValueType)

  /** An `OrderDiscount`; only its amount is recomputed. */
  class OrderDiscount {
    const discountType: DiscountType
    const voucherType: Option<VoucherType>
    const value: real
    const valueType: DiscountValueType
    var amount: real

    function Info(): OrderDiscountInfo {
      OrderDiscountInfo(discountType, voucherType, value, valueType)
    }

    constructor (info: OrderDiscountInfo, amount: real)
      ensures Info() == info && this.amount == amount
    {
      discountType, voucherType, value, valueType := info.discountType, info.voucherType, info.value, info.valueType;
      this.amount := amount;
    }
  }

  function Infos(ds: seq<OrderDiscount>): (r: seq<OrderDiscountInfo>)
    ensures |r| == |ds| && forall j :: 0 <= j < |ds| ==> r[j] == ds[j].Info()
  {
    seq(|ds|, j requires 0 <= j < |ds| => ds[j].Info())
  }

  class Order {
    const discounts: seq<OrderDiscount>
    const baseShippingPrice: real
    var shippingPriceNet: real
    var shippingPriceGross: real
    var totalNet: real
    var totalGross: real

    constructor (discounts: seq<OrderDiscount>, baseShippingPrice: real, shippingPriceNet: real)
      ensures this.discounts == discounts && this.baseShippingPrice == baseShippingPrice
      ensures this.shippingPriceNet == shippingPriceNet
    {
      this.discounts := discounts;
      this.baseShippingPrice := baseShippingPrice;
      this.shippingPriceNet, shippingPriceGross := shippingPriceNet, shippingPriceNet;
      totalNet, totalGross := 0.0, 0.0;
    }

    /** The net and gross shipping price and the net and gross total, in that order. */
    function Prices(): (real, real, real, real)
      reads this
    {
      (shippingPriceNet, shippingPriceGross, totalNet, totalGross)
    }

    /** The `override_prices` assignments: shipping and total become the discounted ones. */
    method SetDiscountedPrices(subtotal: real, shippingPrice: real)
      modifies this
      ensures Prices() == (shippingPrice, shippingPrice, subtotal + shippingPrice, subtotal + shippingPrice)
    {
      shippingPriceNet := shippingPrice;
      shippingPriceGross := shippingPrice;
      totalNet := subtotal + shippingPrice;
      totalGross := subtotal + shippingPrice;
    }
  }

  /** `base_order_total`: the base subtotal plus the order's net shipping price. */
  method BaseOrderTotal(order: Order, lines: seq<OrderLine>) returns (total: real)
    ensures total == Quantize(LinesSum(States(lines))) + order.shippingPriceNet
  {
    var subtotal := BaseOrderSubtotal(lines);
    total := subtotal + order.shippingPriceNet;
  }

  /**
   * One pass of the discount loop of `apply_order_discounts`: the
   * (subtotal, shipping) pair after applying `d`.
   */
  function ApplyOrderDiscount(d: OrderDiscountInfo, subtotal: real, shipping: real): (real, real) {
    match d.discountType
    case VoucherDiscount =>
      var s := if d.voucherType == Some(EntireOrder) then ApplyDiscountToValue(d.value, d.valueType, subtotal) else subtotal;
      var sh := if d.voucherType == Some(Shipping) then ApplyDiscountToValue(d.value, d.valueType, shipping) else shipping;
      (s, sh)
    case ManualDiscount =>
      if d.valueType == Percentage then
        (ApplyDiscountToValue(d.value, d.valueType, subtotal), ApplyDiscountToValue(d.value, d.valueType, shipping))
      else
        var undiscountedTotal := subtotal + shipping;
        if undiscountedTotal > 0.0 then
          var totalDiscount := undiscountedTotal - ApplyDiscountToValue(d.value, d.valueType, undiscountedTotal);
          var subtotalDiscount := ProportionalPart(subtotal, undiscountedTotal, totalDiscount);
          var shippingDiscount := totalDiscount - subtotalDiscount;
          (subtotal - subtotalDiscount, shipping - shippingDiscount)
        else
          (subtotal, shipping)
    case _ => (subtotal, shipping)
  }

  /** The part of `cut` that falls on `part` of `whole`: `part / whole * cut`. */
  function ProportionalPart(part: real, whole: real, cut: real): real
    requires whole != 0.0
  {
    (part / whole) * cut
  }

  /** What one discount takes off: the shipping reduction plus the subtotal reduction. */
  function Reduction(d: OrderDiscountInfo, subtotal: real, shipping: real): real {
    var after := ApplyOrderDiscount(d, subtotal, shipping);
    (shipping - after.1) + (subtotal - after.0)
  }

  /** The (subtotal, shipping) pair after applying the discounts in order. */
  function ApplyAll(ds: seq<OrderDiscountInfo>, subtotal: real, shipping: real): (real, real) {
    if ds == [] then (subtotal, shipping)
    else
      var before := ApplyAll(ds[..|ds| - 1], subtotal, shipping);
      ApplyOrderDiscount(ds[|ds| - 1], before.0, before.1)
  }

  /** The amount each discount ends up with: its reduction at its turn. */
  function Reductions(ds: seq<OrderDiscountInfo>, subtotal: real, shipping: real): (r: seq<real>)
    ensures |r| == |ds|
    ensures forall j :: 0 <= j < |ds| ==>
              r[j] == Reduction(ds[j], ApplyAll(ds[..j], subtotal, shipping).0, ApplyAll(ds[..j], subtotal, shipping).1)
  {
    seq(|ds|, j requires 0 <= j < |ds| =>
      Reduction(ds[j], ApplyAll(ds[..j], subtotal, shipping).0, ApplyAll(ds[..j], subtotal, shipping).1))
  }

  /**
   * An entire-order voucher changes only the subtotal and a shipping
   * voucher only the shipping price; any other voucher changes nothing.
   */
  lemma VoucherScope(d: OrderDiscountInfo, subtotal: real, shipping: real)
    requires d.discountType == VoucherDiscount
    ensures d.voucherType == Some(EntireOrder) ==>
              ApplyOrderDiscount(d, subtotal, shipping) == (ApplyDiscountToValue(d.value, d.valueType, subtotal), shipping)
    ensures d.voucherType == Some(Shipping) ==>
              ApplyOrderDiscount(d, subtotal, shipping) == (subtotal, ApplyDiscountToValue(d.value, d.valueType, shipping))
    ensures d.voucherType !in {Some(EntireOrder), Some(Shipping)} ==>
              ApplyOrderDiscount(d, subtotal, shipping) == (subtotal, shipping)
  {
  }

  /** A staff percentage discount reduces the subtotal and shipping separately by the same percentage. */
  lemma ManualPercentageIsIndependent(d: OrderDiscountInfo, subtotal: real, shipping: real)
    requires d.discountType == ManualDiscount && d.valueType == Percentage
    ensures ApplyOrderDiscount(d, subtotal, shipping) ==
            (PercentageDiscount(subtotal, d.value), PercentageDiscount(shipping, d.value))
  {
  }

  /**
   * A staff fixed discount is skipped on a non-positive total; otherwise it
   * takes the fixed discount off the combined total and splits the cut in
   * proportion to the subtotal's share, so that neither part goes negative.
   */
  lemma ManualFixedIsProportional(d: OrderDiscountInfo, subtotal: real, shipping: real)
    requires d.discountType == ManualDiscount && d.valueType == Fixed
    ensures subtotal + shipping <= 0.0 ==> ApplyOrderDiscount(d, subtotal, shipping) == (subtotal, shipping)
    ensures subtotal + shipping > 0.0 ==>
              var after := ApplyOrderDiscount(d, subtotal, shipping);
              var totalDiscount := subtotal + shipping - FixedDiscount(subtotal + shipping, d.value);
              after.0 + after.1 == FixedDiscount(subtotal + shipping, d.value) &&
              subtotal - after.0 == ProportionalPart(subtotal, subtotal + shipping, totalDiscount)
    ensures subtotal >= 0.0 && shipping >= 0.0 && d.value >= 0.0 ==>
              ApplyOrderDiscount(d, subtotal, shipping).0 >= 0.0 && ApplyOrderDiscount(d, subtotal, shipping).1 >= 0.0
  {
    var t := subtotal + shipping;
    if t > 0.0 && subtotal >= 0.0 && shipping >= 0.0 && d.value >= 0.0 {
      var f := FixedDiscount(t, d.value);
      var after := ApplyOrderDiscount(d, subtotal, shipping);
      assert 0.0 <= f <= t;
      ProportionalSplit(subtotal, shipping, t - f);
    }
  }

  /** Cutting `cut <= s + sh` from `s + sh` in proportion leaves both parts non-negative. */
  lemma ProportionalSplit(s: real, sh: real, cut: real)
    requires s >= 0.0 && sh >= 0.0 && s + sh > 0.0 && 0.0 <= cut <= s + sh
    ensures s - (s / (s + sh)) * cut >= 0.0
    ensures sh - (cut - (s / (s + sh)) * cut) >= 0.0
  {
    var t := s + sh;
    var share := s / t;
    assert share * t == s;
    if share < 0.0 {
      MultiplyStrictlyMonotone(t, share, 0.0);
    }
    if share > 1.0 {
      MultiplyStrictlyMonotone(t, 1.0, share);
    }
    MultiplyMonotone(share, cut, t);
    MultiplyMonotone(1.0 - share, cut, t);
    assert (1.0 - share) * t == sh;
  }

  /**
   * With non-negative prices and discount values, applying the order
   * discounts never makes the subtotal or the shipping price negative.
   */
  lemma {:induction false} ApplyAllNonNegative(ds: seq<OrderDiscountInfo>, subtotal: real, shipping: real)
    requires subtotal >= 0.0 && shipping >= 0.0
    requires forall d | d in ds :: d.value >= 0.0
    ensures ApplyAll(ds, subtotal, shipping).0 >= 0.0 && ApplyAll(ds, subtotal, shipping).1 >= 0.0
  {
    if ds != [] {
      var init := ds[..|ds| - 1];
      var d := ds[|ds| - 1];
      assert forall e | e in init :: e in ds;
      ApplyAllNonNegative(init, subtotal, shipping);
      var before := ApplyAll(init, subtotal, shipping);
      if d.discountType == ManualDiscount && d.valueType == Fixed {
        ManualFixedIsProportional(d, before.0, before.1);
      }
    }
  }

  /** `apply_discount_to_order_line` on values. */
  function LineAfterDiscount(p: LineState, lineDiscount: real): LineState
    requires p.quantity != 0
  {
    var total := if p.totalNet - lineDiscount > 0.0 then p.totalNet - lineDiscount else 0.0;
    var unitPrice := total / p.quantity as real;
    p.(totalNet := total, totalGross := total,
       baseUnitPrice := unitPrice, unitNet := unitPrice, unitGross := unitPrice,
       unitDiscount := lineDiscount / p.quantity as real)
  }

  /**
   * A discounted line has equal net and gross totals that are never
   * negative, its unit price times its quantity gives back its total, and
   * a discount that fits in the total is taken off in full.
   */
  lemma LineAfterDiscountFacts(p: LineState, lineDiscount: real)
    requires p.quantity != 0
    ensures var r := LineAfterDiscount(p, lineDiscount);
            r.totalNet == r.totalGross >= 0.0 &&
            r.baseUnitPrice * p.quantity as real == r.totalNet &&
            r.unitDiscount * p.quantity as real == lineDiscount &&
            (lineDiscount <= p.totalNet ==> r.totalNet == p.totalNet - lineDiscount) &&
            r.quantity == p.quantity && r.undiscountedTotalNet == p.undiscountedTotalNet
  {
  }

  /** `apply_discount_to_order_line` */
  method ApplyDiscountToOrderLine(line: OrderLine, lineDiscount: real)
    requires line.quantity != 0
    modifies line
    ensures line.State() == LineAfterDiscount(old(line.State()), lineDiscount)
  {
    var quantity := line.quantity;
    var totalPrice := if line.totalNet - lineDiscount > 0.0 then line.totalNet - lineDiscount else 0.0;
    line.totalNet := totalPrice;
    line.totalGross := totalPrice;
    var unitPrice := totalPrice / quantity as real;
    line.baseUnitPrice := unitPrice;
    line.unitNet := unitPrice;
    line.unitGross := unitPrice;
    line.unitDiscount := lineDiscount / quantity as real;
  }

  /** What the lines before the last were discounted by: undiscounted minus current totals. */
  function OtherLinesDiscount(ps: seq<LineState>): real {
    if ps == [] then 0.0
    else OtherLinesDiscount(ps[..|ps| - 1]) + (ps[|ps| - 1].undiscountedTotalNet - ps[|ps| - 1].totalNet)
  }

  /** The share of the order discount a line (other than the last) receives. */
  function ShareOf(lineTotal: real, undiscountedSubtotal: real, subtotalDiscount: real): real
    requires undiscountedSubtotal != 0.0
  {
    Quantize((lineTotal / undiscountedSubtotal) * subtotalDiscount)
  }

  predicate NonZeroQuantities(ps: seq<LineState>) {
    forall j :: 0 <= j < |ps| ==> ps[j].quantity != 0
  }

  /** The lines before the last after each took its share. */
  function SharedOut(ps: seq<LineState>, undiscountedSubtotal: real, subtotalDiscount: real): (r: seq<LineState>)
    requires NonZeroQuantities(ps) && undiscountedSubtotal != 0.0
    ensures |r| == |ps|
    ensures forall j :: 0 <= j < |ps| ==>
              r[j] == LineAfterDiscount(ps[j], ShareOf(ps[j].totalNet, undiscountedSubtotal, subtotalDiscount))
  {
    seq(|ps|, j requires 0 <= j < |ps| && NonZeroQuantities(ps) && undiscountedSubtotal != 0.0 =>
      LineAfterDiscount(ps[j], ShareOf(ps[j].totalNet, undiscountedSubtotal, subtotalDiscount)))
  }

  /**
   * `apply_subtotal_discount_to_order_lines` on values: a single line takes
   * the whole discount; with several lines every line but the last takes
   * its quantized share, and the last line takes what is left.
   */
  function Distributed(ps: seq<LineState>, undiscountedSubtotal: real, subtotalDiscount: real): (r: seq<LineState>)
    requires NonZeroQuantities(ps)
    requires |ps| > 1 ==> undiscountedSubtotal != 0.0
    ensures |r| == |ps|
  {
    if |ps| == 1 then [LineAfterDiscount(ps[0], subtotalDiscount)]
    else if |ps| > 1 then
      var others := SharedOut(ps[..|ps| - 1], undiscountedSubtotal, subtotalDiscount);
      others + [LineAfterDiscount(ps[|ps| - 1], subtotalDiscount - OtherLinesDiscount(others))]
    else ps
  }

  /** How much the lines' totals went down in all. */
  function TotalReduction(before: seq<LineState>, after: seq<LineState>): real
    requires |before| == |after|
  {
    if before == [] then 0.0
    else TotalReduction(before[..|before| - 1], after[..|after| - 1]) +
         (before[|before| - 1].totalNet - after[|after| - 1].totalNet)
  }

  /** The quantized shares of the lines before the last, summed. */
  function SharesSum(ps: seq<LineState>, undiscountedSubtotal: real, subtotalDiscount: real): real
    requires undiscountedSubtotal != 0.0
  {
    if ps == [] then 0.0
    else SharesSum(ps[..|ps| - 1], undiscountedSubtotal, subtotalDiscount) +
         ShareOf(ps[|ps| - 1].totalNet, undiscountedSubtotal, subtotalDiscount)
  }

  /**
   * When the lines before the last start undiscounted and no line's
   * discount exceeds its total, the lines' totals go down by exactly the
   * order discount: the last line absorbs the rounding of the shares.
   */
  lemma SubtotalDiscountSumsUp(ps: seq<LineState>, undiscountedSubtotal: real, subtotalDiscount: real)
    requires NonZeroQuantities(ps) && |ps| > 1 && undiscountedSubtotal != 0.0
    requires forall j :: 0 <= j < |ps| - 1 ==>
               ps[j].undiscountedTotalNet == ps[j].totalNet &&
               ShareOf(ps[j].totalNet, undiscountedSubtotal, subtotalDiscount) <= ps[j].totalNet
    requires subtotalDiscount - SharesSum(ps[..|ps| - 1], undiscountedSubtotal, subtotalDiscount) <= ps[|ps| - 1].totalNet
    ensures TotalReduction(ps, Distributed(ps, undiscountedSubtotal, subtotalDiscount)) == subtotalDiscount
  {
    var init := ps[..|ps| - 1];
    var others := SharedOut(init, undiscountedSubtotal, subtotalDiscount);
    var r := Distributed(ps, undiscountedSubtotal, subtotalDiscount);
    SharesAccount(init, undiscountedSubtotal, subtotalDiscount);
    assert r[..|r| - 1] == others;
    var lastDiscount := subtotalDiscount - OtherLinesDiscount(others);
    LineAfterDiscountFacts(ps[|ps| - 1], lastDiscount);
  }

  /**
   * For lines that start undiscounted and absorb their shares in full, the
   * recorded discounts and the total reduction both equal the sum of shares.
   */
  lemma {:induction false} SharesAccount(ps: seq<LineState>, undiscountedSubtotal: real, subtotalDiscount: real)
    requires NonZeroQuantities(ps) && undiscountedSubtotal != 0.0
    requires forall j :: 0 <= j < |ps| ==>
               ps[j].undiscountedTotalNet == ps[j].totalNet &&
               ShareOf(ps[j].totalNet, undiscountedSubtotal, subtotalDiscount) <= ps[j].totalNet
    ensures OtherLinesDiscount(SharedOut(ps, undiscountedSubtotal, subtotalDiscount)) ==
            SharesSum(ps, undiscountedSubtotal, subtotalDiscount)
    ensures TotalReduction(ps, SharedOut(ps, undiscountedSubtotal, subtotalDiscount)) ==
            SharesSum(ps, undiscountedSubtotal, subtotalDiscount)
  {
    if ps != [] {
      var n := |ps|;
      var init := ps[..n - 1];
      var out := SharedOut(ps, undiscountedSubtotal, subtotalDiscount);
      assert out[..n - 1] == SharedOut(init, undiscountedSubtotal, subtotalDiscount);
      SharesAccount(init, undiscountedSubtotal, subtotalDiscount);
      LineAfterDiscountFacts(ps[n - 1], ShareOf(ps[n - 1].totalNet, undiscountedSubtotal, subtotalDiscount));
    }
  }

  /** A single line takes the whole order discount, in full when it fits. */
  lemma SingleLineTakesAll(ps: seq<LineState>, undiscountedSubtotal: real, subtotalDiscount: real)
    requires |ps| == 1 && ps[0].quantity != 0
    ensures Distributed(ps, undiscountedSubtotal, subtotalDiscount)[0] == LineAfterDiscount(ps[0], subtotalDiscount)
    ensures subtotalDiscount <= ps[0].totalNet ==>
              TotalReduction(ps, Distributed(ps, undiscountedSubtotal, subtotalDiscount)) == subtotalDiscount
  {
    LineAfterDiscountFacts(ps[0], subtotalDiscount);
  }

  /**
   * `_ensure_order_lines_prices_sum_up_to_order_prices`: the last line takes
   * the order discount minus what the other lines were discounted by.
   */
  method EnsureOrderLinesPricesSumUpToOrderPrices(lines: seq<OrderLine>, subtotalDiscount: real)
    requires |lines| > 0 && lines[|lines| - 1].quantity != 0
    modifies lines[|lines| - 1]
    ensures forall j :: 0 <= j < |lines| - 1 && lines[j] != lines[|lines| - 1] ==>
              lines[j].State() == old(lines[j].State())
    ensures Distinct(lines) ==> States(lines[..|lines| - 1]) == old(States(lines[..|lines| - 1]))
    ensures lines[|lines| - 1].State() ==
            LineAfterDiscount(old(lines[|lines| - 1].State()),
                              subtotalDiscount - OtherLinesDiscount(old(States(lines[..|lines| - 1]))))
  {
    var otherLinesDiscount := OtherLinesDiscount(States(lines[..|lines| - 1]));
    var lastLineDiscount := subtotalDiscount - otherLinesDiscount;
    ApplyDiscountToOrderLine(lines[|lines| - 1], lastLineDiscount);
  }

  /** The states of a non-empty list of lines: those of all but the last, then the last one's. */
  lemma StatesSplit(lines: seq<OrderLine>)
    requires |lines| > 0
    ensures States(lines) == States(lines[..|lines| - 1]) + [lines[|lines| - 1].State()]
  {
  }

  /** The shares of the lines before the last, then the last line's correction, make up `Distributed`. */
  lemma DistributedFromParts(ps: seq<LineState>, shared: seq<LineState>, last: LineState,
                             undiscountedSubtotal: real, subtotalDiscount: real)
    requires NonZeroQuantities(ps) && |ps| > 1 && undiscountedSubtotal != 0.0
    requires shared == SharedOut(ps[..|ps| - 1], undiscountedSubtotal, subtotalDiscount)
    requires last == LineAfterDiscount(ps[|ps| - 1], subtotalDiscount - OtherLinesDiscount(shared))
    ensures shared + [last] == Distributed(ps, undiscountedSubtotal, subtotalDiscount)
  {
  }

  /**
   * The lines before position `idx` (and before the last) have taken their
   * share; the others still hold their states `ps`.
   */
  ghost predicate SharedUpTo(lines: seq<OrderLine>, ps: seq<LineState>, undiscountedSubtotal: real,
                             subtotalDiscount: real, idx: int)
    reads set l | l in lines
  {
    |ps| == |lines| && NonZeroQuantities(ps) && undiscountedSubtotal != 0.0 &&
    forall j :: 0 <= j < |lines| ==>
      lines[j].State() == if j < idx && j < |lines| - 1
                          then LineAfterDiscount(ps[j], ShareOf(ps[j].totalNet, undiscountedSubtotal, subtotalDiscount))
                          else ps[j]
  }

  /** One turn of the share loop: line `idx` takes its quantized share. */
  method TakeShare(lines: seq<OrderLine>, ghost ps: seq<LineState>, undiscountedSubtotal: real,
                   subtotalDiscount: real, idx: nat)
    requires Distinct(lines) && idx < |lines| - 1
    requires SharedUpTo(lines, ps, undiscountedSubtotal, subtotalDiscount, idx)
    modifies lines[idx]
    ensures SharedUpTo(lines, ps, undiscountedSubtotal, subtotalDiscount, idx + 1)
  {
    assert lines[idx].State() == ps[idx];
    var lineDiscount := ShareOf(lines[idx].totalNet, undiscountedSubtotal, subtotalDiscount);
    ApplyDiscountToOrderLine(lines[idx], lineDiscount);
    forall j | 0 <= j < |lines| && j != idx
      ensures lines[j].State() == old(lines[j].State())
    {
      assert lines[j] != lines[idx];
    }
  }

  /** After the share loop and the last line's correction the lines hold `Distributed`. */
  lemma SharedThenLast(lines: seq<OrderLine>, ps: seq<LineState>, undiscountedSubtotal: real,
                       subtotalDiscount: real)
    requires |lines| > 1 && SharedUpTo(lines, ps, undiscountedSubtotal, subtotalDiscount, |lines| - 1)
    ensures States(lines[..|lines| - 1]) == SharedOut(ps[..|lines| - 1], undiscountedSubtotal, subtotalDiscount)
    ensures lines[|lines| - 1].State() == ps[|lines| - 1]
  {
  }

  /** `apply_subtotal_discount_to_order_lines` */
  method ApplySubtotalDiscountToOrderLines(lines: seq<OrderLine>, undiscountedSubtotal: real, subtotalDiscount: real)
    requires Distinct(lines)
    requires NonZeroQuantities(States(lines))
    requires |lines| > 1 ==> undiscountedSubtotal != 0.0
    modifies set l | l in lines
    ensures States(lines) == Distributed(old(States(lines)), undiscountedSubtotal, subtotalDiscount)
  {
    ghost var ps := States(lines);
    var linesCount := |lines|;
    if linesCount == 1 {
      ApplyDiscountToOrderLine(lines[0], subtotalDiscount);
      assert States(lines) == [lines[0].State()];
    } else if linesCount > 1 {
      var idx := 0;
      while idx < linesCount
        invariant idx <= linesCount
        invariant SharedUpTo(lines, ps, undiscountedSubtotal, subtotalDiscount, idx)
      {
        if idx < linesCount - 1 {
          TakeShare(lines, ps, undiscountedSubtotal, subtotalDiscount, idx);
        }
        idx := idx + 1;
      }
      SharedThenLast(lines, ps, undiscountedSubtotal, subtotalDiscount);
      EnsureOrderLinesPricesSumUpToOrderPrices(lines, subtotalDiscount);
      StatesSplit(lines);
      DistributedFromParts(ps, States(lines[..linesCount - 1]), lines[linesCount - 1].State(),
                           undiscountedSubtotal, subtotalDiscount);
    }
  }

  // ------------------------------------------------ apply_order_discounts

  /**
   * The body of the discount loop of `apply_order_discounts` for one
   * discount: the new (subtotal, shipping) pair.
   */
  method ApplyOneOrderDiscount(d: OrderDiscount, subtotal: real, shippingPrice: real)
    returns (newSubtotal: real, newShippingPrice: real)
    ensures (newSubtotal, newShippingPrice) == ApplyOrderDiscount(d.Info(), subtotal, shippingPrice)
  {
    newSubtotal, newShippingPrice := subtotal, shippingPrice;
    if d.discountType == VoucherDiscount {
      if d.voucherType == Some(EntireOrder) {
        newSubtotal := ApplyDiscountToValue(d.value, d.valueType, newSubtotal);
      }
      if d.voucherType == Some(Shipping) {
        newShippingPrice := ApplyDiscountToValue(d.value, d.valueType, newShippingPrice);
      }
    } else if d.discountType == ManualDiscount {
      if d.valueType == Percentage {
        newSubtotal := ApplyDiscountToValue(d.value, d.valueType, newSubtotal);
        newShippingPrice := ApplyDiscountToValue(d.value, d.valueType, newShippingPrice);
      } else {
        var temporaryUndiscountedTotal := newSubtotal + newShippingPrice;
        if temporaryUndiscountedTotal > 0.0 {
          var temporaryTotal := ApplyDiscountToValue(d.value, d.valueType, temporaryUndiscountedTotal);
          var totalDiscount := temporaryUndiscountedTotal - temporaryTotal;
          var subtotalDiscount := ProportionalPart(newSubtotal, temporaryUndiscountedTotal, totalDiscount);
          var shippingDiscount := totalDiscount - subtotalDiscount;
          newSubtotal := newSubtotal - subtotalDiscount;
          newShippingPrice := newShippingPrice - shippingDiscount;
        }
      }
    }
  }

  /** The stored amounts of a list of order discounts. */
  function Amounts(ds: seq<OrderDiscount>): (r: seq<real>)
    reads set d | d in ds
    ensures |r| == |ds| && forall j :: 0 <= j < |ds| ==> r[j] == ds[j].amount
  {
    seq(|ds|, j requires 0 <= j < |ds| reads ds => ds[j].amount)
  }

  /** The discounts whose amount changed, in order (`order_discounts_to_update`). */
  function Changed(ds: seq<OrderDiscount>, oldAmounts: seq<real>, newAmounts: seq<real>): (r: seq<OrderDiscount>)
    requires |oldAmounts| == |ds| == |newAmounts|
    ensures forall x | x in r :: x in ds
    ensures forall j :: 0 <= j < |ds| && oldAmounts[j] != newAmounts[j] ==> ds[j] in r
    ensures Distinct(ds) ==> forall j :: 0 <= j < |ds| && ds[j] in r ==> oldAmounts[j] != newAmounts[j]
  {
    if ds == [] then []
    else
      var n := |ds| - 1;
      var init := Changed(ds[..n], oldAmounts[..n], newAmounts[..n]);
      assert Distinct(ds) ==> ds[n] !in ds[..n] by {
        if Distinct(ds) {
          forall k | 0 <= k < n ensures ds[..n][k] != ds[n] {
            assert ds[..n][k] == ds[k];
          }
        }
      }
      init + if oldAmounts[n] != newAmounts[n] then [ds[n]] else []
  }

  /** Appending one more discount to `Changed`. */
  lemma ChangedStep(ds: seq<OrderDiscount>, oldAmounts: seq<real>, newAmounts: seq<real>, i: nat)
    requires |oldAmounts| == |ds| == |newAmounts| && i < |ds|
    ensures Changed(ds[..i + 1], oldAmounts[..i + 1], newAmounts[..i + 1]) ==
            Changed(ds[..i], oldAmounts[..i], newAmounts[..i]) +
            if oldAmounts[i] != newAmounts[i] then [ds[i]] else []
  {
    assert ds[..i + 1][..i] == ds[..i];
    assert oldAmounts[..i + 1][..i] == oldAmounts[..i];
    assert newAmounts[..i + 1][..i] == newAmounts[..i];
  }

  /**
   * After the first `i` turns of the discount loop, with `amounts` the
   * discounts' stored amounts: the running pair is `ApplyAll` of the first
   * `i` discounts, those discounts hold their reductions, the others their
   * old amounts, and `toUpdate` lists the ones whose amount changed.
   */
  ghost predicate AppliedUpTo(ds: seq<OrderDiscount>, oldAmounts: seq<real>, amounts: seq<real>, s0: real, sh0: real,
                              i: int, subtotal: real, shipping: real, toUpdate: seq<OrderDiscount>)
  {
    var reductions := Reductions(Infos(ds), s0, sh0);
    |oldAmounts| == |ds| && |amounts| == |ds| && 0 <= i <= |ds| &&
    (subtotal, shipping) == ApplyAll(Infos(ds)[..i], s0, sh0) &&
    (forall j :: 0 <= j < |ds| ==> amounts[j] == if j < i then reductions[j] else oldAmounts[j]) &&
    toUpdate == Changed(ds[..i], oldAmounts[..i], reductions[..i])
  }

  /** `AppliedUpTo` on the amounts the discounts hold now. */
  ghost predicate DiscountsApplied(ds: seq<OrderDiscount>, oldAmounts: seq<real>, s0: real, sh0: real, i: int,
                                   subtotal: real, shipping: real, toUpdate: seq<OrderDiscount>)
    reads set d | d in ds
  {
    AppliedUpTo(ds, oldAmounts, Amounts(ds), s0, sh0, i, subtotal, shipping, toUpdate)
  }

  /** One turn of the discount loop on values: discount `i` is applied and its amount becomes `total`. */
  lemma AppliedStep(ds: seq<OrderDiscount>, oldAmounts: seq<real>, amounts: seq<real>, s0: real, sh0: real, i: nat,
                    subtotal: real, shipping: real, toUpdate: seq<OrderDiscount>,
                    subtotal': real, shipping': real, total: real, toUpdate': seq<OrderDiscount>)
    requires i < |ds| && AppliedUpTo(ds, oldAmounts, amounts, s0, sh0, i, subtotal, shipping, toUpdate)
    requires (subtotal', shipping') == ApplyOrderDiscount(ds[i].Info(), subtotal, shipping)
    requires total == (shipping - shipping') + (subtotal - subtotal')
    requires toUpdate' == toUpdate + if amounts[i] != total then [ds[i]] else []
    ensures AppliedUpTo(ds, oldAmounts, amounts[i := total], s0, sh0, i + 1, subtotal', shipping', toUpdate')
  {
    PairStep(Infos(ds), s0, sh0, i, subtotal, shipping, subtotal', shipping', total);
    ChangedStep(ds, oldAmounts, Reductions(Infos(ds), s0, sh0), i);
  }

  /** Applying discount `i` to `ApplyAll` of the first `i` gives `ApplyAll` of the first `i + 1`, and its reduction. */
  lemma PairStep(infos: seq<OrderDiscountInfo>, s0: real, sh0: real, i: nat,
                 subtotal: real, shipping: real, subtotal': real, shipping': real, total: real)
    requires i < |infos| && (subtotal, shipping) == ApplyAll(infos[..i], s0, sh0)
    requires (subtotal', shipping') == ApplyOrderDiscount(infos[i], subtotal, shipping)
    requires total == (shipping - shipping') + (subtotal - subtotal')
    ensures (subtotal', shipping') == ApplyAll(infos[..i + 1], s0, sh0)
    ensures total == Reductions(infos, s0, sh0)[i]
  {
    assert infos[..i + 1][..i] == infos[..i];
  }

  /** One turn of the discount loop of `apply_order_discounts`. */
  method ApplyDiscountAt(ds: seq<OrderDiscount>, ghost oldAmounts: seq<real>, ghost s0: real, ghost sh0: real,
                         i: nat, subtotal: real, shipping: real, toUpdate: seq<OrderDiscount>)
    returns (subtotal': real, shipping': real, toUpdate': seq<OrderDiscount>)
    requires Distinct(ds) && i < |ds|
    requires DiscountsApplied(ds, oldAmounts, s0, sh0, i, subtotal, shipping, toUpdate)
    modifies ds[i]
    ensures DiscountsApplied(ds, oldAmounts, s0, sh0, i + 1, subtotal', shipping', toUpdate')
  {
    ghost var amounts := Amounts(ds);
    var orderDiscount := ds[i];
    subtotal', shipping' := ApplyOneOrderDiscount(orderDiscount, subtotal, shipping);
    var shippingDiscountAmount := shipping - shipping';
    var subtotalDiscountAmount := subtotal - subtotal';
    var totalDiscountAmount := shippingDiscountAmount + subtotalDiscountAmount;
    if orderDiscount.amount != totalDiscountAmount {
      orderDiscount.amount := totalDiscountAmount;
      toUpdate' := toUpdate + [orderDiscount];
    } else {
      toUpdate' := toUpdate;
    }
    AppliedStep(ds, oldAmounts, amounts, s0, sh0, i, subtotal, shipping, toUpdate,
                subtotal', shipping', totalDiscountAmount, toUpdate');
    forall j | 0 <= j < |ds| ensures Amounts(ds)[j] == amounts[i := totalDiscountAmount][j] {
      if j != i {
        assert ds[j] != ds[i];
      }
    }
    assert Amounts(ds) == amounts[i := totalDiscountAmount];
  }

  /**
   * The amounts the discounts end up with add up to what the discounts took
   * off the subtotal and the shipping price together.
   */
  lemma {:induction false} ReductionsAddUp(ds: seq<OrderDiscountInfo>, subtotal: real, shipping: real)
    ensures SumOf(Reductions(ds, subtotal, shipping)) ==
            (subtotal + shipping) - (ApplyAll(ds, subtotal, shipping).0 + ApplyAll(ds, subtotal, shipping).1)
  {
    if ds != [] {
      var n := |ds| - 1;
      var r := Reductions(ds, subtotal, shipping);
      assert r[..n] == Reductions(ds[..n], subtotal, shipping) by {
        forall j | 0 <= j < n ensures r[..n][j] == Reductions(ds[..n], subtotal, shipping)[j] {
          assert ds[..n][..j] == ds[..j];
        }
      }
      assert ds[..n] == ds[..|ds| - 1];
      ReductionsAddUp(ds[..n], subtotal, shipping);
    }
  }

  function SumOf(xs: seq<real>): real {
    if xs == [] then 0.0 else SumOf(xs[..|xs| - 1]) + xs[|xs| - 1]
  }

  /**
   * The discount loop of `apply_order_discounts`: starting from
   * (`subtotal0`, `shipping0`), each discount is applied in turn and its
   * amount set to its reduction; `toUpdate` lists those whose amount changed.
   */
  method ApplyDiscountsInTurn(ds: seq<OrderDiscount>, subtotal0: real, shipping0: real)
    returns (subtotal: real, shippingPrice: real, toUpdate: seq<OrderDiscount>)
    requires Distinct(ds)
    modifies set d | d in ds
    ensures DiscountsRecomputed(ds, old(Amounts(ds)), Amounts(ds), subtotal0, shipping0, subtotal, shippingPrice, toUpdate)
  {
    ghost var oldAmounts := Amounts(ds);
    subtotal, shippingPrice, toUpdate := subtotal0, shipping0, [];
    var i := 0;
    while i < |ds|
      invariant DiscountsApplied(ds, oldAmounts, subtotal0, shipping0, i, subtotal, shippingPrice, toUpdate)
    {
      subtotal, shippingPrice, toUpdate :=
        ApplyDiscountAt(ds, oldAmounts, subtotal0, shipping0, i, subtotal, shippingPrice, toUpdate);
      i := i + 1;
    }
    AllDiscountsApplied(ds, oldAmounts, subtotal0, shipping0, subtotal, shippingPrice, toUpdate);
  }

  /**
   * What the discount loop leaves behind, starting from (`s0`, `sh0`) with
   * the amounts `oldAmounts`: the pair is `ApplyAll` of the discounts, the
   * new amounts are their reductions, and `toUpdate` lists the discounts
   * whose amount changed.
   */
  ghost predicate DiscountsRecomputed(ds: seq<OrderDiscount>, oldAmounts: seq<real>, newAmounts: seq<real>,
                                      s0: real, sh0: real,
                                      subtotal: real, shipping: real, toUpdate: seq<OrderDiscount>)
  {
    |oldAmounts| == |ds| &&
    (subtotal, shipping) == ApplyAll(Infos(ds), s0, sh0) &&
    newAmounts == Reductions(Infos(ds), s0, sh0) &&
    toUpdate == Changed(ds, oldAmounts, newAmounts)
  }

  /** Once every discount has had its turn, the loop state is the whole of `ApplyAll` and `Reductions`. */
  lemma AllDiscountsApplied(ds: seq<OrderDiscount>, oldAmounts: seq<real>, s0: real, sh0: real,
                            subtotal: real, shipping: real, toUpdate: seq<OrderDiscount>)
    requires DiscountsApplied(ds, oldAmounts, s0, sh0, |ds|, subtotal, shipping, toUpdate)
    ensures DiscountsRecomputed(ds, oldAmounts, Amounts(ds), s0, sh0, subtotal, shipping, toUpdate)
  {
    assert Infos(ds)[..|ds|] == Infos(ds);
    assert ds[..|ds|] == ds && oldAmounts[..|ds|] == oldAmounts;
    var reductions := Reductions(Infos(ds), s0, sh0);
    assert reductions[..|ds|] == reductions;
    assert Amounts(ds) == reductions;
  }

  /**
   * `after` is `before` once the difference between `undiscountedSubtotal`
   * and the discounted `subtotal` has been spread over the lines.
   */
  ghost predicate SubtotalDiscountSpread(before: seq<LineState>, after: seq<LineState>,
                                         undiscountedSubtotal: real, subtotal: real) {
    NonZeroQuantities(before) && (|before| > 1 ==> undiscountedSubtotal != 0.0) &&
    after == Distributed(before, undiscountedSubtotal, undiscountedSubtotal - subtotal)
  }

  /**
   * `apply_order_discounts`: the order discounts are applied in turn to the
   * base subtotal and the base shipping price; each discount's amount is set
   * to its combined reduction (and listed for saving when that changed it);
   * with `overridePrices` the order's shipping and total prices are set and
   * the subtotal discount is spread over the lines.
   */
  method ApplyOrderDiscounts(order: Order, lines: seq<OrderLine>, overridePrices: bool)
    returns (subtotal: real, shippingPrice: real, toUpdate: seq<OrderDiscount>)
    requires Distinct(order.discounts) && Distinct(lines)
    requires overridePrices ==>
               NonZeroQuantities(States(lines)) && (|lines| > 1 ==> Quantize(LinesSum(States(lines))) != 0.0)
    modifies order, set d | d in order.discounts, set l | l in lines
    ensures DiscountsRecomputed(order.discounts, old(Amounts(order.discounts)), Amounts(order.discounts),
                                Quantize(LinesSum(old(States(lines)))), order.baseShippingPrice,
                                subtotal, shippingPrice, toUpdate)
    ensures overridePrices ==>
              order.Prices() == (shippingPrice, shippingPrice, subtotal + shippingPrice, subtotal + shippingPrice) &&
              SubtotalDiscountSpread(old(States(lines)), States(lines), Quantize(LinesSum(old(States(lines)))), subtotal)
    ensures !overridePrices ==> order.Prices() == old(order.Prices()) && States(lines) == old(States(lines))
  {
    var undiscountedSubtotal;
    undiscountedSubtotal, subtotal, shippingPrice, toUpdate := RecomputeOrderDiscounts(order, lines);
    if overridePrices {
      OverridePrices(order, lines, undiscountedSubtotal, subtotal, shippingPrice);
    }
  }

  /**
   * The discount loop of `apply_order_discounts`, started from the base
   * subtotal of the lines and the order's base shipping price.
   */
  method RecomputeOrderDiscounts(order: Order, lines: seq<OrderLine>)
    returns (undiscountedSubtotal: real, subtotal: real, shippingPrice: real, toUpdate: seq<OrderDiscount>)
    requires Distinct(order.discounts)
    modifies set d | d in order.discounts
    ensures undiscountedSubtotal == Quantize(LinesSum(States(lines)))
    ensures DiscountsRecomputed(order.discounts, old(Amounts(order.discounts)), Amounts(order.discounts),
                                undiscountedSubtotal, order.baseShippingPrice, subtotal, shippingPrice, toUpdate)
  {
    undiscountedSubtotal := BaseOrderSubtotal(lines);
    shippingPrice := order.baseShippingPrice;
    subtotal := BaseOrderSubtotal(lines);
    subtotal, shippingPrice, toUpdate := ApplyDiscountsInTurn(order.discounts, subtotal, shippingPrice);
  }

  /**
   * The `override_prices` branch of `apply_order_discounts`: the order's
   * shipping and total prices become the discounted ones and the subtotal
   * discount is spread over the lines.
   */
  method OverridePrices(order: Order, lines: seq<OrderLine>, undiscountedSubtotal: real,
                        subtotal: real, shippingPrice: real)
    requires Distinct(lines) && undiscountedSubtotal == Quantize(LinesSum(States(lines)))
    requires NonZeroQuantities(States(lines)) && (|lines| > 1 ==> undiscountedSubtotal != 0.0)
    modifies order, set l | l in lines
    ensures order.Prices() == (shippingPrice, shippingPrice, subtotal + shippingPrice, subtotal + shippingPrice)
    ensures SubtotalDiscountSpread(old(States(lines)), States(lines), undiscountedSubtotal, subtotal)
  {
    ghost var ps := States(lines);
    order.SetDiscountedPrices(subtotal, shippingPrice);
    assert States(lines) == ps;
    SpreadSubtotalDiscount(lines, undiscountedSubtotal, subtotal);
  }

  /**
   * The end of the `override_prices` branch: the difference between the
   * undiscounted and the discounted subtotal is spread over the lines.
   */
  method SpreadSubtotalDiscount(lines: seq<OrderLine>, undiscountedSubtotal: real, subtotal: real)
    requires Distinct(lines)
    requires NonZeroQuantities(States(lines)) && (|lines| > 1 ==> undiscountedSubtotal != 0.0)
    modifies set l | l in lines
    ensures SubtotalDiscountSpread(old(States(lines)), States(lines), undiscountedSubtotal, subtotal)
  {
    var subtotalDiscount := undiscountedSubtotal - subtotal;
    ApplySubtotalDiscountToOrderLines(lines, undiscountedSubtotal, subtotalDiscount);
  }
}
