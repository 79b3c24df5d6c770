/**
 * Order-level promotions on a checkout
 * (`create_discount_objects_for_order_promotions` and its helpers): the
 * checkout's base prices are refreshed, and either the order-promotion
 * discount is cleared (a voucher code is set, or no order rule applies) or
 * the single order-promotion record is created or brought up to date from
 * the rule with the largest discount on the base subtotal.
 *
 * The rows of `CheckoutDiscount` belonging to the checkout are held in
 * `Checkout.discountRows`; `save()` calls only persist fields and are not
 * modelled.
 */
module OrderPromotion {
  import opened Wrappers
  import opened PromotionRules
  import opened DiscountRecords

  /**
   * An order rule as fetched for the checkout, with its promotion and the
   * translations `get_rule_translations` finds for the checkout's language.
   */
  datatype OrderRuleInfo = OrderRuleInfo(
    rule: PromotionRule,
    promotion: Promotion,
    promotionTranslation: Option<Translation>,
    ruleTranslation: Option<Translation>)

  /** The `VariantPromotionRuleInfo` built for the best rule (no variant listing). */
  function RuleInfoFor(r: OrderRuleInfo): VariantPromotionRuleInfo {
    VariantPromotionRuleInfo(r.rule, None, r.promotion, r.promotionTranslation, r.ruleTranslation)
  }

  function RulesOf(infos: seq<OrderRuleInfo>): (r: seq<PromotionRule>)
    ensures |r| == |infos| && forall i :: 0 <= i < |infos| ==> r[i] == infos[i].rule
  {
    if infos == [] then [] else [infos[0].rule] + RulesOf(infos[1..])
  }

  /** `get_or_create` finding more than one matching row. */
  datatype GetOrCreateError = MultipleObjectsReturned

  class Checkout {
    const voucherCode: Option<string>
    var baseSubtotal: real
    var baseTotal: real
    var discountAmount: real
    var discountName: Option<string>
    var translatedDiscountName: Option<string>
    var discountRows: seq<Discount>

    constructor (voucherCode: Option<string>, discountRows: seq<Discount>)
      ensures this.voucherCode == voucherCode && this.discountRows == discountRows
    {
      this.voucherCode := voucherCode;
      this.discountRows := discountRows;
    }
  }

  /**
   * `CheckoutInfo`: the checkout, the voucher code fetched for it (None when
   * there is none) and the discounts held in memory.
   */
  class CheckoutInfo {
    const checkout: Checkout
    const voucherCode: Option<string>
    var discounts: seq<Discount>

    constructor (checkout: Checkout, voucherCode: Option<string>, discounts: seq<Discount>)
      ensures this.checkout == checkout && this.voucherCode == voucherCode && this.discounts == discounts
    {
      this.checkout := checkout;
      this.voucherCode := voucherCode;
      this.discounts := discounts;
    }
  }

  /** The records whose type is not `ORDER_PROMOTION`, in order. */
  function WithoutOrderPromotions(ds: seq<Discount>): (r: seq<Discount>)
    ensures forall d | d in r :: d in ds && d.discountType != OrderPromotion
    ensures forall d | d in ds && d.discountType != OrderPromotion :: d in r
    ensures |r| <= |ds|
  {
    if ds == [] then []
    else (if ds[0].discountType == OrderPromotion then [] else [ds[0]]) + WithoutOrderPromotions(ds[1..])
  }

  /** The records whose type is `ORDER_PROMOTION`, in order. */
  function OrderPromotionsOf(ds: seq<Discount>): (r: seq<Discount>)
    ensures forall d | d in r :: d in ds && d.discountType == OrderPromotion
    ensures forall d | d in ds && d.discountType == OrderPromotion :: d in r
    ensures |r| <= |ds|
  {
    if ds == [] then []
    else (if ds[0].discountType == OrderPromotion then [ds[0]] else []) + OrderPromotionsOf(ds[1..])
  }

  /** Dropping the order promotions twice drops nothing more. */
  lemma {:induction false} WithoutOrderPromotionsIdempotent(ds: seq<Discount>)
    ensures WithoutOrderPromotions(WithoutOrderPromotions(ds)) == WithoutOrderPromotions(ds)
    ensures OrderPromotionsOf(WithoutOrderPromotions(ds)) == []
  {
    if ds != [] {
      WithoutOrderPromotionsIdempotent(ds[1..]);
      var rest := WithoutOrderPromotions(ds[1..]);
      if ds[0].discountType == OrderPromotion {
        assert WithoutOrderPromotions(ds) == rest;
      } else {
        var w := [ds[0]] + rest;
        assert WithoutOrderPromotions(ds) == w;
        assert w[0] == ds[0] && w[1..] == rest;
        assert WithoutOrderPromotions(w) == [ds[0]] + WithoutOrderPromotions(rest);
        assert OrderPromotionsOf(w) == [] + OrderPromotionsOf(rest);
      }
    }
  }

  /**
   * `_set_checkout_base_prices`: the base subtotal and total become the
   * given subtotal and subtotal plus shipping; an update is needed exactly
   * when either differed.
   */
  method SetCheckoutBasePrices(checkout: Checkout, subtotal: real, shippingPrice: real)
    returns (updateNeeded: bool)
    modifies checkout
    ensures checkout.baseSubtotal == subtotal && checkout.baseTotal == subtotal + shippingPrice
    ensures updateNeeded <==> !(old(checkout.baseSubtotal) == subtotal && old(checkout.baseTotal) == subtotal + shippingPrice)
    ensures checkout.discountAmount == old(checkout.discountAmount)
    ensures checkout.discountName == old(checkout.discountName)
    ensures checkout.translatedDiscountName == old(checkout.translatedDiscountName)
    ensures checkout.discountRows == old(checkout.discountRows)
  {
    var total := subtotal + shippingPrice;
    updateNeeded := !(checkout.baseSubtotal == subtotal && checkout.baseTotal == total);
    if updateNeeded {
      checkout.baseSubtotal := subtotal;
      checkout.baseTotal := total;
    }
  }

  /**
   * The state `_clear_checkout_discount` leaves: no order promotion in
   * memory, none among the rows either when there were discounts in memory,
   * and -- without a voucher code -- no checkout discount.
   */
  ghost predicate Cleared(info: CheckoutInfo, discounts0: seq<Discount>, rows0: seq<Discount>,
                          amount0: real, name0: Option<string>, translated0: Option<string>)
    reads info, info.checkout
  {
    info.discounts == WithoutOrderPromotions(discounts0) &&
    info.checkout.discountRows == (if discounts0 != [] then WithoutOrderPromotions(rows0) else rows0) &&
    (if !IsTruthy(info.voucherCode) then
       info.checkout.discountAmount == 0.0 && info.checkout.discountName.None? &&
       info.checkout.translatedDiscountName.None?
     else
       info.checkout.discountAmount == amount0 && info.checkout.discountName == name0 &&
       info.checkout.translatedDiscountName == translated0)
  }

  /** `_clear_checkout_discount` */
  method ClearCheckoutDiscount(info: CheckoutInfo)
    modifies info, info.checkout
    ensures Cleared(info, old(info.discounts), old(info.checkout.discountRows), old(info.checkout.discountAmount),
                    old(info.checkout.discountName), old(info.checkout.translatedDiscountName))
    ensures info.checkout.baseSubtotal == old(info.checkout.baseSubtotal)
    ensures info.checkout.baseTotal == old(info.checkout.baseTotal)
  {
    if info.discounts != [] {
      info.checkout.discountRows := WithoutOrderPromotions(info.checkout.discountRows);
      info.discounts := WithoutOrderPromotions(info.discounts);
    }
    var checkout := info.checkout;
    if !IsTruthy(info.voucherCode) {
      var updateNeeded := !(checkout.discountAmount == 0.0 && checkout.discountName.None?
                            && checkout.translatedDiscountName.None?);
      if updateNeeded {
        checkout.discountAmount := 0.0;
        checkout.discountName := None;
        checkout.translatedDiscountName := None;
      }
    }
  }

  /**
   * `_create_or_update_checkout_discount`: the checkout's order-promotion
   * row is fetched or created (`get_or_create`, which fails on several
   * rows), holds the best rule's values afterwards, and becomes the only
   * discount in memory; the checkout's discount amount and names follow it.
   * `changed` lists the fields an existing row changed, in comparison order.
   */
  method CreateOrUpdateCheckoutDiscount(info: CheckoutInfo, best: OrderRuleInfo, amount: real)
    returns (r: Outcome<GetOrCreateError>, created: bool, changed: seq<FieldName>)
    modifies info, info.checkout, set d | d in info.checkout.discountRows
    ensures r.Fail? <==> |old(OrderPromotionsOf(info.checkout.discountRows))| > 1
    ensures r.Fail? ==> info.discounts == old(info.discounts) && unchanged(info.checkout)
    ensures r.Pass? ==>
              |info.discounts| == 1 && info.discounts[0].discountType == OrderPromotion &&
              info.discounts[0].Fields() == RuleDerivedFields(best.rule, RuleInfoFor(best), amount)
    ensures r.Pass? ==>
              info.checkout.discountAmount == amount &&
              info.checkout.discountName == GetDiscountName(best.rule, best.promotion) &&
              info.checkout.translatedDiscountName == GetDiscountTranslatedName(RuleInfoFor(best))
    ensures r.Pass? ==> (created <==> old(OrderPromotionsOf(info.checkout.discountRows)) == [])
    ensures r.Pass? && created ==>
              fresh(info.discounts[0]) && changed == [] &&
              info.checkout.discountRows == old(info.checkout.discountRows) + [info.discounts[0]]
    ensures r.Pass? && !created ==>
              info.discounts[0] == old(OrderPromotionsOf(info.checkout.discountRows))[0] &&
              info.checkout.discountRows == old(info.checkout.discountRows) &&
              changed == ChangedFields(old(OrderPromotionsOf(info.checkout.discountRows)[0].Fields()),
                                       info.discounts[0].Fields())
    ensures info.checkout.baseSubtotal == old(info.checkout.baseSubtotal)
    ensures info.checkout.baseTotal == old(info.checkout.baseTotal)
  {
    var checkout := info.checkout;
    if |OrderPromotionsOf(checkout.discountRows)| > 1 {
      return Fail(MultipleObjectsReturned), false, [];
    }
    var discount;
    discount, created, changed := GetOrCreateCheckoutDiscount(checkout, best, amount);
    info.discounts := [discount];
    checkout.discountAmount := amount;
    checkout.discountName := discount.name;
    checkout.translatedDiscountName := discount.translatedName;
    r := Pass;
  }

  /**
   * The `get_or_create` step of `_create_or_update_checkout_discount` when
   * at most one order-promotion row exists: the existing row is updated to
   * the best rule's values, or a new row with them is appended.
   */
  method GetOrCreateCheckoutDiscount(checkout: Checkout, best: OrderRuleInfo, amount: real)
    returns (discount: Discount, created: bool, changed: seq<FieldName>)
    requires |OrderPromotionsOf(checkout.discountRows)| <= 1
    modifies checkout, set d | d in checkout.discountRows
    ensures discount.discountType == OrderPromotion
    ensures discount.Fields() == RuleDerivedFields(best.rule, RuleInfoFor(best), amount)
    ensures created <==> old(OrderPromotionsOf(checkout.discountRows)) == []
    ensures created ==>
              fresh(discount) && changed == [] && checkout.discountRows == old(checkout.discountRows) + [discount]
    ensures !created ==>
              discount == old(OrderPromotionsOf(checkout.discountRows))[0] &&
              checkout.discountRows == old(checkout.discountRows) &&
              changed == ChangedFields(old(OrderPromotionsOf(checkout.discountRows)[0].Fields()), discount.Fields())
    ensures checkout.discountAmount == old(checkout.discountAmount)
    ensures checkout.discountName == old(checkout.discountName)
    ensures checkout.translatedDiscountName == old(checkout.translatedDiscountName)
    ensures checkout.baseSubtotal == old(checkout.baseSubtotal) && checkout.baseTotal == old(checkout.baseTotal)
  {
    var ruleInfo := RuleInfoFor(best);
    var matching := OrderPromotionsOf(checkout.discountRows);
    if matching == [] {
      discount := new Discount(OrderPromotion, RuleDerivedFields(best.rule, ruleInfo, amount));
      checkout.discountRows := checkout.discountRows + [discount];
      created, changed := true, [];
    } else {
      discount := matching[0];
      changed := UpdateDiscount(best.rule, ruleInfo, amount, discount, []);
      created := false;
    }
  }

  /**
   * `create_discount_objects_for_order_promotions`, given the base subtotal
   * and shipping price the checkout calculations produce and the order
   * rules that apply to the checkout. `applied` is the index of the rule
   * whose discount was applied: the first with the largest discount on the
   * base subtotal.
   */
  method CreateDiscountObjectsForOrderPromotions(info: CheckoutInfo, subtotal: real, shippingPrice: real,
                                                 rules: seq<OrderRuleInfo>)
    returns (r: Outcome<GetOrCreateError>, applied: Option<nat>)
    modifies info, info.checkout, set d | d in info.checkout.discountRows
    ensures info.checkout.baseSubtotal == subtotal && info.checkout.baseTotal == subtotal + shippingPrice
    ensures (IsTruthy(info.checkout.voucherCode) || rules == []) ==>
              r.Pass? && applied.None? &&
              Cleared(info, old(info.discounts), old(info.checkout.discountRows), old(info.checkout.discountAmount),
                      old(info.checkout.discountName), old(info.checkout.translatedDiscountName))
    ensures !(IsTruthy(info.checkout.voucherCode) || rules == []) ==>
              (r.Fail? <==> |old(OrderPromotionsOf(info.checkout.discountRows))| > 1) &&
              (r.Pass? <==> applied.Some?)
    ensures applied.Some? ==>
              applied.value < |rules| &&
              (forall i :: 0 <= i < |rules| ==>
                 OrderRuleDiscountAmount(rules[i].rule, subtotal) <= info.checkout.discountAmount) &&
              (forall j :: 0 <= j < applied.value ==>
                 OrderRuleDiscountAmount(rules[j].rule, subtotal) < info.checkout.discountAmount) &&
              info.checkout.discountAmount == OrderRuleDiscountAmount(rules[applied.value].rule, subtotal) &&
              |info.discounts| == 1 && info.discounts[0].discountType == OrderPromotion &&
              info.discounts[0].promotionRuleId == Some(rules[applied.value].rule.id) &&
              info.discounts[0].Fields() ==
                RuleDerivedFields(rules[applied.value].rule, RuleInfoFor(rules[applied.value]), info.checkout.discountAmount) &&
              info.checkout.discountName == GetDiscountName(rules[applied.value].rule, rules[applied.value].promotion) &&
              info.checkout.translatedDiscountName == GetDiscountTranslatedName(RuleInfoFor(rules[applied.value]))
    ensures r.Fail? ==>
              info.discounts == old(info.discounts) && info.checkout.discountRows == old(info.checkout.discountRows) &&
              info.checkout.discountAmount == old(info.checkout.discountAmount) &&
              info.checkout.discountName == old(info.checkout.discountName) &&
              info.checkout.translatedDiscountName == old(info.checkout.translatedDiscountName)
  {
    var checkout := info.checkout;
    var _ := SetCheckoutBasePrices(checkout, subtotal, shippingPrice);
    if IsTruthy(checkout.voucherCode) || rules == [] {
      ClearCheckoutDiscount(info);
      return Pass, None;
    }
    var k, amount := SelectBestOrderRule(RulesOf(rules), checkout.baseSubtotal);
    var created, changed;
    r, created, changed := CreateOrUpdateCheckoutDiscount(info, rules[k], amount);
    applied := if r.Pass? then Some(k) else None;
  }
}
