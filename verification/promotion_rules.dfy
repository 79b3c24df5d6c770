/**
 * Promotion rules: which rules apply in a channel, the best catalogue
 * discount among them, the price left after a list of rules, the best
 * order-level rule, and the display name and reason a rule gives the
 * discount records it produces.
 */
module PromotionRules {
  import opened Wrappers
  import opened Prices

  /** `RewardType` of an order-level rule. */
  datatype RewardType = SubtotalDiscount | Gift

  datatype PromotionRule = PromotionRule(
    id: nat,
    name: Option<string>,
    rewardValueType: DiscountValueType,
    rewardValue: real,
    rewardType: Option<RewardType>)

  /** A promotion; `id` is the text of its UUID. */
  datatype Promotion = Promotion(id: string, name: Option<string>, oldSaleId: Option<nat>)

  /** `PromotionRuleInfo`: a rule and the ids of the channels it is attached to. */
  datatype PromotionRuleInfo = PromotionRuleInfo(rule: PromotionRule, channelIds: seq<nat>)

  /** A translation row; only its name is used here. */
  datatype Translation = Translation(name: string)

  /** `VariantPromotionRuleInfo`: a rule as it applies to one variant listing. */
  datatype VariantPromotionRuleInfo = VariantPromotionRuleInfo(
    rule: PromotionRule,
    variantListingDiscount: Option<real>,
    promotion: Promotion,
    promotionTranslation: Option<Translation>,
    ruleTranslation: Option<Translation>)

  /** The discount a rule grants: `rule.get_discount(currency)`, kept as data. */
  datatype RuleDiscount = RuleDiscount(ruleId: nat, valueType: DiscountValueType, value: real)

  /** The amount a rule takes off `price`. */
  function RuleSaving(rule: PromotionRule, price: real): real {
    Saving(rule.rewardValue, rule.rewardValueType, price)
  }

  /** `max(..., key=...)`: the index of the first largest element. */
  function FirstMaxIndex(a: seq<real>): (k: nat)
    requires |a| > 0
    ensures k < |a|
    ensures forall j :: 0 <= j < |a| ==> a[j] <= a[k]
    ensures forall j :: 0 <= j < k ==> a[j] < a[k]
  {
    if |a| == 1 then 0
    else
      var m := FirstMaxIndex(a[..|a| - 1]);
      if a[|a| - 1] > a[m] then |a| - 1 else m
  }

  /**
   * `get_product_discount_on_promotion`: the rule's discount when the
   * channel is among the rule's channels, `NotApplicable` (None) otherwise.
   */
  function GetProductDiscountOnPromotion(ruleInfo: PromotionRuleInfo, channelId: nat): (r: Option<RuleDiscount>)
    ensures r.Some? <==> channelId in ruleInfo.channelIds
    ensures r.Some? ==> r.value.ruleId == ruleInfo.rule.id
                        && r.value.valueType == ruleInfo.rule.rewardValueType
                        && r.value.value == ruleInfo.rule.rewardValue
  {
    if channelId in ruleInfo.channelIds then
      Some(RuleDiscount(ruleInfo.rule.id, ruleInfo.rule.rewardValueType, ruleInfo.rule.rewardValue))
    else None
  }

  /** The discount of a rule as data. */
  function DiscountOf(rule: PromotionRule): RuleDiscount {
    RuleDiscount(rule.id, rule.rewardValueType, rule.rewardValue)
  }

  /**
   * `get_product_promotion_discounts`: the discounts of the rules that apply
   * in the channel, in rule order; the others are skipped.
   */
  function GetProductPromotionDiscounts(rules: seq<PromotionRuleInfo>, channelId: nat): (r: seq<RuleDiscount>)
    ensures |r| <= |rules|
    ensures forall i :: 0 <= i < |rules| && channelId in rules[i].channelIds ==> DiscountOf(rules[i].rule) in r
    ensures forall d :: d in r ==> exists i :: 0 <= i < |rules| && channelId in rules[i].channelIds
                                          && d == DiscountOf(rules[i].rule)
  {
    if rules == [] then []
    else
      var rest := GetProductPromotionDiscounts(rules[1..], channelId);
      assert forall i :: 1 <= i < |rules| ==> rules[i] == rules[1..][i - 1];
      match GetProductDiscountOnPromotion(rules[0], channelId)
      case Some(d) => [d] + rest
      case None => rest
  }

  /**
   * The discounts of a list of rules followed by another are those of the
   * first list followed by those of the second: each rule contributes in
   * its own place, so the discounts come in rule order.
   */
  lemma {:induction false} DiscountsInRuleOrder(a: seq<PromotionRuleInfo>, b: seq<PromotionRuleInfo>, channelId: nat)
    ensures GetProductPromotionDiscounts(a + b, channelId) ==
            GetProductPromotionDiscounts(a, channelId) + GetProductPromotionDiscounts(b, channelId)
  {
    if a == [] {
      assert a + b == b;
    } else {
      assert (a + b)[1..] == a[1..] + b;
      DiscountsInRuleOrder(a[1..], b, channelId);
    }
  }

  /** The discount of an applicable rule `j` follows the discounts of the rules before it. */
  lemma DiscountPosition(rules: seq<PromotionRuleInfo>, channelId: nat, j: int)
    requires 0 <= j < |rules| && channelId in rules[j].channelIds
    ensures |GetProductPromotionDiscounts(rules[..j], channelId)| < |GetProductPromotionDiscounts(rules, channelId)|
    ensures GetProductPromotionDiscounts(rules, channelId)[|GetProductPromotionDiscounts(rules[..j], channelId)|]
            == DiscountOf(rules[j].rule)
  {
    DiscountsInRuleOrder(rules[..j], rules[j..], channelId);
    assert rules[..j] + rules[j..] == rules;
    assert rules[j..][0] == rules[j];
  }

  /** The `m`-th discount comes from an applicable rule `w` preceded by exactly `m` discounts. */
  lemma {:induction false} DiscountSource(rules: seq<PromotionRuleInfo>, channelId: nat, m: nat) returns (w: nat)
    requires m < |GetProductPromotionDiscounts(rules, channelId)|
    ensures w < |rules| && channelId in rules[w].channelIds
    ensures |GetProductPromotionDiscounts(rules[..w], channelId)| == m
    ensures GetProductPromotionDiscounts(rules, channelId)[m] == DiscountOf(rules[w].rule)
  {
    var rest := rules[1..];
    if channelId in rules[0].channelIds && m == 0 {
      w := 0;
      assert rules[..0] == [];
    } else {
      var m' := if channelId in rules[0].channelIds then m - 1 else m;
      var w' := DiscountSource(rest, channelId, m');
      w := w' + 1;
      assert rules[..w][1..] == rest[..w'];
      assert rules[w] == rest[w'];
    }
  }

  /**
   * Savings listed in the order of the discounts, and `m` the first largest:
   * `w`, the rule behind discount `m`, saves more than every applicable rule
   * before it.
   */
  lemma EarlierRulesSaveLess(rules: seq<PromotionRuleInfo>, channelId: nat, price: real,
                             savings: seq<real>, m: nat, w: nat)
    requires |savings| == |GetProductPromotionDiscounts(rules, channelId)|
    requires forall k :: 0 <= k < |savings| ==>
               savings[k] == Saving(GetProductPromotionDiscounts(rules, channelId)[k].value,
                                    GetProductPromotionDiscounts(rules, channelId)[k].valueType, price)
    requires m < |savings| && forall k :: 0 <= k < m ==> savings[k] < savings[m]
    requires w <= |rules| && |GetProductPromotionDiscounts(rules[..w], channelId)| == m
    ensures forall j :: 0 <= j < w && channelId in rules[j].channelIds ==> RuleSaving(rules[j].rule, price) < savings[m]
  {
    var available := GetProductPromotionDiscounts(rules, channelId);
    var upTo := GetProductPromotionDiscounts(rules[..w], channelId);
    DiscountsInRuleOrder(rules[..w], rules[w..], channelId);
    assert rules[..w] + rules[w..] == rules;
    forall j | 0 <= j < w && channelId in rules[j].channelIds
      ensures RuleSaving(rules[j].rule, price) < savings[m]
    {
      DiscountPosition(rules[..w], channelId, j);
      assert rules[..w][..j] == rules[..j] && rules[..w][j] == rules[j];
      var k := |GetProductPromotionDiscounts(rules[..j], channelId)|;
      assert available[k] == upTo[k];
    }
  }

  /**
   * `get_best_promotion_discount`: the id and saving of the rule with the
   * largest saving on `price` among the rules that apply in the channel
   * (the first one on a tie), or None when no rule applies.
   */
  method GetBestPromotionDiscount(price: real, rules: seq<PromotionRuleInfo>, channelId: nat)
    returns (r: Option<(nat, real)>)
    ensures r.None? <==> forall i :: 0 <= i < |rules| ==> channelId !in rules[i].channelIds
    ensures r.Some? ==> exists i :: 0 <= i < |rules| && channelId in rules[i].channelIds
                                 && r.value == (rules[i].rule.id, RuleSaving(rules[i].rule, price))
                                 && forall j :: 0 <= j < i && channelId in rules[j].channelIds ==>
                                                  RuleSaving(rules[j].rule, price) < r.value.1
    ensures r.Some? ==> forall i :: 0 <= i < |rules| && channelId in rules[i].channelIds ==>
                                      RuleSaving(rules[i].rule, price) <= r.value.1
  {
    var available := GetProductPromotionDiscounts(rules, channelId);
    var savings: seq<real> := [];
    var i := 0;
    while i < |available|
      invariant 0 <= i <= |available|
      invariant |savings| == i
      invariant forall j :: 0 <= j < i ==>
                  savings[j] == Saving(available[j].value, available[j].valueType, price)
    {
      savings := savings + [Saving(available[i].value, available[i].valueType, price)];
      i := i + 1;
    }
    if |available| == 0 {
      return None;
    }
    var m := FirstMaxIndex(savings);
    r := Some((available[m].ruleId, savings[m]));
    var w := DiscountSource(rules, channelId, m);
    assert r.value == (rules[w].rule.id, RuleSaving(rules[w].rule, price));
    EarlierRulesSaveLess(rules, channelId, price, savings, m, w);
    forall j | 0 <= j < |rules| && channelId in rules[j].channelIds
      ensures RuleSaving(rules[j].rule, price) <= r.value.1
    {
      var d := DiscountOf(rules[j].rule);
      var n :| 0 <= n < |available| && available[n] == d;
      assert savings[n] == RuleSaving(rules[j].rule, price);
    }
  }

  /**
   * `calculate_discounted_price_for_promotions`: the best promotion
   * discount for a variant, None when the variant has no rules.
   */
  method CalculateDiscountedPriceForPromotions(price: real, rulesPerVariant: map<nat, seq<PromotionRuleInfo>>,
                                               channelId: nat, variantId: nat)
    returns (r: Option<(nat, real)>)
    ensures variantId !in rulesPerVariant ==> r.None?
    ensures r.None? <==> variantId !in rulesPerVariant ||
                         forall i :: 0 <= i < |rulesPerVariant[variantId]| ==> channelId !in rulesPerVariant[variantId][i].channelIds
    ensures r.Some? ==> variantId in rulesPerVariant
    ensures r.Some? ==>
              (exists i :: 0 <= i < |rulesPerVariant[variantId]|
                && channelId in rulesPerVariant[variantId][i].channelIds
                && r.value == (rulesPerVariant[variantId][i].rule.id,
                               RuleSaving(rulesPerVariant[variantId][i].rule, price)))
    ensures r.Some? ==>
              (forall i :: (0 <= i < |rulesPerVariant[variantId]|
                            && channelId in rulesPerVariant[variantId][i].channelIds) ==>
                   RuleSaving(rulesPerVariant[variantId][i].rule, price) <= r.value.1)
  {
    r := None;
    if variantId in rulesPerVariant && |rulesPerVariant[variantId]| > 0 {
      r := GetBestPromotionDiscount(price, rulesPerVariant[variantId], channelId);
    }
  }

  /** The sum of the savings each rule, on its own, takes off `price`. */
  function TotalSaving(price: real, rules: seq<PromotionRule>): real {
    if rules == [] then 0.0
    else TotalSaving(price, rules[..|rules| - 1]) + RuleSaving(rules[|rules| - 1], price)
  }

  /** Rules with non-negative values never add to a non-negative price. */
  lemma {:induction false} TotalSavingNonNegative(price: real, rules: seq<PromotionRule>)
    requires price >= 0.0
    requires forall i :: 0 <= i < |rules| ==> rules[i].rewardValue >= 0.0
    ensures TotalSaving(price, rules) >= 0.0
  {
    if rules != [] {
      var last := rules[|rules| - 1];
      TotalSavingNonNegative(price, rules[..|rules| - 1]);
      SavingBounds(last.rewardValue, last.rewardValueType, price);
    }
  }

  /**
   * `calculate_discounted_price_for_rules`: the savings of all rules are
   * summed and taken off the price together, never going below zero.
   */
  method CalculateDiscountedPriceForRules(price: real, rules: seq<PromotionRule>) returns (r: real)
    ensures r >= 0.0
    ensures r == if price - TotalSaving(price, rules) > 0.0 then price - TotalSaving(price, rules) else 0.0
    ensures price >= 0.0 && (forall i :: 0 <= i < |rules| ==> rules[i].rewardValue >= 0.0) ==> r <= price
  {
    var totalDiscount := 0.0;
    var i := 0;
    while i < |rules|
      invariant 0 <= i <= |rules|
      invariant totalDiscount == TotalSaving(price, rules[..i])
    {
      assert rules[..i + 1][..i] == rules[..i];
      totalDiscount := totalDiscount + RuleSaving(rules[i], price);
      i := i + 1;
    }
    assert rules[..|rules|] == rules;
    r := if price - totalDiscount > 0.0 then price - totalDiscount else 0.0;
    if price >= 0.0 && (forall i :: 0 <= i < |rules| ==> rules[i].rewardValue >= 0.0) {
      TotalSavingNonNegative(price, rules);
    }
  }

  /**
   * `get_discount_name`: "promotion: rule" when both names are set,
   * otherwise the rule's name when set, otherwise the promotion's.
   */
  function GetDiscountName(rule: PromotionRule, promotion: Promotion): (r: Option<string>)
    ensures IsTruthy(r) <==> IsTruthy(rule.name) || IsTruthy(promotion.name)
    ensures IsTruthy(rule.name) && IsTruthy(promotion.name) ==>
              r == Some(promotion.name.value + ": " + rule.name.value)
    ensures IsTruthy(rule.name) && !IsTruthy(promotion.name) ==> r == rule.name
    ensures !IsTruthy(rule.name) ==> r == promotion.name
  {
    if IsTruthy(promotion.name) && IsTruthy(rule.name) then
      Some(promotion.name.value + ": " + rule.name.value)
    else if IsTruthy(rule.name) then rule.name
    else promotion.name
  }

  /**
   * `get_discount_translated_name`: "promotion: rule" from both
   * translations, else whichever translation exists, else None.
   */
  function GetDiscountTranslatedName(info: VariantPromotionRuleInfo): (r: Option<string>)
    ensures r.None? <==> info.promotionTranslation.None? && info.ruleTranslation.None?
    ensures info.ruleTranslation.Some? && info.promotionTranslation.Some? ==>
              r == Some(info.promotionTranslation.value.name + ": " + info.ruleTranslation.value.name)
    ensures info.ruleTranslation.Some? && info.promotionTranslation.None? ==>
              r == Some(info.ruleTranslation.value.name)
    ensures info.ruleTranslation.None? && info.promotionTranslation.Some? ==>
              r == Some(info.promotionTranslation.value.name)
  {
    match (info.promotionTranslation, info.ruleTranslation)
    case (Some(p), Some(t)) => Some(p.name + ": " + t.name)
    case (None, Some(t)) => Some(t.name)
    case (Some(p), None) => Some(p.name)
    case (None, None) => None
  }

  /** Decimal digits of a natural number. */
  function NatToString(n: nat): (s: string)
    ensures |s| > 0
    ensures forall i :: 0 <= i < |s| ==> '0' <= s[i] <= '9'
  {
    var digit := ['0' + (n % 10) as char];
    if n < 10 then digit else NatToString(n / 10) + digit
  }

  /** A global object id: the type name and the object's id. */
  datatype GlobalId = GlobalId(typeName: string, id: string)

  /**
   * The text of a global id. The API base64-encodes this text; encoding is
   * injective, so comparing encoded ids is comparing these texts.
   */
  function GlobalIdText(g: GlobalId): string {
    g.typeName + ":" + g.id
  }

  /** `get_sale_id`: a promotion migrated from a sale keeps its old sale id. */
  function GetSaleId(promotion: Promotion): (g: GlobalId)
    ensures g.typeName == (if promotion.oldSaleId.Some? && promotion.oldSaleId.value != 0 then "Sale" else "Promotion")
    ensures g.id == (if promotion.oldSaleId.Some? && promotion.oldSaleId.value != 0
                     then NatToString(promotion.oldSaleId.value) else promotion.id)
  {
    if promotion.oldSaleId.Some? && promotion.oldSaleId.value != 0 then
      GlobalId("Sale", NatToString(promotion.oldSaleId.value))
    else
      GlobalId("Promotion", promotion.id)
  }

  /** `prepare_promotion_discount_reason`: "Sale: <id>" or "Promotion: <id>". */
  function PrepareDiscountReason(promotion: Promotion, saleId: string): (r: string)
    ensures var kind := if promotion.oldSaleId.Some? && promotion.oldSaleId.value != 0 then "Sale" else "Promotion";
            |r| == |kind| + 2 + |saleId| && r[..|kind|] == kind && r[|kind|..|kind| + 2] == ": " &&
            r[|kind| + 2..] == saleId
  {
    (if promotion.oldSaleId.Some? && promotion.oldSaleId.value != 0 then "Sale" else "Promotion")
      + ": " + saleId
  }

  /** The sale id can be read back from a reason: different ids give different reasons. */
  lemma PrepareDiscountReasonInjective(promotion: Promotion, a: string, b: string)
    requires PrepareDiscountReason(promotion, a) == PrepareDiscountReason(promotion, b)
    ensures a == b
  {
    var ra, rb := PrepareDiscountReason(promotion, a), PrepareDiscountReason(promotion, b);
    var n := if promotion.oldSaleId.Some? && promotion.oldSaleId.value != 0 then 6 else 11;
    assert a == ra[n..] && b == rb[n..];
  }

  /** The reason recorded for a discount coming from `promotion`. */
  function PromotionReason(promotion: Promotion): string {
    PrepareDiscountReason(promotion, GlobalIdText(GetSaleId(promotion)))
  }

  /**
   * The discount an order-level rule takes off the subtotal
   * (`create_discount_objects_for_order_promotions`): rules whose reward is
   * not a subtotal discount are priced against zero.
   */
  function OrderRuleDiscountAmount(rule: PromotionRule, subtotal: real): real {
    var price := if rule.rewardType == Some(SubtotalDiscount) then subtotal else 0.0;
    Saving(rule.rewardValue, rule.rewardValueType, price)
  }

  /**
   * The best-rule selection of `create_discount_objects_for_order_promotions`:
   * among the qualifying order rules, the first one with the largest
   * discount on the subtotal.
   */
  method SelectBestOrderRule(rules: seq<PromotionRule>, subtotal: real)
    returns (k: nat, amount: real)
    requires |rules| > 0
    ensures k < |rules| && amount == OrderRuleDiscountAmount(rules[k], subtotal)
    ensures forall i :: 0 <= i < |rules| ==> OrderRuleDiscountAmount(rules[i], subtotal) <= amount
    ensures forall j :: 0 <= j < k ==> OrderRuleDiscountAmount(rules[j], subtotal) < amount
  {
    var amounts: seq<real> := [];
    var i := 0;
    while i < |rules|
      invariant 0 <= i <= |rules|
      invariant |amounts| == i
      invariant forall j :: 0 <= j < i ==> amounts[j] == OrderRuleDiscountAmount(rules[j], subtotal)
    {
      amounts := amounts + [OrderRuleDiscountAmount(rules[i], subtotal)];
      i := i + 1;
    }
    k := FirstMaxIndex(amounts);
    amount := amounts[k];
  }
}
