/**
 * Discount records (`CheckoutLineDiscount`, `CheckoutDiscount`) and
 * `_update_discount`, which brings a record in line with a promotion rule
 * and reports which of its fields changed.
 */
module DiscountRecords {
  import opened Wrappers
  import opened Prices
  import opened PromotionRules

  /** `DiscountType` */
  datatype DiscountType = CataloguePromotion | OrderPromotion | VoucherDiscount | ManualDiscount

  /** The fields of a discount record that a promotion rule determines. */
  datatype DiscountFields = DiscountFields(
    promotionRuleId: Option<nat>,
    valueType: DiscountValueType,
    value: real,
    amountValue: real,
    name: Option<string>,
    translatedName: Option<string>,
    reason: Option<string>)

  /** The names `_update_discount` appends to `updated_fields`. */
  datatype FieldName =
    | PromotionRuleIdField | ValueTypeField | ValueField | AmountValueField
    | NameField | TranslatedNameField | ReasonField

  /** Whether two field sets disagree on field `f`. */
  predicate Differs(a: DiscountFields, b: DiscountFields, f: FieldName) {
    match f
    case PromotionRuleIdField => a.promotionRuleId != b.promotionRuleId
    case ValueTypeField => a.valueType != b.valueType
    case ValueField => a.value != b.value
    case AmountValueField => a.amountValue != b.amountValue
    case NameField => a.name != b.name
    case TranslatedNameField => a.translatedName != b.translatedName
    case ReasonField => a.reason != b.reason
  }

  /** `acc` with `f` appended when `changed`. */
  function Step(acc: seq<FieldName>, changed: bool, f: FieldName): seq<FieldName> {
    acc + Flagged(changed, f)
  }

  /** `[f]` when `changed`, else nothing. */
  function Flagged(changed: bool, f: FieldName): seq<FieldName> {
    if changed then [f] else []
  }

  /** No field name appears twice. */
  predicate NoRepeats(fs: seq<FieldName>) {
    forall i, j :: 0 <= i < j < |fs| ==> fs[i] != fs[j]
  }

  /**
   * `updated` with the name of every field on which `a` and `b` differ
   * appended, in the order `_update_discount` compares them.
   */
  function AppendChanged(updated: seq<FieldName>, a: DiscountFields, b: DiscountFields): seq<FieldName> {
    var s1 := Step(updated, a.promotionRuleId != b.promotionRuleId, PromotionRuleIdField);
    var s2 := Step(s1, a.valueType != b.valueType, ValueTypeField);
    var s3 := Step(s2, a.value != b.value, ValueField);
    var s4 := Step(s3, a.amountValue != b.amountValue, AmountValueField);
    var s5 := Step(s4, a.name != b.name, NameField);
    var s6 := Step(s5, a.translatedName != b.translatedName, TranslatedNameField);
    Step(s6, a.reason != b.reason, ReasonField)
  }

  /** The names of the fields on which `a` and `b` differ, in comparison order. */
  function ChangedFields(a: DiscountFields, b: DiscountFields): (r: seq<FieldName>)
    ensures forall f :: f in r <==> Differs(a, b, f)
    ensures NoRepeats(r)
  {
    AppendChangedMembers(a, b);
    AppendChanged([], a, b)
  }

  /** The position of a field in the order `_update_discount` compares them. */
  function Rank(f: FieldName): nat {
    match f
    case PromotionRuleIdField => 0
    case ValueTypeField => 1
    case ValueField => 2
    case AmountValueField => 3
    case NameField => 4
    case TranslatedNameField => 5
    case ReasonField => 6
  }

  predicate RanksBelow(fs: seq<FieldName>, n: nat) {
    forall g | g in fs :: Rank(g) < n
  }

  /** A step appends a name ranked after every name already there, so nothing repeats. */
  lemma StepKeepsNoRepeats(acc: seq<FieldName>, changed: bool, f: FieldName)
    requires NoRepeats(acc) && RanksBelow(acc, Rank(f))
    ensures NoRepeats(Step(acc, changed, f)) && RanksBelow(Step(acc, changed, f), Rank(f) + 1)
  {
  }

  /** Membership of one name after one step. */
  lemma InStep(acc: seq<FieldName>, changed: bool, f: FieldName, g: FieldName)
    ensures g in Step(acc, changed, f) <==> g in acc || (changed && g == f)
  {
  }

  /** Seven steps in comparison order, one flag per field. */
  function Steps(c1: bool, c2: bool, c3: bool, c4: bool, c5: bool, c6: bool, c7: bool): seq<FieldName> {
    Step(Step(Step(Step(Step(Step(Step([], c1, PromotionRuleIdField), c2, ValueTypeField), c3, ValueField),
      c4, AmountValueField), c5, NameField), c6, TranslatedNameField), c7, ReasonField)
  }

  /** A name is appended by the seven steps exactly when its own flag is set, and only once. */
  lemma StepsMembers(c1: bool, c2: bool, c3: bool, c4: bool, c5: bool, c6: bool, c7: bool)
    ensures forall g :: g in Steps(c1, c2, c3, c4, c5, c6, c7) <==>
      match g
      case PromotionRuleIdField => c1
      case ValueTypeField => c2
      case ValueField => c3
      case AmountValueField => c4
      case NameField => c5
      case TranslatedNameField => c6
      case ReasonField => c7
    ensures NoRepeats(Steps(c1, c2, c3, c4, c5, c6, c7))
  {
    var s1 := Step([], c1, PromotionRuleIdField);
    var s2 := Step(s1, c2, ValueTypeField);
    var s3 := Step(s2, c3, ValueField);
    var s4 := Step(s3, c4, AmountValueField);
    var s5 := Step(s4, c5, NameField);
    var s6 := Step(s5, c6, TranslatedNameField);
    StepKeepsNoRepeats([], c1, PromotionRuleIdField);
    StepKeepsNoRepeats(s1, c2, ValueTypeField);
    StepKeepsNoRepeats(s2, c3, ValueField);
    StepKeepsNoRepeats(s3, c4, AmountValueField);
    StepKeepsNoRepeats(s4, c5, NameField);
    StepKeepsNoRepeats(s5, c6, TranslatedNameField);
    StepKeepsNoRepeats(s6, c7, ReasonField);
    forall g ensures g in Steps(c1, c2, c3, c4, c5, c6, c7) <==> (
      match g
      case PromotionRuleIdField => c1
      case ValueTypeField => c2
      case ValueField => c3
      case AmountValueField => c4
      case NameField => c5
      case TranslatedNameField => c6
      case ReasonField => c7)
    {
      InStep([], c1, PromotionRuleIdField, g);
      InStep(s1, c2, ValueTypeField, g);
      InStep(s2, c3, ValueField, g);
      InStep(s3, c4, AmountValueField, g);
      InStep(s4, c5, NameField, g);
      InStep(s5, c6, TranslatedNameField, g);
      InStep(s6, c7, ReasonField, g);
    }
  }

  lemma AppendChangedMembers(a: DiscountFields, b: DiscountFields)
    ensures forall f :: f in AppendChanged([], a, b) <==> Differs(a, b, f)
    ensures NoRepeats(AppendChanged([], a, b))
  {
    StepsMembers(a.promotionRuleId != b.promotionRuleId, a.valueType != b.valueType, a.value != b.value,
                 a.amountValue != b.amountValue, a.name != b.name, a.translatedName != b.translatedName,
                 a.reason != b.reason);
  }

  /** Appending the changed names to a list is the list followed by `ChangedFields`. */
  lemma AppendChangedIsConcat(updated: seq<FieldName>, a: DiscountFields, b: DiscountFields)
    ensures AppendChanged(updated, a, b) == updated + ChangedFields(a, b)
  {
    assert updated + [] == updated;
    // Every step preserves `AppendChanged(updated, .) == updated + AppendChanged([], .)`
    // by associativity of concatenation.
    forall acc: seq<FieldName>, c: bool, f: FieldName
      ensures Step(updated + acc, c, f) == updated + Step(acc, c, f)
    {
      if c {
        assert (updated + acc) + [f] == updated + (acc + [f]);
      }
    }
  }

  /** Nothing is reported exactly when the two field sets are equal. */
  lemma ChangedFieldsEmptyIffEqual(a: DiscountFields, b: DiscountFields)
    ensures ChangedFields(a, b) == [] <==> a == b
  {
    var r := ChangedFields(a, b);
    if r == [] {
      assert !Differs(a, b, PromotionRuleIdField) && !Differs(a, b, ValueTypeField);
      assert !Differs(a, b, ValueField) && !Differs(a, b, AmountValueField);
      assert !Differs(a, b, NameField) && !Differs(a, b, TranslatedNameField);
      assert !Differs(a, b, ReasonField);
    }
  }

  /** The fields a discount takes from a rule once it is brought up to date. */
  function RuleDerivedFields(rule: PromotionRule, info: VariantPromotionRuleInfo, amount: real): DiscountFields {
    DiscountFields(
      Some(rule.id), rule.rewardValueType, rule.rewardValue, amount,
      GetDiscountName(rule, info.promotion), GetDiscountTranslatedName(info),
      Some(PromotionReason(info.promotion)))
  }

  /** A discount record. Its id and type never change. */
  class Discount {
    const discountType: DiscountType
    var promotionRuleId: Option<nat>
    var valueType: DiscountValueType
    var value: real
    var amountValue: real
    var name: Option<string>
    var translatedName: Option<string>
    var reason: Option<string>

    function Fields(): DiscountFields
      reads this
    {
      DiscountFields(promotionRuleId, valueType, value, amountValue, name, translatedName, reason)
    }

    constructor (discountType: DiscountType, fields: DiscountFields)
      ensures this.discountType == discountType && Fields() == fields
    {
      this.discountType := discountType;
      promotionRuleId := fields.promotionRuleId;
      valueType := fields.valueType;
      value := fields.value;
      amountValue := fields.amountValue;
      name := fields.name;
      translatedName := fields.translatedName;
      reason := fields.reason;
    }
  }

  /**
   * `_update_discount`: afterwards the record holds the rule's values, and
   * the name of every field whose value changed -- and only those -- has
   * been appended to `updatedFields`, in comparison order.
   */
  method UpdateDiscount(rule: PromotionRule, info: VariantPromotionRuleInfo, ruleDiscountAmount: real,
                        discount: Discount, updatedFields: seq<FieldName>)
    returns (fields: seq<FieldName>)
    modifies discount
    ensures discount.Fields() == RuleDerivedFields(rule, info, ruleDiscountAmount)
    ensures fields == updatedFields + ChangedFields(old(discount.Fields()), discount.Fields())
  {
    ghost var before := discount.Fields();
    ghost var target := RuleDerivedFields(rule, info, ruleDiscountAmount);
    // Each field is compared with its new value and its name appended when
    // they differ; the field is then set (a no-op when they were equal).
    fields := Step(updatedFields, discount.promotionRuleId != Some(rule.id), PromotionRuleIdField);
    discount.promotionRuleId := Some(rule.id);
    fields := Step(fields, discount.valueType != rule.rewardValueType, ValueTypeField);
    discount.valueType := rule.rewardValueType;
    fields := Step(fields, discount.value != rule.rewardValue, ValueField);
    discount.value := rule.rewardValue;
    fields := Step(fields, discount.amountValue != ruleDiscountAmount, AmountValueField);
    discount.amountValue := ruleDiscountAmount;
    var discountName := GetDiscountName(rule, info.promotion);
    fields := Step(fields, discount.name != discountName, NameField);
    discount.name := discountName;
    var translatedName := GetDiscountTranslatedName(info);
    fields := Step(fields, discount.translatedName != translatedName, TranslatedNameField);
    discount.translatedName := translatedName;
    var reason := PromotionReason(info.promotion);
    fields := Step(fields, discount.reason != Some(reason), ReasonField);
    discount.reason := Some(reason);
    AppendChangedIsConcat(updatedFields, before, target);
  }
}
