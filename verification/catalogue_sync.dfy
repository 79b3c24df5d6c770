/**
 * `create_discount_objects_for_catalogue_promotions`: bring each checkout
 * line's catalogue-promotion discount records in line with the promotion
 * rules that currently apply to its variant.
 *
 * A line whose listing is not discounted loses all its discounts. Otherwise
 * a record whose rule no longer applies is removed, a record whose rule still
 * applies is updated in place, and a record is created for an applicable rule
 * the line has none for. The database calls (`bulk_create`, `bulk_update`,
 * `delete`) are represented by the lists of records handed to them; a
 * record stands for its own id.
 */
module CatalogueSync {
  import opened Wrappers
  import opened PromotionRules
  import opened DiscountRecords

  /** The prices of a variant in a channel (`ProductVariantChannelListing`). */
  datatype ChannelListing = ChannelListing(priceAmount: Option<real>, discountedPriceAmount: Option<real>)

  /** A checkout line together with the data the sync reads. */
  class CheckoutLineInfo {
    const quantity: int
    const channelListing: ChannelListing
    const rulesInfo: seq<VariantPromotionRuleInfo>
    var discounts: seq<Discount>

    constructor (quantity: int, channelListing: ChannelListing,
                 rulesInfo: seq<VariantPromotionRuleInfo>, discounts: seq<Discount>)
      ensures this.quantity == quantity && this.channelListing == channelListing
      ensures this.rulesInfo == rulesInfo && this.discounts == discounts
    {
      this.quantity := quantity;
      this.channelListing := channelListing;
      this.rulesInfo := rulesInfo;
      this.discounts := discounts;
    }
  }

  predicate NoDuplicates<T(==)>(s: seq<T>) {
    forall i, j :: 0 <= i < j < |s| ==> s[i] != s[j]
  }

  /** `a` is a prefix of `b`: a list that is only appended to keeps its old contents. */
  predicate IsPrefix<T(==)>(a: seq<T>, b: seq<T>) {
    |a| <= |b| && b[..|a|] == a
  }

  /** `after` extends `before` with records that did not exist and are catalogue discounts. */
  predicate AppendedNew(before: seq<Discount>, after: seq<Discount>, existing: set<Discount>) {
    IsPrefix(before, after) && forall d | d in after[|before|..] :: d !in existing && d.discountType == CataloguePromotion
  }

  /** `after` extends `before` with records drawn from `pool`. */
  predicate AppendedFrom(before: seq<Discount>, after: seq<Discount>, pool: set<Discount>) {
    IsPrefix(before, after) && forall d | d in after[|before|..] :: d in pool
  }

  /** `after` extends `before` with exactly the records of `s`. */
  predicate AppendedExactly(before: seq<Discount>, after: seq<Discount>, s: set<Discount>) {
    IsPrefix(before, after) && (forall d | d in after[|before|..] :: d in s) && forall d | d in s :: d in after[|before|..]
  }

  /** A list holding exactly the records of a set. */
  predicate SameMembers(s: seq<Discount>, t: set<Discount>) {
    (forall d | d in s :: d in t) && (forall d | d in t :: d in s)
  }

  lemma PrefixTrans<T>(a: seq<T>, b: seq<T>, c: seq<T>)
    requires IsPrefix(a, b) && IsPrefix(b, c)
    ensures IsPrefix(a, c)
  {
    assert c[..|b|][..|a|] == c[..|a|];
  }

  /**
   * `_get_discount_amount`: the line's discount, the listing's unit price
   * minus its discounted unit price times the quantity; zero when either
   * price is missing or they are equal.
   */
  function DiscountAmount(listing: ChannelListing, quantity: int): (r: real)
    ensures r == 0.0 <==>
              listing.priceAmount.None? || listing.discountedPriceAmount.None? ||
              listing.priceAmount.value == listing.discountedPriceAmount.value || quantity == 0
    ensures (listing.priceAmount.Some? && listing.discountedPriceAmount.Some? &&
             listing.discountedPriceAmount.value <= listing.priceAmount.value && quantity >= 0) ==> r >= 0.0
  {
    if listing.priceAmount.None? || listing.discountedPriceAmount.None?
       || listing.priceAmount.value == listing.discountedPriceAmount.value then
      0.0
    else
      var unitDiscount := listing.priceAmount.value - listing.discountedPriceAmount.value;
      assert unitDiscount != 0.0;
      assert unitDiscount > 0.0 && quantity >= 0 ==> unitDiscount * quantity as real >= 0.0;
      unitDiscount * quantity as real
  }

  /**
   * `_get_rule_discount_amount`: the rule's unit discount on the variant
   * listing times the quantity; zero when the rule has no such listing entry.
   */
  function RuleDiscountAmount(variantListingDiscount: Option<real>, quantity: int): (r: real)
    ensures variantListingDiscount.None? || quantity == 0 ==> r == 0.0
    ensures variantListingDiscount.Some? && variantListingDiscount.value >= 0.0 && quantity >= 0 ==> r >= 0.0
    ensures variantListingDiscount.Some? && quantity == 1 ==> r == variantListingDiscount.value
  {
    if variantListingDiscount.None? then 0.0
    else variantListingDiscount.value * quantity as real
  }

  /** The amount is linear in the quantity: splitting a line splits its rule discount. */
  lemma RuleDiscountAmountAdditive(variantListingDiscount: Option<real>, q1: int, q2: int)
    ensures RuleDiscountAmount(variantListingDiscount, q1 + q2) ==
            RuleDiscountAmount(variantListingDiscount, q1) + RuleDiscountAmount(variantListingDiscount, q2)
  {
  }

  /** The values an existing record takes from a rule that still applies. */
  function UpdatedFieldsFor(info: VariantPromotionRuleInfo, quantity: int): DiscountFields {
    RuleDerivedFields(info.rule, info, RuleDiscountAmount(info.variantListingDiscount, quantity))
  }

  /**
   * The values of a record created for a rule: the same as an updated
   * record's, except that no reason is set yet.
   */
  function NewLineDiscountFields(info: VariantPromotionRuleInfo, quantity: int): (f: DiscountFields)
    ensures f.promotionRuleId == Some(info.rule.id) && f.reason.None?
    ensures f.(reason := UpdatedFieldsFor(info, quantity).reason) == UpdatedFieldsFor(info, quantity)
  {
    DiscountFields(
      Some(info.rule.id), info.rule.rewardValueType, info.rule.rewardValue,
      RuleDiscountAmount(info.variantListingDiscount, quantity),
      GetDiscountName(info.rule, info.promotion), GetDiscountTranslatedName(info), None)
  }

  /** A record together with the values it held when the sync started. */
  datatype Entry = Entry(record: Discount, fields: DiscountFields)

  /** The records of a line and their current values. */
  function Snapshot(ds: seq<Discount>): (r: seq<Entry>)
    reads set d | d in ds
    ensures |r| == |ds|
    ensures forall i :: 0 <= i < |ds| ==> r[i].record == ds[i] && r[i].fields == ds[i].Fields()
  {
    if ds == [] then [] else Snapshot(ds[..|ds| - 1]) + [Entry(ds[|ds| - 1], ds[|ds| - 1].Fields())]
  }

  function Records(es: seq<Entry>): (r: seq<Discount>)
    ensures |r| == |es| && forall i :: 0 <= i < |es| ==> r[i] == es[i].record
  {
    if es == [] then [] else Records(es[..|es| - 1]) + [es[|es| - 1].record]
  }

  /** The records of a snapshot, as a set. */
  function RecordSet(es: seq<Entry>): (r: set<Discount>)
    ensures forall d | d in r :: d in Records(es)
    ensures forall d | d in Records(es) :: d in r
  {
    set e | e in es :: e.record
  }

  /** The records `get_promotion_discounts` selects: catalogue and order promotions. */
  predicate IsPromotionDiscount(d: Discount) {
    d.discountType == CataloguePromotion || d.discountType == OrderPromotion
  }

  function PromotionEntries(es: seq<Entry>): (r: seq<Entry>)
    ensures forall e | e in r :: e in es && IsPromotionDiscount(e.record)
    ensures forall e | e in es && IsPromotionDiscount(e.record) :: e in r
  {
    if es == [] then []
    else (if IsPromotionDiscount(es[0].record) then [es[0]] else []) + PromotionEntries(es[1..])
  }

  /**
   * `rule_id_to_discount`: each rule id (possibly none) mapped to the last
   * record that carries it.
   */
  function RuleIdToDiscount(es: seq<Entry>): (m: map<Option<nat>, Discount>)
  {
    if es == [] then map[]
    else
      var last := es[|es| - 1];
      var m := RuleIdToDiscount(es[..|es| - 1]);
      m[last.fields.promotionRuleId := last.record]
  }

  /** Every key maps to the last record carrying it. */
  lemma {:induction false} RuleIdToDiscountLast(es: seq<Entry>, k: Option<nat>)
    requires k in RuleIdToDiscount(es)
    ensures exists i :: 0 <= i < |es| && es[i].record == RuleIdToDiscount(es)[k] && es[i].fields.promotionRuleId == k &&
              forall j :: i < j < |es| ==> es[j].fields.promotionRuleId != k
  {
    var last := es[|es| - 1];
    var init := es[..|es| - 1];
    if last.fields.promotionRuleId != k {
      RuleIdToDiscountLast(init, k);
      var i :| 0 <= i < |init| && init[i].record == RuleIdToDiscount(init)[k] && init[i].fields.promotionRuleId == k &&
               forall j :: i < j < |init| ==> init[j].fields.promotionRuleId != k;
      assert es[i] == init[i];
      assert forall j :: i < j < |es| ==> es[j].fields.promotionRuleId != k by {
        forall j | i < j < |es| ensures es[j].fields.promotionRuleId != k {
          if j < |init| {
            assert es[j] == init[j];
          }
        }
      }
    } else {
      assert es[|es| - 1].record == RuleIdToDiscount(es)[k];
    }
  }

  /** The ids of the rules that apply to the line. */
  function RuleIds(rulesInfo: seq<VariantPromotionRuleInfo>): set<nat> {
    set info | info in rulesInfo :: info.rule.id
  }

  predicate IsCurrent(k: Option<nat>, rulesInfo: seq<VariantPromotionRuleInfo>) {
    k.Some? && k.value in RuleIds(rulesInfo)
  }

  /** The records mapped from the keys in `ks` whose rule no longer applies. */
  function StaleAmong(m: map<Option<nat>, Discount>, rulesInfo: seq<VariantPromotionRuleInfo>,
                      ks: set<Option<nat>>): set<Discount> {
    set k | k in ks && k in m && !IsCurrent(k, rulesInfo) :: m[k]
  }

  lemma StaleAmongAdd(m: map<Option<nat>, Discount>, rulesInfo: seq<VariantPromotionRuleInfo>,
                      ks: set<Option<nat>>, k: Option<nat>)
    requires k in m
    ensures StaleAmong(m, rulesInfo, ks + {k}) ==
            StaleAmong(m, rulesInfo, ks) + (if IsCurrent(k, rulesInfo) then {} else {m[k]})
  {
  }

  /** The mapped records whose rule no longer applies. */
  function Stale(m: map<Option<nat>, Discount>, rulesInfo: seq<VariantPromotionRuleInfo>): set<Discount> {
    StaleAmong(m, rulesInfo, m.Keys)
  }

  /** The mapped records whose rule still applies: these are updated. */
  function Refreshed(m: map<Option<nat>, Discount>, rulesInfo: seq<VariantPromotionRuleInfo>): set<Discount> {
    set k | k in m && IsCurrent(k, rulesInfo) :: m[k]
  }

  /**
   * The records the loop over the first `i` rule infos updates, in order:
   * the mapped record of every rule info whose rule has one (once per rule
   * info).
   */
  function UpdatesFor(m: map<Option<nat>, Discount>, rulesInfo: seq<VariantPromotionRuleInfo>, i: nat): seq<Discount>
    requires i <= |rulesInfo|
  {
    if i == 0 then []
    else
      var key := Some(rulesInfo[i - 1].rule.id);
      UpdatesFor(m, rulesInfo, i - 1) + if key in m then [m[key]] else []
  }

  /** Every record the loop updates is the mapped record of an applicable rule. */
  lemma {:induction false} UpdatesForRefreshed(m: map<Option<nat>, Discount>, rulesInfo: seq<VariantPromotionRuleInfo>,
                                               i: nat)
    requires i <= |rulesInfo|
    ensures forall d | d in UpdatesFor(m, rulesInfo, i) :: d in Refreshed(m, rulesInfo)
  {
    if i > 0 {
      UpdatesForRefreshed(m, rulesInfo, i - 1);
      assert rulesInfo[i - 1] in rulesInfo;
    }
  }

  /**
   * The rule infos among the first `i` whose rule has no mapped record, by
   * index and in order: the loop creates one record for each of them.
   */
  function Unmapped(m: map<Option<nat>, Discount>, rulesInfo: seq<VariantPromotionRuleInfo>, i: nat): seq<int>
    requires i <= |rulesInfo|
  {
    if i == 0 then []
    else
      var key := Some(rulesInfo[i - 1].rule.id);
      Unmapped(m, rulesInfo, i - 1) + if key in m then [] else [i - 1]
  }

  /**
   * `Unmapped` lists exactly the rule infos without a mapped record, each
   * once, in increasing order: two rule infos for the same rule without a
   * record are both listed.
   */
  lemma {:induction false} UnmappedExactly(m: map<Option<nat>, Discount>, rulesInfo: seq<VariantPromotionRuleInfo>,
                                           i: nat)
    requires i <= |rulesInfo|
    ensures forall n :: 0 <= n < |Unmapped(m, rulesInfo, i)| ==>
              0 <= Unmapped(m, rulesInfo, i)[n] < i && Some(rulesInfo[Unmapped(m, rulesInfo, i)[n]].rule.id) !in m
    ensures forall j :: 0 <= j < i && Some(rulesInfo[j].rule.id) !in m ==> j in Unmapped(m, rulesInfo, i)
    ensures forall a, b :: 0 <= a < b < |Unmapped(m, rulesInfo, i)| ==>
              Unmapped(m, rulesInfo, i)[a] < Unmapped(m, rulesInfo, i)[b]
  {
    if i > 0 {
      UnmappedExactly(m, rulesInfo, i - 1);
      var prev, key := Unmapped(m, rulesInfo, i - 1), Some(rulesInfo[i - 1].rule.id);
      assert Unmapped(m, rulesInfo, i) == if key in m then prev else prev + [i - 1];
    }
  }

  /** `ds` without the records in `s`, in order. */
  function Without(ds: seq<Discount>, s: set<Discount>): (r: seq<Discount>)
    ensures forall d | d in r :: d in ds && d !in s
    ensures forall d | d in ds && d !in s :: d in r
    ensures NoDuplicates(ds) ==> NoDuplicates(r)
  {
    if ds == [] then []
    else
      var rest := Without(ds[1..], s);
      assert NoDuplicates(ds) ==> NoDuplicates(ds[1..]) && ds[0] !in ds[1..] by {
        if NoDuplicates(ds) {
          forall i, j | 0 <= i < j < |ds[1..]| ensures ds[1..][i] != ds[1..][j] {
            assert ds[1..][i] == ds[i + 1] && ds[1..][j] == ds[j + 1];
          }
          forall i | 0 <= i < |ds[1..]| ensures ds[1..][i] != ds[0] {
            assert ds[1..][i] == ds[i + 1];
          }
        }
      }
      if ds[0] in s then rest else [ds[0]] + rest
  }

  /** `list.remove`: drop the first occurrence of `x`. */
  function RemoveFirst(ds: seq<Discount>, x: Discount): (r: seq<Discount>)
    requires x in ds
    ensures |r| == |ds| - 1
  {
    if ds[0] == x then ds[1..] else [ds[0]] + RemoveFirst(ds[1..], x)
  }

  lemma {:induction false} WithoutIgnoresAbsent(ds: seq<Discount>, s: set<Discount>, x: Discount)
    requires x !in ds
    ensures Without(ds, s + {x}) == Without(ds, s)
  {
    if ds != [] {
      WithoutIgnoresAbsent(ds[1..], s, x);
    }
  }

  /** Removing one more record from a filtered list is filtering by one more record. */
  lemma {:induction false} RemoveFirstFromWithout(ds: seq<Discount>, s: set<Discount>, x: Discount)
    requires NoDuplicates(ds) && x in ds && x !in s
    ensures x in Without(ds, s)
    ensures RemoveFirst(Without(ds, s), x) == Without(ds, s + {x})
  {
    assert NoDuplicates(ds[1..]) by {
      forall i, j | 0 <= i < j < |ds[1..]| ensures ds[1..][i] != ds[1..][j] {
        assert ds[1..][i] == ds[i + 1] && ds[1..][j] == ds[j + 1];
      }
    }
    if ds[0] == x {
      assert x !in ds[1..] by {
        forall i | 0 <= i < |ds[1..]| ensures ds[1..][i] != x {
          assert ds[1..][i] == ds[i + 1];
        }
      }
      WithoutIgnoresAbsent(ds[1..], s, x);
    } else {
      RemoveFirstFromWithout(ds[1..], s, x);
    }
  }

  /** The index of the last rule info for rule `id`, or -1 when there is none. */
  function LastIndexOf(rulesInfo: seq<VariantPromotionRuleInfo>, id: nat): (r: int)
    ensures -1 <= r < |rulesInfo|
    ensures r >= 0 ==> rulesInfo[r].rule.id == id && forall j :: r < j < |rulesInfo| ==> rulesInfo[j].rule.id != id
    ensures r < 0 <==> id !in RuleIds(rulesInfo)
  {
    if rulesInfo == [] then -1
    else
      var init := rulesInfo[..|rulesInfo| - 1];
      assert rulesInfo == init + [rulesInfo[|rulesInfo| - 1]];
      assert RuleIds(rulesInfo) == RuleIds(init) + {rulesInfo[|rulesInfo| - 1].rule.id};
      if rulesInfo[|rulesInfo| - 1].rule.id == id then |rulesInfo| - 1
      else LastIndexOf(init, id)
  }

  /** `d` is a record the sync created for rule info `j`, which had no record. */
  ghost predicate NewRecordFor(d: Discount, j: int, m: map<Option<nat>, Discount>, li: CheckoutLineInfo)
    reads d
  {
    0 <= j < |li.rulesInfo| && Some(li.rulesInfo[j].rule.id) !in m &&
    d.discountType == CataloguePromotion && d.Fields() == NewLineDiscountFields(li.rulesInfo[j], li.quantity)
  }

  /** The line has a promotion record for rule `id`. */
  ghost predicate HasRecordForRule(li: CheckoutLineInfo, id: nat)
    reads li, set d | d in li.discounts
  {
    exists d :: d in li.discounts && IsPromotionDiscount(d) && d.promotionRuleId == Some(id)
  }

  /** The values a mapped record holds once the rule infos have been applied. */
  function RefreshedValue(k: Option<nat>, li: CheckoutLineInfo): DiscountFields
    requires IsCurrent(k, li.rulesInfo)
  {
    UpdatedFieldsFor(li.rulesInfo[LastIndexOf(li.rulesInfo, k.value)], li.quantity)
  }

  /** The records that stay on a discounted line, in their original order. */
  function Kept(li: CheckoutLineInfo, before: seq<Entry>): seq<Discount> {
    Without(Records(before), Stale(LineMap(before), li.rulesInfo))
  }

  /** The records the sync created on the line: those after the kept ones, on a discounted line. */
  function NewRecords(li: CheckoutLineInfo, before: seq<Entry>): seq<Discount>
    reads li
  {
    var kept := Kept(li, before);
    if IsDiscounted(li) && |kept| <= |li.discounts| then li.discounts[|kept|..] else []
  }

  /** The records the sync updates on the line, in order: none on a line that is not discounted. */
  function LineUpdates(li: CheckoutLineInfo, before: seq<Entry>): seq<Discount> {
    if IsDiscounted(li) then UpdatesFor(LineMap(before), li.rulesInfo, |li.rulesInfo|) else []
  }

  /**
   * The kept records come first, then exactly one new record for each rule
   * info whose rule had no record, in the order of the rule infos.
   */
  ghost predicate KeptThenNew(li: CheckoutLineInfo, before: seq<Entry>)
    reads li, set d | d in li.discounts
  {
    var kept := Kept(li, before);
    var unmapped := Unmapped(LineMap(before), li.rulesInfo, |li.rulesInfo|);
    |li.discounts| == |kept| + |unmapped| && li.discounts[..|kept|] == kept &&
    forall n :: 0 <= n < |unmapped| ==> NewRecordFor(li.discounts[|kept| + n], unmapped[n], LineMap(before), li)
  }

  /** Every applicable rule has a promotion record on the line. */
  ghost predicate RulesCovered(li: CheckoutLineInfo)
    reads li, set d | d in li.discounts
  {
    forall j :: 0 <= j < |li.rulesInfo| ==> HasRecordForRule(li, li.rulesInfo[j].rule.id)
  }

  /** The record mapped to an applicable rule holds the values of the last rule info for that rule. */
  ghost predicate MappedRefreshed(li: CheckoutLineInfo, before: seq<Entry>)
    reads LineMap(before).Values
  {
    forall k | k in LineMap(before) && IsCurrent(k, li.rulesInfo) :: LineMap(before)[k].Fields() == RefreshedValue(k, li)
  }

  /** Every record not refreshed (all of them when `all`) keeps its values. */
  ghost predicate OthersUnchanged(li: CheckoutLineInfo, before: seq<Entry>, all: bool)
    reads RecordSet(before)
  {
    forall e | e in before && (all || e.record !in Refreshed(LineMap(before), li.rulesInfo)) :: e.record.Fields() == e.fields
  }

  /**
   * What the sync promises for one line, given the line's records and their
   * values beforehand (`before`): a line that is not discounted is left with
   * no discounts and no record changes; otherwise the records whose rule no
   * longer applies are gone, the records of applicable rules are refreshed,
   * the rules without a record get a new one, and nothing else changes.
   */
  ghost predicate LineSynced(li: CheckoutLineInfo, before: seq<Entry>)
    reads li, RecordSet(before), set d | d in li.discounts
    reads LineMap(before).Values
  {
    if !IsDiscounted(li) then
      li.discounts == [] && OthersUnchanged(li, before, true)
    else
      KeptThenNew(li, before) && RulesCovered(li) && MappedRefreshed(li, before) &&
      OthersUnchanged(li, before, false)
  }

  /**
   * The loop state of `DiscountsNotValidAnymore` once the keys in `seen`
   * have been visited: the stale records among them are gone from the line
   * and listed once in `removed`.
   */
  ghost predicate DroppedSoFar(rulesInfo: seq<VariantPromotionRuleInfo>, m: map<Option<nat>, Discount>,
                               discounts: seq<Discount>, original: seq<Discount>, seen: set<Option<nat>>,
                               gone: set<Discount>, removed: seq<Discount>)
  {
    seen <= m.Keys &&
    gone == StaleAmong(m, rulesInfo, seen) &&
    (forall d | d in removed :: d in gone) && (forall d | d in gone :: d in removed) &&
    NoDuplicates(removed) &&
    discounts == Without(original, gone)
  }

  /** One pass of `DiscountsNotValidAnymore`'s loop, for key `k`. */
  method DropIfStale(rulesInfo: seq<VariantPromotionRuleInfo>, m: map<Option<nat>, Discount>,
                     li: CheckoutLineInfo, ghost original: seq<Discount>, ghost seen: set<Option<nat>>,
                     ghost gone: set<Discount>, removed: seq<Discount>, k: Option<nat>)
    returns (removed': seq<Discount>, ghost gone': set<Discount>)
    requires NoDuplicates(original)
    requires forall k :: k in m ==> m[k] in original
    requires Injective(m)
    requires DroppedSoFar(rulesInfo, m, li.discounts, original, seen, gone, removed)
    requires k in m && k !in seen
    modifies li
    ensures DroppedSoFar(rulesInfo, m, li.discounts, original, seen + {k}, gone', removed')
  {
    StaleAmongAdd(m, rulesInfo, seen, k);
    removed', gone' := removed, gone;
    if !IsCurrent(k, rulesInfo) {
      assert m[k] !in gone;
      RemoveFirstFromWithout(original, gone, m[k]);
      li.discounts := RemoveFirst(li.discounts, m[k]);
      removed' := removed + [m[k]];
      gone' := gone + {m[k]};
    }
  }

  /**
   * `_get_discounts_that_are_not_valid_anymore`: remove from the line every
   * mapped record whose rule no longer applies and return those records.
   * The dictionary is walked in an unspecified order.
   */
  method DiscountsNotValidAnymore(rulesInfo: seq<VariantPromotionRuleInfo>, ruleIdToDiscount: map<Option<nat>, Discount>,
                                  li: CheckoutLineInfo)
    returns (removed: seq<Discount>)
    requires NoDuplicates(li.discounts)
    requires forall k :: k in ruleIdToDiscount ==> ruleIdToDiscount[k] in li.discounts
    requires Injective(ruleIdToDiscount)
    modifies li
    ensures li.discounts == Without(old(li.discounts), Stale(ruleIdToDiscount, rulesInfo))
    ensures forall d :: d in removed <==> d in Stale(ruleIdToDiscount, rulesInfo)
    ensures NoDuplicates(removed)
  {
    ghost var gone;
    removed, gone := DropAllStale(rulesInfo, ruleIdToDiscount, li);
    DroppedAll(rulesInfo, ruleIdToDiscount, li.discounts, old(li.discounts), ruleIdToDiscount.Keys, gone, removed);
  }

  /** The loop of `DiscountsNotValidAnymore`: every key is looked at once. */
  method DropAllStale(rulesInfo: seq<VariantPromotionRuleInfo>, m: map<Option<nat>, Discount>, li: CheckoutLineInfo)
    returns (removed: seq<Discount>, ghost gone: set<Discount>)
    requires NoDuplicates(li.discounts)
    requires forall k :: k in m ==> m[k] in li.discounts
    requires Injective(m)
    modifies li
    ensures DroppedSoFar(rulesInfo, m, li.discounts, old(li.discounts), m.Keys, gone, removed)
  {
    ghost var original := li.discounts;
    gone := {};
    removed := [];
    var keys := m.Keys;
    ghost var seen: set<Option<nat>> := {};
    WithoutNothing(original);
    while keys != {}
      invariant keys <= m.Keys && seen == m.Keys - keys
      invariant DroppedSoFar(rulesInfo, m, li.discounts, original, seen, gone, removed)
      decreases keys
    {
      var k :| k in keys;
      removed, gone := DropIfStale(rulesInfo, m, li, original, seen, gone, removed, k);
      seen := seen + {k};
      keys := keys - {k};
    }
  }

  /** Once every key has been looked at, exactly the stale records are gone. */
  lemma DroppedAll(rulesInfo: seq<VariantPromotionRuleInfo>, m: map<Option<nat>, Discount>,
                   discounts: seq<Discount>, original: seq<Discount>, seen: set<Option<nat>>,
                   gone: set<Discount>, removed: seq<Discount>)
    requires DroppedSoFar(rulesInfo, m, discounts, original, seen, gone, removed) && seen == m.Keys
    ensures discounts == Without(original, Stale(m, rulesInfo))
    ensures forall d :: d in removed <==> d in Stale(m, rulesInfo)
    ensures NoDuplicates(removed)
  {
  }

  lemma {:induction false} WithoutNothing(ds: seq<Discount>)
    ensures Without(ds, {}) == ds
  {
    if ds != [] {
      WithoutNothing(ds[1..]);
    }
  }

  /** The map from rule id to record the sync builds for a line's records. */
  function LineMap(before: seq<Entry>): map<Option<nat>, Discount> {
    RuleIdToDiscount(PromotionEntries(before))
  }

  /** Every mapped record is one of the snapshot's records. */
  lemma LineMapInRecordSet(before: seq<Entry>)
    ensures LineMap(before).Values <= RecordSet(before)
  {
    var es := PromotionEntries(before);
    forall d | d in LineMap(before).Values
      ensures d in RecordSet(before)
    {
      var k :| k in LineMap(before) && LineMap(before)[k] == d;
      RuleIdToDiscountLast(es, k);
      var i :| 0 <= i < |es| && es[i].record == RuleIdToDiscount(es)[k] && es[i].fields.promotionRuleId == k &&
               forall j :: i < j < |es| ==> es[j].fields.promotionRuleId != k;
      assert es[i] in before;
    }
  }

  /** A line whose listing yields a non-zero discount amount. */
  predicate IsDiscounted(li: CheckoutLineInfo) {
    DiscountAmount(li.channelListing, li.quantity) != 0.0
  }

  /**
   * Each mapped record is one of the line's promotion records and carries
   * its key as rule id; so distinct keys map to distinct records.
   */
  lemma LineMapFacts(ds: seq<Discount>)
    ensures forall k | k in LineMap(Snapshot(ds)) ::
              LineMap(Snapshot(ds))[k] in ds && IsPromotionDiscount(LineMap(Snapshot(ds))[k]) &&
              LineMap(Snapshot(ds))[k].promotionRuleId == k
    ensures Injective(LineMap(Snapshot(ds)))
  {
    var es := PromotionEntries(Snapshot(ds));
    forall k | k in LineMap(Snapshot(ds))
      ensures LineMap(Snapshot(ds))[k] in ds && IsPromotionDiscount(LineMap(Snapshot(ds))[k])
      ensures LineMap(Snapshot(ds))[k].promotionRuleId == k
    {
      RuleIdToDiscountLast(es, k);
      var i :| 0 <= i < |es| && es[i].record == RuleIdToDiscount(es)[k] && es[i].fields.promotionRuleId == k &&
               forall j :: i < j < |es| ==> es[j].fields.promotionRuleId != k;
      assert es[i] in Snapshot(ds);
      var n :| 0 <= n < |Snapshot(ds)| && Snapshot(ds)[n] == es[i];
      assert ds[n] == es[i].record;
    }
  }

  /** The values the record mapped to `k` holds once the first `i` rule infos have been applied. */
  function ValueAfter(li: CheckoutLineInfo, i: int, k: Option<nat>, orig: map<Option<nat>, DiscountFields>): DiscountFields
    requires 0 <= i <= |li.rulesInfo| && k.Some? && k in orig
  {
    var last := LastIndexOf(li.rulesInfo[..i], k.value);
    if last >= 0 then UpdatedFieldsFor(li.rulesInfo[last], li.quantity) else orig[k]
  }

  /** Distinct keys map to distinct records. */
  predicate Injective(m: map<Option<nat>, Discount>) {
    forall k1, k2 | k1 in m && k2 in m && k1 != k2 :: m[k1] != m[k2]
  }

  /**
   * The loop over rule infos after `i` of them: `newOnes` are the records
   * created for the rule infos `newFor`, whose rules have no mapped record,
   * and every rule info so far has a mapped or a created record.
   */
  predicate ProgressShape(li: CheckoutLineInfo, m: map<Option<nat>, Discount>, i: int,
                          newOnes: seq<Discount>, newFor: seq<int>)
  {
    0 <= i <= |li.rulesInfo| && |newFor| == |newOnes| &&
    (forall n :: 0 <= n < |newOnes| ==>
       0 <= newFor[n] < i && Some(li.rulesInfo[newFor[n]].rule.id) !in m && newOnes[n] !in m.Values) &&
    (forall j :: 0 <= j < i ==> Some(li.rulesInfo[j].rule.id) in m || j in newFor)
  }

  /** Each created record holds the values of a new record for its rule info. */
  ghost predicate NewOnesHold(li: CheckoutLineInfo, newOnes: seq<Discount>, newFor: seq<int>)
    reads newOnes
  {
    |newFor| == |newOnes| &&
    forall n :: 0 <= n < |newOnes| ==>
      0 <= newFor[n] < |li.rulesInfo| && newOnes[n].discountType == CataloguePromotion &&
      newOnes[n].Fields() == NewLineDiscountFields(li.rulesInfo[newFor[n]], li.quantity)
  }

  /**
   * Each mapped record of an applicable rule holds the values of the last
   * of the first `i` rule infos for its rule, or its original values `orig`
   * when there is none.
   */
  ghost predicate MappedHold(li: CheckoutLineInfo, m: map<Option<nat>, Discount>, i: int,
                             orig: map<Option<nat>, DiscountFields>)
    reads m.Values
  {
    0 <= i <= |li.rulesInfo| && m.Keys == orig.Keys &&
    forall k | k in m && IsCurrent(k, li.rulesInfo) :: m[k].Fields() == ValueAfter(li, i, k, orig)
  }

  /** Applying rule info `i` changes the expected values of its own rule only. */
  lemma ValueAfterStep(li: CheckoutLineInfo, i: int, k: Option<nat>, orig: map<Option<nat>, DiscountFields>)
    requires 0 <= i < |li.rulesInfo| && k.Some? && k in orig
    ensures ValueAfter(li, i + 1, k, orig) ==
            if k.value == li.rulesInfo[i].rule.id then UpdatedFieldsFor(li.rulesInfo[i], li.quantity)
            else ValueAfter(li, i, k, orig)
  {
    assert li.rulesInfo[..i + 1][..i] == li.rulesInfo[..i];
  }

  /** One pass of the loop for a rule info without a record: create one. */
  method CreateStep(li: CheckoutLineInfo, m: map<Option<nat>, Discount>, i: int,
                    ghost newOnes: seq<Discount>, ghost newFor: seq<int>, ghost orig: map<Option<nat>, DiscountFields>)
    returns (d: Discount)
    requires ProgressShape(li, m, i, newOnes, newFor) && NewOnesHold(li, newOnes, newFor)
    requires MappedHold(li, m, i, orig)
    requires i < |li.rulesInfo| && Some(li.rulesInfo[i].rule.id) !in m
    modifies li
    ensures fresh(d) && li.discounts == old(li.discounts) + [d]
    ensures ProgressShape(li, m, i + 1, newOnes + [d], newFor + [i])
    ensures NewOnesHold(li, newOnes + [d], newFor + [i])
    ensures MappedHold(li, m, i + 1, orig)
  {
    var ruleInfo := li.rulesInfo[i];
    d := new Discount(CataloguePromotion, NewLineDiscountFields(ruleInfo, li.quantity));
    li.discounts := li.discounts + [d];
    MappedHoldUnmapped(li, m, i, orig);
    ShapeAfterCreate(li, m, i, newOnes, newFor, d);
    NewOnesAfterCreate(li, i, newOnes, newFor, d);
  }

  /** A record created for rule info `i`, which has none, extends the progress. */
  lemma ShapeAfterCreate(li: CheckoutLineInfo, m: map<Option<nat>, Discount>, i: int,
                         newOnes: seq<Discount>, newFor: seq<int>, d: Discount)
    requires ProgressShape(li, m, i, newOnes, newFor)
    requires i < |li.rulesInfo| && Some(li.rulesInfo[i].rule.id) !in m && d !in m.Values
    ensures ProgressShape(li, m, i + 1, newOnes + [d], newFor + [i])
  {
  }

  /** A record holding rule info `i`'s new values extends the created records. */
  lemma NewOnesAfterCreate(li: CheckoutLineInfo, i: int, newOnes: seq<Discount>, newFor: seq<int>, d: Discount)
    requires NewOnesHold(li, newOnes, newFor) && 0 <= i < |li.rulesInfo|
    requires d.discountType == CataloguePromotion && d.Fields() == NewLineDiscountFields(li.rulesInfo[i], li.quantity)
    ensures NewOnesHold(li, newOnes + [d], newFor + [i])
  {
  }

  /** A rule info whose rule has no record leaves the mapped records' expected values alone. */
  lemma MappedHoldUnmapped(li: CheckoutLineInfo, m: map<Option<nat>, Discount>, i: int,
                           orig: map<Option<nat>, DiscountFields>)
    requires MappedHold(li, m, i, orig)
    requires i < |li.rulesInfo| && Some(li.rulesInfo[i].rule.id) !in m
    ensures MappedHold(li, m, i + 1, orig)
  {
    forall k | k in m && IsCurrent(k, li.rulesInfo)
      ensures m[k].Fields() == ValueAfter(li, i + 1, k, orig)
    {
      ValueAfterStep(li, i, k, orig);
    }
  }

  /** One pass of the loop for a rule info whose rule has a record: update it. */
  method UpdateStep(li: CheckoutLineInfo, m: map<Option<nat>, Discount>, i: int,
                    ghost newOnes: seq<Discount>, ghost newFor: seq<int>, ghost orig: map<Option<nat>, DiscountFields>,
                    updatedFields: seq<FieldName>)
    returns (d: Discount, fields: seq<FieldName>)
    requires ProgressShape(li, m, i, newOnes, newFor) && NewOnesHold(li, newOnes, newFor)
    requires MappedHold(li, m, i, orig) && Injective(m)
    requires i < |li.rulesInfo| && Some(li.rulesInfo[i].rule.id) in m
    modifies m[Some(li.rulesInfo[i].rule.id)]
    ensures d == m[Some(li.rulesInfo[i].rule.id)]
    ensures ProgressShape(li, m, i + 1, newOnes, newFor)
    ensures NewOnesHold(li, newOnes, newFor)
    ensures MappedHold(li, m, i + 1, orig)
    ensures IsPrefix(updatedFields, fields)
  {
    ShapeAfterUpdate(li, m, i, newOnes, newFor);
    assert m[Some(li.rulesInfo[i].rule.id)] !in newOnes;
    d, fields := UpdateMapped(li, m, i, orig, updatedFields);
  }

  /** Rule info `i`, which has a record, extends the progress without a new record. */
  lemma ShapeAfterUpdate(li: CheckoutLineInfo, m: map<Option<nat>, Discount>, i: int,
                         newOnes: seq<Discount>, newFor: seq<int>)
    requires ProgressShape(li, m, i, newOnes, newFor)
    requires i < |li.rulesInfo| && Some(li.rulesInfo[i].rule.id) in m
    ensures ProgressShape(li, m, i + 1, newOnes, newFor)
  {
  }

  /**
   * The update of rule info `i`'s record: the record gets the rule's
   * current values, and every other mapped record keeps its own.
   */
  method UpdateMapped(li: CheckoutLineInfo, m: map<Option<nat>, Discount>, i: int,
                      ghost orig: map<Option<nat>, DiscountFields>, updatedFields: seq<FieldName>)
    returns (d: Discount, fields: seq<FieldName>)
    requires MappedHold(li, m, i, orig) && Injective(m)
    requires i < |li.rulesInfo| && Some(li.rulesInfo[i].rule.id) in m
    modifies m[Some(li.rulesInfo[i].rule.id)]
    ensures d == m[Some(li.rulesInfo[i].rule.id)]
    ensures MappedHold(li, m, i + 1, orig)
    ensures IsPrefix(updatedFields, fields)
  {
    var ruleInfo := li.rulesInfo[i];
    var rule := ruleInfo.rule;
    var key := Some(rule.id);
    d := m[key];
    var ruleDiscountAmount := RuleDiscountAmount(ruleInfo.variantListingDiscount, li.quantity);
    fields := UpdateDiscount(rule, ruleInfo, ruleDiscountAmount, d, updatedFields);
    assert fields[..|updatedFields|] == updatedFields;
    // Only `d` changed, and `m` maps every other key to another record.
    forall k | k in m && IsCurrent(k, li.rulesInfo)
      ensures m[k].Fields() == ValueAfter(li, i + 1, k, orig)
    {
      ValueAfterStep(li, i, k, orig);
      if k != key {
        assert m[k] != d;
      }
    }
  }

  /**
   * The state of the loop over rule infos after `i` of them, for a line
   * whose records were `d0` when the loop started: the created records
   * `newOnes` were appended to the line and to `toCreate`, the updated ones
   * `upd` to `toUpdate`, and the field names to `updatedFields`.
   */
  ghost predicate LoopState(li: CheckoutLineInfo, m: map<Option<nat>, Discount>, i: int,
                            orig: map<Option<nat>, DiscountFields>, d0: seq<Discount>,
                            toCreate: seq<Discount>, created: seq<Discount>, newOnes: seq<Discount>, newFor: seq<int>,
                            toUpdate: seq<Discount>, updated: seq<Discount>, upd: seq<Discount>,
                            updatedFields: seq<FieldName>, fields: seq<FieldName>)
    reads li, m.Values, newOnes
  {
    ProgressShape(li, m, i, newOnes, newFor) && NewOnesHold(li, newOnes, newFor) && MappedHold(li, m, i, orig) &&
    created == toCreate + newOnes && li.discounts == d0 + newOnes &&
    updated == toUpdate + upd &&
    IsPrefix(updatedFields, fields)
  }

  /** One pass of the loop for a rule info without a record: `d` is the record created. */
  method CreateIteration(li: CheckoutLineInfo, m: map<Option<nat>, Discount>, i: int, ghost existing: set<Discount>,
                         ghost orig: map<Option<nat>, DiscountFields>, ghost d0: seq<Discount>,
                         toCreate: seq<Discount>, created: seq<Discount>, ghost newOnes: seq<Discount>, ghost newFor: seq<int>,
                         toUpdate: seq<Discount>, updated: seq<Discount>, ghost upd: seq<Discount>,
                         updatedFields: seq<FieldName>, fields: seq<FieldName>)
    returns (d: Discount, created': seq<Discount>)
    requires LoopState(li, m, i, orig, d0, toCreate, created, newOnes, newFor, toUpdate, updated, upd, updatedFields, fields)
    requires i < |li.rulesInfo| && Some(li.rulesInfo[i].rule.id) !in m
    modifies li
    ensures d !in existing
    ensures LoopState(li, m, i + 1, orig, d0, toCreate, created', newOnes + [d], newFor + [i],
                      toUpdate, updated, upd, updatedFields, fields)
  {
    d := CreateStep(li, m, i, newOnes, newFor, orig);
    created' := created + [d];
  }

  /** The loop state after a record `d` was updated and its field names added. */
  lemma UpdatedLoopState(li: CheckoutLineInfo, m: map<Option<nat>, Discount>, i: int,
                         orig: map<Option<nat>, DiscountFields>, d0: seq<Discount>,
                         toCreate: seq<Discount>, created: seq<Discount>, newOnes: seq<Discount>, newFor: seq<int>,
                         toUpdate: seq<Discount>, updated: seq<Discount>, upd: seq<Discount>, d: Discount,
                         updatedFields: seq<FieldName>, fields: seq<FieldName>, fields': seq<FieldName>)
    requires ProgressShape(li, m, i + 1, newOnes, newFor) && NewOnesHold(li, newOnes, newFor)
    requires MappedHold(li, m, i + 1, orig)
    requires created == toCreate + newOnes && li.discounts == d0 + newOnes
    requires updated == toUpdate + upd && IsPrefix(updatedFields, fields) && IsPrefix(fields, fields')
    ensures LoopState(li, m, i + 1, orig, d0, toCreate, created, newOnes, newFor,
                      toUpdate, updated + [d], upd + [d], updatedFields, fields')
  {
    PrefixTrans(updatedFields, fields, fields');
    assert updated + [d] == toUpdate + (upd + [d]);
  }

  /** One pass of the loop for a rule info whose rule has a record. */
  method UpdateIteration(li: CheckoutLineInfo, m: map<Option<nat>, Discount>, i: int,
                         ghost orig: map<Option<nat>, DiscountFields>, ghost d0: seq<Discount>,
                         toCreate: seq<Discount>, created: seq<Discount>, ghost newOnes: seq<Discount>, ghost newFor: seq<int>,
                         toUpdate: seq<Discount>, updated: seq<Discount>, ghost upd: seq<Discount>,
                         updatedFields: seq<FieldName>, fields: seq<FieldName>)
    returns (updated': seq<Discount>, ghost upd': seq<Discount>, fields': seq<FieldName>)
    requires LoopState(li, m, i, orig, d0, toCreate, created, newOnes, newFor, toUpdate, updated, upd, updatedFields, fields)
    requires Injective(m)
    requires i < |li.rulesInfo| && Some(li.rulesInfo[i].rule.id) in m
    modifies m[Some(li.rulesInfo[i].rule.id)]
    ensures LoopState(li, m, i + 1, orig, d0, toCreate, created, newOnes, newFor, toUpdate, updated', upd', updatedFields, fields')
    ensures upd' == upd + [m[Some(li.rulesInfo[i].rule.id)]]
  {
    var d;
    d, fields' := UpdateStep(li, m, i, newOnes, newFor, orig, fields);
    UpdatedLoopState(li, m, i, orig, d0, toCreate, created, newOnes, newFor, toUpdate, updated, upd, d,
                     updatedFields, fields, fields');
    updated' := updated + [d];
    upd' := upd + [d];
  }

  /** The invariant of the loop over rule infos: its state, created records that are new, and `upd` the mapped records of the rule infos seen. */
  ghost predicate LoopInv(li: CheckoutLineInfo, m: map<Option<nat>, Discount>, i: int, existing: set<Discount>,
                          orig: map<Option<nat>, DiscountFields>, d0: seq<Discount>,
                          toCreate: seq<Discount>, created: seq<Discount>, newOnes: seq<Discount>, newFor: seq<int>,
                          toUpdate: seq<Discount>, updated: seq<Discount>, upd: seq<Discount>,
                          updatedFields: seq<FieldName>, fields: seq<FieldName>)
    reads li, m.Values, newOnes
  {
    0 <= i <= |li.rulesInfo| &&
    LoopState(li, m, i, orig, d0, toCreate, created, newOnes, newFor, toUpdate, updated, upd, updatedFields, fields) &&
    (forall n :: 0 <= n < |newOnes| ==> newOnes[n] !in existing) &&
    upd == UpdatesFor(m, li.rulesInfo, i) && newFor == Unmapped(m, li.rulesInfo, i)
  }

  method Iteration(li: CheckoutLineInfo, m: map<Option<nat>, Discount>, i: int, ghost existing: set<Discount>,
                   ghost orig: map<Option<nat>, DiscountFields>, ghost d0: seq<Discount>,
                   toCreate: seq<Discount>, created: seq<Discount>, ghost newOnes: seq<Discount>, ghost newFor: seq<int>,
                   toUpdate: seq<Discount>, updated: seq<Discount>, ghost upd: seq<Discount>,
                   updatedFields: seq<FieldName>, fields: seq<FieldName>)
    returns (created': seq<Discount>, ghost newOnes': seq<Discount>, ghost newFor': seq<int>,
             updated': seq<Discount>, ghost upd': seq<Discount>, fields': seq<FieldName>)
    requires LoopInv(li, m, i, existing, orig, d0, toCreate, created, newOnes, newFor, toUpdate, updated, upd, updatedFields, fields)
    requires Injective(m) && i < |li.rulesInfo|
    modifies li, Refreshed(m, li.rulesInfo)
    ensures LoopInv(li, m, i + 1, existing, orig, d0, toCreate, created', newOnes', newFor', toUpdate, updated', upd', updatedFields, fields')
  {
    if Some(li.rulesInfo[i].rule.id) !in m {
      var d;
      d, created' := CreateIteration(li, m, i, existing, orig, d0, toCreate, created, newOnes, newFor,
                                     toUpdate, updated, upd, updatedFields, fields);
      newOnes', newFor' := newOnes + [d], newFor + [i];
      updated', upd', fields' := updated, upd, fields;
    } else {
      assert li.rulesInfo[i].rule.id in RuleIds(li.rulesInfo);
      created', newOnes', newFor' := created, newOnes, newFor;
      updated', upd', fields' := UpdateIteration(li, m, i, orig, d0, toCreate, created, newOnes, newFor,
                                                 toUpdate, updated, upd, updatedFields, fields);
    }
    InvAfterStep(li, m, i, existing, orig, d0, toCreate, created', newOnes, newOnes', newFor, newFor',
                 toUpdate, updated', upd, upd', updatedFields, fields');
  }

  /** The invariant after one pass of the loop, from the state the pass leaves and the records it added. */
  lemma InvAfterStep(li: CheckoutLineInfo, m: map<Option<nat>, Discount>, i: int, existing: set<Discount>,
                     orig: map<Option<nat>, DiscountFields>, d0: seq<Discount>,
                     toCreate: seq<Discount>, created: seq<Discount>, newOnes: seq<Discount>, newOnes': seq<Discount>,
                     newFor: seq<int>, newFor': seq<int>,
                     toUpdate: seq<Discount>, updated: seq<Discount>, upd: seq<Discount>, upd': seq<Discount>,
                     updatedFields: seq<FieldName>, fields: seq<FieldName>)
    requires 0 <= i < |li.rulesInfo|
    requires LoopState(li, m, i + 1, orig, d0, toCreate, created, newOnes', newFor', toUpdate, updated, upd', updatedFields, fields)
    requires forall n :: 0 <= n < |newOnes'| ==> newOnes'[n] !in existing
    requires upd == UpdatesFor(m, li.rulesInfo, i) && newFor == Unmapped(m, li.rulesInfo, i)
    requires var key := Some(li.rulesInfo[i].rule.id);
             if key in m then upd' == upd + [m[key]] && newFor' == newFor else upd' == upd && newFor' == newFor + [i]
    ensures LoopInv(li, m, i + 1, existing, orig, d0, toCreate, created, newOnes', newFor', toUpdate, updated, upd', updatedFields, fields)
  {
  }

  /** Before the loop over rule infos: nothing created or updated, every record at its original value. */
  lemma LoopStart(li: CheckoutLineInfo, m: map<Option<nat>, Discount>, orig: map<Option<nat>, DiscountFields>,
                  toCreate: seq<Discount>, toUpdate: seq<Discount>, updatedFields: seq<FieldName>)
    requires orig == map k | k in m :: m[k].Fields()
    ensures LoopState(li, m, 0, orig, li.discounts, toCreate, toCreate, [], [], toUpdate, toUpdate, [], updatedFields, updatedFields)
  {
    assert toCreate + [] == toCreate && toUpdate + [] == toUpdate && li.discounts + [] == li.discounts;
    assert updatedFields[..|updatedFields|] == updatedFields;
    forall k | k in m && IsCurrent(k, li.rulesInfo) ensures m[k].Fields() == ValueAfter(li, 0, k, orig) {
      assert LastIndexOf(li.rulesInfo[..0], k.value) == -1;
    }
  }

  /**
   * The loop over the line's rule infos: the record mapped to each rule is
   * updated, and a record is created for a rule that has none. `newOnes`
   * are the created records and `newFor` the rule infos they were created
   * for; `orig` holds the mapped records' values beforehand.
   */
  method ApplyRuleInfos(li: CheckoutLineInfo, m: map<Option<nat>, Discount>, ghost existing: set<Discount>,
                        toCreate: seq<Discount>, toUpdate: seq<Discount>, updatedFields: seq<FieldName>)
    returns (created: seq<Discount>, updated: seq<Discount>, fields: seq<FieldName>,
             ghost newOnes: seq<Discount>, ghost newFor: seq<int>, ghost orig: map<Option<nat>, DiscountFields>,
             ghost upd: seq<Discount>)
    requires Injective(m)
    modifies li, Refreshed(m, li.rulesInfo)
    ensures LoopState(li, m, |li.rulesInfo|, orig, old(li.discounts), toCreate, created, newOnes, newFor,
                      toUpdate, updated, upd, updatedFields, fields)
    ensures forall n :: 0 <= n < |newOnes| ==> newOnes[n] !in existing
    ensures upd == UpdatesFor(m, li.rulesInfo, |li.rulesInfo|)
    ensures newFor == Unmapped(m, li.rulesInfo, |li.rulesInfo|)
  {
    orig := map k | k in m :: m[k].Fields();
    newOnes, newFor, upd := [], [], [];
    created, updated, fields := toCreate, toUpdate, updatedFields;
    LoopStart(li, m, orig, toCreate, toUpdate, updatedFields);
    var i := 0;
    while i < |li.rulesInfo|
      invariant LoopInv(li, m, i, existing, orig, old(li.discounts), toCreate, created, newOnes, newFor,
                        toUpdate, updated, upd, updatedFields, fields)
    {
      created, newOnes, newFor, updated, upd, fields :=
        Iteration(li, m, i, existing, orig, old(li.discounts), toCreate, created, newOnes, newFor,
                  toUpdate, updated, upd, updatedFields, fields);
      i := i + 1;
    }
    assert i == |li.rulesInfo|;
  }

  /**
   * Once every rule info has been applied: each created record is a new
   * record for a rule info without one, every rule info has a record, and
   * each mapped record of an applicable rule holds its refreshed values.
   */
  lemma ProgressComplete(li: CheckoutLineInfo, m: map<Option<nat>, Discount>,
                         newOnes: seq<Discount>, newFor: seq<int>, orig: map<Option<nat>, DiscountFields>)
    requires ProgressShape(li, m, |li.rulesInfo|, newOnes, newFor) && NewOnesHold(li, newOnes, newFor)
    requires MappedHold(li, m, |li.rulesInfo|, orig)
    ensures forall n :: 0 <= n < |newOnes| ==> NewRecordFor(newOnes[n], newFor[n], m, li)
    ensures forall k | k in m && IsCurrent(k, li.rulesInfo) :: m[k].Fields() == RefreshedValue(k, li)
  {
    assert li.rulesInfo[..|li.rulesInfo|] == li.rulesInfo;
  }

  lemma KeptThenNewHolds(li: CheckoutLineInfo, before: seq<Entry>, news: seq<Discount>, newFor: seq<int>)
    requires li.discounts == Kept(li, before) + news
    requires newFor == Unmapped(LineMap(before), li.rulesInfo, |li.rulesInfo|) && |newFor| == |news|
    requires forall n :: 0 <= n < |news| ==> NewRecordFor(news[n], newFor[n], LineMap(before), li)
    ensures KeptThenNew(li, before)
  {
    var kept := Kept(li, before);
    assert (kept + news)[..|kept|] == kept;
    forall n | 0 <= n < |newFor|
      ensures NewRecordFor(li.discounts[|kept| + n], newFor[n], LineMap(before), li)
    {
      assert li.discounts[|kept| + n] == news[n];
    }
  }

  lemma RulesCoveredHolds(li: CheckoutLineInfo, before: seq<Entry>, news: seq<Discount>, newFor: seq<int>)
    requires li.discounts == Kept(li, before) + news
    requires |newFor| == |news|
    requires forall n :: 0 <= n < |news| ==> NewRecordFor(news[n], newFor[n], LineMap(before), li)
    requires forall j :: 0 <= j < |li.rulesInfo| ==> Some(li.rulesInfo[j].rule.id) in LineMap(before) || j in newFor
    requires forall k | k in LineMap(before) ::
               LineMap(before)[k] in Records(before) && IsPromotionDiscount(LineMap(before)[k]) &&
               LineMap(before)[k].promotionRuleId == k
    ensures RulesCovered(li)
  {
    var m := LineMap(before);
    var kept := Kept(li, before);
    forall j | 0 <= j < |li.rulesInfo|
      ensures HasRecordForRule(li, li.rulesInfo[j].rule.id)
    {
      var id := li.rulesInfo[j].rule.id;
      if Some(id) in m {
        assert id in RuleIds(li.rulesInfo);
        var d := m[Some(id)];
        assert d !in Stale(m, li.rulesInfo);
        assert d in kept;
        assert d in li.discounts;
      } else {
        var n :| 0 <= n < |newFor| && newFor[n] == j;
        assert news[n] == li.discounts[|kept| + n];
      }
    }
  }

  /**
   * The sync of a discounted line: the stale records are removed, then the
   * rule infos are applied. `before` holds the line's records and values
   * beforehand and `m` is `rule_id_to_discount`.
   */
  method SyncDiscountedLine(li: CheckoutLineInfo, ghost existing: set<Discount>, ghost before: seq<Entry>,
                            m: map<Option<nat>, Discount>,
                            toCreate: seq<Discount>, toUpdate: seq<Discount>,
                            toRemove: seq<Discount>, updatedFields: seq<FieldName>)
    returns (created: seq<Discount>, updated: seq<Discount>, removed: seq<Discount>, fields: seq<FieldName>)
    requires NoDuplicates(li.discounts)
    requires forall d | d in li.discounts :: d in existing
    requires Records(before) == li.discounts && m == LineMap(before)
    requires forall e | e in before :: e.fields == e.record.Fields()
    requires forall k | k in m :: m[k] in li.discounts && IsPromotionDiscount(m[k]) && m[k].promotionRuleId == k
    requires Injective(m) && IsDiscounted(li)
    modifies li, set d | d in li.discounts
    ensures LineSynced(li, before)
    ensures forall d | d in li.discounts :: d in old(li.discounts) || d !in existing
    ensures AppendedNew(toCreate, created, existing)
    ensures created == toCreate + NewRecords(li, before)
    ensures AppendedFrom(toUpdate, updated, if IsDiscounted(li) then Refreshed(LineMap(before), li.rulesInfo) else {})
    ensures updated == toUpdate + LineUpdates(li, before)
    ensures AppendedExactly(toRemove, removed, if IsDiscounted(li) then Stale(LineMap(before), li.rulesInfo) else {})
    ensures IsPrefix(updatedFields, fields)
  {
    var staleRecords := DiscountsNotValidAnymore(li.rulesInfo, m, li);
    removed := toRemove + staleRecords;
    assert removed[|toRemove|..] == staleRecords;
    assert li.discounts == Kept(li, before);
    assert OthersUnchanged(li, before, true);
    ghost var kept := li.discounts;
    created, updated, fields := RefreshLine(li, existing, before, m, toCreate, toUpdate, updatedFields);
    assert forall d | d in kept :: d in old(li.discounts);
  }

  /**
   * The second half of the sync of a discounted line, once the stale
   * records are gone: refresh the records of current rules and create
   * records for rules that have none.
   */
  method RefreshLine(li: CheckoutLineInfo, ghost existing: set<Discount>, ghost before: seq<Entry>,
                     m: map<Option<nat>, Discount>,
                     toCreate: seq<Discount>, toUpdate: seq<Discount>, updatedFields: seq<FieldName>)
    returns (created: seq<Discount>, updated: seq<Discount>, fields: seq<FieldName>)
    requires li.discounts == Kept(li, before) && m == LineMap(before)
    requires forall k | k in m :: m[k] in Records(before) && IsPromotionDiscount(m[k]) && m[k].promotionRuleId == k
    requires Injective(m) && OthersUnchanged(li, before, true)
    modifies li, Refreshed(m, li.rulesInfo)
    ensures KeptThenNew(li, before) && RulesCovered(li) && MappedRefreshed(li, before)
    ensures OthersUnchanged(li, before, false)
    ensures forall d | d in li.discounts :: d in old(li.discounts) || d !in existing
    ensures AppendedNew(toCreate, created, existing) && AppendedFrom(toUpdate, updated, Refreshed(m, li.rulesInfo))
    ensures created == toCreate + li.discounts[|Kept(li, before)|..]
    ensures updated == toUpdate + UpdatesFor(m, li.rulesInfo, |li.rulesInfo|)
    ensures IsPrefix(updatedFields, fields)
  {
    ghost var newOnes, newFor, orig, upd;
    created, updated, fields, newOnes, newFor, orig, upd :=
      ApplyKeepingOthers(li, existing, before, m, toCreate, toUpdate, updatedFields);
    LoopOutcome(li, before, m, existing, orig, toCreate, created, newOnes, newFor, toUpdate, updated, upd,
                updatedFields, fields);
  }

  /** The loop over rule infos, which leaves the records it does not refresh as they were. */
  method ApplyKeepingOthers(li: CheckoutLineInfo, ghost existing: set<Discount>, ghost before: seq<Entry>,
                            m: map<Option<nat>, Discount>,
                            toCreate: seq<Discount>, toUpdate: seq<Discount>, updatedFields: seq<FieldName>)
    returns (created: seq<Discount>, updated: seq<Discount>, fields: seq<FieldName>,
             ghost newOnes: seq<Discount>, ghost newFor: seq<int>, ghost orig: map<Option<nat>, DiscountFields>,
             ghost upd: seq<Discount>)
    requires Injective(m) && m == LineMap(before) && OthersUnchanged(li, before, true)
    modifies li, Refreshed(m, li.rulesInfo)
    ensures LoopState(li, m, |li.rulesInfo|, orig, old(li.discounts), toCreate, created, newOnes, newFor,
                      toUpdate, updated, upd, updatedFields, fields)
    ensures forall n :: 0 <= n < |newOnes| ==> newOnes[n] !in existing
    ensures upd == UpdatesFor(m, li.rulesInfo, |li.rulesInfo|)
    ensures newFor == Unmapped(m, li.rulesInfo, |li.rulesInfo|)
    ensures OthersUnchanged(li, before, false)
  {
    created, updated, fields, newOnes, newFor, orig, upd := ApplyRuleInfos(li, m, existing, toCreate, toUpdate, updatedFields);
  }


  /** What the loop over rules leaves: the refreshed line, and the records appended to the lists. */
  lemma LoopOutcome(li: CheckoutLineInfo, before: seq<Entry>, m: map<Option<nat>, Discount>, existing: set<Discount>,
                    orig: map<Option<nat>, DiscountFields>,
                    toCreate: seq<Discount>, created: seq<Discount>, newOnes: seq<Discount>, newFor: seq<int>,
                    toUpdate: seq<Discount>, updated: seq<Discount>, upd: seq<Discount>,
                    updatedFields: seq<FieldName>, fields: seq<FieldName>)
    requires m == LineMap(before)
    requires forall k | k in m :: m[k] in Records(before) && IsPromotionDiscount(m[k]) && m[k].promotionRuleId == k
    requires LoopState(li, m, |li.rulesInfo|, orig, Kept(li, before), toCreate, created, newOnes, newFor,
                       toUpdate, updated, upd, updatedFields, fields)
    requires forall n :: 0 <= n < |newOnes| ==> newOnes[n] !in existing
    requires upd == UpdatesFor(m, li.rulesInfo, |li.rulesInfo|)
    requires newFor == Unmapped(m, li.rulesInfo, |li.rulesInfo|)
    ensures KeptThenNew(li, before) && RulesCovered(li) && MappedRefreshed(li, before)
    ensures forall d | d in li.discounts :: d in Kept(li, before) || d !in existing
    ensures AppendedNew(toCreate, created, existing) && AppendedFrom(toUpdate, updated, Refreshed(m, li.rulesInfo))
    ensures created == toCreate + li.discounts[|Kept(li, before)|..]
    ensures updated == toUpdate + UpdatesFor(m, li.rulesInfo, |li.rulesInfo|)
    ensures IsPrefix(updatedFields, fields)
  {
    NewOnesAfterKept(created, toCreate, li.discounts, Kept(li, before), newOnes);
    UpdatesForRefreshed(m, li.rulesInfo, |li.rulesInfo|);
    RefreshedLineHolds(li, before, m, newOnes, newFor, orig);
    assert created[|toCreate|..] == newOnes;
    assert updated[|toUpdate|..] == upd;
  }

  /** The records appended to `toCreate` are those after the kept ones on the line. */
  lemma NewOnesAfterKept(created: seq<Discount>, toCreate: seq<Discount>, ds: seq<Discount>, kept: seq<Discount>,
                         newOnes: seq<Discount>)
    requires created == toCreate + newOnes && ds == kept + newOnes
    ensures created == toCreate + ds[|kept|..]
  {
    assert ds[|kept|..] == newOnes;
  }

  /** What the loop over rules leaves, restated as the line's refreshed state. */
  lemma RefreshedLineHolds(li: CheckoutLineInfo, before: seq<Entry>, m: map<Option<nat>, Discount>,
                           newOnes: seq<Discount>, newFor: seq<int>, orig: map<Option<nat>, DiscountFields>)
    requires m == LineMap(before) && li.discounts == Kept(li, before) + newOnes
    requires forall k | k in m :: m[k] in Records(before) && IsPromotionDiscount(m[k]) && m[k].promotionRuleId == k
    requires ProgressShape(li, m, |li.rulesInfo|, newOnes, newFor) && NewOnesHold(li, newOnes, newFor)
    requires MappedHold(li, m, |li.rulesInfo|, orig)
    requires newFor == Unmapped(m, li.rulesInfo, |li.rulesInfo|)
    ensures KeptThenNew(li, before) && RulesCovered(li) && MappedRefreshed(li, before)
  {
    ProgressComplete(li, m, newOnes, newFor, orig);
    KeptThenNewHolds(li, before, newOnes, newFor);
    RulesCoveredHolds(li, before, newOnes, newFor);
  }

  /** The sync of a line that is not discounted: its promotion records are deleted at once. */
  method ClearLine(li: CheckoutLineInfo, ghost existing: set<Discount>, ghost before: seq<Entry>,
                   discountsToUpdate: seq<Entry>, toCreate: seq<Discount>, toUpdate: seq<Discount>,
                   toRemove: seq<Discount>, updatedFields: seq<FieldName>)
    returns (created: seq<Discount>, updated: seq<Discount>, removed: seq<Discount>,
             deletedNow: seq<Discount>, fields: seq<FieldName>)
    requires forall e | e in before :: e.fields == e.record.Fields()
    requires discountsToUpdate == PromotionEntries(before) && !IsDiscounted(li)
    modifies li
    ensures LineSynced(li, before)
    ensures forall d | d in li.discounts :: d in old(li.discounts) || d !in existing
    ensures AppendedNew(toCreate, created, existing)
    ensures created == toCreate + NewRecords(li, before)
    ensures AppendedFrom(toUpdate, updated, if IsDiscounted(li) then Refreshed(LineMap(before), li.rulesInfo) else {})
    ensures updated == toUpdate + LineUpdates(li, before)
    ensures AppendedExactly(toRemove, removed, if IsDiscounted(li) then Stale(LineMap(before), li.rulesInfo) else {})
    ensures SameMembers(deletedNow, if IsDiscounted(li) then {} else RecordSet(PromotionEntries(before)))
    ensures IsPrefix(updatedFields, fields)
  {
    deletedNow := Records(discountsToUpdate);
    li.discounts := [];
    created, updated, removed, fields := toCreate, toUpdate, toRemove, updatedFields;
    assert created == toCreate + [] && updated == toUpdate + [];
  }

  /**
   * The body of the loop over lines in
   * `create_discount_objects_for_catalogue_promotions`, for one line: the
   * records to create, update and remove are appended to the given lists,
   * and the records deleted at once (for a line that is not discounted) are
   * returned.
   */
  method SyncLineDiscounts(li: CheckoutLineInfo, ghost existing: set<Discount>, ghost before: seq<Entry>,
                           toCreate: seq<Discount>, toUpdate: seq<Discount>,
                           toRemove: seq<Discount>, updatedFields: seq<FieldName>)
    returns (created: seq<Discount>, updated: seq<Discount>, removed: seq<Discount>,
             deletedNow: seq<Discount>, fields: seq<FieldName>)
    requires NoDuplicates(li.discounts)
    requires forall d | d in li.discounts :: d in existing
    requires before == Snapshot(li.discounts)
    modifies li, set d | d in li.discounts
    ensures LineSynced(li, before)
    ensures forall d | d in li.discounts :: d in old(li.discounts) || d !in existing
    ensures AppendedNew(toCreate, created, existing)
    ensures created == toCreate + NewRecords(li, before)
    ensures AppendedFrom(toUpdate, updated, if IsDiscounted(li) then Refreshed(LineMap(before), li.rulesInfo) else {})
    ensures updated == toUpdate + LineUpdates(li, before)
    ensures AppendedExactly(toRemove, removed, if IsDiscounted(li) then Stale(LineMap(before), li.rulesInfo) else {})
    ensures SameMembers(deletedNow, if IsDiscounted(li) then {} else RecordSet(PromotionEntries(before)))
    ensures IsPrefix(updatedFields, fields)
  {
    var entries := Snapshot(li.discounts);
    var discountAmount := DiscountAmount(li.channelListing, li.quantity);
    var discountsToUpdate := PromotionEntries(entries);
    var m := RuleIdToDiscount(discountsToUpdate);
    LineMapFacts(li.discounts);
    assert m == LineMap(before);
    assert Records(before) == li.discounts;

    if discountAmount == 0.0 {
      created, updated, removed, deletedNow, fields :=
        ClearLine(li, existing, before, discountsToUpdate, toCreate, toUpdate, toRemove, updatedFields);
      return;
    }

    deletedNow := [];
    created, updated, removed, fields :=
      SyncDiscountedLine(li, existing, before, m, toCreate, toUpdate, toRemove, updatedFields);
  }
}
