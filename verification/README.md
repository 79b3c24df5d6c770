# Saleor discounts, order prices, stock and attribute helpers in Dafny

This project models a slice of the Saleor e-commerce backend and proves properties of it:

- **Voucher usage** (`voucher_usage.dfy`): how a voucher code's usage counter changes, how its active flag changes, and how the table of customers who used the code changes when an order uses the code or gives it back.
- **Catalogue promotions** (`promotion_rules.dfy`, `catalogue_sync.dfy`, `catalogue_promotions.dfy`, `discount_records.dfy`):
  - choosing the best promotion rule for a variant;
  - pricing a variant under its rules;
  - naming a discount;
  - synchronising the discount records of checkout lines with the promotion rules that currently apply: stale records are removed, current ones refreshed and missing ones created.
- **Order promotions** (`order_promotion.dfy`): keeping the checkout's single order-promotion discount in step with the best order rule.
- **Order prices** (`order_calculations.dfy`):
  - the base subtotal and total of an order;
  - applying voucher and manual order discounts in turn;
  - spreading a subtotal discount over the order lines so that the last line absorbs the rounding remainder.
- **Rule variants** (`rule_variants.dfy`): rebuilding the rule-to-variant relation.
- **Warehouses and stock** (`warehouses.dfy`): the countries a warehouse serves, its click-and-collect validation, increasing and decreasing a stock, and the quantity that is still free after allocations.
- **Attribute values** (`attribute_values.dfy`): classifying a value as a colour, a gradient, a URL or a string, with the colour regular expression written out as predicates.
- **Datalist widget** (`datalist.dfy`): the case-insensitive choice lookup of a text input with suggestions.

## Modelling conventions

- Money is `real`. `Prices.Quantize` rounds half-up to two decimal places. Net and gross amounts are equal, because taxes are not part of this model.
- Database rows and Django model instances whose fields the code updates in place are classes:
  - `VoucherCode`, `VoucherCustomerTable`, `Discount`, `CheckoutLineInfo`, `Checkout`, `CheckoutInfo`;
  - `OrderLine`, `OrderDiscount`, `Order`, `Stock`, `RuleVariantTable`.
- Each method on those classes is proved against a pure function of a value snapshot, and the lemmas are stated about that function.
- `bulk_create`, `bulk_update` and `delete` calls are represented by the lists of records the methods return.
- Dictionary iteration order is treated as unspecified. A loop over a dictionary picks keys in any order, and the proofs hold for every order.

## Model

| member | source | states |
|---|---|---|
| VoucherUsage.Increase | saleor/discount/utils.py:52-63 | The usage counter grows by one exactly when the voucher has a usage limit. The call fails exactly when the voucher is once-per-customer, customer tracking is on and the customer already has a row. A successful single-use voucher becomes inactive. A row is added only on a tracked, successful once-per-customer use. |
| VoucherUsage.IncreaseKeepsRowsUnique | saleor/discount/utils.py:52-63 | Using a voucher never creates a duplicate voucher-customer row. |
| VoucherUsage.Release | saleor/discount/utils.py:106-118 | Giving a code back lowers the counter when the voucher has a usage limit. It reactivates a single-use code. It deletes exactly the row of the given (non-empty) e-mail. |
| VoucherUsage.IncreaseThenReleaseRestores | saleor/discount/utils.py:52-118 | A successful use followed by a release with the same e-mail restores the counter, the active flag and the rows. |
| VoucherUsage.Without | saleor/discount/utils.py:98-103 | Deleting a row keeps exactly the other rows and keeps them free of duplicates. |
| VoucherUsage.WithoutAppended | saleor/discount/utils.py:90-103 | Adding a customer's row and then deleting it leaves the table as it was. |
| VoucherUsage.VoucherCode.IncreaseUsageValue | saleor/discount/utils.py:66-69 | `used` grows by one and nothing else changes. |
| VoucherUsage.VoucherCode.DecreaseUsageValue | saleor/discount/utils.py:72-75 | `used` drops by one and nothing else changes. |
| VoucherUsage.VoucherCode.Deactivate | saleor/discount/utils.py:78-81 | The code becomes inactive and its counter is unchanged. |
| VoucherUsage.VoucherCode.Activate | saleor/discount/utils.py:84-87 | The code becomes active and its counter is unchanged. |
| VoucherUsage.VoucherCustomerTable.AddUsageByCustomer | saleor/discount/utils.py:90-95 | The call fails, with the table unchanged, exactly when the customer's row exists. Otherwise the row is appended. |
| VoucherUsage.VoucherCustomerTable.RemoveUsageByCustomer | saleor/discount/utils.py:98-103 | The table loses exactly that customer's row. |
| VoucherUsage.IncreaseVoucherUsage | saleor/discount/utils.py:52-63 | The outcome and the new counter, flag and rows are those of `Increase`. |
| VoucherUsage.ReleaseVoucherCodeUsage | saleor/discount/utils.py:106-118 | Without a code the rows are untouched. With a code the new state is that of `Release`. |
| PromotionRules.GetSaleId | saleor/discount/utils.py:125-130 | A promotion migrated from a sale (non-zero old sale id) gets a `Sale` global id carrying its old sale id. Any other promotion gets a `Promotion` global id carrying the promotion's own id. |
| PromotionRules.PrepareDiscountReason | saleor/discount/utils.py:121-122 | The reason is exactly `Sale` or `Promotion` (matching the id kind), then `: `, then the sale id. |
| PromotionRules.PrepareDiscountReasonInjective | saleor/discount/utils.py:121-122 | For one promotion, different sale ids give different reasons, so the id can be read back from the reason. |
| PromotionRules.GetProductDiscountOnPromotion | saleor/discount/utils.py:235-242 | A rule gives a discount exactly when it applies in the channel. The discount carries the rule's id, reward value type and reward value. |
| PromotionRules.GetProductPromotionDiscounts | saleor/discount/utils.py:222-232 | The discounts are exactly those of the rules that apply in the channel. |
| PromotionRules.DiscountsInRuleOrder | saleor/discount/utils.py:222-232 | The discounts of two rule lists joined are the discounts of the first list followed by those of the second, so each rule's discount comes in the rule's place. |
| PromotionRules.FirstMaxIndex | saleor/discount/utils.py:208-219 | `max` with a key picks the first of the largest elements. |
| PromotionRules.GetBestPromotionDiscount | saleor/discount/utils.py:191-219 | There is no result exactly when no rule applies in the channel. Otherwise the result is the rule id and saving of an applicable rule whose saving is at least every other applicable rule's saving. Every applicable rule before it saves strictly less, so on a tie the first such rule wins, as with `max`. |
| PromotionRules.CalculateDiscountedPriceForPromotions | saleor/discount/utils.py:174-188 | There is no discount exactly when the variant has no rules or none of its rules applies in the channel. Otherwise the discount is the (rule id, saving) of an applicable rule whose saving is at least every other applicable rule's. |
| PromotionRules.TotalSavingNonNegative | saleor/discount/utils.py:159-171 | Rules with non-negative reward values never save a negative amount in total. |
| PromotionRules.CalculateDiscountedPriceForRules | saleor/discount/utils.py:159-171 | The price is the original price less every rule's saving, floored at zero. It never exceeds the original price when the reward values are non-negative. |
| PromotionRules.GetDiscountName | saleor/discount/utils.py:464-467 | With both names, the name is "promotion: rule". With one name, it is that name. Without either, there is no name. |
| PromotionRules.GetDiscountTranslatedName | saleor/discount/utils.py:470-479 | The translated name is absent exactly when neither translation exists. With both, it is "promotion: rule" from the translations. With one, it is that translation's name. |
| PromotionRules.SelectBestOrderRule | saleor/discount/utils.py:542-551 | The chosen rule's subtotal discount is the largest, and every earlier rule's is strictly smaller. |
| Prices.Quantize | saleor/order/base_calculations.py:23-31 | The result has two decimals, lies within half a cent of the input, keeps the input's sign and leaves an already quantized amount unchanged. |
| Prices.QuantizeMonotone | saleor/order/base_calculations.py:23-31 | Quantizing preserves order. |
| Prices.FixedDiscount | saleor/discount/utils.py:315-332 | A fixed discount subtracts the amount, floored at zero. |
| Prices.PercentageDiscount | saleor/discount/utils.py:315-332 | For a quantized price and 0-100 percent, the result is the price less the quantized percentage. It is never negative. |
| Prices.ApplyDiscountToValue | saleor/discount/utils.py:315-332 | The value type selects the fixed or the percentage discount. The result is never negative. |
| Prices.SavingBounds | saleor/discount/utils.py:315-332 | For a non-negative price and value, the saving lies between zero and the price. |
| DiscountRecords.ChangedFields | saleor/discount/utils.py:482-516 | A field name is listed exactly when the old and new values differ, and no name is listed twice. |
| DiscountRecords.ChangedFieldsEmptyIffEqual | saleor/discount/utils.py:482-516 | No field is listed exactly when nothing changed. |
| DiscountRecords.AppendChangedIsConcat | saleor/discount/utils.py:482-516 | The comparisons, made in the source's order, append exactly the changed field names to the list. |
| DiscountRecords.UpdateDiscount | saleor/discount/utils.py:482-516 | The record takes the rule's id, reward, amount, names and reason. The field list grows by exactly the names of the fields that changed. |
| CatalogueSync.DiscountAmount | saleor/discount/utils.py:423-437 | The line's discount is zero exactly when a listing price is missing, the two prices are equal or the quantity is zero. It is non-negative when the discounted price is not above the price. |
| CatalogueSync.RuleDiscountAmount | saleor/discount/utils.py:454-461 | Without a listing discount, or with quantity zero, the amount is zero. With quantity one it is the listing's unit discount, and it never goes negative for a non-negative discount and quantity. |
| CatalogueSync.RuleDiscountAmountAdditive | saleor/discount/utils.py:454-461 | The amount is linear in the quantity: the amount for `q1 + q2` is the sum of the amounts for `q1` and `q2`. |
| CatalogueSync.RuleIdToDiscountLast | saleor/discount/utils.py:357-359 | The dictionary built from the line's promotion records maps each rule id to the last record with that id. |
| CatalogueSync.DiscountsNotValidAnymore | saleor/discount/utils.py:440-451 | The line loses exactly the mapped records whose rule no longer applies, keeping the order of the rest. Those records are returned once each. |
| CatalogueSync.SyncLineDiscounts | saleor/discount/utils.py:352-411 | A line that is not discounted is left with no discounts, and its promotion records are deleted at once. On a discounted line: stale records are removed; records of applicable rules take that rule's values; after the kept records come exactly one new catalogue record per rule info whose rule had no record, in rule-info order, holding that rule info's values (`KeptThenNew`, `Unmapped`), so two such rule infos for one rule give two records; every applicable rule has a record; nothing else changes. The list of records to create grows by exactly the line's records after the kept ones (`NewRecords`). The list to update grows by the mapped record of each applicable rule info that has one, in rule-info order (`LineUpdates`). The removal list grows by exactly the stale records. |
| CatalogueSync.UpdateStep | saleor/discount/utils.py:402-411 | An applicable rule with a record updates that record to the rule's values and queues it for saving. |
| CatalogueSync.CreateStep | saleor/discount/utils.py:387-401 | An applicable rule without a record gets a fresh catalogue record with the rule's values and no reason. |
| CatalogueSync.UnmappedExactly | saleor/discount/utils.py:379-401 | The rule infos the loop creates a record for are listed exactly: each rule info whose rule has no record, once, in increasing order, so repeated rule infos for one rule are each listed. |
| CataloguePromotions.CreateDiscountObjectsForCataloguePromotions | saleor/discount/utils.py:343-420 | Every line ends up synced against its records as they were on entry, as `CatalogueSync.SyncLineDiscounts` states: kept records, then one new record per rule info without a record, in order. The created list is the lines' new records, line by line (`CreatedUpTo`). A record is on it exactly when it is on some line and did not exist on entry. The updated list is, line by line, the mapped record of each applicable rule info that has one (`UpdatedUpTo`). The removed and deleted lists hold exactly the stale records of discounted lines and the promotion records of undiscounted lines. |
| OrderPromotion.WithoutOrderPromotionsIdempotent | saleor/discount/utils.py:584-614 | Dropping order-promotion discounts a second time changes nothing, and none are left. |
| OrderPromotion.SetCheckoutBasePrices | saleor/discount/utils.py:565-581 | The checkout's base subtotal and total are set. An update is reported exactly when either differed. |
| OrderPromotion.ClearCheckoutDiscount | saleor/discount/utils.py:584-614 | The order-promotion discounts leave the checkout info. The checkout's order-promotion records are deleted only when the checkout info held discounts. The checkout's discount amount and names are reset exactly when the checkout info has no voucher code (none or empty); otherwise they keep their values. The base prices stay. |
| OrderPromotion.CreateOrUpdateCheckoutDiscount | saleor/discount/utils.py:617-677 | The call fails exactly when more than one order-promotion record exists. Otherwise the checkout holds one order-promotion discount with the best rule's values, created exactly when none existed. When it is updated, the changed field names are exactly those that differ. |
| OrderPromotion.GetOrCreateCheckoutDiscount | saleor/discount/utils.py:637-662 | With at most one order-promotion record, the record ends with the best rule's values. It is a new record appended to the checkout's rows exactly when none existed; otherwise it is the existing record, and the changed field names are exactly those that differ. The checkout's amount and names are untouched. |
| OrderPromotion.CreateDiscountObjectsForOrderPromotions | saleor/discount/utils.py:519-562 | The base prices are always set. With a voucher code or no rules, order promotions are cleared. Otherwise the best rule is applied (first maximum), and its amount is at least every rule's discount. The applied discount holds that rule's values, and the checkout takes its name and translated name. When the fetch fails on several order-promotion records, the discounts in memory, the records and the checkout's discount amount and names are as they were. |
| RuleVariants.UpdatedContents | saleor/discount/utils.py:787-826 | After the update, the relation holds exactly the new pairs plus the pairs of other rules, and holds no duplicates. |
| RuleVariants.UpdatedKeepsOtherRules | saleor/discount/utils.py:787-826 | The update reorders nothing. The rows it does not delete stay first, in their order. The rows of rules that are not being updated keep their order, ahead of any row added for those rules. When no row belongs to an updated rule, the whole table stays first. |
| RuleVariants.UpdateIsIdempotent | saleor/discount/utils.py:787-826 | Running the update twice gives the same relation as running it once. |
| RuleVariants.AllPresentAddsNothing | saleor/discount/utils.py:820-826 | A bulk create with conflicts ignored adds nothing when every row exists. |
| RuleVariants.BulkCreateIgnoringConflicts | saleor/discount/utils.py:820-826 | Existing rows stay first. A row is present afterwards exactly when it was in the table or in the batch. No duplicates arise. |
| RuleVariants.RuleVariantTable.UpdateRuleVariantRelation | saleor/discount/utils.py:787-826 | The stored relation becomes the updated relation and stays free of duplicates. |
| OrderCalculations.LineTotalDiscount | saleor/order/base_calculations.py:42-57 | Net equals gross in both prices. The undiscounted price exceeds the discounted one by the unit-price difference times the quantity, so it is never lower when the discounted unit price is not above the undiscounted one. |
| OrderCalculations.LinesSumOfLineTotals | saleor/order/base_calculations.py:23-57 | The subtotal sum equals the sum of the lines' discounted totals. It is at most the undiscounted sum when no unit price exceeds its undiscounted price. |
| OrderCalculations.BaseOrderSubtotal | saleor/order/base_calculations.py:23-31 | The subtotal is the quantized sum of `base_unit_price * quantity` over the lines. |
| OrderCalculations.BaseOrderTotal | saleor/order/base_calculations.py:34-39 | The total is the base subtotal plus the order's net shipping price. |
| OrderCalculations.VoucherScope | saleor/order/base_calculations.py:84-98 | An entire-order voucher discounts only the subtotal. A shipping voucher discounts only the shipping. Any other voucher changes nothing. |
| OrderCalculations.ManualPercentageIsIndependent | saleor/order/base_calculations.py:100-112 | A manual percentage discount applies the percentage to the subtotal and to the shipping separately. |
| OrderCalculations.ManualFixedIsProportional | saleor/order/base_calculations.py:113-127 | A manual fixed discount takes the fixed discount off the combined total and splits it in proportion to the subtotal's share. It keeps both parts non-negative. When the total is not positive it changes nothing. |
| OrderCalculations.ApplyAllNonNegative | saleor/order/base_calculations.py:81-133 | Applying non-negative discounts in turn never drives the subtotal or the shipping price negative. |
| OrderCalculations.ReductionsAddUp | saleor/order/base_calculations.py:128-133 | The recomputed amounts of the discounts add up to the total taken off the subtotal and the shipping price. |
| OrderCalculations.ApplyOneOrderDiscount | saleor/order/base_calculations.py:82-127 | One turn of the loop gives the pair that the discount's rules define. |
| OrderCalculations.ApplyDiscountsInTurn | saleor/order/base_calculations.py:81-133 | The final pair results from all discounts in order. Each discount's amount becomes its reduction at its turn. Exactly the discounts whose amount changed are listed for saving. |
| OrderCalculations.RecomputeOrderDiscounts | saleor/order/base_calculations.py:60-133 | The loop starts from the quantized base subtotal of the lines and the order's base shipping price. Afterwards the pair is that of all discounts applied in order, each amount is its reduction, and exactly the changed discounts are listed. |
| OrderCalculations.ApplyOrderDiscounts | saleor/order/base_calculations.py:60-151 | The discounts are recomputed from the base subtotal and the base shipping price. With override, the order's shipping and total prices are set and the subtotal discount is spread over the lines. Without override, the order and the lines are untouched. |
| OrderCalculations.LineAfterDiscountFacts | saleor/order/base_calculations.py:184-201 | After a line discount, the total is non-negative and equals the unit price times the quantity. The unit discount times the quantity is the line discount. When the discount fits, the total drops by exactly that discount. |
| OrderCalculations.ApplyDiscountToOrderLine | saleor/order/base_calculations.py:184-201 | The line's prices become those after the given line discount. |
| OrderCalculations.ApplySubtotalDiscountToOrderLines | saleor/order/base_calculations.py:154-181 | Every line but the last takes its quantized share of the discount, proportional to its total. The last line takes the rest. |
| OrderCalculations.SingleLineTakesAll | saleor/order/base_calculations.py:161-164 | A single line takes the whole subtotal discount. |
| OrderCalculations.SubtotalDiscountSumsUp | saleor/order/base_calculations.py:154-215 | When the lines other than the last start undiscounted and every share fits its line, the lines' totals drop by exactly the subtotal discount. |
| OrderCalculations.SharesAccount | saleor/order/base_calculations.py:168-176 | The discounts the shared-out lines carry add up to the shares they took. |
| OrderCalculations.EnsureOrderLinesPricesSumUpToOrderPrices | saleor/order/base_calculations.py:204-215 | Only the last line changes. It takes the subtotal discount less the discounts the other lines already carry. |
| Warehouses.Countries | saleor/warehouse/models.py:96-99 | A country is served exactly when one of the warehouse's shipping zones lists it. |
| Warehouses.CountriesWithZone | saleor/warehouse/models.py:96-99 | Adding a shipping zone adds exactly that zone's countries. |
| Warehouses.Clean | saleor/warehouse/models.py:106-119 | Validation fails exactly for a private warehouse with local-stock click-and-collect. |
| Warehouses.CleanDependsOnOptionAndPrivacy | saleor/warehouse/models.py:106-119 | Validation ignores the shipping zones, and a public warehouse always passes. |
| Warehouses.Stock.IncreaseStock | saleor/warehouse/models.py:198-202 | The pending change becomes `+n`. With commit, the stored quantity grows by `n`. |
| Warehouses.Stock.DecreaseStock | saleor/warehouse/models.py:204-207 | The pending change becomes `-n`. With commit, the stored quantity drops by `n`. |
| Warehouses.DecreaseThenIncreaseRestores | saleor/warehouse/models.py:198-207 | A committed decrease and increase of the same amount cancel out. |
| Warehouses.UncommittedChangesReplace | saleor/warehouse/models.py:198-207 | Without commit, the stored quantity stays, and a later change replaces the pending one. |
| Warehouses.AvailableQuantityForStock | saleor/warehouse/models.py:217-224 | The available quantity is the quantity less the stock's allocations, floored at zero. |
| Warehouses.AllocationLowersAvailability | saleor/warehouse/models.py:217-224 | Allocating more never increases availability, and allocations of other stocks do not matter. |
| Warehouses.AvailableAtMostQuantity | saleor/warehouse/models.py:217-224 | With non-negative allocations, at most the stock's quantity is available. |
| AttributeValues.ResolveAttributeValueType | saleor/graphql/product/types/attributes.py:23-34 | The value is a colour exactly when it matches the colour pattern. It is a gradient exactly when it is no colour and contains `gradient(`. It is a URL exactly when it is neither and contains `://`. Otherwise it is a string. |
| AttributeValues.HexColourLengths | saleor/graphql/product/types/attributes.py:23 | `#` followed by hex digits is a colour exactly when there are 3, 4, 6 or 8 digits. |
| AttributeValues.ColourStartsWithHashOrFunction | saleor/graphql/product/types/attributes.py:23 | A value whose first character is not `#`, `r` or `h` never matches the colour pattern. |
| AttributeValues.GradientBeforeUrl | saleor/graphql/product/types/attributes.py:27-34 | The gradient test comes before the URL test, and a value that fits neither is a string. |
| AttributeValues.FunctionalExample | saleor/graphql/product/types/attributes.py:23-34 | `rgb(255, 0, 0)` is classified as a colour. |
| Datalist.FormatValue | saleor/userprofile/widgets.py:38-51 | There is no result exactly when the formatted list is empty. An empty value is kept. Otherwise the result is the value itself or the first entry of some choice. |
| Datalist.FormatValuePasses | saleor/userprofile/widgets.py:42-50 | The first exact match wins, then the first prefix match, then the first substring match, all ignoring case. |
| Datalist.UnmatchedValueIsKept | saleor/userprofile/widgets.py:38-51 | A value that no choice string contains, ignoring case, is shown as typed. |
| Datalist.MatchKindsAreNested | saleor/userprofile/widgets.py:42-50 | An exact match is a prefix match, and a prefix match is a substring match. |

## Left out

- The database and the ORM are not modelled: querysets, `select_for_update`, transactions, `save()` and `F()` expressions. Records are objects in memory, and bulk operations are the lists the methods return.
- The checkout and order fetch helpers are not part of this model. Their results are parameters:
  - `fetch_promotion_rules_for_checkout`, `base_checkout_subtotal` and `base_checkout_delivery_price`;
  - the rule translations from `get_rule_translations`;
  - the rule infos of each line.
- `get_voucher_code_instance`, the voucher validation functions and the promotion-discount fetchers in `saleor/discount/utils.py` outside the listed ranges are not modelled.
- Global ids are the type name and the id joined by `:`. The base64 encoding is left out, and UUIDs are natural numbers.
- Money has no currency. Checks that currencies match, and currencies with other than two decimal places, are left out. `Decimal` context settings other than half-up rounding are left out.
- The `prices` library's `fixed_discount` and `percentage_discount` are written out from their documented behaviour, because that library is not part of this model.
- `saleor/core/prices.py` (`quantize_price`) is not part of this model. `Prices.Quantize` stands for it.
- `Text.Lower`, and the `\d` and `\s` classes of the colour pattern, cover ASCII only.
- `Datalist.FormatValue`: the parent `Select.format_value` is a parameter (its result list). An empty list stands for the `IndexError` the source raises. Grouped choices are not modelled; each choice is a list of strings whose first element is its value.
- `Warehouses.Stock.IncreaseStock` and `Warehouses.Stock.DecreaseStock`: the database constraint on the quantity and concurrent updates are left out. The instance keeps only the last pending delta, as the source does.
- `OrderCalculations.ApplyDiscountToOrderLine`: requires a non-zero quantity, because the source divides by the quantity; a line of quantity zero raises a division error there.
- `OrderCalculations.ApplySubtotalDiscountToOrderLines`: requires non-zero quantities and, with more than one line, a non-zero undiscounted subtotal, because the source divides by both.
- `OrderCalculations.ApplyOrderDiscounts`: with override, it carries the same requirements as the spread of the subtotal discount. Discount types other than voucher and manual discounts leave the pair unchanged.
- `base_order_shipping` is not modelled separately. The base shipping price is a field of `Order`.
- `OrderCalculations.SubtotalDiscountSumsUp`: the sum property is proved only when the lines other than the last start undiscounted. `_ensure_order_lines_prices_sum_up_to_order_prices` subtracts every discount the other lines carry, line-level ones included, from the last line's share.
- `CatalogueSync.UpdateStep`, `CatalogueSync.SyncLineDiscounts` and `CataloguePromotions.CreateDiscountObjectsForCataloguePromotions`: the returned list of updated field names is stated only as an extension of the given list, not as exactly the changed field names.
- `OrderPromotion.CreateDiscountObjectsForOrderPromotions`: the order rules are given as a parameter rather than fetched, and the best rule's translations come with it.
