/**
 * Money arithmetic the pricing code relies on: rounding to the currency's
 * minor unit (`quantize_price`) and the two discount operations of the
 * `prices` library (`fixed_discount`, `percentage_discount`), combined by
 * `apply_discount_to_value`.
 *
 * Amounts are `real`s (Python `Decimal`s without a precision context);
 * every currency is taken to have two decimal places.
 */
module Prices {

  /** `DiscountValueType`: a discount is a fixed amount or a percentage. */
  datatype DiscountValueType = Fixed | Percentage

  /** Minor units per major unit of the currency (cents per unit). */
  const MinorUnits: real := 100.0

  /** Rounds to the nearest integer, ties away from zero (ROUND_HALF_UP). */
  function RoundHalfUp(x: real): (n: int)
    ensures x - 0.5 <= n as real <= x + 0.5
    ensures x >= 0.0 ==> n >= 0
    ensures x <= 0.0 ==> n <= 0
    ensures x == x.Floor as real ==> n == x.Floor
  {
    if x >= 0.0 then (x + 0.5).Floor else -((-x + 0.5).Floor)
  }

  /** True when `x` is a whole number of minor units. */
  predicate IsQuantized(x: real) {
    (x * MinorUnits).Floor as real == x * MinorUnits
  }

  /** `quantize_price`: round an amount half-up to the currency's minor unit. */
  function Quantize(x: real): (q: real)
    ensures IsQuantized(q)
    ensures -0.005 <= q - x <= 0.005
    ensures x >= 0.0 ==> q >= 0.0
    ensures IsQuantized(x) ==> q == x
  {
    var n := RoundHalfUp(x * MinorUnits);
    assert (n as real / MinorUnits) * MinorUnits == n as real;
    n as real / MinorUnits
  }

  lemma RoundHalfUpMonotone(x: real, y: real)
    requires x <= y
    ensures RoundHalfUp(x) <= RoundHalfUp(y)
  {
    if x >= 0.0 {
      assert (x + 0.5).Floor <= (y + 0.5).Floor;
    } else if y < 0.0 {
      assert (-y + 0.5).Floor <= (-x + 0.5).Floor;
    }
  }

  /** Rounding never reverses the order of two amounts. */
  lemma QuantizeMonotone(x: real, y: real)
    requires x <= y
    ensures Quantize(x) <= Quantize(y)
  {
    RoundHalfUpMonotone(x * MinorUnits, y * MinorUnits);
  }

  /** Multiplying by a non-negative factor keeps the order of two amounts. */
  lemma MultiplyMonotone(a: real, x: real, y: real)
    requires a >= 0.0 && x <= y
    ensures a * x <= a * y
  {
    assert a * y - a * x == a * (y - x);
  }

  /** Multiplying by a positive factor keeps a strict order. */
  lemma MultiplyStrictlyMonotone(a: real, x: real, y: real)
    requires a > 0.0 && x < y
    ensures a * x < a * y
  {
    assert a * y - a * x == a * (y - x);
  }

  /** `percentage` percent of `base`, before rounding. */
  function PercentOf(base: real, percentage: real): real {
    base * percentage / 100.0
  }

  /** Between 0 and 100 percent of a non-negative amount lies between zero and the amount. */
  lemma PercentOfBounds(base: real, percentage: real)
    requires 0.0 <= base && 0.0 <= percentage
    ensures 0.0 <= PercentOf(base, percentage)
    ensures percentage <= 100.0 ==> PercentOf(base, percentage) <= base
  {
    MultiplyMonotone(base, 0.0, percentage);
    if percentage <= 100.0 {
      var product := base * percentage;
      MultiplyMonotone(base, percentage, 100.0);
      assert product <= base * 100.0;
      assert PercentOf(base, percentage) == product / 100.0;
    }
  }

  /** `prices.fixed_discount`: subtract a fixed amount, never going below zero. */
  function FixedDiscount(base: real, discount: real): (r: real)
    ensures r >= 0.0
    ensures base - discount >= 0.0 ==> r == base - discount
    ensures base - discount <= 0.0 ==> r == 0.0
  {
    if base - discount > 0.0 then base - discount else 0.0
  }

  /**
   * `prices.percentage_discount` with ROUND_HALF_UP: the reduction
   * `PercentOf(base, percentage)` is rounded to the minor unit and then taken
   * off as a fixed discount.
   */
  function PercentageDiscount(base: real, percentage: real): (r: real)
    ensures r >= 0.0
    ensures 0.0 <= base && 0.0 <= percentage <= 100.0 && IsQuantized(base) ==>
              r == base - Quantize(PercentOf(base, percentage))
  {
    var reduction := Quantize(PercentOf(base, percentage));
    if 0.0 <= base && 0.0 <= percentage <= 100.0 && IsQuantized(base) then
      PercentOfBounds(base, percentage);
      QuantizeMonotone(PercentOf(base, percentage), base);
      FixedDiscount(base, reduction)
    else
      FixedDiscount(base, reduction)
  }

  /** `apply_discount_to_value`: the price left after a (value, value type) discount. */
  function ApplyDiscountToValue(value: real, valueType: DiscountValueType, price: real): (r: real)
    ensures r >= 0.0
    ensures valueType == Fixed ==> r == FixedDiscount(price, value)
    ensures valueType == Percentage ==> r == PercentageDiscount(price, value)
  {
    match valueType
    case Fixed => FixedDiscount(price, value)
    case Percentage => PercentageDiscount(price, value)
  }

  /** How much a discount takes off `price`: `price - discount(price)`. */
  function Saving(value: real, valueType: DiscountValueType, price: real): real {
    price - ApplyDiscountToValue(value, valueType, price)
  }

  /**
   * A discount with a non-negative value never raises a non-negative price
   * and never takes off more than the whole price.
   */
  lemma SavingBounds(value: real, valueType: DiscountValueType, price: real)
    requires price >= 0.0 && value >= 0.0
    ensures 0.0 <= Saving(value, valueType, price) <= price
  {
    if valueType == Percentage {
      PercentOfBounds(price, value);
    }
  }
}
