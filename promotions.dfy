/** The discount rule of src/hooks/use-promotions.ts. Prices are exact reals. */
module Promotions {
  import opened Common

  /** A row of the `promotions` table (dates and descriptions are not needed here). */
  datatype Promotion = Promotion(
    id: int,
    name: string,
    nameEn: string,
    discountType: string,
    discountValue: real,
    categoryId: Option<int>,
    branchId: Option<int>,
    minOrderAmount: Option<real>,
    maxDiscountAmount: Option<real>)

  const Percentage: string := "percentage"

  /** The minimum-order gate: a truthy minimum, a truthy order total, and a total below it. */
  predicate BelowMinimumOrder(p: Promotion, orderTotal: Option<real>)
  {
    NumTruthy(p.minOrderAmount) && NumTruthy(orderTotal) && orderTotal.value < p.minOrderAmount.value
  }

  /** The discount before the cap and the clamp: a percentage of the price for
      type "percentage", the value itself for every other type. */
  function RawDiscount(price: real, p: Promotion): (d: real)
    ensures p.discountType == Percentage ==> d * 100.0 == price * p.discountValue
    ensures p.discountType != Percentage ==> d == p.discountValue
  {
    if p.discountType == Percentage then price * p.discountValue / 100.0 else p.discountValue
  }

  /** The discount `calculatePromotionDiscount` grants on one item.
      Outside the gate it is the least of the raw discount, the cap (when the cap
      is truthy) and the price. */
  function CalculateDiscount(price: real, p: Promotion, orderTotal: Option<real>): (r: real)
    ensures BelowMinimumOrder(p, orderTotal) ==> r == 0.0
    ensures !BelowMinimumOrder(p, orderTotal) ==>
      && r <= price
      && r <= RawDiscount(price, p)
      && (NumTruthy(p.maxDiscountAmount) ==> r <= p.maxDiscountAmount.value)
      && (r == price || r == RawDiscount(price, p)
          || (NumTruthy(p.maxDiscountAmount) && r == p.maxDiscountAmount.value))
    ensures (!BelowMinimumOrder(p, orderTotal) && !NumTruthy(p.maxDiscountAmount)
             && RawDiscount(price, p) <= price) ==> r == RawDiscount(price, p)
  {
    if BelowMinimumOrder(p, orderTotal) then 0.0
    else
      var discount := RawDiscount(price, p);
      var capped :=
        if NumTruthy(p.maxDiscountAmount) && discount > p.maxDiscountAmount.value
        then p.maxDiscountAmount.value else discount;
      if capped < price then capped else price
  }

  /** With a non-negative price, value and cap the discount lies between zero and the price. */
  lemma DiscountWithinPrice(price: real, p: Promotion, orderTotal: Option<real>)
    requires price >= 0.0 && p.discountValue >= 0.0
    requires p.maxDiscountAmount.Some? ==> p.maxDiscountAmount.value >= 0.0
    ensures 0.0 <= CalculateDiscount(price, p, orderTotal) <= price
  {
    assert price * p.discountValue >= 0.0;
  }

  /** Without an order total the minimum-order gate never applies (the menu page passes none). */
  lemma NoOrderTotalSkipsGate(p: Promotion)
    ensures !BelowMinimumOrder(p, None)
  {
  }

  /** The order the promotion queries request: `discount_value` descending. */
  predicate SortedByValueDesc(ps: seq<Promotion>)
  {
    forall i, j | 0 <= i < j < |ps| :: ps[i].discountValue >= ps[j].discountValue
  }

  /** Worked cases of the discount rule. */
  lemma DiscountExamples()
    ensures CalculateDiscount(100.0, Promotion(1, "", "", "percentage", 20.0, None, None, None, None), None) == 20.0
    ensures CalculateDiscount(100.0, Promotion(1, "", "", "percentage", 20.0, None, None, None, Some(10.0)), None) == 10.0
    ensures CalculateDiscount(50.0, Promotion(1, "", "", "fixed", 100.0, None, None, None, None), None) == 50.0
    ensures CalculateDiscount(100.0, Promotion(1, "", "", "percentage", 10.0, None, None, Some(200.0), None), Some(150.0)) == 0.0
  {
  }
}
