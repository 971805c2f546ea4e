/**
 * The coupon discount and the total after discounts.  The coupon is
 * applied on top of the campaigns: its minimum is compared with the amount
 * left after the campaign discount, and a percentage coupon takes its
 * share of that amount, not of the raw cart amount.
 */
module Totals {
  import opened Wrappers
  import opened Catalog
  import opened LineItems
  import opened Campaigns

  /**
   * What `coupon` takes off `base`: nothing below its minimum, otherwise
   * its fixed amount or its percentage of `base`.  A percentage of at most
   * 100% never takes off more than `base` itself.
   */
  function CouponOn(coupon: Coupon, base: real): (r: real)
    ensures base < coupon.minAmount ==> r == 0.0
    ensures base >= coupon.minAmount && coupon.discountType == Amount ==> r == coupon.discount
    ensures coupon.discountType == Rate && 0.0 <= coupon.discount <= 100.0 && base >= 0.0 ==> 0.0 <= r <= base
  {
    if base < coupon.minAmount then 0.0
    else if coupon.discountType == Amount then coupon.discount
    else
      var share := base * coupon.discount / 100.0;
      if 0.0 <= coupon.discount <= 100.0 && base >= 0.0 then
        PercentageBounded(base, coupon.discount, share);
        share
      else share
  }

  /** The amount the coupon sees: the cart amount less the campaign discount. */
  function DiscountedAmount(items: seq<CartItem>, cs: seq<Campaign>): real {
    ItemsAmount(items) - CampaignDiscountOf(items, cs)
  }

  /**
   * `getCouponDiscount`: 0 for an empty cart or no coupon, else the coupon
   * applied to the post-campaign amount.  The coupon a new cart holds
   * never gives a discount.
   */
  function CouponDiscountOf(items: seq<CartItem>, cs: seq<Campaign>, coupon: Option<Coupon>): (r: real)
    ensures items == [] || coupon.None? || coupon == Some(DefaultCoupon) ==> r == 0.0
  {
    if items == [] || coupon.None? then 0.0
    else CouponOn(coupon.value, DiscountedAmount(items, cs))
  }

  /**
   * `getTotalAmountAfterDiscounts`: 0 for an empty cart, else the cart
   * amount less both discounts.  Without a coupon, or with the coupon a new
   * cart holds, only the campaigns reduce the amount.
   */
  function TotalAfterDiscounts(items: seq<CartItem>, cs: seq<Campaign>, coupon: Option<Coupon>): (r: real)
    ensures items == [] ==> r == 0.0
    ensures coupon.None? || coupon == Some(DefaultCoupon) ==> r == DiscountedAmount(items, cs)
  {
    if items == [] then
      NoQualifyingCampaign(items, cs);
      0.0
    else ItemsAmount(items) - CampaignDiscountOf(items, cs) - CouponDiscountOf(items, cs, coupon)
  }

  // ---------------------------------------------------------------------

  /** For a non-empty cart the coupon discount is the coupon applied to the amount left after the campaigns. */
  lemma CouponDiscountIs(items: seq<CartItem>, cs: seq<Campaign>, coupon: Coupon, d: real)
    requires items != [] && d == ItemsAmount(items) - CampaignDiscountOf(items, cs)
    ensures d < coupon.minAmount ==> CouponDiscountOf(items, cs, Some(coupon)) == 0.0
    ensures d >= coupon.minAmount && coupon.discountType == Rate ==>
              CouponDiscountOf(items, cs, Some(coupon)) == d * coupon.discount / 100.0
    ensures d >= coupon.minAmount && coupon.discountType == Amount ==>
              CouponDiscountOf(items, cs, Some(coupon)) == coupon.discount
  {
    assert CouponDiscountOf(items, cs, Some(coupon)) == CouponOn(coupon, d);
  }

  /** An empty cart gets no discount of either kind and costs nothing, whatever campaigns and coupon are set. */
  lemma EmptyCart(cs: seq<Campaign>, coupon: Option<Coupon>)
    ensures CampaignDiscountOf([], cs) == 0.0
    ensures CouponDiscountOf([], cs, coupon) == 0.0
    ensures TotalAfterDiscounts([], cs, coupon) == 0.0
  {
    NoQualifyingCampaign([], cs);
  }

  /**
   * The total is the post-campaign amount less the coupon, where the coupon
   * is judged on that same post-campaign amount: a percentage coupon
   * leaves `(100 - discount)%` of it, a fixed coupon subtracts its amount,
   * and a coupon whose minimum is not reached leaves it whole.
   */
  lemma TotalAppliesCouponAfterCampaigns(items: seq<CartItem>, cs: seq<Campaign>, coupon: Coupon)
    requires items != []
    ensures DiscountedAmount(items, cs) < coupon.minAmount ==>
              TotalAfterDiscounts(items, cs, Some(coupon)) == DiscountedAmount(items, cs)
    ensures DiscountedAmount(items, cs) >= coupon.minAmount && coupon.discountType == Rate ==>
              TotalAfterDiscounts(items, cs, Some(coupon))
              == DiscountedAmount(items, cs) * (100.0 - coupon.discount) / 100.0
    ensures DiscountedAmount(items, cs) >= coupon.minAmount && coupon.discountType == Amount ==>
              TotalAfterDiscounts(items, cs, Some(coupon)) == DiscountedAmount(items, cs) - coupon.discount
  {
    var d := DiscountedAmount(items, cs);
    CouponDiscountIs(items, cs, coupon, d);
    assert TotalAfterDiscounts(items, cs, Some(coupon)) == d - CouponDiscountOf(items, cs, Some(coupon));
    RemainingShare(d, coupon.discount);
  }

  lemma RemainingShare(d: real, p: real)
    ensures d - d * p / 100.0 == d * (100.0 - p) / 100.0
  {
    assert d * (100.0 - p) == d * 100.0 - d * p;
  }


}
