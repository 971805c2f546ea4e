/**
 * The cart aggregate.  It owns its lines, the active campaign list and
 * the active coupon (absent when the caller sets none).  `AddItem`,
 * `ApplyDiscounts` and `ApplyCoupon` change it in place; every query
 * reads it without changing anything, so repeated queries agree.
 */
module Cart {
  import opened Wrappers
  import opened Catalog
  import opened LineItems
  import opened Campaigns
  import opened Totals
  import opened Delivery

  class ShoppingCart {
    var items: seq<CartItem>
    var campaigns: seq<Campaign>
    var coupon: Option<Coupon>

    /** At most one line per product, every quantity positive. */
    ghost predicate Valid()
      reads this
    {
      ItemsValid(items)
    }

    /** A new cart: no lines, no campaigns, and the coupon that never discounts. */
    constructor ()
      ensures Valid()
      ensures items == [] && campaigns == [] && coupon == Some(DefaultCoupon)
    {
      items := [];
      campaigns := [];
      coupon := Some(DefaultCoupon);
    }

    /**
     * `addItem`: a non-positive quantity is ignored; a product already in
     * the cart has its line's quantity raised; a new product gets a new
     * line at the end.
     */
    method AddItem(product: Product, quantity: int)
      modifies this`items
      ensures items == AddedItem(old(items), product, quantity)
      ensures old(Valid()) ==> Valid()
    {
      if ItemsValid(items) {
        AddedItemValid(items, product, quantity);
      }
      if quantity <= 0 {
        return;
      }
      var found := FindProduct(items, product.id);
      if found.Some? {
        var k := found.value;
        items := items[k := items[k].(quantity := items[k].quantity + quantity)];
      } else {
        items := items + [CartItem(product, quantity)];
      }
    }

    /** `applyDiscounts`: the given list replaces the active campaigns. */
    method ApplyDiscounts(campaigns: seq<Campaign>)
      modifies this`campaigns
      ensures this.campaigns == campaigns
    {
      this.campaigns := campaigns;
    }

    /** `applyCoupon`: the given coupon, possibly none, replaces the active one. */
    method ApplyCoupon(coupon: Option<Coupon>)
      modifies this`coupon
      ensures this.coupon == coupon
    {
      this.coupon := coupon;
    }

    /**
     * `getCampaignDiscount`: one pass over the campaigns keeps, per
     * category, the record of the best qualifying campaign seen so far (a
     * later campaign replaces it only when strictly better), and the
     * records are summed.  The result is the sum over the qualifying
     * categories of each one's best candidate.
     */
    method GetCampaignDiscount() returns (r: real)
      ensures r == CampaignDiscountOf(items, campaigns)
    {
      if |items| == 0 {
        NoQualifyingCampaign(items, campaigns);
        return 0.0;
      }
      var cds: seq<CampaignDiscount> := [];
      for i := 0 to |campaigns|
        invariant RecordsMatch(items, campaigns[..i], cds)
      {
        var c := campaigns[i];
        assert campaigns[..i + 1] == campaigns[..i] + [c];
        var campaignItems := Matching(items, c.category.id);
        if |campaignItems| > 0 && TotalQuantity(campaignItems) >= c.quantity {
          var discountAmount := c.discount;
          if c.discountType == Rate {
            var campaignItemsAmount := ItemsAmount(campaignItems);
            discountAmount := campaignItemsAmount * c.discount / 100.0;
          }
          assert discountAmount == Candidate(items, c);
          var found := FindCategory(cds, c.category.id);
          if found.None? {
            RecordsAdd(items, campaigns[..i], c, cds);
            cds := cds + [CampaignDiscount(c, discountAmount)];
          } else {
            if discountAmount > cds[found.value].appliedDiscount {
              RecordsReplace(items, campaigns[..i], c, cds, found.value);
              cds := cds[found.value := CampaignDiscount(c, discountAmount)];
            } else {
              RecordsKeep(items, campaigns[..i], c, cds, found.value);
            }
          }
        } else {
          RecordsSkip(items, campaigns[..i], c, cds);
        }
      }
      assert campaigns[..|campaigns|] == campaigns;
      RecordsTotal(items, campaigns, cds);
      r := AppliedTotal(cds);
    }

    /**
     * `getCouponDiscount`: 0 for an empty cart or no coupon; otherwise the
     * coupon is judged on the amount left after the campaign discount.
     */
    method GetCouponDiscount() returns (r: real)
      ensures r == CouponDiscountOf(items, campaigns, coupon)
    {
      if |items| == 0 || coupon.None? {
        return 0.0;
      }
      var c := coupon.value;
      r := 0.0;
      var campaignDiscount := GetCampaignDiscount();
      var discountedAmount := ItemsAmount(items) - campaignDiscount;
      CouponDiscountIs(items, campaigns, c, discountedAmount);
      if discountedAmount >= c.minAmount {
        r := c.discount;
        if c.discountType == Rate {
          r := discountedAmount * r / 100.0;
        }
      }
    }

    /** `getTotalAmountAfterDiscounts`: 0 for an empty cart, else the amount less both discounts. */
    method GetTotalAmountAfterDiscounts() returns (r: real)
      ensures r == TotalAfterDiscounts(items, campaigns, coupon)
    {
      if |items| == 0 {
        return 0.0;
      }
      var campaignDiscount := GetCampaignDiscount();
      var couponDiscount := GetCouponDiscount();
      r := ItemsAmount(items) - campaignDiscount - couponDiscount;
    }

    /** `getDeliveryCost`: what the calculator charges for this cart's lines. */
    method GetDeliveryCost(calculator: DeliveryCostCalculator) returns (r: real)
      ensures r == calculator.CalculateFor(items)
    {
      r := calculator.CalculateFor(items);
    }
  }
}
