/**
 * The repository's own example carts, worked through the model: two food
 * products (3 apples at 100, 1 almonds at 150, so 450) and, in the larger
 * cart, one banana at 100 from another category (550).
 */
module Scenarios {
  import opened Wrappers
  import opened Catalog
  import opened LineItems
  import opened Campaigns
  import opened Totals
  import opened Delivery
  import opened Cart

  const Food := Category(1, "food")
  const Other := Category(2, "other")
  const Apple := Product(1, "Apple", 100.0, Food)
  const Almonds := Product(2, "Almonds", 150.0, Food)
  const Banana := Product(3, "Banana", 100.0, Other)

  /** The campaign lists of the examples. */
  const SingleMatch := [Campaign(Food, 20.0, 3, Rate), Campaign(Food, 50.0, 5, Rate), Campaign(Food, 5.0, 5, Amount)]
  const MultipleMatch := SingleMatch + [Campaign(Other, 50.0, 1, Rate)]
  const AmountWins := [Campaign(Food, 1.0, 3, Rate), Campaign(Food, 2.0, 3, Rate), Campaign(Food, 50.0, 3, Amount)]
  const OutOfReach := [Campaign(Food, 1.0, 999, Rate), Campaign(Food, 2.0, 999, Rate), Campaign(Food, 50.0, 999, Amount)]

  const FoodLines := [CartItem(Apple, 3), CartItem(Almonds, 1)]
  const MixedLines := FoodLines + [CartItem(Banana, 1)]

  /** Two `addItem` calls of new products give two lines in call order; non-positive quantities add nothing. */
  lemma AddItemExamples()
    ensures AddedItem(AddedItem([], Apple, 3), Almonds, 1) == FoodLines
    ensures AddedItem(FoodLines, Banana, 1) == MixedLines
    ensures AddedItem(AddedItem([], Apple, 0), Almonds, -1) == []
  {
    assert AddedItem([], Apple, 3) == [CartItem(Apple, 3)];
    assert FindProduct([CartItem(Apple, 3)], Almonds.id) == None;
    assert FindProduct(FoodLines, Banana.id) == None;
  }

  /** The food lines: 4 units worth 450. */
  lemma FoodFacts()
    ensures Matching(FoodLines, Food.id) == FoodLines
    ensures TotalQuantity(FoodLines) == 4 && ItemsAmount(FoodLines) == 450.0
  {
    assert FoodLines[1..] == [CartItem(Almonds, 1)];
    assert FoodLines[1..][1..] == [];
    var almonds := [CartItem(Almonds, 1)];
    assert almonds[1..] == [];
    assert ItemsAmount(almonds[1..]) == 0.0 && TotalQuantity(almonds[1..]) == 0;
    assert LineTotal(almonds[0]) == 150.0 && LineTotal(FoodLines[0]) == 300.0;
    assert TotalQuantity(almonds) == 1 && ItemsAmount(almonds) == 150.0;
  }

  /** In the mixed cart the food lines are the first two and the banana is alone in its category. */
  lemma MixedFacts()
    ensures Matching(MixedLines, Food.id) == FoodLines
    ensures Matching(MixedLines, Other.id) == [CartItem(Banana, 1)]
    ensures ItemsAmount(MixedLines) == 550.0
  {
    FoodFacts();
    var m := MixedLines;
    assert m[1..] == [CartItem(Almonds, 1), CartItem(Banana, 1)];
    assert m[1..][1..] == [CartItem(Banana, 1)];
    assert Matching(m[1..][1..], Food.id) == [];
    assert Matching(m[1..][1..], Other.id) == [CartItem(Banana, 1)];
    assert Matching(m[1..], Food.id) == [CartItem(Almonds, 1)];
    assert Matching(m[1..], Other.id) == [CartItem(Banana, 1)];
    assert ItemsAmount(m[1..][1..]) == 100.0;
    assert ItemsAmount(m[1..]) == 250.0;
  }

  /** A food campaign on a cart whose food lines are `FoodLines`: it qualifies up to 4 units, a rate takes its share of 450. */
  lemma FoodCampaign(items: seq<CartItem>, c: Campaign)
    requires Matching(items, Food.id) == FoodLines && c.category == Food
    ensures Qualifies(items, c) <==> c.quantity <= 4
    ensures Candidate(items, c) == if c.discountType == Rate then 450.0 * c.discount / 100.0 else c.discount
  {
    FoodFacts();
  }

  /** A campaign on the other category of the mixed cart: it qualifies for 1 unit, a rate takes its share of 100. */
  lemma OtherCampaign(c: Campaign)
    requires c.category == Other
    ensures Qualifies(MixedLines, c) <==> c.quantity <= 1
    ensures Candidate(MixedLines, c) == if c.discountType == Rate then 100.0 * c.discount / 100.0 else c.discount
  {
    MixedFacts();
    var b := [CartItem(Banana, 1)];
    assert b[1..] == [];
    assert TotalQuantity(b) == 1 && ItemsAmount(b) == 100.0;
  }

  /** Of three food campaigns only the 20% one (3 units) qualifies: 20% of 450 is 90. */
  lemma SingleMatchDiscount(items: seq<CartItem>)
    requires Matching(items, Food.id) == FoodLines
    ensures CampaignDiscountOf(items, SingleMatch) == 90.0
    ensures QualifyingCategories(items, SingleMatch) == [Food.id]
  {
    var c1, c2, c3 := SingleMatch[0], SingleMatch[1], SingleMatch[2];
    assert [] + [c1] == [c1] && [c1] + [c2] == [c1, c2] && [c1, c2] + [c3] == SingleMatch;
    FoodCampaign(items, c1);
    FoodCampaign(items, c2);
    FoodCampaign(items, c3);
    NoQualifyingCampaign(items, []);
    CampaignDiscountAppend(items, [], c1);
    QualifyingCategoriesAppend(items, [], c1);
    CampaignDiscountAppend(items, [c1], c2);
    QualifyingCategoriesAppend(items, [c1], c2);
    CampaignDiscountAppend(items, [c1, c2], c3);
    QualifyingCategoriesAppend(items, [c1, c2], c3);
  }

  /** Three qualifying food campaigns give 1%, 2% and a fixed 50: they do not stack, the best (50) is taken. */
  lemma AmountWinsDiscount()
    ensures CampaignDiscountOf(FoodLines, AmountWins) == 50.0
  {
    var items := FoodLines;
    var c1, c2, c3 := AmountWins[0], AmountWins[1], AmountWins[2];
    FoodFacts();
    FoodCampaign(items, c1);
    FoodCampaign(items, c2);
    FoodCampaign(items, c3);
    SingleCategoryNoStacking(items, AmountWins, Food.id);
    assert c3 in AmountWins;
    var best := BestCandidate(items, AmountWins, Food.id);
    BestCandidateIsBest(items, AmountWins, Food.id);
    var c :| c in AmountWins && Qualifies(items, c) && c.category.id == Food.id && Candidate(items, c) == best;
    assert c == c1 || c == c2 || c == c3;
  }

  /** With a minimum of 999 units no campaign qualifies. */
  lemma OutOfReachDiscount()
    ensures CampaignDiscountOf(FoodLines, OutOfReach) == 0.0
  {
    FoodFacts();
    forall c | c in OutOfReach ensures !Qualifies(FoodLines, c) {
      FoodCampaign(FoodLines, c);
    }
    NoQualifyingCampaign(FoodLines, OutOfReach);
  }

  /** Campaigns on two categories add up: 90 for food and 50% of the banana's 100. */
  lemma MultipleMatchDiscount()
    ensures CampaignDiscountOf(MixedLines, MultipleMatch) == 140.0
  {
    var items, c4 := MixedLines, Campaign(Other, 50.0, 1, Rate);
    assert MultipleMatch == SingleMatch + [c4];
    MixedFacts();
    SingleMatchDiscount(items);
    OtherCampaign(c4);
    assert Qualifies(items, c4) && Candidate(items, c4) == 50.0;
    assert c4.category.id !in QualifyingCategories(items, SingleMatch);
    CampaignDiscountAppend(items, SingleMatch, c4);
  }

  /** A coupon of minimum 100 on 450: 10% gives 45, a fixed 10 gives 10; a minimum of 1000 gives nothing. */
  lemma CouponExamples()
    ensures CouponDiscountOf(FoodLines, [], Some(Coupon(100.0, 10.0, Rate))) == 45.0
    ensures CouponDiscountOf(FoodLines, [], Some(Coupon(100.0, 10.0, Amount))) == 10.0
    ensures CouponDiscountOf(FoodLines, [], Some(Coupon(1000.0, 20.0, Amount))) == 0.0
  {
    FoodFacts();
    NoQualifyingCampaign(FoodLines, []);
  }

  /** Totals on the 450 food cart when nothing applies: no discount set, or neither the campaign nor the coupon reached. */
  lemma NoDiscountTotals()
    ensures TotalAfterDiscounts(FoodLines, [], Some(DefaultCoupon)) == 450.0
    ensures TotalAfterDiscounts(FoodLines, [Campaign(Food, 20.0, 1000, Rate)], Some(Coupon(1000.0, 100.0, Rate))) == 450.0
  {
    var unreached := Campaign(Food, 20.0, 1000, Rate);
    FoodFacts();
    FoodCampaign(FoodLines, unreached);
    NoQualifyingCampaign(FoodLines, []);
    NoQualifyingCampaign(FoodLines, [unreached]);
  }

  /** 450 less the 90 of the single-match campaigns is 360. */
  lemma SingleMatchTotal()
    ensures TotalAfterDiscounts(FoodLines, SingleMatch, Some(DefaultCoupon)) == 360.0
  {
    FoodFacts();
    SingleMatchDiscount(FoodLines);
  }

  /** 550 less 140 of campaigns is 410. */
  lemma MultipleMatchTotal()
    ensures TotalAfterDiscounts(MixedLines, MultipleMatch, Some(DefaultCoupon)) == 410.0
  {
    MixedFacts();
    MultipleMatchDiscount();
  }

  /** A fixed coupon of 100 alone takes 450 to 350. */
  lemma CouponOnlyTotal()
    ensures TotalAfterDiscounts(FoodLines, [], Some(Coupon(100.0, 100.0, Amount))) == 350.0
  {
    FoodFacts();
    NoQualifyingCampaign(FoodLines, []);
  }

  /** Campaigns (140) and then a fixed coupon of 100 on the 410 left take 550 to 310. */
  lemma CampaignsAndCouponTotal()
    ensures TotalAfterDiscounts(MixedLines, MultipleMatch, Some(Coupon(100.0, 100.0, Amount))) == 310.0
  {
    MixedFacts();
    MultipleMatchDiscount();
  }

  /**
   * The coupon's minimum is checked after the campaigns: 3 apples (300)
   * with a fixed 50 campaign leave 250, so a coupon needing 300 gives
   * nothing although the raw amount reaches it.
   */
  lemma CouponSeesCampaignDiscount()
    ensures var items := [CartItem(Apple, 3)];
            var cs := [Campaign(Food, 50.0, 1, Amount)];
            && ItemsAmount(items) >= 300.0
            && CouponDiscountOf(items, cs, Some(Coupon(300.0, 10.0, Amount))) == 0.0
  {
    var items := [CartItem(Apple, 3)];
    var c := Campaign(Food, 50.0, 1, Amount);
    assert items[1..] == [];
    assert Matching(items, Food.id) == items && TotalQuantity(items) == 3;
    assert LineTotal(items[0]) == 300.0;
    NoQualifyingCampaign(items, []);
    assert [] + [c] == [c];
    QualifyingCategoriesAppend(items, [], c);
    CampaignDiscountAppend(items, [], c);
  }

  /** Delivery with 2 per delivery, 3 per line and 2.99 fixed: one category and two lines cost 10.99, an empty cart 0. */
  lemma DeliveryExamples()
    ensures DeliveryCostCalculator(2.0, 3.0, 2.99).CalculateFor(FoodLines) == 10.99
    ensures DeliveryCostCalculator(2.0, 3.0, 2.99).CalculateFor([]) == 0.0
  {
    var calculator := DeliveryCostCalculator(2.0, 3.0, 2.99);
    var apples := [CartItem(Apple, 3)];
    assert [] + apples == apples && apples + [CartItem(Almonds, 1)] == FoodLines;
    CategoriesOfAppend([], CartItem(Apple, 3));
    assert CategoriesOf([]) == {};
    CategoriesOfAppend(apples, CartItem(Almonds, 1));
    CalculateForAppend(calculator, [], CartItem(Apple, 3));
    CalculateForAppend(calculator, apples, CartItem(Almonds, 1));
  }

  /** The same calculator on the mixed cart: a line of a new category adds a delivery and a line, 10.99 + 2 + 3 = 15.99. */
  lemma MixedCartDelivery()
    ensures DeliveryCostCalculator(2.0, 3.0, 2.99).CalculateFor(MixedLines) == 15.99
  {
    var calculator := DeliveryCostCalculator(2.0, 3.0, 2.99);
    DeliveryExamples();
    CategoriesOfAppend([], CartItem(Apple, 3));
    assert [] + [CartItem(Apple, 3)] == [CartItem(Apple, 3)];
    assert [CartItem(Apple, 3)] + [CartItem(Almonds, 1)] == FoodLines;
    CategoriesOfAppend([CartItem(Apple, 3)], CartItem(Almonds, 1));
    assert CategoriesOf([]) == {};
    CalculateForAppend(calculator, FoodLines, CartItem(Banana, 1));
  }

  /** The cart object driven as the examples drive it: the same figures come out of its methods. */
  method Checkout() returns (campaignDiscount: real, total: real, delivery: real)
    ensures campaignDiscount == 140.0 && total == 310.0 && delivery == 15.99
  {
    var cart := new ShoppingCart();
    cart.AddItem(Apple, 3);
    cart.AddItem(Almonds, 1);
    cart.AddItem(Banana, 1);
    cart.ApplyDiscounts(MultipleMatch);
    cart.ApplyCoupon(Some(Coupon(100.0, 100.0, Amount)));
    AddItemExamples();
    assert cart.items == MixedLines;
    MultipleMatchDiscount();
    CampaignsAndCouponTotal();
    MixedCartDelivery();
    campaignDiscount := cart.GetCampaignDiscount();
    total := cart.GetTotalAmountAfterDiscounts();
    delivery := cart.GetDeliveryCost(DeliveryCostCalculator(2.0, 3.0, 2.99));
  }

  /** Replacing the campaign list twice with the same list leaves that list, not two copies of it. */
  method ApplyTwice() returns (count: nat)
    ensures count == 3
  {
    var cart := new ShoppingCart();
    cart.ApplyDiscounts(SingleMatch);
    cart.ApplyDiscounts(SingleMatch);
    count := |cart.campaigns|;
  }
}
