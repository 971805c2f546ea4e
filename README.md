# Shopping cart pricing engine, modelled in Dafny

This project models the pricing core of a small C# shopping cart. It covers two classes:

- `ShoppingCart`: the cart aggregate. It owns the lines, the active campaigns and the active coupon. It computes the campaign discount, the coupon discount and the total after discounts.
- `DeliveryCostCalculator`: the delivery-cost formula over the cart's lines.

The model is split into these modules:

- `Catalog` (catalog.dfy): the data the engine works on, as datatypes.
  - Categories and products carry an explicit `id`. The C# code compares them by reference; the model compares ids.
  - C# `decimal` is modelled as `real`.
- `LineItems` (line_items.dfy): the cart lines as a sequence, with the sums the code takes over them. `AddedItem` is the item list after `addItem`, together with its properties.
- `Campaigns` (campaigns.dfy): campaign resolution, stated declaratively.
  - A campaign qualifies when the cart holds lines of its category whose units reach its minimum.
  - Each qualifying category receives the largest candidate among its qualifying campaigns.
  - The campaign discount is the sum of those maxima over the distinct qualifying categories.
  - The module also holds the record list (`CampaignDiscount`) that the loop of `getCampaignDiscount` builds, and `RecordsMatch`, the invariant that ties that list to the declarative rule.
- `Totals` (totals.dfy): the coupon discount and the total after discounts. The coupon is judged on the amount left after the campaigns.
- `Delivery` (delivery.dfy): `DeliveryCostCalculator` as a datatype with the `CalculateFor` formula, plus how `addItem` moves the delivery cost.
- `Cart` (cart.dfy): the `ShoppingCart` class.
  - It has the fields `items`, `campaigns` and `coupon`; the coupon may be absent, as C# `null` allows.
  - `AddItem`, `ApplyDiscounts` and `ApplyCoupon` change the cart in place.
  - The query methods change nothing.
  - `GetCampaignDiscount` is the source's loop, with its record list, proved equal to the declarative campaign discount.
- `Scenarios` (scenarios.dfy): the repository's example carts worked through the model. The figures its tests expect are proved: 90, 50, 140 and 0 for campaigns; 45, 10 and 0 for coupons; 450, 360, 410, 350 and 310 for totals; 10.99 and 0 for delivery. The tests do not check delivery on the mixed cart; the model also proves 15.99 for it, which is the delivery formula applied to that cart.

## Model

| member | source | states |
|---|---|---|
| LineItems.FindProduct | ShoppingCart.Core/Models/ShoppingCart.cs:29-30 | no position exactly when no line holds the product; otherwise the first line that holds it |
| LineItems.Matching | ShoppingCart.Core/Models/ShoppingCart.cs:53 | a line is selected exactly when it is a cart line of the campaign's category |
| LineItems.MatchingCounts | ShoppingCart.Core/Models/ShoppingCart.cs:53 | each line of the category appears as often as in the cart, and no other line appears, so the unit and amount sums over the selection are fixed |
| LineItems.MatchingAppend | ShoppingCart.Core/Models/ShoppingCart.cs:53 | selecting from two concatenated parts is selecting from each in turn, so the selected lines keep their cart order |
| LineItems.ItemsAmountNonNegative | ShoppingCart.Core/Models/ShoppingCart.cs:13 | `itemsAmount` is never negative when no line has a negative quantity or price |
| LineItems.AddedItemValid | ShoppingCart.Core/Models/ShoppingCart.cs:24-33 | `addItem` keeps at most one line per product and every quantity positive |
| LineItems.AddedItemShape | ShoppingCart.Core/Models/ShoppingCart.cs:26-32 | a non-positive quantity leaves the lines unchanged; the line count grows by one exactly when a positive quantity of a new product is added; lines of other products are untouched; a new product's line is appended last with the given quantity |
| LineItems.AddedItemQuantity | ShoppingCart.Core/Models/ShoppingCart.cs:29-32 | the added product gains exactly `quantity` units (when positive), and every other product keeps its units |
| LineItems.AddedItemAmount | ShoppingCart.Core/Models/ShoppingCart.cs:24-33 | the cart amount (`itemsAmount`, line 13) grows by quantity times price, or stays the same for a non-positive quantity |
| Campaigns.QualifyingCategoriesMembers | ShoppingCart.Core/Models/ShoppingCart.cs:53-54 | a category is served exactly when one of its campaigns has matching lines whose units reach the campaign's minimum |
| Campaigns.QualifyingCategoriesDistinct | ShoppingCart.Core/Models/ShoppingCart.cs:63-65 | each category is served once |
| Campaigns.Candidates | ShoppingCart.Core/Models/ShoppingCart.cs:53-61 | a category has candidate discounts exactly when it is served |
| Campaigns.CandidatesMembers | ShoppingCart.Core/Models/ShoppingCart.cs:56-61 | a category's candidates are exactly the discounts of its qualifying campaigns: the fixed amount, or the rate applied to the matching lines' amount |
| Campaigns.Max | ShoppingCart.Core/Models/ShoppingCart.cs:68-72 | the kept value is one of the candidates and no candidate exceeds it |
| Campaigns.BestCandidateIsBest | ShoppingCart.Core/Models/ShoppingCart.cs:63-73 | a category's discount is at least every qualifying candidate of that category and equals one of them |
| Campaigns.FindCategory | ShoppingCart.Core/Models/ShoppingCart.cs:63 | no position exactly when no record has the category; otherwise the first such record |
| Campaigns.RecordsSkip | ShoppingCart.Core/Models/ShoppingCart.cs:53-54 | a campaign that does not qualify leaves the record list satisfying the invariant for one more campaign |
| Campaigns.RecordsAdd | ShoppingCart.Core/Models/ShoppingCart.cs:63-65 | appending a record for a qualifying campaign of a category without a record keeps the invariant |
| Campaigns.RecordsReplace | ShoppingCart.Core/Models/ShoppingCart.cs:68-72 | overwriting a category's record in place with a strictly better campaign keeps the invariant |
| Campaigns.RecordsKeep | ShoppingCart.Core/Models/ShoppingCart.cs:68 | a campaign no better than its category's record (ties included) leaves the records as they are, and the invariant holds |
| Campaigns.RecordsTotal | ShoppingCart.Core/Models/ShoppingCart.cs:76 | once every campaign is processed, the sum of the records is the declarative campaign discount |
| Campaigns.BestCandidateAppend | ShoppingCart.Core/Models/ShoppingCart.cs:68-72 | one more campaign changes only its own category's best, and only when its candidate is strictly larger; a newly served category's best is that campaign's candidate |
| Campaigns.CampaignDiscountAppend | ShoppingCart.Core/Models/ShoppingCart.cs:51-76 | one more campaign adds nothing if it does not qualify, its candidate if its category is new, and otherwise only the amount by which it strictly beats its category's best |
| Campaigns.NoQualifyingCampaign | ShoppingCart.Core/Models/ShoppingCart.cs:47-48 | an empty cart, or a cart where no campaign qualifies, serves no category and gets a campaign discount of 0 |
| Campaigns.SingleCategoryNoStacking | ShoppingCart.Core/Models/ShoppingCart.cs:63-73 | campaigns that all target one category never stack: the discount is the best one alone, or 0 if none qualifies |
| Campaigns.CandidateBounded | ShoppingCart.Core/Models/ShoppingCart.cs:56-61 | a percentage campaign of at most 100% takes off between 0 and what its category's lines cost, when no line is negative |
| Campaigns.QualifiesAfterAddItem | ShoppingCart.Core/Models/ShoppingCart.cs:53-54 | a campaign that qualifies still qualifies after `addItem` of any product, since lines only gain units and none is removed |
| Campaigns.QualifiesLowMinimum | ShoppingCart.Core/Models/ShoppingCart.cs:54 | with positive quantities, a campaign whose minimum is at most 1 qualifies exactly when some line of its category is in the cart |
| Totals.CouponOn | ShoppingCart.Core/Models/ShoppingCart.cs:86-92 | below its minimum a coupon gives 0; at or above it a fixed coupon gives its amount; a rate coupon of 0..100% on a non-negative amount takes off between 0 and that amount |
| Totals.CouponDiscountOf | ShoppingCart.Core/Models/ShoppingCart.cs:80-94 | an empty cart, an absent coupon, and the coupon a new cart holds (line 21) all give 0 |
| Totals.TotalAfterDiscounts | ShoppingCart.Core/Models/ShoppingCart.cs:96-102 | an empty cart totals 0; with no coupon, or the one a new cart holds, the total is the cart amount less the campaign discount |
| Totals.CouponDiscountIs | ShoppingCart.Core/Models/ShoppingCart.cs:86-92 | for a non-empty cart with post-campaign amount `d`, the coupon gives 0 below its minimum, `d * discount / 100` for a rate, and its amount for a fixed coupon |
| Totals.EmptyCart | ShoppingCart.Core/Models/ShoppingCart.cs:96-102 | an empty cart gets no campaign or coupon discount and totals 0, whatever campaigns and coupon are set |
| Totals.TotalAppliesCouponAfterCampaigns | ShoppingCart.Core/Models/ShoppingCart.cs:80-102 | the total is the post-campaign amount `d`: whole below the coupon's minimum, `d * (100 - discount) / 100` under a rate coupon, `d - discount` under a fixed one |
| Delivery.NumberOfDeliveriesBounds | ShoppingCart.Core/Models/DeliveryCostCalculator.cs:28 | a non-empty cart needs between 1 and one-per-line deliveries; an empty cart needs none |
| Delivery.CalculateForBounds | ShoppingCart.Core/Models/DeliveryCostCalculator.cs:21-33 | `calculateFor`: an empty cart costs 0; with a non-negative cost per delivery, a non-empty cart pays between one and one-per-line deliveries on top of the per-line and fixed costs |
| Delivery.CalculateForAppend | ShoppingCart.Core/Models/DeliveryCostCalculator.cs:28-30 | a new line adds the per-line cost, plus a delivery when its category is new, plus the fixed cost when the cart was empty |
| Delivery.CalculateForAdded | ShoppingCart.Core/Models/DeliveryCostCalculator.cs:23-30 | more of a product already in the cart leaves the delivery cost unchanged; a new product moves it as a new line does |
| Cart.ShoppingCart.constructor | ShoppingCart.Core/Models/ShoppingCart.cs:17-22 | a new cart has no lines and no campaigns, holds the zero fixed coupon, and is valid |
| Cart.ShoppingCart.AddItem | ShoppingCart.Core/Models/ShoppingCart.cs:24-33 | the lines become `AddedItem` of the old lines, and validity is preserved; only `items` changes |
| Cart.ShoppingCart.ApplyDiscounts | ShoppingCart.Core/Models/ShoppingCart.cs:35-38 | the campaign list is replaced wholesale; nothing else changes |
| Cart.ShoppingCart.ApplyCoupon | ShoppingCart.Core/Models/ShoppingCart.cs:40-43 | the coupon, possibly absent, is replaced; nothing else changes |
| Cart.ShoppingCart.GetCampaignDiscount | ShoppingCart.Core/Models/ShoppingCart.cs:45-78 | the loop's result is the sum, over the distinct qualifying categories, of each one's best candidate |
| Cart.ShoppingCart.GetCouponDiscount | ShoppingCart.Core/Models/ShoppingCart.cs:80-94 | the result is the coupon applied to the post-campaign amount, or 0 for an empty cart or an absent coupon |
| Cart.ShoppingCart.GetTotalAmountAfterDiscounts | ShoppingCart.Core/Models/ShoppingCart.cs:96-102 | the result is 0 for an empty cart, else the cart amount less both discounts; the cart is unchanged |
| Cart.ShoppingCart.GetDeliveryCost | ShoppingCart.Core/Models/ShoppingCart.cs:104-107 | the result is exactly what the calculator charges for the cart's lines |
| Scenarios.AddItemExamples | ShoppingCart.CoreTests/Models/ShoppingCartTests.cs:26-57 | two new products give two lines in call order; quantities 0 and -1 add nothing |
| Scenarios.SingleMatchDiscount | ShoppingCart.CoreTests/Models/ShoppingCartTests.cs:121-146 | only the 20% campaign qualifies on the 450 food cart: discount 90 |
| Scenarios.AmountWinsDiscount | ShoppingCart.CoreTests/Models/ShoppingCartTests.cs:149-174 | 1%, 2% and a fixed 50 all qualify on one category: only the best, 50, applies |
| Scenarios.MultipleMatchDiscount | ShoppingCart.CoreTests/Models/ShoppingCartTests.cs:177-208 | two categories each get their best: 90 + 50 = 140 |
| Scenarios.OutOfReachDiscount | ShoppingCart.CoreTests/Models/ShoppingCartTests.cs:211-236 | minimums of 999 units give 0 |
| Scenarios.CouponExamples | ShoppingCart.CoreTests/Models/ShoppingCartTests.cs:270-308 | on 450: a 10% coupon gives 45, a fixed 10 gives 10, a minimum of 1000 gives 0 |
| Scenarios.DeliveryExamples | ShoppingCart.CoreTests/Models/ShoppingCartTests.cs:331-360 | with (2, 3, 2.99): one category and two lines cost 10.99, an empty cart 0 |
| Scenarios.MixedCartDelivery | ShoppingCart.Core/Models/DeliveryCostCalculator.cs:28-30 | the same calculator on the mixed cart, two categories and three lines, charges 15.99 by the formula |
| Scenarios.NoDiscountTotals | ShoppingCart.CoreTests/Models/ShoppingCartTests.cs:369-404 | 450 with no discount set, and 450 when neither the campaign nor the coupon is reached |
| Scenarios.SingleMatchTotal | ShoppingCart.CoreTests/Models/ShoppingCartTests.cs:406-431 | 450 - 90 = 360 |
| Scenarios.MultipleMatchTotal | ShoppingCart.CoreTests/Models/ShoppingCartTests.cs:433-464 | 550 - 140 = 410 |
| Scenarios.CouponOnlyTotal | ShoppingCart.CoreTests/Models/ShoppingCartTests.cs:466-482 | 450 - 100 = 350 |
| Scenarios.CampaignsAndCouponTotal | ShoppingCart.CoreTests/Models/ShoppingCartTests.cs:484-518 | 550 - 140 - 100 = 310 |
| Scenarios.CouponSeesCampaignDiscount | ShoppingCart.Core/Models/ShoppingCart.cs:86-87 | a 300 cart with a fixed 50 campaign fails a coupon minimum of 300: the minimum is judged after the campaigns |
| Scenarios.Checkout | ShoppingCart.CoreTests/Models/ShoppingCartTests.cs:484-518 | driving the cart object with this test's calls yields its total of 310, the campaign discount of 140 that the test at lines 177-208 expects for the same cart, and a delivery of 15.99, which is the formula's value for that cart |
| Scenarios.ApplyTwice | ShoppingCart.CoreTests/Models/ShoppingCartTests.cs:85-104 | applying the same three campaigns twice leaves three campaigns |

## Left out

- `print` (ShoppingCart.cs:109-147) is text formatting of decimals and is not modelled.
- The private fields `campaignDiscount` and `couponDiscount` (ShoppingCart.cs:14-15) are not modelled as fields. Each discount getter uses its field as a scratch variable. `getCampaignDiscount` writes its field at line 76 and returns it at line 77. `getCouponDiscount` writes its field at line 85, reads and rewrites it at line 91, and returns it at line 93. No other member reads either field, and no getter's result depends on an earlier call, so in the model the two values are locals (`r`) of the query methods, which change nothing.
- C# `decimal` has 28-digit precision, rounding and overflow exceptions. The model uses exact `real` arithmetic.
- C# `int` quantities are 32-bit, and LINQ `Sum` throws on overflow. The model uses unbounded `int`. Quantity sums never wrap or throw.
- Aliasing is not modelled. In C#, `applyDiscounts` stores the caller's list, so later changes the caller makes to that list show through. Likewise, `addItem` raises the quantity of a shared `ShoppingCartItem` object. The model copies values: the campaign list is a `seq`, and a line update is a sequence update.
- The public setters of every C# property (`items`, `campaigns`, `coupon`, and the calculator's costs) are not modelled. Only the cart's methods change its state.
- `Category.parent`, `Category.deliveryCost` and `Product`/`Category` titles are carried as data or dropped. No logic reads them.
- ShoppingCartItem.cs and CampaignDiscount.cs were not consulted. The datatypes `Catalog.CartItem` and `Campaigns.CampaignDiscount` take their shapes from how the cart uses those classes: a line is a product and a quantity; a record is a campaign and its applied discount.
- Category.cs, Product.cs, Campaign.cs, Coupon.cs and Components/Enums.cs are data-only. They appear as datatypes in `Catalog`. The Turkish display labels of the discount types are dropped.
- `DeliveryCostCalculator`'s constructor (DeliveryCostCalculator.cs:14-19) is the datatype constructor, which stores its three arguments as given.
- `calculateFor` takes the cart object in C#. Here `CalculateFor` takes the cart's line sequence, which is all it reads.
- Cart.ShoppingCart.GetCampaignDiscount: the invariant pins each record's category, that the record's campaign qualifies, and its discount. It does not pin which of several equally good campaigns the record names. The C# code keeps the first one found, but only the sum of the records ever leaves the method.
- Null references are outside the model: its values cannot be null, except the coupon, which is optional. C# allows the following, and the model has no counterpart for them:
  - `applyDiscounts(null)` followed by `getCampaignDiscount` on a non-empty cart throws `NullReferenceException` at ShoppingCart.cs:51. A null entry in the campaign list throws at line 53.
  - `addItem(null, quantity)` appends a line with no product (line 32), after which `itemsAmount` throws (line 13).
  - A product and a campaign that both have a null category match each other at line 53. `GroupBy` at DeliveryCostCalculator.cs:28 counts all null-category lines as one delivery.
- Product identity: two distinct C# `Product` objects with equal fields are different lines. The model needs distinct ids for them, and a line whose id matches a product is taken to hold that product (the requires of `LineItems.AddedItemAmount`).
