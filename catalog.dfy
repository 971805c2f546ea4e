/**
 * The data entities the pricing engine works on.  They only store what
 * their constructors receive.  The C# classes are compared by reference;
 * here a category and a product carry an explicit identifier instead, and
 * every identity comparison of the cart compares identifiers.
 */
module Catalog {

  type CategoryId = nat
  type ProductId = nat

  /** How a campaign or a coupon turns its `discount` into money. */
  datatype DiscountType = Rate | Amount

  datatype Category = Category(id: CategoryId, title: string)

  datatype Product = Product(id: ProductId, title: string, price: real, category: Category)

  /** A category-scoped discount that needs `quantity` matching units in the cart. */
  datatype Campaign = Campaign(category: Category, discount: real, quantity: int, discountType: DiscountType)

  /** A cart-wide discount gated by a minimum amount. */
  datatype Coupon = Coupon(minAmount: real, discount: real, discountType: DiscountType)

  /** The coupon a new cart starts with: it never yields a discount. */
  const DefaultCoupon: Coupon := Coupon(0.0, 0.0, Amount)

  /** A line of the cart: one product and how many units of it. */
  datatype CartItem = CartItem(product: Product, quantity: int)
}
