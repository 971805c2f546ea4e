/**
 * `DeliveryCostCalculator`: a fixed configuration and a formula over the
 * cart's lines.  A cart pays once per distinct category it holds (one
 * delivery each), once per line, and a fixed cost; an empty cart pays
 * nothing.
 */
module Delivery {
  import opened Wrappers
  import opened Catalog
  import opened LineItems

  /** The distinct categories of the lines: the keys of `GroupBy(item => item.product.category)`. */
  function CategoriesOf(items: seq<CartItem>): set<CategoryId> {
    set it | it in items :: it.product.category.id
  }

  /** `numberOfDeliveries`: how many distinct categories the cart holds. */
  function NumberOfDeliveries(items: seq<CartItem>): nat {
    |CategoriesOf(items)|
  }

  datatype DeliveryCostCalculator = DeliveryCostCalculator(costPerDelivery: real, costPerProduct: real, fixedCost: real)
  {
    /** `calculateFor`: 0 for an empty cart, else per delivery, per line and fixed costs together. */
    function CalculateFor(items: seq<CartItem>): real {
      if items == [] then 0.0
      else costPerDelivery * NumberOfDeliveries(items) as real + costPerProduct * |items| as real + fixedCost
    }
  }

  // ---------------------------------------------------------------------

  lemma CategoriesOfAppend(items: seq<CartItem>, line: CartItem)
    ensures CategoriesOf(items + [line]) == CategoriesOf(items) + {line.product.category.id}
  {
    var a, b := CategoriesOf(items + [line]), CategoriesOf(items) + {line.product.category.id};
    forall k | k in b ensures k in a {
      if k == line.product.category.id {
        assert line in items + [line];
      } else {
        var it :| it in items && it.product.category.id == k;
        assert it in items + [line];
      }
    }
  }

  lemma CategoriesOfUpdate(items: seq<CartItem>, k: nat, line: CartItem)
    requires k < |items| && line.product == items[k].product
    ensures CategoriesOf(items[k := line]) == CategoriesOf(items)
  {
    var a, b := CategoriesOf(items[k := line]), CategoriesOf(items);
    forall id | id in a ensures id in b {
      var it :| it in items[k := line] && it.product.category.id == id;
      var j :| 0 <= j < |items| && items[k := line][j] == it;
      assert items[j].product.category.id == id;
    }
    forall id | id in b ensures id in a {
      var it :| it in items && it.product.category.id == id;
      var j :| 0 <= j < |items| && items[j] == it;
      assert items[k := line][j].product.category.id == id;
    }
  }

  /** A non-empty cart needs at least one delivery and at most one per line. */
  lemma {:induction false} NumberOfDeliveriesBounds(items: seq<CartItem>)
    ensures items != [] ==> 1 <= NumberOfDeliveries(items) <= |items|
    ensures items == [] ==> NumberOfDeliveries(items) == 0
  {
    if items == [] {
      assert CategoriesOf(items) == {};
    } else {
      var init, line := items[..|items| - 1], items[|items| - 1];
      assert items == init + [line];
      NumberOfDeliveriesBounds(init);
      CategoriesOfAppend(init, line);
    }
  }

  /**
   * With a non-negative cost per delivery, a non-empty cart pays for at
   * least one delivery and at most one per line; an empty cart pays nothing.
   */
  lemma CalculateForBounds(calculator: DeliveryCostCalculator, items: seq<CartItem>)
    requires calculator.costPerDelivery >= 0.0
    ensures items == [] ==> calculator.CalculateFor(items) == 0.0
    ensures items != [] ==>
              var perLines := calculator.costPerProduct * |items| as real + calculator.fixedCost;
              calculator.costPerDelivery + perLines <= calculator.CalculateFor(items)
              <= calculator.costPerDelivery * |items| as real + perLines
  {
    if items != [] {
      NumberOfDeliveriesBounds(items);
      ScaleBetween(calculator.costPerDelivery, NumberOfDeliveries(items) as real, |items| as real);
    }
  }

  lemma ScaleBetween(a: real, n: real, m: real)
    requires a >= 0.0 && 1.0 <= n <= m
    ensures a <= a * n <= a * m
  {
    assert a * (n - 1.0) >= 0.0;
    assert a * (m - n) >= 0.0;
  }

  /** The formula for a non-empty cart with `dn` more deliveries and one more line. */
  lemma CostShift(calculator: DeliveryCostCalculator, items: seq<CartItem>, r: seq<CartItem>, dn: nat)
    requires items != [] && NumberOfDeliveries(r) == NumberOfDeliveries(items) + dn && |r| == |items| + 1
    ensures calculator.CalculateFor(r)
            == calculator.CalculateFor(items) + calculator.costPerProduct + calculator.costPerDelivery * dn as real
  {
    var a, b := calculator.costPerDelivery, calculator.costPerProduct;
    var n, m := NumberOfDeliveries(items) as real, |items| as real;
    assert calculator.CalculateFor(r) == a * (n + dn as real) + b * (m + 1.0) + calculator.fixedCost;
    assert a * (n + dn as real) == a * n + a * dn as real;
    assert b * (m + 1.0) == b * m + b;
  }

  /** Appending a line of a new product: one more line, and one more delivery when its category is new. */
  lemma CalculateForAppend(calculator: DeliveryCostCalculator, items: seq<CartItem>, line: CartItem)
    ensures calculator.CalculateFor(items + [line])
            == calculator.CalculateFor(items)
               + if items == [] then calculator.costPerDelivery + calculator.costPerProduct + calculator.fixedCost
                 else calculator.costPerProduct
                      + (if line.product.category.id in CategoriesOf(items) then 0.0 else calculator.costPerDelivery)
  {
    var r := items + [line];
    CategoriesOfAppend(items, line);
    if items == [] {
      assert CategoriesOf(r) == {line.product.category.id};
      assert NumberOfDeliveries(r) == 1 && |r| == 1;
    } else if line.product.category.id in CategoriesOf(items) {
      assert CategoriesOf(r) == CategoriesOf(items);
      CostShift(calculator, items, r, 0);
    } else {
      CostShift(calculator, items, r, 1);
    }
  }

  /**
   * How `addItem` moves the delivery cost: more of a product already in the
   * cart changes nothing; a new product adds the per-line cost, plus one
   * delivery when its category is new to the cart, plus the fixed cost
   * when the cart was empty.
   */
  lemma CalculateForAdded(calculator: DeliveryCostCalculator, items: seq<CartItem>, product: Product, quantity: int)
    ensures calculator.CalculateFor(AddedItem(items, product, quantity))
            == calculator.CalculateFor(items)
               + if quantity <= 0 || FindProduct(items, product.id).Some? then 0.0
                 else if items == [] then calculator.costPerDelivery + calculator.costPerProduct + calculator.fixedCost
                 else calculator.costPerProduct
                      + (if product.category.id in CategoriesOf(items) then 0.0 else calculator.costPerDelivery)
  {
    var r := AddedItem(items, product, quantity);
    var found := FindProduct(items, product.id);
    if quantity <= 0 {
      assert r == items;
    } else if found.Some? {
      var k := found.value;
      assert r == items[k := items[k].(quantity := items[k].quantity + quantity)];
      CategoriesOfUpdate(items, k, r[k]);
      assert NumberOfDeliveries(r) == NumberOfDeliveries(items) && |r| == |items|;
      assert calculator.CalculateFor(r) == calculator.CalculateFor(items);
    } else {
      var line := CartItem(product, quantity);
      assert r == items + [line];
      CalculateForAppend(calculator, items, line);
    }
  }
}
