/**
 * The cart's line items as values: the sums the C# code takes with LINQ
 * (`Sum`, `FindAll`, `Find`) and the effect of `addItem` on the item list.
 */
module LineItems {
  import opened Wrappers
  import opened Catalog

  /** Money a line contributes: quantity times unit price. */
  function LineTotal(item: CartItem): real {
    item.quantity as real * item.product.price
  }

  /** No line has a negative quantity or a negative unit price. */
  predicate NonNegativeLines(items: seq<CartItem>) {
    forall it :: it in items ==> it.quantity >= 0 && it.product.price >= 0.0
  }

  /** `itemsAmount`: the sum of the line totals. */
  function ItemsAmount(items: seq<CartItem>): real {
    if items == [] then 0.0 else LineTotal(items[0]) + ItemsAmount(items[1..])
  }

  /** Sum of the quantities of the lines. */
  function TotalQuantity(items: seq<CartItem>): int {
    if items == [] then 0 else items[0].quantity + TotalQuantity(items[1..])
  }

  /** Units of product `id` in the cart, however many lines hold it. */
  function QuantityOf(items: seq<CartItem>, id: ProductId): int {
    if items == [] then 0
    else (if items[0].product.id == id then items[0].quantity else 0) + QuantityOf(items[1..], id)
  }

  /** The cart's invariant: at most one line per product, every quantity positive. */
  predicate ItemsValid(items: seq<CartItem>) {
    && (forall i, j :: 0 <= i < j < |items| ==> items[i].product.id != items[j].product.id)
    && (forall i :: 0 <= i < |items| ==> items[i].quantity > 0)
  }

  /** `items.Find(i => i.product == product)`, as the position of the first line of product `id`. */
  function FindProduct(items: seq<CartItem>, id: ProductId): (r: Option<nat>)
    ensures r.None? <==> forall j :: 0 <= j < |items| ==> items[j].product.id != id
    ensures r.Some? ==> r.value < |items| && items[r.value].product.id == id
    ensures r.Some? ==> forall j :: 0 <= j < r.value ==> items[j].product.id != id
  {
    if items == [] then None
    else if items[0].product.id == id then Some(0)
    else match FindProduct(items[1..], id)
      case None => None
      case Some(j) => Some(j + 1)
  }

  /** `items.FindAll(item => item.product.category == category)`: the lines of category `k`, in cart order. */
  function Matching(items: seq<CartItem>, k: CategoryId): (r: seq<CartItem>)
    ensures |r| <= |items|
    ensures forall it :: it in r <==> it in items && it.product.category.id == k
  {
    if items == [] then []
    else (if items[0].product.category.id == k then [items[0]] else []) + Matching(items[1..], k)
  }

  /** The matching lines are each line of category `k`, as often as the cart holds it, and no other line. */
  lemma {:induction false} MatchingCounts(items: seq<CartItem>, k: CategoryId)
    ensures forall it :: multiset(Matching(items, k))[it] == if it.product.category.id == k then multiset(items)[it] else 0
  {
    if items != [] {
      assert items == [items[0]] + items[1..];
      MatchingCounts(items[1..], k);
    }
  }

  /** Replacing one line by a line of the same category with `quantity` more units raises the matching units by `quantity` when that category is `id`. */
  lemma {:induction false} MatchingRaise(items: seq<CartItem>, k: nat, x: CartItem, quantity: int, id: CategoryId)
    requires k < |items| && x.product.category.id == items[k].product.category.id
    requires x.quantity == items[k].quantity + quantity
    ensures |Matching(items[k := x], id)| == |Matching(items, id)|
    ensures TotalQuantity(Matching(items[k := x], id))
            == TotalQuantity(Matching(items, id)) + (if x.product.category.id == id then quantity else 0)
  {
    var r := items[k := x];
    var tail, tail' := Matching(items[1..], id), Matching(r[1..], id);
    var head := if items[0].product.category.id == id then [items[0]] else [];
    var head' := if r[0].product.category.id == id then [r[0]] else [];
    assert Matching(items, id) == head + tail;
    assert Matching(r, id) == head' + tail';
    TotalQuantityAppend(head, tail);
    TotalQuantityAppend(head', tail');
    if k == 0 {
      assert r[1..] == items[1..];
    } else {
      assert r[1..] == items[1..][k - 1 := x];
      MatchingRaise(items[1..], k - 1, x, quantity, id);
    }
  }

  /** Filtering distributes over concatenation, so the matching lines keep their cart order. */
  lemma {:induction false} MatchingAppend(s: seq<CartItem>, t: seq<CartItem>, k: CategoryId)
    ensures Matching(s + t, k) == Matching(s, k) + Matching(t, k)
  {
    if s == [] {
      assert s + t == t;
    } else {
      assert (s + t)[1..] == s[1..] + t;
      MatchingAppend(s[1..], t, k);
    }
  }

  /** The item list after `addItem(product, quantity)`. */
  function AddedItem(items: seq<CartItem>, product: Product, quantity: int): seq<CartItem> {
    if quantity <= 0 then items
    else
      var found := FindProduct(items, product.id);
      if found.Some? then items[found.value := items[found.value].(quantity := items[found.value].quantity + quantity)]
      else items + [CartItem(product, quantity)]
  }

  // ---------------------------------------------------------------------
  // What addItem promises

  /** Adding a product keeps at most one line per product and every quantity positive. */
  lemma AddedItemValid(items: seq<CartItem>, product: Product, quantity: int)
    requires ItemsValid(items)
    ensures ItemsValid(AddedItem(items, product, quantity))
  {
    var r := AddedItem(items, product, quantity);
    if quantity > 0 && FindProduct(items, product.id).None? {
      assert forall j :: 0 <= j < |items| ==> r[j] == items[j];
      assert r[|items|].product.id == product.id;
    }
  }

  /** Only the line of the added product grows: one line is appended or one line's quantity is raised, never both. */
  lemma AddedItemShape(items: seq<CartItem>, product: Product, quantity: int)
    ensures quantity <= 0 ==> AddedItem(items, product, quantity) == items
    ensures |AddedItem(items, product, quantity)|
            == |items| + (if quantity > 0 && FindProduct(items, product.id).None? then 1 else 0)
    ensures forall j :: 0 <= j < |items| && items[j].product.id != product.id
                    ==> AddedItem(items, product, quantity)[j] == items[j]
    ensures quantity > 0 && FindProduct(items, product.id).None? ==>
              AddedItem(items, product, quantity)[|items|] == CartItem(product, quantity)
  {
  }

  lemma {:induction false} QuantityOfAppend(s: seq<CartItem>, t: seq<CartItem>, id: ProductId)
    ensures QuantityOf(s + t, id) == QuantityOf(s, id) + QuantityOf(t, id)
  {
    if s == [] {
      assert s + t == t;
    } else {
      assert (s + t)[1..] == s[1..] + t;
      QuantityOfAppend(s[1..], t, id);
    }
  }

  lemma {:induction false} QuantityOfUpdate(s: seq<CartItem>, k: nat, x: CartItem, id: ProductId)
    requires k < |s|
    ensures QuantityOf(s[k := x], id)
            == QuantityOf(s, id) - (if s[k].product.id == id then s[k].quantity else 0)
                                 + (if x.product.id == id then x.quantity else 0)
  {
    if k == 0 {
      assert s[k := x][1..] == s[1..];
    } else {
      assert s[k := x][1..] == s[1..][k - 1 := x];
      QuantityOfUpdate(s[1..], k - 1, x, id);
    }
  }

  /** `addItem` with a positive quantity adds exactly that many units of the product and no units of any other. */
  lemma AddedItemQuantity(items: seq<CartItem>, product: Product, quantity: int, id: ProductId)
    ensures QuantityOf(AddedItem(items, product, quantity), id)
            == QuantityOf(items, id) + (if quantity > 0 && id == product.id then quantity else 0)
  {
    if quantity > 0 {
      var found := FindProduct(items, product.id);
      if found.Some? {
        var k := found.value;
        QuantityOfUpdate(items, k, items[k].(quantity := items[k].quantity + quantity), id);
      } else {
        QuantityOfAppend(items, [CartItem(product, quantity)], id);
        assert [CartItem(product, quantity)][1..] == [];
      }
    }
  }

  lemma {:induction false} ItemsAmountAppend(s: seq<CartItem>, t: seq<CartItem>)
    ensures ItemsAmount(s + t) == ItemsAmount(s) + ItemsAmount(t)
  {
    if s == [] {
      assert s + t == t;
    } else {
      assert (s + t)[1..] == s[1..] + t;
      ItemsAmountAppend(s[1..], t);
    }
  }

  /** A percentage of at most 100 of a non-negative amount lies between 0 and that amount. */
  lemma PercentageBounded(d: real, p: real, share: real)
    requires 0.0 <= d && 0.0 <= p <= 100.0 && share == d * p / 100.0
    ensures 0.0 <= share <= d
  {
    assert d * p <= d * 100.0;
  }

  /** The cart amount is never negative when no line has a negative quantity or price. */
  lemma {:induction false} ItemsAmountNonNegative(items: seq<CartItem>)
    requires NonNegativeLines(items)
    ensures ItemsAmount(items) >= 0.0
  {
    if items != [] {
      assert items[0] in items;
      assert NonNegativeLines(items[1..]);
      ItemsAmountNonNegative(items[1..]);
    }
  }

  lemma {:induction false} ItemsAmountUpdate(s: seq<CartItem>, k: nat, x: CartItem)
    requires k < |s|
    ensures ItemsAmount(s[k := x]) == ItemsAmount(s) - LineTotal(s[k]) + LineTotal(x)
  {
    if k == 0 {
      assert s[k := x][1..] == s[1..];
    } else {
      assert s[k := x][1..] == s[1..][k - 1 := x];
      ItemsAmountUpdate(s[1..], k - 1, x);
    }
  }

  /**
   * The cart amount grows by quantity times the product's price.  The
   * requires says what reference identity gives the C# code for free: a
   * line holding product `product.id` holds that very product.
   */
  lemma AddedItemAmount(items: seq<CartItem>, product: Product, quantity: int)
    requires forall j :: 0 <= j < |items| && items[j].product.id == product.id ==> items[j].product == product
    ensures quantity <= 0 ==> ItemsAmount(AddedItem(items, product, quantity)) == ItemsAmount(items)
    ensures quantity > 0 ==>
              ItemsAmount(AddedItem(items, product, quantity)) == ItemsAmount(items) + LineTotal(CartItem(product, quantity))
  {
    if quantity > 0 {
      var found := FindProduct(items, product.id);
      if found.Some? {
        var k := found.value;
        assert items[k].product == product;
        AddedItemAmountRaised(items, product, quantity, k);
      } else {
        AddedItemAmountAppended(items, product, quantity);
      }
    }
  }

  lemma AddedItemAmountRaised(items: seq<CartItem>, product: Product, quantity: int, k: nat)
    requires quantity > 0 && FindProduct(items, product.id) == Some(k)
    requires k < |items| && items[k].product == product
    ensures ItemsAmount(AddedItem(items, product, quantity)) == ItemsAmount(items) + LineTotal(CartItem(product, quantity))
  {
    AddedItemRaised(items, product, quantity, k);
    ItemsAmountRaise(items, k, product, quantity);
  }

  lemma AddedItemRaised(items: seq<CartItem>, product: Product, quantity: int, k: nat)
    requires quantity > 0 && FindProduct(items, product.id) == Some(k)
    ensures AddedItem(items, product, quantity) == items[k := items[k].(quantity := items[k].quantity + quantity)]
  {
  }

  lemma AddedItemAmountAppended(items: seq<CartItem>, product: Product, quantity: int)
    requires quantity > 0 && FindProduct(items, product.id).None?
    ensures ItemsAmount(AddedItem(items, product, quantity)) == ItemsAmount(items) + LineTotal(CartItem(product, quantity))
  {
    assert AddedItem(items, product, quantity) == items + [CartItem(product, quantity)];
    ItemsAmountAppendLine(items, CartItem(product, quantity));
  }

  lemma ItemsAmountRaise(items: seq<CartItem>, k: nat, product: Product, quantity: int)
    requires k < |items| && items[k].product == product
    ensures ItemsAmount(items[k := items[k].(quantity := items[k].quantity + quantity)])
            == ItemsAmount(items) + LineTotal(CartItem(product, quantity))
  {
    ItemsAmountUpdate(items, k, items[k].(quantity := items[k].quantity + quantity));
    LineTotalGrows(items[k], product, quantity);
  }

  lemma ItemsAmountAppendLine(items: seq<CartItem>, line: CartItem)
    ensures ItemsAmount(items + [line]) == ItemsAmount(items) + LineTotal(line)
  {
    ItemsAmountAppend(items, [line]);
    assert [line][1..] == [];
  }

  lemma LineTotalGrows(item: CartItem, product: Product, quantity: int)
    requires item.product == product
    ensures LineTotal(item.(quantity := item.quantity + quantity))
            == LineTotal(item) + LineTotal(CartItem(product, quantity))
  {
    var a, q, p := item.quantity as real, quantity as real, product.price;
    assert (a + q) * p == a * p + q * p;
  }

  /** Lines of category `k` together hold at least one unit when the cart is valid and some line matches. */
  lemma {:induction false} MatchingQuantityPositive(items: seq<CartItem>, k: CategoryId)
    requires forall i :: 0 <= i < |items| ==> items[i].quantity > 0
    ensures TotalQuantity(Matching(items, k)) >= |Matching(items, k)|
  {
    if items != [] {
      MatchingQuantityPositive(items[1..], k);
      var head := if items[0].product.category.id == k then [items[0]] else [];
      TotalQuantityAppend(head, Matching(items[1..], k));
    }
  }

  lemma {:induction false} TotalQuantityAppend(s: seq<CartItem>, t: seq<CartItem>)
    ensures TotalQuantity(s + t) == TotalQuantity(s) + TotalQuantity(t)
  {
    if s == [] {
      assert s + t == t;
    } else {
      assert (s + t)[1..] == s[1..] + t;
      TotalQuantityAppend(s[1..], t);
    }
  }
}
