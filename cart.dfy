/**
 * The client-side cart of the storefront: an ordered list of tagged line
 * items, the four aggregates recomputed from that list on every read, and the
 * five operations that replace the list (add a catalogue product, add a
 * configured custom piece, set a quantity, remove a line, clear).
 *
 * Each operation is specified by a function from the old list to the new one
 * (`WithStandardAdded`, `WithCustomAdded`, `WithQuantitySet`, `WithoutItem`);
 * the `CartStore` class holds the list and its methods are proved to produce
 * exactly that new list.
 */
module Cart {
  import opened Optional
  import opened Types

  // ---------------------------------------------------------------------------
  // Aggregates
  // ---------------------------------------------------------------------------

  /** Number of pieces in the cart: the sum of the line quantities. */
  function ItemCount(items: seq<CartItem>): int
  {
    if items == [] then 0 else items[0].quantity + ItemCount(items[1..])
  }

  /** Sum of the line totals. */
  function Subtotal(items: seq<CartItem>): real
  {
    if items == [] then 0.0 else items[0].totalPrice + Subtotal(items[1..])
  }

  /** The deposit is exactly half of the subtotal; nothing is rounded. */
  function DepositAmount(items: seq<CartItem>): (deposit: real)
    ensures deposit + deposit == Subtotal(items)
  {
    Subtotal(items) * 0.5
  }

  /** What is left to pay: the other half, so deposit and balance add up to the subtotal. */
  function RemainingBalance(items: seq<CartItem>): (balance: real)
    ensures balance == DepositAmount(items)
    ensures DepositAmount(items) + balance == Subtotal(items)
  {
    Subtotal(items) - DepositAmount(items)
  }

  /** With every quantity at least one, there are at least as many pieces as lines. */
  lemma {:induction false} ItemCountAtLeastLines(items: seq<CartItem>)
    requires forall i :: 0 <= i < |items| ==> items[i].quantity >= 1
    ensures ItemCount(items) >= |items|
  {
    if items != [] {
      ItemCountAtLeastLines(items[1..]);
    }
  }

  /** With no negative line total the subtotal, and so the deposit and the balance, are not negative. */
  lemma {:induction false} SubtotalNonNegative(items: seq<CartItem>)
    requires forall i :: 0 <= i < |items| ==> items[i].totalPrice >= 0.0
    ensures Subtotal(items) >= 0.0
    ensures DepositAmount(items) >= 0.0 && RemainingBalance(items) >= 0.0
  {
    if items != [] {
      SubtotalNonNegative(items[1..]);
    }
  }

  lemma {:induction false} ItemCountAppend(a: seq<CartItem>, b: seq<CartItem>)
    ensures ItemCount(a + b) == ItemCount(a) + ItemCount(b)
  {
    if a == [] {
      assert a + b == b;
    } else {
      assert (a + b)[1..] == a[1..] + b;
      ItemCountAppend(a[1..], b);
    }
  }

  lemma {:induction false} SubtotalAppend(a: seq<CartItem>, b: seq<CartItem>)
    ensures Subtotal(a + b) == Subtotal(a) + Subtotal(b)
  {
    if a == [] {
      assert a + b == b;
    } else {
      assert (a + b)[1..] == a[1..] + b;
      SubtotalAppend(a[1..], b);
    }
  }

  /** Replacing one line changes the item count by the difference of the two quantities. */
  lemma {:induction false} ItemCountUpdate(items: seq<CartItem>, k: int, x: CartItem)
    requires 0 <= k < |items|
    ensures ItemCount(items[k := x]) == ItemCount(items) - items[k].quantity + x.quantity
  {
    if k == 0 {
      assert items[k := x][1..] == items[1..];
    } else {
      assert items[k := x][1..] == items[1..][k - 1 := x];
      ItemCountUpdate(items[1..], k - 1, x);
    }
  }

  /** Replacing one line changes the subtotal by the difference of the two line totals. */
  lemma {:induction false} SubtotalUpdate(items: seq<CartItem>, k: int, x: CartItem)
    requires 0 <= k < |items|
    ensures Subtotal(items[k := x]) == Subtotal(items) - items[k].totalPrice + x.totalPrice
  {
    if k == 0 {
      assert items[k := x][1..] == items[1..];
    } else {
      assert items[k := x][1..] == items[1..][k - 1 := x];
      SubtotalUpdate(items[1..], k - 1, x);
    }
  }

  // ---------------------------------------------------------------------------
  // The line-pricing invariant
  // ---------------------------------------------------------------------------

  /** A line whose total is its unit price times its quantity. */
  predicate LinePriced(item: CartItem)
  {
    item.totalPrice == item.unitPrice * item.quantity as real
  }

  predicate AllLinesPriced(items: seq<CartItem>)
  {
    forall i :: 0 <= i < |items| ==> LinePriced(items[i])
  }

  // ---------------------------------------------------------------------------
  // Adding a catalogue product
  // ---------------------------------------------------------------------------

  /** A standard line that refers to the product with this id. */
  predicate IsStandardFor(item: CartItem, productId: Id)
  {
    item.Standard? && item.product.Some? && item.product.value.id == productId
  }

  /** Position of the first standard line for the product, or -1 when there is none. */
  function FirstStandardIndex(items: seq<CartItem>, productId: Id): (k: int)
    ensures -1 <= k < |items|
    ensures k == -1 <==> forall i :: 0 <= i < |items| ==> !IsStandardFor(items[i], productId)
    ensures 0 <= k ==> IsStandardFor(items[k], productId)
    ensures forall i :: 0 <= i < k ==> !IsStandardFor(items[i], productId)
  {
    if items == [] then -1
    else if IsStandardFor(items[0], productId) then 0
    else
      var k := FirstStandardIndex(items[1..], productId);
      if k == -1 then -1 else k + 1
  }

  /** The search the cart runs before adding a product: a left-to-right scan. */
  method FindStandardIndex(items: seq<CartItem>, productId: Id) returns (k: int)
    ensures k == FirstStandardIndex(items, productId)
  {
    k := 0;
    while k < |items| && !IsStandardFor(items[k], productId)
      invariant 0 <= k <= |items|
      invariant forall i :: 0 <= i < k ==> !IsStandardFor(items[i], productId)
    {
      k := k + 1;
    }
    if k == |items| {
      k := -1;
    }
  }

  /** The standard line after `quantity` more pieces were merged into it; its unit price is kept. */
  function Merged(item: CartItem, quantity: int): CartItem
    requires item.Standard?
  {
    Standard(item.id, item.product, item.quantity + quantity, item.unitPrice,
             item.unitPrice * (item.quantity + quantity) as real)
  }

  function NewStandardLine(product: Product, quantity: int, newId: Id): CartItem
  {
    Standard(newId, Some(product), quantity, product.basePrice, product.basePrice * quantity as real)
  }

  /** The list after adding `quantity` pieces of `product`. */
  function WithStandardAdded(items: seq<CartItem>, product: Product, quantity: int, newId: Id): seq<CartItem>
  {
    var k := FirstStandardIndex(items, product.id);
    if k >= 0 then items[k := Merged(items[k], quantity)]
    else items + [NewStandardLine(product, quantity, newId)]
  }

  /**
   * When the cart already holds a standard line for the product, the first
   * such line absorbs the quantity in place and nothing else changes.
   */
  lemma AddStandardMergesIntoFirst(items: seq<CartItem>, product: Product, quantity: int, newId: Id, k: int)
    requires 0 <= k < |items| && IsStandardFor(items[k], product.id)
    requires forall i :: 0 <= i < k ==> !IsStandardFor(items[i], product.id)
    ensures var r := WithStandardAdded(items, product, quantity, newId);
      && |r| == |items|
      && r[k].Standard? && r[k].id == items[k].id && r[k].product == items[k].product
      && r[k].quantity == items[k].quantity + quantity
      && r[k].unitPrice == items[k].unitPrice
      && r[k].totalPrice == items[k].unitPrice * (items[k].quantity + quantity) as real
      && forall i :: 0 <= i < |items| && i != k ==> r[i] == items[i]
  {
  }

  /** Without a standard line for the product, exactly one new line is appended. */
  lemma AddStandardAppendsNewLine(items: seq<CartItem>, product: Product, quantity: int, newId: Id)
    requires forall i :: 0 <= i < |items| ==> !IsStandardFor(items[i], product.id)
    ensures var r := WithStandardAdded(items, product, quantity, newId);
      && |r| == |items| + 1
      && r[..|items|] == items
      && r[|items|].Standard? && r[|items|].id == newId && r[|items|].product == Some(product)
      && r[|items|].quantity == quantity
      && r[|items|].unitPrice == product.basePrice
      && r[|items|].totalPrice == product.basePrice * quantity as real
  {
  }

  /**
   * Adding a product raises the item count by the quantity added and the
   * subtotal by that quantity at the unit price of the line it lands on.
   */
  lemma AddStandardTotals(items: seq<CartItem>, product: Product, quantity: int, newId: Id)
    requires AllLinesPriced(items)
    ensures ItemCount(WithStandardAdded(items, product, quantity, newId)) == ItemCount(items) + quantity
    ensures var k := FirstStandardIndex(items, product.id);
      0 <= k ==> Subtotal(WithStandardAdded(items, product, quantity, newId))
                 == Subtotal(items) + items[k].unitPrice * quantity as real
    ensures FirstStandardIndex(items, product.id) == -1 ==>
      Subtotal(WithStandardAdded(items, product, quantity, newId))
      == Subtotal(items) + product.basePrice * quantity as real
  {
    var k := FirstStandardIndex(items, product.id);
    if k >= 0 {
      assert LinePriced(items[k]);
    }
    AddStandardTotalsAt(items, product, quantity, newId);
  }

  /** The totals after an addition, needing only that the line merged into is priced. */
  lemma AddStandardTotalsAt(items: seq<CartItem>, product: Product, quantity: int, newId: Id)
    requires FirstStandardIndex(items, product.id) >= 0 ==> LinePriced(items[FirstStandardIndex(items, product.id)])
    ensures ItemCount(WithStandardAdded(items, product, quantity, newId)) == ItemCount(items) + quantity
    ensures var k := FirstStandardIndex(items, product.id);
      0 <= k ==> Subtotal(WithStandardAdded(items, product, quantity, newId))
                 == Subtotal(items) + items[k].unitPrice * quantity as real
    ensures FirstStandardIndex(items, product.id) == -1 ==>
      Subtotal(WithStandardAdded(items, product, quantity, newId))
      == Subtotal(items) + product.basePrice * quantity as real
  {
    var k := FirstStandardIndex(items, product.id);
    var r := WithStandardAdded(items, product, quantity, newId);
    if k >= 0 {
      assert ItemCount(r) == ItemCount(items) + quantity
          && Subtotal(r) == Subtotal(items) + items[k].unitPrice * quantity as real by {
        assert r == items[k := Merged(items[k], quantity)];
        MergeTotals(items, k, quantity);
      }
    } else {
      var line := NewStandardLine(product, quantity, newId);
      assert ItemCount(r) == ItemCount(items) + quantity
          && Subtotal(r) == Subtotal(items) + product.basePrice * quantity as real by {
        assert r == items + [line];
        AppendTotals(items, line);
      }
    }
  }

  lemma AppendTotals(items: seq<CartItem>, line: CartItem)
    ensures ItemCount(items + [line]) == ItemCount(items) + line.quantity
    ensures Subtotal(items + [line]) == Subtotal(items) + line.totalPrice
  {
    ItemCountAppend(items, [line]);
    SubtotalAppend(items, [line]);
    assert [line][1..] == [];
  }

  lemma MergeTotals(items: seq<CartItem>, k: int, quantity: int)
    requires 0 <= k < |items| && items[k].Standard? && LinePriced(items[k])
    ensures ItemCount(items[k := Merged(items[k], quantity)]) == ItemCount(items) + quantity
    ensures Subtotal(items[k := Merged(items[k], quantity)]) == Subtotal(items) + items[k].unitPrice * quantity as real
  {
    var item := items[k];
    var line := Merged(item, quantity);
    ItemCountUpdate(items, k, line);
    SubtotalUpdate(items, k, line);
    MergedTotal(item, quantity);
  }

  lemma MergedTotal(item: CartItem, quantity: int)
    requires item.Standard? && LinePriced(item)
    ensures Merged(item, quantity).totalPrice == item.totalPrice + item.unitPrice * quantity as real
  {
    calc {
      Merged(item, quantity).totalPrice;
      item.unitPrice * (item.quantity + quantity) as real;
      item.unitPrice * item.quantity as real + item.unitPrice * quantity as real;
    }
  }

  /**
   * Two additions of the same product to a cart that did not hold it make a
   * single line whose quantity is the sum of both and whose total is priced
   * on that merged quantity.
   */
  lemma RepeatedAddsMerge(items: seq<CartItem>, product: Product, q1: int, q2: int, id1: Id, id2: Id)
    requires forall i :: 0 <= i < |items| ==> !IsStandardFor(items[i], product.id)
    ensures var r := WithStandardAdded(WithStandardAdded(items, product, q1, id1), product, q2, id2);
      && |r| == |items| + 1
      && r[..|items|] == items
      && r[|items|].id == id1
      && r[|items|].quantity == q1 + q2
      && r[|items|].totalPrice == product.basePrice * (q1 + q2) as real
  {
    var once := WithStandardAdded(items, product, q1, id1);
    AddStandardAppendsNewLine(items, product, q1, id1);
    assert forall i :: 0 <= i < |items| ==> once[i] == items[i];
    AddStandardMergesIntoFirst(once, product, q2, id2, |items|);
  }

  // ---------------------------------------------------------------------------
  // Adding a configured custom piece
  // ---------------------------------------------------------------------------

  /** The list after adding a custom piece at the configurator's price. */
  function WithCustomAdded(items: seq<CartItem>, config: CustomFurnitureConfig, price: real, newId: Id): seq<CartItem>
  {
    items + [Custom(newId, Some(config), 1, price, price)]
  }

  /**
   * A custom piece is always appended as one new line of quantity 1, never
   * merged, even when an identical configuration is already in the cart; the
   * count grows by one and the subtotal by the price.
   */
  lemma AddCustomAppendsOneLine(items: seq<CartItem>, config: CustomFurnitureConfig, price: real, newId: Id)
    ensures var r := WithCustomAdded(items, config, price, newId);
      && |r| == |items| + 1
      && r[..|items|] == items
      && r[|items|].Custom? && r[|items|].customConfig == Some(config) && r[|items|].id == newId
      && r[|items|].quantity == 1
      && r[|items|].unitPrice == price && r[|items|].totalPrice == price
      && ItemCount(r) == ItemCount(items) + 1
      && Subtotal(r) == Subtotal(items) + price
  {
    var line := Custom(newId, Some(config), 1, price, price);
    ItemCountAppend(items, [line]);
    SubtotalAppend(items, [line]);
  }

  // ---------------------------------------------------------------------------
  // Removing a line
  // ---------------------------------------------------------------------------

  /** The list without every line carrying this id. */
  function WithoutItem(items: seq<CartItem>, id: Id): (r: seq<CartItem>)
    ensures |r| <= |items|
    ensures forall x :: x in r <==> x in items && x.id != id
  {
    if items == [] then []
    else (if items[0].id == id then [] else [items[0]]) + WithoutItem(items[1..], id)
  }

  /** Removal works line by line, so the lines it keeps stay in their relative order. */
  lemma {:induction false} WithoutItemDistributes(a: seq<CartItem>, b: seq<CartItem>, id: Id)
    ensures WithoutItem(a + b, id) == WithoutItem(a, id) + WithoutItem(b, id)
  {
    if a == [] {
      assert a + b == b;
    } else {
      assert (a + b)[1..] == a[1..] + b;
      WithoutItemDistributes(a[1..], b, id);
    }
  }

  /** Removing an id no line carries leaves the list as it was. */
  lemma {:induction false} WithoutUnknownItem(items: seq<CartItem>, id: Id)
    requires forall i :: 0 <= i < |items| ==> items[i].id != id
    ensures WithoutItem(items, id) == items
  {
    if items != [] {
      WithoutUnknownItem(items[1..], id);
    }
  }

  // ---------------------------------------------------------------------------
  // Setting a quantity
  // ---------------------------------------------------------------------------

  /** A standard line with this id takes the new quantity; anything else is returned as is. */
  function WithLineQuantity(item: CartItem, id: Id, quantity: int): CartItem
  {
    if item.id == id && item.Standard? then
      Standard(item.id, item.product, quantity, item.unitPrice, item.unitPrice * quantity as real)
    else item
  }

  /** The list after setting the quantity of the line(s) with this id. */
  function WithQuantitySet(items: seq<CartItem>, id: Id, quantity: int): seq<CartItem>
  {
    if quantity < 1 then WithoutItem(items, id)
    else seq(|items|, i requires 0 <= i < |items| => WithLineQuantity(items[i], id, quantity))
  }

  /** A quantity below one is a removal, for custom lines as well as standard ones. */
  lemma QuantityBelowOneRemoves(items: seq<CartItem>, id: Id, quantity: int)
    requires quantity < 1
    ensures WithQuantitySet(items, id, quantity) == WithoutItem(items, id)
    ensures forall x :: x in WithQuantitySet(items, id, quantity) ==> x.id != id
  {
  }

  /**
   * With a quantity of at least one, standard lines with the id take the new
   * quantity and a matching total, custom lines and all other lines are
   * unchanged, and length and order are kept.
   */
  lemma QuantitySetUpdatesStandardLines(items: seq<CartItem>, id: Id, quantity: int)
    requires quantity >= 1
    ensures var r := WithQuantitySet(items, id, quantity);
      && |r| == |items|
      && forall i :: 0 <= i < |items| ==>
           if items[i].id == id && items[i].Standard? then
             && r[i].Standard? && r[i].id == id && r[i].product == items[i].product
             && r[i].unitPrice == items[i].unitPrice
             && r[i].quantity == quantity
             && r[i].totalPrice == items[i].unitPrice * quantity as real
           else r[i] == items[i]
  {
  }

  /** Setting the quantity of an id no line carries leaves the list identical. */
  lemma QuantitySetUnknownId(items: seq<CartItem>, id: Id, quantity: int)
    requires forall i :: 0 <= i < |items| ==> items[i].id != id
    ensures WithQuantitySet(items, id, quantity) == items
  {
    if quantity < 1 {
      WithoutUnknownItem(items, id);
    }
  }

  // ---------------------------------------------------------------------------
  // Invariant preservation and a worked example
  // ---------------------------------------------------------------------------

  lemma StandardAddKeepsLinesPriced(items: seq<CartItem>, product: Product, quantity: int, newId: Id)
    requires AllLinesPriced(items)
    ensures AllLinesPriced(WithStandardAdded(items, product, quantity, newId))
  {
    var k := FirstStandardIndex(items, product.id);
    var added := WithStandardAdded(items, product, quantity, newId);
    if k >= 0 {
      var line := Merged(items[k], quantity);
      assert LinePriced(line);
      assert added == items[k := line];
    } else {
      var line := NewStandardLine(product, quantity, newId);
      assert LinePriced(line);
      assert added == items + [line];
    }
  }

  lemma RemovalKeepsLinesPriced(items: seq<CartItem>, id: Id)
    requires AllLinesPriced(items)
    ensures AllLinesPriced(WithoutItem(items, id))
  {
    var removed := WithoutItem(items, id);
    forall i | 0 <= i < |removed| ensures LinePriced(removed[i]) {
      assert removed[i] in items;
    }
  }

  lemma QuantitySetKeepsLinesPriced(items: seq<CartItem>, id: Id, quantity: int)
    requires AllLinesPriced(items)
    ensures AllLinesPriced(WithQuantitySet(items, id, quantity))
  {
    if quantity < 1 {
      RemovalKeepsLinesPriced(items, id);
    } else {
      var r := WithQuantitySet(items, id, quantity);
      forall i | 0 <= i < |r| ensures LinePriced(r[i]) {
        assert r[i] == WithLineQuantity(items[i], id, quantity);
        assert LinePriced(items[i]);
      }
    }
  }

  /** Every operation keeps "total = unit price × quantity" on every line when it held before. */
  lemma OperationsKeepLinesPriced(
    items: seq<CartItem>, product: Product, quantity: int, config: CustomFurnitureConfig,
    price: real, id: Id, newId: Id)
    requires AllLinesPriced(items)
    ensures AllLinesPriced(WithStandardAdded(items, product, quantity, newId))
    ensures AllLinesPriced(WithCustomAdded(items, config, price, newId))
    ensures AllLinesPriced(WithQuantitySet(items, id, quantity))
    ensures AllLinesPriced(WithoutItem(items, id))
    ensures AllLinesPriced([])
  {
    StandardAddKeepsLinesPriced(items, product, quantity, newId);
    var custom := WithCustomAdded(items, config, price, newId);
    assert LinePriced(custom[|items|]);
    QuantitySetKeepsLinesPriced(items, id, quantity);
    RemovalKeepsLinesPriced(items, id);
  }

  /** Two pieces at 100 and one custom piece at 250: subtotal 450, split 225 / 225. */
  lemma MixedCartTotals(product: Product, config: CustomFurnitureConfig, id1: Id, id2: Id)
    requires product.basePrice == 100.0
    ensures var items := WithCustomAdded(WithStandardAdded([], product, 2, id1), config, 250.0, id2);
      && ItemCount(items) == 3
      && Subtotal(items) == 450.0
      && DepositAmount(items) == 225.0
      && RemainingBalance(items) == 225.0
  {
    var once := WithStandardAdded([], product, 2, id1);
    assert once == [NewStandardLine(product, 2, id1)];
    AddCustomAppendsOneLine(once, config, 250.0, id2);
  }

  // ---------------------------------------------------------------------------
  // The cart store
  // ---------------------------------------------------------------------------

  /** The cart state shared by the pages; every operation replaces `items`. */
  class CartStore {
    var items: seq<CartItem>

    /** Starts from the list read back from browser storage, taken as it was stored. */
    constructor (stored: seq<CartItem>)
      ensures items == stored
    {
      items := stored;
    }

    /** Adds `quantity` pieces of a catalogue product, merging into its first standard line. */
    method AddStandardItem(product: Product, quantity: int, newId: Id)
      modifies this
      ensures items == WithStandardAdded(old(items), product, quantity, newId)
    {
      var k := FindStandardIndex(items, product.id);
      if k >= 0 {
        var updated := items;
        updated := updated[k := Merged(updated[k], quantity)];
        items := updated;
      } else {
        items := items + [NewStandardLine(product, quantity, newId)];
      }
    }

    /** Appends a configured custom piece at the given price. */
    method AddCustomItem(config: CustomFurnitureConfig, price: real, newId: Id)
      modifies this
      ensures items == WithCustomAdded(old(items), config, price, newId)
    {
      items := items + [Custom(newId, Some(config), 1, price, price)];
    }

    /** Sets the quantity of the standard line(s) with this id; below one it removes instead. */
    method UpdateQuantity(id: Id, quantity: int)
      modifies this
      ensures items == WithQuantitySet(old(items), id, quantity)
    {
      if quantity < 1 {
        RemoveItem(id);
        return;
      }
      var prev := items;
      items := seq(|prev|, i requires 0 <= i < |prev| => WithLineQuantity(prev[i], id, quantity));
    }

    /** Drops every line with this id. */
    method RemoveItem(id: Id)
      modifies this
      ensures items == WithoutItem(old(items), id)
    {
      items := WithoutItem(items, id);
    }

    /** Empties the cart. */
    method ClearCart()
      modifies this
      ensures items == []
    {
      items := [];
    }
  }
}
