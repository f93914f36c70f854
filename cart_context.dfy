/**
 * The shopping cart held by `CartProvider` (app/contexts/CartContext.tsx). A
 * line is keyed by its product id and its serialized variants; variants are
 * an ordered list of entries, so two lines have equal serializations exactly
 * when their entry lists are equal (the key order matters, as it does for
 * `JSON.stringify`). Prices are whole NT$.
 */
module CartContext {
  import opened Wrappers
  import Sorting

  datatype CartItem = CartItem(
    id: string,
    name: string,
    price: int,
    image: string,
    quantity: int,
    variants: Option<seq<(string, string)>>)

  /** The line `item` would be merged into: same id and same serialized variants. */
  predicate SameLine(item: CartItem, newItem: CartItem)
  {
    item.id == newItem.id && item.variants == newItem.variants
  }

  /** `findIndex`: the first line that `newItem` matches, or -1. */
  function FindLine(items: seq<CartItem>, newItem: CartItem): (r: int)
    ensures -1 <= r < |items|
    ensures r >= 0 ==> SameLine(items[r], newItem)
    ensures forall j :: 0 <= j < |items| && (r < 0 || j < r) ==> !SameLine(items[j], newItem)
  {
    if items == [] then -1
    else if SameLine(items[0], newItem) then 0
    else
      var k := FindLine(items[1..], newItem);
      if k < 0 then -1 else k + 1
  }

  /** The lines after `addItem(newItem)`. */
  function Added(items: seq<CartItem>, newItem: CartItem): seq<CartItem>
  {
    var i := FindLine(items, newItem);
    if i >= 0 then items[i := items[i].(quantity := items[i].quantity + newItem.quantity)]
    else items + [newItem]
  }

  /** The lines after `removeItem(itemId)`. */
  function Removed(items: seq<CartItem>, itemId: string): seq<CartItem>
  {
    Sorting.Filter(items, (item: CartItem) => item.id != itemId)
  }

  /** The lines after `updateQuantity(itemId, quantity)`. */
  function Updated(items: seq<CartItem>, itemId: string, quantity: int): seq<CartItem>
  {
    seq(|items|, i requires 0 <= i < |items| =>
      if items[i].id == itemId then items[i].(quantity := quantity) else items[i])
  }

  /** `total`: the sum of price times quantity. */
  function TotalOf(items: seq<CartItem>): int
  {
    if items == [] then 0
    else TotalOf(items[..|items| - 1]) + items[|items| - 1].price * items[|items| - 1].quantity
  }

  /** `count`: the sum of quantities. */
  function CountOf(items: seq<CartItem>): int
  {
    if items == [] then 0 else CountOf(items[..|items| - 1]) + items[|items| - 1].quantity
  }

  /** Adding to an existing line raises the first matching line by the new quantity and leaves every other line and the length as they were. */
  lemma AddMergesIntoFirstMatch(items: seq<CartItem>, newItem: CartItem, i: nat)
    requires i < |items| && SameLine(items[i], newItem)
    requires forall j :: 0 <= j < i ==> !SameLine(items[j], newItem)
    ensures |Added(items, newItem)| == |items|
    ensures Added(items, newItem)[i] == items[i].(quantity := items[i].quantity + newItem.quantity)
    ensures forall j :: 0 <= j < |items| && j != i ==> Added(items, newItem)[j] == items[j]
  {
    assert FindLine(items, newItem) == i;
  }

  /** Adding an item that matches no line appends it and keeps the existing lines. */
  lemma AddAppendsNewLine(items: seq<CartItem>, newItem: CartItem)
    requires forall j :: 0 <= j < |items| ==> !SameLine(items[j], newItem)
    ensures Added(items, newItem) == items + [newItem]
  {
  }

  /** Lines with the same id but different variants stay separate lines. */
  lemma DifferentVariantsStayDistinct(item: CartItem, newItem: CartItem)
    requires item.id == newItem.id && item.variants != newItem.variants
    ensures Added([item], newItem) == [item, newItem]
  {
  }

  /** `removeItem` drops exactly the lines with that id, whatever their variants, and keeps every other line, as often as it occurs, in order. */
  lemma RemoveDropsEveryVariant(items: seq<CartItem>, itemId: string)
    ensures forall i :: 0 <= i < |Removed(items, itemId)| ==> Removed(items, itemId)[i].id != itemId
    ensures forall i :: 0 <= i < |items| && items[i].id != itemId ==> items[i] in Removed(items, itemId)
    ensures forall x :: multiset(Removed(items, itemId))[x] == if x.id != itemId then multiset(items)[x] else 0
    ensures Sorting.IsSubsequence(Removed(items, itemId), items)
  {
    Sorting.FilterIsSubsequence(items, (item: CartItem) => item.id != itemId);
  }

  /** `updateQuantity` sets the quantity of every line with that id and changes nothing else. */
  lemma UpdateChangesOnlyQuantities(items: seq<CartItem>, itemId: string, quantity: int)
    ensures |Updated(items, itemId, quantity)| == |items|
    ensures forall i :: 0 <= i < |items| ==>
      var u := Updated(items, itemId, quantity)[i];
      u.id == items[i].id && u.name == items[i].name && u.price == items[i].price &&
      u.image == items[i].image && u.variants == items[i].variants &&
      u.quantity == (if items[i].id == itemId then quantity else items[i].quantity)
  {
  }

  lemma {:induction false} CountOfAppend(items: seq<CartItem>, item: CartItem)
    ensures CountOf(items + [item]) == CountOf(items) + item.quantity
    ensures TotalOf(items + [item]) == TotalOf(items) + item.price * item.quantity
  {
    assert (items + [item])[..|items|] == items;
  }

  lemma {:induction false} CountOfUpdateAt(items: seq<CartItem>, i: nat, item: CartItem)
    requires i < |items|
    ensures CountOf(items[i := item]) == CountOf(items) - items[i].quantity + item.quantity
    ensures TotalOf(items[i := item]) == TotalOf(items) - items[i].price * items[i].quantity + item.price * item.quantity
    decreases |items|
  {
    var n := |items|;
    var u := items[i := item];
    if i == n - 1 {
      assert u[..n - 1] == items[..n - 1];
    } else {
      assert u[..n - 1] == items[..n - 1][i := item];
      CountOfUpdateAt(items[..n - 1], i, item);
    }
  }

  /** `count` grows by exactly the added quantity, whether the item is merged or appended. */
  lemma CountAfterAdd(items: seq<CartItem>, newItem: CartItem)
    ensures CountOf(Added(items, newItem)) == CountOf(items) + newItem.quantity
  {
    var i := FindLine(items, newItem);
    if i >= 0 {
      CountOfUpdateAt(items, i, items[i].(quantity := items[i].quantity + newItem.quantity));
    } else {
      CountOfAppend(items, newItem);
    }
  }

  /** `total` grows by the added quantity at the price of the line it lands in: the existing line's price when merged. */
  lemma TotalAfterAdd(items: seq<CartItem>, newItem: CartItem)
    ensures var i := FindLine(items, newItem);
      TotalOf(Added(items, newItem)) ==
        TotalOf(items) + (if i >= 0 then items[i].price else newItem.price) * newItem.quantity
  {
    var i := FindLine(items, newItem);
    if i >= 0 {
      TotalAfterMerge(items, i, newItem.quantity);
    } else {
      CountOfAppend(items, newItem);
    }
  }

  /** Raising line `i` by `k` raises `total` by `k` at that line's price. */
  lemma TotalAfterMerge(items: seq<CartItem>, i: nat, k: int)
    requires i < |items|
    ensures TotalOf(items[i := items[i].(quantity := items[i].quantity + k)]) == TotalOf(items) + items[i].price * k
  {
    var line := items[i];
    var merged := line.(quantity := line.quantity + k);
    CountOfUpdateAt(items, i, merged);
    Distribute(line.price, line.quantity, k);
  }

  lemma Distribute(a: int, b: int, c: int)
    ensures a * (b + c) == a * b + a * c
  {
  }

  /** Every line has a quantity of at least 1. */
  predicate QuantitiesPositive(items: seq<CartItem>)
  {
    forall i :: 0 <= i < |items| ==> items[i].quantity >= 1
  }

  /** With every quantity at least 1, the count is at least the number of lines. */
  lemma {:induction false} CountAtLeastLines(items: seq<CartItem>)
    requires QuantitiesPositive(items)
    ensures CountOf(items) >= |items|
  {
    if items != [] {
      CountAtLeastLines(items[..|items| - 1]);
    }
  }

  /** The cart state of `CartProvider`: its `items`, replaced by each operation. */
  class Cart {
    var items: seq<CartItem>

    constructor ()
      ensures items == []
    {
      items := [];
    }

    /** `addItem`: merge into the first line with the same id and variants, or append. */
    method AddItem(newItem: CartItem)
      modifies this
      ensures items == Added(old(items), newItem)
    {
      var i := 0;
      var existing := -1;
      while i < |items| && existing < 0
        invariant 0 <= i <= |items|
        invariant existing == -1 || (existing == i - 1 && SameLine(items[existing], newItem))
        invariant forall j :: 0 <= j < i && j != existing ==> !SameLine(items[j], newItem)
      {
        if SameLine(items[i], newItem) {
          existing := i;
        }
        i := i + 1;
      }
      assert existing == FindLine(items, newItem);
      if existing > -1 {
        items := items[existing := items[existing].(quantity := items[existing].quantity + newItem.quantity)];
      } else {
        items := items + [newItem];
      }
    }

    /** `removeItem`. */
    method RemoveItem(itemId: string)
      modifies this
      ensures items == Removed(old(items), itemId)
    {
      items := Removed(items, itemId);
    }

    /** `updateQuantity`. */
    method UpdateQuantity(itemId: string, quantity: int)
      modifies this
      ensures items == Updated(old(items), itemId, quantity)
    {
      items := Updated(items, itemId, quantity);
    }

    /** `clearCart`. */
    method ClearCart()
      modifies this
      ensures items == []
    {
      items := [];
    }

    /** `items.reduce((sum, item) => sum + item.price * item.quantity, 0)` */
    method Total() returns (sum: int)
      ensures sum == TotalOf(items)
    {
      sum := 0;
      var i := 0;
      while i < |items|
        invariant 0 <= i <= |items|
        invariant sum == TotalOf(items[..i])
      {
        assert items[..i + 1][..i] == items[..i];
        sum := sum + items[i].price * items[i].quantity;
        i := i + 1;
      }
      assert items[..i] == items;
    }

    /** `items.reduce((sum, item) => sum + item.quantity, 0)` */
    method Count() returns (sum: int)
      ensures sum == CountOf(items)
    {
      sum := 0;
      var i := 0;
      while i < |items|
        invariant 0 <= i <= |items|
        invariant sum == CountOf(items[..i])
      {
        assert items[..i + 1][..i] == items[..i];
        sum := sum + items[i].quantity;
        i := i + 1;
      }
      assert items[..i] == items;
    }
  }

  /** After `clearCart`, `total` and `count` are both 0. */
  lemma EmptyCartTotals()
    ensures TotalOf([]) == 0 && CountOf([]) == 0
  {
  }
}
