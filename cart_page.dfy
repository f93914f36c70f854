/**
 * The edits the cart page (app/routes/cart.tsx) makes through the cart:
 * the minus, plus and trash buttons and the typed quantity box. Each edit
 * is addressed by the product id of the line it is shown on, so it reaches
 * every line of that product, whatever its variants.
 */
module CartPage {
  import opened Wrappers
  import opened Text
  import opened CartContext
  import Sorting

  function Max(a: int, b: int): int { if a >= b then a else b }

  /** The minus button: `Math.max(1, quantity - 1)`. */
  function MinusQuantity(q: int): (r: int)
    ensures r >= 1
    ensures q >= 2 ==> r == q - 1
    ensures q <= 2 ==> r == 1
  {
    Max(1, q - 1)
  }

  /** The plus button: `quantity + 1`. */
  function PlusQuantity(q: int): (r: int)
    ensures q >= 1 ==> r >= 2
    ensures r > q
  {
    q + 1
  }

  /** The quantity box: `Math.max(1, parseInt(text) || 1)`. */
  function TypedQuantity(text: string): (r: int)
    ensures r >= 1
    ensures ParseInt(text).None? ==> r == 1
    ensures ParseInt(text).Some? && ParseInt(text).value >= 1 ==> r == ParseInt(text).value
    ensures ParseInt(text).Some? && ParseInt(text).value < 1 ==> r == 1
  {
    Max(1, NumberOr(ParseInt(text), 1))
  }

  /** The four controls on a cart line. */
  datatype Edit = Minus | Plus | Typed(text: string) | Trash

  /** The lines after using control `e` on line `k`. */
  function ApplyEdit(items: seq<CartItem>, k: nat, e: Edit): seq<CartItem>
    requires k < |items|
  {
    var line := items[k];
    match e
    case Minus => Updated(items, line.id, MinusQuantity(line.quantity))
    case Plus => Updated(items, line.id, PlusQuantity(line.quantity))
    case Typed(text) => Updated(items, line.id, TypedQuantity(text))
    case Trash => Removed(items, line.id)
  }

  /** Starting from quantities of at least 1, every edit on the page keeps every quantity at least 1. */
  lemma EditKeepsQuantitiesPositive(items: seq<CartItem>, k: nat, e: Edit)
    requires k < |items| && QuantitiesPositive(items)
    ensures QuantitiesPositive(ApplyEdit(items, k, e))
  {
    var line := items[k];
    match e
    case Minus => UpdateChangesOnlyQuantities(items, line.id, MinusQuantity(line.quantity));
    case Plus => UpdateChangesOnlyQuantities(items, line.id, PlusQuantity(line.quantity));
    case Typed(text) => UpdateChangesOnlyQuantities(items, line.id, TypedQuantity(text));
    case Trash =>
      var r := Removed(items, line.id);
      forall i | 0 <= i < |r| ensures r[i].quantity >= 1 {
        var j :| 0 <= j < |items| && items[j] == r[i];
      }
  }

  /** Any sequence of edits, each on a line that exists at that point, keeps every quantity at least 1. */
  lemma {:induction false} EditsKeepQuantitiesPositive(items: seq<CartItem>, edits: seq<(nat, Edit)>)
    requires QuantitiesPositive(items)
    ensures QuantitiesPositive(ApplyEdits(items, edits))
    decreases |edits|
  {
    if edits != [] {
      var (k, e) := edits[0];
      if k < |items| {
        EditKeepsQuantitiesPositive(items, k, e);
        EditsKeepQuantitiesPositive(ApplyEdit(items, k, e), edits[1..]);
      } else {
        EditsKeepQuantitiesPositive(items, edits[1..]);
      }
    }
  }

  /** The lines after a series of clicks; a click on a line that is no longer shown does nothing. */
  function ApplyEdits(items: seq<CartItem>, edits: seq<(nat, Edit)>): seq<CartItem>
    decreases |edits|
  {
    if edits == [] then items
    else
      var (k, e) := edits[0];
      ApplyEdits(if k < |items| then ApplyEdit(items, k, e) else items, edits[1..])
  }

  /** The trash button removes every line of the product, and keeps every other line as often as it occurs, in order. */
  lemma TrashRemovesWholeProduct(items: seq<CartItem>, k: nat)
    requires k < |items|
    ensures forall i :: 0 <= i < |ApplyEdit(items, k, Trash)| ==> ApplyEdit(items, k, Trash)[i].id != items[k].id
    ensures forall i :: 0 <= i < |items| && items[i].id != items[k].id ==> items[i] in ApplyEdit(items, k, Trash)
    ensures forall x :: multiset(ApplyEdit(items, k, Trash))[x] == if x.id != items[k].id then multiset(items)[x] else 0
    ensures Sorting.IsSubsequence(ApplyEdit(items, k, Trash), items)
  {
    RemoveDropsEveryVariant(items, items[k].id);
  }

  /** The page shows the empty state, not the list, exactly when there are no lines. */
  predicate ShowsEmptyState(items: seq<CartItem>)
  {
    |items| == 0
  }

  /** Removing the only product in the cart brings up the empty state. */
  lemma TrashLastProductShowsEmptyState(items: seq<CartItem>, k: nat)
    requires k < |items|
    requires forall i :: 0 <= i < |items| ==> items[i].id == items[k].id
    ensures ShowsEmptyState(ApplyEdit(items, k, Trash))
  {
    var id := items[k].id;
    Sorting.FilterDropsAll(items, (item: CartItem) => item.id != id);
  }

  /**
   * Two variant lines of one product share their quantity controls: using
   * minus on the line with quantity 3 also sets the other line, of quantity
   * 1, to 2.
   */
  lemma MinusReachesOtherVariant()
    ensures var a := CartItem("p", "Tee", 100, "i", 3, Some([("size", "M")]));
      var b := CartItem("p", "Tee", 100, "i", 1, Some([("size", "L")]));
      ApplyEdit([a, b], 0, Minus) == [a.(quantity := 2), b.(quantity := 2)]
  {
    var a := CartItem("p", "Tee", 100, "i", 3, Some([("size", "M")]));
    var b := CartItem("p", "Tee", 100, "i", 1, Some([("size", "L")]));
    var r := ApplyEdit([a, b], 0, Minus);
    assert |r| == 2;
    assert r[0] == a.(quantity := 2);
    assert r[1] == b.(quantity := 2);
  }

  /** Typing "0" or text that is not a number sets the quantity to 1; typing "5" sets it to 5. */
  lemma TypedQuantityExamples()
    ensures TypedQuantity("0") == 1
    ensures TypedQuantity("abc") == 1
    ensures TypedQuantity("-4") == 1
    ensures TypedQuantity("5") == 5
  {
    assert LeadingDigits("0") == "0";
    assert LeadingDigits("abc") == "";
    assert "-4"[1..] == "4" && LeadingDigits("4") == "4";
    assert LeadingDigits("5") == "5";
  }
}
