/**
 * The image-list helpers of the product table (app/db/schema/products.ts):
 * building an image entry whose optional fields are spread in only when
 * truthy, and a sorted copy of a list by `order`, a missing order counting
 * as `Infinity`.
 */
module ProductImages {
  import opened Wrappers
  import Sorting

  datatype ProductImage = ProductImage(url: string, alt: Option<string>, order: Option<int>)

  /** `create(url, alt, order)`: `alt` and `order` are kept only when truthy, so "" and 0 are dropped. */
  function Create(url: string, alt: Option<string>, order: Option<int>): (r: ProductImage)
    ensures r.url == url
    ensures r.alt.Some? <==> alt.Some? && alt.value != ""
    ensures r.alt.Some? ==> r.alt == alt
    ensures r.order.Some? <==> order.Some? && order.value != 0
    ensures r.order.Some? ==> r.order == order
  {
    ProductImage(
      url,
      if alt.Some? && alt.value != "" then alt else None,
      if order.Some? && order.value != 0 then order else None)
  }

  /**
   * `comparator(a, b) <= 0` for `(a.order ?? Infinity) - (b.order ?? Infinity)`:
   * a missing order is larger than any present one, and two missing orders
   * give `Infinity - Infinity`, which is NaN and counts as equal.
   */
  predicate OrderLe(a: ProductImage, b: ProductImage)
  {
    match (a.order, b.order)
    case (Some(x), Some(y)) => x <= y
    case (Some(_), None) => true
    case (None, Some(_)) => false
    case (None, None) => true
  }

  /** `sort(images)`: a sorted copy; the argument, a value here, is left as it was. */
  function Sort(images: seq<ProductImage>): (r: seq<ProductImage>)
    ensures multiset(r) == multiset(images)
  {
    Sorting.SortBy(images, OrderLe)
  }

  lemma OrderLeIsTotalPreorder()
    ensures Sorting.IsTotalPreorder(OrderLe)
  {
  }

  /**
   * After `sort`, the entries that have an order come first, in ascending
   * order, and every entry without an order comes after all of them.
   */
  lemma SortOrdersEntries(images: seq<ProductImage>)
    ensures var r := Sort(images);
      forall i, j :: 0 <= i < j < |r| ==>
        (r[i].order.None? ==> r[j].order.None?) &&
        (r[i].order.Some? && r[j].order.Some? ==> r[i].order.value <= r[j].order.value)
  {
    OrderLeIsTotalPreorder();
    Sorting.SortByIsSorted(images, OrderLe);
  }

  /** A list in which no entry has an order comes back in the same order. */
  lemma SortWithoutOrdersIsIdentity(images: seq<ProductImage>)
    requires forall i :: 0 <= i < |images| ==> images[i].order.None?
    ensures Sort(images) == images
  {
    Sorting.SortByAllEqualIsIdentity(images, OrderLe);
  }

  /** An entry built with order 0 sorts after one built with order 2. */
  lemma ZeroOrderSortsLast()
    ensures Sort([Create("a", None, Some(0)), Create("b", None, Some(2))]) ==
      [Create("b", None, Some(2)), Create("a", None, Some(0))]
  {
    var a := Create("a", None, Some(0));
    var b := Create("b", None, Some(2));
    assert [a, b][..1] == [a];
    assert Sorting.SortBy([a], OrderLe) == [a];
  }
}
