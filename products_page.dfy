/**
 * The product listing (app/routes/products._index.tsx): the filter state it
 * starts from, and the filter-then-sort chain that picks the cards to show.
 * The price and stock tests and the comparator are the same on the search
 * page, which uses them from here.
 */
module ProductsPage {
  import opened Text
  import opened ProductFilter
  import Sorting

  const INITIAL_FILTERS: ProductFilters := ProductFilters("", (0, 1000), "newest", false)

  /** The price range, both ends included, and with `inStock` on, stock. */
  predicate KeepsPriceAndStock(filters: ProductFilters, p: StoreProduct)
  {
    filters.priceRange.0 <= p.price <= filters.priceRange.1 && (!filters.inStock || p.inStock)
  }

  /** The name test: an empty search skips it, otherwise the search text occurs in the name, ignoring case. */
  predicate NameMatches(filters: ProductFilters, p: StoreProduct)
  {
    filters.search == "" || IncludesIgnoringCase(p.name, filters.search)
  }

  /** The comparator: price ascending or descending; "newest" and any other value call every pair equal. */
  function StoreCompare(sortBy: string, a: StoreProduct, b: StoreProduct): int
  {
    if sortBy == "price-asc" then a.price - b.price
    else if sortBy == "price-desc" then b.price - a.price
    else 0
  }

  function StoreLe(sortBy: string): (StoreProduct, StoreProduct) -> bool
  {
    (a: StoreProduct, b: StoreProduct) => StoreCompare(sortBy, a, b) <= 0
  }

  lemma StoreLeIsTotalPreorder(sortBy: string)
    ensures Sorting.IsTotalPreorder(StoreLe(sortBy))
  {
  }

  /** `mockProducts.filter(...).sort(...)`. */
  function Visible(filters: ProductFilters, products: seq<StoreProduct>): (r: seq<StoreProduct>)
    ensures |r| <= |products|
  {
    Sorting.SortBy(
      Sorting.Filter(products, (p: StoreProduct) => NameMatches(filters, p) && KeepsPriceAndStock(filters, p)),
      StoreLe(filters.sortBy))
  }

  /** A product is shown exactly when it passes the name, price and stock tests; nothing outside the list is shown. */
  lemma VisibleMeansMatches(filters: ProductFilters, products: seq<StoreProduct>)
    ensures forall x :: x in Visible(filters, products) <==>
      x in products && NameMatches(filters, x) && KeepsPriceAndStock(filters, x)
  {
    var keep := (p: StoreProduct) => NameMatches(filters, p) && KeepsPriceAndStock(filters, p);
    var f := Sorting.Filter(products, keep);
    var r := Visible(filters, products);
    forall x ensures x in r <==> x in products && keep(x) {
      assert x in r <==> x in multiset(r);
      assert x in f <==> x in multiset(f);
      if x in products && keep(x) {
        var i :| 0 <= i < |products| && products[i] == x;
      }
    }
  }

  /** "price-asc" shows prices ascending and "price-desc" descending. */
  lemma VisibleSortedByPrice(filters: ProductFilters, products: seq<StoreProduct>)
    ensures var r := Visible(filters, products);
      forall i, j :: 0 <= i < j < |r| ==>
        (filters.sortBy == "price-asc" ==> r[i].price <= r[j].price) &&
        (filters.sortBy == "price-desc" ==> r[i].price >= r[j].price)
  {
    var f := Sorting.Filter(products, (p: StoreProduct) => NameMatches(filters, p) && KeepsPriceAndStock(filters, p));
    StoreLeIsTotalPreorder(filters.sortBy);
    Sorting.SortByIsSorted(f, StoreLe(filters.sortBy));
  }

  /** Any other sort value, "newest" included, shows the filtered products in list order. */
  lemma OtherSortKeepsListOrder(filters: ProductFilters, products: seq<StoreProduct>)
    requires filters.sortBy != "price-asc" && filters.sortBy != "price-desc"
    ensures Visible(filters, products) ==
      Sorting.Filter(products, (p: StoreProduct) => NameMatches(filters, p) && KeepsPriceAndStock(filters, p))
    ensures Sorting.IsSubsequence(Visible(filters, products), products)
  {
    var keep := (p: StoreProduct) => NameMatches(filters, p) && KeepsPriceAndStock(filters, p);
    var f := Sorting.Filter(products, keep);
    Sorting.SortByAllEqualIsIdentity(f, StoreLe(filters.sortBy));
    Sorting.FilterIsSubsequence(products, keep);
  }

  /** With the initial filters the page shows, in list order, every product priced 0 to 1000, in stock or not. */
  lemma InitialFiltersShowPriceRange(products: seq<StoreProduct>)
    ensures Visible(INITIAL_FILTERS, products) ==
      Sorting.Filter(products, (p: StoreProduct) => 0 <= p.price <= 1000)
  {
    var keep := (p: StoreProduct) => NameMatches(INITIAL_FILTERS, p) && KeepsPriceAndStock(INITIAL_FILTERS, p);
    var byPrice := (p: StoreProduct) => 0 <= p.price <= 1000;
    OtherSortKeepsListOrder(INITIAL_FILTERS, products);
    Sorting.FilterSamePredicate(products, keep, byPrice);
  }
}
