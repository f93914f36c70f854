/**
 * The search results page (app/routes/search.tsx): the filter state starts
 * from the `q` URL parameter, and the search text is looked for in the name
 * or the description. The price and stock tests and the comparator are the
 * product listing's.
 */
module SearchPage {
  import opened Text
  import opened UrlParams
  import opened ProductFilter
  import ProductsPage
  import Sorting

  /** The initial filters: the `q` parameter (or "") as search, price 0 to 1000, "newest", stock off. */
  function InitialFilters(entries: map<string, string>): (f: ProductFilters)
    ensures f.search == (if "q" in entries then entries["q"] else "")
    ensures f.priceRange == (0, 1000) && f.sortBy == "newest" && !f.inStock
  {
    ProductFilters(GetOr(entries, "q", ""), (0, 1000), "newest", false)
  }

  /** The search test: skipped when empty, otherwise the text occurs in the name or the description, ignoring case. */
  predicate TextMatches(filters: ProductFilters, p: StoreProduct)
  {
    filters.search == "" ||
    IncludesIgnoringCase(p.name, filters.search) ||
    IncludesIgnoringCase(p.description, filters.search)
  }

  function Results(filters: ProductFilters, products: seq<StoreProduct>): (r: seq<StoreProduct>)
    ensures |r| <= |products|
  {
    Sorting.SortBy(
      Sorting.Filter(products, (p: StoreProduct) => TextMatches(filters, p) && ProductsPage.KeepsPriceAndStock(filters, p)),
      ProductsPage.StoreLe(filters.sortBy))
  }

  /** A product is a result exactly when it passes the search, price and stock tests. */
  lemma ResultsMeanMatches(filters: ProductFilters, products: seq<StoreProduct>)
    ensures forall x :: x in Results(filters, products) <==>
      x in products && TextMatches(filters, x) && ProductsPage.KeepsPriceAndStock(filters, x)
  {
    var keep := (p: StoreProduct) => TextMatches(filters, p) && ProductsPage.KeepsPriceAndStock(filters, p);
    var f := Sorting.Filter(products, keep);
    var r := Results(filters, products);
    forall x ensures x in r <==> x in products && keep(x) {
      assert x in r <==> x in multiset(r);
      assert x in f <==> x in multiset(f);
      if x in products && keep(x) {
        var i :| 0 <= i < |products| && products[i] == x;
      }
    }
  }

  /** Every product the listing page would show for the same filters is also a search result: the name test is the stronger one. */
  lemma ListingIsWithinResults(filters: ProductFilters, products: seq<StoreProduct>)
    ensures forall x :: x in ProductsPage.Visible(filters, products) ==> x in Results(filters, products)
  {
    ProductsPage.VisibleMeansMatches(filters, products);
    ResultsMeanMatches(filters, products);
  }

  /** Results are by price ascending or descending for the two price options, and in list order otherwise. */
  lemma ResultsOrder(filters: ProductFilters, products: seq<StoreProduct>)
    ensures var r := Results(filters, products);
      forall i, j :: 0 <= i < j < |r| ==>
        (filters.sortBy == "price-asc" ==> r[i].price <= r[j].price) &&
        (filters.sortBy == "price-desc" ==> r[i].price >= r[j].price)
    ensures filters.sortBy != "price-asc" && filters.sortBy != "price-desc" ==>
      Sorting.IsSubsequence(Results(filters, products), products)
  {
    var keep := (p: StoreProduct) => TextMatches(filters, p) && ProductsPage.KeepsPriceAndStock(filters, p);
    var f := Sorting.Filter(products, keep);
    ProductsPage.StoreLeIsTotalPreorder(filters.sortBy);
    Sorting.SortByIsSorted(f, ProductsPage.StoreLe(filters.sortBy));
    if filters.sortBy != "price-asc" && filters.sortBy != "price-desc" {
      Sorting.SortByAllEqualIsIdentity(f, ProductsPage.StoreLe(filters.sortBy));
      Sorting.FilterIsSubsequence(products, keep);
    }
  }
}
