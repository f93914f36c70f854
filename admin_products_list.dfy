/**
 * The admin product list (app/admin/products/route.tsx): the listing state
 * read from the URL parameters, the filter, the comparator sort, ten-per-page
 * slicing, and the handlers that write the parameters back.
 */
module AdminProductsList {
  import opened Wrappers
  import opened Text
  import opened UrlParams
  import Sorting

  /**
   * The admin `Product` record (app/admin/products/types.ts). The two dates
   * are their millisecond time values, which is what subtracting two `Date`s
   * works on; the image list plays no part here.
   */
  datatype AdminProduct = AdminProduct(
    id: string,
    name: string,
    description: string,
    price: int,
    stock: int,
    createdAt: int,
    updatedAt: int,
    categoryId: string,
    isActive: bool)

  const ITEMS_PER_PAGE: nat := 10

  /** The three columns a sort button can select. */
  const SORT_FIELDS: set<string> := {"name", "price", "stock"}

  /** The fields whose values subtract as numbers: the numbers, the dates and the flag. */
  const NUMERIC_FIELDS: set<string> := {"price", "stock", "createdAt", "updatedAt", "isActive"}

  /** Every field of the record; any other sort field reads `undefined`. */
  const PRODUCT_FIELDS: set<string> :=
    {"id", "name", "description", "price", "stock", "createdAt", "updatedAt", "images", "categoryId", "isActive"}

  /** The listing state as `ProductsList` reads it from the URL. */
  datatype ListQuery = ListQuery(
    search: string,
    sortField: string,
    sortOrder: string,
    page: int,
    category: string,
    minPrice: int,
    maxPrice: int)

  /** Each parameter, or its default when missing, empty, zero or not a number. */
  function QueryOf(entries: map<string, string>): (q: ListQuery)
    ensures q.sortField != "" && q.sortOrder != ""
    ensures q.page != 0 && q.maxPrice != 0
  {
    ListQuery(
      GetOr(entries, "search", ""),
      GetOr(entries, "sort", "name"),
      GetOr(entries, "order", "asc"),
      NumberParam(entries, "page", 1),
      GetOr(entries, "category", ""),
      NumberParam(entries, "minPrice", 0),
      NumberParam(entries, "maxPrice", 1000))
  }

  /** Without parameters the list shows page 1 of everything priced 0 to 1000, by name ascending. */
  lemma DefaultQuery()
    ensures QueryOf(map[]) == ListQuery("", "name", "asc", 1, "", 0, 1000)
  {
  }

  /** A `maxPrice` of "0" is falsy after `Number`, so the upper bound falls back to 1000. */
  lemma ZeroMaxPriceFallsBack(entries: map<string, string>)
    requires "maxPrice" in entries && entries["maxPrice"] == "0"
    ensures QueryOf(entries).maxPrice == 1000
  {
    assert ParseNumber("0") == Some(0);
  }

  /** The filter of `ProductsList`: search text in name or description, category when one is set, and the price range, both ends included. */
  predicate Matches(q: ListQuery, p: AdminProduct)
  {
    (IncludesIgnoringCase(p.name, q.search) || IncludesIgnoringCase(p.description, q.search)) &&
    (q.category == "" || p.categoryId == q.category) &&
    q.minPrice <= p.price <= q.maxPrice
  }

  function FilterProducts(q: ListQuery, products: seq<AdminProduct>): (r: seq<AdminProduct>)
    ensures forall i :: 0 <= i < |r| ==> r[i] in products && Matches(q, r[i])
    ensures forall i :: 0 <= i < |products| && Matches(q, products[i]) ==> products[i] in r
    ensures forall p :: multiset(r)[p] == if Matches(q, p) then multiset(products)[p] else 0
  {
    Sorting.Filter(products, (p: AdminProduct) => Matches(q, p))
  }

  /** The filtered list keeps the input order. */
  lemma FilterKeepsOrder(q: ListQuery, products: seq<AdminProduct>)
    ensures Sorting.IsSubsequence(FilterProducts(q, products), products)
  {
    Sorting.FilterIsSubsequence(products, (p: AdminProduct) => Matches(q, p));
  }

  /** An empty search with no category keeps every product inside the price range. */
  lemma EmptySearchKeepsPriceRange(q: ListQuery, products: seq<AdminProduct>)
    requires q.search == "" && q.category == ""
    requires forall i :: 0 <= i < |products| ==> q.minPrice <= products[i].price <= q.maxPrice
    ensures FilterProducts(q, products) == products
  {
    forall i | 0 <= i < |products| ensures Matches(q, products[i]) {
      ContainsEmpty(Lower(products[i].name));
    }
    Sorting.FilterKeepsAll(products, (p: AdminProduct) => Matches(q, p));
  }

  /** `sortOrder === "asc" ? 1 : -1`: any order but "asc" sorts descending. */
  function Modifier(order: string): int
  {
    if order == "asc" then 1 else -1
  }

  /** The value a numeric field holds as a number; `true` counts as 1 and `false` as 0. */
  function NumericValue(field: string, p: AdminProduct): int
  {
    if field == "price" then p.price
    else if field == "stock" then p.stock
    else if field == "createdAt" then p.createdAt
    else if field == "updatedAt" then p.updatedAt
    else if field == "isActive" then (if p.isActive then 1 else 0)
    else 0
  }

  /**
   * The comparator: names by `localeCompare`, the numeric fields by
   * difference, times the modifier. A field the record does not have reads
   * `undefined` on both sides, the difference is NaN, and every pair
   * compares equal. The string fields and the image list are not modelled:
   * they compare equal here.
   */
  function AdminCompare(field: string, order: string, a: AdminProduct, b: AdminProduct): int
  {
    (if field == "name" then Compare(a.name, b.name)
     else if field in NUMERIC_FIELDS then NumericValue(field, a) - NumericValue(field, b)
     else 0) * Modifier(order)
  }

  function AdminLe(field: string, order: string): (AdminProduct, AdminProduct) -> bool
  {
    (a: AdminProduct, b: AdminProduct) => AdminCompare(field, order, a, b) <= 0
  }

  lemma AdminLeIsTotalPreorder(field: string, order: string)
    ensures Sorting.IsTotalPreorder(AdminLe(field, order))
  {
    var le := AdminLe(field, order);
    forall a, b ensures le(a, b) || le(b, a) {
      CompareAntisymmetric(a.name, b.name);
    }
    forall a, b, c | le(a, b) && le(b, c) ensures le(a, c) {
      if field == "name" {
        if order == "asc" {
          CompareTransitive(a.name, b.name, c.name);
        } else {
          CompareAntisymmetric(a.name, b.name);
          CompareAntisymmetric(b.name, c.name);
          CompareAntisymmetric(a.name, c.name);
          CompareTransitive(c.name, b.name, a.name);
        }
      }
    }
  }

  /** `[...filtered].sort(comparator)`. */
  function SortProducts(q: ListQuery, products: seq<AdminProduct>): (r: seq<AdminProduct>)
    ensures multiset(r) == multiset(products)
  {
    Sorting.SortBy(products, AdminLe(q.sortField, q.sortOrder))
  }

  /**
   * The sorted list is ordered by the selected column: ascending for "asc",
   * descending for any other order.
   */
  lemma SortOrdersByField(q: ListQuery, products: seq<AdminProduct>)
    ensures var r := SortProducts(q, products);
      forall i, j :: 0 <= i < j < |r| ==>
        (q.sortField in NUMERIC_FIELDS ==>
          (if q.sortOrder == "asc" then NumericValue(q.sortField, r[i]) <= NumericValue(q.sortField, r[j])
           else NumericValue(q.sortField, r[i]) >= NumericValue(q.sortField, r[j]))) &&
        (q.sortField == "name" ==> (if q.sortOrder == "asc" then Compare(r[i].name, r[j].name) <= 0 else Compare(r[i].name, r[j].name) >= 0))
  {
    AdminLeIsTotalPreorder(q.sortField, q.sortOrder);
    Sorting.SortByIsSorted(products, AdminLe(q.sortField, q.sortOrder));
  }

  /** A sort field the record does not have leaves the filtered order as it was. */
  lemma UnknownFieldKeepsOrder(q: ListQuery, products: seq<AdminProduct>)
    requires q.sortField !in PRODUCT_FIELDS
    ensures SortProducts(q, products) == products
  {
    Sorting.SortByAllEqualIsIdentity(products, AdminLe(q.sortField, q.sortOrder));
  }

  /** `Math.ceil(n / itemsPerPage)`: the fewest pages of ten that hold `n` items. */
  function TotalPages(n: nat): (t: nat)
    ensures t * ITEMS_PER_PAGE >= n
    ensures t == 0 || (t - 1) * ITEMS_PER_PAGE < n
  {
    (n + ITEMS_PER_PAGE - 1) / ITEMS_PER_PAGE
  }

  /** `sorted.slice((page - 1) * itemsPerPage, page * itemsPerPage)`. */
  function Page<T>(s: seq<T>, page: int): seq<T>
  {
    Sorting.Slice(s, (page - 1) * ITEMS_PER_PAGE, page * ITEMS_PER_PAGE)
  }

  /** Page `p` (from 1) holds exactly the items at positions `(p-1)*10` up to `p*10`, at most ten of them. */
  lemma PageContents<T>(s: seq<T>, page: int)
    requires page >= 1
    ensures var start := (page - 1) * ITEMS_PER_PAGE;
      |Page(s, page)| == (if |s| <= start then 0 else if |s| - start < ITEMS_PER_PAGE then |s| - start else ITEMS_PER_PAGE) &&
      forall i :: 0 <= i < |Page(s, page)| ==> Page(s, page)[i] == s[start + i]
  {
  }

  /** Whatever the page number, a page holds at most ten items. */
  lemma PageHoldsAtMostTen<T>(s: seq<T>, page: int)
    ensures |Page(s, page)| <= ITEMS_PER_PAGE
  {
    Sorting.SliceLength(s, (page - 1) * ITEMS_PER_PAGE, page * ITEMS_PER_PAGE);
  }

  /** The rows `ProductsList` shows for `q`. */
  function Listing(q: ListQuery, products: seq<AdminProduct>): seq<AdminProduct>
  {
    Page(SortProducts(q, FilterProducts(q, products)), q.page)
  }

  /** Every row shown is a product of the input that matches the filter. */
  lemma ListingShowsMatches(q: ListQuery, products: seq<AdminProduct>)
    ensures forall x :: x in Listing(q, products) ==> x in products && Matches(q, x)
  {
    var f := FilterProducts(q, products);
    var r := SortProducts(q, f);
    forall x | x in Listing(q, products) ensures x in products && Matches(q, x) {
      var a := Sorting.SliceBound((q.page - 1) * ITEMS_PER_PAGE, |r|);
      var b := Sorting.SliceBound(q.page * ITEMS_PER_PAGE, |r|);
      assert x in r[a..b];
      assert x in multiset(r);
      assert x in f;
    }
  }

  /**
   * `totalPages` counts the unfiltered list, so every page that shows a row
   * is within it; when the filter drops products the last pages come up empty.
   */
  lemma ShownPageWithinTotal(q: ListQuery, products: seq<AdminProduct>)
    requires q.page >= 1 && Listing(q, products) != []
    ensures q.page <= TotalPages(|products|)
  {
    var f := FilterProducts(q, products);
    Sorting.FilterIsSubsequence(products, (p: AdminProduct) => Matches(q, p));
    Sorting.SubsequenceNoLonger(f, products);
    PageContents(SortProducts(q, f), q.page);
  }

  /** The order a sort button selects: flipped when its column is already active, "asc" otherwise. */
  function NextOrder(field: string, sortField: string, sortOrder: string): (r: string)
    ensures r == "asc" || r == "desc"
    ensures r == "desc" <==> field == sortField && sortOrder == "asc"
  {
    if field == sortField then (if sortOrder == "asc" then "desc" else "asc") else "asc"
  }

  /** `SortButton.handleSort`. */
  method HandleSort(params: SearchParams, field: string)
    requires field in SORT_FIELDS
    modifies params
    ensures var q := QueryOf(old(params.entries));
      params.entries == old(params.entries)["sort" := field]["order" := NextOrder(field, q.sortField, q.sortOrder)]
  {
    var q := QueryOf(params.entries);
    var newOrder := NextOrder(field, q.sortField, q.sortOrder);
    params.Set("sort", field);
    params.Set("order", newOrder);
  }

  /** After a sort click the list is sorted by that column, in the order the toggle gives, and nothing else in the state changes. */
  lemma HandleSortEffect(entries: map<string, string>, field: string)
    requires field in SORT_FIELDS
    ensures var q := QueryOf(entries);
      var q' := QueryOf(entries["sort" := field]["order" := NextOrder(field, q.sortField, q.sortOrder)]);
      q' == q.(sortField := field, sortOrder := NextOrder(field, q.sortField, q.sortOrder))
  {
  }

  /** Two clicks on the same column restore the order, once the order is "asc" or "desc". */
  lemma SortClickTwiceRestores(entries: map<string, string>, field: string)
    requires field in SORT_FIELDS
    requires QueryOf(entries).sortField == field
    requires QueryOf(entries).sortOrder in {"asc", "desc"}
    ensures var q := QueryOf(entries);
      var once := NextOrder(field, q.sortField, q.sortOrder);
      NextOrder(field, field, once) == q.sortOrder
  {
  }

  /** `PriceRangeFilter.handlePriceChange`: the first two slider values become the bounds. */
  method HandlePriceChange(params: SearchParams, value: seq<int>)
    requires |value| >= 2
    modifies params
    ensures params.entries == old(params.entries)["minPrice" := IntToString(value[0])]["maxPrice" := IntToString(value[1])]
  {
    params.Set("minPrice", IntToString(value[0]));
    params.Set("maxPrice", IntToString(value[1]));
  }

  /** The bounds read back as the slider values, except that an upper bound of 0 reads as 1000. */
  lemma HandlePriceChangeEffect(entries: map<string, string>, low: int, high: int)
    ensures var q := QueryOf(entries);
      QueryOf(entries["minPrice" := IntToString(low)]["maxPrice" := IntToString(high)]) ==
        q.(minPrice := low, maxPrice := if high != 0 then high else 1000)
  {
    var e := entries["minPrice" := IntToString(low)]["maxPrice" := IntToString(high)];
    NumberParamOfIntToString(e, "minPrice", low, 0);
    NumberParamOfIntToString(e, "maxPrice", high, 1000);
  }

  /** `handlePageChange`. */
  method HandlePageChange(params: SearchParams, page: int)
    modifies params
    ensures params.entries == old(params.entries)["page" := IntToString(page)]
  {
    params.Set("page", IntToString(page));
  }

  /** The page reads back as the one chosen; page 0 reads as 1. */
  lemma HandlePageChangeEffect(entries: map<string, string>, page: int)
    ensures QueryOf(entries["page" := IntToString(page)]) ==
      QueryOf(entries).(page := if page != 0 then page else 1)
  {
    NumberParamOfIntToString(entries["page" := IntToString(page)], "page", page, 1);
  }

  /** `handleCategoryChange`: set or delete the category, and always go back to page 1. */
  method HandleCategoryChange(params: SearchParams, category: string)
    modifies params
    ensures params.entries ==
      (if category != "" then old(params.entries)["category" := category] else old(params.entries) - {"category"})["page" := "1"]
  {
    if category != "" {
      params.Set("category", category);
    } else {
      params.Delete("category");
    }
    params.Set("page", "1");
  }

  /** After a category change the list shows page 1 of that category (all categories for ""), with the other settings kept. */
  lemma HandleCategoryChangeEffect(entries: map<string, string>, category: string)
    ensures var e := (if category != "" then entries["category" := category] else entries - {"category"})["page" := "1"];
      QueryOf(e) == QueryOf(entries).(category := category, page := 1)
  {
    var e := (if category != "" then entries["category" := category] else entries - {"category"})["page" := "1"];
    NumberParamOfIntToString(e, "page", 1, 1);
  }
}
