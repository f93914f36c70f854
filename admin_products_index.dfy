/**
 * The admin product index (app/routes/admin.products._index/route.tsx): a
 * search-and-sort list over the same comparator as the admin product list,
 * with its state in the `search`, `sort` and `order` URL parameters. It
 * lists the shared `Product` type of app/types/product.ts, which is not part
 * of this model; the admin product record stands in for it, since only the
 * name, description, price and stock are read.
 */
module AdminProductsIndex {
  import opened Text
  import opened UrlParams
  import Sorting
  import AdminProductsList

  type AdminProduct = AdminProductsList.AdminProduct

  datatype IndexQuery = IndexQuery(search: string, sortField: string, sortOrder: string)

  /** The three parameters, "" / "name" / "asc" when missing or empty. */
  function QueryOf(entries: map<string, string>): (q: IndexQuery)
    ensures q.sortField != "" && q.sortOrder != ""
  {
    IndexQuery(
      GetOr(entries, "search", ""),
      GetOr(entries, "sort", "name"),
      GetOr(entries, "order", "asc"))
  }

  lemma DefaultQuery()
    ensures QueryOf(map[]) == IndexQuery("", "name", "asc")
  {
  }

  /** The search text occurs in the name or the description, ignoring case. */
  predicate Matches(search: string, p: AdminProduct)
  {
    IncludesIgnoringCase(p.name, search) || IncludesIgnoringCase(p.description, search)
  }

  /** The filtered and sorted list the page shows. */
  function Listing(q: IndexQuery, products: seq<AdminProduct>): (r: seq<AdminProduct>)
  {
    Sorting.SortBy(
      Sorting.Filter(products, (p: AdminProduct) => Matches(q.search, p)),
      AdminProductsList.AdminLe(q.sortField, q.sortOrder))
  }

  /** A product is listed exactly when it is in the list and matches the search. */
  lemma ListingMeansMatches(q: IndexQuery, products: seq<AdminProduct>)
    ensures forall x :: x in Listing(q, products) <==> x in products && Matches(q.search, x)
  {
    var f := Sorting.Filter(products, (p: AdminProduct) => Matches(q.search, p));
    var r := Listing(q, products);
    forall x ensures x in r <==> x in products && Matches(q.search, x) {
      assert x in r <==> x in multiset(r);
      assert x in f <==> x in multiset(f);
      if x in products && Matches(q.search, x) {
        var i :| 0 <= i < |products| && products[i] == x;
      }
    }
  }

  /** The list is ordered by the selected column, ascending for "asc" and descending otherwise. */
  lemma ListingSortedByField(q: IndexQuery, products: seq<AdminProduct>)
    ensures var r := Listing(q, products);
      forall i, j :: 0 <= i < j < |r| ==>
        (q.sortField in AdminProductsList.NUMERIC_FIELDS ==>
          (if q.sortOrder == "asc" then AdminProductsList.NumericValue(q.sortField, r[i]) <= AdminProductsList.NumericValue(q.sortField, r[j])
           else AdminProductsList.NumericValue(q.sortField, r[i]) >= AdminProductsList.NumericValue(q.sortField, r[j]))) &&
        (q.sortField == "name" ==> (if q.sortOrder == "asc" then Compare(r[i].name, r[j].name) <= 0 else Compare(r[i].name, r[j].name) >= 0))
  {
    var f := Sorting.Filter(products, (p: AdminProduct) => Matches(q.search, p));
    var listQuery := AdminProductsList.ListQuery(q.search, q.sortField, q.sortOrder, 1, "", 0, 0);
    AdminProductsList.SortOrdersByField(listQuery, f);
    assert AdminProductsList.SortProducts(listQuery, f) == Listing(q, products);
  }

  /** An empty search keeps every product. */
  lemma EmptySearchKeepsAll(products: seq<AdminProduct>)
    ensures Sorting.Filter(products, (p: AdminProduct) => Matches("", p)) == products
  {
    forall i | 0 <= i < |products| ensures Matches("", products[i]) {
      ContainsEmpty(Lower(products[i].name));
    }
    Sorting.FilterKeepsAll(products, (p: AdminProduct) => Matches("", p));
  }

  /** `handleSort(field)`: select the column, flipping the order when it is already active. */
  method HandleSort(params: SearchParams, field: string)
    requires field in AdminProductsList.SORT_FIELDS
    modifies params
    ensures var q := QueryOf(old(params.entries));
      params.entries == old(params.entries)["sort" := field]["order" := AdminProductsList.NextOrder(field, q.sortField, q.sortOrder)]
  {
    var q := QueryOf(params.entries);
    var newOrder := AdminProductsList.NextOrder(field, q.sortField, q.sortOrder);
    params.Set("sort", field);
    params.Set("order", newOrder);
  }

  /** After a sort click the page sorts by that column, in the toggled order, with the same search. */
  lemma HandleSortEffect(entries: map<string, string>, field: string)
    requires field in AdminProductsList.SORT_FIELDS
    ensures var q := QueryOf(entries);
      var order := AdminProductsList.NextOrder(field, q.sortField, q.sortOrder);
      QueryOf(entries["sort" := field]["order" := order]) == IndexQuery(q.search, field, order)
  {
  }

  /** `handleSearch(value)`: set the search for a non-empty value, delete it for an empty one. */
  method HandleSearch(params: SearchParams, value: string)
    modifies params
    ensures params.entries == if value != "" then old(params.entries)["search" := value] else old(params.entries) - {"search"}
  {
    if value != "" {
      params.Set("search", value);
    } else {
      params.Delete("search");
    }
  }

  /** The search reads back as the value typed, the sort is kept, and every other parameter is left as it was. */
  lemma HandleSearchEffect(entries: map<string, string>, value: string)
    ensures var e := if value != "" then entries["search" := value] else entries - {"search"};
      QueryOf(e) == QueryOf(entries).(search := value) &&
      forall k :: k != "search" ==> (k in e <==> k in entries) && (k in e ==> e[k] == entries[k])
  {
  }
}
