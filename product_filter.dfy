/**
 * The storefront filter panel (app/components/products/ProductFilter.tsx):
 * the filter record the product and search pages keep, the sort options it
 * offers, and its four handlers, each of which passes on a copy of the
 * record with one field replaced.
 */
module ProductFilter {

  /** The storefront `Product` card record (app/components/products/ProductCard.tsx). */
  datatype StoreProduct = StoreProduct(
    id: string,
    name: string,
    price: int,
    description: string,
    image: string,
    inStock: bool)

  datatype ProductFilters = ProductFilters(
    search: string,
    priceRange: (int, int),
    sortBy: string,
    inStock: bool)

  /** The values of the sort menu, with their labels. */
  const SORT_OPTIONS: seq<(string, string)> :=
    [("price-asc", "價格由低到高"), ("price-desc", "價格由高到低"), ("newest", "最新上架")]

  lemma SortOptionValues()
    ensures |SORT_OPTIONS| == 3
    ensures (set i | 0 <= i < |SORT_OPTIONS| :: SORT_OPTIONS[i].0) == {"price-asc", "price-desc", "newest"}
  {
    var values := set i | 0 <= i < |SORT_OPTIONS| :: SORT_OPTIONS[i].0;
    assert SORT_OPTIONS[0].0 in values && SORT_OPTIONS[1].0 in values && SORT_OPTIONS[2].0 in values;
  }

  /** `handleSearchChange`. */
  function HandleSearchChange(filters: ProductFilters, value: string): (r: ProductFilters)
    ensures r.search == value
    ensures r.priceRange == filters.priceRange && r.sortBy == filters.sortBy && r.inStock == filters.inStock
  {
    filters.(search := value)
  }

  /** `handlePriceChange`: the slider reports one value per thumb, and the first two become the range. */
  function HandlePriceChange(filters: ProductFilters, value: seq<int>): (r: ProductFilters)
    requires |value| >= 2
    ensures r.priceRange == (value[0], value[1])
    ensures r.search == filters.search && r.sortBy == filters.sortBy && r.inStock == filters.inStock
  {
    filters.(priceRange := (value[0], value[1]))
  }

  /** `handleSortChange`. */
  function HandleSortChange(filters: ProductFilters, value: string): (r: ProductFilters)
    ensures r.sortBy == value
    ensures r.search == filters.search && r.priceRange == filters.priceRange && r.inStock == filters.inStock
  {
    filters.(sortBy := value)
  }

  /** `handleStockChange`. */
  function HandleStockChange(filters: ProductFilters, value: bool): (r: ProductFilters)
    ensures r.inStock == value
    ensures r.search == filters.search && r.priceRange == filters.priceRange && r.sortBy == filters.sortBy
  {
    filters.(inStock := value)
  }

  /** The stock button: `handleStockChange(!filters.inStock)`. */
  function ToggleStock(filters: ProductFilters): ProductFilters
  {
    HandleStockChange(filters, !filters.inStock)
  }

  /** The stock button flips the flag and nothing else, so two clicks restore the filters. */
  lemma ToggleStockTwiceRestores(filters: ProductFilters)
    ensures ToggleStock(filters).inStock != filters.inStock
    ensures ToggleStock(ToggleStock(filters)) == filters
  {
  }

  /** A handler whose value is already in the record hands on the record unchanged. */
  lemma HandlersFixCurrentValues(filters: ProductFilters)
    ensures HandleSearchChange(filters, filters.search) == filters
    ensures HandlePriceChange(filters, [filters.priceRange.0, filters.priceRange.1]) == filters
    ensures HandleSortChange(filters, filters.sortBy) == filters
    ensures HandleStockChange(filters, filters.inStock) == filters
  {
  }
}
