/**
 * The admin order list (app/routes/admin.orders._index.tsx): orders kept by
 * status and by a search over the order id and the product names of its
 * items. Orders and their items have the shape of app/types/order.ts.
 */
module AdminOrders {
  import opened Text
  import ProductFilter
  import Sorting

  datatype OrderStatus = Pending | Processing | Shipped | Delivered | Cancelled

  /** The status menu: "all" or one status. */
  datatype StatusFilter = All | Only(status: OrderStatus)

  datatype OrderItem = OrderItem(id: string, product: ProductFilter.StoreProduct, quantity: int, price: int)

  datatype Order = Order(id: string, items: seq<OrderItem>, total: int, status: OrderStatus)

  /** `order.items.some(item => item.product.name.toLowerCase().includes(searchLower))` */
  predicate SomeItemNamed(items: seq<OrderItem>, search: string)
  {
    exists i :: 0 <= i < |items| && IncludesIgnoringCase(items[i].product.name, search)
  }

  /** The status test, then, for a non-empty search, the id or some item's product name. */
  predicate Keeps(filter: StatusFilter, search: string, order: Order)
  {
    (filter.All? || order.status == filter.status) &&
    (search == "" || IncludesIgnoringCase(order.id, search) || SomeItemNamed(order.items, search))
  }

  function FilterOrders(filter: StatusFilter, search: string, orders: seq<Order>): (r: seq<Order>)
    ensures forall i :: 0 <= i < |r| ==> r[i] in orders && Keeps(filter, search, r[i])
    ensures forall i :: 0 <= i < |orders| && Keeps(filter, search, orders[i]) ==> orders[i] in r
    ensures forall o :: multiset(r)[o] == if Keeps(filter, search, o) then multiset(orders)[o] else 0
  {
    Sorting.Filter(orders, (o: Order) => Keeps(filter, search, o))
  }

  /** The list shown is a subsequence of the orders, in their original order. */
  lemma FilterOrdersKeepsOrder(filter: StatusFilter, search: string, orders: seq<Order>)
    ensures Sorting.IsSubsequence(FilterOrders(filter, search, orders), orders)
  {
    Sorting.FilterIsSubsequence(orders, (o: Order) => Keeps(filter, search, o));
  }

  /** "all" with an empty search shows every order, whatever its status. */
  lemma AllWithoutSearchShowsEverything(orders: seq<Order>)
    ensures FilterOrders(All, "", orders) == orders
  {
    Sorting.FilterKeepsAll(orders, (o: Order) => Keeps(All, "", o));
  }

  /** A chosen status shows only orders of exactly that status. */
  lemma StatusFilterIsExact(status: OrderStatus, search: string, orders: seq<Order>)
    ensures forall i :: 0 <= i < |FilterOrders(Only(status), search, orders)| ==>
      FilterOrders(Only(status), search, orders)[i].status == status
  {
  }

  /**
   * An order whose status passes is kept exactly when the search is empty, or
   * occurs, ignoring case, in its id or in some item's product name.
   */
  lemma SearchCriterion(filter: StatusFilter, search: string, order: Order)
    requires filter.All? || order.status == filter.status
    ensures Keeps(filter, search, order) <==>
      search == "" ||
      IncludesIgnoringCase(order.id, search) ||
      exists i :: 0 <= i < |order.items| && IncludesIgnoringCase(order.items[i].product.name, search)
  {
  }

  /** The "process order" button appears on a row exactly when the order is pending. */
  predicate ShowsProcessAction(order: Order)
  {
    order.status == Pending
  }

  /** Under "pending", every row shown offers the process action; under any other status, none does. */
  lemma ProcessActionFollowsStatusFilter(status: OrderStatus, search: string, orders: seq<Order>)
    ensures forall i :: 0 <= i < |FilterOrders(Only(status), search, orders)| ==>
      (ShowsProcessAction(FilterOrders(Only(status), search, orders)[i]) <==> status == Pending)
  {
  }
}
