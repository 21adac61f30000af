/** The `Order` collection and the earnings arithmetic over it. */
module Orders {

  import opened Wrappers
  import opened Primitives
  import opened Collections
  import opened Catalog

  /** One line of an order: a snapshot of the product as ordered, and a quantity. */
  datatype LineItem = LineItem(product: Product, quantity: int)

  /** An order document (the fields the seller routes read or write). */
  datatype Order = Order(id: nat, userId: UserId, products: seq<LineItem>, status: string)

  /** What one line item earns: quantity times the snapshotted price. */
  function ItemEarnings(item: LineItem): (earnings: int)
  {
    item.quantity * item.product.price
  }

  /** The earnings of a run of line items, accumulated from the front. */
  function ItemsEarnings(items: seq<LineItem>): (earnings: int)
  {
    if items == [] then 0 else ItemsEarnings(items[..|items| - 1]) + ItemEarnings(items[|items| - 1])
  }

  /** The earnings of a run of orders, accumulated from the front. */
  function Earnings(orders: seq<Order>): (earnings: int)
  {
    if orders == [] then 0 else Earnings(orders[..|orders| - 1]) + ItemsEarnings(orders[|orders| - 1].products)
  }

  /** Mongo's `{ "products.product.category": c }`: some line item is of category `c`. */
  predicate HasCategory(o: Order, category: string)
  {
    exists j :: 0 <= j < |o.products| && o.products[j].product.category == category
  }

  /** `Order.find({ "products.product.category": c })`, in collection order. */
  function CategoryOrders(orders: seq<Order>, category: string): (r: seq<Order>)
    ensures forall o :: o in r <==> o in orders && HasCategory(o, category)
    ensures forall o {:trigger multiset(r)[o]} :: multiset(r)[o] == if HasCategory(o, category) then multiset(orders)[o] else 0
  {
    if orders == [] then []
    else
      var last := orders[|orders| - 1];
      var rest := CategoryOrders(orders[..|orders| - 1], category);
      assert orders == orders[..|orders| - 1] + [last];
      assert multiset(orders) == multiset(orders[..|orders| - 1]) + multiset{last};
      assert forall o :: o in orders <==> o in orders[..|orders| - 1] || o == last;
      if HasCategory(last, category) then rest + [last] else rest
  }

  /** Quantities and snapshotted prices are never negative. */
  ghost predicate NonNegative(orders: seq<Order>)
  {
    forall i, j :: 0 <= i < |orders| && 0 <= j < |orders[i].products| ==>
      orders[i].products[j].quantity >= 0 && orders[i].products[j].product.price >= 0
  }

  lemma {:induction false} ItemsEarningsNonNegative(items: seq<LineItem>)
    requires forall j :: 0 <= j < |items| ==> items[j].quantity >= 0 && items[j].product.price >= 0
    ensures ItemsEarnings(items) >= 0
    decreases |items|
  {
    if items != [] {
      ItemsEarningsNonNegative(items[..|items| - 1]);
      var last := items[|items| - 1];
      assert last.quantity * last.product.price >= 0;
    }
  }

  /**
   * With no negative quantity or price, a category's earnings never exceed
   * the total: its orders are a sub-run of all orders.
   */
  lemma {:induction false} CategoryEarningsBounded(orders: seq<Order>, category: string)
    requires NonNegative(orders)
    ensures 0 <= Earnings(CategoryOrders(orders, category)) <= Earnings(orders)
    decreases |orders|
  {
    if orders != [] {
      var init, last := orders[..|orders| - 1], orders[|orders| - 1];
      assert NonNegative(init) by {
        forall i, j | 0 <= i < |init| && 0 <= j < |init[i].products|
          ensures init[i].products[j].quantity >= 0 && init[i].products[j].product.price >= 0
        {
          assert init[i] == orders[i];
        }
      }
      CategoryEarningsBounded(init, category);
      ItemsEarningsNonNegative(last.products);
      var rest := CategoryOrders(init, category);
      if HasCategory(last, category) {
        assert (rest + [last])[..|rest + [last]| - 1] == rest;
      }
    }
  }

  /**
   * The category figure sums, order by order, either the whole order (when
   * it has a line item of the category, counting its other line items too)
   * or nothing.
   */
  lemma {:induction false} CategoryEarningsAppend(orders: seq<Order>, o: Order, category: string)
    ensures Earnings(CategoryOrders(orders + [o], category)) ==
      Earnings(CategoryOrders(orders, category)) + if HasCategory(o, category) then ItemsEarnings(o.products) else 0
  {
    assert (orders + [o])[..|orders + [o]| - 1] == orders;
    var rest := CategoryOrders(orders, category);
    if HasCategory(o, category) {
      assert (rest + [o])[..|rest + [o]| - 1] == rest;
    }
  }

  /** The collection of orders. */
  class OrderStore {
    var orders: seq<Order>

    constructor (orders: seq<Order>)
      ensures this.orders == orders
    {
      this.orders := orders;
    }

    /**
     * The intended effect of POST /seller/change-order-status (not what the
     * route does as written): the first order with that id gets the new
     * `status`, every other field and every other order is unchanged; an
     * unknown id changes nothing and yields null.
     */
    method SetStatus(id: nat, status: string) returns (r: Option<Order>)
      modifies this
      ensures var i := FirstIndex(old(orders), (o: Order) => o.id == id);
        if i < |old(orders)| then
          && r == Some(old(orders)[i].(status := status))
          && orders == old(orders)[i := r.value]
        else
          r == None && orders == old(orders)
    {
      var i := FirstIndex(orders, (o: Order) => o.id == id);
      if i < |orders| {
        var updated := orders[i].(status := status);
        orders := orders[i := updated];
        r := Some(updated);
      } else {
        r := None;
      }
    }
  }
}
