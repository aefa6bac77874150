/**
 * The order list shared by the waiter and kitchen views, together with
 * the table and product catalog it resolves names, numbers and prices
 * against. Order ids and creation timestamps come from the clock in the
 * app; here they are parameters.
 */
module OrderStore {
  import opened Types
  import opened Seqs

  /** The waiter name every new order carries: a fixed placeholder, not the creator's name. */
  const PlaceholderWaiterName := "Juan Camarero"

  function TableWithId(id: string): Table -> bool {
    (t: Table) => t.id == id
  }

  function ProductWithId(id: string): Product -> bool {
    (p: Product) => p.id == id
  }

  /** The number of the first table with this id, if there is one. */
  function TableNumber(tables: seq<Table>, tableId: string): (r: Option<int>)
    ensures r.None? <==> forall i :: 0 <= i < |tables| ==> tables[i].id != tableId
    ensures r.Some? ==> exists i :: FirstAt(tables, TableWithId(tableId), i) && tables[i].number == r.value
  {
    match Find(tables, TableWithId(tableId))
    case Some(t) => Some(t.number)
    case None => None
  }

  /** The first catalog product with this id, if there is one. */
  function CatalogProduct(products: seq<Product>, productId: string): (r: Option<Product>)
    ensures r.None? <==> forall i :: 0 <= i < |products| ==> products[i].id != productId
    ensures r.Some? ==> r.value in products && r.value.id == productId
    ensures r.Some? ==> exists i :: FirstAt(products, ProductWithId(productId), i) && products[i] == r.value
  {
    Find(products, ProductWithId(productId))
  }

  /**
   * A line as stored in a new order: everything the caller gave is kept,
   * except that name and price are overwritten from the catalog, and
   * become missing when the product is not in the catalog.
   */
  function SnapshotItem(products: seq<Product>, item: OrderItem): (r: OrderItem)
    ensures r.id == item.id && r.order_id == item.order_id
    ensures r.product_id == item.product_id && r.quantity == item.quantity
    ensures r.product_name.Some? <==> r.product_price.Some?
    ensures r.product_price.Some? <==> exists i :: 0 <= i < |products| && products[i].id == item.product_id
    ensures r.product_price.Some? ==>
              exists i :: FirstAt(products, ProductWithId(item.product_id), i) &&
                          r.product_name == Some(products[i].name) && r.product_price == Some(products[i].price)
  {
    var p := CatalogProduct(products, item.product_id);
    item.(product_name := if p.Some? then Some(p.value.name) else None,
          product_price := if p.Some? then Some(p.value.price) else None)
  }

  /**
   * The order `createOrder` builds: pending, with the arguments copied in,
   * the table number looked up, and one snapshot line per given line. It
   * checks nothing: an empty list of lines or an unknown table still make
   * an order.
   */
  function NewOrder(id: string, createdAt: string, tables: seq<Table>, products: seq<Product>,
                    tableId: string, items: seq<OrderItem>, observations: string, userId: string): (o: Order)
    ensures o.status == Pending
    ensures o.id == id && o.created_at == createdAt
    ensures o.table_id == tableId && o.observations == observations && o.user_id == userId
    ensures o.table_number == TableNumber(tables, tableId)
    ensures o.waiter_name == Some(PlaceholderWaiterName)
    ensures |o.items| == |items|
    ensures forall i :: 0 <= i < |items| ==> o.items[i] == SnapshotItem(products, items[i])
  {
    Order(id, tableId, TableNumber(tables, tableId), observations, Pending, userId,
          Some(PlaceholderWaiterName), createdAt,
          seq(|items|, i requires 0 <= i < |items| => SnapshotItem(products, items[i])))
  }

  /**
   * The list after `updateOrderStatus`: same length and order; an order
   * whose id matches takes the new status, and no order changes in any
   * other field. Any status may be written, backwards moves included.
   */
  function WithStatus(orders: seq<Order>, orderId: string, status: OrderStatus): (r: seq<Order>)
    ensures |r| == |orders|
    ensures forall i :: 0 <= i < |orders| ==> r[i].(status := orders[i].status) == orders[i]
    ensures forall i :: 0 <= i < |orders| ==>
              r[i].status == (if orders[i].id == orderId then status else orders[i].status)
  {
    seq(|orders|, i requires 0 <= i < |orders| =>
      if orders[i].id == orderId then orders[i].(status := status) else orders[i])
  }

  /** An id that matches no order leaves the list as it was. */
  lemma WithStatusUnknownId(orders: seq<Order>, orderId: string, status: OrderStatus)
    requires forall i :: 0 <= i < |orders| ==> orders[i].id != orderId
    ensures WithStatus(orders, orderId, status) == orders
  {
    var r := WithStatus(orders, orderId, status);
    forall i | 0 <= i < |orders| ensures r[i] == orders[i] {
      assert r[i] == r[i].(status := orders[i].status);
    }
  }

  /** Writing the same status twice is the same as writing it once. */
  lemma WithStatusIdempotent(orders: seq<Order>, orderId: string, status: OrderStatus)
    ensures WithStatus(WithStatus(orders, orderId, status), orderId, status) == WithStatus(orders, orderId, status)
  {
    var once := WithStatus(orders, orderId, status);
    var twice := WithStatus(once, orderId, status);
    forall i | 0 <= i < |orders| ensures twice[i] == once[i] {
      assert twice[i] == twice[i].(status := once[i].status);
    }
  }

  /** Updates are not checked against the flow: a ready order can be sent back to pending. */
  lemma WithStatusAllowsBackwards(orders: seq<Order>, k: int)
    requires 0 <= k < |orders| && orders[k].status == Ready
    ensures WithStatus(orders, orders[k].id, Pending)[k].status == Pending
  {
  }

  /** The order list and the catalog it is resolved against. */
  class OrderBook {
    var orders: seq<Order>
    var tables: seq<Table>
    var products: seq<Product>

    constructor(tables: seq<Table>, products: seq<Product>, orders: seq<Order>)
      ensures this.tables == tables && this.products == products && this.orders == orders
    {
      this.tables := tables;
      this.products := products;
      this.orders := orders;
    }

    /** `createOrder`: appends the new order at the end; earlier orders keep their places. */
    method CreateOrder(id: string, createdAt: string, tableId: string, items: seq<OrderItem>,
                       observations: string, userId: string)
      modifies this`orders
      ensures orders == old(orders) + [NewOrder(id, createdAt, tables, products, tableId, items, observations, userId)]
    {
      var order := NewOrder(id, createdAt, tables, products, tableId, items, observations, userId);
      orders := orders + [order];
    }

    /** `updateOrderStatus`: rewrites the status of the orders with this id. */
    method UpdateOrderStatus(orderId: string, status: OrderStatus)
      modifies this`orders
      ensures orders == WithStatus(old(orders), orderId, status)
    {
      orders := WithStatus(orders, orderId, status);
    }
  }
}
