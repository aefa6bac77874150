/**
 * The waiter view: a cart of order lines (one per product) built against
 * the catalog, its total, the submit step that hands it to the order
 * book, and the lists of tables and of the waiter's own orders it shows.
 */
module Waiter {
  import opened Types
  import opened Seqs
  import opened OrderCard
  import opened OrderStore
  import Kitchen

  function LineFor(productId: string): OrderItem -> bool {
    (l: OrderItem) => l.product_id == productId
  }

  function NotLineFor(productId: string): OrderItem -> bool {
    (l: OrderItem) => l.product_id != productId
  }

  predicate HasLine(items: seq<OrderItem>, productId: string) {
    exists i :: 0 <= i < |items| && items[i].product_id == productId
  }

  /** The cart's first line for this product, as `find` returns it. */
  function FirstLine(items: seq<OrderItem>, productId: string): Option<OrderItem> {
    Find(items, LineFor(productId))
  }

  /** The line `addItem` appends for a product not yet in the cart. */
  function NewLine(p: Product): OrderItem {
    OrderItem(None, None, p.id, Some(p.name), Some(p.price), 1)
  }

  /** Every line for this product with its quantity changed by `delta`. */
  function Bumped(items: seq<OrderItem>, productId: string, delta: int): seq<OrderItem> {
    seq(|items|, i requires 0 <= i < |items| =>
      if items[i].product_id == productId then items[i].(quantity := items[i].quantity + delta) else items[i])
  }

  /**
   * The cart after `addItem`: unchanged for a product missing from the
   * catalog; one more of a product already in the cart; otherwise a new
   * line of quantity 1 at the end, priced from the catalog.
   */
  function WithAdded(items: seq<OrderItem>, products: seq<Product>, productId: string): (r: seq<OrderItem>)
    ensures CatalogProduct(products, productId).None? ==> r == items
    ensures CatalogProduct(products, productId).Some? && HasLine(items, productId) ==>
              |r| == |items| &&
              forall i :: 0 <= i < |items| ==>
                r[i] == (if items[i].product_id == productId then items[i].(quantity := items[i].quantity + 1) else items[i])
    ensures CatalogProduct(products, productId).Some? && !HasLine(items, productId) ==>
              r == items + [NewLine(CatalogProduct(products, productId).value)]
  {
    match CatalogProduct(products, productId)
    case None => items
    case Some(p) =>
      if FirstLine(items, productId).Some? then Bumped(items, productId, 1) else items + [NewLine(p)]
  }

  /**
   * The cart after `removeItem`: when the first line for the product has a
   * quantity above 1, one less of it; otherwise every line for the product
   * is dropped, the others keeping their order. An absent product leaves
   * the cart as it was.
   */
  function WithRemoved(items: seq<OrderItem>, productId: string): (r: seq<OrderItem>)
    ensures !HasLine(items, productId) ==> r == items
    ensures FirstLine(items, productId).Some? && FirstLine(items, productId).value.quantity > 1 ==>
              |r| == |items| &&
              forall i :: 0 <= i < |items| ==>
                r[i] == (if items[i].product_id == productId then items[i].(quantity := items[i].quantity - 1) else items[i])
    ensures FirstLine(items, productId).Some? && FirstLine(items, productId).value.quantity <= 1 ==>
              (forall i :: 0 <= i < |r| ==> r[i].product_id != productId) &&
              (forall i :: 0 <= i < |items| && items[i].product_id != productId ==> items[i] in r) &&
              IsSubsequence(r, items)
  {
    match FirstLine(items, productId)
    case Some(line) =>
      if line.quantity > 1 then Bumped(items, productId, -1) else Filter(items, NotLineFor(productId))
    case None =>
      FilterKeepsAll(items, NotLineFor(productId));
      Filter(items, NotLineFor(productId))
  }

  /** No two lines are for the same product. */
  ghost predicate DistinctProducts(items: seq<OrderItem>) {
    forall i, j :: 0 <= i < j < |items| ==> items[i].product_id != items[j].product_id
  }

  /** The cart's invariant: one line per product, each with a quantity of at least 1. */
  ghost predicate WellFormedCart(items: seq<OrderItem>) {
    DistinctProducts(items) && forall i :: 0 <= i < |items| ==> items[i].quantity >= 1
  }

  /** In a cart with one line per product, bumping a product changes exactly its line. */
  lemma BumpedAt(items: seq<OrderItem>, productId: string, delta: int, k: int)
    requires DistinctProducts(items) && 0 <= k < |items| && items[k].product_id == productId
    ensures Bumped(items, productId, delta) ==
            items[..k] + [items[k].(quantity := items[k].quantity + delta)] + items[k + 1..]
  {
    var r := Bumped(items, productId, delta);
    var s := items[..k] + [items[k].(quantity := items[k].quantity + delta)] + items[k + 1..];
    assert |r| == |s|;
    forall i | 0 <= i < |r| ensures r[i] == s[i] {
      if i != k {
        assert items[i].product_id != productId;
      }
    }
  }

  /** In a cart with one line per product, dropping a product deletes exactly its line. */
  lemma {:induction false} DropLineAt(items: seq<OrderItem>, productId: string, k: int)
    requires DistinctProducts(items) && 0 <= k < |items| && items[k].product_id == productId
    ensures Filter(items, NotLineFor(productId)) == items[..k] + items[k + 1..]
  {
    var p := NotLineFor(productId);
    assert items == items[..k] + ([items[k]] + items[k + 1..]);
    FilterAppend(items[..k], [items[k]] + items[k + 1..], p);
    FilterAppend([items[k]], items[k + 1..], p);
    FilterKeepsAll(items[..k], p);
    FilterKeepsAll(items[k + 1..], p);
    assert [items[k]][1..] == [];
  }

  /** Deleting one line keeps the lines' products distinct. */
  lemma DistinctAfterDelete(items: seq<OrderItem>, k: int)
    requires DistinctProducts(items) && 0 <= k < |items|
    ensures DistinctProducts(items[..k] + items[k + 1..])
  {
    var r := items[..k] + items[k + 1..];
    forall i, j | 0 <= i < j < |r| ensures r[i].product_id != r[j].product_id {
      var i' := if i < k then i else i + 1;
      var j' := if j < k then j else j + 1;
      assert r[i] == items[i'] && r[j] == items[j'];
    }
  }

  /** `addItem` keeps one line per product and every quantity at least 1. */
  lemma AddKeepsWellFormed(items: seq<OrderItem>, products: seq<Product>, productId: string)
    requires WellFormedCart(items)
    ensures WellFormedCart(WithAdded(items, products, productId))
  {
    var r := WithAdded(items, products, productId);
    if CatalogProduct(products, productId).Some? {
      if HasLine(items, productId) {
        forall i, j | 0 <= i < j < |r| ensures r[i].product_id != r[j].product_id {
          assert r[i].product_id == items[i].product_id && r[j].product_id == items[j].product_id;
        }
      } else {
        forall i, j | 0 <= i < j < |r| ensures r[i].product_id != r[j].product_id {
          if j == |items| {
            assert items[i].product_id != productId;
          }
        }
      }
    }
  }

  /** `removeItem` keeps one line per product and every quantity at least 1. */
  lemma RemoveKeepsWellFormed(items: seq<OrderItem>, productId: string)
    requires WellFormedCart(items)
    ensures WellFormedCart(WithRemoved(items, productId))
  {
    var first := FirstLine(items, productId);
    if first.Some? && first.value.quantity <= 1 {
      var k :| FirstAt(items, LineFor(productId), k) && items[k] == first.value;
      DropLineAt(items, productId, k);
      DistinctAfterDelete(items, k);
    }
  }

  /** For a catalog product, adding it and then removing it gives back the cart. */
  lemma AddRemoveRoundTrip(items: seq<OrderItem>, products: seq<Product>, productId: string)
    requires WellFormedCart(items)
    requires CatalogProduct(products, productId).Some?
    ensures WithRemoved(WithAdded(items, products, productId), productId) == items
  {
    if HasLine(items, productId) {
      AddRemoveExistingLine(items, products, productId);
    } else {
      AddRemoveNewLine(items, products, productId);
    }
  }

  /** Round trip for a product the cart already has a line for: its lines go up by one and back down. */
  lemma AddRemoveExistingLine(items: seq<OrderItem>, products: seq<Product>, productId: string)
    requires WellFormedCart(items)
    requires CatalogProduct(products, productId).Some? && HasLine(items, productId)
    ensures WithRemoved(WithAdded(items, products, productId), productId) == items
  {
    var added := WithAdded(items, products, productId);
    var first := FirstLine(added, productId);
    var k :| FirstAt(added, LineFor(productId), k) && added[k] == first.value;
    assert first.value.quantity > 1;
    var back := WithRemoved(added, productId);
    forall i | 0 <= i < |items| ensures back[i] == items[i] { }
  }

  /** Round trip for a product the cart has no line for: the appended line is dropped again. */
  lemma AddRemoveNewLine(items: seq<OrderItem>, products: seq<Product>, productId: string)
    requires WellFormedCart(items)
    requires CatalogProduct(products, productId).Some? && !HasLine(items, productId)
    ensures WithRemoved(WithAdded(items, products, productId), productId) == items
  {
    var added := WithAdded(items, products, productId);
    var first := FirstLine(added, productId);
    var line := NewLine(CatalogProduct(products, productId).value);
    assert added == items + [line];
    assert FirstAt(added, LineFor(productId), |items|);
    var k :| FirstAt(added, LineFor(productId), k) && added[k] == first.value;
    FirstAtUnique(added, LineFor(productId), k, |items|);
    assert DistinctProducts(added) by {
      AddKeepsWellFormed(items, products, productId);
    }
    DropLineAt(added, productId, |items|);
    assert added[..|items|] == items;
  }

  /** The line carries the name and price of the catalog product with its id. */
  predicate PricedFromCatalog(products: seq<Product>, line: OrderItem) {
    match CatalogProduct(products, line.product_id)
    case Some(p) => line.product_name == Some(p.name) && line.product_price == Some(p.price)
    case None => false
  }

  /** Every line of the cart is priced from the catalog, as `addItem` makes them. */
  ghost predicate CartFromCatalog(products: seq<Product>, items: seq<OrderItem>) {
    forall i :: 0 <= i < |items| ==> PricedFromCatalog(products, items[i])
  }

  /** Adding keeps every line priced from the catalog. */
  lemma AddKeepsCatalogPrices(items: seq<OrderItem>, products: seq<Product>, productId: string)
    requires CartFromCatalog(products, items)
    ensures CartFromCatalog(products, WithAdded(items, products, productId))
  {
    var added := WithAdded(items, products, productId);
    forall i | 0 <= i < |added| ensures PricedFromCatalog(products, added[i]) {
      if i < |items| {
        assert PricedFromCatalog(products, items[i]);
      }
    }
  }

  /** Removing keeps every line priced from the catalog. */
  lemma RemoveKeepsCatalogPrices(items: seq<OrderItem>, products: seq<Product>, productId: string)
    requires CartFromCatalog(products, items)
    ensures CartFromCatalog(products, WithRemoved(items, productId))
  {
    var removed := WithRemoved(items, productId);
    forall i | 0 <= i < |removed| ensures PricedFromCatalog(products, removed[i]) {
      if |removed| == |items| {
        assert PricedFromCatalog(products, items[i]);
      } else {
        assert removed[i] in items;
      }
    }
  }

  /** One more (or one fewer) of a line adds (or takes away) its unit price. */
  lemma BumpedSubtotal(x: OrderItem, delta: int)
    requires delta == 1 || delta == -1
    ensures LineSubtotal(x.(quantity := x.quantity + delta)) ==
            LineSubtotal(x) + (if delta == 1 then PriceOrZero(x) else -PriceOrZero(x))
  {
    if delta == 1 {
      TimesStep(PriceOrZero(x), x.quantity);
    } else {
      TimesStep(PriceOrZero(x), x.quantity - 1);
    }
  }

  /** One more (or one fewer) of the one line for a product adds (or takes away) its unit price from the total. */
  lemma BumpStep(items: seq<OrderItem>, productId: string, delta: int, k: int)
    requires DistinctProducts(items) && 0 <= k < |items| && items[k].product_id == productId
    requires delta == 1 || delta == -1
    ensures Total(Bumped(items, productId, delta)) ==
            Total(items) + (if delta == 1 then PriceOrZero(items[k]) else -PriceOrZero(items[k]))
  {
    BumpTotal(items, productId, delta, k);
    BumpedSubtotal(items[k], delta);
  }

  /** Changing the quantity of the one line for a product changes the total by the change in its subtotal. */
  lemma BumpTotal(items: seq<OrderItem>, productId: string, delta: int, k: int)
    requires DistinctProducts(items) && 0 <= k < |items| && items[k].product_id == productId
    ensures Total(Bumped(items, productId, delta)) ==
            Total(items) - LineSubtotal(items[k]) + LineSubtotal(items[k].(quantity := items[k].quantity + delta))
  {
    BumpedAt(items, productId, delta, k);
    SplitTotal(items, k, items[k].(quantity := items[k].quantity + delta));
  }

  /** For a product already in the cart, `addItem` bumps its line. */
  lemma AddExisting(items: seq<OrderItem>, products: seq<Product>, productId: string)
    requires CatalogProduct(products, productId).Some? && HasLine(items, productId)
    ensures WithAdded(items, products, productId) == Bumped(items, productId, 1)
  {
  }

  /** A catalog-priced line for a product has that product's catalog price. */
  lemma LinePrice(items: seq<OrderItem>, products: seq<Product>, productId: string, k: int)
    requires CartFromCatalog(products, items) && 0 <= k < |items| && items[k].product_id == productId
    ensures CatalogProduct(products, productId).Some?
    ensures PriceOrZero(items[k]) == CatalogProduct(products, productId).value.price
  {
    assert PricedFromCatalog(products, items[k]);
  }

  /** Adding a catalog product to a well-formed, catalog-priced cart raises its total by the unit price. */
  lemma AddRaisesTotal(items: seq<OrderItem>, products: seq<Product>, productId: string)
    requires WellFormedCart(items) && CartFromCatalog(products, items)
    requires CatalogProduct(products, productId).Some?
    ensures Total(WithAdded(items, products, productId)) ==
            Total(items) + CatalogProduct(products, productId).value.price
  {
    if HasLine(items, productId) {
      var k :| 0 <= k < |items| && items[k].product_id == productId;
      LinePrice(items, products, productId, k);
      AddToLineTotal(items, products, productId, k);
    } else {
      AddNewLineTotal(items, products, productId);
    }
  }

  /** Adding a product whose line is at `k` raises the total by that line's unit price. */
  lemma AddToLineTotal(items: seq<OrderItem>, products: seq<Product>, productId: string, k: int)
    requires DistinctProducts(items) && 0 <= k < |items| && items[k].product_id == productId
    requires CatalogProduct(products, productId).Some?
    ensures Total(WithAdded(items, products, productId)) == Total(items) + PriceOrZero(items[k])
  {
    assert WithAdded(items, products, productId) == Bumped(items, productId, 1) by {
      AddExisting(items, products, productId);
    }
    BumpStep(items, productId, 1, k);
  }

  /** Adding a catalog product the cart has no line for raises the total by its catalog price. */
  lemma AddNewLineTotal(items: seq<OrderItem>, products: seq<Product>, productId: string)
    requires CatalogProduct(products, productId).Some? && !HasLine(items, productId)
    ensures Total(WithAdded(items, products, productId)) ==
            Total(items) + CatalogProduct(products, productId).value.price
  {
    var line := NewLine(CatalogProduct(products, productId).value);
    TotalAppend(items, [line]);
    TotalSingle(line);
  }

  /** `removeItem` acts on the first line for the product; in a well-formed cart that is its only line. */
  lemma RemoveActsOn(items: seq<OrderItem>, productId: string, k: int)
    requires DistinctProducts(items) && 0 <= k < |items| && items[k].product_id == productId
    ensures items[k].quantity > 1 ==> WithRemoved(items, productId) == Bumped(items, productId, -1)
    ensures items[k].quantity <= 1 ==> WithRemoved(items, productId) == Filter(items, NotLineFor(productId))
  {
    assert FirstAt(items, LineFor(productId), k);
    var j :| FirstAt(items, LineFor(productId), j) && items[j] == FirstLine(items, productId).value;
    FirstAtUnique(items, LineFor(productId), j, k);
  }

  /**
   * Removing a product that is in a well-formed, catalog-priced cart lowers
   * its total by the unit price.
   */
  lemma RemoveLowersTotal(items: seq<OrderItem>, products: seq<Product>, productId: string)
    requires WellFormedCart(items) && CartFromCatalog(products, items)
    requires HasLine(items, productId)
    ensures CatalogProduct(products, productId).Some?
    ensures Total(WithRemoved(items, productId)) ==
            Total(items) - CatalogProduct(products, productId).value.price
  {
    var k :| 0 <= k < |items| && items[k].product_id == productId;
    assert CatalogProduct(products, productId).Some? &&
           PriceOrZero(items[k]) == CatalogProduct(products, productId).value.price by {
      LinePrice(items, products, productId, k);
    }
    if items[k].quantity > 1 {
      assert WithRemoved(items, productId) == Bumped(items, productId, -1) by {
        RemoveActsOn(items, productId, k);
      }
      BumpStep(items, productId, -1, k);
    } else {
      assert WithRemoved(items, productId) == items[..k] + items[k + 1..] by {
        RemoveActsOn(items, productId, k);
        DropLineAt(items, productId, k);
      }
      assert LineSubtotal(items[k]) == PriceOrZero(items[k]) by {
        assert items[k].quantity == 1;
      }
      DropTotal(items, k);
    }
  }

  /** Deleting the line at `k` lowers the total by that line's subtotal. */
  lemma DropTotal(items: seq<OrderItem>, k: int)
    requires 0 <= k < |items|
    ensures Total(items[..k] + items[k + 1..]) == Total(items) - LineSubtotal(items[k])
  {
    var a, x, b := items[..k], items[k], items[k + 1..];
    SplitAround(items, k);
    TotalAppend(a + [x], b);
    TotalAppend(a, [x]);
    TotalAppend(a, b);
    TotalSingle(x);
  }

  /** Replacing the line at `k` changes the total by the difference of the two subtotals. */
  lemma SplitTotal(items: seq<OrderItem>, k: int, y: OrderItem)
    requires 0 <= k < |items|
    ensures Total(items[..k] + [y] + items[k + 1..]) == Total(items) - LineSubtotal(items[k]) + LineSubtotal(y)
  {
    var a, x, b := items[..k], items[k], items[k + 1..];
    SplitAround(items, k);
    TotalAppend(a + [x], b);
    TotalAppend(a + [y], b);
    TotalAppend(a, [x]);
    TotalAppend(a, [y]);
    TotalSingle(x);
    TotalSingle(y);
  }

  /**
   * Creating an order from a catalog-priced cart keeps every line exactly
   * as it was, so the kitchen's card shows the total the waiter saw.
   */
  lemma SubmittedLinesKeepTotal(id: string, createdAt: string, tables: seq<Table>, products: seq<Product>,
                                tableId: string, items: seq<OrderItem>, observations: string, userId: string)
    requires CartFromCatalog(products, items)
    ensures NewOrder(id, createdAt, tables, products, tableId, items, observations, userId).items == items
    ensures Total(NewOrder(id, createdAt, tables, products, tableId, items, observations, userId).items) == Total(items)
  {
    var o := NewOrder(id, createdAt, tables, products, tableId, items, observations, userId);
    forall i | 0 <= i < |items| ensures o.items[i] == items[i] {
      assert PricedFromCatalog(products, items[i]);
    }
  }

  /** The tables offered for a new order: exactly the active ones, in catalog order. */
  function ActiveTables(tables: seq<Table>): (r: seq<Table>)
    ensures forall i :: 0 <= i < |r| ==> r[i] in tables && r[i].active
    ensures forall i :: 0 <= i < |tables| && tables[i].active ==> tables[i] in r
    ensures IsSubsequence(r, tables)
  {
    Filter(tables, (t: Table) => t.active)
  }

  /** The order was placed by the signed-in user; nobody signed in owns no order. */
  function PlacedBy(user: Option<User>): Order -> bool {
    (o: Order) => user.Some? && o.user_id == user.value.id
  }

  function MineAndActive(user: Option<User>): Order -> bool {
    (o: Order) => user.Some? && o.user_id == user.value.id && (o.status == Pending || o.status == Preparing)
  }

  function MineAndReady(user: Option<User>): Order -> bool {
    (o: Order) => user.Some? && o.user_id == user.value.id && o.status == Ready
  }

  /** The signed-in waiter's orders still in the kitchen, in list order. */
  function MyActiveOrders(orders: seq<Order>, user: Option<User>): (r: seq<Order>)
    ensures forall i :: 0 <= i < |r| ==>
              r[i] in orders && user.Some? && r[i].user_id == user.value.id && r[i].status in {Pending, Preparing}
    ensures forall i :: (0 <= i < |orders| && user.Some? && orders[i].user_id == user.value.id &&
                         orders[i].status in {Pending, Preparing}) ==> orders[i] in r
    ensures IsSubsequence(r, orders)
  {
    Filter(orders, MineAndActive(user))
  }

  /** The signed-in waiter's ready orders, in list order. */
  function MyReadyOrders(orders: seq<Order>, user: Option<User>): (r: seq<Order>)
    ensures forall i :: 0 <= i < |r| ==>
              r[i] in orders && user.Some? && r[i].user_id == user.value.id && r[i].status == Ready
    ensures forall i :: (0 <= i < |orders| && user.Some? && orders[i].user_id == user.value.id &&
                         orders[i].status == Ready) ==> orders[i] in r
    ensures IsSubsequence(r, orders)
  {
    Filter(orders, MineAndReady(user))
  }

  /** Filtering twice is filtering once by both conditions. */
  lemma {:induction false} FilterTwice<T>(s: seq<T>, p: T -> bool, q: T -> bool, both: T -> bool)
    requires forall x :: both(x) == (p(x) && q(x))
    ensures Filter(Filter(s, p), q) == Filter(s, both)
  {
    if |s| > 0 {
      FilterTwice(s[1..], p, q, both);
      if p(s[0]) {
        assert ([s[0]] + Filter(s[1..], p))[1..] == Filter(s[1..], p);
      }
    }
  }

  /**
   * The waiter's two lists split that waiter's own orders: each of them is
   * in exactly one list, as often as in the order list.
   */
  lemma MyListsPartitionMyOrders(orders: seq<Order>, user: Option<User>)
    ensures multiset(MyActiveOrders(orders, user)) + multiset(MyReadyOrders(orders, user)) ==
            multiset(Filter(orders, PlacedBy(user)))
  {
    var mine := Filter(orders, PlacedBy(user));
    FilterTwice(orders, PlacedBy(user), Kitchen.IsActive, MineAndActive(user));
    FilterTwice(orders, PlacedBy(user), Kitchen.IsCompleted, MineAndReady(user));
    FilterPartition(mine, Kitchen.IsActive, Kitchen.IsCompleted);
  }

  /** The waiter's order form: selected table, cart lines and observations. */
  class Cart {
    var selectedTable: Option<string>
    var selectedItems: seq<OrderItem>
    var observations: string

    ghost predicate Valid()
      reads this
    {
      WellFormedCart(selectedItems)
    }

    constructor()
      ensures Valid()
      ensures selectedTable == None && selectedItems == [] && observations == ""
    {
      selectedTable := None;
      selectedItems := [];
      observations := "";
    }

    method SelectTable(tableId: string)
      modifies this`selectedTable
      ensures selectedTable == Some(tableId)
    {
      selectedTable := Some(tableId);
    }

    method SetObservations(text: string)
      modifies this`observations
      ensures observations == text
    {
      observations := text;
    }

    /** `addItem`, against the order book's product catalog. */
    method AddItem(book: OrderBook, productId: string)
      requires Valid()
      modifies this`selectedItems
      ensures Valid()
      ensures selectedItems == WithAdded(old(selectedItems), book.products, productId)
    {
      AddKeepsWellFormed(selectedItems, book.products, productId);
      selectedItems := WithAdded(selectedItems, book.products, productId);
    }

    /** `removeItem`. */
    method RemoveItem(productId: string)
      requires Valid()
      modifies this`selectedItems
      ensures Valid()
      ensures selectedItems == WithRemoved(old(selectedItems), productId)
    {
      RemoveKeepsWellFormed(selectedItems, productId);
      selectedItems := WithRemoved(selectedItems, productId);
    }

    /**
     * The submit button is enabled once a table is chosen (neither none nor
     * the empty id) and the cart holds a line. It does not look at who is
     * signed in; `SubmitOrder` does.
     */
    function SubmitEnabled(): (r: bool)
      reads this
      ensures r <==> selectedTable.Some? && selectedTable.value != "" && selectedItems != []
    {
      selectedTable.Some? && selectedTable.value != "" && |selectedItems| > 0
    }

    /**
     * `handleSubmitOrder`: without a table, lines or a signed-in user
     * nothing happens; otherwise the order is created and the form reset.
     */
    method SubmitOrder(book: OrderBook, user: Option<User>, orderId: string, createdAt: string)
      returns (submitted: bool)
      requires Valid()
      modifies this, book`orders
      ensures Valid()
      ensures submitted <==> old(SubmitEnabled()) && user.Some?
      ensures !submitted ==> unchanged(this) && book.orders == old(book.orders)
      ensures submitted ==>
                book.orders == old(book.orders) +
                  [NewOrder(orderId, createdAt, book.tables, book.products, old(selectedTable).value,
                            old(selectedItems), old(observations), user.value.id)]
      ensures submitted ==> |book.orders[|book.orders| - 1].items| > 0
      ensures submitted ==> selectedTable == None && selectedItems == [] && observations == ""
    {
      if selectedTable.None? || selectedTable.value == "" || |selectedItems| == 0 || user.None? {
        return false;
      }
      book.CreateOrder(orderId, createdAt, selectedTable.value, selectedItems, observations, user.value.id);
      selectedTable := None;
      selectedItems := [];
      observations := "";
      submitted := true;
    }
  }

  /**
   * A waiter at active table 3 adds two croquetas (6.00) and one water
   * (1.50) and submits: the new order is pending, for table number 3, and
   * totals 13.50. Prices are in cents.
   */
  lemma CroquetasAndWater()
    ensures var agua := Product("1", "Agua", 150, "1");
            var croquetas := Product("6", "Croquetas", 600, "2");
            var table := Table("3", 3, true);
            var catalog := [agua, croquetas];
            var items := WithAdded(WithAdded(WithAdded([], catalog, "6"), catalog, "6"), catalog, "1");
            var order := NewOrder("order_1", "t0", [table], catalog, "3", items, "", "2");
            order.status == Pending && order.table_number == Some(3) &&
            |order.items| == 2 && Total(order.items) == 1350
  {
    var agua := Product("1", "Agua", 150, "1");
    var croquetas := Product("6", "Croquetas", 600, "2");
    var table := Table("3", 3, true);
    var catalog := [agua, croquetas];
    assert CatalogProduct(catalog, "6") == Some(croquetas) by {
      assert ProductWithId("6")(catalog[1]);
    }
    assert CatalogProduct(catalog, "1") == Some(agua);
    var one := WithAdded([], catalog, "6");
    assert one == [NewLine(croquetas)];
    var two := WithAdded(one, catalog, "6");
    var twoCroquetas := NewLine(croquetas).(quantity := 2);
    assert two == [twoCroquetas];
    var items := WithAdded(two, catalog, "1");
    assert items == [twoCroquetas, NewLine(agua)];
    assert Total(items) == 1350 by {
      assert items[..1] == [twoCroquetas];
      TotalSingle(twoCroquetas);
    }
    assert TableNumber([table], "3") == Some(3) by {
      assert TableWithId("3")(table);
    }
    assert CartFromCatalog(catalog, items) by {
      assert PricedFromCatalog(catalog, items[0]);
      assert PricedFromCatalog(catalog, items[1]);
    }
    SubmittedLinesKeepTotal("order_1", "t0", [table], catalog, "3", items, "", "2");
  }
}
