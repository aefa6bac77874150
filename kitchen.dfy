/**
 * The kitchen view: the order list split into the orders still being
 * worked on and the ones that are ready, and the status button on the
 * cards of the first group.
 */
module Kitchen {
  import opened Types
  import opened Seqs
  import opened OrderCard
  import opened OrderStore

  predicate IsActive(o: Order) {
    o.status == Pending || o.status == Preparing
  }

  predicate IsCompleted(o: Order) {
    o.status == Ready
  }

  /** The orders shown as active: exactly the pending and preparing ones, in list order. */
  function ActiveOrders(orders: seq<Order>): (r: seq<Order>)
    ensures forall i :: 0 <= i < |r| ==> r[i] in orders && r[i].status in {Pending, Preparing}
    ensures forall i :: 0 <= i < |orders| && orders[i].status in {Pending, Preparing} ==> orders[i] in r
    ensures IsSubsequence(r, orders)
  {
    Filter(orders, IsActive)
  }

  /** The orders shown as ready: exactly the ready ones, in list order. */
  function CompletedOrders(orders: seq<Order>): (r: seq<Order>)
    ensures forall i :: 0 <= i < |r| ==> r[i] in orders && r[i].status == Ready
    ensures forall i :: 0 <= i < |orders| && orders[i].status == Ready ==> orders[i] in r
    ensures IsSubsequence(r, orders)
  {
    Filter(orders, IsCompleted)
  }

  /**
   * The two lists partition the orders: each order appears in exactly one
   * of them, and together they hold every order as often as the list does.
   */
  lemma KitchenPartition(orders: seq<Order>)
    ensures multiset(ActiveOrders(orders)) + multiset(CompletedOrders(orders)) == multiset(orders)
    ensures |ActiveOrders(orders)| + |CompletedOrders(orders)| == |orders|
    ensures forall i :: 0 <= i < |orders| ==> (orders[i] in ActiveOrders(orders) <==> orders[i] !in CompletedOrders(orders))
  {
    FilterPartition(orders, IsActive, IsCompleted);
  }

  /**
   * A freshly created order is pending, so it shows up at the end of the
   * active list and leaves the ready list alone.
   */
  lemma CreatedOrderJoinsActive(orders: seq<Order>, id: string, createdAt: string, tables: seq<Table>,
                                products: seq<Product>, tableId: string, items: seq<OrderItem>,
                                observations: string, userId: string)
    ensures var o := NewOrder(id, createdAt, tables, products, tableId, items, observations, userId);
            ActiveOrders(orders + [o]) == ActiveOrders(orders) + [o] &&
            CompletedOrders(orders + [o]) == CompletedOrders(orders)
  {
    var o := NewOrder(id, createdAt, tables, products, tableId, items, observations, userId);
    FilterAppend(orders, [o], IsActive);
    FilterAppend(orders, [o], IsCompleted);
    assert [o][1..] == [];
  }

  /**
   * Pressing the button of the card at position `k` (ids unique) moves that
   * order exactly one step forward and changes no other order.
   */
  lemma CardStepIsForward(orders: seq<Order>, k: int)
    requires 0 <= k < |orders|
    requires forall i, j :: 0 <= i < j < |orders| ==> orders[i].id != orders[j].id
    requires OfferedTransition(orders[k].status, true).Some?
    ensures var next := OfferedTransition(orders[k].status, true).value;
            var after := WithStatus(orders, orders[k].id, next);
            Rank(after[k].status) == Rank(orders[k].status) + 1 &&
            forall i :: 0 <= i < |orders| && i != k ==> after[i] == orders[i]
  {
    var next := OfferedTransition(orders[k].status, true).value;
    var after := WithStatus(orders, orders[k].id, next);
    forall i | 0 <= i < |orders| && i != k ensures after[i] == orders[i] {
      assert orders[i].id != orders[k].id;
      assert after[i] == after[i].(status := orders[i].status);
    }
  }
}
