/**
 * The kitchen's order card: the money shown for each line and for the
 * whole order, and the one status button the card offers.
 */
module OrderCard {
  import opened Types

  /** A line's unit price, with a missing price counting as zero. */
  function PriceOrZero(item: OrderItem): (r: int)
    ensures item.product_price.None? ==> r == 0
    ensures item.product_price.Some? ==> r == item.product_price.value
  {
    match item.product_price
    case Some(p) => p
    case None => 0
  }

  /**
   * `price` taken `count` times (subtracted for a negative count): the
   * product `price * count` written as repeated addition.
   */
  function Times(price: int, count: int): (r: int)
    ensures price >= 0 && count >= 0 ==> r >= 0
    decreases if count < 0 then -count else count
  {
    if count == 0 then 0
    else if count > 0 then Times(price, count - 1) + price
    else Times(price, count + 1) - price
  }

  /** Repeated addition is multiplication. */
  lemma {:induction false} TimesIsProduct(price: int, count: int)
    ensures Times(price, count) == price * count
    decreases if count < 0 then -count else count
  {
    if count > 0 {
      TimesIsProduct(price, count - 1);
    } else if count < 0 {
      TimesIsProduct(price, count + 1);
    }
  }

  /** One more of something adds its price once more. */
  lemma TimesStep(price: int, count: int)
    ensures Times(price, count + 1) == Times(price, count) + price
  {
  }

  /**
   * The amount shown beside a line: unit price times quantity
   * (`LineSubtotalIsProduct`). No units cost nothing, and a line with no
   * negative price or quantity never costs less than nothing.
   */
  function LineSubtotal(item: OrderItem): (r: int)
    ensures item.quantity == 0 ==> r == 0
    ensures PriceOrZero(item) >= 0 && item.quantity >= 0 ==> r >= 0
  {
    Times(PriceOrZero(item), item.quantity)
  }

  /** A line's subtotal is its unit price (zero when missing) times its quantity. */
  lemma LineSubtotalIsProduct(item: OrderItem)
    ensures LineSubtotal(item) == PriceOrZero(item) * item.quantity
  {
    TimesIsProduct(PriceOrZero(item), item.quantity);
  }

  /**
   * The order total, accumulated left to right as a running sum of line
   * subtotals starting at zero. The waiter's cart shows the same sum.
   * An empty order costs nothing, and with no negative prices or
   * quantities no total is negative.
   */
  function Total(items: seq<OrderItem>): (r: int)
    ensures |items| == 0 ==> r == 0
    ensures (forall i :: 0 <= i < |items| ==> PriceOrZero(items[i]) >= 0 && items[i].quantity >= 0) ==> r >= 0
  {
    if |items| == 0 then 0
    else Total(items[..|items| - 1]) + LineSubtotal(items[|items| - 1])
  }

  /** The total of two lists of lines put together is the sum of their totals. */
  lemma {:induction false} TotalAppend(a: seq<OrderItem>, b: seq<OrderItem>)
    ensures Total(a + b) == Total(a) + Total(b)
  {
    if |b| == 0 {
      assert a + b == a;
    } else {
      var b' := b[..|b| - 1];
      assert (a + b)[..|a + b| - 1] == a + b';
      assert (a + b)[|a + b| - 1] == b[|b| - 1];
      TotalAppend(a, b');
    }
  }

  /** The total of a single line is its subtotal. */
  lemma TotalSingle(x: OrderItem)
    ensures Total([x]) == LineSubtotal(x)
  {
    assert [x][..0] == [];
  }

  /** The total as a sum taken from the front: first line's subtotal plus the total of the rest. */
  lemma TotalCons(x: OrderItem, rest: seq<OrderItem>)
    ensures Total([x] + rest) == LineSubtotal(x) + Total(rest)
  {
    TotalAppend([x], rest);
    assert [x][..0] == [];
  }

  /** Position of a status in the flow pending < preparing < ready. */
  function Rank(s: OrderStatus): nat {
    match s
    case Pending => 0
    case Preparing => 1
    case Ready => 2
  }

  /**
   * The status the card's single button moves the order to. A card shown
   * without controls offers nothing, and neither does a ready order; every
   * offered move is exactly one step forward.
   */
  function OfferedTransition(status: OrderStatus, showControls: bool): (r: Option<OrderStatus>)
    ensures r.Some? ==> Rank(r.value) == Rank(status) + 1
    ensures r.None? <==> !showControls || status == Ready
  {
    if !showControls then None
    else
      match status
      case Pending => Some(Preparing)
      case Preparing => Some(Ready)
      case Ready => None
  }
}
