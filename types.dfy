/**
 * The entities of the restaurant app: staff users, catalog products and
 * tables, orders and their lines. Money is counted in integer cents, so
 * that a total is an exact sum.
 */
module Types {

  datatype Option<+T> = None | Some(value: T)

  datatype UserRole = Admin | Waiter | Kitchen

  /** A staff member; `code` is the PIN, absent for the administrator. */
  datatype User = User(id: string, name: string, code: Option<string>, role: UserRole)

  /** A menu item; `price` is in cents. */
  datatype Product = Product(id: string, name: string, price: int, category_id: string)

  datatype Table = Table(id: string, number: int, active: bool)

  datatype OrderStatus = Pending | Preparing | Ready

  /**
   * One line of an order or of the waiter's cart. Name and price are
   * copies of the catalog entry and may be missing.
   */
  datatype OrderItem = OrderItem(
    id: Option<string>,
    order_id: Option<string>,
    product_id: string,
    product_name: Option<string>,
    product_price: Option<int>,
    quantity: int)

  datatype Order = Order(
    id: string,
    table_id: string,
    table_number: Option<int>,
    observations: string,
    status: OrderStatus,
    user_id: string,
    waiter_name: Option<string>,
    created_at: string,
    items: seq<OrderItem>)
}
