# Restaurant ordering app: a Dafny model of its core

The app is a small restaurant front end.
- Waiters sign in with a four-digit PIN, pick an active table, build a cart of catalog products and send the order to the kitchen.
- The kitchen sees the orders split into active (pending or preparing) and ready ones. It moves each order one step along pending → preparing → ready.
- An administrator signs in by name and password.
- Each role view sends a signed-in user of another role back to the landing page.

This project models that core in Dafny:

- `types.dfy` (`Types`): the entities. These are users and roles, products, tables, order statuses, order lines and orders. Optional fields become `Option`. Prices are integer cents.
- `seqs.dfy` (`Seqs`): the two list primitives the code uses everywhere. `Find` is the first match. `Filter` keeps the matches in order.
- `routes.dfy` (`Routes`): the four views as route values and the role check each role view runs when it mounts. Navigation is the route an operation returns.
- `order_card.dfy` (`OrderCard`): the line subtotal, the order total (a left fold from zero), and the one status button a kitchen card offers. The subtotal's multiplication is written as repeated addition and proved equal to the product (`OrderCard.LineSubtotalIsProduct`). This keeps the total lemmas free of nonlinear arithmetic.
- `order_store.dfy` (`OrderStore`): the shared order list as a class `OrderBook`. It has `CreateOrder` and `UpdateOrderStatus`, both specified by pure functions (`NewOrder`, `WithStatus`).
- `kitchen.dfy` (`Kitchen`): the kitchen view's active/ready split and its status button.
- `waiter.dfy` (`Waiter`): the waiter's cart functions (`WithAdded`, `WithRemoved`) with their invariants and total lemmas. It also has the waiter's own order lists, and the order form as a class `Cart` with `SubmitOrder`.
- `pin_input.dfy` (`PinInput`): the PIN pad as a class `PinPad`. It holds a buffer of at most four digits.
- `auth.dfy` (`Auth`): the identity gate as a class `Session`. It covers PIN login, administrator login, logout and restoring the stored session.

In several places the code does less than the intended design of the system. The model follows the code:
- `createOrder` checks nothing. An empty cart or an unknown table still creates an order. A validating design would reject both.
- `updateOrderStatus` writes any status, including backwards moves (`OrderStore.WithStatusAllowsBackwards`). A forward-only rule would reject a move such as ready → pending. Only the kitchen card's button restricts moves to one step forward.
- Every new order is stamped with the waiter name "Juan Camarero", whoever creates it.
- New orders go at the end of the list, not at the front.
- The PIN pad keeps the typed PIN after a failed login.
- The built-in kitchen user has no PIN, so with the built-in directory nobody can sign in to the kitchen view (`Auth.MockKitchenHasNoPin`).

## Model

| member | source | states |
|---|---|---|
| `Seqs.Find` | src/contexts/OrderContext.tsx:54 | The result is missing exactly when no element matches. Otherwise it is the element at the first matching position. |
| `Seqs.Filter` | src/pages/Kitchen.tsx:23-28 | The result holds only matching elements, every matching element of the input, and keeps the input's order (a subsequence). |
| `Seqs.FilterCounts` | src/pages/Kitchen.tsx:23-28 | A matching element is kept exactly as many times as the input holds it; a non-matching one not at all. |
| `Seqs.FilterPartition` | src/pages/Kitchen.tsx:23-28 | Filtering by a predicate and by its negation splits the input: the two results together have the input's multiset and length. |
| `Routes.Redirect` | src/pages/Kitchen.tsx:16-20 | A role view sends a signed-in user home exactly when their role is not the view's role. Nobody signed in is never redirected. The only redirect target is home. |
| `Routes.ExactlyOneViewAdmits` | src/pages/Admin.tsx:14-18 | A signed-in user may stay on a role view exactly when it is the view for their role. |
| `Routes.RouteOfRole` | src/App.tsx:27-30 | Each role has a view whose role check is for that role. |
| `Routes.Path` | src/App.tsx:27-30 | Every view's path starts with `/`, and only the landing page is at the root `/`. |
| `Routes.PathsDistinct` | src/App.tsx:27-30 | Distinct views are mounted at distinct paths. |
| `OrderCard.PriceOrZero` | src/components/OrderCard.tsx:66 | A missing unit price counts as zero; a present one is used as it is. |
| `OrderCard.LineSubtotal` | src/components/OrderCard.tsx:66 | A line with quantity zero costs nothing, and a line with no negative price or quantity never costs less than nothing. |
| `OrderCard.LineSubtotalIsProduct` | src/components/OrderCard.tsx:66 | A line's subtotal is its unit price, zero when missing, times its quantity. |
| `OrderCard.TimesIsProduct` | src/components/OrderCard.tsx:66 | Adding a price once per unit gives the price times the count, for negative counts too. |
| `OrderCard.TotalAppend` | src/components/OrderCard.tsx:38-42 | The total of two line lists put together is the sum of their totals. |
| `OrderCard.TotalCons` | src/components/OrderCard.tsx:38-42 | The left-to-right total equals the first line's subtotal plus the total of the rest. |
| `OrderCard.Total` | src/components/OrderCard.tsx:38-42 | An order with no lines totals zero. With no negative prices or quantities, the total is not negative. The waiter's cart total (src/pages/Waiter.tsx:103-107) is the same function. |
| `OrderCard.OfferedTransition` | src/components/OrderCard.tsx:79-104 | A card with controls offers pending → preparing and preparing → ready. Every offered move is one step forward. Nothing is offered without controls or for a ready order. |
| `OrderStore.TableNumber` | src/contexts/OrderContext.tsx:54 | The table number is missing exactly when no table has the id. Otherwise it is the number of the first table with that id. |
| `OrderStore.CatalogProduct` | src/contexts/OrderContext.tsx:61 | The product is missing exactly when no catalog product has the id. Otherwise it is the first product with that id. |
| `OrderStore.SnapshotItem` | src/contexts/OrderContext.tsx:60-67 | A stored line keeps the given id, order id, product id and quantity. Its name and price come from the first catalog product with its id, and both are missing when there is no such product. |
| `OrderStore.NewOrder` | src/contexts/OrderContext.tsx:51-68 | A new order is pending and carries the given id, table, observations, user and timestamp. It has the looked-up table number, the fixed waiter name and one snapshot line per given line. |
| `OrderStore.WithStatus` | src/contexts/OrderContext.tsx:93-97 | The list keeps its length and order. An order whose id matches takes the new status. No order changes in any other field. |
| `OrderStore.WithStatusUnknownId` | src/contexts/OrderContext.tsx:93-97 | An id that matches no order leaves the list as it was. |
| `OrderStore.WithStatusIdempotent` | src/contexts/OrderContext.tsx:90-97 | Writing the same status twice gives the same list as writing it once. |
| `OrderStore.WithStatusAllowsBackwards` | src/contexts/OrderContext.tsx:90-97 | No transition rule is enforced: a ready order can be set back to pending. |
| `OrderStore.OrderBook.constructor` | src/contexts/OrderContext.tsx:30-37 | The book starts with the given tables, products and orders. |
| `OrderStore.OrderBook.CreateOrder` | src/contexts/OrderContext.tsx:48-88 | The new order is appended at the end of the list, and the earlier orders are kept in place. |
| `OrderStore.OrderBook.UpdateOrderStatus` | src/contexts/OrderContext.tsx:90-120 | The list becomes the status-rewritten list of the old one. |
| `Kitchen.ActiveOrders` | src/pages/Kitchen.tsx:23-25 | The active list is exactly the pending and preparing orders, in list order. |
| `Kitchen.CompletedOrders` | src/pages/Kitchen.tsx:28 | The ready list is exactly the ready orders, in list order. |
| `Kitchen.KitchenPartition` | src/pages/Kitchen.tsx:23-28 | Every order is in exactly one of the two lists. Together the lists hold each order as often as the order list does. |
| `Kitchen.CreatedOrderJoinsActive` | src/contexts/OrderContext.tsx:71 | A newly created order appears at the end of the active list, and the ready list is unchanged. |
| `Kitchen.CardStepIsForward` | src/components/OrderCard.tsx:86-104 | With unique ids, pressing a card's button moves that order exactly one step forward and changes no other order. |
| `Waiter.WithAdded` | src/pages/Waiter.tsx:63-84 | A product not in the catalog leaves the cart unchanged. A product already in the cart gets one more on its lines. Otherwise a new line of quantity 1, priced from the catalog, is appended. |
| `Waiter.WithRemoved` | src/pages/Waiter.tsx:87-100 | If the first line for the product has quantity above 1, its lines lose one. Otherwise every line for the product goes and the rest keep their order. An absent product changes nothing. |
| `Waiter.AddKeepsWellFormed` | src/pages/Waiter.tsx:63-84 | Adding keeps one line per product and every quantity at least 1. |
| `Waiter.RemoveKeepsWellFormed` | src/pages/Waiter.tsx:87-100 | Removing keeps one line per product and every quantity at least 1. |
| `Waiter.AddRemoveRoundTrip` | src/pages/Waiter.tsx:63-100 | On a well-formed cart, adding a catalog product and then removing it gives back the same cart. |
| `Waiter.AddKeepsCatalogPrices` | src/pages/Waiter.tsx:63-84 | Adding keeps every cart line carrying the name and price of its catalog product. |
| `Waiter.RemoveKeepsCatalogPrices` | src/pages/Waiter.tsx:87-100 | Removing keeps every cart line carrying the name and price of its catalog product. |
| `Waiter.AddRaisesTotal` | src/pages/Waiter.tsx:103-107 | Adding a catalog product raises the cart total by exactly its unit price. |
| `Waiter.RemoveLowersTotal` | src/pages/Waiter.tsx:103-107 | Removing a product that is in the cart lowers the cart total by exactly its unit price. |
| `Waiter.SubmittedLinesKeepTotal` | src/contexts/OrderContext.tsx:60-67 | Submitting a catalog-priced cart stores its lines unchanged, so the kitchen card shows the total the waiter saw. |
| `Waiter.ActiveTables` | src/pages/Waiter.tsx:42 | The tables offered are exactly the active tables, in catalog order. |
| `Waiter.MyActiveOrders` | src/pages/Waiter.tsx:51-54 | The list holds exactly the signed-in waiter's pending and preparing orders, in list order. It is empty when nobody is signed in. |
| `Waiter.MyReadyOrders` | src/pages/Waiter.tsx:57-60 | The list holds exactly the signed-in waiter's ready orders, in list order. |
| `Waiter.MyListsPartitionMyOrders` | src/pages/Waiter.tsx:51-60 | The waiter's two lists split that waiter's own orders, each order appearing as often as in the order list. |
| `Waiter.Cart.constructor` | src/pages/Waiter.tsx:19-21 | The form starts with no table, no lines and empty observations. |
| `Waiter.Cart.SelectTable` | src/pages/Waiter.tsx:145 | The chosen table becomes the selected table. |
| `Waiter.Cart.SetObservations` | src/pages/Waiter.tsx:237 | The observations field takes the typed text. |
| `Waiter.Cart.AddItem` | src/pages/Waiter.tsx:63-84 | The cart becomes its added-to version and stays well formed. |
| `Waiter.Cart.RemoveItem` | src/pages/Waiter.tsx:87-100 | The cart becomes its removed-from version and stays well formed. |
| `Waiter.Cart.SubmitEnabled` | src/pages/Waiter.tsx:250 | The submit button is enabled exactly when a table is chosen (not none, not the empty id) and the cart has a line. Who is signed in is not part of it. |
| `Waiter.Cart.SubmitOrder` | src/pages/Waiter.tsx:110-119 | An order is submitted exactly when a table is chosen, the cart is not empty and a user is signed in. Without these nothing changes. With them, the new order from the form is appended to the list and the form is reset. |
| `Waiter.CroquetasAndWater` | src/pages/Waiter.tsx:63-119 | At active table 3, two croquetas at 6.00 and one water at 1.50 make a pending order for table 3 that totals 13.50. |
| `PinInput.DigitChar` | src/components/PinInput.tsx:11-15 | A digit button appends the character of its digit. |
| `PinInput.PinPad.constructor` | src/components/PinInput.tsx:8 | The pad starts empty. |
| `PinInput.PinPad.PressDigit` | src/components/PinInput.tsx:11-15 | Below four digits the pressed digit is appended. At four digits the press is ignored. The buffer stays at most four digits. |
| `PinInput.PinPad.Backspace` | src/components/PinInput.tsx:17-19 | The last digit is dropped, and an empty buffer stays empty. |
| `PinInput.PinPad.Clear` | src/components/PinInput.tsx:21-23 | The buffer is emptied. |
| `PinInput.PinPad.Filled` | src/components/PinInput.tsx:29-38 | Box `i` is drawn filled exactly when the buffer reaches past it, and then it hides a digit. |
| `PinInput.PinPad.CanSubmit` | src/components/PinInput.tsx:97-103 | Submitting is enabled exactly when all four boxes are filled and no login is running. |
| `PinInput.PinPad.Submit` | src/components/PinInput.tsx:25-27 | The buffer goes to the PIN login and is kept afterwards. The session changes as PIN login says. |
| `PinInput.DigitChars` | src/components/PinInput.tsx:55-80 | A series of digit presses gives the string of those digits, in order. |
| `PinInput.TypeDigits` | src/components/PinInput.tsx:11-15 | After a series of presses a fresh pad holds the first four digits pressed, and submitting is enabled once four are in. |
| `Auth.Lower` | src/contexts/AuthContext.tsx:101 | Lower-casing keeps the length, leaves no capital A to Z, keeps every other character and shifts the capitals to lower case. |
| `Auth.LowerIdempotent` | src/contexts/AuthContext.tsx:101 | Lower-casing twice is lower-casing once. |
| `Auth.PinUser` | src/contexts/AuthContext.tsx:61 | The PIN finds nobody exactly when no waiter or kitchen user has that code. Otherwise it finds the first such user, who is never an administrator. |
| `Auth.AdminUser` | src/contexts/AuthContext.tsx:101 | The name finds nobody exactly when no administrator's name equals it ignoring case. Otherwise it finds the first such administrator. |
| `Auth.AdminUserIgnoresCase` | src/contexts/AuthContext.tsx:101 | A name and its lower-cased spelling find the same administrator. |
| `Auth.PinLanding` | src/contexts/AuthContext.tsx:67-71 | A waiter lands on the waiter view and a kitchen user on the kitchen view: the view meant for their role, whose role check admits them. An administrator has no PIN landing. |
| `Auth.PinLoginLandsOnOwnView` | src/contexts/AuthContext.tsx:63-71 | A successful PIN login lands on a view, and that view's role check lets the user stay. |
| `Auth.MockWaiterPins` | src/contexts/AuthContext.tsx:30-35 | With the built-in directory, PIN 1234 signs in Juan Camarero and 5678 signs in María Camarera. |
| `Auth.MockKitchenHasNoPin` | src/contexts/AuthContext.tsx:30-35 | With the built-in directory, every PIN that signs in someone signs in a waiter. |
| `Auth.MockAdminLowerName` | src/contexts/AuthContext.tsx:30-35 | With the built-in directory, "admin user" finds the administrator. |
| `Auth.MockAdminByName` | src/contexts/AuthContext.tsx:30-35 | With the built-in directory, every name whose lower-cased form is "admin user" (any mix of cases) finds the administrator. |
| `Auth.Session.constructor` | src/contexts/AuthContext.tsx:38-39 | Before restoring, nobody is signed in and the gate is loading. |
| `Auth.Session.RestoreSession` | src/contexts/AuthContext.tsx:43-55 | A stored user becomes the signed-in user. Unreadable stored data is removed. Loading ends in every case. |
| `Auth.Session.Login` | src/contexts/AuthContext.tsx:57-94 | On a PIN match the first matching user is signed in and stored, and goes to the waiter or kitchen view by role. Without a match nothing changes. Loading ends. |
| `Auth.Session.AdminLogin` | src/contexts/AuthContext.tsx:96-129 | It succeeds exactly when an administrator has the name (ignoring case) and the password is "admin". On success that administrator is signed in and stored, and goes to the admin view. On failure nothing changes. Loading ends. |
| `Auth.Session.Logout` | src/contexts/AuthContext.tsx:131-139 | Nobody is signed in, the stored session is removed and the route is home. |
| `Auth.RestartKeepsSession` | src/contexts/AuthContext.tsx:43-65 | After a successful PIN login, a restarted gate restores the same user. After a logout it restores nobody. |

## Left out

- Rendering, styling, toasts and console logging are not modelled: they do not affect state.
- The five-second polling timer in the order context is not modelled: it only logs.
- Order ids and creation timestamps come from the clock. Here they are parameters of `CreateOrder`.
- The mock catalog, tables and randomly generated sample orders (src/services/mockData.ts) are not modelled. The generation uses randomness. The book is built from given lists instead.
- The browser's storage and its JSON encoding are modelled only as what reading the entry yields: nothing, a user, or data that does not parse.
- src/lib/auth.ts and src/hooks/use-toast.ts are not part of this model.
- Asynchrony is not modelled: each operation runs to completion. The `isLoading` flag is modelled only as its value once an operation returns.
- Failures inside the try blocks of login, admin login, create and update are not modelled, and neither are their catch branches. In particular:
  - `Auth.Session.Login` and `Auth.Session.AdminLogin` do not model a failing storage write (storage full or disabled). In the code that failure leaves the user signed in with nothing stored, no navigation, and loading over. The model always stores the user and returns a route.
  - No operation models a notification (toast) call that fails.
  - `Waiter.Cart.SubmitOrder` does not model a failed `createOrder`. In the code the form is then not reset; the model always resets it.
- Prices are modelled as exact integer cents. Floating point and the two-decimal display are left out.
- The waiter view's category tabs and product filtering by category are left out: they only choose what is displayed.
- The landing page and the header are left out. The landing page holds the typed name and password it passes to `Auth.Session.AdminLogin`. Its submit button is disabled while loading or while the name or the password is empty (src/pages/Index.tsx:82); that guard is not modelled. The header only calls `Auth.Session.Logout`.
- `Auth.Lower` covers the letters A to Z only. The full Unicode lower-casing of names is not modelled.
- Navigation is modelled as the route an operation returns; the router itself is left out.
