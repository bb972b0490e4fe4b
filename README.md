# kitchenpos order and product rules in Dafny

This project models two pieces of the kitchenpos restaurant point-of-sale backend.

- **Product** is a record with a validating constructor. A price that is null or below
  zero is refused with "가격은 양의 정수만 들어올 수 있습니다.". Otherwise the id, name
  and price are stored. The setters each overwrite one field and do no checking.
- **OrderService** creates orders, changes an order's status and lists orders, over
  the order-table, menu and order stores.
  - `create` checks the table first: it must exist, and it must not be empty
    ("주문테이블이 비어있습니다."). It then looks up every requested menu
    ("실제 메뉴가 아닙니다." if one is unknown) and snapshots each menu's name and price
    into a line item. It then hands `validateMenuSize` the number of stored menus among
    the requested ids, and saves the order only if every step passed.
  - `changeOrderStatus` looks the order up, resolves the status name with
    `OrderStatus.valueOf`, asks the order to change and saves it back.

Modules, one per source component:

- `Results` (`results.dfy`): `Option` (a Java null), `Result`, and `Error`. `Error` records
  which guard raised the failure. The service's own guards and `valueOf` raise
  IllegalArgumentException; the exception type raised inside `Order` is not part of this model.
- `ProductDomain` (`product.dfy`): class `Product` with mutable `id`, `name`, `price`.
  The throwing constructors become `New` / `NewWithoutId`, which return a `Result`.
- `TableDomain`, `MenuDomain` (`table.dfy`, `menu.dfy`): the parts of an order table and a
  menu that the order service reads.
- `OrderDomain` (`order_domain.dfy`): `OrderStatus` with `Name`/`ValueOf`, `Order`,
  `OrderLineItem`, and `OrderRules`.
  - `OrderRules` stands for the behaviour of `kitchenpos/order/domain/Order.java`, which
    is not part of this model.
  - It holds the initial status, the `validateMenuSize` acceptance test and the
    `changeOrderStatus` acceptance test as parameters, so nothing about them is assumed.
- `OrderApplication` (`order_service.dfy`):
  - pure functions for the guards and the line-item mapping;
  - `PlanOrder` and `PlanStatusChange`, which specify what `create` and `changeOrderStatus`
    decide before saving;
  - class `OrderService`, which holds the stores and whose methods save.
  - Tables and menus are `map`s keyed by id. Orders are a `seq` in which the order with
    id `k` sits at position `k - 1`, since the store assigns ids 1, 2, 3, … in save order.

The model assumes neither that a new order starts as COOKING nor that COMPLETION is
terminal: both are decided in `Order.java`, so both are parameters.

## Model

| member | source | states |
|---|---|---|
| `ProductDomain.New` | src/main/java/kitchenpos/product/domain/Product.java:14-21 | fails with the price message exactly when the price is null or below zero (so zero is accepted); otherwise a new product holding exactly the given id, name and price |
| `ProductDomain.NewWithoutId` | src/main/java/kitchenpos/product/domain/Product.java:23-25 | the same failure condition and message as the three-argument constructor; on success the id is null and name and price are the given ones |
| `ProductDomain.Product.Init` | src/main/java/kitchenpos/product/domain/Product.java:18-20 | once the price guard has passed, the fields are exactly the arguments and the price is non-negative |
| `ProductDomain.Product.Blank` | src/main/java/kitchenpos/product/domain/Product.java:11-12 | the no-argument constructor leaves id, name and price null |
| `ProductDomain.Product.SetId` | src/main/java/kitchenpos/product/domain/Product.java:31-33 | replaces the id only; name and price are unchanged |
| `ProductDomain.Product.SetName` | src/main/java/kitchenpos/product/domain/Product.java:39-41 | replaces the name only; id and price are unchanged |
| `ProductDomain.Product.SetPrice` | src/main/java/kitchenpos/product/domain/Product.java:47-49 | replaces the price only, with no validation; id and name are unchanged |
| `ProductDomain.SetPriceEscapesGuard` | src/main/java/kitchenpos/product/domain/Product.java:47-49 | for every id, name and accepted price and every refused price (negative or null), the product the constructor accepts holds the refused price after `setPrice`, with its id and name kept, so the price check is not an invariant of the class |
| `OrderDomain.ValueOf` | src/main/java/kitchenpos/order/application/OrderService.java:70 | `OrderStatus.valueOf` returns a constant whose name is the given string, and fails exactly when no constant has that name |
| `OrderDomain.ValueOfName` | src/main/java/kitchenpos/order/application/OrderService.java:70 | every status is found again from its own name |
| `OrderApplication.ParseOrderTableId` | src/main/java/kitchenpos/order/application/OrderService.java:52-59 | succeeds exactly when the table exists and is not empty; a missing table fails without a message, an empty one with the empty-table message; the id returned is the requested one when the store is keyed by id |
| `OrderApplication.MapToOrderLineItem` | src/main/java/kitchenpos/order/application/OrderService.java:74-78 | succeeds exactly when the menu exists, failing with the not-a-menu message otherwise; the item carries the menu's name and price and the requested quantity |
| `OrderApplication.MapToOrderLineItems` | src/main/java/kitchenpos/order/application/OrderService.java:41-44 | fails exactly when some requested menu is unknown; otherwise one item per request, in request order, each a snapshot of its menu with the request's quantity |
| `OrderApplication.CountWhenAllKnown` | src/main/java/kitchenpos/order/application/OrderService.java:45-48 | once every requested menu exists, the count given to `validateMenuSize` is the number of distinct requested ids: at most the number of requests, and equal to it exactly when no menu id repeats |
| `OrderApplication.PlanOrder` | src/main/java/kitchenpos/order/application/OrderService.java:38-48 | a missing or empty table is reported before any menu is looked up; then an unknown menu fails; then the menu-size rule decides, and its rejection is the menu-size failure; a successful order is unsaved, on the requested table, in the initial status, with one snapshot per request |
| `OrderApplication.FindOrder` | src/main/java/kitchenpos/order/application/OrderService.java:67-68 | finds an order exactly when some stored order has that id, and the order found carries that id |
| `OrderApplication.PlanStatusChange` | src/main/java/kitchenpos/order/application/OrderService.java:66-70 | an unknown order fails first, then an unknown status name, then the order's own rule, whose rejection is the status-change failure; success is the stored order with only its status replaced by the named one |
| `OrderApplication.OrderService.constructor` | src/main/java/kitchenpos/order/application/OrderService.java:25-35 | the service starts over the given stores and rules |
| `OrderApplication.OrderService.Save` | src/main/java/kitchenpos/order/application/OrderService.java:49 | a new order is appended under the next id; an order with an id replaces the stored order with that id |
| `OrderApplication.OrderService.Create` | src/main/java/kitchenpos/order/application/OrderService.java:37-50 | on any failure the order store is unchanged; on success exactly the planned order is saved under the next id and returned |
| `OrderApplication.OrderService.List` | src/main/java/kitchenpos/order/application/OrderService.java:61-63 | returns every stored order; the order of the list follows from the model's positional store, not from the source |
| `OrderApplication.OrderService.ChangeOrderStatus` | src/main/java/kitchenpos/order/application/OrderService.java:65-72 | the result is the planned status change; on failure nothing changes; on success the order is saved in its own place and no other stored order changes |

## Left out

- `getId`, `getName`, `getPrice` and the request getters are reads of public fields in the model.
- Prices are whole numbers of the smallest currency unit rather than `BigDecimal`. The code only compares a price with zero and copies it.
- Ids, quantities, the status name and the request's line-item list are never null in the model. In the source a null status name or a null line-item list throws NullPointerException rather than IllegalArgumentException; that path and null ids are not modelled.
- OrderApplication.MapToOrderLineItem: `OrderLineItem.java` is not part of this model; its constructor is taken to accept every name, price and quantity, negative quantities included. A check it might make would be a further failure of `create` that the model does not have.
- `Order.java` is not part of this model. Its constructor's initial status, `validateMenuSize` and the acceptance test of `changeOrderStatus` are parameters (`OrderRules`). When a change is accepted, the order's status becomes the requested one. Any other check inside the `Order` constructor is not modelled.
- `OrderStatus.java` is not part of this model. Its constants are taken to be COOKING, MEAL and COMPLETION.
- The ordered time set at order creation comes from the clock and is not modelled.
- Line items are stored as part of their order value. The separate line-item rows, their ids and the re-attachment to the order id done by the JDBC repositories are not modelled.
- OrderApplication.OrderService.ChangeOrderStatus: the order repository writes new line-item rows on every save. If the line-item store inserts on each write, a status change leaves the order with a second copy of its line items when it is read back. The model keeps the line items unchanged and does not capture this.
- OrderApplication.OrderService.List: the source returns orders in whatever row order the store gives. The id order stated in the model comes from the positional order store.
- The order store assigns ids 1, 2, 3, … in save order. The database's own id generation is not modelled.
- Order tables keep only their id and empty flag, and menus only their id, name and price. Guest counts, table groups, menu groups and menu products play no part in these operations.
- The product store (`ProductDao`), the table, table-group, menu and menu-group services and the web layer are not part of this model.
- Transactions, rollback across several saves, and concurrent requests are not modelled. Each operation runs alone and saves at most one order.
