/**
 * The order entity and its status. The rules that live inside the Order class itself
 * (its initial status, validateMenuSize and changeOrderStatus) are not part of this
 * model; `OrderRules` carries them as parameters so nothing is assumed about them.
 */
module OrderDomain {
  import opened Results

  /** The constants of the OrderStatus enum. */
  datatype OrderStatus = Cooking | Meal | Completion

  /** `OrderStatus.name()`: the constant's declared name. */
  function Name(status: OrderStatus): string
  {
    match status
    case Cooking => "COOKING"
    case Meal => "MEAL"
    case Completion => "COMPLETION"
  }

  /**
   * `OrderStatus.valueOf(name)`: the constant whose name is exactly `name`, or the
   * IllegalArgumentException Java raises for any other string.
   */
  function ValueOf(name: string): (r: Result<OrderStatus>)
    ensures r.Ok? ==> Name(r.value) == name
    ensures r.Err? ==> r.error == NoEnumConstant(name)
    ensures r.Err? <==> forall s: OrderStatus :: Name(s) != name
  {
    if name == "COOKING" then Ok(Cooking)
    else if name == "MEAL" then Ok(Meal)
    else if name == "COMPLETION" then Ok(Completion)
    else Err(NoEnumConstant(name))
  }

  /** Every constant is found again by its own name. */
  lemma ValueOfName(status: OrderStatus)
    ensures ValueOf(Name(status)) == Ok(status)
  {
  }

  /** A line item snapshots a menu's name and price together with the ordered quantity. */
  datatype OrderLineItem = OrderLineItem(name: string, price: int, quantity: int)

  /** An order; `id` is null until the order store assigns one. */
  datatype Order = Order(
    id: Option<int>,
    orderTableId: int,
    orderStatus: OrderStatus,
    orderLineItems: seq<OrderLineItem>)

  /**
   * The behaviour of the Order class that the service relies on:
   * - `initialStatus`: the status the two-argument constructor gives a new order;
   * - `acceptsMenuSize(order, count)`: whether validateMenuSize lets `order` pass when
   *   told that `count` of its requested menus exist;
   * - `acceptsStatusChange(order, status)`: whether changeOrderStatus lets `order` move
   *   to `status`; when it does, the order's status becomes `status`.
   */
  datatype OrderRules = OrderRules(
    initialStatus: OrderStatus,
    acceptsMenuSize: (Order, nat) -> bool,
    acceptsStatusChange: (Order, OrderStatus) -> bool)
}
