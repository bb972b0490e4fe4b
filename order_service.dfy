/**
 * The order service: creating an order from a request after checking its table and
 * menus, changing an order's status, and listing orders. The table, menu and order
 * stores are held as values; the order store assigns ids 1, 2, 3, ... in save order.
 */
module OrderApplication {
  import opened Results
  import opened TableDomain
  import opened MenuDomain
  import opened OrderDomain

  const TableEmptyMessage := "주문테이블이 비어있습니다."
  const NotMenuMessage := "실제 메뉴가 아닙니다."

  /** One requested line: which menu, and how many. */
  datatype OrderLineItemCreateRequest = OrderLineItemCreateRequest(menuId: int, quantity: int)

  /** The request to create an order on a table. */
  datatype OrderCreateRequest = OrderCreateRequest(
    orderTableId: int,
    orderLineItems: seq<OrderLineItemCreateRequest>)

  // ---------------------------------------------------------------------------
  // The table guard

  /**
   * parseOrderTableId: the id of the stored table, failing without a message when no
   * table has that id and with the empty-table message when the table is empty.
   */
  function ParseOrderTableId(tables: map<int, OrderTable>, orderTableId: int): (r: Result<int>)
    ensures r.Ok? <==> orderTableId in tables && !tables[orderTableId].empty
    ensures orderTableId !in tables ==> r == Err(NotFound)
    ensures orderTableId in tables && tables[orderTableId].empty ==> r == Err(InvalidArgument(TableEmptyMessage))
    ensures r.Ok? && TablesKeyed(tables) ==> r.value == orderTableId
  {
    if orderTableId !in tables then Err(NotFound)
    else if tables[orderTableId].empty then Err(InvalidArgument(TableEmptyMessage))
    else Ok(tables[orderTableId].id)
  }

  // ---------------------------------------------------------------------------
  // Building line items from the menus

  /** Whether every requested menu id names a stored menu. */
  predicate AllMenusExist(menus: map<int, Menu>, requests: seq<OrderLineItemCreateRequest>)
  {
    forall i | 0 <= i < |requests| :: requests[i].menuId in menus
  }

  /**
   * mapToOrderLineItem: a line item carrying the looked-up menu's name and price and
   * the requested quantity, or the not-a-menu failure when the menu id is unknown.
   */
  function MapToOrderLineItem(menus: map<int, Menu>, request: OrderLineItemCreateRequest): (r: Result<OrderLineItem>)
    ensures r.Ok? <==> request.menuId in menus
    ensures r.Err? ==> r.error == InvalidArgument(NotMenuMessage)
    ensures r.Ok? ==> r.value.name == menus[request.menuId].name
    ensures r.Ok? ==> r.value.price == menus[request.menuId].price
    ensures r.Ok? ==> r.value.quantity == request.quantity
  {
    if request.menuId !in menus then Err(InvalidArgument(NotMenuMessage))
    else
      var menu := menus[request.menuId];
      Ok(OrderLineItem(menu.name, menu.price, request.quantity))
  }

  /**
   * The stream that maps every request through mapToOrderLineItem, in order: it fails
   * exactly when some requested menu is unknown, and otherwise yields one snapshot per
   * request, position by position.
   */
  function MapToOrderLineItems(menus: map<int, Menu>, requests: seq<OrderLineItemCreateRequest>): (r: Result<seq<OrderLineItem>>)
    ensures r.Ok? <==> AllMenusExist(menus, requests)
    ensures r.Err? ==> r.error == InvalidArgument(NotMenuMessage)
    ensures r.Ok? ==> |r.value| == |requests|
    ensures r.Ok? ==> forall i | 0 <= i < |requests| ::
      r.value[i] == OrderLineItem(menus[requests[i].menuId].name, menus[requests[i].menuId].price, requests[i].quantity)
    decreases |requests|
  {
    if requests == [] then Ok([])
    else
      match MapToOrderLineItem(menus, requests[0])
      case Err(e) => Err(e)
      case Ok(item) =>
        match MapToOrderLineItems(menus, requests[1..])
        case Err(e) => Err(e)
        case Ok(rest) => Ok([item] + rest)
  }

  // ---------------------------------------------------------------------------
  // Counting the requested menus

  /** The requested menu ids, in request order. */
  function MenuIds(requests: seq<OrderLineItemCreateRequest>): seq<int>
  {
    seq(|requests|, i requires 0 <= i < |requests| => requests[i].menuId)
  }

  /** The distinct values of a sequence of ids. */
  function IdSet(ids: seq<int>): set<int>
  {
    set i | i in ids
  }

  /** Whether no id occurs twice. */
  predicate NoDuplicates(ids: seq<int>)
  {
    forall i, j | 0 <= i < j < |ids| :: ids[i] != ids[j]
  }

  /** menuDao.countByIdIn: how many stored menus have an id among `ids`, each menu counted once. */
  function CountByIdIn(menus: map<int, Menu>, ids: seq<int>): nat
  {
    |menus.Keys * IdSet(ids)|
  }

  /** A sequence is duplicate-free exactly when its head is not repeated and its tail is duplicate-free. */
  lemma NoDuplicatesCons(ids: seq<int>)
    requires ids != []
    ensures NoDuplicates(ids) <==> ids[0] !in ids[1..] && NoDuplicates(ids[1..])
  {
  }

  /** A sequence has at most as many distinct ids as entries, and exactly as many when no id repeats. */
  lemma {:induction false} DistinctCount(ids: seq<int>)
    ensures |IdSet(ids)| <= |ids|
    ensures |IdSet(ids)| == |ids| <==> NoDuplicates(ids)
  {
    if ids == [] {
      assert IdSet(ids) == {};
    } else {
      var tail := ids[1..];
      DistinctCount(tail);
      NoDuplicatesCons(ids);
      assert IdSet(ids) == {ids[0]} + IdSet(tail) by {
        assert ids == [ids[0]] + tail;
      }
      if ids[0] in tail {
        assert IdSet(ids) == IdSet(tail);
      } else {
        assert ids[0] !in IdSet(tail);
        assert |IdSet(ids)| == |IdSet(tail)| + 1;
      }
    }
  }

  /**
   * Once every requested menu exists, countByIdIn reports the number of distinct
   * requested ids: never more than the number of requests, and equal to it exactly
   * when no menu id is requested twice.
   */
  lemma CountWhenAllKnown(menus: map<int, Menu>, ids: seq<int>)
    requires forall i | 0 <= i < |ids| :: ids[i] in menus
    ensures CountByIdIn(menus, ids) == |IdSet(ids)|
    ensures CountByIdIn(menus, ids) <= |ids|
    ensures CountByIdIn(menus, ids) == |ids| <==> NoDuplicates(ids)
  {
    assert menus.Keys * IdSet(ids) == IdSet(ids);
    DistinctCount(ids);
  }

  // ---------------------------------------------------------------------------
  // What create and changeOrderStatus decide before they save

  /** The order `create` builds once the table and the menus have been checked. */
  function Candidate(rules: OrderRules, orderTableId: int, items: seq<OrderLineItem>): Order
  {
    Order(None, orderTableId, rules.initialStatus, items)
  }

  /**
   * Everything create computes before saving. The table is checked first (it is the
   * first constructor argument), then every menu, then validateMenuSize is given the
   * count of stored menus among the requested ids. On success the order is unsaved,
   * sits on the requested table, has the initial status and one snapshot per request.
   */
  function PlanOrder(tables: map<int, OrderTable>, menus: map<int, Menu>, rules: OrderRules, request: OrderCreateRequest): (r: Result<Order>)
    requires TablesKeyed(tables)
    ensures request.orderTableId !in tables ==> r == Err(NotFound)
    ensures request.orderTableId in tables && tables[request.orderTableId].empty ==>
      r == Err(InvalidArgument(TableEmptyMessage))
    ensures (request.orderTableId in tables && !tables[request.orderTableId].empty &&
             !AllMenusExist(menus, request.orderLineItems)) ==>
      r == Err(InvalidArgument(NotMenuMessage))
    ensures (request.orderTableId in tables && !tables[request.orderTableId].empty &&
             AllMenusExist(menus, request.orderLineItems)) ==>
        (r.Ok? <==> rules.acceptsMenuSize(
          Candidate(rules, request.orderTableId, MapToOrderLineItems(menus, request.orderLineItems).value),
          CountByIdIn(menus, MenuIds(request.orderLineItems))))
    ensures (request.orderTableId in tables && !tables[request.orderTableId].empty &&
             AllMenusExist(menus, request.orderLineItems) && r.Err?) ==>
      r.error == MenuSizeRejected
    ensures r.Err? && r.error == MenuSizeRejected ==>
      request.orderTableId in tables && AllMenusExist(menus, request.orderLineItems)
    ensures r.Ok? ==> r.value.id == None
    ensures r.Ok? ==> r.value.orderTableId == request.orderTableId
    ensures r.Ok? ==> r.value.orderStatus == rules.initialStatus
    ensures r.Ok? ==> |r.value.orderLineItems| == |request.orderLineItems|
    ensures r.Ok? ==> forall i | 0 <= i < |request.orderLineItems| ::
      var line := request.orderLineItems[i];
      line.menuId in menus &&
      r.value.orderLineItems[i] == OrderLineItem(menus[line.menuId].name, menus[line.menuId].price, line.quantity)
  {
    match ParseOrderTableId(tables, request.orderTableId)
    case Err(e) => Err(e)
    case Ok(tableId) =>
      match MapToOrderLineItems(menus, request.orderLineItems)
      case Err(e) => Err(e)
      case Ok(items) =>
        var order := Candidate(rules, tableId, items);
        if rules.acceptsMenuSize(order, CountByIdIn(menus, MenuIds(request.orderLineItems))) then Ok(order)
        else Err(MenuSizeRejected)
  }

  /** Whether the order store holds every order at the position its id names (ids start at 1). */
  ghost predicate OrdersKeyed(orders: seq<Order>)
  {
    forall i | 0 <= i < |orders| :: orders[i].id == Some(i + 1)
  }

  /** orderDao.findById: the stored order with the given id, if there is one. */
  function FindOrder(orders: seq<Order>, orderId: int): (r: Option<Order>)
    requires OrdersKeyed(orders)
    ensures r.Some? <==> exists i | 0 <= i < |orders| :: orders[i].id == Some(orderId)
    ensures r.Some? ==> r.value.id == Some(orderId) && r.value in orders
  {
    if 1 <= orderId <= |orders| then Some(orders[orderId - 1]) else None
  }

  /**
   * Everything changeOrderStatus computes before saving: the order is looked up first,
   * then the status name is resolved, then the order's own rule is consulted. On
   * success the result is the stored order with only its status replaced.
   */
  function PlanStatusChange(orders: seq<Order>, rules: OrderRules, orderId: int, statusName: string): (r: Result<Order>)
    requires OrdersKeyed(orders)
    ensures FindOrder(orders, orderId).None? ==> r == Err(NotFound)
    ensures FindOrder(orders, orderId).Some? && ValueOf(statusName).Err? ==> r == Err(NoEnumConstant(statusName))
    ensures r.Ok? <==>
      FindOrder(orders, orderId).Some? && ValueOf(statusName).Ok? &&
      rules.acceptsStatusChange(FindOrder(orders, orderId).value, ValueOf(statusName).value)
    ensures FindOrder(orders, orderId).Some? && ValueOf(statusName).Ok? && r.Err? ==>
      r.error == StatusChangeRejected
    ensures r.Ok? ==> 1 <= orderId <= |orders|
    ensures r.Ok? ==> r.value.id == Some(orderId)
    ensures r.Ok? ==> Name(r.value.orderStatus) == statusName
    ensures r.Ok? ==> r.value == orders[orderId - 1].(orderStatus := r.value.orderStatus)
  {
    match FindOrder(orders, orderId)
    case None => Err(NotFound)
    case Some(order) =>
      match ValueOf(statusName)
      case Err(e) => Err(e)
      case Ok(status) =>
        if rules.acceptsStatusChange(order, status) then Ok(order.(orderStatus := status))
        else Err(StatusChangeRejected)
  }

  // ---------------------------------------------------------------------------
  // The service over its stores

  class OrderService {
    const rules: OrderRules
    var tables: map<int, OrderTable>
    var menus: map<int, Menu>
    var orders: seq<Order>

    /** Every store holds its rows under their own ids. */
    ghost predicate Valid()
      reads this
    {
      TablesKeyed(tables) && MenusKeyed(menus) && OrdersKeyed(orders)
    }

    constructor (rules: OrderRules, tables: map<int, OrderTable>, menus: map<int, Menu>, orders: seq<Order>)
      requires TablesKeyed(tables) && MenusKeyed(menus) && OrdersKeyed(orders)
      ensures Valid()
      ensures this.rules == rules && this.tables == tables && this.menus == menus && this.orders == orders
    {
      this.rules, this.tables, this.menus, this.orders := rules, tables, menus, orders;
    }

    /**
     * orderDao.save: an order without an id is appended under the next id; an order
     * with an id replaces the stored order with that id. Returns the order as stored.
     */
    method Save(order: Order) returns (saved: Order)
      requires Valid()
      requires order.id.Some? ==> 1 <= order.id.value <= |orders|
      modifies this`orders
      ensures Valid()
      ensures order.id.None? ==> saved == order.(id := Some(|old(orders)| + 1)) && orders == old(orders) + [saved]
      ensures order.id.Some? ==> saved == order && orders == old(orders)[order.id.value - 1 := order]
    {
      if order.id.None? {
        saved := order.(id := Some(|orders| + 1));
        orders := orders + [saved];
      } else {
        saved := order;
        orders := orders[order.id.value - 1 := order];
      }
    }

    /**
     * create: when any check fails the order store is unchanged and the failure is the
     * one PlanOrder names; otherwise exactly the planned order is saved under the next
     * id and returned.
     */
    method Create(request: OrderCreateRequest) returns (r: Result<Order>)
      requires Valid()
      modifies this`orders
      ensures Valid()
      ensures PlanOrder(tables, menus, rules, request).Err? ==>
        r == PlanOrder(tables, menus, rules, request) && orders == old(orders)
      ensures PlanOrder(tables, menus, rules, request).Ok? ==>
        r == Ok(PlanOrder(tables, menus, rules, request).value.(id := Some(|old(orders)| + 1))) &&
        orders == old(orders) + [r.value]
    {
      var plan := PlanOrder(tables, menus, rules, request);
      if plan.Err? {
        return plan;
      }
      var saved := Save(plan.value);
      return Ok(saved);
    }

    /** list: every stored order; the store's positional ids give them in id order. */
    method List() returns (r: seq<Order>)
      requires Valid()
      ensures r == orders
      ensures forall i | 0 <= i < |r| :: r[i].id == Some(i + 1)
    {
      r := orders;
    }

    /**
     * changeOrderStatus: when any check fails the order store is unchanged; otherwise
     * the looked-up order, with its new status, is saved back in its own place and no
     * other stored order changes.
     */
    method ChangeOrderStatus(orderId: int, statusName: string) returns (r: Result<Order>)
      requires Valid()
      modifies this`orders
      ensures Valid()
      ensures r == PlanStatusChange(old(orders), rules, orderId, statusName)
      ensures r.Err? ==> orders == old(orders)
      ensures r.Ok? ==> |orders| == |old(orders)| && orders[orderId - 1] == r.value
      ensures r.Ok? ==> forall i | 0 <= i < |orders| && i != orderId - 1 :: orders[i] == old(orders)[i]
    {
      var plan := PlanStatusChange(orders, rules, orderId, statusName);
      if plan.Err? {
        return plan;
      }
      var saved := Save(plan.value);
      return Ok(saved);
    }
  }
}
