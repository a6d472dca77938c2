/**
 * The orders service's store: the global `orders` slice and the handlers
 * that search, list, append to, update and delete from it.
 *
 * `OrderStore` holds the slice as a sequence field; the handlers that change
 * it are methods with `modifies`, the ones that only read it are methods
 * whose results are tied to the specification functions below. Prices are
 * kept as reals and used only in the `> 0` check; the order total is not
 * modelled. The clock string and the random bytes for new ids are
 * parameters.
 */
module Orders {
  import opened Uuid

  datatype OrderItem = OrderItem(productId: string, quantity: int, price: real)

  datatype Order = Order(
    id: string, userId: string, items: seq<OrderItem>,
    status: string, createdAt: string, updatedAt: string)

  datatype CreateOrderRequest = CreateOrderRequest(userId: string, items: seq<OrderItem>)

  /** Why a request was refused; each reason has its own message in the source. */
  datatype OrderError = UserIdRequired | ItemsRequired | InvalidItem | InvalidStatus | OrderNotFound

  datatype Result<T> = Ok(value: T) | Err(error: OrderError)

  /** The `code` each refusal is sent with. */
  function ErrorCode(e: OrderError): string {
    if e == OrderNotFound then "ORDER_NOT_FOUND" else "VALIDATION_ERROR"
  }

  /** The HTTP status each refusal is sent with. */
  function HttpStatus(e: OrderError): int {
    if e == OrderNotFound then 404 else 400
  }

  /** The whitelist of `updateOrderHandler`. */
  const ValidStatuses: set<string> := {"pending", "confirmed", "shipped", "delivered", "cancelled"}

  /** What `createOrderHandler` demands of each item. */
  predicate ValidItem(item: OrderItem) {
    item.productId != "" && item.quantity > 0 && item.price > 0.0
  }

  /** An order as the handlers create and keep it. */
  ghost predicate WellFormed(o: Order) {
    && o.status in ValidStatuses
    && o.userId != ""
    && |o.items| > 0
    && forall k | 0 <= k < |o.items| :: ValidItem(o.items[k])
  }

  /** Index of the first order with this id, or -1: what `findOrderByID` returns. */
  function FirstIndex(orders: seq<Order>, id: string): (i: int)
    ensures -1 <= i < |orders|
    ensures i == -1 <==> forall k | 0 <= k < |orders| :: orders[k].id != id
    ensures 0 <= i ==> orders[i].id == id && forall k | 0 <= k < i :: orders[k].id != id
    decreases |orders|
  {
    if orders == [] then -1
    else if orders[0].id == id then 0
    else
      var j := FirstIndex(orders[1..], id);
      if j == -1 then -1 else j + 1
  }

  /** `append(orders[:k], orders[k+1:]...)`. */
  function RemoveAt(orders: seq<Order>, k: nat): (r: seq<Order>)
    requires k < |orders|
    ensures |r| == |orders| - 1
    ensures forall j | 0 <= j < k :: r[j] == orders[j]
    ensures forall j | k <= j < |r| :: r[j] == orders[j + 1]
    ensures multiset(r) + multiset{orders[k]} == multiset(orders)
  {
    assert orders == orders[..k] + [orders[k]] + orders[k + 1..];
    orders[..k] + orders[k + 1..]
  }

  /** Whether `listOrdersHandler` keeps an order under this `status` query parameter. */
  predicate Keep(o: Order, statusFilter: string) {
    statusFilter == "" || o.status == statusFilter
  }

  /** The orders `listOrdersHandler` returns, in their stored order. */
  function Filter(orders: seq<Order>, statusFilter: string): (r: seq<Order>)
    ensures |r| <= |orders|
    ensures forall o | o in r :: o in orders && Keep(o, statusFilter)
    decreases |orders|
  {
    if orders == [] then []
    else
      var last := orders[|orders| - 1];
      Filter(orders[..|orders| - 1], statusFilter) + if Keep(last, statusFilter) then [last] else []
  }

  /** The filter keeps every copy of every matching order and nothing else. */
  lemma {:induction false} FilterCounts(orders: seq<Order>, statusFilter: string, o: Order)
    ensures multiset(Filter(orders, statusFilter))[o] ==
      if Keep(o, statusFilter) then multiset(orders)[o] else 0
    decreases |orders|
  {
    if orders != [] {
      var init, last := orders[..|orders| - 1], orders[|orders| - 1];
      assert orders == init + [last];
      FilterCounts(init, statusFilter, o);
    }
  }

  /** With no `status` parameter every order is listed. */
  lemma {:induction false} FilterAll(orders: seq<Order>)
    ensures Filter(orders, "") == orders
    decreases |orders|
  {
    if orders != [] {
      FilterAll(orders[..|orders| - 1]);
      assert orders == orders[..|orders| - 1] + [orders[|orders| - 1]];
    }
  }

  /** The item loop of `createOrderHandler`: every item passes, or the request is refused. */
  method CheckItems(items: seq<OrderItem>) returns (ok: bool)
    ensures ok <==> forall k | 0 <= k < |items| :: ValidItem(items[k])
  {
    for i := 0 to |items|
      invariant forall k | 0 <= k < i :: ValidItem(items[k])
    {
      var item := items[i];
      if item.productId == "" || item.quantity <= 0 || item.price <= 0.0 {
        return false;
      }
    }
    return true;
  }

  class OrderStore {
    var orders: seq<Order>

    ghost predicate Valid()
      reads this
    {
      forall k | 0 <= k < |orders| :: WellFormed(orders[k])
    }

    /** An empty store; the seed fixture is not modelled. */
    constructor ()
      ensures Valid() && orders == []
    {
      orders := [];
    }

    /** `findOrderByID`: a linear scan for the first order with this id; the pointer it also returns is `orders[idx]`. */
    method FindOrderById(id: string) returns (idx: int)
      ensures -1 <= idx < |orders|
      ensures idx == -1 <==> forall k | 0 <= k < |orders| :: orders[k].id != id
      ensures 0 <= idx ==> orders[idx].id == id && forall k | 0 <= k < idx :: orders[k].id != id
      ensures idx == FirstIndex(orders, id)
    {
      for i := 0 to |orders|
        invariant forall k | 0 <= k < i :: orders[k].id != id
      {
        if orders[i].id == id {
          return i;
        }
      }
      return -1;
    }

    /** `listOrdersHandler`: the orders kept by the filter, and their number as `total`. */
    method ListOrders(statusFilter: string) returns (result: seq<Order>, total: int)
      ensures result == Filter(orders, statusFilter)
      ensures total == |result|
    {
      result := [];
      for i := 0 to |orders|
        invariant result == Filter(orders[..i], statusFilter)
      {
        var o := orders[i];
        assert orders[..i + 1][..i] == orders[..i];
        if statusFilter == "" || o.status == statusFilter {
          result := result + [o];
        }
      }
      assert orders[..|orders|] == orders;
      total := |result|;
    }

    /** `getOrderHandler`. */
    method GetOrder(id: string) returns (r: Result<Order>)
      ensures r.Err? <==> forall k | 0 <= k < |orders| :: orders[k].id != id
      ensures r.Err? ==> r.error == OrderNotFound
      ensures r.Ok? ==> r.value == orders[FirstIndex(orders, id)] && r.value.id == id
    {
      var idx := FindOrderById(id);
      if idx == -1 {
        return Err(OrderNotFound);
      }
      r := Ok(orders[idx]);
    }

    /** `createOrderHandler`: validate, then append a pending order with a version 4 id. */
    method CreateOrder(req: CreateOrderRequest, random: seq<bv8>, now: string) returns (r: Result<Order>)
      requires Valid() && |random| == 16
      modifies this
      ensures Valid()
      ensures req.userId == "" ==> r == Err(UserIdRequired)
      ensures req.userId != "" && req.items == [] ==> r == Err(ItemsRequired)
      ensures req.userId != "" && req.items != [] && (exists k | 0 <= k < |req.items| :: !ValidItem(req.items[k])) ==>
        r == Err(InvalidItem)
      ensures r.Ok? <==>
        req.userId != "" && req.items != [] && forall k | 0 <= k < |req.items| :: ValidItem(req.items[k])
      ensures r.Err? ==> orders == old(orders)
      ensures r.Err? ==> ErrorCode(r.error) == "VALIDATION_ERROR" && HttpStatus(r.error) == 400
      ensures r.Ok? ==>
        && r.value == Order(GenerateUuid(random), req.userId, req.items, "pending", now, now)
        && orders == old(orders) + [r.value]
    {
      if req.userId == "" {
        return Err(UserIdRequired);
      }
      if |req.items| == 0 {
        return Err(ItemsRequired);
      }
      var ok := CheckItems(req.items);
      if !ok {
        return Err(InvalidItem);
      }
      var order := Order(GenerateUuid(random), req.userId, req.items, "pending", now, now);
      orders := orders + [order];
      r := Ok(order);
    }

    /**
     * `updateOrderHandler`: a non-empty status outside the whitelist is
     * refused before the store is searched; otherwise the first order with
     * this id gets the new status (an empty one keeps the old) and the new
     * update time.
     */
    method UpdateOrder(id: string, status: string, now: string) returns (r: Result<Order>)
      requires Valid()
      modifies this
      ensures Valid()
      ensures |orders| == |old(orders)|
      ensures r.Ok? <==> (status == "" || status in ValidStatuses) && FirstIndex(old(orders), id) != -1
      ensures r.Err? ==> orders == old(orders)
      ensures status != "" && status !in ValidStatuses ==> r == Err(InvalidStatus) && orders == old(orders)
      ensures (status == "" || status in ValidStatuses) && FirstIndex(old(orders), id) == -1 ==>
        r == Err(OrderNotFound) && orders == old(orders)
      ensures r.Ok? ==>
        var k := FirstIndex(old(orders), id);
        && 0 <= k
        && orders == old(orders)[k := r.value]
        && r.value == old(orders)[k].(status := if status == "" then old(orders)[k].status else status, updatedAt := now)
    {
      if status != "" && status !in ValidStatuses {
        return Err(InvalidStatus);
      }
      var idx := FindOrderById(id);
      if idx == -1 {
        return Err(OrderNotFound);
      }
      if status != "" {
        orders := orders[idx := orders[idx].(status := status)];
      }
      orders := orders[idx := orders[idx].(updatedAt := now)];
      r := Ok(orders[idx]);
    }

    /** `deleteOrderHandler`: splice out the first order with this id. */
    method DeleteOrder(id: string) returns (r: Result<()>)
      requires Valid()
      modifies this
      ensures Valid()
      ensures r.Err? <==> FirstIndex(old(orders), id) == -1
      ensures r.Err? ==> r.error == OrderNotFound && orders == old(orders)
      ensures r.Ok? ==> orders == RemoveAt(old(orders), FirstIndex(old(orders), id))
    {
      var idx := FindOrderById(id);
      if idx == -1 {
        return Err(OrderNotFound);
      }
      orders := orders[..idx] + orders[idx + 1..];
      r := Ok(());
    }
  }
}
