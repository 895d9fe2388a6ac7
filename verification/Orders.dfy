/** Creating, canceling and expiring orders, each as one transaction on the tables. */
module Orders {
  import opened Wrappers
  import opened Summation
  import opened Inventory
  import opened Tables

  // ------------------------------------------------------------------ create

  predicate ValidItems(items: seq<ItemAsk>) {
    && |items| > 0
    && (forall i :: 0 <= i < |items| ==> 0 < items[i].quantity <= MAX_SAFE_INTEGER)
    && (forall i, j :: 0 <= i < j < |items| ==> items[i].sku != items[j].sku)
  }

  predicate ValidOrderRequest(request: OrderRequest) {
    && ValidKey(request.key)
    && ValidItems(request.items)
    && FitsMoney(request.discount) && FitsMoney(request.shippingFee)
  }

  predicate OnSale(catalogue: map<nat, Variant>, sku: nat) {
    sku in catalogue && catalogue[sku].active
  }

  function Snapshot(catalogue: map<nat, Variant>, asks: seq<ItemAsk>): (items: seq<OrderItem>)
    requires forall i :: 0 <= i < |asks| ==> asks[i].sku in catalogue
    requires forall i :: 0 <= i < |asks| ==> asks[i].quantity > 0
    ensures |items| == |asks|
    ensures forall i :: 0 <= i < |asks| ==>
      items[i] == OrderItem(asks[i].sku, catalogue[asks[i].sku].price, asks[i].quantity)
  {
    seq(|asks|, i requires 0 <= i < |asks| =>
      OrderItem(asks[i].sku, catalogue[asks[i].sku].price, asks[i].quantity))
  }

  const LineTotal := (it: OrderItem) => it.unitPrice * it.quantity

  function Subtotal(items: seq<OrderItem>): int {
    Sum(items, LineTotal)
  }

  /** The timeout setting, kept between one minute and one day. */
  function ExpiresAt(now: int, timeoutMinutes: int): int {
    now + (if timeoutMinutes < 1 then 1 else if timeoutMinutes > 1440 then 1440 else timeoutMinutes) * 60_000
  }

  function NewOrder(request: OrderRequest, items: seq<OrderItem>, expiresAt: int): Order {
    Order(request, Pending, items, Subtotal(items),
          Subtotal(items) - request.discount + request.shippingFee, expiresAt)
  }

  /** The column widths a new order must respect. */
  predicate FitsColumns(order: Order) {
    && FitsMoney(order.subtotal) && FitsMoney(order.total)
    && forall i :: 0 <= i < |order.items| ==>
      FitsInteger(order.items[i].quantity) && FitsMoney(order.items[i].unitPrice * order.items[i].quantity)
  }

  predicate Lockable(ledger: seq<Row>, asks: seq<ItemAsk>) {
    forall i :: 0 <= i < |asks| ==>
      Refusal(Lock, asks[i].quantity, BalanceOf(ledger, asks[i].sku)).None?
  }

  /** One ledger row of an order for each of its items. */
  function OrderRows(items: seq<OrderItem>, orderId: nat, kind: EntryType, sign: int): (rows: seq<Row>)
    ensures |rows| == |items|
    ensures forall i :: 0 <= i < |items| ==>
      rows[i] == Row(Key(items[i].sku, kind, "order", orderId), sign * items[i].quantity)
  {
    if |items| == 0 then []
    else
      var n := |items| - 1;
      OrderRows(items[..n], orderId, kind, sign) +
      [Row(Key(items[n].sku, kind, "order", orderId), sign * items[n].quantity)]
  }

  function CreateOrder(db: Db, request: OrderRequest, now: int, timeoutMinutes: int): Outcome {
    if !ValidOrderRequest(request) then Throw(db, Conflict)
    else
      match Find(db.orders, OrderKeyed(request.key))
      case Some(i) =>
        if db.orders[i].request == request then Return(db, i) else Throw(db, Conflict)
      case None =>
        if !(forall i :: 0 <= i < |request.items| ==> OnSale(db.catalogue, request.items[i].sku)) then
          Throw(db, NotFound)
        else if !Lockable(db.ledger, request.items) then Throw(db, Conflict)
        else
          assert forall i :: 0 <= i < |request.items| ==> OnSale(db.catalogue, request.items[i].sku);
          AddOrder(db, NewOrder(request, Snapshot(db.catalogue, request.items), ExpiresAt(now, timeoutMinutes)))
  }

  /** The writes of a new order, once its request is accepted. */
  function AddOrder(db: Db, order: Order): Outcome {
    if order.total < 0 then Throw(db, Conflict)
    else if !FitsColumns(order) then Throw(db, Constraint)
    else
      match Insert(db.ledger, OrderRows(order.items, |db.orders|, Lock, -1))
      case None => Throw(db, Constraint)
      case Some(ledger) => Return(db.(ledger := ledger, orders := db.orders + [order]), |db.orders|)
  }

  // -------------------------------------------------------- cancel and expire

  function WithStatus(orders: seq<Order>, id: nat, status: OrderStatus): seq<Order>
    requires id < |orders|
  {
    orders[id := orders[id].(status := status)]
  }

  /** Releases every line of an order and moves it to its closing status. */
  function CloseOrder(db: Db, id: nat, status: OrderStatus): Outcome
    requires id < |db.orders|
  {
    match Insert(db.ledger, OrderRows(db.orders[id].items, id, Unlock, 1))
    case None => Throw(db, Constraint)
    case Some(ledger) => Return(db.(ledger := ledger, orders := WithStatus(db.orders, id, status)), 1)
  }

  function CancelOrder(db: Db, id: nat): Outcome {
    if id >= |db.orders| then Throw(db, NotFound)
    else if !OrderStep(db.orders[id].status, Canceled) then Throw(db, Conflict)
    else CloseOrder(db, id, Canceled)
  }

  predicate Due(order: Order, now: int) {
    order.status.Pending? && order.expiresAt <= now
  }

  /** Returns 1 when the order was closed by this call and 0 when there was nothing to do. */
  function ExpireOrder(db: Db, id: nat, now: int): Outcome {
    if id >= |db.orders| || !Due(db.orders[id], now) then Return(db, 0)
    else CloseOrder(db, id, Expired)
  }

  // ---------------------------------------------------------- the expiry scan

  /** Expires earlier, or at the same time and has the lower identifier. */
  predicate Before(orders: seq<Order>, i: nat, j: nat)
    requires i < |orders| && j < |orders|
  {
    orders[i].expiresAt < orders[j].expiresAt || (orders[i].expiresAt == orders[j].expiresAt && i < j)
  }

  /** The answer of the scan: the earliest orders that are due, in order, as far as the limit reaches. */
  ghost predicate IsScan(orders: seq<Order>, candidates: seq<nat>, limit: int, now: int) {
    && |candidates| <= PageSize(limit)
    && (forall k :: 0 <= k < |candidates| ==> candidates[k] < |orders| && Due(orders[candidates[k]], now))
    && (forall j, k :: 0 <= j < k < |candidates| ==> Before(orders, candidates[j], candidates[k]))
    && (forall o :: 0 <= o < |orders| && Due(orders[o], now) && o !in candidates ==>
          |candidates| == PageSize(limit) && forall k :: 0 <= k < |candidates| ==> Before(orders, candidates[k], o))
  }

  /** The tables after a sweep over the scan, and the orders it closed; an error ends the sweep. */
  datatype Sweep = Sweep(db: Db, result: Result<seq<nat>>)

  /** The first `n` candidates, one transaction each. */
  function ExpireAll(db: Db, candidates: seq<nat>, n: nat, now: int): Sweep
    requires n <= |candidates|
  {
    if n == 0 then Sweep(db, Ok([]))
    else
      var before := ExpireAll(db, candidates, n - 1, now);
      if before.result.Err? then before
      else
        var outcome := ExpireOrder(before.db, candidates[n - 1], now);
        match outcome.result
        case Err(e) => Sweep(outcome.db, Err(e))
        case Ok(closed) =>
          Sweep(outcome.db, Ok(if closed == 1 then before.result.value + [candidates[n - 1]] else before.result.value))
  }
}
