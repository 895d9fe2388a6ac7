/** What placing, cancelling and expiring an order promise, in terms of the request and the tables alone. */
module OrderPromises {
  import opened Wrappers
  import opened Summation
  import opened Inventory
  import opened Tables
  import opened Orders
  import opened Payments
  import opened Refunds
  import opened Shipments
  import opened Steps
  import opened Books
  import opened Runs
  import opened Stock
  import opened Causes
  import opened ReservedKeys
  import Text

  // ------------------------------------------------------------- placing an order

  /** The price list's total for a request. */
  function ListTotal(catalogue: map<nat, Variant>, asks: seq<ItemAsk>): int {
    if |asks| == 0 then 0
    else
      var last := asks[|asks| - 1];
      ListTotal(catalogue, asks[..|asks| - 1]) +
      if last.sku in catalogue then catalogue[last.sku].price * last.quantity else 0
  }

  /** The SKU is on sale and that many units are on hand and not locked. */
  predicate InStock(db: Db, ask: ItemAsk) {
    && ask.sku in db.catalogue && db.catalogue[ask.sku].active
    && 0 < ask.quantity <= OnHand(db.ledger, ask.sku) - Locked(db.ledger, ask.sku)
  }

  /** The widths of the integer and decimal columns. */
  predicate LineFits(catalogue: map<nat, Variant>, ask: ItemAsk) {
    ask.quantity <= 0x7FFF_FFFF &&
    (ask.sku in catalogue ==> catalogue[ask.sku].price * ask.quantity < 1_000_000_000_000)
  }

  predicate WellFormed(request: OrderRequest) {
    && Text.Trim(request.key) != "" && |request.key| <= 100
    && |request.items| > 0
    && (forall i, j :: 0 <= i < j < |request.items| ==> request.items[i].sku != request.items[j].sku)
    && request.discount < 1_000_000_000_000 && request.shippingFee < 1_000_000_000_000
  }

  ghost predicate FreshKey(db: Db, key: string) {
    forall o :: 0 <= o < |db.orders| ==> db.orders[o].request.key != key
  }

  ghost predicate LocksFree(db: Db, request: OrderRequest) {
    forall i :: 0 <= i < |request.items| ==>
      !KeyUsed(db.ledger, Key(request.items[i].sku, Lock, "order", |db.orders|))
  }

  lemma {:induction false} SnapshotCosts(catalogue: map<nat, Variant>, asks: seq<ItemAsk>)
    requires forall i :: 0 <= i < |asks| ==> asks[i].sku in catalogue && asks[i].quantity > 0
    ensures Subtotal(Snapshot(catalogue, asks)) == ListTotal(catalogue, asks) >= 0
  {
    if |asks| > 0 {
      var n := |asks| - 1;
      SnapshotCosts(catalogue, asks[..n]);
      var items := Snapshot(catalogue, asks);
      assert items[..n] == Snapshot(catalogue, asks[..n]);
      assert items == items[..n] + [items[n]];
      Append(items[..n], items[n], LineTotal);
    }
  }

  lemma KeyIsFree(db: Db, key: string)
    requires FreshKey(db, key)
    ensures Find(db.orders, OrderKeyed(key)).None?
  {
  }

  /** The write of a priced order: accepted iff it fits its columns and its lock keys are free. */
  lemma AddingIsAcceptedIff(db: Db, order: Order)
    requires forall i :: 0 <= i < |order.items| ==> order.items[i].quantity > 0
    requires forall i, j :: 0 <= i < j < |order.items| ==> order.items[i].sku != order.items[j].sku
    requires order.subtotal >= 0
    ensures AddOrder(db, order).result.Ok? <==>
              && 0 <= order.total < 1_000_000_000_000 && order.subtotal < 1_000_000_000_000
              && (forall i :: 0 <= i < |order.items| ==>
                    && order.items[i].quantity <= 0x7FFF_FFFF
                    && order.items[i].unitPrice * order.items[i].quantity < 1_000_000_000_000
                    && !KeyUsed(db.ledger, Key(order.items[i].sku, Lock, "order", |db.orders|)))
  {
    hide KeyUsed;
    var rows := OrderRows(order.items, |db.orders|, Lock, -1);
    assert forall i | 0 <= i < |rows| ::
      rows[i] == Row(Key(order.items[i].sku, Lock, "order", |db.orders|), -(order.items[i].quantity as int));
    LockRowsFit(order, |db.orders|);
  }

  lemma LockRowsFit(order: Order, id: nat)
    requires forall i :: 0 <= i < |order.items| ==> order.items[i].quantity > 0
    ensures FitsColumns(order) ==>
              forall i :: 0 <= i < |order.items| ==> FitsInteger(-1 * order.items[i].quantity)
  {
  }

  /** What a request under a fresh key must meet, in terms of price list and ledger. */
  ghost predicate Accepts(db: Db, request: OrderRequest) {
    && WellFormed(request)
    && (forall i :: 0 <= i < |request.items| ==>
          InStock(db, request.items[i]) && LineFits(db.catalogue, request.items[i]))
    && ListTotal(db.catalogue, request.items) < 1_000_000_000_000
    && 0 <= ListTotal(db.catalogue, request.items) - request.discount + request.shippingFee < 1_000_000_000_000
    && LocksFree(db, request)
  }

  /**
   With a fresh key an order is accepted iff the request is well formed, every SKU is on sale and in stock,
   the total at list prices less discount plus fee is not negative, and the columns and lock keys allow it.
   */
  lemma OrderIsAcceptedIff(db: Db, request: OrderRequest, now: int, timeout: int)
    requires FreshKey(db, request.key)
    ensures CreateOrder(db, request, now, timeout).result.Ok? <==> Accepts(db, request)
  {
    hide AddOrder; hide KeyUsed; hide OnHand; hide Locked; hide Text.Trim; hide Find; hide ListTotal;
    KeyIsFree(db, request.key);
    if ValidOrderRequest(request) && forall i :: 0 <= i < |request.items| ==> OnSale(db.catalogue, request.items[i].sku) {
      assert forall i :: 0 <= i < |request.items| ==> OnSale(db.catalogue, request.items[i].sku);
      SnapshotCosts(db.catalogue, request.items);
      var items := Snapshot(db.catalogue, request.items);
      AddingIsAcceptedIff(db, NewOrder(request, items, ExpiresAt(now, timeout)));
      LockableMeans(db, request.items);
    }
  }

  lemma LockableMeans(db: Db, asks: seq<ItemAsk>)
    requires forall i :: 0 <= i < |asks| ==> 0 < asks[i].quantity <= MAX_SAFE_INTEGER
    ensures Lockable(db.ledger, asks) <==>
              forall i :: 0 <= i < |asks| ==>
                asks[i].quantity <= OnHand(db.ledger, asks[i].sku) - Locked(db.ledger, asks[i].sku)
  {
    hide OnHand; hide Locked;
  }

  /** A well-formed request for something not on sale is answered as not found, and no other request is. */
  lemma OrderNotFoundIff(db: Db, request: OrderRequest, now: int, timeout: int)
    requires FreshKey(db, request.key)
    ensures CreateOrder(db, request, now, timeout).result == Err(NotFound) <==>
              && WellFormed(request)
              && (forall i :: 0 <= i < |request.items| ==> 0 < request.items[i].quantity <= 0x1F_FFFF_FFFF_FFFF)
              && exists i :: 0 <= i < |request.items| &&
                   (request.items[i].sku !in db.catalogue || !db.catalogue[request.items[i].sku].active)
  {
    hide KeyUsed; hide Insertable; hide Lockable; hide Text.Trim; hide Find; hide Subtotal;
    KeyIsFree(db, request.key);
  }

  /** Any other refusal is a conflict, unless only the columns or the lock keys stand in the way. */
  lemma OrderConstraintIff(db: Db, request: OrderRequest, now: int, timeout: int)
    requires FreshKey(db, request.key)
    ensures CreateOrder(db, request, now, timeout).result == Err(Constraint) <==>
              && WellFormed(request) && !Accepts(db, request)
              && (forall i :: 0 <= i < |request.items| ==>
                    InStock(db, request.items[i]) && request.items[i].quantity <= 0x1F_FFFF_FFFF_FFFF)
              && ListTotal(db.catalogue, request.items) - request.discount + request.shippingFee >= 0
  {
    hide AddOrder; hide KeyUsed; hide OnHand; hide Locked; hide Text.Trim; hide Find; hide ListTotal; hide Accepts;
    KeyIsFree(db, request.key);
    OrderIsAcceptedIff(db, request, now, timeout);
    if ValidOrderRequest(request) && forall i :: 0 <= i < |request.items| ==> OnSale(db.catalogue, request.items[i].sku) {
      assert forall i :: 0 <= i < |request.items| ==> OnSale(db.catalogue, request.items[i].sku);
      SnapshotCosts(db.catalogue, request.items);
      AddingErrors(db, NewOrder(request, Snapshot(db.catalogue, request.items), ExpiresAt(now, timeout)));
      LockableMeans(db, request.items);
    }
  }

  lemma AddingErrors(db: Db, order: Order)
    ensures AddOrder(db, order).result.Err? ==>
              AddOrder(db, order).result.error == if order.total < 0 then Conflict else Constraint
  {
    hide FitsColumns; hide OrderRows; hide Insertable;
  }

  /** The order a request asks for: its lines at list prices, its total, and its deadline. */
  ghost predicate AsAsked(catalogue: map<nat, Variant>, request: OrderRequest, order: Order) {
    && order.request == request
    && |order.items| == |request.items|
    && (forall i :: 0 <= i < |request.items| ==>
          && request.items[i].sku in catalogue && catalogue[request.items[i].sku].active
          && order.items[i].sku == request.items[i].sku
          && order.items[i].quantity == request.items[i].quantity
          && order.items[i].unitPrice == catalogue[request.items[i].sku].price)
    && order.subtotal == ListTotal(catalogue, request.items)
    && order.total == ListTotal(catalogue, request.items) - request.discount + request.shippingFee
  }

  /** The payment deadline: as many minutes on as are configured, but one at least and a day at most. */
  predicate DeadlineIs(now: int, timeout: int, expiresAt: int) {
    && (1 <= timeout <= 1440 ==> expiresAt == now + timeout * 60_000)
    && (timeout < 1 ==> expiresAt == now + 60_000)
    && (timeout > 1440 ==> expiresAt == now + 24 * 60 * 60_000)
  }

  lemma NewOrderIsAsAsked(catalogue: map<nat, Variant>, request: OrderRequest, now: int, timeout: int)
    requires forall i :: 0 <= i < |request.items| ==> request.items[i].sku in catalogue
    requires forall i :: 0 <= i < |request.items| ==> catalogue[request.items[i].sku].active
    requires forall i :: 0 <= i < |request.items| ==> request.items[i].quantity > 0
    ensures var order := NewOrder(request, Snapshot(catalogue, request.items), ExpiresAt(now, timeout));
            AsAsked(catalogue, request, order) && DeadlineIs(now, timeout, order.expiresAt)
  {
    hide Subtotal; hide ListTotal;
    SnapshotCosts(catalogue, request.items);
  }

  /** An accepted request is priced and written. */
  lemma AcceptedIsWritten(db: Db, request: OrderRequest, now: int, timeout: int)
    requires FreshKey(db, request.key) && CreateOrder(db, request, now, timeout).result.Ok?
    ensures forall i :: 0 <= i < |request.items| ==> request.items[i].sku in db.catalogue
    ensures forall i :: 0 <= i < |request.items| ==> db.catalogue[request.items[i].sku].active
    ensures forall i :: 0 <= i < |request.items| ==> request.items[i].quantity > 0
    ensures CreateOrder(db, request, now, timeout) ==
            AddOrder(db, NewOrder(request, Snapshot(db.catalogue, request.items), ExpiresAt(now, timeout)))
  {
    hide Lockable; hide ValidKey; hide Find; hide AddOrder; hide NewOrder; hide ExpiresAt;
    KeyIsFree(db, request.key);
    assert forall i :: 0 <= i < |request.items| ==> OnSale(db.catalogue, request.items[i].sku);
  }

  lemma OrderAddsItsRows(db: Db, request: OrderRequest, now: int, timeout: int)
    requires FreshKey(db, request.key) && CreateOrder(db, request, now, timeout).result.Ok?
    ensures var after := CreateOrder(db, request, now, timeout).db;
            && |after.orders| == |db.orders| + 1
            && after.ledger == db.ledger + OrderRows(after.orders[|db.orders|].items, |db.orders|, Lock, -1)
  {
    hide Insertable; hide Lockable; hide ValidOrderRequest; hide FitsColumns; hide Find; hide OrderRows; hide OnSale;
    hide Subtotal;
    KeyIsFree(db, request.key);
  }

  /** An accepted order is as asked: one order and one lock row a line are added, and nothing else changes. */
  lemma OrderIsAsAsked(db: Db, request: OrderRequest, now: int, timeout: int)
    requires FreshKey(db, request.key) && CreateOrder(db, request, now, timeout).result.Ok?
    ensures var outcome, id := CreateOrder(db, request, now, timeout), |db.orders|;
            && outcome.result == Ok(id)
            && outcome.db == db.(orders := outcome.db.orders, ledger := outcome.db.ledger)
            && |outcome.db.orders| == id + 1 && outcome.db.orders[..id] == db.orders
            && AsAsked(db.catalogue, request, outcome.db.orders[id]) && outcome.db.orders[id].status.Pending?
            && DeadlineIs(now, timeout, outcome.db.orders[id].expiresAt)
            && |outcome.db.ledger| == |db.ledger| + |request.items| && db.ledger <= outcome.db.ledger
            && forall i | 0 <= i < |request.items| ::
                 outcome.db.ledger[|db.ledger| + i] ==
                 Row(Key(request.items[i].sku, Lock, "order", id), -request.items[i].quantity)
  {
    hide CreateOrder; hide OrderRows; hide Insertable; hide FitsColumns; hide ListTotal; hide Subtotal; hide DeadlineIs;
    hide Snapshot; hide ExpiresAt; hide OnSale; hide FreshKey;
    AcceptedIsWritten(db, request, now, timeout);
    NewOrderIsAsAsked(db.catalogue, request, now, timeout);
    OrderAddsItsRows(db, request, now, timeout);
  }

  /** Placing an order locks what it asks for and takes nothing off the shelf. */
  lemma OrderLocks(db: Db, request: OrderRequest, now: int, timeout: int, sku: nat)
    requires FreshKey(db, request.key) && CreateOrder(db, request, now, timeout).result.Ok?
    ensures |CreateOrder(db, request, now, timeout).db.orders| == |db.orders| + 1
    ensures var after := CreateOrder(db, request, now, timeout).db;
            && OnHand(after.ledger, sku) == OnHand(db.ledger, sku)
            && Locked(after.ledger, sku) == Locked(db.ledger, sku) + QtyOf(after.orders[|db.orders|].items, sku)
  {
    hide CreateOrder; hide OrderRows; hide OnHand; hide Locked; hide QtyOf;
    OrderAddsItsRows(db, request, now, timeout);
    var items := CreateOrder(db, request, now, timeout).db.orders[|db.orders|].items;
    OrderRowsWeigh(items, |db.orders|, Lock, -1, sku);
    Grow(db.ledger, OrderRows(items, |db.orders|, Lock, -1), sku);
  }

  // --------------------------------------------------------- over runs: list prices

  /** Some request of the run put the order there, at the list prices of that moment. */
  ghost predicate Placed(steps: seq<Step>, order: Order) {
    exists k :: 0 <= k < |steps| && steps[k].OrderCreate? && AsAsked(Reach(steps[..k]).catalogue, steps[k].order, order)
  }

  lemma AcceptedCreate(db: Db, request: OrderRequest, now: int, timeout: int, o: nat)
    requires |db.orders| <= o < |CreateOrder(db, request, now, timeout).db.orders|
    ensures AsAsked(db.catalogue, request, CreateOrder(db, request, now, timeout).db.orders[o])
  {
    hide KeyUsed; hide Insertable; hide Lockable; hide ValidKey; hide FitsColumns; hide Subtotal; hide ListTotal; hide Find;
    SnapshotCosts(db.catalogue, request.items);
  }

  lemma OthersAddNone(db: Db, step: Step)
    requires db.Linked() && !step.OrderCreate?
    ensures |Apply(db, step).db.orders| == |db.orders|
  {
    hide Insertable; hide Find; hide Execute; hide OrderRows; hide DeductionRows; hide EventTaken;
    hide LinesFor; hide LinesRefusal; hide ShipLinesRefusal; hide Requested; hide FullyShipped; hide FullyRefunded;
    hide RestoreRows; hide RefundEventTaken; hide ValidNotice; hide ValidRefundRequest; hide ValidShipmentRequest;
  }

  /** Whichever step adds an order, it is one that asks for it. */
  lemma NewOrdersAreAsAsked(db: Db, step: Step, o: nat)
    requires db.Linked() && |db.orders| <= o < |Apply(db, step).db.orders|
    ensures step.OrderCreate? && AsAsked(db.catalogue, step.order, Apply(db, step).db.orders[o])
  {
    hide CreateOrder; hide AsAsked;
    if !step.OrderCreate? {
      OthersAddNone(db, step);
    } else {
      AcceptedCreate(db, step.order, step.now, step.timeoutMinutes, o);
    }
  }

  lemma PlacedStays(steps: seq<Step>, order: Order)
    requires |steps| > 0 && Placed(steps[..|steps| - 1], order)
    ensures Placed(steps, order)
  {
    hide Reach; hide AsAsked;
    var n := |steps| - 1;
    var k :| 0 <= k < n && steps[..n][k].OrderCreate? &&
             AsAsked(Reach(steps[..n][..k]).catalogue, steps[..n][k].order, order);
    assert steps[..n][..k] == steps[..k];
  }

  lemma AskedIgnoresStatus(catalogue: map<nat, Variant>, request: OrderRequest, order: Order, status: OrderStatus)
    requires AsAsked(catalogue, request, order)
    ensures AsAsked(catalogue, request, order.(status := status))
  {
  }

  lemma PlacedIgnoresStatus(steps: seq<Step>, order: Order, status: OrderStatus)
    requires Placed(steps, order)
    ensures Placed(steps, order.(status := status))
  {
    hide Reach; hide AsAsked;
    var k :| 0 <= k < |steps| && steps[k].OrderCreate? && AsAsked(Reach(steps[..k]).catalogue, steps[k].order, order);
    AskedIgnoresStatus(Reach(steps[..k]).catalogue, steps[k].order, order, status);
  }

  /** In every reachable state each order was asked for, and carries the list prices of that moment. */
  lemma {:induction false} OrdersCarryListPrices(steps: seq<Step>, o: nat)
    requires o < |Reach(steps).orders|
    ensures Placed(steps, Reach(steps).orders[o])
  {
    hide Apply; hide AsAsked; hide Placed; hide Run; hide Reach; hide Explains; hide OrderStep; hide Valid; hide Db.Linked;
    if |steps| == 0 {
      NothingReached(steps);
    }
    var n := |steps| - 1;
    var before := Reach(steps[..n]);
    ReachNext(steps);
    if o < |before.orders| {
      OrdersCarryListPrices(steps[..n], o);
      PlacedStays(steps, before.orders[o]);
      StatusChangesHaveCauses(before, steps[n]);
      PlacedIgnoresStatus(steps, before.orders[o], Reach(steps).orders[o].status);
    } else {
      NewOrdersAreAsAsked(before, steps[n], o);
      PlacedNow(steps, Reach(steps).orders[o]);
    }
  }

  lemma NothingReached(steps: seq<Step>)
    requires |steps| == 0
    ensures Reach(steps).orders == []
  {
    EmptyIsValid();
  }

  lemma PlacedNow(steps: seq<Step>, order: Order)
    requires |steps| > 0 && steps[|steps| - 1].OrderCreate?
    requires AsAsked(Reach(steps[..|steps| - 1]).catalogue, steps[|steps| - 1].order, order)
    ensures Placed(steps, order)
  {
  }

  // -------------------------------------------------------- cancelling, expiring

  ghost predicate ReleasesFree(db: Db, id: nat)
    requires id < |db.orders|
  {
    forall i :: 0 <= i < |db.orders[id].items| ==>
      !KeyUsed(db.ledger, Key(db.orders[id].items[i].sku, Unlock, "order", id))
  }

  /** What closing leaves: the new status, the lines unlocked, and everything else as it was. */
  ghost predicate ClosedAs(db: Db, after: Db, id: nat, status: OrderStatus)
    requires id < |db.orders|
  {
    && after == db.(orders := after.orders, ledger := after.ledger)
    && after.orders == db.orders[id := db.orders[id].(status := status)]
    && forall sku: nat ::
         && OnHand(after.ledger, sku) == OnHand(db.ledger, sku)
         && Locked(after.ledger, sku) == Locked(db.ledger, sku) - QtyOf(db.orders[id].items, sku)
  }

  lemma ClosingReleases(db: Db, id: nat, status: OrderStatus)
    requires id < |db.orders| && OrderShape(db.orders[id])
    ensures CloseOrder(db, id, status).result.Ok? <==> ReleasesFree(db, id)
    ensures CloseOrder(db, id, status).result.Ok? ==>
              CloseOrder(db, id, status).result == Ok(1) && ClosedAs(db, CloseOrder(db, id, status).db, id, status)
  {
    hide OnHand; hide Locked; hide KeyUsed;
    var items := db.orders[id].items;
    var rows := OrderRows(items, id, Unlock, 1);
    assert forall i :: 0 <= i < |items| ==> rows[i].key == Key(items[i].sku, Unlock, "order", id);
    assert forall i :: 0 <= i < |items| ==> FitsInteger(rows[i].qty);
    forall sku: nat
      ensures OnHand(db.ledger + rows, sku) == OnHand(db.ledger, sku)
      ensures Locked(db.ledger + rows, sku) == Locked(db.ledger, sku) - QtyOf(items, sku)
    {
      OrderRowsWeigh(items, id, Unlock, 1, sku);
      Grow(db.ledger, rows, sku);
    }
  }

  /** Cancelling is accepted iff the order is pending and its release keys are free; it then only releases. */
  lemma CancelPromise(db: Db, id: nat)
    requires Valid(db)
    ensures CancelOrder(db, id).result.Ok? <==>
              id < |db.orders| && db.orders[id].status == Pending && ReleasesFree(db, id)
    ensures CancelOrder(db, id).result.Ok? ==> ClosedAs(db, CancelOrder(db, id).db, id, Canceled)
    ensures CancelOrder(db, id).result == Err(NotFound) <==> id >= |db.orders|
  {
    hide CloseOrder; hide ReleasesFree; hide ClosedAs; hide OrderShape;
    if id < |db.orders| {
      ClosingReleases(db, id, Canceled);
      CloseErrs(db, id, Canceled);
    }
  }

  lemma CloseErrs(db: Db, id: nat, status: OrderStatus)
    requires id < |db.orders|
    ensures CloseOrder(db, id, status).result.Err? ==> CloseOrder(db, id, status).result == Err(Constraint)
  {
  }

  /** Expiring closes a pending order whose deadline has come, and otherwise does nothing, which is no error. */
  lemma ExpirePromise(db: Db, id: nat, now: int)
    requires Valid(db)
    ensures var due := id < |db.orders| && db.orders[id].status == Pending && db.orders[id].expiresAt <= now;
            && (!due ==> ExpireOrder(db, id, now) == Outcome(db, Ok(0)))
            && (due ==>
                  && (ExpireOrder(db, id, now).result.Ok? <==> ReleasesFree(db, id))
                  && (ExpireOrder(db, id, now).result.Ok? ==>
                        && ExpireOrder(db, id, now).result == Ok(1)
                        && ClosedAs(db, ExpireOrder(db, id, now).db, id, Expired)))
  {
    hide CloseOrder; hide ReleasesFree; hide ClosedAs; hide OrderShape;
    if id < |db.orders| {
      ClosingReleases(db, id, Expired);
    }
  }
}
