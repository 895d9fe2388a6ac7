/** Every step keeps the ledger exact and every unit of stock accounted for. */
module StockKept {
  import opened Wrappers
  import opened Summation
  import opened Inventory
  import opened Tables
  import opened Orders
  import opened Payments
  import opened Refunds
  import opened Shipments
  import opened Steps
  import opened Books
  import opened BooksKept
  import opened Stock

  /** Rows are only added, and exactly those the new order and refund rows call for. */
  lemma LedgerStaysExact(db: Db, after: Db, rows: seq<Row>)
    requires LedgerExact(db) && after.ledger == db.ledger + rows && Insertable(db.ledger, rows)
    requires forall row: Row | row.key.refType == "order" ::
               OrderRow(after.orders, row) <==> OrderRow(db.orders, row) || row in rows
    requires forall row: Row | row.key.refType == "refund" ::
               RefundRow(after.orders, after.refunds, row) <==> RefundRow(db.orders, db.refunds, row) || row in rows
    ensures LedgerExact(after)
  {
    assert Insert(db.ledger, rows) == Some(after.ledger);
  }

  /** Refund rows depend on the orders' items only. */
  lemma RefundRowsStay(orders: seq<Order>, after: seq<Order>, refunds: seq<Refund>, row: Row)
    requires RefundsOk(orders, refunds) && Moves(orders, after)
    ensures RefundRow(after, refunds, row) <==> RefundRow(orders, refunds, row)
  {
    if row.key.refId < |refunds| {
      assert RefundShape(orders, refunds[row.key.refId]);
    }
  }

  lemma RestoredStays(orders: seq<Order>, after: seq<Order>, refunds: seq<Refund>, sku: nat)
    requires RefundsOk(orders, refunds) && Moves(orders, after)
    ensures RestoredQty(after, refunds, sku) == RestoredQty(orders, refunds, sku)
  {
    forall r | r in refunds ensures RestoredOf(after, sku)(r) == RestoredOf(orders, sku)(r) {
      assert RefundShape(orders, r);
    }
    Same(refunds, RestoredOf(after, sku), RestoredOf(orders, sku));
  }

  /** Rows of one order are added; refund rows are as before. */
  lemma OrderRowsExact(db: Db, after: Db, rows: seq<Row>)
    requires LedgerExact(db) && RefundsOk(db.orders, db.refunds)
    requires after.ledger == db.ledger + rows && Insertable(db.ledger, rows)
    requires Moves(db.orders, after.orders) && after.refunds == db.refunds
    requires forall row | row in rows :: row.key.refType == "order"
    requires forall row: Row | row.key.refType == "order" ::
               OrderRow(after.orders, row) <==> OrderRow(db.orders, row) || row in rows
    ensures LedgerExact(after)
  {
    forall row: Row | row.key.refType == "refund"
      ensures RefundRow(after.orders, after.refunds, row) <==> RefundRow(db.orders, db.refunds, row)
    {
      RefundRowsStay(db.orders, after.orders, db.refunds, row);
    }
    LedgerStaysExact(db, after, rows);
  }

  // ------------------------------------------------------------------ orders

  lemma AddOrderExact(db: Db, order: Order, after: Db)
    requires LedgerExact(db) && RefundsOk(db.orders, db.refunds) && OrderShape(order) && order.status.Pending?
    requires after.ledger == db.ledger + OrderRows(order.items, |db.orders|, Lock, -1)
    requires after.orders == db.orders + [order] && after.refunds == db.refunds
    ensures LedgerExact(after)
  {
    var rows := OrderRows(order.items, |db.orders|, Lock, -1);
    LocksAreNew(db, order);
    forall row: Row | row.key.refType == "order"
      ensures OrderRow(after.orders, row) <==> OrderRow(db.orders, row) || row in rows
    {
      OrderRowsAre(order, |db.orders|, Lock, -1, row);
    }
    OrderRowsExact(db, after, rows);
  }

  lemma AddOrderConserves(db: Db, order: Order, after: Db, sku: nat)
    requires Conserved(db, sku) && RefundsOk(db.orders, db.refunds) && order.status.Pending?
    requires after.ledger == db.ledger + OrderRows(order.items, |db.orders|, Lock, -1)
    requires after.orders == db.orders + [order] && after.refunds == db.refunds
    ensures Conserved(after, sku)
  {
    var rows := OrderRows(order.items, |db.orders|, Lock, -1);
    OrderRowsWeigh(order.items, |db.orders|, Lock, -1, sku);
    Grow(db.ledger, rows, sku);
    Append(db.orders, order, PendingOf(sku));
    Append(db.orders, order, SoldOf(sku));
    RestoredStays(db.orders, after.orders, db.refunds, sku);
  }

  lemma AddOrderAccounts(db: Db, order: Order)
    requires Valid(db) && Accounted(db) && OrderShape(order) && order.status.Pending?
    ensures AddOrder(db, order).result.Ok?
    ensures Accounted(AddOrder(db, order).db)
  {
    hide LedgerExact; hide Conserved; hide OrdersOk; hide PaymentsOk; hide RefundsOk; hide CapsOk;
    hide StatusesExact; hide TransactionsOk; hide ShipmentsOk; hide Insertable;
    LocksAreNew(db, order);
    var after := AddOrder(db, order).db;
    AddOrderExact(db, order, after);
    forall sku: nat ensures Conserved(after, sku) {
      AddOrderConserves(db, order, after, sku);
    }
  }

  lemma StatusWeighs(orders: seq<Order>, id: nat, status: OrderStatus, sku: nat)
    requires id < |orders|
    ensures PendingQty(WithStatus(orders, id, status), sku) == PendingQty(orders, sku)
            - (if orders[id].status.Pending? then QtyOf(orders[id].items, sku) else 0)
            + (if status.Pending? then QtyOf(orders[id].items, sku) else 0)
    ensures SoldQty(WithStatus(orders, id, status), sku) == SoldQty(orders, sku)
            - (if PaidOrLater(orders[id].status) then QtyOf(orders[id].items, sku) else 0)
            + (if PaidOrLater(status) then QtyOf(orders[id].items, sku) else 0)
  {
    Update(orders, id, orders[id].(status := status), PendingOf(sku));
    Update(orders, id, orders[id].(status := status), SoldOf(sku));
  }

  lemma CloseOrderExact(db: Db, id: nat, status: OrderStatus, after: Db)
    requires LedgerExact(db) && OrdersOk(db.orders) && RefundsOk(db.orders, db.refunds)
    requires id < |db.orders| && db.orders[id].status.Pending? && (status.Canceled? || status.Expired?)
    requires after.ledger == db.ledger + OrderRows(db.orders[id].items, id, Unlock, 1)
    requires after.orders == WithStatus(db.orders, id, status) && after.refunds == db.refunds
    ensures LedgerExact(after)
  {
    var rows := OrderRows(db.orders[id].items, id, Unlock, 1);
    ReleasesAreNew(db, id);
    assert OrderShape(db.orders[id]);
    forall row: Row | row.key.refType == "order"
      ensures OrderRow(after.orders, row) <==> OrderRow(db.orders, row) || row in rows
    {
      OrderRowsAre(db.orders[id], id, Unlock, 1, row);
    }
    OrderRowsExact(db, after, rows);
  }

  lemma CloseOrderConserves(db: Db, id: nat, status: OrderStatus, after: Db, sku: nat)
    requires Conserved(db, sku) && RefundsOk(db.orders, db.refunds)
    requires id < |db.orders| && db.orders[id].status.Pending? && (status.Canceled? || status.Expired?)
    requires after.ledger == db.ledger + OrderRows(db.orders[id].items, id, Unlock, 1)
    requires after.orders == WithStatus(db.orders, id, status) && after.refunds == db.refunds
    ensures Conserved(after, sku)
  {
    OrderRowsWeigh(db.orders[id].items, id, Unlock, 1, sku);
    Grow(db.ledger, OrderRows(db.orders[id].items, id, Unlock, 1), sku);
    StatusWeighs(db.orders, id, status, sku);
    RestoredStays(db.orders, after.orders, db.refunds, sku);
  }

  lemma CloseOrderAccounts(db: Db, id: nat, status: OrderStatus)
    requires Valid(db) && Accounted(db) && id < |db.orders| && db.orders[id].status.Pending?
    requires status.Canceled? || status.Expired?
    ensures CloseOrder(db, id, status).result == Ok(1)
    ensures Accounted(CloseOrder(db, id, status).db)
  {
    hide LedgerExact; hide Conserved; hide OrdersOk; hide PaymentsOk; hide RefundsOk; hide CapsOk;
    hide StatusesExact; hide TransactionsOk; hide ShipmentsOk; hide Insertable;
    ReleasesAreNew(db, id);
    var after := CloseOrder(db, id, status).db;
    CloseOrderExact(db, id, status, after);
    forall sku: nat ensures Conserved(after, sku) {
      CloseOrderConserves(db, id, status, after, sku);
    }
  }

  // ---------------------------------------------------------------- payments

  lemma PayOrderExact(db: Db, id: nat, after: Db)
    requires LedgerExact(db) && OrdersOk(db.orders) && RefundsOk(db.orders, db.refunds)
    requires id < |db.orders| && db.orders[id].status.Pending?
    requires after.ledger == db.ledger + DeductionRows(db.orders[id].items, id)
    requires after.orders == WithStatus(db.orders, id, Paid) && after.refunds == db.refunds
    ensures LedgerExact(after)
  {
    var rows := DeductionRows(db.orders[id].items, id);
    DeductionsAreNew(db, id);
    assert OrderShape(db.orders[id]);
    forall row: Row
      ensures row in rows ==> row.key.refType == "order"
      ensures row.key.refType == "order" ==>
                (OrderRow(after.orders, row) <==> OrderRow(db.orders, row) || row in rows)
    {
      DeductionRowsAre(db.orders[id], id, row);
    }
    OrderRowsExact(db, after, rows);
  }

  lemma PayOrderConserves(db: Db, id: nat, after: Db, sku: nat)
    requires Conserved(db, sku) && RefundsOk(db.orders, db.refunds)
    requires id < |db.orders| && db.orders[id].status.Pending?
    requires after.ledger == db.ledger + DeductionRows(db.orders[id].items, id)
    requires after.orders == WithStatus(db.orders, id, Paid) && after.refunds == db.refunds
    ensures Conserved(after, sku)
  {
    DeductionRowsWeigh(db.orders[id].items, id, sku);
    Grow(db.ledger, DeductionRows(db.orders[id].items, id), sku);
    StatusWeighs(db.orders, id, Paid, sku);
    RestoredStays(db.orders, after.orders, db.refunds, sku);
  }

  lemma PayOrderAccounts(db: Db, id: nat, after: Db)
    requires Valid(db) && Accounted(db) && id < |db.orders| && db.orders[id].status.Pending?
    requires after.ledger == db.ledger + DeductionRows(db.orders[id].items, id)
    requires after.orders == WithStatus(db.orders, id, Paid) && after.refunds == db.refunds
    ensures Accounted(after)
  {
    hide LedgerExact; hide Conserved;
    PayOrderExact(db, id, after);
    forall sku: nat ensures Conserved(after, sku) {
      PayOrderConserves(db, id, after, sku);
    }
  }

  /** A step that leaves the ledger alone and moves no order in or out of `pending` or `paid`. */
  lemma QuietStepAccounts(db: Db, after: Db)
    requires Valid(db) && Accounted(db)
    requires after.ledger == db.ledger && Moves(db.orders, after.orders) && |after.orders| == |db.orders|
    requires forall i :: 0 <= i < |db.orders| ==>
               after.orders[i].status.Pending? == db.orders[i].status.Pending? &&
               PaidOrLater(after.orders[i].status) == PaidOrLater(db.orders[i].status)
    requires SameSuccess(db.refunds, after.refunds)
    ensures Accounted(after)
  {
    assert forall row: Row :: OrderRow(after.orders, row) <==> OrderRow(db.orders, row);
    forall row: Row
      ensures RefundRow(after.orders, after.refunds, row) <==> RefundRow(db.orders, db.refunds, row)
    {
      RefundRowsStay(db.orders, after.orders, db.refunds, row);
    }
    forall sku: nat ensures Conserved(after, sku) {
      assert Conserved(db, sku);
      SameStatusSameSum(db.orders, after.orders, sku);
      RestoredStays(db.orders, after.orders, db.refunds, sku);
      SameSuccessSameRestored(after.orders, db.refunds, after.refunds, sku);
    }
  }

  lemma {:induction false} SameStatusSameSum(orders: seq<Order>, after: seq<Order>, sku: nat)
    requires |after| == |orders|
    requires forall i :: 0 <= i < |orders| ==>
               && after[i].items == orders[i].items
               && after[i].status.Pending? == orders[i].status.Pending?
               && PaidOrLater(after[i].status) == PaidOrLater(orders[i].status)
    ensures PendingQty(after, sku) == PendingQty(orders, sku) && SoldQty(after, sku) == SoldQty(orders, sku)
  {
    if |orders| > 0 {
      SameStatusSameSum(orders[..|orders| - 1], after[..|orders| - 1], sku);
    }
  }

  lemma {:induction false} SameSuccessSameRestored(orders: seq<Order>, refunds: seq<Refund>, after: seq<Refund>, sku: nat)
    requires SameSuccess(refunds, after)
    ensures RestoredQty(orders, after, sku) == RestoredQty(orders, refunds, sku)
    decreases |after|
  {
    if |after| > |refunds| {
      SameSuccessSameRestored(orders, refunds, after[..|after| - 1], sku);
    } else if |after| > 0 {
      SameSuccessSameRestored(orders, refunds[..|after| - 1], after[..|after| - 1], sku);
    }
  }

  // ----------------------------------------------------------------- refunds

  /** A successful refund puts back each of its lines once, and nothing is skipped. */
  lemma SucceedRefundAccounts(db: Db, id: nat, k: nat, n: RefundNotice)
    requires Valid(db) && Accounted(db) && db.Linked() && n.succeeded
    requires k < |db.transactions| && db.transactions[k].status.TxPending? && db.transactions[k].refundId == id
    requires id < |db.refunds|
    ensures var after := RestoreInventoryAndOrder(Marked(db, id, k, n), Marked(db, id, k, n).refunds[id], id);
            && Accounted(after)
            && after.ledger == db.ledger +
                 RestoreRows(db.orders[db.refunds[id].orderId].items, db.refunds[id].lines, id)
  {
    PendingMeansApproved(db.refunds, db.transactions, k);
    var refund := db.refunds[id];
    var after := RestoreInventoryAndOrder(Marked(db, id, k, n), Marked(db, id, k, n).refunds[id], id);
    var rows := RestoreRows(db.orders[refund.orderId].items, refund.lines, id);
    RestoresAreNew(db, id);
    assert after.ledger == db.ledger + rows;
    OpenRefundLeavesOrderOpen(db, id);
    var status := after.orders[refund.orderId].status;
    assert after.orders == WithStatus(db.orders, refund.orderId, status);
    RestoreRowsExact(db, id, status, after);
    forall sku: nat ensures Conserved(after, sku) {
      RestoreConserves(db, id, status, after, sku);
    }
  }

  lemma RestoreRowsExact(db: Db, id: nat, status: OrderStatus, after: Db)
    requires LedgerExact(db) && OrdersOk(db.orders) && RefundsOk(db.orders, db.refunds)
    requires id < |db.refunds| && db.refunds[id].status.Approved?
    requires after.refunds == WithRefundStatus(db.refunds, id, RefundSucceeded)
    requires db.refunds[id].orderId < |db.orders| && Refundable(db.orders[db.refunds[id].orderId].status)
    requires LinesOf(db.refunds[id].lines, db.orders[db.refunds[id].orderId].items)
    requires RefundStatusOf(status) && after.orders == WithStatus(db.orders, db.refunds[id].orderId, status)
    requires after.ledger == db.ledger + RestoreRows(db.orders[db.refunds[id].orderId].items, db.refunds[id].lines, id)
    ensures LedgerExact(after)
  {
    var refund := db.refunds[id];
    assert RefundShape(db.orders, refund);
    var rows := RestoreRows(db.orders[refund.orderId].items, refund.lines, id);
    RestoresAreNew(db, id);
    forall row: Row | row.key.refType == "order"
      ensures row !in rows
      ensures OrderRow(after.orders, row) <==> OrderRow(db.orders, row)
    {
      RestoreRowsAre(db.orders, refund, id, row);
    }
    forall row: Row | row.key.refType == "refund"
      ensures RefundRow(after.orders, after.refunds, row) <==> RefundRow(db.orders, db.refunds, row) || row in rows
    {
      RestoreRowsAre(db.orders, refund, id, row);
      if row.key.refId != id {
        RefundRowsStay(db.orders, after.orders, db.refunds, row);
      }
    }
    LedgerStaysExact(db, after, rows);
  }

  lemma RestoreConserves(db: Db, id: nat, status: OrderStatus, after: Db, sku: nat)
    requires RefundsOk(db.orders, db.refunds) && Conserved(db, sku)
    requires id < |db.refunds| && db.refunds[id].status.Approved?
    requires after.refunds == WithRefundStatus(db.refunds, id, RefundSucceeded)
    requires db.refunds[id].orderId < |db.orders| && Refundable(db.orders[db.refunds[id].orderId].status)
    requires LinesOf(db.refunds[id].lines, db.orders[db.refunds[id].orderId].items)
    requires RefundStatusOf(status) && after.orders == WithStatus(db.orders, db.refunds[id].orderId, status)
    requires after.ledger == db.ledger + RestoreRows(db.orders[db.refunds[id].orderId].items, db.refunds[id].lines, id)
    ensures Conserved(after, sku)
  {
    var refund := db.refunds[id];
    var items := db.orders[refund.orderId].items;
    RestoreRowsWeigh(items, refund.lines, id, sku);
    Grow(db.ledger, RestoreRows(items, refund.lines, id), sku);
    StatusWeighs(db.orders, refund.orderId, status, sku);
    SuccessRestores(db.orders, db.refunds, id, status, sku);
  }

  lemma SuccessRestores(orders: seq<Order>, refunds: seq<Refund>, id: nat, status: OrderStatus, sku: nat)
    requires RefundsOk(orders, refunds) && id < |refunds| && !refunds[id].status.RefundSucceeded?
    requires refunds[id].orderId < |orders| && RefundStatusOf(status)
    ensures RestoredQty(WithStatus(orders, refunds[id].orderId, status),
                        WithRefundStatus(refunds, id, RefundSucceeded), sku)
            == RestoredQty(orders, refunds, sku) + RestoreQty(orders[refunds[id].orderId].items, refunds[id].lines, sku)
  {
    var after := WithStatus(orders, refunds[id].orderId, status);
    RestoredStays(orders, after, refunds, sku);
    Update(refunds, id, refunds[id].(status := RefundSucceeded), RestoredOf(after, sku));
  }

  // ----------------------------------------------------------- direct commands

  /** Rows under other reference types move the ledger and the direct part alike. */
  lemma DirectRowsAccount(db: Db, after: Db, rows: seq<Row>)
    requires Accounted(db) && after == db.(ledger := db.ledger + rows) && Insertable(db.ledger, rows)
    requires forall row | row in rows :: !Reserved(row.key.refType)
    ensures Accounted(after)
  {
    LedgerStaysExact(db, after, rows);
    forall sku: nat ensures Conserved(after, sku) {
      assert Conserved(db, sku);
      Grow(db.ledger, rows, sku);
      Same(rows, DirectOnHandOf(sku), OnHandOf(sku));
      Same(rows, DirectLockOf(sku), LockOf(sku));
    }
  }

  lemma CommandAccounts(db: Db, c: Command)
    requires Accounted(db) && !Reserved(c.refType)
    ensures Accounted(ExecuteCommand(db, c).db)
  {
    var after := ExecuteCommand(db, c).db;
    if after != db {
      DirectRowsAccount(db, after, RowsOf(c));
    }
  }

  lemma OpenStockAccounts(db: Db, sku: nat, quantity: int, intake: bool, refId: nat)
    requires Accounted(db)
    ensures Accounted(OpenStock(db, sku, quantity, intake, refId).db)
  {
    var after := OpenStock(db, sku, quantity, intake, refId).db;
    if after != db {
      DirectRowsAccount(db, after, [OpeningRow(sku, quantity, intake, refId)]);
    }
  }

  // -------------------------------------------------------------- every step

  /** Direct commands keep off the reference types of orders and refunds. */
  predicate Unreserved(step: Step) {
    step.StockCommand? ==> !Reserved(step.command.refType)
  }

  lemma CreateOrderAccounts(db: Db, request: OrderRequest, now: int, timeout: int)
    requires Valid(db) && Accounted(db)
    ensures Accounted(CreateOrder(db, request, now, timeout).db)
  {
    hide Accounted;
    var after := CreateOrder(db, request, now, timeout).db;
    if after != db {
      CreateOrderKeeps(db, request, now, timeout);
      var order := after.orders[|db.orders|];
      assert OrderShape(order);
      AddOrderAccounts(db, order);
    }
  }

  lemma ConfirmPaymentAccounts(db: Db, id: nat, c: Confirmation)
    requires Valid(db) && db.Linked() && Accounted(db)
    ensures Accounted(ConfirmPayment(db, id, c).db)
  {
    hide Accounted; hide Insertable; hide EventTaken; hide DeductionRows; hide ValidConfirmation;
    hide OrdersOk; hide PaymentsOk; hide RefundsOk; hide CapsOk; hide StatusesExact; hide TransactionsOk; hide ShipmentsOk;
    var after := ConfirmPayment(db, id, c).db;
    if after != db {
      if c.succeeded {
        PayOrderAccounts(db, db.payments[id].orderId, after);
      } else {
        QuietStepAccounts(db, after);
      }
    }
  }

  lemma ConfirmRefundAccounts(db: Db, id: nat, n: RefundNotice)
    requires Valid(db) && db.Linked() && Accounted(db)
    ensures Accounted(ConfirmRefund(db, id, n).db)
  {
    hide Accounted; hide Valid;
    var after := ConfirmRefund(db, id, n).db;
    if after != db {
      var k := Find(db.transactions, ForRefund(id)).value;
      if n.succeeded {
        SucceedRefundAccounts(db, id, k, n);
      } else {
        QuietStepAccounts(db, after);
      }
    }
  }

  lemma CreateShipmentAccounts(db: Db, orderId: nat, request: ShipmentRequest)
    requires Valid(db) && Accounted(db)
    ensures Accounted(CreateShipment(db, orderId, request).db)
  {
    hide Accounted; hide Valid;
    var after := CreateShipment(db, orderId, request).db;
    if after != db {
      ShipmentTouches(db, orderId, request, Requested(db, orderId, request));
      hide AddShipment;
      QuietStepAccounts(db, after);
    }
  }

  /** A shipment writes nothing but its rows and its order's status. */
  lemma ShipmentTouches(db: Db, orderId: nat, request: ShipmentRequest, asks: seq<LineAsk>)
    requires orderId < |db.orders|
    ensures var after := AddShipment(db, orderId, request, asks).db;
            && after.ledger == db.ledger && after.refunds == db.refunds
            && (after.orders == db.orders || after.orders == WithStatus(db.orders, orderId, Fulfilled))
  {
  }

  lemma RefundRowsAccount(db: Db, step: Step)
    requires Valid(db) && db.Linked() && Accounted(db) && (step.RefundCreate? || step.RefundReview?)
    ensures Accounted(Apply(db, step).db)
  {
    hide Accounted; hide Valid; hide LinesFor; hide LinesRefusal; hide ReservedAmount; hide Sum; hide Find;
    hide ValidRefundRequest;
    var after := Apply(db, step).db;
    assert SameSuccess(db.refunds, after.refunds);
    assert after.ledger == db.ledger && after.orders == db.orders;
    hide Apply;
    QuietStepAccounts(db, after);
  }

  lemma QuietAccounts(db: Db, step: Step)
    requires Valid(db) && db.Linked() && Accounted(db)
    requires step.PaymentCreate? || step.RefundBegin? || step.RefundUpdate? || step.CatalogueChange?
    ensures Accounted(Apply(db, step).db)
  {
    hide Accounted; hide Valid; hide Find; hide RefundEventTaken; hide ValidKey;
    var after := Apply(db, step).db;
    assert after.ledger == db.ledger && after.refunds == db.refunds && after.orders == db.orders;
    hide Apply;
    QuietStepAccounts(db, after);
  }

  lemma StepKeepsStock(db: Db, step: Step)
    requires Valid(db) && db.Linked() && Accounted(db) && Unreserved(step)
    ensures Accounted(Apply(db, step).db)
  {
    hide Accounted; hide Valid;
    match step
    case OrderCreate(request, now, timeout) => CreateOrderAccounts(db, request, now, timeout);
    case OrderCancel(id) =>
      if CancelOrder(db, id).db != db {
        CloseOrderAccounts(db, id, Canceled);
      }
    case OrderExpire(id, now) =>
      if ExpireOrder(db, id, now).db != db {
        CloseOrderAccounts(db, id, Expired);
      }
    case PaymentConfirm(id, c) => ConfirmPaymentAccounts(db, id, c);
    case RefundConfirm(id, n) => ConfirmRefundAccounts(db, id, n);
    case ShipmentCreate(orderId, request) => CreateShipmentAccounts(db, orderId, request);
    case StockCommand(c) => CommandAccounts(db, c);
    case OpeningStock(sku, quantity, intake, refId) => OpenStockAccounts(db, sku, quantity, intake, refId);
    case RefundCreate(_, _) => RefundRowsAccount(db, step);
    case RefundReview(_, _, _) => RefundRowsAccount(db, step);
    case _ => QuietAccounts(db, step);
  }
}
