/** No SKU is ever oversold: 0 <= locked <= on hand in every reachable state. */
module StockSafety {
  import opened Wrappers
  import opened Summation
  import opened Inventory
  import opened Tables
  import opened Orders
  import opened Payments
  import opened Refunds
  import opened Shipments
  import opened Steps
  import opened Books
  import opened BooksKept
  import opened Runs
  import opened Stock
  import opened StockKept

  ghost predicate Covered(db: Db, sku: nat) {
    DirectLocks(db.ledger, sku) >= 0 && Locked(db.ledger, sku) <= OnHand(db.ledger, sku)
  }

  /** Everything that holds between transactions when direct commands are disciplined. */
  ghost predicate Sound(db: Db) {
    Valid(db) && Accounted(db) && forall sku: nat :: Covered(db, sku)
  }

  /** A direct release that will be carried out, rather than answered from its earlier row. */
  predicate Releases(db: Db, c: Command) {
    (c.op.Unlock? || c.op.Out?) && !KeyUsed(db.ledger, KeyOf(c))
  }

  /**
   The assumption on direct commands: they keep off the reference types of orders and refunds, and
   release no more than direct commands hold. `execute` itself checks only the aggregate lock.
   */
  predicate Disciplined(db: Db, step: Step) {
    Unreserved(step) &&
    (step.StockCommand? && Releases(db, step.command) ==>
       step.command.quantity <= DirectLocks(db.ledger, step.command.sku))
  }

  lemma PendingIsNonNegative(orders: seq<Order>, sku: nat)
    requires OrdersOk(orders)
    ensures PendingQty(orders, sku) >= 0
  {
    forall o | o in orders ensures PendingOf(sku)(o) >= 0 {
      assert OrderShape(o);
      QtyOfItem(o.items, sku);
    }
    NonNegative(orders, PendingOf(sku));
  }

  lemma SoundIsSafe(db: Db)
    requires Sound(db)
    ensures Safe(db.ledger)
  {
    forall sku: nat ensures 0 <= Locked(db.ledger, sku) <= OnHand(db.ledger, sku) {
      assert Covered(db, sku) && Conserved(db, sku);
      PendingIsNonNegative(db.orders, sku);
    }
  }

  // --------------------------------------------------------- one step at a time

  lemma AddOrderCovers(db: Db, order: Order, sku: nat)
    requires Covered(db, sku) && OrderShape(order)
    requires forall i :: 0 <= i < |order.items| ==>
               BalanceOf(db.ledger, order.items[i].sku).available >= order.items[i].quantity
    ensures Covered(AddOrder(db, order).db, sku)
  {
    var rows := OrderRows(order.items, |db.orders|, Lock, -1);
    OrderRowsWeigh(order.items, |db.orders|, Lock, -1, sku);
    Grow(db.ledger, rows, sku);
    QtyOfItem(order.items, sku);
  }

  lemma CreateOrderCovers(db: Db, request: OrderRequest, now: int, timeout: int, sku: nat)
    requires Valid(db) && Covered(db, sku)
    ensures Covered(CreateOrder(db, request, now, timeout).db, sku)
  {
    var after := CreateOrder(db, request, now, timeout).db;
    if after != db {
      CreateOrderKeeps(db, request, now, timeout);
      var order := after.orders[|db.orders|];
      assert OrderShape(order);
      forall i | 0 <= i < |order.items|
        ensures BalanceOf(db.ledger, order.items[i].sku).available >= order.items[i].quantity
      {
        assert Refusal(Lock, request.items[i].quantity, BalanceOf(db.ledger, request.items[i].sku)).None?;
      }
      AddOrderCovers(db, order, sku);
    }
  }

  lemma CloseOrderCovers(db: Db, id: nat, status: OrderStatus, sku: nat)
    requires OrdersOk(db.orders) && Covered(db, sku) && id < |db.orders|
    ensures Covered(CloseOrder(db, id, status).db, sku)
  {
    var items := db.orders[id].items;
    OrderRowsWeigh(items, id, Unlock, 1, sku);
    Grow(db.ledger, OrderRows(items, id, Unlock, 1), sku);
    assert OrderShape(db.orders[id]);
    QtyOfItem(items, sku);
  }

  lemma ConfirmPaymentCovers(db: Db, id: nat, c: Confirmation, sku: nat)
    requires db.Linked() && Covered(db, sku)
    ensures Covered(ConfirmPayment(db, id, c).db, sku)
  {
    var after := ConfirmPayment(db, id, c).db;
    if after.ledger != db.ledger {
      var o := db.payments[id].orderId;
      DeductionRowsWeigh(db.orders[o].items, o, sku);
      Grow(db.ledger, DeductionRows(db.orders[o].items, o), sku);
    }
  }

  lemma ConfirmRefundCovers(db: Db, id: nat, n: RefundNotice, sku: nat)
    requires Valid(db) && db.Linked() && Accounted(db) && Covered(db, sku)
    ensures Covered(ConfirmRefund(db, id, n).db, sku)
  {
    hide Accounted; hide PaymentsOk; hide CapsOk; hide StatusesExact; hide TransactionsOk; hide ShipmentsOk;
    var after := ConfirmRefund(db, id, n).db;
    if after != db && n.succeeded {
      var k := Find(db.transactions, ForRefund(id)).value;
      SucceedRefundAccounts(db, id, k, n);
      var refund := db.refunds[id];
      var items := db.orders[refund.orderId].items;
      RestoreRowsWeigh(items, refund.lines, id, sku);
      Grow(db.ledger, RestoreRows(items, refund.lines, id), sku);
      assert RefundShape(db.orders, refund) && OrderShape(db.orders[refund.orderId]);
      RestoreQtyOfLine(items, refund.lines, sku);
    }
  }

  /** A command under an unreserved reference moves the direct locks as it moves all locks. */
  lemma DirectCommandLocks(ledger: seq<Row>, c: Command, sku: nat)
    requires !Reserved(c.refType)
    ensures DirectLocks(ledger + RowsOf(c), sku) - DirectLocks(ledger, sku) ==
            Locked(ledger + RowsOf(c), sku) - Locked(ledger, sku)
  {
    Grow(ledger, RowsOf(c), sku);
    Same(RowsOf(c), DirectLockOf(sku), LockOf(sku));
  }

  lemma CommandCovers(db: Db, c: Command, sku: nat)
    requires Covered(db, sku) && Disciplined(db, StockCommand(c))
    ensures Covered(ExecuteCommand(db, c).db, sku)
  {
    if ExecuteCommand(db, c).db != db {
      CommandEffect(db, c);
      RowsMoveBalance(db.ledger, c, sku);
      DirectCommandLocks(db.ledger, c, sku);
      hide ExecuteCommand; hide Insertable; hide KeyUsed; hide RowsOf;
      hide OnHand; hide Locked; hide DirectLocks;
    }
  }

  lemma OpenStockCovers(db: Db, sku: nat, quantity: int, intake: bool, refId: nat, other: nat)
    requires Covered(db, other)
    ensures Covered(OpenStock(db, sku, quantity, intake, refId).db, other)
  {
    var rows := [OpeningRow(sku, quantity, intake, refId)];
    Grow(db.ledger, rows, other);
    Zero(rows, OnHandOf(other));
    Zero(rows, LockOf(other));
    Zero(rows, DirectLockOf(other));
  }

  predicate Quiet(step: Step) {
    step.PaymentCreate? || step.RefundCreate? || step.RefundReview? || step.RefundBegin? || step.RefundUpdate?
    || step.ShipmentCreate? || step.CatalogueChange?
  }

  lemma QuietStepsKeepLedger(db: Db, step: Step)
    requires db.Linked() && Quiet(step)
    ensures Apply(db, step).db.ledger == db.ledger
  {
    hide Find; hide LinesFor; hide LinesRefusal; hide RefundEventTaken; hide AddShipment; hide ShipLinesRefusal;
    hide ValidKey; hide ValidRefundRequest; hide ValidShipmentRequest; hide Remaining;
    if step.ShipmentCreate? && CreateShipment(db, step.orderId, step.shipment).db != db {
      ShipmentTouches(db, step.orderId, step.shipment, Requested(db, step.orderId, step.shipment));
    }
  }

  lemma CloseCovers(db: Db, id: nat, now: int, sku: nat)
    requires Valid(db) && Covered(db, sku)
    ensures Covered(CancelOrder(db, id).db, sku) && Covered(ExpireOrder(db, id, now).db, sku)
  {
    hide Covered; hide CloseOrder;
    if id < |db.orders| {
      CloseOrderCovers(db, id, Canceled, sku);
      CloseOrderCovers(db, id, Expired, sku);
    }
  }

  lemma StepKeepsCover(db: Db, step: Step, sku: nat)
    requires Valid(db) && db.Linked() && Accounted(db) && Covered(db, sku) && Disciplined(db, step)
    ensures Covered(Apply(db, step).db, sku)
  {
    hide Accounted; hide Covered; hide Valid; hide CreateOrder; hide CancelOrder; hide ExpireOrder;
    hide ConfirmPayment; hide ConfirmRefund; hide ExecuteCommand; hide OpenStock; hide CreatePayment;
    hide CreateRefund; hide ReviewRefund; hide BeginExecute; hide UpdatePending; hide CreateShipment;
    match step
    case OrderCreate(request, now, timeout) => CreateOrderCovers(db, request, now, timeout, sku);
    case OrderCancel(id) => CloseCovers(db, id, 0, sku);
    case OrderExpire(id, now) => CloseCovers(db, id, now, sku);
    case PaymentConfirm(id, c) => ConfirmPaymentCovers(db, id, c, sku);
    case RefundConfirm(id, n) => ConfirmRefundCovers(db, id, n, sku);
    case StockCommand(c) => CommandCovers(db, c, sku);
    case OpeningStock(s, quantity, intake, refId) => OpenStockCovers(db, s, quantity, intake, refId, sku);
    case _ =>
      QuietStepsKeepLedger(db, step);
      SameLedgerCovers(db, Apply(db, step).db, sku);
  }

  lemma SameLedgerCovers(db: Db, after: Db, sku: nat)
    requires Covered(db, sku) && after.ledger == db.ledger
    ensures Covered(after, sku)
  {
  }

  lemma StepKeepsSound(db: Db, step: Step)
    requires Sound(db) && db.Linked() && Disciplined(db, step)
    ensures Sound(Apply(db, step).db)
  {
    hide Valid; hide Accounted; hide Covered;
    StepKeepsBooks(db, step);
    StepKeepsStock(db, step);
    forall sku: nat ensures Covered(Apply(db, step).db, sku) {
      StepKeepsCover(db, step, sku);
    }
  }

  // ------------------------------------------------------------- over whole runs

  /** Every direct command of the run is disciplined when its turn comes. */
  ghost predicate DisciplinedRun(db: Db, steps: seq<Step>)
    requires Valid(db)
  {
    forall i :: 0 <= i < |steps| ==> Disciplined(Run(db, steps[..i]), steps[i])
  }

  ghost predicate DisciplinedReach(steps: seq<Step>) {
    forall i :: 0 <= i < |steps| ==> Disciplined(Reach(steps[..i]), steps[i])
  }

  ghost predicate UnreservedRun(steps: seq<Step>) {
    forall i :: 0 <= i < |steps| ==> Unreserved(steps[i])
  }

  lemma {:induction false} RunKeepsStock(db: Db, steps: seq<Step>)
    requires Valid(db) && Accounted(db) && UnreservedRun(steps)
    ensures Accounted(Run(db, steps))
  {
    hide Accounted; hide Valid; hide Unreserved;
    if |steps| > 0 {
      var n := |steps| - 1;
      RunKeepsStock(db, steps[..n]);
      StepKeepsStock(Run(db, steps[..n]), steps[n]);
    }
  }

  lemma {:induction false} RunKeepsSound(db: Db, steps: seq<Step>)
    requires Sound(db) && DisciplinedRun(db, steps)
    ensures Sound(Run(db, steps))
  {
    hide Accounted; hide Valid; hide Covered;
    if |steps| > 0 {
      var n := |steps| - 1;
      forall i | 0 <= i < n ensures Disciplined(Run(db, steps[..n][..i]), steps[..n][i]) {
        assert steps[..n][..i] == steps[..i];
        assert Disciplined(Run(db, steps[..i]), steps[i]);
      }
      RunKeepsSound(db, steps[..n]);
      StepKeepsSound(Run(db, steps[..n]), steps[n]);
    }
  }

  lemma EmptyIsSound()
    ensures Sound(Empty)
  {
  }

  /**
   Stock safety: whatever orders, payments, refunds and disciplined commands are run, every SKU has
   0 <= locked <= on hand, and what is locked is what pending orders and direct locks hold.
   */
  lemma StockIsSafe(steps: seq<Step>, sku: nat)
    requires DisciplinedReach(steps)
    ensures var db := Reach(steps);
            && 0 <= Locked(db.ledger, sku) <= OnHand(db.ledger, sku)
            && Locked(db.ledger, sku) == PendingQty(db.orders, sku) + DirectLocks(db.ledger, sku)
            && PendingQty(db.orders, sku) >= 0 && DirectLocks(db.ledger, sku) >= 0
  {
    EmptyIsSound();
    RunKeepsSound(Empty, steps);
    var db := Reach(steps);
    SoundIsSafe(db);
    PendingIsNonNegative(db.orders, sku);
    assert Conserved(db, sku) && Covered(db, sku);
    hide *;
  }

  /** Stock conservation, for every run whose direct commands keep off the reserved types. */
  lemma StockIsConserved(steps: seq<Step>, sku: nat)
    requires UnreservedRun(steps)
    ensures var db := Reach(steps);
            && OnHand(db.ledger, sku) ==
               DirectOnHand(db.ledger, sku) - SoldQty(db.orders, sku) + RestoredQty(db.orders, db.refunds, sku)
            && Locked(db.ledger, sku) == DirectLocks(db.ledger, sku) + PendingQty(db.orders, sku)
  {
    EmptyIsSound();
    RunKeepsStock(Empty, steps);
    assert Conserved(Reach(steps), sku);
  }

  /** The order and refund rows of the ledger are exactly those their statuses call for, once each. */
  lemma LedgerFollowsStatus(steps: seq<Step>, row: Row)
    requires UnreservedRun(steps) && Reserved(row.key.refType)
    ensures var db := Reach(steps);
            && UniqueKeys(db.ledger)
            && (row in db.ledger <==>
                if row.key.refType == "order" then OrderRow(db.orders, row)
                else RefundRow(db.orders, db.refunds, row))
  {
    EmptyIsSound();
    RunKeepsStock(Empty, steps);
  }

  /** So no order step ever trips over the ledger's unique key: a pending order can always be closed. */
  lemma PendingOrdersCanAlwaysClose(steps: seq<Step>, id: nat, now: int)
    requires UnreservedRun(steps)
    requires var db := Reach(steps); id < |db.orders| && db.orders[id].status.Pending?
    ensures var db := Reach(steps);
            && CancelOrder(db, id).result == Ok(1)
            && ExpireOrder(db, id, now).result == Ok(if db.orders[id].expiresAt <= now then 1 else 0)
  {
    EmptyIsSound();
    RunKeepsStock(Empty, steps);
    var db := Reach(steps);
    CloseOrderAccounts(db, id, Canceled);
    CloseOrderAccounts(db, id, Expired);
    hide Reach; hide Valid; hide Accounted; hide CloseOrder;
  }

  lemma PaymentCanSucceed(db: Db, id: nat, c: Confirmation)
    requires Valid(db) && db.Linked() && Accounted(db)
    requires id < |db.payments| && db.payments[id].status.PaymentPending?
    requires db.orders[db.payments[id].orderId].status.Pending?
    requires ValidConfirmation(c) && c.succeeded && c.amount == db.payments[id].amount
    ensures ConfirmPayment(db, id, c).result ==
            if EventTaken(db.payments, id, db.payments[id].channel, c.eventId) then Err(Constraint) else Ok(id)
  {
    hide LedgerExact; hide Conserved; hide OrdersOk; hide PaymentsOk; hide RefundsOk; hide CapsOk;
    hide StatusesExact; hide TransactionsOk; hide ShipmentsOk; hide Insertable; hide DeductionRows; hide EventTaken;
    DeductionsAreNew(db, db.payments[id].orderId);
  }

  /** And a success report of the right amount is always taken, unless its event id is in use. */
  lemma PendingPaymentsCanAlwaysSucceed(steps: seq<Step>, id: nat, c: Confirmation)
    requires UnreservedRun(steps)
    requires var db := Reach(steps);
             && id < |db.payments| && db.payments[id].status.PaymentPending?
             && db.orders[db.payments[id].orderId].status.Pending?
             && ValidConfirmation(c) && c.succeeded && c.amount == db.payments[id].amount
    ensures var db := Reach(steps);
            ConfirmPayment(db, id, c).result ==
              if EventTaken(db.payments, id, db.payments[id].channel, c.eventId) then Err(Constraint) else Ok(id)
  {
    hide Valid; hide Accounted; hide ConfirmPayment; hide Run; hide ValidConfirmation; hide UnreservedRun;
    EmptyIsSound();
    RunKeepsStock(Empty, steps);
    PaymentCanSucceed(Reach(steps), id, c);
  }
}
