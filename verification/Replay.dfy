/**
 Repeating a command: every accepted command, delivered again at any later point of a run, changes
 nothing. Two steps are excepted: the unguarded write of a pending refund's event, and catalogue edits.
 */
module Replay {
  import opened Wrappers
  import opened Inventory
  import opened Tables
  import opened Orders
  import opened Payments
  import opened Refunds
  import opened Shipments
  import opened Steps
  import opened Books
  import opened Runs

  // ------------------------------------------------------ what no step takes back

  ghost predicate OrdersExtend(a: seq<Order>, b: seq<Order>) {
    && |a| <= |b|
    && forall i :: 0 <= i < |a| ==>
      && b[i].(status := a[i].status) == a[i]
      && (b[i].status.Pending? ==> a[i].status.Pending?)
  }

  /** A settled payment is never written again. */
  ghost predicate PaymentsExtend(a: seq<Payment>, b: seq<Payment>) {
    && |a| <= |b|
    && forall i :: 0 <= i < |a| ==>
      && b[i].key == a[i].key && b[i].orderId == a[i].orderId && b[i].channel == a[i].channel
      && b[i].number == a[i].number && b[i].amount == a[i].amount
      && (!a[i].status.PaymentPending? ==> b[i] == a[i])
  }

  ghost predicate RefundsExtend(a: seq<Refund>, b: seq<Refund>) {
    && |a| <= |b|
    && forall i :: 0 <= i < |a| ==>
      && b[i].(status := a[i].status) == a[i]
      && (b[i].status.PendingReview? ==> a[i].status.PendingReview?)
      && (a[i].status.RefundSucceeded? || a[i].status.RefundFailed? ==> b[i].status == a[i].status)
  }

  ghost predicate TransactionsExtend(a: seq<Transaction>, b: seq<Transaction>) {
    && |a| <= |b|
    && forall i :: 0 <= i < |a| ==>
      && b[i].refundId == a[i].refundId && b[i].channel == a[i].channel
      && (!a[i].status.TxPending? ==> b[i].status == a[i].status)
  }

  ghost predicate Extends(a: Db, b: Db) {
    && a.ledger <= b.ledger
    && OrdersExtend(a.orders, b.orders)
    && PaymentsExtend(a.payments, b.payments)
    && RefundsExtend(a.refunds, b.refunds)
    && TransactionsExtend(a.transactions, b.transactions)
    && a.shipments <= b.shipments
  }

  lemma ExtendsTransitively(a: Db, b: Db, c: Db)
    requires Extends(a, b) && Extends(b, c)
    ensures Extends(a, c)
  {
  }

  lemma {:induction false} SkippingOnlyAdds(rows: seq<Row>, added: seq<Row>)
    ensures rows <= InsertSkippingDuplicates(rows, added)
    decreases |added|
  {
    if added != [] {
      SkippingOnlyAdds(rows, added[1..]);
      SkippingOnlyAdds(rows + [added[0]], added[1..]);
    }
  }

  lemma ConfirmRefundExtends(db: Db, id: nat, n: RefundNotice)
    requires db.Linked()
    ensures Extends(db, ConfirmRefund(db, id, n).db)
  {
    hide FullyRefunded; hide RefundEventTaken; hide ValidNotice; hide RestoreRows; hide InsertSkippingDuplicates;
    hide Find; hide Refundable; hide LinesOf;
    if ConfirmRefund(db, id, n).db != db && n.succeeded {
      var refund := db.refunds[id];
      SkippingOnlyAdds(db.ledger, RestoreRows(db.orders[refund.orderId].items, refund.lines, id));
    }
  }

  lemma ConfirmPaymentExtends(db: Db, id: nat, c: Confirmation)
    requires db.Linked()
    ensures Extends(db, ConfirmPayment(db, id, c).db)
  {
    hide Insertable; hide EventTaken; hide DeductionRows; hide ValidConfirmation; hide FitsMoney;
  }

  lemma CreateRefundExtends(db: Db, orderId: nat, request: RefundRequest)
    ensures Extends(db, CreateRefund(db, orderId, request).db)
  {
    hide LinesFor; hide LinesRefusal; hide ValidRefundRequest; hide Find; hide ReservedAmount;
  }

  lemma CreateShipmentExtends(db: Db, orderId: nat, request: ShipmentRequest)
    ensures Extends(db, CreateShipment(db, orderId, request).db)
  {
    hide FullyShipped; hide ShipLinesRefusal; hide Requested; hide ValidShipmentRequest; hide TrackingTaken;
  }

  lemma CreateOrderExtends(db: Db, request: OrderRequest, now: int, timeout: int)
    ensures Extends(db, CreateOrder(db, request, now, timeout).db)
  {
    hide Lockable; hide ValidOrderRequest; hide FitsColumns; hide Find; hide Insertable; hide OrderRows; hide OnSale;
    hide NewOrder;
  }

  lemma CloseOrderExtends(db: Db, id: nat, now: int)
    ensures Extends(db, CancelOrder(db, id).db) && Extends(db, ExpireOrder(db, id, now).db)
  {
    hide Insertable; hide OrderRows;
  }

  lemma PaymentStepsExtend(db: Db, key: string, orderId: nat, channel: string, number: string)
    ensures Extends(db, CreatePayment(db, key, orderId, channel, number).db)
  {
    hide Find; hide ValidKey;
  }

  lemma ReviewExtends(db: Db, id: nat, approved: bool, note: string)
    ensures Extends(db, ReviewRefund(db, id, approved, note).db)
  {
  }

  lemma BeginExtends(db: Db, id: nat)
    requires db.Linked()
    ensures Extends(db, BeginExecute(db, id).db)
  {
    hide Find; hide Db.Linked;
  }

  lemma UpdateExtends(db: Db, id: nat, eventId: string, refundNo: string)
    ensures Extends(db, UpdatePending(db, id, eventId, refundNo).db)
  {
    hide RefundEventTaken;
  }

  lemma StockStepsExtend(db: Db, step: Step)
    requires db.Linked() && (step.StockCommand? || step.OpeningStock? || step.CatalogueChange?)
    ensures Extends(db, Apply(db, step).db)
  {
    hide Insertable; hide KeyUsed; hide Refusal; hide BalanceOf;
  }

  /** Every step only ever adds to what is settled. */
  lemma StepExtends(db: Db, step: Step)
    requires db.Linked()
    ensures Extends(db, Apply(db, step).db)
  {
    hide Extends;
    match step
    case OrderCreate(request, now, timeout) => CreateOrderExtends(db, request, now, timeout);
    case OrderCancel(id) => CloseOrderExtends(db, id, 0);
    case OrderExpire(id, now) => CloseOrderExtends(db, id, now);
    case PaymentConfirm(id, c) => ConfirmPaymentExtends(db, id, c);
    case RefundCreate(orderId, request) => CreateRefundExtends(db, orderId, request);
    case RefundConfirm(id, n) => ConfirmRefundExtends(db, id, n);
    case ShipmentCreate(orderId, request) => CreateShipmentExtends(db, orderId, request);
    case StockCommand(_) => StockStepsExtend(db, step);
    case OpeningStock(_, _, _, _) => StockStepsExtend(db, step);
    case CatalogueChange(_, _) => StockStepsExtend(db, step);
    case PaymentCreate(key, orderId, channel, number) => PaymentStepsExtend(db, key, orderId, channel, number);
    case RefundReview(id, approved, note) => ReviewExtends(db, id, approved, note);
    case RefundBegin(id) => BeginExtends(db, id);
    case RefundUpdate(id, eventId, refundNo) => UpdateExtends(db, id, eventId, refundNo);
  }

  lemma NothingExtends(db: Db)
    ensures Extends(db, db)
  {
  }

  lemma {:induction false} RunExtendsFrom(db: Db, steps: seq<Step>)
    requires Valid(db)
    ensures Extends(db, Run(db, steps))
  {
    hide Valid; hide Extends; hide Apply;
    NothingExtends(db);
    if |steps| > 0 {
      var n := |steps| - 1;
      RunExtendsFrom(db, steps[..n]);
      StepExtends(Run(db, steps[..n]), steps[n]);
      ExtendsTransitively(db, Run(db, steps[..n]), Run(db, steps));
    }
  }

  // -------------------------------------------------------------- the repeat

  predicate Repeatable(step: Step) {
    !step.RefundUpdate? && !step.CatalogueChange?
  }

  /** Accepted and, for the expiry scan, carried out. */
  predicate Accepted(db: Db, step: Step)
    requires db.Linked()
  {
    Apply(db, step).result.Ok? && (step.OrderExpire? ==> Apply(db, step).result == Ok(1))
  }

  lemma UsedStaysUsed(a: seq<Row>, b: seq<Row>, key: Key)
    requires a <= b && KeyUsed(a, key)
    ensures KeyUsed(b, key)
  {
    var i :| 0 <= i < |a| && a[i].key == key;
    assert b[i].key == key;
  }

  lemma RepeatedOrder(a: Db, request: OrderRequest, now: int, timeout: int, b: Db)
    requires CreateOrder(a, request, now, timeout).result.Ok? && OrdersOk(b.orders)
    requires Extends(CreateOrder(a, request, now, timeout).db, b)
    ensures CreateOrder(b, request, now, timeout) == Outcome(b, CreateOrder(a, request, now, timeout).result)
  {
    hide ValidOrderRequest; hide Lockable; hide OrderShape; hide Insertable; hide FitsColumns;
    hide PaymentsExtend; hide RefundsExtend; hide TransactionsExtend;
    var i := CreateOrder(a, request, now, timeout).result.value;
    var after := CreateOrder(a, request, now, timeout).db;
    assert after.orders[i].request == request;
    assert OrderKeyed(request.key)(b.orders[i]);
  }

  lemma RepeatedPayment(a: Db, key: string, orderId: nat, channel: string, number: string, b: Db)
    requires CreatePayment(a, key, orderId, channel, number).result.Ok? && PaymentsOk(b.orders, b.payments)
    requires Extends(CreatePayment(a, key, orderId, channel, number).db, b)
    ensures CreatePayment(b, key, orderId, channel, number) ==
            Outcome(b, CreatePayment(a, key, orderId, channel, number).result)
  {
    hide ValidKey; hide PaymentShape; hide Wins; hide OrdersExtend; hide RefundsExtend; hide TransactionsExtend;
    var i := CreatePayment(a, key, orderId, channel, number).result.value;
    assert PaymentKeyed(key)(b.payments[i]);
  }

  lemma RepeatedConfirmation(a: Db, id: nat, c: Confirmation, b: Db)
    requires a.Linked() && b.Linked() && ConfirmPayment(a, id, c).result.Ok?
    requires Extends(ConfirmPayment(a, id, c).db, b)
    ensures ConfirmPayment(b, id, c) == Outcome(b, Ok(id))
  {
    hide Insertable; hide EventTaken; hide DeductionRows;
    assert !ConfirmPayment(a, id, c).db.payments[id].status.PaymentPending?;
  }

  lemma RepeatedRefund(a: Db, orderId: nat, request: RefundRequest, b: Db)
    requires CreateRefund(a, orderId, request).result.Ok? && RefundsOk(b.orders, b.refunds)
    requires Extends(CreateRefund(a, orderId, request).db, b)
    ensures CreateRefund(b, orderId, request) == Outcome(b, CreateRefund(a, orderId, request).result)
  {
    hide LinesFor; hide LinesRefusal; hide ReservedAmount; hide RefundShape; hide ValidRefundRequest;
    hide PaymentsExtend; hide TransactionsExtend; hide OrdersExtend;
    var i := CreateRefund(a, orderId, request).result.value;
    var after := CreateRefund(a, orderId, request).db;
    assert after.refunds[i].request == request;
    assert RefundKeyed(request.key)(b.refunds[i]);
  }

  /** The event id of a settled refund may have been overwritten, but nothing is written again. */
  lemma RepeatedRefundNotice(a: Db, id: nat, n: RefundNotice, b: Db)
    requires a.Linked() && b.Linked() && ConfirmRefund(a, id, n).result.Ok?
    requires Extends(ConfirmRefund(a, id, n).db, b) && TransactionsOk(b.refunds, b.transactions)
    ensures ConfirmRefund(b, id, n).db == b
  {
    var k := NoticeSettles(a, id, n);
    hide ConfirmRefund; hide OrdersExtend; hide PaymentsExtend; hide RefundsExtend;
    SettledNoticeIsFinal(b, id, k, n);
  }

  lemma NoticeSettles(a: Db, id: nat, n: RefundNotice) returns (k: nat)
    requires a.Linked() && ConfirmRefund(a, id, n).result.Ok?
    ensures var after := ConfirmRefund(a, id, n).db;
            k < |after.transactions| && after.transactions[k].refundId == id && !after.transactions[k].status.TxPending?
  {
    hide FullyRefunded; hide RefundEventTaken; hide ValidNotice; hide RestoreRows;
    k := Find(a.transactions, ForRefund(id)).value;
  }

  /** Once its transaction is settled, no notice writes to a refund again. */
  lemma SettledNoticeIsFinal(b: Db, id: nat, k: nat, n: RefundNotice)
    requires b.Linked() && TransactionsOk(b.refunds, b.transactions)
    requires k < |b.transactions| && b.transactions[k].refundId == id && !b.transactions[k].status.TxPending?
    ensures ConfirmRefund(b, id, n).db == b
  {
    hide FullyRefunded; hide RefundEventTaken; hide ValidNotice; hide RestoreRows;
    assert ForRefund(id)(b.transactions[k]);
    assert Find(b.transactions, ForRefund(id)) == Some(k);
  }

  lemma RepeatedExecute(a: Db, id: nat, b: Db)
    requires a.Linked() && b.Linked() && BeginExecute(a, id).result.Ok?
    requires Extends(BeginExecute(a, id).db, b)
    ensures BeginExecute(b, id) == Outcome(b, Ok(0))
  {
    var after := BeginExecute(a, id).db;
    var found := Find(a.transactions, ForRefund(id));
    var k := if found.Some? then found.value else |a.transactions|;
    assert after.transactions[k].refundId == id;
    assert ForRefund(id)(b.transactions[k]);
  }

  lemma RepeatedShipment(a: Db, orderId: nat, request: ShipmentRequest, b: Db)
    requires CreateShipment(a, orderId, request).result.Ok?
    requires Extends(CreateShipment(a, orderId, request).db, b)
    ensures CreateShipment(b, orderId, request).db == b
  {
    hide FullyShipped; hide ShipLinesRefusal; hide Remaining;
    var after := CreateShipment(a, orderId, request).db;
    var shipment := after.shipments[|a.shipments|];
    assert b.shipments[|a.shipments|] == shipment;
    assert TrackingTaken(b.shipments, shipment.carrierCode, shipment.trackingNo);
  }

  lemma RepeatedCommand(a: Db, c: Command, b: Db)
    requires ExecuteCommand(a, c).result.Ok? && Extends(ExecuteCommand(a, c).db, b)
    ensures ExecuteCommand(b, c).db == b
  {
    var after := ExecuteCommand(a, c).db;
    if !KeyUsed(a.ledger, KeyOf(c)) {
      assert after.ledger[|a.ledger|].key == KeyOf(c);
    }
    UsedStaysUsed(after.ledger, b.ledger, KeyOf(c));
  }

  lemma RepeatedOpening(a: Db, sku: nat, quantity: int, intake: bool, refId: nat, b: Db)
    requires OpenStock(a, sku, quantity, intake, refId).result.Ok?
    requires Extends(OpenStock(a, sku, quantity, intake, refId).db, b)
    ensures OpenStock(b, sku, quantity, intake, refId).db == b
  {
    var row := OpeningRow(sku, quantity, intake, refId);
    var after := OpenStock(a, sku, quantity, intake, refId).db;
    assert after.ledger[|a.ledger|] == row;
    UsedStaysUsed(after.ledger, b.ledger, row.key);
    assert !Insertable(b.ledger, [row]);
  }

  /** A repeat of an accepted command finds its own trace and leaves every table alone. */
  lemma RepeatChangesNothing(a: Db, step: Step, b: Db)
    requires a.Linked() && Valid(b) && b.Linked()
    requires Repeatable(step) && Accepted(a, step) && Extends(Apply(a, step).db, b)
    ensures Apply(b, step).db == b
  {
    hide Extends; hide OrdersOk; hide PaymentsOk; hide RefundsOk; hide CapsOk;
    hide StatusesExact; hide TransactionsOk; hide ShipmentsOk;
    match step
    case OrderCreate(request, now, timeout) => RepeatedOrder(a, request, now, timeout, b);
    case OrderCancel(id) => RepeatedClose(a, step, id, b);
    case OrderExpire(id, now) => RepeatedClose(a, step, id, b);
    case PaymentCreate(key, orderId, channel, number) => RepeatedPayment(a, key, orderId, channel, number, b);
    case PaymentConfirm(id, c) => RepeatedConfirmation(a, id, c, b);
    case RefundCreate(orderId, request) => RepeatedRefund(a, orderId, request, b);
    case RefundReview(id, approved, note) => RepeatedReview(a, id, approved, note, b);
    case RefundBegin(id) => RepeatedExecute(a, id, b);
    case RefundConfirm(id, n) => RepeatedRefundNotice(a, id, n, b);
    case ShipmentCreate(orderId, request) => RepeatedShipment(a, orderId, request, b);
    case StockCommand(c) => RepeatedCommand(a, c, b);
    case OpeningStock(sku, quantity, intake, refId) => RepeatedOpening(a, sku, quantity, intake, refId, b);
    case _ =>
  }

  lemma RepeatedClose(a: Db, step: Step, id: nat, b: Db)
    requires a.Linked() && b.Linked() && Accepted(a, step) && Extends(Apply(a, step).db, b)
    requires step == OrderCancel(id) || (step.OrderExpire? && step.id == id)
    ensures Apply(b, step).db == b
  {
    hide OrderRows; hide Insertable;
    assert !Apply(a, step).db.orders[id].status.Pending?;
  }

  lemma RepeatedReview(a: Db, id: nat, approved: bool, note: string, b: Db)
    requires ReviewRefund(a, id, approved, note).result.Ok? && Extends(ReviewRefund(a, id, approved, note).db, b)
    ensures ReviewRefund(b, id, approved, note).db == b
  {
  }

  /** Inserting repeats of accepted commands anywhere later in a run leaves its outcome unchanged. */
  lemma RepeatsAreInvisible(before: seq<Step>, step: Step, between: seq<Step>, after: seq<Step>)
    requires Repeatable(step) && Accepted(Reach(before), step)
    ensures Reach(before + [step] + between + [step] + after) == Reach(before + [step] + between + after)
  {
    EmptyIsValid();
    hide Valid; hide Extends;
    var first := before + [step];
    var b := Run(Empty, first + between);
    RunConcat(Empty, before, [step]);
    RunOne(Run(Empty, before), step);
    RunConcat(Empty, first, between);
    RunExtendsFrom(Run(Empty, first), between);
    RepeatChangesNothing(Run(Empty, before), step, b);
    RunConcat(Empty, first + between, [step]);
    RunOne(b, step);
    RunConcat(Empty, first + between + [step], after);
    RunConcat(Empty, first + between, after);
  }

  // ------------------------------------------------------------ reused keys

  /** An order key reused with another request is refused, and the tables stay as they are. */
  lemma ReusedOrderKeyIsRefused(db: Db, i: nat, request: OrderRequest, now: int, timeout: int)
    requires Valid(db) && i < |db.orders|
    requires request.key == db.orders[i].request.key && request != db.orders[i].request
    ensures CreateOrder(db, request, now, timeout) == Throw(db, Conflict)
  {
    hide Valid; hide ValidOrderRequest; hide Lockable;
    assert OrderKeyed(request.key)(db.orders[i]);
    OrderKeysAreUnique(db, i);
  }

  lemma OrderKeysAreUnique(db: Db, i: nat)
    requires Valid(db) && i < |db.orders|
    ensures Find(db.orders, OrderKeyed(db.orders[i].request.key)) == Some(i)
  {
    assert OrderKeyed(db.orders[i].request.key)(db.orders[i]);
  }

  /** So is a refund key: the order it is sent for is no part of the comparison. */
  lemma ReusedRefundKeyIsRefused(db: Db, i: nat, orderId: nat, request: RefundRequest)
    requires RefundsOk(db.orders, db.refunds) && i < |db.refunds| && request.key == db.refunds[i].request.key
    ensures CreateRefund(db, orderId, request) ==
            if request == db.refunds[i].request && ValidRefundRequest(request) then Return(db, i) else Throw(db, Conflict)
  {
    hide ValidRefundRequest; hide LinesRefusal; hide RefundShape;
    assert RefundKeyed(request.key)(db.refunds[i]);
    assert Find(db.refunds, RefundKeyed(request.key)) == Some(i);
  }

  /** A payment key belongs to one order and one channel. */
  lemma ReusedPaymentKeyIsRefused(db: Db, i: nat, orderId: nat, channel: string, number: string)
    requires PaymentsOk(db.orders, db.payments) && i < |db.payments|
    requires orderId != db.payments[i].orderId || channel != db.payments[i].channel
    ensures CreatePayment(db, db.payments[i].key, orderId, channel, number) == Throw(db, Conflict)
  {
    assert PaymentKeyed(db.payments[i].key)(db.payments[i]);
  }
}
