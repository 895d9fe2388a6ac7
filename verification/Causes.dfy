/**
 What a single transaction can do to a status: only what the transition tables allow, only for its own
 reason, and nothing at all when it is refused. Several updates never consult the tables.
 */
module Causes {
  import opened Inventory
  import opened Tables
  import opened Orders
  import opened Payments
  import opened Refunds
  import opened Shipments
  import opened Steps

  predicate AfterSale(step: Step) {
    step.RefundCreate? || step.RefundReview? || step.RefundBegin? || step.RefundUpdate? || step.RefundConfirm?
    || step.ShipmentCreate?
  }

  lemma RefusedSalesChangeNothing(db: Db, step: Step)
    requires db.Linked() && !AfterSale(step) && Apply(db, step).result.Err?
    ensures Apply(db, step).db == db
  {
    hide Insertable; hide Find; hide Lockable; hide Db.Linked; hide OrderRows; hide DeductionRows; hide BalanceOf;
    hide ValidOrderRequest; hide EventTaken; hide Refusal;
  }

  lemma RefusedRefundsChangeNothing(db: Db, step: Step)
    requires db.Linked() && AfterSale(step) && Apply(db, step).result.Err?
    ensures Apply(db, step).db == db
  {
    hide Find; hide LinesRefusal; hide LinesFor; hide Remaining; hide ShipLinesRefusal; hide RestoreRows;
    hide FullyShipped; hide FullyRefunded; hide Db.Linked; hide RefundEventTaken; hide ValidRefundRequest;
  }

  /** A throw rolls back: a refused step leaves every table as it was. */
  lemma RefusedStepsChangeNothing(db: Db, step: Step)
    requires db.Linked() && Apply(db, step).result.Err?
    ensures Apply(db, step).db == db
  {
    hide *;
    if AfterSale(step) {
      RefusedRefundsChangeNothing(db, step);
    } else {
      RefusedSalesChangeNothing(db, step);
    }
  }

  /** The step that may give an order this status. */
  predicate Explains(db: Db, step: Step, o: nat, status: OrderStatus)
    requires o < |db.orders|
  {
    match status
    case Pending => false
    case Canceled => step == OrderCancel(o)
    case Expired => step.OrderExpire? && step.id == o && db.orders[o].expiresAt <= step.now
    case Paid =>
      && step.PaymentConfirm? && step.id < |db.payments| && db.payments[step.id].orderId == o
      && step.confirmation.succeeded && step.confirmation.amount == db.payments[step.id].amount
    case Fulfilled => step.ShipmentCreate? && step.orderId == o
    case _ =>
      && step.RefundConfirm? && step.id < |db.refunds| && db.refunds[step.id].orderId == o
      && step.notice.succeeded && step.notice.amount == db.refunds[step.id].amount
  }


  ghost predicate Explained(db: Db, step: Step, after: seq<Order>) {
    && |db.orders| <= |after|
    && (forall o :: 0 <= o < |db.orders| && after[o] != db.orders[o] ==>
          && after[o] == db.orders[o].(status := after[o].status)
          && OrderStep(db.orders[o].status, after[o].status)
          && Explains(db, step, o, after[o].status))
    && (forall o :: |db.orders| <= o < |after| ==> after[o].status.Pending?)
  }

  lemma CreateIsExplained(db: Db, request: OrderRequest, now: int, timeout: int)
    ensures Explained(db, OrderCreate(request, now, timeout), CreateOrder(db, request, now, timeout).db.orders)
  {
    hide Find; hide Lockable; hide ValidOrderRequest; hide Insertable; hide OrderRows; hide FitsColumns;
  }

  lemma CloseIsExplained(db: Db, id: nat, now: int)
    ensures Explained(db, OrderCancel(id), CancelOrder(db, id).db.orders)
    ensures Explained(db, OrderExpire(id, now), ExpireOrder(db, id, now).db.orders)
  {
    hide Insertable; hide OrderRows;
  }

  lemma PaymentIsExplained(db: Db, id: nat, c: Confirmation)
    requires db.Linked()
    ensures Explained(db, PaymentConfirm(id, c), ConfirmPayment(db, id, c).db.orders)
  {
    hide Insertable; hide DeductionRows; hide EventTaken; hide ValidConfirmation;
    assert id < |db.payments| ==> db.payments[id] in db.payments;
  }

  lemma ShipmentIsExplained(db: Db, orderId: nat, request: ShipmentRequest)
    ensures Explained(db, ShipmentCreate(orderId, request), CreateShipment(db, orderId, request).db.orders)
  {
    hide ValidShipmentRequest; hide Requested; hide ShipLinesRefusal; hide FullyShipped; hide TrackingTaken;
  }

  lemma RefundIsExplained(db: Db, id: nat, n: RefundNotice)
    requires db.Linked()
    ensures Explained(db, RefundConfirm(id, n), ConfirmRefund(db, id, n).db.orders)
  {
    hide Find; hide RestoreRows; hide FullyRefunded; hide RefundEventTaken; hide ValidNotice;
    hide InsertSkippingDuplicates; hide LinesOf;
    assert id < |db.refunds| ==> db.refunds[id] in db.refunds;
  }

  /**
   Every change of an order's status, through the tables or around them, is one the tables allow and
   has its cause: its own cancellation, its deadline, a full payment, its shipment, or a refund of it.
   New orders are pending, and nothing but the status of an order ever changes.
   */
  lemma StatusChangesHaveCauses(db: Db, step: Step)
    requires db.Linked()
    ensures Explained(db, step, Apply(db, step).db.orders)
  {
    hide CreateOrder; hide CancelOrder; hide ExpireOrder; hide ConfirmPayment; hide CreateShipment; hide ConfirmRefund;
    hide Explains; hide OrderStep; hide Find; hide Insertable; hide LinesRefusal; hide LinesFor; hide Execute;
    hide Db.Linked; hide RefundEventTaken; hide ValidRefundRequest;
    match step
    case OrderCreate(request, now, timeout) => CreateIsExplained(db, request, now, timeout);
    case OrderCancel(id) => CloseIsExplained(db, id, 0);
    case OrderExpire(id, now) => CloseIsExplained(db, id, now);
    case PaymentConfirm(id, c) => PaymentIsExplained(db, id, c);
    case ShipmentCreate(orderId, request) => ShipmentIsExplained(db, orderId, request);
    case RefundConfirm(id, n) => RefundIsExplained(db, id, n);
    case _ =>
  }

  ghost predicate RefundsExplained(db: Db, step: Step, after: seq<Refund>) {
    && |db.refunds| <= |after|
    && (forall r :: 0 <= r < |db.refunds| && after[r] != db.refunds[r] ==>
          && after[r] == db.refunds[r].(status := after[r].status)
          && RefundStep(db.refunds[r].status, after[r].status)
          && match after[r].status
             case Approved => step.RefundReview? && step.id == r && step.approved
             case Rejected => step.RefundReview? && step.id == r && !step.approved
             case RefundSucceeded => step.RefundConfirm? && step.id == r && step.notice.succeeded
             case RefundFailed => step.RefundConfirm? && step.id == r && !step.notice.succeeded
             case PendingReview => false)
    && (forall r :: |db.refunds| <= r < |after| ==> after[r].status.PendingReview?)
  }

  lemma NoticeMovesItsRefund(db: Db, id: nat, n: RefundNotice)
    requires db.Linked()
    ensures RefundsExplained(db, RefundConfirm(id, n), ConfirmRefund(db, id, n).db.refunds)
  {
    hide Find; hide RestoreRows; hide FullyRefunded; hide RefundEventTaken; hide ValidNotice; hide Db.Linked;
    hide InsertSkippingDuplicates;
  }

  lemma RequestsAwaitReview(db: Db, orderId: nat, request: RefundRequest)
    ensures RefundsExplained(db, RefundCreate(orderId, request), CreateRefund(db, orderId, request).db.refunds)
  {
    hide Find; hide LinesRefusal; hide LinesFor; hide ValidRefundRequest;
  }

  lemma OtherStepsKeepRefunds(db: Db, step: Step)
    requires db.Linked() && !step.RefundCreate? && !step.RefundReview? && !step.RefundConfirm?
    ensures Apply(db, step).db.refunds == db.refunds
  {
    hide FullyShipped; hide ShipLinesRefusal; hide Remaining; hide Insertable; hide Find; hide Db.Linked;
    hide ValidOrderRequest; hide Lockable; hide DeductionRows; hide OrderRows; hide EventTaken;
  }

  /** The same for refunds: only its review and its own notices move one. */
  lemma RefundChangesHaveCauses(db: Db, step: Step)
    requires db.Linked()
    ensures RefundsExplained(db, step, Apply(db, step).db.refunds)
  {
    hide CreateRefund; hide ConfirmRefund; hide Db.Linked;
    match step
    case RefundCreate(orderId, request) => RequestsAwaitReview(db, orderId, request);
    case RefundReview(_, _, _) =>
    case RefundConfirm(id, n) => NoticeMovesItsRefund(db, id, n);
    case _ =>
      hide Apply;
      OtherStepsKeepRefunds(db, step);
  }
}
