/**
 What every transaction keeps about orders, payments, refunds and shipments. None of it depends on
 the stock ledger, so it holds whatever direct inventory commands are issued.
 */
module Books {
  import opened Summation
  import opened Tables
  import opened Orders
  import opened Refunds
  import opened Shipments

  // -------------------------------------------------------------- invariants

  ghost predicate OrderShape(o: Order) {
    && |o.items| > 0
    && (forall i :: 0 <= i < |o.items| ==> o.items[i].quantity > 0)
    && (forall i, j :: 0 <= i < j < |o.items| ==> o.items[i].sku != o.items[j].sku)
    && o.subtotal == Subtotal(o.items)
    && o.total == o.subtotal - o.request.discount + o.request.shippingFee
    && o.total >= 0 && FitsColumns(o)
  }

  ghost predicate OrdersOk(orders: seq<Order>) {
    && (forall i :: 0 <= i < |orders| ==> OrderShape(orders[i]))
    && (forall i, j :: 0 <= i < j < |orders| ==> orders[i].request.key != orders[j].request.key)
  }

  function WinOf(orderId: nat): Payment -> int {
    (p: Payment) => if p.orderId == orderId && p.status.PaymentSucceeded? then 1 else 0
  }

  /** How many payments of an order succeeded. */
  function Wins(payments: seq<Payment>, orderId: nat): int {
    Sum(payments, WinOf(orderId))
  }

  ghost predicate PaymentShape(orders: seq<Order>, p: Payment) {
    && p.orderId < |orders|
    && p.amount == orders[p.orderId].total
    && (p.status.PaymentPending? <==> p.eventId.None?)
    && (p.status.PaymentPending? <==> p.tradeNo.None?)
    && (p.tradeNo.Some? ==> p.tradeNo.value != "")
  }

  ghost predicate PaymentsOk(orders: seq<Order>, payments: seq<Payment>) {
    && (forall i :: 0 <= i < |payments| ==> PaymentShape(orders, payments[i]))
    && (forall i, j :: 0 <= i < j < |payments| ==> payments[i].key != payments[j].key)
    && (forall o :: 0 <= o < |orders| ==>
          Wins(payments, o) == if PaidOrLater(orders[o].status) then 1 else 0)
  }

  ghost predicate RefundShape(orders: seq<Order>, r: Refund) {
    && r.orderId < |orders|
    && PaidOrLater(orders[r.orderId].status)
    && |r.lines| > 0
    && LinesOf(r.lines, orders[r.orderId].items)
    && (forall k :: 0 <= k < |r.lines| ==>
          && 0 < r.lines[k].quantity <= orders[r.orderId].items[r.lines[k].item].quantity
          && r.lines[k].amount == orders[r.orderId].items[r.lines[k].item].unitPrice * r.lines[k].quantity)
    && (forall j, k :: 0 <= j < k < |r.lines| ==> r.lines[j].item != r.lines[k].item)
    && r.amount == Sum(r.lines, AmountOf)
    && r.amount > 0
  }

  ghost predicate RefundsOk(orders: seq<Order>, refunds: seq<Refund>) {
    && (forall i :: 0 <= i < |refunds| ==> RefundShape(orders, refunds[i]))
    && (forall i, j :: 0 <= i < j < |refunds| ==> refunds[i].request.key != refunds[j].request.key)
  }

  /** No item and no order is promised back more than was bought. */
  ghost predicate CapsOk(orders: seq<Order>, refunds: seq<Refund>) {
    && (forall o, i :: 0 <= o < |orders| && 0 <= i < |orders[o].items| ==>
          ReservedQty(refunds, o, i) <= orders[o].items[i].quantity)
    && (forall o :: 0 <= o < |orders| ==> ReservedAmount(refunds, o) <= orders[o].total)
  }

  ghost predicate SomeRefunded(refunds: seq<Refund>, orderId: nat) {
    exists r :: 0 <= r < |refunds| && refunds[r].orderId == orderId && refunds[r].status.RefundSucceeded?
  }

  /** The order status says exactly how much of the order was refunded. */
  ghost predicate StatusExact(orders: seq<Order>, refunds: seq<Refund>, o: nat)
    requires o < |orders|
  {
    && (orders[o].status.Refunded? <==> FullyRefunded(orders[o].items, refunds, o))
    && (orders[o].status.PartiallyRefunded? <==>
        SomeRefunded(refunds, o) && !FullyRefunded(orders[o].items, refunds, o))
  }

  ghost predicate StatusesExact(orders: seq<Order>, refunds: seq<Refund>) {
    forall o :: 0 <= o < |orders| ==> StatusExact(orders, refunds, o)
  }

  /** A transaction's status is its refund's. */
  predicate Agree(t: TransactionStatus, r: RefundStatus) {
    match t
    case TxPending => r.Approved?
    case TxSucceeded => r.RefundSucceeded?
    case TxFailed => r.RefundFailed?
  }

  ghost predicate TransactionsOk(refunds: seq<Refund>, transactions: seq<Transaction>) {
    && (forall t :: 0 <= t < |transactions| ==>
          && transactions[t].refundId < |refunds|
          && Agree(transactions[t].status, refunds[transactions[t].refundId].status)
          && transactions[t].amount == refunds[transactions[t].refundId].amount
          && (!transactions[t].status.TxPending? ==> transactions[t].eventId.Some?))
    && (forall t, u :: 0 <= t < u < |transactions| ==> transactions[t].refundId != transactions[u].refundId)
    && (forall r :: 0 <= r < |refunds| && (refunds[r].status.RefundSucceeded? || refunds[r].status.RefundFailed?) ==>
          Find(transactions, ForRefund(r)).Some?)
  }

  ghost predicate ShipmentShape(orders: seq<Order>, s: Shipment) {
    && s.orderId < |orders|
    && (forall k :: 0 <= k < |s.lines| ==> s.lines[k].item < |orders[s.orderId].items| && s.lines[k].quantity > 0)
    && (forall j, k :: 0 <= j < k < |s.lines| ==> s.lines[j].item != s.lines[k].item)
  }

  ghost predicate SomethingLeft(items: seq<OrderItem>, shipments: seq<Shipment>, o: nat) {
    exists i :: 0 <= i < |items| && ShippedQty(shipments, o, i) < items[i].quantity
  }

  ghost predicate ShippedExact(orders: seq<Order>, shipments: seq<Shipment>, o: nat)
    requires o < |orders|
  {
    var items := orders[o].items;
    && (forall i :: 0 <= i < |items| ==> 0 <= ShippedQty(shipments, o, i) <= items[i].quantity)
    && (!PaidOrLater(orders[o].status) ==> forall i :: 0 <= i < |items| ==> ShippedQty(shipments, o, i) == 0)
    && (orders[o].status.Paid? ==> SomethingLeft(items, shipments, o))
    && (orders[o].status.Fulfilled? ==> FullyShipped(items, shipments, o))
  }

  ghost predicate ShipmentsOk(orders: seq<Order>, shipments: seq<Shipment>) {
    && (forall s :: 0 <= s < |shipments| ==> ShipmentShape(orders, shipments[s]))
    && (forall o :: 0 <= o < |orders| ==> ShippedExact(orders, shipments, o))
  }

  ghost predicate Valid(db: Db) {
    && OrdersOk(db.orders)
    && PaymentsOk(db.orders, db.payments)
    && RefundsOk(db.orders, db.refunds)
    && CapsOk(db.orders, db.refunds)
    && StatusesExact(db.orders, db.refunds)
    && TransactionsOk(db.refunds, db.transactions)
    && ShipmentsOk(db.orders, db.shipments)
  }

  lemma ValidIsLinked(db: Db)
    requires Valid(db)
    ensures db.Linked()
  {
    assert forall r | r in db.refunds :: RefundShape(db.orders, r);
  }

  // ------------------------------------------------- how sums follow the rows

  /** A line's quantity is found by its item when no item is listed twice. */
  lemma {:induction false} LineQtyIs(lines: seq<RefundLine>, item: nat)
    requires forall j, k :: 0 <= j < k < |lines| ==> lines[j].item != lines[k].item
    ensures LineQty(lines, item) >= 0
    ensures forall k :: 0 <= k < |lines| && lines[k].item == item ==> LineQty(lines, item) == lines[k].quantity
    ensures (forall k :: 0 <= k < |lines| ==> lines[k].item != item) ==> LineQty(lines, item) == 0
  {
    if |lines| > 0 {
      LineQtyIs(lines[..|lines| - 1], item);
    }
  }

  lemma {:induction false} ShipLineQtyIs(lines: seq<ShipmentLine>, item: nat)
    requires forall j, k :: 0 <= j < k < |lines| ==> lines[j].item != lines[k].item
    requires forall k :: 0 <= k < |lines| ==> lines[k].quantity > 0
    ensures ShipLineQty(lines, item) >= 0
    ensures forall k :: 0 <= k < |lines| && lines[k].item == item ==> ShipLineQty(lines, item) == lines[k].quantity
    ensures (forall k :: 0 <= k < |lines| ==> lines[k].item != item) ==> ShipLineQty(lines, item) == 0
  {
    if |lines| > 0 {
      ShipLineQtyIs(lines[..|lines| - 1], item);
    }
  }

  predicate Open(status: RefundStatus) {
    status.PendingReview? || status.Approved?
  }

  /** Succeeded quantities are reserved ones, with room for every refund still open. */
  lemma RefundedWithinReserved(orders: seq<Order>, refunds: seq<Refund>, o: nat, i: nat)
    requires RefundsOk(orders, refunds)
    ensures 0 <= RefundedQty(refunds, o, i) <= ReservedQty(refunds, o, i)
    ensures forall r :: 0 <= r < |refunds| && refunds[r].orderId == o && Open(refunds[r].status) ==>
              RefundedQty(refunds, o, i) + LineQty(refunds[r].lines, i) <= ReservedQty(refunds, o, i)
  {
    forall r | r in refunds ensures 0 <= SucceededQtyOf(o, i)(r) <= ActiveQtyOf(o, i)(r) {
      assert RefundShape(orders, r);
      LineQtyIs(r.lines, i);
    }
    NonNegative(refunds, SucceededQtyOf(o, i));
    AtMost(refunds, SucceededQtyOf(o, i), ActiveQtyOf(o, i));
    forall r | 0 <= r < |refunds| && refunds[r].orderId == o && Open(refunds[r].status)
      ensures RefundedQty(refunds, o, i) + LineQty(refunds[r].lines, i) <= ReservedQty(refunds, o, i)
    {
      Gap(refunds, SucceededQtyOf(o, i), ActiveQtyOf(o, i), r);
    }
  }

  /** An open refund keeps its order from being refunded in full. */
  lemma OpenRefundLeavesOrderOpen(db: Db, r: nat)
    requires Valid(db) && r < |db.refunds|
    requires Open(db.refunds[r].status)
    ensures Refundable(db.orders[db.refunds[r].orderId].status)
  {
    var refund := db.refunds[r];
    assert RefundShape(db.orders, refund);
    var o, i := refund.orderId, refund.lines[0].item;
    LineQtyIs(refund.lines, i);
    RefundedWithinReserved(db.orders, db.refunds, o, i);
    assert RefundedQty(db.refunds, o, i) < db.orders[o].items[i].quantity;
    assert StatusExact(db.orders, db.refunds, o);
  }
}
