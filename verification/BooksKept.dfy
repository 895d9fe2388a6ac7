/** Every step keeps the books valid. */
module BooksKept {
  import opened Wrappers
  import opened Summation
  import opened Inventory
  import opened Tables
  import opened Orders
  import opened Payments
  import opened Refunds
  import opened Shipments
  import opened Steps
  import opened Books
  import Text

  // ---------------------------------------- what a change of orders leaves alone

  /** Orders only gain rows and move statuses, and no paid order becomes unpaid. */
  ghost predicate Moves(orders: seq<Order>, after: seq<Order>) {
    && |orders| <= |after|
    && (forall i :: 0 <= i < |orders| ==> after[i] == orders[i].(status := after[i].status))
    && (forall i :: 0 <= i < |orders| && PaidOrLater(orders[i].status) ==> PaidOrLater(after[i].status))
  }

  lemma RefundsStay(orders: seq<Order>, after: seq<Order>, refunds: seq<Refund>)
    requires RefundsOk(orders, refunds) && Moves(orders, after)
    ensures RefundsOk(after, refunds)
  {
    forall r | 0 <= r < |refunds| ensures RefundShape(after, refunds[r]) {
      assert RefundShape(orders, refunds[r]);
    }
  }

  /** Nothing refers to an order that does not exist yet. */
  lemma NoRefundsBeyond(orders: seq<Order>, refunds: seq<Refund>, o: nat, i: nat)
    requires RefundsOk(orders, refunds) && o >= |orders|
    ensures ReservedQty(refunds, o, i) == 0 && RefundedQty(refunds, o, i) == 0 && ReservedAmount(refunds, o) == 0
  {
    assert forall r | r in refunds :: RefundShape(orders, r);
    Zero(refunds, ActiveQtyOf(o, i));
    Zero(refunds, ActiveAmountOf(o));
    Zero(refunds, SucceededQtyOf(o, i));
  }

  lemma CapsStay(orders: seq<Order>, after: seq<Order>, refunds: seq<Refund>)
    requires RefundsOk(orders, refunds) && CapsOk(orders, refunds) && Moves(orders, after) && OrdersOk(after)
    ensures CapsOk(after, refunds)
  {
    forall o, i | 0 <= o < |after| && 0 <= i < |after[o].items|
      ensures ReservedQty(refunds, o, i) <= after[o].items[i].quantity
    {
      if o >= |orders| {
        NoRefundsBeyond(orders, refunds, o, i);
      } else {
        assert after[o].items == orders[o].items;
      }
    }
    forall o | 0 <= o < |after| ensures ReservedAmount(refunds, o) <= after[o].total {
      if o >= |orders| {
        NoRefundsBeyond(orders, refunds, o, 0);
        assert OrderShape(after[o]);
      } else {
        assert after[o].total == orders[o].total;
      }
    }
  }

  predicate RefundStatusOf(status: OrderStatus) {
    status.Refunded? || status.PartiallyRefunded?
  }

  lemma StatusesStay(orders: seq<Order>, after: seq<Order>, refunds: seq<Refund>)
    requires RefundsOk(orders, refunds) && StatusesExact(orders, refunds) && Moves(orders, after) && OrdersOk(after)
    requires forall i :: 0 <= i < |orders| && after[i].status != orders[i].status ==>
      !RefundStatusOf(orders[i].status) && !RefundStatusOf(after[i].status)
    requires forall i :: |orders| <= i < |after| ==> after[i].status.Pending?
    ensures StatusesExact(after, refunds)
  {
    forall o | 0 <= o < |after| ensures StatusExact(after, refunds, o) {
      if o < |orders| {
        assert StatusExact(orders, refunds, o);
        assert after[o].items == orders[o].items;
      } else {
        NoRefundsBeyond(orders, refunds, o, 0);
        assert OrderShape(after[o]);
        assert RefundedQty(refunds, o, 0) < after[o].items[0].quantity;
      }
    }
  }

  lemma NoShipmentsBeyond(orders: seq<Order>, shipments: seq<Shipment>, o: nat, i: nat)
    requires ShipmentsOk(orders, shipments) && o >= |orders|
    ensures ShippedQty(shipments, o, i) == 0
  {
    assert forall s | s in shipments :: ShipmentShape(orders, s);
    Zero(shipments, ShippedOf(o, i));
  }

  lemma ShipmentsStay(orders: seq<Order>, after: seq<Order>, shipments: seq<Shipment>)
    requires ShipmentsOk(orders, shipments) && Moves(orders, after) && OrdersOk(after)
    requires forall i :: 0 <= i < |orders| ==>
      (after[i].status.Paid? ==> orders[i].status.Paid? || orders[i].status.Pending?) &&
      (after[i].status.Fulfilled? ==> orders[i].status.Fulfilled?)
    requires forall i :: |orders| <= i < |after| ==> after[i].status.Pending?
    ensures ShipmentsOk(after, shipments)
  {
    forall o | 0 <= o < |after| ensures ShippedExact(after, shipments, o) {
      if o < |orders| {
        assert ShippedExact(orders, shipments, o);
        assert OrderShape(after[o]) && after[o].items == orders[o].items;
        if orders[o].status.Pending? {
          assert ShippedQty(shipments, o, 0) < after[o].items[0].quantity;
        }
      } else {
        forall i: nat ensures ShippedQty(shipments, o, i) == 0 {
          NoShipmentsBeyond(orders, shipments, o, i);
        }
        assert OrderShape(after[o]);
      }
    }
    forall s | 0 <= s < |shipments| ensures ShipmentShape(after, shipments[s]) {
      assert ShipmentShape(orders, shipments[s]);
    }
  }

  lemma WinsStay(orders: seq<Order>, after: seq<Order>, payments: seq<Payment>)
    requires PaymentsOk(orders, payments) && Moves(orders, after)
    requires forall i :: 0 <= i < |orders| ==> PaidOrLater(after[i].status) == PaidOrLater(orders[i].status)
    requires forall i :: |orders| <= i < |after| ==> after[i].status.Pending?
    ensures PaymentsOk(after, payments)
  {
    forall p | 0 <= p < |payments| ensures PaymentShape(after, payments[p]) {
      assert PaymentShape(orders, payments[p]);
    }
    forall o | 0 <= o < |after| ensures Wins(payments, o) == if PaidOrLater(after[o].status) then 1 else 0 {
      if o >= |orders| {
        assert forall p | p in payments :: PaymentShape(orders, p);
        Zero(payments, WinOf(o));
      }
    }
  }

  // ------------------------------------------------------------------ orders

  lemma AddOrderKeeps(db: Db, order: Order)
    requires Valid(db) && order.status.Pending? && (FitsColumns(order) ==> OrderShape(order))
    requires forall i :: 0 <= i < |db.orders| ==> db.orders[i].request.key != order.request.key
    ensures Valid(AddOrder(db, order).db)
  {
    hide PaymentsOk; hide RefundsOk; hide CapsOk; hide StatusesExact; hide TransactionsOk; hide ShipmentsOk;
    hide Insertable; hide OrderRows;
    if AddOrder(db, order).db != db {
      var orders := db.orders + [order];
      RefundsStay(db.orders, orders, db.refunds);
      CapsStay(db.orders, orders, db.refunds);
      StatusesStay(db.orders, orders, db.refunds);
      ShipmentsStay(db.orders, orders, db.shipments);
      WinsStay(db.orders, orders, db.payments);
    }
  }

  lemma CreateOrderKeeps(db: Db, request: OrderRequest, now: int, timeout: int)
    requires Valid(db)
    ensures Valid(CreateOrder(db, request, now, timeout).db)
  {
    hide PaymentsOk; hide RefundsOk; hide CapsOk; hide StatusesExact; hide TransactionsOk; hide ShipmentsOk;
    if ValidOrderRequest(request) && Find(db.orders, OrderKeyed(request.key)).None?
       && forall i :: 0 <= i < |request.items| ==> OnSale(db.catalogue, request.items[i].sku)
    {
      var order := NewOrder(request, Snapshot(db.catalogue, request.items), ExpiresAt(now, timeout));
      forall i | 0 <= i < |db.orders| ensures db.orders[i].request.key != request.key {
        assert !OrderKeyed(request.key)(db.orders[i]);
      }
      if order.total >= 0 {
        AddOrderKeeps(db, order);
      }
    }
  }

  lemma StatusKeepsOrders(orders: seq<Order>, id: nat, status: OrderStatus)
    requires OrdersOk(orders) && id < |orders|
    ensures OrdersOk(WithStatus(orders, id, status))
  {
  }

  /** A status move that neither pays nor refunds leaves everything but shipments as it was. */
  lemma MoveKeepsRest(db: Db, id: nat, status: OrderStatus)
    requires Valid(db) && id < |db.orders|
    requires PaidOrLater(status) == PaidOrLater(db.orders[id].status)
    requires !RefundStatusOf(status) && !RefundStatusOf(db.orders[id].status)
    ensures var orders := WithStatus(db.orders, id, status);
            && OrdersOk(orders) && PaymentsOk(orders, db.payments) && RefundsOk(orders, db.refunds)
            && CapsOk(orders, db.refunds) && StatusesExact(orders, db.refunds)
  {
    hide OrdersOk; hide PaymentsOk; hide RefundsOk; hide CapsOk;
    hide StatusesExact; hide TransactionsOk; hide ShipmentsOk;
    var orders := WithStatus(db.orders, id, status);
    StatusKeepsOrders(db.orders, id, status);
    RefundsStay(db.orders, orders, db.refunds);
    CapsStay(db.orders, orders, db.refunds);
    StatusesStay(db.orders, orders, db.refunds);
    WinsStay(db.orders, orders, db.payments);
  }

  lemma CloseOrderKeeps(db: Db, id: nat, status: OrderStatus)
    requires Valid(db) && id < |db.orders| && db.orders[id].status.Pending?
    requires status.Canceled? || status.Expired?
    ensures Valid(CloseOrder(db, id, status).db)
  {
    hide OrdersOk; hide PaymentsOk; hide RefundsOk; hide CapsOk;
    hide StatusesExact; hide TransactionsOk; hide ShipmentsOk;
    MoveKeepsRest(db, id, status);
    ShipmentsStay(db.orders, WithStatus(db.orders, id, status), db.shipments);
  }

  // ---------------------------------------------------------------- payments

  lemma AddPaymentKeeps(orders: seq<Order>, payments: seq<Payment>, payment: Payment)
    requires PaymentsOk(orders, payments) && PaymentShape(orders, payment) && payment.status.PaymentPending?
    requires Find(payments, PaymentKeyed(payment.key)).None?
    ensures PaymentsOk(orders, payments + [payment])
  {
    forall i | 0 <= i < |payments| ensures payments[i].key != payment.key {
      assert !PaymentKeyed(payment.key)(payments[i]);
    }
    forall o | 0 <= o < |orders| ensures Wins(payments + [payment], o) == Wins(payments, o) {
      Append(payments, payment, WinOf(o));
    }
  }

  lemma CreatePaymentKeeps(db: Db, key: string, orderId: nat, channel: string, number: string)
    requires Valid(db)
    ensures Valid(CreatePayment(db, key, orderId, channel, number).db)
  {
    hide OrdersOk; hide PaymentsOk; hide RefundsOk; hide CapsOk;
    hide StatusesExact; hide TransactionsOk; hide ShipmentsOk; hide ValidKey;
    var after := CreatePayment(db, key, orderId, channel, number).db;
    if after != db {
      AddPaymentKeeps(db.orders, db.payments, after.payments[|db.payments|]);
    }
  }

  lemma FailPaymentKeeps(db: Db, id: nat, c: Confirmation)
    requires Valid(db) && id < |db.payments| && db.payments[id].status.PaymentPending? && ValidConfirmation(c)
    ensures Valid(db.(payments := db.payments[id := Settled(db.payments[id], PaymentFailed, c)]))
  {
    var settled := Settled(db.payments[id], PaymentFailed, c);
    forall o | 0 <= o < |db.orders| ensures Wins(db.payments[id := settled], o) == Wins(db.payments, o) {
      Update(db.payments, id, settled, WinOf(o));
    }
  }

  /** The winning payment and its order move together. */
  lemma PayKeepsPayments(orders: seq<Order>, payments: seq<Payment>, id: nat, c: Confirmation)
    requires PaymentsOk(orders, payments) && ValidConfirmation(c)
    requires id < |payments| && payments[id].status.PaymentPending?
    requires payments[id].orderId < |orders| && orders[payments[id].orderId].status.Pending?
    ensures PaymentsOk(WithStatus(orders, payments[id].orderId, Paid),
                       payments[id := Settled(payments[id], PaymentSucceeded, c)])
  {
    var settled := Settled(payments[id], PaymentSucceeded, c);
    forall o | 0 <= o < |orders| ensures Wins(payments[id := settled], o) ==
      Wins(payments, o) + if o == payments[id].orderId then 1 else 0
    {
      Update(payments, id, settled, WinOf(o));
    }
  }

  lemma PayOrderKeeps(db: Db, id: nat, c: Confirmation)
    requires Valid(db) && id < |db.payments| && db.payments[id].status.PaymentPending? && ValidConfirmation(c)
    requires db.payments[id].orderId < |db.orders| && db.orders[db.payments[id].orderId].status.Pending?
    ensures Valid(db.(orders := WithStatus(db.orders, db.payments[id].orderId, Paid),
                      payments := db.payments[id := Settled(db.payments[id], PaymentSucceeded, c)]))
  {
    hide OrdersOk; hide PaymentsOk; hide RefundsOk; hide CapsOk;
    hide StatusesExact; hide TransactionsOk; hide ShipmentsOk;
    var o := db.payments[id].orderId;
    var orders := WithStatus(db.orders, o, Paid);
    StatusKeepsOrders(db.orders, o, Paid);
    RefundsStay(db.orders, orders, db.refunds);
    CapsStay(db.orders, orders, db.refunds);
    StatusesStay(db.orders, orders, db.refunds);
    ShipmentsStay(db.orders, orders, db.shipments);
    PayKeepsPayments(db.orders, db.payments, id, c);
  }

  lemma ConfirmPaymentKeeps(db: Db, id: nat, c: Confirmation)
    requires Valid(db) && db.Linked()
    ensures Valid(ConfirmPayment(db, id, c).db)
  {
    hide OrdersOk; hide PaymentsOk; hide RefundsOk; hide CapsOk;
    hide StatusesExact; hide TransactionsOk; hide ShipmentsOk; hide Insertable; hide EventTaken; hide DeductionRows;
    if ConfirmPayment(db, id, c).db != db {
      if c.succeeded {
        PayOrderKeeps(db, id, c);
      } else {
        FailPaymentKeeps(db, id, c);
      }
    }
  }

  // ----------------------------------------------------------------- refunds

  /** A refund whose success does not change: its line quantities weigh the same in every total. */
  ghost predicate SameSuccess(refunds: seq<Refund>, after: seq<Refund>) {
    && |refunds| <= |after|
    && (forall r :: 0 <= r < |refunds| ==>
          after[r].(status := refunds[r].status) == refunds[r] &&
          after[r].status.RefundSucceeded? == refunds[r].status.RefundSucceeded?)
    && (forall r :: |refunds| <= r < |after| ==> !after[r].status.RefundSucceeded?)
  }

  lemma {:induction false} SameSuccessSameSum(refunds: seq<Refund>, after: seq<Refund>, o: nat, i: nat)
    requires SameSuccess(refunds, after)
    ensures RefundedQty(after, o, i) == RefundedQty(refunds, o, i)
    decreases |after|
  {
    if |after| > |refunds| {
      SameSuccessSameSum(refunds, after[..|after| - 1], o, i);
    } else if |after| > 0 {
      SameSuccessSameSum(refunds[..|after| - 1], after[..|after| - 1], o, i);
    }
  }

  lemma SameSuccessSameStatus(orders: seq<Order>, refunds: seq<Refund>, after: seq<Refund>)
    requires StatusesExact(orders, refunds) && SameSuccess(refunds, after)
    ensures StatusesExact(orders, after)
  {
    forall o | 0 <= o < |orders| ensures StatusExact(orders, after, o) {
      assert StatusExact(orders, refunds, o);
      forall i: nat ensures RefundedQty(after, o, i) == RefundedQty(refunds, o, i) {
        SameSuccessSameSum(refunds, after, o, i);
      }
      if SomeRefunded(refunds, o) {
        var r :| 0 <= r < |refunds| && refunds[r].orderId == o && refunds[r].status.RefundSucceeded?;
        assert after[r].orderId == o && after[r].status.RefundSucceeded?;
      }
    }
  }

  lemma NewRefundShape(db: Db, orderId: nat, request: RefundRequest)
    requires Valid(db) && orderId < |db.orders| && Refundable(db.orders[orderId].status)
    requires ValidRefundRequest(request) && LinesRefusal(db, orderId, request.lines).None?
    ensures var lines := LinesFor(db, orderId, request);
            && LinesOf(lines, db.orders[orderId].items)
            && (forall j, k :: 0 <= j < k < |lines| ==> lines[j].item != lines[k].item)
            && forall k :: 0 <= k < |lines| ==>
                 && lines[k].quantity <= db.orders[orderId].items[lines[k].item].quantity
                 && lines[k].quantity <=
                    db.orders[orderId].items[lines[k].item].quantity - ReservedQty(db.refunds, orderId, lines[k].item)
  {
    var lines := LinesFor(db, orderId, request);
    var items := db.orders[orderId].items;
    forall k | 0 <= k < |lines|
      ensures lines[k].item < |items| && request.lines[k].item == ItemRef(orderId, lines[k].item)
      ensures lines[k].quantity <= items[lines[k].item].quantity - ReservedQty(db.refunds, orderId, lines[k].item)
      ensures lines[k].quantity <= items[lines[k].item].quantity
    {
      assert LineRefusal(db, orderId, request.lines[k]).None?;
      RefundedWithinReserved(db.orders, db.refunds, orderId, lines[k].item);
    }
  }

  lemma AddRefundCaps(orders: seq<Order>, refunds: seq<Refund>, refund: Refund)
    requires CapsOk(orders, refunds) && RefundShape(orders, refund)
    requires forall k :: 0 <= k < |refund.lines| ==>
      refund.lines[k].quantity <= orders[refund.orderId].items[refund.lines[k].item].quantity
      - ReservedQty(refunds, refund.orderId, refund.lines[k].item)
    requires refund.amount + ReservedAmount(refunds, refund.orderId) <= orders[refund.orderId].total
    ensures CapsOk(orders, refunds + [refund])
  {
    forall o, i | 0 <= o < |orders| && 0 <= i < |orders[o].items|
      ensures ReservedQty(refunds + [refund], o, i) <= orders[o].items[i].quantity
    {
      Append(refunds, refund, ActiveQtyOf(o, i));
      LineQtyIs(refund.lines, i);
    }
    forall o | 0 <= o < |orders| ensures ReservedAmount(refunds + [refund], o) <= orders[o].total {
      Append(refunds, refund, ActiveAmountOf(o));
    }
  }

  lemma AddRefundRows(orders: seq<Order>, refunds: seq<Refund>, transactions: seq<Transaction>, refund: Refund)
    requires RefundsOk(orders, refunds) && TransactionsOk(refunds, transactions)
    requires RefundShape(orders, refund) && refund.status.PendingReview?
    requires Find(refunds, RefundKeyed(refund.request.key)).None?
    ensures RefundsOk(orders, refunds + [refund]) && TransactionsOk(refunds + [refund], transactions)
  {
    forall i | 0 <= i < |refunds| ensures refunds[i].request.key != refund.request.key {
      assert !RefundKeyed(refund.request.key)(refunds[i]);
    }
  }

  lemma AddRefundKeeps(db: Db, orderId: nat, request: RefundRequest)
    requires Valid(db) && orderId < |db.orders| && Refundable(db.orders[orderId].status)
    requires ValidRefundRequest(request) && Find(db.refunds, RefundKeyed(request.key)).None?
    requires LinesRefusal(db, orderId, request.lines).None?
    ensures Valid(AddRefund(db, orderId, request, LinesFor(db, orderId, request)).db)
  {
    hide OrdersOk; hide PaymentsOk; hide RefundsOk; hide CapsOk;
    hide StatusesExact; hide TransactionsOk; hide ShipmentsOk;
    var lines := LinesFor(db, orderId, request);
    var after := AddRefund(db, orderId, request, lines).db;
    if after != db {
      var refund := after.refunds[|db.refunds|];
      NewRefundShape(db, orderId, request);
      assert RefundShape(db.orders, refund);
      AddRefundRows(db.orders, db.refunds, db.transactions, refund);
      AddRefundCaps(db.orders, db.refunds, refund);
      SameSuccessSameStatus(db.orders, db.refunds, after.refunds);
    }
  }

  lemma CreateRefundKeeps(db: Db, orderId: nat, request: RefundRequest)
    requires Valid(db)
    ensures Valid(CreateRefund(db, orderId, request).db)
  {
    if CreateRefund(db, orderId, request).db != db {
      AddRefundKeeps(db, orderId, request);
    }
  }

  /** Settling or reviewing a refund never raises what is reserved. */
  lemma StatusCaps(orders: seq<Order>, refunds: seq<Refund>, id: nat, status: RefundStatus)
    requires RefundsOk(orders, refunds) && CapsOk(orders, refunds) && id < |refunds| && Active(refunds[id].status)
    ensures CapsOk(orders, WithRefundStatus(refunds, id, status))
  {
    var after := WithRefundStatus(refunds, id, status);
    assert RefundShape(orders, refunds[id]);
    forall o, i | 0 <= o < |orders| && 0 <= i < |orders[o].items|
      ensures ReservedQty(after, o, i) <= orders[o].items[i].quantity
    {
      Update(refunds, id, after[id], ActiveQtyOf(o, i));
      LineQtyIs(refunds[id].lines, i);
    }
    forall o | 0 <= o < |orders| ensures ReservedAmount(after, o) <= orders[o].total {
      Update(refunds, id, after[id], ActiveAmountOf(o));
    }
  }

  lemma StatusShapes(orders: seq<Order>, refunds: seq<Refund>, id: nat, status: RefundStatus)
    requires RefundsOk(orders, refunds) && id < |refunds|
    ensures RefundsOk(orders, WithRefundStatus(refunds, id, status))
  {
    var after := WithRefundStatus(refunds, id, status);
    forall r | 0 <= r < |after| ensures RefundShape(orders, after[r]) {
      assert RefundShape(orders, refunds[r]);
    }
  }

  lemma ReviewKeepsTransactions(refunds: seq<Refund>, transactions: seq<Transaction>, id: nat, status: RefundStatus)
    requires TransactionsOk(refunds, transactions) && id < |refunds| && refunds[id].status.PendingReview?
    requires status.Approved? || status.Rejected?
    ensures TransactionsOk(WithRefundStatus(refunds, id, status), transactions)
  {
  }

  lemma ReviewRefundKeeps(db: Db, id: nat, approved: bool, note: string)
    requires Valid(db)
    ensures Valid(ReviewRefund(db, id, approved, note).db)
  {
    hide Text.Trim;
    hide OrdersOk; hide PaymentsOk; hide RefundsOk; hide CapsOk;
    hide StatusesExact; hide TransactionsOk; hide ShipmentsOk;
    var after := ReviewRefund(db, id, approved, note).db;
    if after != db {
      var status := after.refunds[id].status;
      StatusCaps(db.orders, db.refunds, id, status);
      StatusShapes(db.orders, db.refunds, id, status);
      ReviewKeepsTransactions(db.refunds, db.transactions, id, status);
      SameSuccessSameStatus(db.orders, db.refunds, after.refunds);
    }
  }

  lemma FindUpdated(transactions: seq<Transaction>, k: nat, t: Transaction, refundId: nat)
    requires k < |transactions| && t.refundId == transactions[k].refundId
    ensures Find(transactions[k := t], ForRefund(refundId)) == Find(transactions, ForRefund(refundId))
  {
    var f := ForRefund(refundId);
    var a, b := Find(transactions, f), Find(transactions[k := t], f);
    assert forall i :: 0 <= i < |transactions| ==> f(transactions[k := t][i]) == f(transactions[i]);
  }

  lemma NewTransaction(refunds: seq<Refund>, transactions: seq<Transaction>, t: Transaction)
    requires TransactionsOk(refunds, transactions) && Find(transactions, ForRefund(t.refundId)).None?
    requires t.refundId < |refunds| && refunds[t.refundId].status.Approved?
    requires t.status.TxPending? && t.amount == refunds[t.refundId].amount
    ensures TransactionsOk(refunds, transactions + [t])
  {
    forall k | 0 <= k < |transactions| ensures transactions[k].refundId != t.refundId {
      assert !ForRefund(t.refundId)(transactions[k]);
    }
    forall r | 0 <= r < |refunds| && Find(transactions, ForRefund(r)).Some?
      ensures Find(transactions + [t], ForRefund(r)).Some?
    {
      assert ForRefund(r)((transactions + [t])[Find(transactions, ForRefund(r)).value]);
    }
  }

  lemma BeginExecuteKeeps(db: Db, id: nat)
    requires Valid(db) && db.Linked()
    ensures Valid(BeginExecute(db, id).db)
  {
    hide OrdersOk; hide PaymentsOk; hide RefundsOk; hide CapsOk;
    hide StatusesExact; hide TransactionsOk; hide ShipmentsOk;
    var after := BeginExecute(db, id).db;
    if after != db {
      NewTransaction(db.refunds, db.transactions, after.transactions[|db.transactions|]);
    }
  }

  lemma EventUpdateKeeps(refunds: seq<Refund>, transactions: seq<Transaction>, k: nat, eventId: string, refundNo: string)
    requires TransactionsOk(refunds, transactions) && k < |transactions|
    ensures TransactionsOk(refunds,
              transactions[k := transactions[k].(eventId := Some(eventId), refundNo := Some(refundNo))])
  {
    var t := transactions[k].(eventId := Some(eventId), refundNo := Some(refundNo));
    forall r: nat ensures Find(transactions[k := t], ForRefund(r)) == Find(transactions, ForRefund(r)) {
      FindUpdated(transactions, k, t, r);
    }
  }

  lemma UpdatePendingKeeps(db: Db, k: nat, eventId: string, refundNo: string)
    requires Valid(db)
    ensures Valid(UpdatePending(db, k, eventId, refundNo).db)
  {
    hide OrdersOk; hide PaymentsOk; hide RefundsOk; hide CapsOk;
    hide StatusesExact; hide TransactionsOk; hide ShipmentsOk; hide RefundEventTaken;
    if UpdatePending(db, k, eventId, refundNo).db != db {
      EventUpdateKeeps(db.refunds, db.transactions, k, eventId, refundNo);
    }
  }

  /** The transaction and refund rows of a confirmation move together. */
  lemma SettleKeepsTransactions(refunds: seq<Refund>, transactions: seq<Transaction>, k: nat, n: RefundNotice)
    requires TransactionsOk(refunds, transactions) && k < |transactions| && transactions[k].status.TxPending?
    ensures TransactionsOk(
      WithRefundStatus(refunds, transactions[k].refundId, if n.succeeded then RefundSucceeded else RefundFailed),
      transactions[k := SettledTransaction(transactions[k], n)])
  {
    var t := SettledTransaction(transactions[k], n);
    forall r: nat ensures Find(transactions[k := t], ForRefund(r)) == Find(transactions, ForRefund(r)) {
      FindUpdated(transactions, k, t, r);
    }
    assert ForRefund(t.refundId)(transactions[k]);
  }

  lemma OtherOrdersUntouched(db: Db, id: nat, p: nat)
    requires StatusesExact(db.orders, db.refunds) && id < |db.refunds| && !db.refunds[id].status.RefundSucceeded?
    requires p < |db.orders| && p != db.refunds[id].orderId
    ensures StatusExact(db.orders, WithRefundStatus(db.refunds, id, RefundSucceeded), p)
  {
    var refunds := WithRefundStatus(db.refunds, id, RefundSucceeded);
    assert StatusExact(db.orders, db.refunds, p);
    forall i: nat ensures RefundedQty(refunds, p, i) == RefundedQty(db.refunds, p, i) {
      Update(db.refunds, id, refunds[id], SucceededQtyOf(p, i));
    }
    if SomeRefunded(db.refunds, p) {
      var r :| 0 <= r < |db.refunds| && db.refunds[r].orderId == p && db.refunds[r].status.RefundSucceeded?;
      assert refunds[r] == db.refunds[r];
    }
  }

  /** After one more refund succeeded, the recomputed status of its order is exact again. */
  lemma SucceedKeepsStatus(db: Db, id: nat)
    requires StatusesExact(db.orders, db.refunds) && OrdersOk(db.orders)
    requires id < |db.refunds| && db.refunds[id].status.Approved? && db.refunds[id].orderId < |db.orders|
    ensures var refunds := WithRefundStatus(db.refunds, id, RefundSucceeded);
            var o := db.refunds[id].orderId;
            var status := if FullyRefunded(db.orders[o].items, refunds, o) then Refunded else PartiallyRefunded;
            StatusesExact(WithStatus(db.orders, o, status), refunds)
  {
    var refunds := WithRefundStatus(db.refunds, id, RefundSucceeded);
    var o := db.refunds[id].orderId;
    var status := if FullyRefunded(db.orders[o].items, refunds, o) then Refunded else PartiallyRefunded;
    var orders := WithStatus(db.orders, o, status);
    assert SomeRefunded(refunds, o) by {
      assert refunds[id].orderId == o && refunds[id].status.RefundSucceeded?;
    }
    forall p | 0 <= p < |orders| ensures StatusExact(orders, refunds, p) {
      if p != o {
        OtherOrdersUntouched(db, id, p);
      }
    }
  }

  lemma PendingMeansApproved(refunds: seq<Refund>, transactions: seq<Transaction>, k: nat)
    requires TransactionsOk(refunds, transactions) && k < |transactions| && transactions[k].status.TxPending?
    ensures transactions[k].refundId < |refunds| && refunds[transactions[k].refundId].status.Approved?
  {
  }

  function Marked(db: Db, id: nat, k: nat, n: RefundNotice): Db
    requires id < |db.refunds| && k < |db.transactions|
  {
    db.(transactions := db.transactions[k := SettledTransaction(db.transactions[k], n)],
        refunds := WithRefundStatus(db.refunds, id, if n.succeeded then RefundSucceeded else RefundFailed))
  }

  lemma SucceedRefundKeeps(db: Db, id: nat, k: nat, n: RefundNotice)
    requires Valid(db) && db.Linked() && n.succeeded
    requires k < |db.transactions| && db.transactions[k].status.TxPending? && db.transactions[k].refundId == id
    requires id < |db.refunds|
    ensures Valid(RestoreInventoryAndOrder(Marked(db, id, k, n), Marked(db, id, k, n).refunds[id], id))
  {
    hide OrdersOk; hide PaymentsOk; hide RefundsOk; hide CapsOk;
    hide StatusesExact; hide TransactionsOk; hide ShipmentsOk;
    var refunds := WithRefundStatus(db.refunds, id, RefundSucceeded);
    var o := db.refunds[id].orderId;
    var status := if FullyRefunded(db.orders[o].items, refunds, o) then Refunded else PartiallyRefunded;
    var orders := WithStatus(db.orders, o, status);
    PendingMeansApproved(db.refunds, db.transactions, k);
    OpenRefundLeavesOrderOpen(db, id);
    SettleKeepsTransactions(db.refunds, db.transactions, k, n);
    StatusCaps(db.orders, db.refunds, id, RefundSucceeded);
    StatusShapes(db.orders, db.refunds, id, RefundSucceeded);
    SucceedKeepsStatus(db, id);
    StatusKeepsOrders(db.orders, o, status);
    RefundsStay(db.orders, orders, refunds);
    CapsStay(db.orders, orders, refunds);
    ShipmentsStay(db.orders, orders, db.shipments);
    WinsStay(db.orders, orders, db.payments);
  }

  lemma FailRefundKeeps(db: Db, id: nat, k: nat, n: RefundNotice)
    requires Valid(db) && !n.succeeded
    requires k < |db.transactions| && db.transactions[k].status.TxPending? && db.transactions[k].refundId == id
    requires id < |db.refunds|
    ensures Valid(Marked(db, id, k, n))
  {
    hide OrdersOk; hide PaymentsOk; hide RefundsOk; hide CapsOk;
    hide StatusesExact; hide TransactionsOk; hide ShipmentsOk;
    PendingMeansApproved(db.refunds, db.transactions, k);
    SettleKeepsTransactions(db.refunds, db.transactions, k, n);
    StatusCaps(db.orders, db.refunds, id, RefundFailed);
    StatusShapes(db.orders, db.refunds, id, RefundFailed);
    SameSuccessSameStatus(db.orders, db.refunds, WithRefundStatus(db.refunds, id, RefundFailed));
  }

  lemma ConfirmRefundKeeps(db: Db, id: nat, n: RefundNotice)
    requires Valid(db) && db.Linked()
    ensures Valid(ConfirmRefund(db, id, n).db)
  {
    hide OrdersOk; hide PaymentsOk; hide RefundsOk; hide CapsOk;
    hide StatusesExact; hide TransactionsOk; hide ShipmentsOk;
    if ConfirmRefund(db, id, n).db != db {
      var k := Find(db.transactions, ForRefund(id)).value;
      if n.succeeded {
        SucceedRefundKeeps(db, id, k, n);
      } else {
        FailRefundKeeps(db, id, k, n);
      }
    }
  }

  // --------------------------------------------------------------- shipments

  /** Each requested line is listed once and fits what is left of its item. */
  ghost predicate Shippable(db: Db, orderId: nat, asks: seq<LineAsk>)
    requires orderId < |db.orders|
  {
    && |asks| > 0
    && (forall k :: 0 <= k < |asks| ==>
          && asks[k].item.orderId == orderId && asks[k].item.index < |db.orders[orderId].items|
          && 0 < asks[k].quantity <= Left(db, orderId, asks[k].item.index))
    && (forall j, k :: 0 <= j < k < |asks| ==> asks[j].item != asks[k].item)
  }

  lemma {:induction false} RemainingIs(db: Db, orderId: nat, n: nat)
    requires orderId < |db.orders| && n <= |db.orders[orderId].items|
    ensures forall k :: 0 <= k < |Remaining(db, orderId, n)| ==>
              var ask := Remaining(db, orderId, n)[k];
              && ask.item.orderId == orderId && ask.item.index < n
              && 0 < ask.quantity == Left(db, orderId, ask.item.index)
    ensures forall j, k :: 0 <= j < k < |Remaining(db, orderId, n)| ==>
              Remaining(db, orderId, n)[j].item != Remaining(db, orderId, n)[k].item
  {
    hide Left;
    if n > 0 {
      RemainingIs(db, orderId, n - 1);
    }
  }

  /** Every item with something left is listed. */
  lemma {:induction false} RemainingHas(db: Db, orderId: nat, n: nat, i: nat) returns (k: nat)
    requires orderId < |db.orders| && i < n <= |db.orders[orderId].items| && Left(db, orderId, i) > 0
    ensures k < |Remaining(db, orderId, n)| && Remaining(db, orderId, n)[k].item == ItemRef(orderId, i)
    ensures Remaining(db, orderId, n)[k].quantity == Left(db, orderId, i)
  {
    if i == n - 1 {
      k := |Remaining(db, orderId, n - 1)|;
    } else {
      k := RemainingHas(db, orderId, n - 1, i);
    }
  }

  lemma RequestedIsShippable(db: Db, orderId: nat, request: ShipmentRequest)
    requires orderId < |db.orders| && ValidShipmentRequest(request)
    requires |Requested(db, orderId, request)| > 0
    requires ShipLinesRefusal(db, orderId, Requested(db, orderId, request)).None?
    ensures Shippable(db, orderId, Requested(db, orderId, request))
  {
    var asks := Requested(db, orderId, request);
    RemainingIs(db, orderId, |db.orders[orderId].items|);
    forall k | 0 <= k < |asks| ensures ShipLineRefusal(db, orderId, asks[k]).None? {
    }
  }

  lemma AddedShipmentCounts(db: Db, shipment: Shipment, o: nat, i: nat)
    requires forall j, k :: 0 <= j < k < |shipment.lines| ==> shipment.lines[j].item != shipment.lines[k].item
    requires forall k :: 0 <= k < |shipment.lines| ==> shipment.lines[k].quantity > 0
    ensures ShippedQty(db.shipments + [shipment], o, i) == ShippedQty(db.shipments, o, i) +
            if o == shipment.orderId then ShipLineQty(shipment.lines, i) else 0
    ensures ShipLineQty(shipment.lines, i) >= 0
  {
    Append(db.shipments, shipment, ShippedOf(o, i));
    ShipLineQtyIs(shipment.lines, i);
  }

  /** What one shipment adds to the books of its own order. */
  lemma ShippedAfter(db: Db, orderId: nat, request: ShipmentRequest, asks: seq<LineAsk>)
    requires ShipmentsOk(db.orders, db.shipments) && orderId < |db.orders|
    requires db.orders[orderId].status.Paid? && Shippable(db, orderId, asks)
    ensures var after := AddShipment(db, orderId, request, asks).db;
            ShippedExact(after.orders, after.shipments, orderId)
  {
    var after := AddShipment(db, orderId, request, asks).db;
    assert ShippedExact(db.orders, db.shipments, orderId);
    if after != db {
      var shipment := after.shipments[|db.shipments|];
      var items := db.orders[orderId].items;
      forall i | 0 <= i < |items|
        ensures 0 <= ShippedQty(after.shipments, orderId, i) <= items[i].quantity
      {
        AddedShipmentCounts(db, shipment, orderId, i);
        ShipLineQtyIs(shipment.lines, i);
      }
      if !FullyShipped(items, after.shipments, orderId) {
        var i :| 0 <= i < |items| && ShippedQty(after.shipments, orderId, i) != items[i].quantity;
        assert ShippedQty(after.shipments, orderId, i) < items[i].quantity;
      }
    }
  }

  lemma AddShipmentShips(db: Db, orderId: nat, request: ShipmentRequest, asks: seq<LineAsk>)
    requires ShipmentsOk(db.orders, db.shipments) && orderId < |db.orders|
    requires db.orders[orderId].status.Paid? && Shippable(db, orderId, asks)
    ensures var after := AddShipment(db, orderId, request, asks).db;
            ShipmentsOk(after.orders, after.shipments)
  {
    var after := AddShipment(db, orderId, request, asks).db;
    ShippedAfter(db, orderId, request, asks);
    if after != db {
      var shipment := after.shipments[|db.shipments|];
      assert ShipmentShape(after.orders, shipment);
      hide FullyShipped; hide ShippedQty;
      forall o | 0 <= o < |after.orders| && o != orderId ensures ShippedExact(after.orders, after.shipments, o) {
        assert ShippedExact(db.orders, db.shipments, o);
        forall i: nat ensures ShippedQty(after.shipments, o, i) == ShippedQty(db.shipments, o, i) {
          AddedShipmentCounts(db, shipment, o, i);
        }
      }
      forall s | 0 <= s < |after.shipments| ensures ShipmentShape(after.orders, after.shipments[s]) {
        assert s < |db.shipments| ==> ShipmentShape(db.orders, db.shipments[s]);
      }
    }
  }

  lemma AddShipmentKeeps(db: Db, orderId: nat, request: ShipmentRequest, asks: seq<LineAsk>)
    requires Valid(db) && orderId < |db.orders| && db.orders[orderId].status.Paid? && Shippable(db, orderId, asks)
    ensures Valid(AddShipment(db, orderId, request, asks).db)
  {
    hide OrdersOk; hide PaymentsOk; hide RefundsOk; hide CapsOk;
    hide StatusesExact; hide TransactionsOk; hide ShipmentsOk; hide Shippable; hide FullyShipped;
    AddShipmentShips(db, orderId, request, asks);
    var after := AddShipment(db, orderId, request, asks).db;
    if after != db && after.orders != db.orders {
      MoveKeepsRest(db, orderId, Fulfilled);
    }
  }

  lemma CreateShipmentKeeps(db: Db, orderId: nat, request: ShipmentRequest)
    requires Valid(db)
    ensures Valid(CreateShipment(db, orderId, request).db)
  {
    if CreateShipment(db, orderId, request).db != db {
      RequestedIsShippable(db, orderId, request);
      AddShipmentKeeps(db, orderId, request, Requested(db, orderId, request));
    }
  }

  // -------------------------------------------------------------- every step

  lemma StepKeepsBooks(db: Db, step: Step)
    requires Valid(db) && db.Linked()
    ensures Valid(Apply(db, step).db)
  {
    hide OrdersOk; hide PaymentsOk; hide RefundsOk; hide CapsOk;
    hide StatusesExact; hide TransactionsOk; hide ShipmentsOk;
    hide CreateOrder; hide AddOrder; hide CloseOrder; hide CreatePayment; hide ConfirmPayment; hide CreateRefund;
    hide ReviewRefund; hide BeginExecute; hide UpdatePending; hide ConfirmRefund; hide CreateShipment;
    match step
    case OrderCreate(request, now, timeout) => CreateOrderKeeps(db, request, now, timeout);
    case OrderCancel(id) =>
      if CancelOrder(db, id).db != db {
        CloseOrderKeeps(db, id, Canceled);
      }
    case OrderExpire(id, now) =>
      if ExpireOrder(db, id, now).db != db {
        CloseOrderKeeps(db, id, Expired);
      }
    case PaymentCreate(key, orderId, channel, number) => CreatePaymentKeeps(db, key, orderId, channel, number);
    case PaymentConfirm(id, c) => ConfirmPaymentKeeps(db, id, c);
    case RefundCreate(orderId, request) => CreateRefundKeeps(db, orderId, request);
    case RefundReview(id, approved, note) => ReviewRefundKeeps(db, id, approved, note);
    case RefundBegin(id) => BeginExecuteKeeps(db, id);
    case RefundUpdate(id, eventId, refundNo) => UpdatePendingKeeps(db, id, eventId, refundNo);
    case RefundConfirm(id, n) => ConfirmRefundKeeps(db, id, n);
    case ShipmentCreate(orderId, request) => CreateShipmentKeeps(db, orderId, request);
    case _ =>
  }
}
