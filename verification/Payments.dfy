/** Opening a payment and confirming it from a provider event. */
module Payments {
  import opened Wrappers
  import opened Inventory
  import opened Tables
  import opened Text
  import opened Orders

  const CHANNELS: set<string> := {"mock", "wechat_pay", "alipay", "stripe"}

  function CreatePayment(db: Db, key: string, orderId: nat, channel: string, number: string): Outcome {
    if !ValidKey(key) || channel !in CHANNELS then Throw(db, Conflict)
    else
      match Find(db.payments, PaymentKeyed(key))
      case Some(i) =>
        if db.payments[i].orderId == orderId && db.payments[i].channel == channel then Return(db, i)
        else Throw(db, Conflict)
      case None =>
        if orderId >= |db.orders| then Throw(db, NotFound)
        else if !db.orders[orderId].status.Pending? then Throw(db, Conflict)
        else if exists i :: 0 <= i < |db.payments| && db.payments[i].number == number then Throw(db, Constraint)
        else
          var payment := Payment(orderId, number, key, channel, PaymentPending, db.orders[orderId].total, None, None);
          Return(db.(payments := db.payments + [payment]), |db.payments|)
  }

  datatype Confirmation = Confirmation(eventId: string, tradeNo: string, amount: nat, succeeded: bool)

  predicate ValidConfirmation(c: Confirmation) {
    !Blank(c.eventId) && !Blank(c.tradeNo) && FitsMoney(c.amount)
  }

  /** The unique key over channel and event. */
  predicate EventTaken(payments: seq<Payment>, id: nat, channel: string, eventId: string) {
    exists i :: 0 <= i < |payments| && i != id && payments[i].channel == channel && payments[i].eventId == Some(eventId)
  }

  function Settled(p: Payment, status: PaymentStatus, c: Confirmation): Payment {
    p.(status := status, eventId := Some(c.eventId), tradeNo := Some(c.tradeNo))
  }

  /** Deduction and release of every line, item by item. */
  function DeductionRows(items: seq<OrderItem>, orderId: nat): (rows: seq<Row>)
    ensures |rows| == 2 * |items|
    ensures forall i :: 0 <= i < |items| ==>
      && rows[2 * i] == Row(Key(items[i].sku, Out, "order", orderId), 0 - items[i].quantity)
      && rows[2 * i + 1] == Row(Key(items[i].sku, Unlock, "order", orderId), items[i].quantity)
  {
    if |items| == 0 then []
    else
      var n := |items| - 1;
      DeductionRows(items[..n], orderId) +
      [Row(Key(items[n].sku, Out, "order", orderId), 0 - items[n].quantity),
       Row(Key(items[n].sku, Unlock, "order", orderId), items[n].quantity)]
  }

  function ConfirmPayment(db: Db, id: nat, c: Confirmation): Outcome
    requires db.Linked()
  {
    if !ValidConfirmation(c) then Throw(db, Conflict)
    else if id >= |db.payments| then Throw(db, NotFound)
    else
      var p := db.payments[id];
      if !p.status.PaymentPending? then
        if p.eventId == Some(c.eventId) && p.tradeNo == Some(c.tradeNo) then Return(db, id)
        else Throw(db, Conflict)
      else if !c.succeeded then
        if EventTaken(db.payments, id, p.channel, c.eventId) then Throw(db, Constraint)
        else Return(db.(payments := db.payments[id := Settled(p, PaymentFailed, c)]), id)
      else if p.amount != c.amount then Throw(db, Conflict)
      else if !OrderStep(db.orders[p.orderId].status, Paid) then Throw(db, Conflict)
      else
        match Insert(db.ledger, DeductionRows(db.orders[p.orderId].items, p.orderId))
        case None => Throw(db, Constraint)
        case Some(ledger) =>
          if EventTaken(db.payments, id, p.channel, c.eventId) then Throw(db, Constraint)
          else
            Return(db.(ledger := ledger,
                       orders := WithStatus(db.orders, p.orderId, Paid),
                       payments := db.payments[id := Settled(p, PaymentSucceeded, c)]), id)
  }
}
