/** What opening and confirming a payment promise, in terms of the tables alone. */
module PaymentPromises {
  import opened Wrappers
  import opened Inventory
  import opened Tables
  import opened Payments
  import opened Books
  import opened Stock
  import opened ReservedKeys
  import Text

  // ------------------------------------------------------------------ opening

  /** With a fresh key a payment is opened iff key and channel are valid, the order waits and the number is new. */
  lemma PaymentIsOpenedIff(db: Db, key: string, orderId: nat, channel: string, number: string)
    requires forall p :: 0 <= p < |db.payments| ==> db.payments[p].key != key
    ensures CreatePayment(db, key, orderId, channel, number).result.Ok? <==>
              && Text.Trim(key) != "" && |key| <= 100
              && (channel == "mock" || channel == "wechat_pay" || channel == "alipay" || channel == "stripe")
              && orderId < |db.orders| && db.orders[orderId].status == Pending
              && forall p :: 0 <= p < |db.payments| ==> db.payments[p].number != number
  {
    hide Text.Trim;
    assert Find(db.payments, PaymentKeyed(key)).None?;
  }

  lemma OpeningErrors(db: Db, key: string, orderId: nat, channel: string, number: string)
    requires forall p :: 0 <= p < |db.payments| ==> db.payments[p].key != key
    requires CreatePayment(db, key, orderId, channel, number).result.Err?
    ensures var valid := && Text.Trim(key) != "" && |key| <= 100
                         && (channel == "mock" || channel == "wechat_pay" || channel == "alipay" || channel == "stripe");
            CreatePayment(db, key, orderId, channel, number).result.error ==
            if valid && orderId >= |db.orders| then NotFound
            else if valid && db.orders[orderId].status == Pending then Constraint
            else Conflict
  {
    hide Text.Trim;
    assert Find(db.payments, PaymentKeyed(key)).None?;
  }

  /** It is one more pending payment, over the order's total, and nothing else. */
  lemma PaymentIsAsAsked(db: Db, key: string, orderId: nat, channel: string, number: string)
    requires forall p :: 0 <= p < |db.payments| ==> db.payments[p].key != key
    requires CreatePayment(db, key, orderId, channel, number).result.Ok?
    ensures orderId < |db.orders|
    ensures CreatePayment(db, key, orderId, channel, number) ==
            Outcome(db.(payments := db.payments +
                          [Payment(orderId, number, key, channel, PaymentPending, db.orders[orderId].total, None, None)]),
                    Ok(|db.payments|))
  {
    hide ValidKey;
    assert Find(db.payments, PaymentKeyed(key)).None?;
  }

  // --------------------------------------------------------------- confirming

  /** The report names its event and trade, and its amount fits the column. */
  predicate Legible(eventId: string, tradeNo: string, amount: nat) {
    Text.Trim(eventId) != "" && Text.Trim(tradeNo) != "" && amount < 1_000_000_000_000
  }

  /** No other payment of the channel carries the event. */
  ghost predicate EventFree(db: Db, p: nat, eventId: string)
    requires p < |db.payments|
  {
    forall i :: 0 <= i < |db.payments| && i != p && db.payments[i].channel == db.payments[p].channel ==>
      db.payments[i].eventId != Some(eventId)
  }

  /** The payment's row once a report has settled it. */
  function SettledAs(payment: Payment, status: PaymentStatus, eventId: string, tradeNo: string): Payment {
    payment.(status := status, eventId := Some(eventId), tradeNo := Some(tradeNo))
  }

  /** A failure report on a pending payment is taken iff it is legible and its event free; only the payment changes. */
  lemma FailureReportPromise(db: Db, p: nat, c: Confirmation)
    requires db.Linked() && p < |db.payments| && db.payments[p].status == PaymentPending && !c.succeeded
    ensures ConfirmPayment(db, p, c).result.Ok? <==> Legible(c.eventId, c.tradeNo, c.amount) && EventFree(db, p, c.eventId)
    ensures ConfirmPayment(db, p, c).result.Ok? ==>
              ConfirmPayment(db, p, c).db ==
              db.(payments := db.payments[p := SettledAs(db.payments[p], PaymentFailed, c.eventId, c.tradeNo)])
  {
    hide Text.Trim; hide Db.Linked;
  }

  /** The order's keys for deduction and release are unused. */
  ghost predicate SaleKeysFree(db: Db, o: nat)
    requires o < |db.orders|
  {
    forall i :: 0 <= i < |db.orders[o].items| ==>
      && !KeyUsed(db.ledger, Key(db.orders[o].items[i].sku, Unlock, "order", o))
      && !KeyUsed(db.ledger, Key(db.orders[o].items[i].sku, Out, "order", o))
  }

  /** What a sale leaves: payment and order settled, and each line off the shelf and off the locks. */
  ghost predicate SoldAs(db: Db, after: Db, p: nat, eventId: string, tradeNo: string)
    requires p < |db.payments| && db.payments[p].orderId < |db.orders|
  {
    var o := db.payments[p].orderId;
    && after == db.(payments := after.payments, orders := after.orders, ledger := after.ledger)
    && after.payments == db.payments[p := SettledAs(db.payments[p], PaymentSucceeded, eventId, tradeNo)]
    && after.orders == db.orders[o := db.orders[o].(status := Paid)]
    && forall sku: nat ::
         && OnHand(after.ledger, sku) == OnHand(db.ledger, sku) - QtyOf(db.orders[o].items, sku)
         && Locked(after.ledger, sku) == Locked(db.ledger, sku) - QtyOf(db.orders[o].items, sku)
  }

  lemma DeductionMoves(ledger: seq<Row>, items: seq<OrderItem>, o: nat)
    ensures forall sku: nat ::
              && OnHand(ledger + DeductionRows(items, o), sku) == OnHand(ledger, sku) - QtyOf(items, sku)
              && Locked(ledger + DeductionRows(items, o), sku) == Locked(ledger, sku) - QtyOf(items, sku)
  {
    hide OnHand; hide Locked; hide DeductionRows;
    forall sku: nat
      ensures OnHand(ledger + DeductionRows(items, o), sku) == OnHand(ledger, sku) - QtyOf(items, sku)
      ensures Locked(ledger + DeductionRows(items, o), sku) == Locked(ledger, sku) - QtyOf(items, sku)
    {
      DeductionRowsWeigh(items, o, sku);
      Grow(ledger, DeductionRows(items, o), sku);
    }
  }

  /**
   A success report on a pending payment is taken iff it is legible, names the payment's amount and a free
   event, the order still waits and its keys are unused. The order is then paid and its stock deducted.
   */
  lemma SuccessReportPromise(db: Db, p: nat, c: Confirmation)
    requires Valid(db) && db.Linked() && p < |db.payments| && db.payments[p].status == PaymentPending && c.succeeded
    ensures db.payments[p].orderId < |db.orders|
    ensures var o := db.payments[p].orderId;
            ConfirmPayment(db, p, c).result.Ok? <==>
              && Legible(c.eventId, c.tradeNo, c.amount) && c.amount == db.payments[p].amount && EventFree(db, p, c.eventId)
              && db.orders[o].status == Pending && SaleKeysFree(db, o)
    ensures ConfirmPayment(db, p, c).result.Ok? ==> SoldAs(db, ConfirmPayment(db, p, c).db, p, c.eventId, c.tradeNo)
  {
    hide Text.Trim; hide KeyUsed; hide OnHand; hide Locked; hide DeductionRows; hide Insertable; hide QtyOf;
    hide Valid; hide OrderShape;
    assert db.payments[p] in db.payments;
    var o := db.payments[p].orderId;
    ShapeOf(db, o);
    DeductionNeedsFreeKeys(db.ledger, db.orders[o], o);
    DeductionMoves(db.ledger, db.orders[o].items, o);
  }

  /** Which error a refused report gets. Event id and keys are constraints of the tables. */
  lemma ReportErrors(db: Db, p: nat, c: Confirmation)
    requires db.Linked() && ConfirmPayment(db, p, c).result.Err?
    ensures p < |db.payments| ==> db.payments[p] in db.payments
    ensures ConfirmPayment(db, p, c).result.error ==
            if !Legible(c.eventId, c.tradeNo, c.amount) then Conflict
            else if p >= |db.payments| then NotFound
            else if db.payments[p].status != PaymentPending then Conflict
            else if c.succeeded && c.amount != db.payments[p].amount then Conflict
            else if c.succeeded && db.orders[db.payments[p].orderId].status != Pending then Conflict
            else Constraint
  {
    hide Text.Trim; hide Insertable; hide DeductionRows; hide EventTaken;
  }

  /** A settled payment acknowledges its own event and trade number, whatever else the report says, and refuses the rest. */
  lemma SettledPaymentAnswers(db: Db, p: nat, c: Confirmation)
    requires db.Linked() && p < |db.payments| && db.payments[p].status != PaymentPending
    ensures ConfirmPayment(db, p, c) ==
            if Legible(c.eventId, c.tradeNo, c.amount)
               && db.payments[p].eventId == Some(c.eventId) && db.payments[p].tradeNo == Some(c.tradeNo)
            then Outcome(db, Ok(p)) else Outcome(db, Err(Conflict))
  {
    hide Text.Trim; hide Db.Linked;
  }
}
