/** Refund requests, their review, and the transactions that carry one out. */
module Refunds {
  import opened Wrappers
  import opened Summation
  import opened Inventory
  import opened Tables
  import opened Text
  import opened Orders

  // ------------------------------------------------------------------ create

  predicate ValidAsks(lines: seq<LineAsk>) {
    && |lines| > 0
    && (forall i :: 0 <= i < |lines| ==> 0 < lines[i].quantity <= MAX_SAFE_INTEGER)
    && (forall i, j :: 0 <= i < j < |lines| ==> lines[i].item != lines[j].item)
  }

  predicate ValidRefundRequest(request: RefundRequest) {
    && ValidKey(request.key)
    && !Blank(request.reason) && |Trim(request.reason)| <= 500
    && ValidAsks(request.lines)
  }

  predicate Refundable(status: OrderStatus) {
    status.Paid? || status.Fulfilled? || status.PartiallyRefunded?
  }

  /** Why one requested line is refused. */
  function LineRefusal(db: Db, orderId: nat, ask: LineAsk): Option<Error>
    requires orderId < |db.orders|
  {
    var items := db.orders[orderId].items;
    if ask.item.orderId != orderId || ask.item.index >= |items| then Some(NotFound)
    else
      var remaining := items[ask.item.index].quantity - ReservedQty(db.refunds, orderId, ask.item.index);
      if remaining <= 0 || ask.quantity > remaining then Some(Conflict) else None
  }

  /** The first refused line decides the error. */
  function LinesRefusal(db: Db, orderId: nat, asks: seq<LineAsk>): (r: Option<Error>)
    requires orderId < |db.orders|
    ensures r.None? <==> forall i :: 0 <= i < |asks| ==> LineRefusal(db, orderId, asks[i]).None?
  {
    if |asks| == 0 then None
    else
      var n := |asks| - 1;
      match LinesRefusal(db, orderId, asks[..n])
      case Some(e) => Some(e)
      case None => LineRefusal(db, orderId, asks[n])
  }

  function PricedLine(items: seq<OrderItem>, ask: LineAsk): RefundLine
    requires ask.item.index < |items| && ask.quantity > 0
  {
    RefundLine(ask.item.index, ask.quantity, items[ask.item.index].unitPrice * ask.quantity)
  }

  function PricedLines(items: seq<OrderItem>, asks: seq<LineAsk>): (lines: seq<RefundLine>)
    requires forall i :: 0 <= i < |asks| ==> asks[i].item.index < |items| && asks[i].quantity > 0
    ensures |lines| == |asks|
    ensures forall i :: 0 <= i < |asks| ==> lines[i] == PricedLine(items, asks[i])
  {
    seq(|asks|, i requires 0 <= i < |asks| => PricedLine(items, asks[i]))
  }

  const AmountOf := (l: RefundLine) => l.amount

  function CreateRefund(db: Db, orderId: nat, request: RefundRequest): Outcome {
    if !ValidRefundRequest(request) then Throw(db, Conflict)
    else
      match Find(db.refunds, RefundKeyed(request.key))
      case Some(i) =>
        if db.refunds[i].request == request then Return(db, i) else Throw(db, Conflict)
      case None =>
        if orderId >= |db.orders| then Throw(db, NotFound)
        else if !Refundable(db.orders[orderId].status) then Throw(db, Conflict)
        else
          match LinesRefusal(db, orderId, request.lines)
          case Some(e) => Throw(db, e)
          case None => AddRefund(db, orderId, request, LinesFor(db, orderId, request))
  }

  function LinesFor(db: Db, orderId: nat, request: RefundRequest): seq<RefundLine>
    requires orderId < |db.orders| && ValidRefundRequest(request)
    requires LinesRefusal(db, orderId, request.lines).None?
  {
    assert forall i :: 0 <= i < |request.lines| ==> LineRefusal(db, orderId, request.lines[i]).None?;
    PricedLines(db.orders[orderId].items, request.lines)
  }

  /** The amount caps and the write of a new refund. */
  function AddRefund(db: Db, orderId: nat, request: RefundRequest, lines: seq<RefundLine>): Outcome
    requires orderId < |db.orders|
  {
    var amount := Sum(lines, AmountOf);
    var total := db.orders[orderId].total;
    if amount > total then Throw(db, Conflict)
    else if amount + ReservedAmount(db.refunds, orderId) > total then Throw(db, Conflict)
    else if amount <= 0 || exists i :: 0 <= i < |lines| && lines[i].amount <= 0 then Throw(db, Constraint)
    else
      Return(db.(refunds := db.refunds + [Refund(orderId, request, PendingReview, lines, amount)]), |db.refunds|)
  }

  // ------------------------------------------------------------------ review

  function WithRefundStatus(refunds: seq<Refund>, id: nat, status: RefundStatus): seq<Refund>
    requires id < |refunds|
  {
    refunds[id := refunds[id].(status := status)]
  }

  /** An absent note is the empty one. */
  function ReviewRefund(db: Db, id: nat, approved: bool, note: string): Outcome {
    var next := if approved then Approved else Rejected;
    if |Trim(note)| > 500 then Throw(db, Conflict)
    else if id >= |db.refunds| then Throw(db, NotFound)
    else if !RefundStep(db.refunds[id].status, next) then Throw(db, Conflict)
    else Return(db.(refunds := WithRefundStatus(db.refunds, id, next)), id)
  }

  // ----------------------------------------------------------------- execute

  /**
   The first transaction of `execute`: returns 1 when it recorded a new refund transaction, so the
   caller goes on to the provider, and 0 when one existed already.
   */
  function BeginExecute(db: Db, id: nat): Outcome
    requires db.Linked()
  {
    if id >= |db.refunds| then Throw(db, NotFound)
    else if Find(db.transactions, ForRefund(id)).Some? then Return(db, 0)
    else if !db.refunds[id].status.Approved? then Throw(db, Conflict)
    else
      match Find(db.payments, SucceededFor(db.refunds[id].orderId))
      case None => Throw(db, Conflict)
      case Some(p) =>
        if db.payments[p].tradeNo.None? || db.payments[p].tradeNo.value == "" then Throw(db, Conflict)
        else
          var transaction := Transaction(
            id, db.payments[p].channel, TxPending, db.refunds[id].amount, None, None);
          Return(db.(transactions := db.transactions + [transaction]), 1)
  }

  /** The unique key over channel and event. */
  predicate RefundEventTaken(transactions: seq<Transaction>, id: nat, channel: string, eventId: string) {
    exists i :: 0 <= i < |transactions| && i != id &&
      transactions[i].channel == channel && transactions[i].eventId == Some(eventId)
  }

  /** The last transaction of `execute` when the provider has not decided: it reads no status. */
  function UpdatePending(db: Db, transactionId: nat, eventId: string, refundNo: string): Outcome {
    if transactionId >= |db.transactions| then Throw(db, NotFound)
    else
      var t := db.transactions[transactionId];
      if RefundEventTaken(db.transactions, transactionId, t.channel, eventId) then Throw(db, Constraint)
      else
        Return(db.(transactions := db.transactions[transactionId :=
                     t.(eventId := Some(eventId), refundNo := Some(refundNo))]), transactionId)
  }

  // ----------------------------------------------------------------- confirm

  datatype RefundNotice = RefundNotice(eventId: string, refundNo: string, amount: int, succeeded: bool)

  predicate ValidNotice(n: RefundNotice) {
    !Blank(n.eventId) && !Blank(n.refundNo) && n.amount >= 0 && FitsMoney(n.amount)
  }

  /** The stock a successful refund puts back, line by line. */
  function RestoreRows(items: seq<OrderItem>, lines: seq<RefundLine>, refundId: nat): (rows: seq<Row>)
    requires LinesOf(lines, items)
    ensures |rows| == |lines|
    ensures forall k :: 0 <= k < |lines| ==>
      rows[k] == Row(Key(items[lines[k].item].sku, RefundEntry, "refund", refundId), lines[k].quantity)
  {
    if |lines| == 0 then []
    else
      var n := |lines| - 1;
      RestoreRows(items, lines[..n], refundId) +
      [Row(Key(items[lines[n].item].sku, RefundEntry, "refund", refundId), lines[n].quantity)]
  }

  /** Every item of the order is covered by succeeded refunds. */
  predicate FullyRefunded(items: seq<OrderItem>, refunds: seq<Refund>, orderId: nat) {
    forall i :: 0 <= i < |items| ==> RefundedQty(refunds, orderId, i) >= items[i].quantity
  }

  /** Puts stock back and recomputes the order status; `refunds` already holds the new status. */
  function RestoreInventoryAndOrder(db: Db, refund: Refund, refundId: nat): Db
    requires refund.orderId < |db.orders| && LinesOf(refund.lines, db.orders[refund.orderId].items)
  {
    var o := refund.orderId;
    var status := if FullyRefunded(db.orders[o].items, db.refunds, o) then Refunded else PartiallyRefunded;
    db.(ledger := InsertSkippingDuplicates(db.ledger, RestoreRows(db.orders[o].items, refund.lines, refundId)),
        orders := if Refundable(db.orders[o].status) then WithStatus(db.orders, o, status) else db.orders)
  }

  function SettledTransaction(t: Transaction, n: RefundNotice): Transaction {
    t.(status := if n.succeeded then TxSucceeded else TxFailed,
       eventId := Some(n.eventId), refundNo := Some(n.refundNo))
  }

  function ConfirmRefund(db: Db, id: nat, n: RefundNotice): Outcome
    requires db.Linked()
  {
    if !ValidNotice(n) then Throw(db, Conflict)
    else if id >= |db.refunds| then Throw(db, NotFound)
    else
      match Find(db.transactions, ForRefund(id))
      case None => Throw(db, Conflict)
      case Some(k) =>
        var t := db.transactions[k];
        if !t.status.TxPending? then
          if t.eventId == Some(n.eventId) then Return(db, id) else Throw(db, Conflict)
        else if db.refunds[id].amount != n.amount then Throw(db, Conflict)
        else
          var next := if n.succeeded then RefundSucceeded else RefundFailed;
          if !RefundStep(db.refunds[id].status, next) then Throw(db, Conflict)
          else if RefundEventTaken(db.transactions, k, t.channel, n.eventId) then Throw(db, Constraint)
          else
            var marked := db.(transactions := db.transactions[k := SettledTransaction(t, n)],
                              refunds := WithRefundStatus(db.refunds, id, next));
            Return(if n.succeeded then RestoreInventoryAndOrder(marked, marked.refunds[id], id) else marked, id)
  }

  // ----------------------------------------------------------------- execute

  /** What the provider answers to a refund it is asked for. */
  datatype Answer =
    | Accomplished(eventId: string, refundNo: string)
    | Undecided(eventId: string, refundNo: string)

  /** A new transaction refers to a refund that exists. */
  lemma BeginKeepsLinks(db: Db, id: nat)
    requires db.Linked()
    ensures BeginExecute(db, id).db.Linked()
  {
    hide Find;
  }

  lemma BeginOnlyRecords(db: Db, id: nat)
    requires db.Linked()
    ensures var begun := BeginExecute(db, id);
            && begun.db == db.(transactions := begun.db.transactions)
            && (begun.result.Ok? ==> id < |db.refunds| && (begun.result.value == 0 || begun.result.value == 1))
            && (begun.result == Ok(1) ==> |begun.db.transactions| == |db.transactions| + 1)
            && (begun.result != Ok(1) ==> begun.db == db)
  {
    hide Find;
  }

  /** `execute` without interference: record, ask, then confirm or note the undecided answer. */
  function ExecuteRefund(db: Db, id: nat, answer: Answer): Outcome
    requires db.Linked()
  {
    BeginKeepsLinks(db, id);
    var begun := BeginExecute(db, id);
    if begun.result != Ok(1) then (if begun.result.Ok? then Return(db, id) else begun)
    else
      match answer
      case Accomplished(eventId, refundNo) =>
        ConfirmRefund(begun.db, id, RefundNotice(eventId, refundNo, db.refunds[id].amount, true))
      case Undecided(eventId, refundNo) => UpdatePending(begun.db, |db.transactions|, eventId, refundNo)
  }
}
