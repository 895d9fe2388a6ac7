/**
 The services at work: one object holds the tables, and each use case reads rows, checks its guards
 in loops and writes rows in place. A method either returns with everything written or leaves all
 tables as they were; its contract is the transaction it refines.
 */
module Store {
  import opened Wrappers
  import opened Summation
  import opened Inventory
  import opened Tables
  import opened Text
  import O = Orders
  import P = Payments
  import R = Refunds
  import S = Shipments
  import opened Steps
  import opened Books
  import opened BooksKept
  import opened Runs
  import opened Stock
  import opened StockSafety
  import opened Expiry
  import StockPromises
  import OrderPromises
  import RefundPromises
  import ShipmentPromises

  // ----------------------------------------------------------- loops of the rules

  method CheckOrderItems(items: seq<ItemAsk>) returns (ok: bool)
    ensures ok == O.ValidItems(items)
  {
    if |items| == 0 {
      return false;
    }
    var variants: set<nat> := {};
    for n := 0 to |items|
      invariant forall i :: 0 <= i < n ==> 0 < items[i].quantity <= MAX_SAFE_INTEGER
      invariant forall i, j :: 0 <= i < j < n ==> items[i].sku != items[j].sku
      invariant forall sku :: sku in variants <==> exists i :: 0 <= i < n && items[i].sku == sku
    {
      if !SafeInteger(items[n].quantity) || items[n].quantity <= 0 || items[n].sku in variants {
        return false;
      }
      variants := variants + {items[n].sku};
    }
    return true;
  }

  method CheckLineAsks(lines: seq<LineAsk>) returns (ok: bool)
    ensures ok == R.ValidAsks(lines)
  {
    if |lines| == 0 {
      return false;
    }
    var seen: set<ItemRef> := {};
    for n := 0 to |lines|
      invariant forall i :: 0 <= i < n ==> 0 < lines[i].quantity <= MAX_SAFE_INTEGER
      invariant forall i, j :: 0 <= i < j < n ==> lines[i].item != lines[j].item
      invariant forall item :: item in seen <==> exists i :: 0 <= i < n && lines[i].item == item
    {
      if !SafeInteger(lines[n].quantity) || lines[n].quantity <= 0 || lines[n].item in seen {
        return false;
      }
      seen := seen + {lines[n].item};
    }
    return true;
  }

  function GetOr(totals: map<nat, int>, item: nat): int {
    if item in totals then totals[item] else 0
  }

  /** Quantities added up per order item. */
  method SumQuantities(lines: seq<RefundLine>) returns (totals: map<nat, int>)
    ensures forall item: nat :: GetOr(totals, item) == LineQty(lines, item)
  {
    totals := map[];
    for n := 0 to |lines|
      invariant forall item: nat :: GetOr(totals, item) == LineQty(lines[..n], item)
    {
      var line := lines[n];
      assert lines[..n + 1] == lines[..n] + [line];
      forall item: nat ensures LineQty(lines[..n + 1], item) == LineQty(lines[..n], item) + LineOf(item)(line) {
        Append(lines[..n], line, LineOf(item));
      }
      totals := totals[line.item := GetOr(totals, line.item) + line.quantity];
    }
    assert lines[..|lines|] == lines;
  }

  method SumShippedQuantities(lines: seq<ShipmentLine>) returns (totals: map<nat, int>)
    ensures forall item: nat :: GetOr(totals, item) == ShipLineQty(lines, item)
  {
    totals := map[];
    for n := 0 to |lines|
      invariant forall item: nat :: GetOr(totals, item) == ShipLineQty(lines[..n], item)
    {
      var line := lines[n];
      assert lines[..n + 1] == lines[..n] + [line];
      forall item: nat ensures ShipLineQty(lines[..n + 1], item) == ShipLineQty(lines[..n], item) + ShipLineOf(item)(line) {
        Append(lines[..n], line, ShipLineOf(item));
      }
      totals := totals[line.item := GetOr(totals, line.item) + line.quantity];
    }
    assert lines[..|lines|] == lines;
  }

  method AddLines(items: seq<OrderItem>) returns (subtotal: int)
    ensures subtotal == O.Subtotal(items)
  {
    subtotal := 0;
    for n := 0 to |items|
      invariant subtotal == O.Subtotal(items[..n])
    {
      Append(items[..n], items[n], O.LineTotal);
      assert items[..n + 1] == items[..n] + [items[n]];
      subtotal := subtotal + items[n].unitPrice * items[n].quantity;
    }
    assert items[..|items|] == items;
  }

  method AddAmounts(lines: seq<RefundLine>) returns (amount: int)
    ensures amount == Sum(lines, R.AmountOf)
  {
    amount := 0;
    for n := 0 to |lines|
      invariant amount == Sum(lines[..n], R.AmountOf)
    {
      Append(lines[..n], lines[n], R.AmountOf);
      assert lines[..n + 1] == lines[..n] + [lines[n]];
      amount := amount + lines[n].amount;
    }
    assert lines[..|lines|] == lines;
  }

  // ----------------------------------------------------------- the queries' rows

  /** The lines of an order's refunds whose status is selected. */
  function LinesWhere(refunds: seq<Refund>, orderId: nat, selected: RefundStatus -> bool): seq<RefundLine> {
    if |refunds| == 0 then []
    else
      var n := |refunds| - 1;
      LinesWhere(refunds[..n], orderId, selected) +
      if refunds[n].orderId == orderId && selected(refunds[n].status) then refunds[n].lines else []
  }

  const IsActive := (status: RefundStatus) => Active(status)
  const IsSucceeded := (status: RefundStatus) => status.RefundSucceeded?

  lemma {:induction false} ReservedLinesSum(refunds: seq<Refund>, orderId: nat, item: nat)
    ensures LineQty(LinesWhere(refunds, orderId, IsActive), item) == ReservedQty(refunds, orderId, item)
  {
    if |refunds| > 0 {
      var n := |refunds| - 1;
      ReservedLinesSum(refunds[..n], orderId, item);
      Concat(LinesWhere(refunds[..n], orderId, IsActive), refunds[n].lines, LineOf(item));
      assert LinesWhere(refunds[..n], orderId, IsActive) + [] == LinesWhere(refunds[..n], orderId, IsActive);
    }
  }

  lemma {:induction false} SucceededLinesSum(refunds: seq<Refund>, orderId: nat, item: nat)
    ensures LineQty(LinesWhere(refunds, orderId, IsSucceeded), item) == RefundedQty(refunds, orderId, item)
  {
    if |refunds| > 0 {
      var n := |refunds| - 1;
      SucceededLinesSum(refunds[..n], orderId, item);
      Concat(LinesWhere(refunds[..n], orderId, IsSucceeded), refunds[n].lines, LineOf(item));
      assert LinesWhere(refunds[..n], orderId, IsSucceeded) + [] == LinesWhere(refunds[..n], orderId, IsSucceeded);
    }
  }

  function ShippedLines(shipments: seq<Shipment>, orderId: nat): seq<ShipmentLine> {
    if |shipments| == 0 then []
    else
      var n := |shipments| - 1;
      ShippedLines(shipments[..n], orderId) + if shipments[n].orderId == orderId then shipments[n].lines else []
  }

  lemma {:induction false} ShippedLinesSum(shipments: seq<Shipment>, orderId: nat, item: nat)
    ensures ShipLineQty(ShippedLines(shipments, orderId), item) == ShippedQty(shipments, orderId, item)
  {
    if |shipments| > 0 {
      var n := |shipments| - 1;
      ShippedLinesSum(shipments[..n], orderId, item);
      Concat(ShippedLines(shipments[..n], orderId), shipments[n].lines, ShipLineOf(item));
      assert ShippedLines(shipments[..n], orderId) + [] == ShippedLines(shipments[..n], orderId);
    }
  }

  /** Once a line is refused, later lines do not change the error. */
  lemma {:induction false} FirstRefusalStands(db: Db, orderId: nat, asks: seq<LineAsk>, n: nat)
    requires orderId < |db.orders| && n <= |asks| && R.LinesRefusal(db, orderId, asks[..n]).Some?
    ensures R.LinesRefusal(db, orderId, asks) == R.LinesRefusal(db, orderId, asks[..n])
  {
    if n < |asks| {
      assert asks[..|asks| - 1][..n] == asks[..n];
      FirstRefusalStands(db, orderId, asks[..|asks| - 1], n);
    } else {
      assert asks[..n] == asks;
    }
  }

  lemma NothingRefused(db: Db, orderId: nat)
    requires orderId < |db.orders|
    ensures R.LinesRefusal(db, orderId, []).None?
  {
  }

  /** While no line is refused, the next one decides. */
  lemma NextLine(db: Db, orderId: nat, asks: seq<LineAsk>, n: nat)
    requires orderId < |db.orders| && n < |asks| && R.LinesRefusal(db, orderId, asks[..n]).None?
    ensures R.LinesRefusal(db, orderId, asks[..n + 1]) == R.LineRefusal(db, orderId, asks[n])
  {
    assert asks[..n + 1][..n] == asks[..n];
  }

  /** Checks and prices the requested lines against what other refunds already hold. */
  method PriceLines(ghost db: Db, orderId: nat, items: seq<OrderItem>, reserved: map<nat, int>, asks: seq<LineAsk>)
    returns (refusal: Option<Error>, lines: seq<RefundLine>)
    requires orderId < |db.orders| && items == db.orders[orderId].items && R.ValidAsks(asks)
    requires forall item: nat :: GetOr(reserved, item) == ReservedQty(db.refunds, orderId, item)
    ensures refusal == R.LinesRefusal(db, orderId, asks)
    ensures refusal.None? <==> forall i :: 0 <= i < |asks| ==> RefundPromises.FitsOrder(db, orderId, asks[i])
    ensures refusal.None? ==>
              && |lines| == |asks|
              && forall i :: 0 <= i < |asks| ==>
                asks[i].item.index < |items| && lines[i] == R.PricedLine(items, asks[i])
  {
    hide R.LinesRefusal; hide ReservedQty; hide RefundPromises.FitsOrder;
    RefundPromises.LinesFitIff(db, orderId, asks);
    lines := [];
    assert asks[..0] == [];
    NothingRefused(db, orderId);
    for n := 0 to |asks|
      invariant R.LinesRefusal(db, orderId, asks[..n]).None?
      invariant forall i :: 0 <= i < n ==> asks[i].item.index < |items|
      invariant |lines| == n && forall i :: 0 <= i < n ==> lines[i] == R.PricedLine(items, asks[i])
    {
      var ask := asks[n];
      NextLine(db, orderId, asks, n);
      if ask.item.orderId != orderId || ask.item.index >= |items| {
        FirstRefusalStands(db, orderId, asks, n + 1);
        return Some(NotFound), [];
      }
      var remaining := items[ask.item.index].quantity - GetOr(reserved, ask.item.index);
      if remaining <= 0 || ask.quantity > remaining {
        FirstRefusalStands(db, orderId, asks, n + 1);
        return Some(Conflict), [];
      }
      lines := lines + [RefundLine(ask.item.index, ask.quantity, items[ask.item.index].unitPrice * ask.quantity)];
    }
    assert asks[..|asks|] == asks;
    refusal := None;
  }

  class CommerceStore {
    var catalogue: map<nat, Variant>
    var ledger: seq<Row>
    var orders: seq<Order>
    var payments: seq<Payment>
    var refunds: seq<Refund>
    var transactions: seq<Transaction>
    var shipments: seq<Shipment>

    function Rows(): Db
      reads this
    {
      Db(catalogue, ledger, orders, payments, refunds, transactions, shipments)
    }

    constructor ()
      ensures Rows() == Empty
    {
      catalogue := map[];
      ledger, orders, payments, refunds, transactions, shipments := [], [], [], [], [], [];
    }

    // ---------------------------------------------------------------- inventory

    method Execute(c: Command) returns (result: Result<Balance>)
      modifies this`ledger
      ensures LedgerOutcome(ledger, result) == Inventory.Execute(old(ledger), c.sku in catalogue, c)
      ensures result.Ok? <==> StockPromises.Accepts(old(ledger), c.sku in catalogue, c)
      ensures result.Ok? && !KeyUsed(old(ledger), KeyOf(c)) ==> StockPromises.Moved(old(ledger), ledger, c)
    {
      StockPromises.CommandIsAcceptedIff(ledger, c.sku in catalogue, c);
      if Inventory.Execute(ledger, c.sku in catalogue, c).result.Ok? && !KeyUsed(ledger, KeyOf(c)) {
        StockPromises.CommandMoves(ledger, c.sku in catalogue, c);
      }
      if c.sku !in catalogue {
        return Err(NotFound);
      }
      var current := CalculateBalance(ledger, c.sku);
      if KeyUsed(ledger, KeyOf(c)) {
        return Ok(current);
      }
      var refusal := Refusal(c.op, c.quantity, current);
      if refusal.Some? {
        return Err(refusal.value);
      }
      var rows := [Row(KeyOf(c), QtyChange(c.op, c.quantity))];
      if c.op.Out? {
        rows := rows + [Row(Key(c.sku, Unlock, c.refType, c.refId), c.quantity)];
      }
      var inserted := Insert(ledger, rows);
      if inserted.None? {
        return Err(Constraint);
      }
      ledger := inserted.value;
      current := CalculateBalance(ledger, c.sku);
      return Ok(current);
    }

    /** Opening stock of a new product or an intake, as one row. */
    method OpenStock(sku: nat, quantity: int, intake: bool, refId: nat) returns (result: Result<nat>)
      modifies this`ledger
      ensures Outcome(Rows(), result) == Steps.OpenStock(old(Rows()), sku, quantity, intake, refId)
    {
      if !SafeInteger(quantity) || quantity < 0 {
        return Err(Conflict);
      }
      var inserted := Insert(ledger, [OpeningRow(sku, quantity, intake, refId)]);
      if inserted.None? {
        return Err(Constraint);
      }
      ledger := inserted.value;
      return Ok(0);
    }

    // ------------------------------------------------------------------- orders

    /** Whether each item may be locked at the balance the ledger shows. */
    method CheckLocks(items: seq<ItemAsk>) returns (ok: bool)
      ensures ok == O.Lockable(ledger, items)
    {
      for n := 0 to |items|
        invariant O.Lockable(ledger, items[..n])
      {
        var balance := CalculateBalance(ledger, items[n].sku);
        assert items[..n + 1] == items[..n] + [items[n]];
        if Refusal(Lock, items[n].quantity, balance).Some? {
          return false;
        }
      }
      assert items[..|items|] == items;
      return true;
    }

    method CreateOrder(request: OrderRequest, now: int, timeoutMinutes: int) returns (result: Result<nat>)
      modifies this
      ensures Outcome(Rows(), result) == O.CreateOrder(old(Rows()), request, now, timeoutMinutes)
      ensures OrderPromises.FreshKey(old(Rows()), request.key) ==>
                && (result.Ok? <==> OrderPromises.Accepts(old(Rows()), request))
                && (result.Ok? ==>
                      && |orders| == |old(orders)| + 1
                      && OrderPromises.AsAsked(catalogue, request, orders[|old(orders)|]))
    {
      hide OrderPromises.Accepts; hide OrderPromises.AsAsked; hide OrderPromises.FreshKey; hide O.FitsColumns;
      hide Insertable; hide ValidKey; hide FitsMoney; hide O.OrderRows;
      hide O.Lockable; hide O.Subtotal; hide Find;
      NewOrderPromise(Rows(), request, now, timeoutMinutes);
      var itemsOk := CheckOrderItems(request.items);
      if !itemsOk || !ValidKey(request.key) || !FitsMoney(request.discount) || !FitsMoney(request.shippingFee) {
        return Err(Conflict);
      }
      var existing := Find(orders, OrderKeyed(request.key));
      if existing.Some? {
        return if orders[existing.value].request == request then Ok(existing.value) else Err(Conflict);
      }
      if !(forall i :: 0 <= i < |request.items| ==> O.OnSale(catalogue, request.items[i].sku)) {
        return Err(NotFound);
      }
      var lockable := CheckLocks(request.items);
      if !lockable {
        return Err(Conflict);
      }
      assert forall i :: 0 <= i < |request.items| ==> O.OnSale(catalogue, request.items[i].sku);
      var items := O.Snapshot(catalogue, request.items);
      assert O.CreateOrder(Rows(), request, now, timeoutMinutes) ==
             O.AddOrder(Rows(), O.NewOrder(request, items, O.ExpiresAt(now, timeoutMinutes)));
      var subtotal := AddLines(items);
      var total := subtotal - request.discount + request.shippingFee;
      if total < 0 {
        return Err(Conflict);
      }
      var order := Order(request, Pending, items, subtotal, total, O.ExpiresAt(now, timeoutMinutes));
      if !O.FitsColumns(order) {
        return Err(Constraint);
      }
      var locked := Insert(ledger, O.OrderRows(items, |orders|, Lock, -1));
      if locked.None? {
        return Err(Constraint);
      }
      orders := orders + [order];
      ledger := locked.value;
      return Ok(|orders| - 1);
    }

    /** Unlock rows for every line, then the new status. */
    method Close(id: nat, status: OrderStatus) returns (result: Result<nat>)
      requires id < |orders|
      modifies this
      ensures Outcome(Rows(), result) == O.CloseOrder(old(Rows()), id, status)
    {
      var released := Insert(ledger, O.OrderRows(orders[id].items, id, Unlock, 1));
      if released.None? {
        return Err(Constraint);
      }
      ledger := released.value;
      orders := orders[id := orders[id].(status := status)];
      return Ok(1);
    }

    method CancelOrder(id: nat) returns (result: Result<nat>)
      modifies this
      ensures Outcome(Rows(), result) == O.CancelOrder(old(Rows()), id)
    {
      if id >= |orders| {
        return Err(NotFound);
      }
      if !OrderStep(orders[id].status, Canceled) {
        return Err(Conflict);
      }
      result := Close(id, Canceled);
    }

    method ExpireOne(id: nat, now: int) returns (result: Result<nat>)
      modifies this
      ensures Outcome(Rows(), result) == O.ExpireOrder(old(Rows()), id, now)
    {
      if id >= |orders| || !orders[id].status.Pending? || orders[id].expiresAt > now {
        return Ok(0);
      }
      result := Close(id, Expired);
    }

    /**
     Closes the orders a scan found, each in a transaction of its own; an error ends the sweep and is all
     the caller learns. Other transactions may come between scan and sweep, so `candidates` may be stale;
     when they are what the scan finds now, the sweep succeeds iff each of them can be closed.
     */
    method ExpirePending(candidates: seq<nat>, limit: int, now: int) returns (result: Result<seq<nat>>)
      modifies this
      ensures O.Sweep(Rows(), result) == O.ExpireAll(old(Rows()), candidates, |candidates|, now)
      ensures Valid(old(Rows())) && O.IsScan(old(orders), candidates, limit, now) ==>
                && (result.Ok? <==> forall k :: 0 <= k < |candidates| ==> Closable(old(Rows()), candidates[k]))
                && (result.Ok? ==> result.value == candidates)
                && (result.Ok? && |candidates| < PageSize(limit) ==>
                      forall o :: 0 <= o < |orders| ==> !O.Due(orders[o], now))
    {
      hide O.ExpireOrder; hide O.IsScan; hide Valid; hide Closable; hide Expiry.Closed; hide O.ExpireAll;
      if Valid(Rows()) && O.IsScan(orders, candidates, limit, now) {
        SweepSucceedsIff(Rows(), candidates, limit, now);
      }
      result := SweepOver(candidates, now);
    }

    method SweepOver(candidates: seq<nat>, now: int) returns (result: Result<seq<nat>>)
      modifies this
      ensures O.Sweep(Rows(), result) == O.ExpireAll(old(Rows()), candidates, |candidates|, now)
    {
      hide O.ExpireOrder;
      var expired := [];
      for n := 0 to |candidates|
        invariant O.Sweep(Rows(), Ok(expired)) == O.ExpireAll(old(Rows()), candidates, n, now)
      {
        var closed := ExpireOne(candidates[n], now);
        if closed.Err? {
          ErrorEndsSweep(old(Rows()), candidates, n + 1, now);
          return Err(closed.error);
        }
        if closed.value == 1 {
          expired := expired + [candidates[n]];
        }
      }
      return Ok(expired);
    }

    // ----------------------------------------------------------------- payments

    method CreatePayment(key: string, orderId: nat, channel: string, number: string) returns (result: Result<nat>)
      modifies this`payments
      ensures Outcome(Rows(), result) == P.CreatePayment(old(Rows()), key, orderId, channel, number)
    {
      if !ValidKey(key) || channel !in P.CHANNELS {
        return Err(Conflict);
      }
      var existing := Find(payments, PaymentKeyed(key));
      if existing.Some? {
        var found := payments[existing.value];
        return if found.orderId == orderId && found.channel == channel then Ok(existing.value) else Err(Conflict);
      }
      if orderId >= |orders| {
        return Err(NotFound);
      }
      if !orders[orderId].status.Pending? {
        return Err(Conflict);
      }
      if exists i :: 0 <= i < |payments| && payments[i].number == number {
        return Err(Constraint);
      }
      payments := payments + [Payment(orderId, number, key, channel, PaymentPending, orders[orderId].total, None, None)];
      return Ok(|payments| - 1);
    }

    method ConfirmPayment(id: nat, c: P.Confirmation) returns (result: Result<nat>)
      requires Rows().Linked()
      modifies this
      ensures Outcome(Rows(), result) == P.ConfirmPayment(old(Rows()), id, c)
    {
      if !P.ValidConfirmation(c) {
        return Err(Conflict);
      }
      if id >= |payments| {
        return Err(NotFound);
      }
      var payment := payments[id];
      if !payment.status.PaymentPending? {
        return if payment.eventId == Some(c.eventId) && payment.tradeNo == Some(c.tradeNo)
          then Ok(id) else Err(Conflict);
      }
      if !c.succeeded {
        if P.EventTaken(payments, id, payment.channel, c.eventId) {
          return Err(Constraint);
        }
        payments := payments[id := P.Settled(payment, PaymentFailed, c)];
        return Ok(id);
      }
      assert payment in payments;
      var orderId := payment.orderId;
      if payment.amount != c.amount || !OrderStep(orders[orderId].status, Paid) {
        return Err(Conflict);
      }
      var deducted := Insert(ledger, P.DeductionRows(orders[orderId].items, orderId));
      if deducted.None? || P.EventTaken(payments, id, payment.channel, c.eventId) {
        return Err(Constraint);
      }
      ledger := deducted.value;
      orders := orders[orderId := orders[orderId].(status := Paid)];
      payments := payments[id := P.Settled(payment, PaymentSucceeded, c)];
      return Ok(id);
    }

    // ------------------------------------------------------------------ refunds

    method CreateRefund(orderId: nat, request: RefundRequest) returns (result: Result<nat>)
      modifies this`refunds
      ensures Outcome(Rows(), result) == R.CreateRefund(old(Rows()), orderId, request)
      ensures old(Valid(Rows())) && old(RefundPromises.FreshKey(Rows(), request.key)) ==>
                && (result.Ok? <==> old(RefundPromises.Accepts(Rows(), orderId, request)))
                && (result.Ok? ==>
                      && orderId < |orders| && |refunds| == |old(refunds)| + 1
                      && RefundPromises.AsAsked(orders[orderId].items, orderId, request, refunds[|old(refunds)|]))
    {
      hide Valid; hide RefundPromises.FreshKey; hide RefundPromises.Accepts; hide RefundPromises.AsAsked;
      hide R.LineRefusal; hide R.LinesRefusal; hide R.ValidAsks; hide Trim; hide ReservedAmount; hide ReservedQty;
      hide Sum; hide LinesWhere;
      NewRefundPromise(Rows(), orderId, request);
      var asksOk := CheckLineAsks(request.lines);
      if !asksOk || !ValidKey(request.key) || Blank(request.reason) || |Trim(request.reason)| > 500 {
        return Err(Conflict);
      }
      var existing := Find(refunds, RefundKeyed(request.key));
      if existing.Some? {
        return if refunds[existing.value].request == request then Ok(existing.value) else Err(Conflict);
      }
      if orderId >= |orders| {
        return Err(NotFound);
      }
      if !R.Refundable(orders[orderId].status) {
        return Err(Conflict);
      }
      var reserved := SumQuantities(LinesWhere(refunds, orderId, IsActive));
      forall item: nat ensures GetOr(reserved, item) == ReservedQty(refunds, orderId, item) {
        ReservedLinesSum(refunds, orderId, item);
      }
      var refusal, lines := PriceLines(Rows(), orderId, orders[orderId].items, reserved, request.lines);
      if refusal.Some? {
        return Err(refusal.value);
      }
      assert lines == R.LinesFor(Rows(), orderId, request);
      assert R.CreateRefund(Rows(), orderId, request) == R.AddRefund(Rows(), orderId, request, lines);
      var amount := AddAmounts(lines);
      var total := orders[orderId].total;
      if amount > total || amount + ReservedAmount(refunds, orderId) > total {
        return Err(Conflict);
      }
      if amount <= 0 || exists i :: 0 <= i < |lines| && lines[i].amount <= 0 {
        return Err(Constraint);
      }
      refunds := refunds + [Refund(orderId, request, PendingReview, lines, amount)];
      return Ok(|refunds| - 1);
    }

    method ReviewRefund(id: nat, approved: bool, note: string) returns (result: Result<nat>)
      modifies this`refunds
      ensures Outcome(Rows(), result) == R.ReviewRefund(old(Rows()), id, approved, note)
    {
      var next := if approved then Approved else Rejected;
      if |Trim(note)| > 500 {
        return Err(Conflict);
      }
      if id >= |refunds| {
        return Err(NotFound);
      }
      if !RefundStep(refunds[id].status, next) {
        return Err(Conflict);
      }
      refunds := refunds[id := refunds[id].(status := next)];
      return Ok(id);
    }

    method BeginExecute(id: nat) returns (result: Result<nat>)
      requires Rows().Linked()
      modifies this`transactions
      ensures Outcome(Rows(), result) == R.BeginExecute(old(Rows()), id)
    {
      if id >= |refunds| {
        return Err(NotFound);
      }
      if Find(transactions, ForRefund(id)).Some? {
        return Ok(0);
      }
      if !refunds[id].status.Approved? {
        return Err(Conflict);
      }
      var paid := Find(payments, SucceededFor(refunds[id].orderId));
      if paid.None? || payments[paid.value].tradeNo.None? || payments[paid.value].tradeNo.value == "" {
        return Err(Conflict);
      }
      transactions := transactions +
        [Transaction(id, payments[paid.value].channel, TxPending, refunds[id].amount, None, None)];
      return Ok(1);
    }

    method UpdatePending(transactionId: nat, eventId: string, refundNo: string) returns (result: Result<nat>)
      modifies this`transactions
      ensures Outcome(Rows(), result) == R.UpdatePending(old(Rows()), transactionId, eventId, refundNo)
    {
      if transactionId >= |transactions| {
        return Err(NotFound);
      }
      var transaction := transactions[transactionId];
      if R.RefundEventTaken(transactions, transactionId, transaction.channel, eventId) {
        return Err(Constraint);
      }
      transactions := transactions[transactionId :=
        transaction.(eventId := Some(eventId), refundNo := Some(refundNo))];
      return Ok(transactionId);
    }

    /** Stock back on the shelf, and the order's status recomputed from all succeeded refunds. */
    method RestoreInventoryAndOrder(id: nat)
      requires id < |refunds| && refunds[id].orderId < |orders|
      requires LinesOf(refunds[id].lines, orders[refunds[id].orderId].items)
      modifies this`ledger, this`orders
      ensures Rows() == R.RestoreInventoryAndOrder(old(Rows()), refunds[id], id)
    {
      var orderId := refunds[id].orderId;
      var items := orders[orderId].items;
      ledger := InsertSkippingDuplicates(ledger, R.RestoreRows(items, refunds[id].lines, id));
      var refunded := SumQuantities(LinesWhere(refunds, orderId, IsSucceeded));
      forall item: nat ensures GetOr(refunded, item) == RefundedQty(refunds, orderId, item) {
        SucceededLinesSum(refunds, orderId, item);
      }
      var fully := forall i :: 0 <= i < |items| ==> GetOr(refunded, i) >= items[i].quantity;
      if R.Refundable(orders[orderId].status) {
        orders := orders[orderId := orders[orderId].(status := if fully then Refunded else PartiallyRefunded)];
      }
    }

    method ConfirmRefund(id: nat, n: R.RefundNotice) returns (result: Result<nat>)
      requires Rows().Linked()
      modifies this
      ensures Outcome(Rows(), result) == R.ConfirmRefund(old(Rows()), id, n)
    {
      if !R.ValidNotice(n) {
        return Err(Conflict);
      }
      if id >= |refunds| {
        return Err(NotFound);
      }
      var found := Find(transactions, ForRefund(id));
      if found.None? {
        return Err(Conflict);
      }
      var transaction := transactions[found.value];
      if !transaction.status.TxPending? {
        return if transaction.eventId == Some(n.eventId) then Ok(id) else Err(Conflict);
      }
      var next := if n.succeeded then RefundSucceeded else RefundFailed;
      if refunds[id].amount != n.amount || !RefundStep(refunds[id].status, next) {
        return Err(Conflict);
      }
      if R.RefundEventTaken(transactions, found.value, transaction.channel, n.eventId) {
        return Err(Constraint);
      }
      assert refunds[id] in refunds;
      transactions := transactions[found.value := R.SettledTransaction(transaction, n)];
      refunds := refunds[id := refunds[id].(status := next)];
      if n.succeeded {
        RestoreInventoryAndOrder(id);
      }
      return Ok(id);
    }

    /** Records a transaction, asks the provider, and books its answer; `answer` is what the provider says. */
    method ExecuteRefund(id: nat, answer: R.Answer) returns (result: Result<nat>)
      requires Rows().Linked()
      modifies this
      ensures Outcome(Rows(), result) == R.ExecuteRefund(old(Rows()), id, answer)
    {
      hide R.BeginExecute; hide R.ConfirmRefund; hide R.UpdatePending; hide Db.Linked;
      ghost var before := Rows();
      R.BeginKeepsLinks(before, id);
      R.BeginOnlyRecords(before, id);
      var begun := BeginExecute(id);
      if begun.Err? {
        return begun;
      }
      if begun.value == 0 {
        return Ok(id);
      }
      match answer
      case Accomplished(eventId, refundNo) =>
        result := ConfirmRefund(id, R.RefundNotice(eventId, refundNo, refunds[id].amount, true));
      case Undecided(eventId, refundNo) =>
        result := UpdatePending(|transactions| - 1, eventId, refundNo);
    }

    // ---------------------------------------------------------------- shipments

    /** The requested lines, or all that remains when none are given, checked against what has shipped. */
    method ResolveRequestedItems(orderId: nat, shipped: map<nat, int>, requested: Option<seq<LineAsk>>)
      returns (refusal: Option<Error>, asks: seq<LineAsk>)
      requires orderId < |orders|
      requires forall item: nat :: GetOr(shipped, item) == ShippedQty(shipments, orderId, item)
      ensures asks == if requested.Some? then requested.value else S.Remaining(Rows(), orderId, |orders[orderId].items|)
      ensures refusal == if |asks| == 0 then Some(Conflict) else S.ShipLinesRefusal(Rows(), orderId, asks)
      ensures (forall k :: 0 <= k < |asks| ==> asks[k].quantity > 0) ==>
                (refusal.None? <==>
                  |asks| > 0 && forall k :: 0 <= k < |asks| ==> ShipmentPromises.FitsOrder(Rows(), orderId, asks[k]))
    {
      hide ShippedQty; hide S.ShipLinesRefusal; hide ShipmentPromises.FitsOrder;
      var items := orders[orderId].items;
      if requested.Some? {
        asks := requested.value;
      } else {
        asks := [];
        for n := 0 to |items|
          invariant asks == S.Remaining(Rows(), orderId, n)
        {
          var left := items[n].quantity - GetOr(shipped, n);
          if left > 0 {
            asks := asks + [LineAsk(ItemRef(orderId, n), left)];
          }
        }
      }
      if |asks| == 0 {
        return Some(Conflict), asks;
      }
      if forall k :: 0 <= k < |asks| ==> asks[k].quantity > 0 {
        ShipmentPromises.LinesFitIff(Rows(), orderId, asks);
      }
      assert asks[..0] == [];
      NothingShippedRefused(Rows(), orderId);
      for n := 0 to |asks|
        invariant S.ShipLinesRefusal(Rows(), orderId, asks[..n]).None?
      {
        var ask := asks[n];
        NextShipLine(Rows(), orderId, asks, n);
        if ask.item.orderId != orderId || ask.item.index >= |items| {
          FirstShipRefusalStands(Rows(), orderId, asks, n + 1);
          return Some(NotFound), asks;
        }
        var remaining := items[ask.item.index].quantity - GetOr(shipped, ask.item.index);
        if remaining <= 0 || ask.quantity > remaining {
          FirstShipRefusalStands(Rows(), orderId, asks, n + 1);
          return Some(Conflict), asks;
        }
      }
      assert asks[..|asks|] == asks;
      refusal := None;
    }

    /** Every item's shipped and requested quantities together make up what was ordered. */
    method IsOrderFullyShipped(orderId: nat, shipped: map<nat, int>, asks: seq<LineAsk>) returns (fully: bool)
      requires orderId < |orders|
      requires forall item: nat :: GetOr(shipped, item) == ShippedQty(shipments, orderId, item)
      requires forall k :: 0 <= k < |asks| ==> asks[k].quantity > 0
      requires forall j, k :: 0 <= j < k < |asks| ==> asks[j].item.index != asks[k].item.index
      ensures forall carrier, tracking ::
                var added := shipments + [Shipment(orderId, carrier, tracking, S.ShipmentLines(asks))];
                fully == S.FullyShipped(orders[orderId].items, added, orderId)
    {
      hide ShippedQty; hide ShipLineQty;
      var current := map k | 0 <= k < |asks| :: asks[k].item.index := asks[k].quantity;
      var items := orders[orderId].items;
      fully := forall i :: 0 <= i < |items| ==> GetOr(shipped, i) + GetOr(current, i) == items[i].quantity;
      var lines := S.ShipmentLines(asks);
      forall item: nat ensures ShipLineQty(lines, item) == GetOr(current, item) {
        ShipLineQtyIs(lines, item);
        if item in current {
          var k :| 0 <= k < |asks| && asks[k].item.index == item;
          assert lines[k].item == item;
        }
      }
      forall carrier, tracking, item: nat
        ensures ShippedQty(shipments + [Shipment(orderId, carrier, tracking, lines)], orderId, item) ==
                ShippedQty(shipments, orderId, item) + ShipLineQty(lines, item)
      {
        AddedShipmentCounts(Rows(), Shipment(orderId, carrier, tracking, lines), orderId, item);
      }
    }

    /** The reads of a shipment of a paid order: what to send, and whether that completes the order. */
    method PlanShipment(orderId: nat, request: ShipmentRequest)
      returns (refusal: Option<Error>, asks: seq<LineAsk>, fully: bool)
      requires orderId < |orders| && orders[orderId].status.Paid? && S.ValidShipmentRequest(request)
      ensures refusal.Some? ==> S.CreateShipment(Rows(), orderId, request) == Throw(Rows(), refusal.value)
      ensures refusal.None? ==>
                S.CreateShipment(Rows(), orderId, request) == S.AddShipment(Rows(), orderId, request, asks)
      ensures refusal.None? ==> forall carrier, tracking ::
                  var added := shipments + [Shipment(orderId, carrier, tracking, S.ShipmentLines(asks))];
                  fully == S.FullyShipped(orders[orderId].items, added, orderId)
    {
      hide S.AddShipment; hide S.FullyShipped; hide S.ShipLinesRefusal; hide S.Remaining; hide ShippedQty;
      var shipped := SumShippedQuantities(ShippedLines(shipments, orderId));
      forall item: nat ensures GetOr(shipped, item) == ShippedQty(shipments, orderId, item) {
        ShippedLinesSum(shipments, orderId, item);
      }
      refusal, asks := ResolveRequestedItems(orderId, shipped, request.lines);
      assert asks == S.Requested(Rows(), orderId, request);
      if refusal.Some? {
        return refusal, asks, false;
      }
      RequestedIsShippable(Rows(), orderId, request);
      fully := IsOrderFullyShipped(orderId, shipped, asks);
    }

    method CreateShipment(orderId: nat, request: ShipmentRequest) returns (result: Result<nat>)
      modifies this`shipments, this`orders
      ensures Outcome(Rows(), result) == S.CreateShipment(old(Rows()), orderId, request)
      ensures old(Valid(Rows())) ==> (result.Ok? <==> old(ShipmentPromises.Accepts(Rows(), orderId, request)))
      ensures result.Ok? ==> orderId < |old(orders)| && exists lines ::
                ShipmentPromises.ShippedAs(old(Rows()), Rows(), orderId, request, lines)
      ensures old(Valid(Rows())) && result.Ok? ==> forall i: nat | i < |old(orders)[orderId].items| ::
                ShipmentPromises.Sends(old(Rows()), orderId, request, i,
                  ShippedQty(shipments, orderId, i) - ShippedQty(old(shipments), orderId, i))
    {
      hide Valid; hide ShipmentPromises.Accepts; hide ShipmentPromises.ShippedAs; hide ShipmentPromises.Sends;
      hide ShippedQty;
      hide S.AddShipment; hide S.ShipLinesRefusal; hide S.Requested; hide S.ValidText; hide R.ValidAsks;
      NewShipmentPromise(Rows(), orderId, request);
      if request.lines.Some? {
        var asksOk := CheckLineAsks(request.lines.value);
        if !asksOk {
          return Err(Conflict);
        }
      }
      if !S.ValidShipmentRequest(request) {
        return Err(Conflict);
      }
      if orderId >= |orders| {
        return Err(NotFound);
      }
      if !orders[orderId].status.Paid? {
        return Err(Conflict);
      }
      var refusal, asks, fully := PlanShipment(orderId, request);
      if refusal.Some? {
        return Err(refusal.value);
      }
      result := SendShipment(orderId, request, asks, fully);
    }

    /** The writes of a shipment. */
    method SendShipment(orderId: nat, request: ShipmentRequest, asks: seq<LineAsk>, fully: bool)
      returns (result: Result<nat>)
      requires orderId < |orders|
      requires forall carrier, tracking ::
                 var added := shipments + [Shipment(orderId, carrier, tracking, S.ShipmentLines(asks))];
                 fully == S.FullyShipped(orders[orderId].items, added, orderId)
      modifies this`shipments, this`orders
      ensures Outcome(Rows(), result) == S.AddShipment(old(Rows()), orderId, request, asks)
    {
      hide S.FullyShipped; hide S.TrackingTaken; hide Trim;
      var carrierCode, trackingNo := Trim(request.carrierCode), Trim(request.trackingNo);
      if S.TrackingTaken(shipments, carrierCode, trackingNo) {
        return Err(Constraint);
      }
      shipments := shipments + [Shipment(orderId, carrierCode, trackingNo, S.ShipmentLines(asks))];
      if fully {
        orders := orders[orderId := orders[orderId].(status := Fulfilled)];
      }
      return Ok(|shipments| - 1);
    }
  }

  lemma NewOrderPromise(db: Db, request: OrderRequest, now: int, timeout: int)
    ensures var outcome := O.CreateOrder(db, request, now, timeout);
            OrderPromises.FreshKey(db, request.key) ==>
              && (outcome.result.Ok? <==> OrderPromises.Accepts(db, request))
              && (outcome.result.Ok? ==>
                    && |outcome.db.orders| == |db.orders| + 1
                    && OrderPromises.AsAsked(db.catalogue, request, outcome.db.orders[|db.orders|]))
  {
    hide *;
    if OrderPromises.FreshKey(db, request.key) {
      OrderPromises.OrderIsAcceptedIff(db, request, now, timeout);
      if O.CreateOrder(db, request, now, timeout).result.Ok? {
        OrderPromises.OrderIsAsAsked(db, request, now, timeout);
      }
    }
  }

  lemma NewRefundPromise(db: Db, orderId: nat, request: RefundRequest)
    ensures var outcome := R.CreateRefund(db, orderId, request);
            Valid(db) && RefundPromises.FreshKey(db, request.key) ==>
              && (outcome.result.Ok? <==> RefundPromises.Accepts(db, orderId, request))
              && (outcome.result.Ok? ==>
                    && orderId < |db.orders| && |outcome.db.refunds| == |db.refunds| + 1
                    && RefundPromises.AsAsked(db.orders[orderId].items, orderId, request, outcome.db.refunds[|db.refunds|]))
  {
    hide *;
    if Valid(db) && RefundPromises.FreshKey(db, request.key) {
      RefundPromises.RefundIsAcceptedIff(db, orderId, request);
      if R.CreateRefund(db, orderId, request).result.Ok? {
        RefundPromises.RefundIsAsAsked(db, orderId, request);
      }
    }
  }

  lemma NewShipmentPromise(db: Db, orderId: nat, request: ShipmentRequest)
    ensures Valid(db) ==>
              (S.CreateShipment(db, orderId, request).result.Ok? <==> ShipmentPromises.Accepts(db, orderId, request))
    ensures S.CreateShipment(db, orderId, request).result.Ok? ==>
              && orderId < |db.orders|
              && exists lines :: ShipmentPromises.ShippedAs(
                   db, S.CreateShipment(db, orderId, request).db, orderId, request, lines)
    ensures Valid(db) && S.CreateShipment(db, orderId, request).result.Ok? ==>
              forall i: nat | i < |db.orders[orderId].items| ::
                var after := S.CreateShipment(db, orderId, request).db;
                ShipmentPromises.Sends(db, orderId, request, i,
                  ShippedQty(after.shipments, orderId, i) - ShippedQty(db.shipments, orderId, i))
  {
    hide *;
    if Valid(db) {
      if request.lines.Some? {
        ShipmentPromises.ListedShipmentIsAcceptedIff(db, orderId, request);
      } else {
        ShipmentPromises.WholeShipmentIsAcceptedIff(db, orderId, request);
      }
    }
    if S.CreateShipment(db, orderId, request).result.Ok? {
      ShipmentPromises.ShipmentWrites(db, orderId, request);
      if Valid(db) {
        forall i: nat | i < |db.orders[orderId].items|
          ensures ShipmentPromises.Sends(db, orderId, request, i,
                    ShippedQty(S.CreateShipment(db, orderId, request).db.shipments, orderId, i)
                    - ShippedQty(db.shipments, orderId, i))
        {
          ShipmentPromises.ShipmentCounts(db, orderId, request, orderId, i);
        }
      }
    }
  }

  lemma NothingShippedRefused(db: Db, orderId: nat)
    requires orderId < |db.orders|
    ensures S.ShipLinesRefusal(db, orderId, []).None?
  {
  }

  lemma NextShipLine(db: Db, orderId: nat, asks: seq<LineAsk>, n: nat)
    requires orderId < |db.orders| && n < |asks| && S.ShipLinesRefusal(db, orderId, asks[..n]).None?
    ensures S.ShipLinesRefusal(db, orderId, asks[..n + 1]) == S.ShipLineRefusal(db, orderId, asks[n])
  {
    assert asks[..n + 1][..n] == asks[..n];
  }

  lemma {:induction false} FirstShipRefusalStands(db: Db, orderId: nat, asks: seq<LineAsk>, n: nat)
    requires orderId < |db.orders| && n <= |asks| && S.ShipLinesRefusal(db, orderId, asks[..n]).Some?
    ensures S.ShipLinesRefusal(db, orderId, asks) == S.ShipLinesRefusal(db, orderId, asks[..n])
  {
    if n < |asks| {
      assert asks[..|asks| - 1][..n] == asks[..n];
      FirstShipRefusalStands(db, orderId, asks[..|asks| - 1], n);
    } else {
      assert asks[..n] == asks;
    }
  }

  lemma {:induction false} ErrorEndsSweep(db: Db, candidates: seq<nat>, n: nat, now: int)
    requires n <= |candidates| && O.ExpireAll(db, candidates, n, now).result.Err?
    ensures O.ExpireAll(db, candidates, |candidates|, now) == O.ExpireAll(db, candidates, n, now)
    decreases |candidates| - n
  {
    hide O.ExpireOrder;
    if n < |candidates| {
      ErrorEndsSweep(db, candidates, n + 1, now);
    }
  }

  // --------------------------------------------------- any use case on the object

  /**
   Whatever is asked of the store, it performs the transaction of the step system: the books stay valid,
   and, for disciplined commands, so does everything the ledger promises.
   */
  method Perform(store: CommerceStore, step: Step) returns (result: Result<nat>)
    requires Valid(store.Rows())
    modifies store
    ensures old(store.Rows()).Linked() && Outcome(store.Rows(), result) == Apply(old(store.Rows()), step)
    ensures Valid(store.Rows())
    ensures old(Sound(store.Rows())) && Disciplined(old(store.Rows()), step) ==> Sound(store.Rows())
  {
    hide Valid; hide Accounted; hide Covered; hide Disciplined; hide Db.Linked;
    hide O.CreateOrder; hide O.CancelOrder; hide O.ExpireOrder; hide P.CreatePayment; hide P.ConfirmPayment;
    hide R.CreateRefund; hide R.ReviewRefund; hide R.BeginExecute; hide R.UpdatePending; hide R.ConfirmRefund;
    hide S.CreateShipment; hide Steps.OpenStock; hide Inventory.Execute;
    ghost var before := store.Rows();
    ValidIsLinked(before);
    StepKeepsBooks(before, step);
    if Sound(before) && Disciplined(before, step) {
      StepKeepsSound(before, step);
    }
    match step
    case OrderCreate(request, now, timeout) => result := store.CreateOrder(request, now, timeout);
    case OrderCancel(id) => result := store.CancelOrder(id);
    case OrderExpire(id, now) => result := store.ExpireOne(id, now);
    case PaymentCreate(key, orderId, channel, number) =>
      result := store.CreatePayment(key, orderId, channel, number);
    case PaymentConfirm(id, c) => result := store.ConfirmPayment(id, c);
    case RefundCreate(orderId, request) => result := store.CreateRefund(orderId, request);
    case RefundReview(id, approved, note) => result := store.ReviewRefund(id, approved, note);
    case RefundBegin(id) => result := store.BeginExecute(id);
    case RefundUpdate(id, eventId, refundNo) => result := store.UpdatePending(id, eventId, refundNo);
    case RefundConfirm(id, n) => result := store.ConfirmRefund(id, n);
    case ShipmentCreate(orderId, request) => result := store.CreateShipment(orderId, request);
    case StockCommand(c) =>
      var answer := store.Execute(c);
      result := if answer.Ok? then Ok(0) else Err(answer.error);
    case OpeningStock(sku, quantity, intake, refId) => result := store.OpenStock(sku, quantity, intake, refId);
    case CatalogueChange(sku, variant) =>
      store.catalogue := store.catalogue[sku := variant];
      result := Ok(0);
  }
}
