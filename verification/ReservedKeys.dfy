/**
 What direct inventory commands can do under the reference types of orders and refunds. `execute`
 takes any reference type, so a command may occupy a ledger key an order or a refund will need: the
 order can then never leave its pending state, and the refund's stock is dropped without a word. Over
 runs without any restriction it is shown that nothing else has these effects.
 */
module ReservedKeys {
  import opened Wrappers
  import opened Summation
  import opened Inventory
  import opened Tables
  import opened Orders
  import opened Payments
  import opened Refunds
  import opened Shipments
  import opened Steps
  import opened Books
  import opened Runs
  import opened Stock
  import opened StockKept
  import opened StockSafety
  import opened StockLimits
  import opened Replay

  function ReleaseKey(sku: nat, id: nat): Key {
    Key(sku, Unlock, "order", id)
  }

  function DeductKey(sku: nat, id: nat): Key {
    Key(sku, Out, "order", id)
  }

  function RestoreKey(sku: nat, r: nat): Key {
    Key(sku, RefundEntry, "refund", r)
  }

  // ------------------------------------------------------ who takes these keys

  /** Keys that orders and refunds write only when they leave the state they wait in. */
  predicate Guarded(key: Key) {
    (key.refType == "order" && (key.kind.Unlock? || key.kind.Out?)) || (key.refType == "refund" && key.kind.RefundEntry?)
  }

  /** The order or refund of the key still waits, or does not exist yet. */
  predicate Dormant(db: Db, key: Key) {
    && (key.refType == "order" && key.refId < |db.orders| ==> db.orders[key.refId].status.Pending?)
    && (key.refType == "refund" && key.refId < |db.refunds| ==> !db.refunds[key.refId].status.RefundSucceeded?)
  }

  /** A direct command that is accepted, is no repeat, and writes a row under the key. */
  predicate Takes(db: Db, step: Step, key: Key) {
    step.StockCommand? &&
    var c := step.command;
    && ExecuteCommand(db, c).result.Ok? && !KeyUsed(db.ledger, KeyOf(c))
    && (KeyOf(c) == key || (c.op.Out? && Key(c.sku, Unlock, c.refType, c.refId) == key))
  }

  lemma KeysAppend(rows: seq<Row>, added: seq<Row>, key: Key)
    ensures KeyUsed(rows + added, key) <==> KeyUsed(rows, key) || KeyUsed(added, key)
  {
    if KeyUsed(rows, key) {
      UsedStaysUsed(rows, rows + added, key);
    }
    if KeyUsed(added, key) {
      var i :| 0 <= i < |added| && added[i].key == key;
      assert (rows + added)[|rows| + i].key == key;
    }
  }

  lemma {:induction false} KeysAfterSkipping(rows: seq<Row>, added: seq<Row>, key: Key)
    ensures KeyUsed(InsertSkippingDuplicates(rows, added), key) <==> KeyUsed(rows, key) || KeyUsed(added, key)
    decreases |added|
  {
    if added != [] {
      assert added == [added[0]] + added[1..];
      KeysAppend([added[0]], added[1..], key);
      KeysAppend(rows, [added[0]], key);
      assert KeyUsed([added[0]], key) <==> added[0].key == key by {
        assert [added[0]][0] == added[0];
      }
      KeysAfterSkipping(rows, added[1..], key);
      KeysAfterSkipping(rows + [added[0]], added[1..], key);
    }
  }

  lemma CommandTakes(db: Db, c: Command, key: Key)
    ensures KeyUsed(ExecuteCommand(db, c).db.ledger, key) <==>
              KeyUsed(db.ledger, key) || Takes(db, StockCommand(c), key)
  {
    hide BalanceOf; hide Refusal; hide KeyUsed; hide Insertable;
    if ExecuteCommand(db, c).db != db {
      CommandEffect(db, c);
    }
    KeysAppend(db.ledger, RowsOf(c), key);
    RowsOfKeys(c, key);
  }

  lemma RowsOfKeys(c: Command, key: Key)
    ensures KeyUsed(RowsOf(c), key) <==>
              KeyOf(c) == key || (c.op.Out? && Key(c.sku, Unlock, c.refType, c.refId) == key)
  {
    assert RowsOf(c)[0].key == KeyOf(c);
    if c.op.Out? {
      assert RowsOf(c)[1].key == Key(c.sku, Unlock, c.refType, c.refId);
    }
  }
  lemma CreateTakesNone(db: Db, request: OrderRequest, now: int, timeout: int, key: Key)
    requires Guarded(key)
    ensures KeyUsed(CreateOrder(db, request, now, timeout).db.ledger, key) <==> KeyUsed(db.ledger, key)
  {
    hide Insertable; hide Lockable; hide ValidOrderRequest; hide FitsColumns; hide KeyUsed; hide Find;
    var after := CreateOrder(db, request, now, timeout).db;
    if after != db {
      var rows := OrderRows(after.orders[|db.orders|].items, |db.orders|, Lock, -1);
      KeysAppend(db.ledger, rows, key);
      assert !KeyUsed(rows, key) by {
        OthersKeys(rows, key);
      }
    }
  }

  lemma OthersKeys(rows: seq<Row>, key: Key)
    requires forall i :: 0 <= i < |rows| ==> rows[i].key != key
    ensures !KeyUsed(rows, key)
  {
  }

  lemma CloseTakesItsOwn(db: Db, o: nat, status: OrderStatus, key: Key)
    requires o < |db.orders| && Guarded(key) && !(key.refType == "order" && key.refId == o)
    ensures KeyUsed(CloseOrder(db, o, status).db.ledger, key) <==> KeyUsed(db.ledger, key)
  {
    hide Insertable; hide KeyUsed;
    var rows := OrderRows(db.orders[o].items, o, Unlock, 1);
    KeysAppend(db.ledger, rows, key);
    OthersKeys(rows, key);
  }

  lemma PaymentTakesItsOwn(db: Db, p: nat, c: Confirmation, key: Key)
    requires db.Linked() && Guarded(key) && Dormant(ConfirmPayment(db, p, c).db, key)
    ensures KeyUsed(ConfirmPayment(db, p, c).db.ledger, key) <==> KeyUsed(db.ledger, key)
  {
    hide Insertable; hide KeyUsed; hide EventTaken; hide ValidConfirmation;
    var after := ConfirmPayment(db, p, c).db;
    if after.ledger != db.ledger {
      assert db.payments[p] in db.payments;
      var o := db.payments[p].orderId;
      var rows := DeductionRows(db.orders[o].items, o);
      forall i | 0 <= i < |rows| ensures rows[i].key != key {
        assert i == 2 * (i / 2) || i == 2 * (i / 2) + 1;
        assert rows[2 * (i / 2)].key.refId == o;
      }
      KeysAppend(db.ledger, rows, key);
      OthersKeys(rows, key);
    }
  }

  lemma NoticeTakesItsOwn(db: Db, r: nat, n: RefundNotice, key: Key)
    requires db.Linked() && Guarded(key) && Dormant(ConfirmRefund(db, r, n).db, key)
    ensures KeyUsed(ConfirmRefund(db, r, n).db.ledger, key) <==> KeyUsed(db.ledger, key)
  {
    hide KeyUsed; hide RefundEventTaken; hide ValidNotice; hide FullyRefunded; hide InsertSkippingDuplicates;
    var after := ConfirmRefund(db, r, n).db;
    if after.ledger != db.ledger {
      var refund := db.refunds[r];
      var rows := RestoreRows(db.orders[refund.orderId].items, refund.lines, r);
      KeysAfterSkipping(db.ledger, rows, key);
      OthersKeys(rows, key);
    }
  }

  lemma OpeningTakesNone(db: Db, sku: nat, quantity: int, intake: bool, refId: nat, key: Key)
    requires Guarded(key)
    ensures KeyUsed(OpenStock(db, sku, quantity, intake, refId).db.ledger, key) <==> KeyUsed(db.ledger, key)
  {
    hide Insertable; hide KeyUsed;
    var rows := [OpeningRow(sku, quantity, intake, refId)];
    KeysAppend(db.ledger, rows, key);
    OthersKeys(rows, key);
  }

  /** While its order or refund waits, a guarded key is taken by direct commands and nothing else. */
  lemma StepTakes(db: Db, step: Step, key: Key)
    requires db.Linked() && Guarded(key) && Dormant(Apply(db, step).db, key)
    ensures KeyUsed(Apply(db, step).db.ledger, key) <==> KeyUsed(db.ledger, key) || Takes(db, step, key)
  {
    hide KeyUsed; hide CreateOrder; hide ConfirmPayment; hide ConfirmRefund; hide CloseOrder; hide ExecuteCommand;
    hide OpenStock; hide CreatePayment; hide CreateRefund; hide ReviewRefund; hide BeginExecute; hide UpdatePending;
    hide CreateShipment; hide Guarded;
    match step
    case OrderCreate(request, now, timeout) => CreateTakesNone(db, request, now, timeout, key);
    case OrderCancel(o) => ClosingTakesItsOwn(db, step, o, Canceled, key);
    case OrderExpire(o, _) => ClosingTakesItsOwn(db, step, o, Expired, key);
    case PaymentConfirm(p, c) => PaymentTakesItsOwn(db, p, c, key);
    case RefundConfirm(r, n) => NoticeTakesItsOwn(db, r, n, key);
    case StockCommand(c) => CommandTakes(db, c, key);
    case OpeningStock(sku, quantity, intake, refId) => OpeningTakesNone(db, sku, quantity, intake, refId, key);
    case _ => QuietStepsKeepLedger(db, step);
  }

  lemma ClosingTakesItsOwn(db: Db, step: Step, o: nat, status: OrderStatus, key: Key)
    requires db.Linked() && Guarded(key) && Dormant(Apply(db, step).db, key)
    requires (step == OrderCancel(o) && status == Canceled) || (step.OrderExpire? && step.id == o && status == Expired)
    ensures KeyUsed(Apply(db, step).db.ledger, key) <==> KeyUsed(db.ledger, key)
  {
    hide KeyUsed; hide Insertable; hide Guarded;
    if Apply(db, step).db.ledger != db.ledger {
      CloseTakesItsOwn(db, o, status, key);
    }
  }

  /** Waiting is never resumed. */
  lemma StillDormant(db: Db, step: Step, key: Key)
    requires db.Linked() && Dormant(Apply(db, step).db, key)
    ensures Dormant(db, key)
  {
    hide Apply;
    StepExtends(db, step);
  }

  // --------------------------------------------------------- over unrestricted runs

  ghost predicate TakenIn(steps: seq<Step>, key: Key) {
    exists i :: 0 <= i < |steps| && Takes(Reach(steps[..i]), steps[i], key)
  }

  lemma ReachNext(steps: seq<Step>)
    requires |steps| > 0
    ensures var before := Reach(steps[..|steps| - 1]);
            Reach(steps) == Apply(before, steps[|steps| - 1]).db
  {
    hide Apply; hide Valid;
  }

  lemma TakenGrows(steps: seq<Step>, key: Key)
    requires |steps| > 0
    ensures var n := |steps| - 1;
            TakenIn(steps, key) <==> TakenIn(steps[..n], key) || Takes(Reach(steps[..n]), steps[n], key)
  {
    hide Reach; hide Takes; hide Valid; hide Db.Linked;
    var n := |steps| - 1;
    forall i | 0 <= i < n ensures steps[..n][..i] == steps[..i] {
    }
    if TakenIn(steps[..n], key) {
      var i :| 0 <= i < n && Takes(Reach(steps[..n][..i]), steps[..n][i], key);
      assert Takes(Reach(steps[..i]), steps[i], key);
    }
    if TakenIn(steps, key) {
      var i :| 0 <= i < |steps| && Takes(Reach(steps[..i]), steps[i], key);
      if i < n {
        assert Takes(Reach(steps[..n][..i]), steps[..n][i], key);
      }
    }
  }

  /** A waiting order's or refund's key is used exactly when a direct command of the run took it. */
  lemma {:induction false} KeyHistory(steps: seq<Step>, key: Key)
    requires Guarded(key) && Dormant(Reach(steps), key)
    ensures KeyUsed(Reach(steps).ledger, key) <==> TakenIn(steps, key)
  {
    hide Apply; hide Takes; hide TakenIn; hide Valid; hide Dormant; hide Run; hide Reach; hide KeyUsed;
    if |steps| > 0 {
      var n := |steps| - 1;
      ReachNext(steps);
      StillDormant(Reach(steps[..n]), steps[n], key);
      KeyHistory(steps[..n], key);
      StepTakes(Reach(steps[..n]), steps[n], key);
      TakenGrows(steps, key);
    } else {
      NothingTaken(key);
      assert steps == [];
    }
  }

  lemma NothingTaken(key: Key)
    ensures !KeyUsed(Reach([]).ledger, key) && !TakenIn([], key)
  {
    EmptyIsValid();
  }

  // ------------------------------------------- writing under an order's reference

  /** A pending order can be closed if and only if its release keys are still free. */
  lemma CloseNeedsFreeKeys(db: Db, id: nat, status: OrderStatus)
    requires id < |db.orders| && OrderShape(db.orders[id])
    ensures CloseOrder(db, id, status).result.Ok? <==>
              forall i :: 0 <= i < |db.orders[id].items| ==>
                !KeyUsed(db.ledger, Key(db.orders[id].items[i].sku, Unlock, "order", id))
  {
    var items := db.orders[id].items;
    var rows := OrderRows(items, id, Unlock, 1);
    assert forall i :: 0 <= i < |items| ==> rows[i].key == Key(items[i].sku, Unlock, "order", id);
    assert forall i :: 0 <= i < |items| ==> FitsInteger(rows[i].qty);
  }

  ghost predicate Blocked(db: Db, id: nat, i: nat) {
    && id < |db.orders| && db.orders[id].status.Pending? && i < |db.orders[id].items|
    && KeyUsed(db.ledger, Key(db.orders[id].items[i].sku, Unlock, "order", id))
  }

  lemma BlockedCannotClose(db: Db, id: nat, i: nat, status: OrderStatus)
    requires Blocked(db, id, i)
    ensures CloseOrder(db, id, status) == Throw(db, Constraint)
  {
    assert OrderRows(db.orders[id].items, id, Unlock, 1)[i].key == Key(db.orders[id].items[i].sku, Unlock, "order", id);
  }

  lemma BlockedCannotBePaid(db: Db, p: nat, c: Confirmation, id: nat, i: nat)
    requires db.Linked() && Blocked(db, id, i)
    ensures ConfirmPayment(db, p, c).db.orders[id] == db.orders[id]
  {
    hide EventTaken; hide ValidConfirmation;
    assert DeductionRows(db.orders[id].items, id)[2 * i + 1].key == Key(db.orders[id].items[i].sku, Unlock, "order", id);
    assert Insert(db.ledger, DeductionRows(db.orders[id].items, id)).None?;
  }

  lemma BlockedStaysBlocked(db: Db, step: Step, id: nat, i: nat)
    requires db.Linked() && Blocked(db, id, i)
    ensures Blocked(Apply(db, step).db, id, i)
  {
    StepExtends(db, step);
    UsedStaysUsed(db.ledger, Apply(db, step).db.ledger, Key(db.orders[id].items[i].sku, Unlock, "order", id));
    hide KeyUsed;
    match step
    case OrderCancel(o) =>
      if o == id {
        BlockedCannotClose(db, id, i, Canceled);
      }
    case OrderExpire(o, _) =>
      if o == id {
        BlockedCannotClose(db, id, i, Expired);
      }
    case PaymentConfirm(p, c) => BlockedCannotBePaid(db, p, c, id, i);
    case _ => OtherStepsKeepPending(db, step, id);
  }

  lemma OtherStepsKeepPending(db: Db, step: Step, id: nat)
    requires db.Linked() && id < |db.orders| && db.orders[id].status.Pending?
    requires !step.OrderCancel? && !step.OrderExpire? && !step.PaymentConfirm?
    ensures id < |Apply(db, step).db.orders| && Apply(db, step).db.orders[id] == db.orders[id]
  {
    hide Insertable; hide KeyUsed; hide Find; hide LinesFor; hide LinesRefusal; hide RefundEventTaken;
    hide AddShipment; hide ShipLinesRefusal; hide Remaining; hide FullyRefunded; hide RestoreRows;
    hide ValidOrderRequest; hide Lockable; hide ValidRefundRequest; hide ValidShipmentRequest; hide ValidNotice;
    match step
    case ShipmentCreate(orderId, request) =>
      if CreateShipment(db, orderId, request).db != db {
        ShipmentTouches(db, orderId, request, Requested(db, orderId, request));
      }
    case RefundConfirm(_, _) =>
    case OrderCreate(_, _, _) =>
    case RefundCreate(_, _) =>
    case _ =>
  }

  /** A row written under an order's release key leaves it pending for good: no run closes or pays it. */
  lemma {:induction false} TakenReleaseKeyBlocksOrder(db: Db, steps: seq<Step>, id: nat, i: nat)
    requires Valid(db) && Blocked(db, id, i)
    ensures Blocked(Run(db, steps), id, i)
  {
    hide Valid; hide Blocked;
    if |steps| > 0 {
      var n := |steps| - 1;
      TakenReleaseKeyBlocksOrder(db, steps[..n], id, i);
      BlockedStaysBlocked(Run(db, steps[..n]), steps[n], id, i);
    }
  }


  // ------------------------------------------------------- orders, exactly when

  /** The command writes under a key one of the order's lines will need. */
  predicate AimsAt(c: Command, id: nat, items: seq<OrderItem>) {
    && c.refType == "order" && c.refId == id && (c.op.Unlock? || c.op.Out?)
    && exists i :: 0 <= i < |items| && items[i].sku == c.sku
  }

  lemma FreshOrderKeys(db: Db, id: nat, sku: nat)
    requires LedgerExact(db) && id < |db.orders| && db.orders[id].status.Pending?
    ensures !KeyUsed(db.ledger, ReleaseKey(sku, id)) && !KeyUsed(db.ledger, DeductKey(sku, id))
  {
    hide LedgerExact; hide KeyUsed;
    if KeyUsed(db.ledger, ReleaseKey(sku, id)) {
      OrderKeyUsed(db, ReleaseKey(sku, id));
    }
    if KeyUsed(db.ledger, DeductKey(sku, id)) {
      OrderKeyUsed(db, DeductKey(sku, id));
    }
  }

  /** After an accepted command a line's two keys are free exactly when the command does not aim at it. */
  lemma LineKeysAfterCommand(db: Db, c: Command, id: nat, sku: nat)
    requires LedgerExact(db) && id < |db.orders| && db.orders[id].status.Pending?
    requires ExecuteCommand(db, c).result.Ok?
    ensures var aims := c.refType == "order" && c.refId == id && (c.op.Unlock? || c.op.Out?) && c.sku == sku;
            && (KeyUsed(ExecuteCommand(db, c).db.ledger, ReleaseKey(sku, id)) <==> aims)
            && (KeyUsed(ExecuteCommand(db, c).db.ledger, DeductKey(sku, id)) ==> aims)
  {
    hide LedgerExact; hide KeyUsed; hide ExecuteCommand;
    FreshOrderKeys(db, id, sku);
    CommandTakes(db, c, ReleaseKey(sku, id));
    CommandTakes(db, c, DeductKey(sku, id));
  }

  lemma CommandsKeepTables(db: Db, c: Command)
    ensures ExecuteCommand(db, c).db == db.(ledger := ExecuteCommand(db, c).db.ledger)
  {
    hide Insertable; hide KeyUsed; hide Refusal; hide BalanceOf;
  }

  /** An accepted command leaves a pending order cancellable and expirable iff it does not aim at its lines. */
  lemma OrderClosesAfterCommandIff(db: Db, c: Command, id: nat, status: OrderStatus)
    requires Valid(db) && LedgerExact(db) && id < |db.orders| && db.orders[id].status.Pending?
    requires ExecuteCommand(db, c).result.Ok?
    ensures var after := ExecuteCommand(db, c).db;
            && after.orders == db.orders
            && (CloseOrder(after, id, status).result.Ok? <==> !AimsAt(c, id, db.orders[id].items))
  {
    hide LedgerExact; hide KeyUsed; hide ExecuteCommand; hide CloseOrder;
    var items, after := db.orders[id].items, ExecuteCommand(db, c).db;
    CommandsKeepTables(db, c);
    CloseNeedsFreeKeys(after, id, status);
    forall i | 0 <= i < |items|
      ensures KeyUsed(after.ledger, ReleaseKey(items[i].sku, id)) <==>
                c.refType == "order" && c.refId == id && (c.op.Unlock? || c.op.Out?) && c.sku == items[i].sku
    {
      LineKeysAfterCommand(db, c, id, items[i].sku);
    }
  }

  /** A success report that fits is refused for one more reason than its event id: a used key. */
  ghost predicate Fits(db: Db, p: nat, c: Confirmation) {
    && p < |db.payments| && db.payments[p].status.PaymentPending? && db.payments[p].orderId < |db.orders|
    && db.orders[db.payments[p].orderId].status.Pending?
    && ValidConfirmation(c) && c.succeeded && c.amount == db.payments[p].amount
    && !EventTaken(db.payments, p, db.payments[p].channel, c.eventId)
  }

  lemma PaymentNeedsFreeKeys(db: Db, p: nat, c: Confirmation)
    requires db.Linked() && Fits(db, p, c) && OrderShape(db.orders[db.payments[p].orderId])
    ensures var id := db.payments[p].orderId;
            ConfirmPayment(db, p, c).result.Ok? <==>
              forall i :: 0 <= i < |db.orders[id].items| ==>
                && !KeyUsed(db.ledger, ReleaseKey(db.orders[id].items[i].sku, id))
                && !KeyUsed(db.ledger, DeductKey(db.orders[id].items[i].sku, id))
  {
    hide KeyUsed; hide EventTaken; hide ValidConfirmation; hide Db.Linked;
    DeductionNeedsFreeKeys(db.ledger, db.orders[db.payments[p].orderId], db.payments[p].orderId);
    hide Insertable;
  }

  lemma DeductionRowAt(items: seq<OrderItem>, id: nat, k: nat)
    requires k < 2 * |items|
    ensures DeductionRows(items, id)[k] ==
            if k % 2 == 0 then Row(DeductKey(items[k / 2].sku, id), 0 - items[k / 2].quantity)
            else Row(ReleaseKey(items[k / 2].sku, id), items[k / 2].quantity)
  {
    assert k == 2 * (k / 2) || k == 2 * (k / 2) + 1;
  }

  lemma DeductionRowsFit(order: Order, id: nat)
    requires OrderShape(order)
    ensures var rows := DeductionRows(order.items, id);
            && (forall k :: 0 <= k < |rows| ==> FitsInteger(rows[k].qty))
            && (forall j, k :: 0 <= j < k < |rows| ==> rows[j].key != rows[k].key)
  {
    hide DeductionRows;
    var rows := DeductionRows(order.items, id);
    forall k | 0 <= k < |rows| ensures FitsInteger(rows[k].qty) {
      DeductionRowAt(order.items, id, k);
    }
    forall j, k | 0 <= j < k < |rows| ensures rows[j].key != rows[k].key {
      DeductionRowAt(order.items, id, j);
      DeductionRowAt(order.items, id, k);
      assert j / 2 == k / 2 ==> j % 2 != k % 2;
    }
  }

  lemma DeductionNeedsFreeKeys(ledger: seq<Row>, order: Order, id: nat)
    requires OrderShape(order)
    ensures Insertable(ledger, DeductionRows(order.items, id)) <==>
              forall i :: 0 <= i < |order.items| ==>
                && !KeyUsed(ledger, ReleaseKey(order.items[i].sku, id))
                && !KeyUsed(ledger, DeductKey(order.items[i].sku, id))
  {
    hide KeyUsed; hide DeductionRows; hide OrderShape; hide FitsInteger;
    var items, rows := order.items, DeductionRows(order.items, id);
    DeductionRowsFit(order, id);
    forall k | 0 <= k < |rows|
      ensures rows[k].key == if k % 2 == 0 then DeductKey(items[k / 2].sku, id) else ReleaseKey(items[k / 2].sku, id)
    {
      DeductionRowAt(items, id, k);
    }
    forall i | 0 <= i < |items|
      ensures rows[2 * i].key == DeductKey(items[i].sku, id) && rows[2 * i + 1].key == ReleaseKey(items[i].sku, id)
    {
    }
  }

  /** And it leaves the order payable under the same condition. */
  lemma OrderIsPaidAfterCommandIff(db: Db, c: Command, p: nat, report: Confirmation)
    requires Valid(db) && db.Linked() && LedgerExact(db) && Fits(db, p, report)
    requires ExecuteCommand(db, c).result.Ok?
    ensures var after, id := ExecuteCommand(db, c).db, db.payments[p].orderId;
            && after.Linked()
            && (ConfirmPayment(after, p, report).result.Ok? <==> !AimsAt(c, id, db.orders[id].items))
  {
    hide LedgerExact; hide KeyUsed; hide ExecuteCommand; hide ConfirmPayment;
    var id, after := db.payments[p].orderId, ExecuteCommand(db, c).db;
    var items := db.orders[id].items;
    CommandsKeepTables(db, c);
    PaymentNeedsFreeKeys(after, p, report);
    forall i | 0 <= i < |items|
      ensures var aims := c.refType == "order" && c.refId == id && (c.op.Unlock? || c.op.Out?) && c.sku == items[i].sku;
              && (KeyUsed(after.ledger, ReleaseKey(items[i].sku, id)) <==> aims)
              && (KeyUsed(after.ledger, DeductKey(items[i].sku, id)) ==> aims)
    {
      LineKeysAfterCommand(db, c, id, items[i].sku);
    }
  }

  /** A command of the run, accepted and no repeat, took a release key of one of these lines. */
  ghost predicate Aimed(steps: seq<Step>, id: nat, items: seq<OrderItem>) {
    exists i :: 0 <= i < |items| && TakenIn(steps, ReleaseKey(items[i].sku, id))
  }

  lemma WaitingOrderKeys(steps: seq<Step>, id: nat, sku: nat)
    requires id < |Reach(steps).orders| && Reach(steps).orders[id].status.Pending?
    ensures KeyUsed(Reach(steps).ledger, ReleaseKey(sku, id)) <==> TakenIn(steps, ReleaseKey(sku, id))
    ensures KeyUsed(Reach(steps).ledger, DeductKey(sku, id)) ==> TakenIn(steps, ReleaseKey(sku, id))
  {
    hide Reach; hide KeyUsed; hide ExecuteCommand;
    KeyHistory(steps, ReleaseKey(sku, id));
    KeyHistory(steps, DeductKey(sku, id));
    if TakenIn(steps, DeductKey(sku, id)) {
      var i :| 0 <= i < |steps| && Takes(Reach(steps[..i]), steps[i], DeductKey(sku, id));
      assert Takes(Reach(steps[..i]), steps[i], ReleaseKey(sku, id));
    }
  }

  /** In every run whatever, a pending order can be cancelled iff no command of the run took its keys. */
  lemma PendingOrderClosesIff(steps: seq<Step>, id: nat)
    requires id < |Reach(steps).orders| && Reach(steps).orders[id].status.Pending?
    ensures CancelOrder(Reach(steps), id).result.Ok? <==> !Aimed(steps, id, Reach(steps).orders[id].items)
  {
    var db := Reach(steps);
    hide KeyUsed; hide CloseOrder; hide Reach; hide TakenIn;
    var items := db.orders[id].items;
    CloseNeedsFreeKeys(db, id, Canceled);
    forall i | 0 <= i < |items|
      ensures KeyUsed(db.ledger, ReleaseKey(items[i].sku, id)) <==> TakenIn(steps, ReleaseKey(items[i].sku, id))
    {
      WaitingOrderKeys(steps, id, items[i].sku);
    }
  }

  /** And it can be paid iff no command did. */
  lemma PendingOrderIsPaidIff(steps: seq<Step>, p: nat, report: Confirmation)
    requires Fits(Reach(steps), p, report)
    ensures var db := Reach(steps);
            ConfirmPayment(db, p, report).result.Ok? <==>
              !Aimed(steps, db.payments[p].orderId, db.orders[db.payments[p].orderId].items)
  {
    hide KeyUsed; hide ConfirmPayment; hide TakenIn;
    var db := Reach(steps);
    var id := db.payments[p].orderId;
    var items := db.orders[id].items;
    ShapeOf(db, id);
    PaymentNeedsFreeKeys(db, p, report);
    hide Reach;
    forall i | 0 <= i < |items|
      ensures KeyUsed(db.ledger, ReleaseKey(items[i].sku, id)) <==> TakenIn(steps, ReleaseKey(items[i].sku, id))
      ensures KeyUsed(db.ledger, DeductKey(items[i].sku, id)) ==> TakenIn(steps, ReleaseKey(items[i].sku, id))
    {
      WaitingOrderKeys(steps, id, items[i].sku);
    }
  }

  lemma ShapeOf(db: Db, id: nat)
    requires Valid(db) && id < |db.orders|
    ensures OrderShape(db.orders[id])
  {
  }

  // --------------------------------------------- such commands are accepted

  /** `execute` accepts a one-unit release under a pending order's own reference, and the order is stuck. */
  lemma AimedReleaseIsAccepted(db: Db, id: nat, i: nat)
    requires Sound(db) && id < |db.orders| && db.orders[id].status.Pending? && i < |db.orders[id].items|
    requires db.orders[id].items[i].sku in db.catalogue
    ensures var c := Command(Unlock, db.orders[id].items[i].sku, 1, "order", id);
            && ExecuteCommand(db, c).result.Ok? && AimsAt(c, id, db.orders[id].items)
            && Blocked(ExecuteCommand(db, c).db, id, i)
  {
    hide KeyUsed; hide Insertable; hide CapsOk; hide RefundsOk; hide PaymentsOk; hide StatusesExact; hide ShipmentsOk;
    hide TransactionsOk; hide LedgerExact; hide Locked; hide OnHand; hide DirectLocks; hide PendingQty;
    var sku := db.orders[id].items[i].sku;
    var c := Command(Unlock, sku, 1, "order", id);
    assert Conserved(db, sku) && Covered(db, sku);
    PendingLineIsLocked(db.orders, id, i);
    FreshOrderKeys(db, id, sku);
    CommandTakes(db, c, ReleaseKey(sku, id));
    CommandsKeepTables(db, c);
    ReleaseFits(db.ledger, c);
  }

  lemma ReleaseFits(ledger: seq<Row>, c: Command)
    requires c.op.Unlock? && c.quantity == 1 && !KeyUsed(ledger, KeyOf(c))
    ensures Insertable(ledger, RowsOf(c))
  {
    assert RowsOf(c) == [Row(KeyOf(c), 1)];
  }

  lemma PendingLineIsLocked(orders: seq<Order>, id: nat, i: nat)
    requires OrdersOk(orders) && id < |orders| && orders[id].status.Pending? && i < |orders[id].items|
    ensures PendingQty(orders, orders[id].items[i].sku) >= orders[id].items[i].quantity > 0
  {
    var sku := orders[id].items[i].sku;
    forall o | o in orders ensures PendingOf(sku)(o) >= 0 {
      assert OrderShape(o);
      QtyOfItem(o.items, sku);
    }
    NonNegative(orders, PendingOf(sku));
    assert orders[id] in orders && OrderShape(orders[id]);
    QtyOfItem(orders[id].items, sku);
  }

  const AimedRelease: Command := Command(Unlock, 0, 1, "order", 0)

  /** Stock five units, sell three, release one under the order's reference. */
  const Seizure: seq<Step> := OverRelease[..3] + [StockCommand(AimedRelease)]

  lemma SeizureIsTaken()
    ensures Blocked(ExecuteCommand(Ordered, AimedRelease).db, 0, 0)
  {
    hide OnHand; hide Locked;
    LedgerSums();
    assert RowsOf(AimedRelease) == [Row(ReleaseKey(0, 0), 1)];
    var after := ExecuteCommand(Ordered, AimedRelease).db;
    assert after.ledger == Ordered.ledger + [Row(ReleaseKey(0, 0), 1)];
    assert after.ledger[2].key == ReleaseKey(0, 0);
  }

  /** However that run goes on, its order is never cancelled, expired or paid. */
  lemma SeizedOrderStaysPending(rest: seq<Step>)
    ensures Blocked(Reach(Seizure + rest), 0, 0)
  {
    hide Run; hide Valid; hide Blocked; hide ExecuteCommand;
    EmptyIsValid();
    OrderedIsReached();
    SeizureIsTaken();
    RunConcat(Empty, OverRelease[..3], [StockCommand(AimedRelease)]);
    RunOne(Ordered, StockCommand(AimedRelease));
    RunConcat(Empty, Seizure, rest);
    TakenReleaseKeyBlocksOrder(Run(Empty, Seizure), rest, 0, 0);
  }

  // ------------------------------------------------------ refunds, exactly when

  /** What an insert that skips duplicates adds of one row. */
  function KeptOf(rows: seq<Row>, sku: nat): Row -> int {
    (r: Row) => if KeyUsed(rows, r.key) then 0 else OnHandOf(sku)(r)
  }

  lemma KeptIs(rows: seq<Row>, sku: nat, r: Row)
    ensures KeptOf(rows, sku)(r) ==
            if !KeyUsed(rows, r.key) && r.key.sku == sku && CountsOnHand(r.key.kind) then r.qty else 0
  {
    hide KeyUsed;
    assert OnHandOf(sku)(r) == if r.key.sku == sku && CountsOnHand(r.key.kind) then r.qty else 0;
  }

  ghost predicate DistinctKeys(rows: seq<Row>) {
    forall j, k :: 0 <= j < k < |rows| ==> rows[j].key != rows[k].key
  }

  lemma {:induction false} SkippingWeighs(rows: seq<Row>, added: seq<Row>, sku: nat)
    requires DistinctKeys(added)
    ensures OnHand(InsertSkippingDuplicates(rows, added), sku) == OnHand(rows, sku) + Sum(added, KeptOf(rows, sku))
    decreases |added|
  {
    hide KeyUsed; hide Sum;
    if added == [] {
      Zero(added, KeptOf(rows, sku));
    } else {
      var first, rest := added[0], added[1..];
      assert added == [first] + rest;
      Concat([first], rest, KeptOf(rows, sku));
      Only([first], KeptOf(rows, sku), 0);
      if KeyUsed(rows, first.key) {
        SkippingWeighs(rows, rest, sku);
      } else {
        SkippingWeighs(rows + [first], rest, sku);
        Append(rows, first, OnHandOf(sku));
        forall r | r in rest ensures KeptOf(rows + [first], sku)(r) == KeptOf(rows, sku)(r) {
          KeysAppend(rows, [first], r.key);
          OthersKeys([first], r.key);
        }
        Same(rest, KeptOf(rows + [first], sku), KeptOf(rows, sku));
      }
    }
  }

  lemma {:induction false} SkippingShortens(rows: seq<Row>, added: seq<Row>)
    ensures |InsertSkippingDuplicates(rows, added)| <= |rows| + |added|
    ensures (exists k :: 0 <= k < |added| && KeyUsed(rows, added[k].key)) ==>
              |InsertSkippingDuplicates(rows, added)| < |rows| + |added|
    decreases |added|
  {
    hide KeyUsed;
    if added != [] {
      SkippingShortens(rows, added[1..]);
      SkippingShortens(rows + [added[0]], added[1..]);
      if k :| 0 < k < |added| && KeyUsed(rows, added[k].key) {
        KeysAppend(rows, [added[0]], added[k].key);
        assert added[1..][k - 1] == added[k];
      }
    }
  }

  /** A notice makes the refund succeed. */
  predicate Succeeds(db: Db, r: nat, n: RefundNotice)
    requires db.Linked()
  {
    && r < |db.refunds| && !db.refunds[r].status.RefundSucceeded?
    && r < |ConfirmRefund(db, r, n).db.refunds| && ConfirmRefund(db, r, n).db.refunds[r].status.RefundSucceeded?
  }

  /** The rows a refund wants to restore. */
  function Wanted(db: Db, r: nat): seq<Row>
    requires db.Linked() && r < |db.refunds|
  {
    assert db.refunds[r] in db.refunds;
    RestoreRows(db.orders[db.refunds[r].orderId].items, db.refunds[r].lines, r)
  }

  lemma NoticeRestores(db: Db, r: nat, n: RefundNotice)
    requires db.Linked() && Succeeds(db, r, n)
    ensures ConfirmRefund(db, r, n).db.ledger == InsertSkippingDuplicates(db.ledger, Wanted(db, r))
  {
    hide RestoreRows; hide FullyRefunded; hide RefundEventTaken; hide ValidNotice; hide InsertSkippingDuplicates; hide Find;
  }

  lemma WantedAre(db: Db, r: nat)
    requires Valid(db) && db.Linked() && r < |db.refunds|
    ensures var wanted := Wanted(db, r);
            && |wanted| == |db.refunds[r].lines| && DistinctKeys(wanted)
            && (forall k :: 0 <= k < |wanted| ==>
                  && wanted[k].key == RestoreKey(wanted[k].key.sku, r) && FitsInteger(wanted[k].qty)
                  && wanted[k].qty == db.refunds[r].lines[k].quantity)
            && (forall j, k :: 0 <= j < |wanted| && 0 <= k < |wanted| && j != k ==> wanted[j].key.sku != wanted[k].key.sku)
  {
    hide CapsOk; hide PaymentsOk; hide StatusesExact; hide ShipmentsOk; hide TransactionsOk;
    var refund := db.refunds[r];
    assert RefundShape(db.orders, refund) && OrderShape(db.orders[refund.orderId]);
    var items, wanted := db.orders[refund.orderId].items, Wanted(db, r);
    forall j, k | 0 <= j < |wanted| && 0 <= k < |wanted| && j != k ensures wanted[j].key.sku != wanted[k].key.sku {
      assert refund.lines[j].item != refund.lines[k].item;
    }
  }

  /** A direct command of the run took the key this line's restore needs. */
  lemma WaitingRefundKey(steps: seq<Step>, r: nat, sku: nat)
    requires r < |Reach(steps).refunds| && !Reach(steps).refunds[r].status.RefundSucceeded?
    ensures KeyUsed(Reach(steps).ledger, RestoreKey(sku, r)) <==> TakenIn(steps, RestoreKey(sku, r))
  {
    hide Reach; hide KeyUsed; hide TakenIn;
    KeyHistory(steps, RestoreKey(sku, r));
  }

  /** In every run whatever, a succeeding refund restores a line's stock iff no command took its key. */
  lemma LineIsRestoredIff(steps: seq<Step>, r: nat, n: RefundNotice, k: nat)
    requires Succeeds(Reach(steps), r, n) && k < |Wanted(Reach(steps), r)|
    ensures var db, row := Reach(steps), Wanted(Reach(steps), r)[k];
            OnHand(ConfirmRefund(db, r, n).db.ledger, row.key.sku) == OnHand(db.ledger, row.key.sku) +
              if TakenIn(steps, RestoreKey(row.key.sku, r)) then 0 else row.qty
  {
    hide KeyUsed; hide ConfirmRefund; hide InsertSkippingDuplicates; hide Wanted; hide TakenIn; hide Reach; hide Valid;
    hide OnHand; hide DistinctKeys;
    var db := Reach(steps);
    var wanted := Wanted(db, r);
    var sku := wanted[k].key.sku;
    NoticeRestores(db, r, n);
    WantedAre(db, r);
    SkippingWeighs(db.ledger, wanted, sku);
    forall i | 0 <= i < |wanted| ensures KeptOf(db.ledger, sku)(wanted[i]) ==
      if i != k || KeyUsed(db.ledger, wanted[k].key) then 0 else wanted[k].qty
    {
      KeptIs(db.ledger, sku, wanted[i]);
    }
    Only(wanted, KeptOf(db.ledger, sku), k);
    WaitingRefundKey(steps, r, sku);
  }

  /** It restores everything iff no command took any of its keys; `skipDuplicates` then has nothing to skip. */
  lemma EverythingIsRestoredIff(steps: seq<Step>, r: nat, n: RefundNotice)
    requires Succeeds(Reach(steps), r, n)
    ensures var db := Reach(steps);
            ConfirmRefund(db, r, n).db.ledger == db.ledger + Wanted(db, r) <==>
              forall k :: 0 <= k < |Wanted(db, r)| ==> !TakenIn(steps, RestoreKey(Wanted(db, r)[k].key.sku, r))
  {
    hide KeyUsed; hide ConfirmRefund; hide Wanted; hide TakenIn; hide Reach; hide Valid; hide InsertSkippingDuplicates;
    var db := Reach(steps);
    var wanted := Wanted(db, r);
    NoticeRestores(db, r, n);
    WantedAre(db, r);
    SkippingShortens(db.ledger, wanted);
    forall k | 0 <= k < |wanted|
      ensures KeyUsed(db.ledger, wanted[k].key) <==> TakenIn(steps, RestoreKey(wanted[k].key.sku, r))
    {
      WaitingRefundKey(steps, r, wanted[k].key.sku);
    }
  }

  lemma LedgerIsNotRead(db: Db, ledger: seq<Row>, r: nat, n: RefundNotice)
    requires db.Linked()
    ensures var other := db.(ledger := ledger);
            other.Linked() && ConfirmRefund(other, r, n).result == ConfirmRefund(db, r, n).result
            && ConfirmRefund(other, r, n).db.refunds == ConfirmRefund(db, r, n).db.refunds
  {
    hide RestoreRows; hide FullyRefunded; hide RefundEventTaken; hide ValidNotice; hide InsertSkippingDuplicates; hide Find;
  }

  /**
   `execute` accepts a one-unit `refund` command under a refund's own reference while the refund waits.
   The notice that follows is taken and the refund succeeds, but the line's stock does not come back.
   */
  lemma RestoreIsSeized(steps: seq<Step>, r: nat, n: RefundNotice, k: nat)
    requires Succeeds(Reach(steps), r, n) && k < |Wanted(Reach(steps), r)|
    requires var sku := Wanted(Reach(steps), r)[k].key.sku;
             sku in Reach(steps).catalogue && !TakenIn(steps, RestoreKey(sku, r))
    ensures var sku := Wanted(Reach(steps), r)[k].key.sku;
            var c := Command(RefundEntry, sku, 1, "refund", r);
            var db := Reach(steps + [StockCommand(c)]);
            && ExecuteCommand(Reach(steps), c).result.Ok?
            && Succeeds(db, r, n) && ConfirmRefund(db, r, n).result == ConfirmRefund(Reach(steps), r, n).result
            && OnHand(ConfirmRefund(db, r, n).db.ledger, sku) == OnHand(db.ledger, sku)
  {
    hide KeyUsed; hide ConfirmRefund; hide TakenIn; hide Reach; hide Valid; hide ExecuteCommand; hide OnHand; hide Wanted;
    var before := Reach(steps);
    var row := Wanted(before, r)[k];
    var c := Command(RefundEntry, row.key.sku, 1, "refund", r);
    WaitingRefundKey(steps, r, row.key.sku);
    RefundCommandIsAccepted(before, c);
    CommandsKeepTables(before, c);
    var longer := steps + [StockCommand(c)];
    assert longer[..|longer| - 1] == steps;
    ReachNext(longer);
    LedgerIsNotRead(before, Reach(longer).ledger, r, n);
    WantedIgnoresLedger(before, Reach(longer), r);
    TakenGrows(longer, RestoreKey(row.key.sku, r));
    LineIsRestoredIff(longer, r, n, k);
  }

  lemma RefundCommandIsAccepted(db: Db, c: Command)
    requires c.op.RefundEntry? && c.quantity == 1 && c.sku in db.catalogue && !KeyUsed(db.ledger, KeyOf(c))
    ensures ExecuteCommand(db, c).result.Ok? && Takes(db, StockCommand(c), KeyOf(c))
  {
    hide BalanceOf;
    assert RowsOf(c) == [Row(KeyOf(c), 1)];
  }

  lemma WantedIgnoresLedger(a: Db, b: Db, r: nat)
    requires a.Linked() && b.Linked() && r < |a.refunds| && a.refunds == b.refunds && a.orders == b.orders
    ensures Wanted(a, r) == Wanted(b, r)
  {
  }
}
