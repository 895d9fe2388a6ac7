/**
 The stock ledger under orders and refunds: which rows it holds, what they add up to, and why
 cancel, expire, confirm and refund need not look at a balance.
 */
module Stock {
  import opened Summation
  import opened Inventory
  import opened Tables
  import opened Orders
  import opened Payments
  import opened Refunds
  import opened Books

  /** The reference types orders and refunds write under. */
  predicate Reserved(refType: string) {
    refType == "order" || refType == "refund"
  }

  // ------------------------------------------------------- which rows there are

  /** The rows an order must have, by its status alone. */
  predicate OrderRow(orders: seq<Order>, row: Row) {
    row.key.refId < |orders| &&
    var order := orders[row.key.refId];
    var q := QtyOf(order.items, row.key.sku);
    q > 0 &&
    match row.key.kind
    case Lock => row.qty == -q
    case Unlock => row.qty == q && !order.status.Pending?
    case Out => row.qty == -q && PaidOrLater(order.status)
    case _ => false
  }

  function RestoreOf(items: seq<OrderItem>, sku: nat): RefundLine -> int {
    (l: RefundLine) => if l.item < |items| && items[l.item].sku == sku then l.quantity else 0
  }

  /** How much of one SKU a refund puts back. */
  function RestoreQty(items: seq<OrderItem>, lines: seq<RefundLine>, sku: nat): int {
    Sum(lines, RestoreOf(items, sku))
  }

  /** The rows a refund must have: one for each line when it succeeded, none before. */
  predicate RefundRow(orders: seq<Order>, refunds: seq<Refund>, row: Row) {
    row.key.refId < |refunds| &&
    var refund := refunds[row.key.refId];
    refund.status.RefundSucceeded? && row.key.kind.RefundEntry? && refund.orderId < |orders| &&
    var q := RestoreQty(orders[refund.orderId].items, refund.lines, row.key.sku);
    q > 0 && row.qty == q
  }

  /** The order and refund rows of the ledger are a function of the orders and refunds. */
  ghost predicate LedgerExact(db: Db) {
    && UniqueKeys(db.ledger)
    && (forall row: Row | row.key.refType == "order" :: row in db.ledger <==> OrderRow(db.orders, row))
    && (forall row: Row | row.key.refType == "refund" :: row in db.ledger <==> RefundRow(db.orders, db.refunds, row))
  }

  // -------------------------------------------------------- what they add up to

  function DirectOnHandOf(sku: nat): Row -> int {
    (r: Row) => if Reserved(r.key.refType) then 0 else OnHandOf(sku)(r)
  }

  function DirectLockOf(sku: nat): Row -> int {
    (r: Row) => if Reserved(r.key.refType) then 0 else LockOf(sku)(r)
  }

  /** Stock moved by direct commands: received, deducted, adjusted and returned. */
  function DirectOnHand(rows: seq<Row>, sku: nat): int {
    Sum(rows, DirectOnHandOf(sku))
  }

  /** Locks taken and not yet released by direct commands. */
  function DirectLocks(rows: seq<Row>, sku: nat): int {
    Sum(rows, DirectLockOf(sku))
  }

  function PendingOf(sku: nat): Order -> int {
    (o: Order) => if o.status.Pending? then QtyOf(o.items, sku) else 0
  }

  function SoldOf(sku: nat): Order -> int {
    (o: Order) => if PaidOrLater(o.status) then QtyOf(o.items, sku) else 0
  }

  function RestoredOf(orders: seq<Order>, sku: nat): Refund -> int {
    (r: Refund) => if r.status.RefundSucceeded? && r.orderId < |orders|
                   then RestoreQty(orders[r.orderId].items, r.lines, sku) else 0
  }

  function PendingQty(orders: seq<Order>, sku: nat): int {
    Sum(orders, PendingOf(sku))
  }

  function SoldQty(orders: seq<Order>, sku: nat): int {
    Sum(orders, SoldOf(sku))
  }

  function RestoredQty(orders: seq<Order>, refunds: seq<Refund>, sku: nat): int {
    Sum(refunds, RestoredOf(orders, sku))
  }

  /** Conservation: every unit on hand and every lock is accounted for. */
  ghost predicate Conserved(db: Db, sku: nat) {
    && OnHand(db.ledger, sku) ==
       DirectOnHand(db.ledger, sku) - SoldQty(db.orders, sku) + RestoredQty(db.orders, db.refunds, sku)
    && Locked(db.ledger, sku) == DirectLocks(db.ledger, sku) + PendingQty(db.orders, sku)
  }

  ghost predicate Accounted(db: Db) {
    && LedgerExact(db)
    && forall sku: nat :: Conserved(db, sku)
  }

  // --------------------------------------------------------- lines and quantities

  lemma {:induction false} QtyOfItem(items: seq<OrderItem>, sku: nat)
    requires forall i, j :: 0 <= i < j < |items| ==> items[i].sku != items[j].sku
    ensures QtyOf(items, sku) >= 0
    ensures forall i :: 0 <= i < |items| && items[i].sku == sku ==> QtyOf(items, sku) == items[i].quantity
    ensures (forall i :: 0 <= i < |items| ==> items[i].sku != sku) ==> QtyOf(items, sku) == 0
  {
    if |items| > 0 {
      QtyOfItem(items[..|items| - 1], sku);
    }
  }

  lemma {:induction false} RestoreQtyOfLine(items: seq<OrderItem>, lines: seq<RefundLine>, sku: nat)
    requires LinesOf(lines, items)
    requires forall i, j :: 0 <= i < j < |items| ==> items[i].sku != items[j].sku
    requires forall j, k :: 0 <= j < k < |lines| ==> lines[j].item != lines[k].item
    ensures RestoreQty(items, lines, sku) >= 0
    ensures forall k :: 0 <= k < |lines| && items[lines[k].item].sku == sku ==>
              RestoreQty(items, lines, sku) == lines[k].quantity
    ensures (forall k :: 0 <= k < |lines| ==> items[lines[k].item].sku != sku) ==> RestoreQty(items, lines, sku) == 0
  {
    if |lines| > 0 {
      RestoreQtyOfLine(items, lines[..|lines| - 1], sku);
    }
  }

  // ----------------------------------------------------------- what rows weigh

  /** What one row adds to each of the four figures. */
  lemma AddRow(rows: seq<Row>, row: Row, sku: nat)
    ensures OnHand(rows + [row], sku) == OnHand(rows, sku) + OnHandOf(sku)(row)
    ensures Locked(rows + [row], sku) == Locked(rows, sku) + LockOf(sku)(row)
    ensures DirectOnHand(rows + [row], sku) == DirectOnHand(rows, sku) + DirectOnHandOf(sku)(row)
    ensures DirectLocks(rows + [row], sku) == DirectLocks(rows, sku) + DirectLockOf(sku)(row)
  {
    Append(rows, row, OnHandOf(sku));
    Append(rows, row, LockOf(sku));
    Append(rows, row, DirectOnHandOf(sku));
    Append(rows, row, DirectLockOf(sku));
  }

  lemma {:induction false} OrderRowsWeigh(items: seq<OrderItem>, id: nat, kind: EntryType, sign: int, sku: nat)
    requires (kind.Lock? || kind.Unlock?) && (sign == 1 || sign == -1)
    ensures Locked(OrderRows(items, id, kind, sign), sku) == if sign == 1 then -QtyOf(items, sku) else QtyOf(items, sku)
    ensures OnHand(OrderRows(items, id, kind, sign), sku) == 0
    ensures DirectLocks(OrderRows(items, id, kind, sign), sku) == 0
    ensures DirectOnHand(OrderRows(items, id, kind, sign), sku) == 0
  {
    if |items| > 0 {
      var n := |items| - 1;
      OrderRowsWeigh(items[..n], id, kind, sign, sku);
      var last := Row(Key(items[n].sku, kind, "order", id), sign * items[n].quantity);
      assert OrderRows(items, id, kind, sign) == OrderRows(items[..n], id, kind, sign) + [last];
      hide OnHand; hide Locked; hide DirectOnHand; hide DirectLocks;
      AddRow(OrderRows(items[..n], id, kind, sign), last, sku);
    }
  }

  lemma {:induction false} DeductionRowsWeigh(items: seq<OrderItem>, id: nat, sku: nat)
    ensures Locked(DeductionRows(items, id), sku) == -QtyOf(items, sku)
    ensures OnHand(DeductionRows(items, id), sku) == -QtyOf(items, sku)
    ensures DirectLocks(DeductionRows(items, id), sku) == 0
    ensures DirectOnHand(DeductionRows(items, id), sku) == 0
  {
    if |items| > 0 {
      var n := |items| - 1;
      DeductionRowsWeigh(items[..n], id, sku);
      var front := DeductionRows(items[..n], id);
      var out := Row(Key(items[n].sku, Out, "order", id), 0 - items[n].quantity);
      var unlock := Row(Key(items[n].sku, Unlock, "order", id), items[n].quantity);
      assert DeductionRows(items, id) == front + [out] + [unlock];
      hide OnHand; hide Locked; hide DirectOnHand; hide DirectLocks; hide DeductionRows;
      AddRow(front, out, sku);
      AddRow(front + [out], unlock, sku);
    }
  }

  lemma {:induction false} RestoreRowsWeigh(items: seq<OrderItem>, lines: seq<RefundLine>, id: nat, sku: nat)
    requires LinesOf(lines, items)
    ensures Locked(RestoreRows(items, lines, id), sku) == 0
    ensures OnHand(RestoreRows(items, lines, id), sku) == RestoreQty(items, lines, sku)
    ensures DirectLocks(RestoreRows(items, lines, id), sku) == 0
    ensures DirectOnHand(RestoreRows(items, lines, id), sku) == 0
  {
    if |lines| > 0 {
      var n := |lines| - 1;
      RestoreRowsWeigh(items, lines[..n], id, sku);
      var last := Row(Key(items[lines[n].item].sku, RefundEntry, "refund", id), lines[n].quantity);
      assert RestoreRows(items, lines, id) == RestoreRows(items, lines[..n], id) + [last];
      hide OnHand; hide Locked; hide DirectOnHand; hide DirectLocks;
      AddRow(RestoreRows(items, lines[..n], id), last, sku);
    }
  }

  lemma Grow(ledger: seq<Row>, rows: seq<Row>, sku: nat)
    ensures OnHand(ledger + rows, sku) == OnHand(ledger, sku) + OnHand(rows, sku)
    ensures Locked(ledger + rows, sku) == Locked(ledger, sku) + Locked(rows, sku)
    ensures DirectOnHand(ledger + rows, sku) == DirectOnHand(ledger, sku) + DirectOnHand(rows, sku)
    ensures DirectLocks(ledger + rows, sku) == DirectLocks(ledger, sku) + DirectLocks(rows, sku)
  {
    Concat(ledger, rows, OnHandOf(sku));
    Concat(ledger, rows, LockOf(sku));
    Concat(ledger, rows, DirectOnHandOf(sku));
    Concat(ledger, rows, DirectLockOf(sku));
  }

  // ------------------------------------------------ which rows a step adds

  lemma OrderRowsAre(order: Order, id: nat, kind: EntryType, sign: int, row: Row)
    requires OrderShape(order)
    ensures row in OrderRows(order.items, id, kind, sign) <==>
              var q := QtyOf(order.items, row.key.sku);
              row.key == Key(row.key.sku, kind, "order", id) && q > 0 && row.qty == sign * q
  {
    QtyOfItem(order.items, row.key.sku);
    var rows := OrderRows(order.items, id, kind, sign);
    if row.key == Key(row.key.sku, kind, "order", id) && QtyOf(order.items, row.key.sku) > 0
       && row.qty == sign * QtyOf(order.items, row.key.sku)
    {
      var i :| 0 <= i < |order.items| && order.items[i].sku == row.key.sku;
      assert rows[i] == row;
    }
  }

  lemma DeductionRowsAre(order: Order, id: nat, row: Row)
    requires OrderShape(order)
    ensures row in DeductionRows(order.items, id) <==>
              var q := QtyOf(order.items, row.key.sku);
              q > 0 && (row == Row(Key(row.key.sku, Out, "order", id), -q) ||
                        row == Row(Key(row.key.sku, Unlock, "order", id), q))
  {
    var q := QtyOf(order.items, row.key.sku);
    QtyOfItem(order.items, row.key.sku);
    var rows := DeductionRows(order.items, id);
    if row in rows {
      var k :| 0 <= k < |rows| && rows[k] == row;
      assert k == 2 * (k / 2) || k == 2 * (k / 2) + 1;
      assert rows[2 * (k / 2)].key.sku == order.items[k / 2].sku;
    }
    if q > 0 {
      var i :| 0 <= i < |order.items| && order.items[i].sku == row.key.sku;
      assert rows[2 * i] == Row(Key(row.key.sku, Out, "order", id), -q);
      assert rows[2 * i + 1] == Row(Key(row.key.sku, Unlock, "order", id), q);
    }
  }

  lemma RestoreRowsAre(orders: seq<Order>, refund: Refund, id: nat, row: Row)
    requires RefundShape(orders, refund) && OrdersOk(orders)
    ensures row in RestoreRows(orders[refund.orderId].items, refund.lines, id) <==>
              var q := RestoreQty(orders[refund.orderId].items, refund.lines, row.key.sku);
              q > 0 && row == Row(Key(row.key.sku, RefundEntry, "refund", id), q)
  {
    var items := orders[refund.orderId].items;
    assert OrderShape(orders[refund.orderId]);
    RestoreQtyOfLine(items, refund.lines, row.key.sku);
    var rows := RestoreRows(items, refund.lines, id);
    var q := RestoreQty(items, refund.lines, row.key.sku);
    if q > 0 {
      var k :| 0 <= k < |refund.lines| && items[refund.lines[k].item].sku == row.key.sku;
      assert rows[k] == Row(Key(row.key.sku, RefundEntry, "refund", id), q);
    }
  }

  /** Only an order in the right status has used one of its ledger keys. */
  lemma OrderKeyUsed(db: Db, key: Key)
    requires LedgerExact(db) && KeyUsed(db.ledger, key) && key.refType == "order"
    ensures key.refId < |db.orders| && !(key.kind.Unlock? && db.orders[key.refId].status.Pending?)
    ensures key.kind.Out? ==> !db.orders[key.refId].status.Pending?
  {
    var i :| 0 <= i < |db.ledger| && db.ledger[i].key == key;
    assert db.ledger[i] in db.ledger;
  }

  lemma RefundKeyUsed(db: Db, key: Key)
    requires LedgerExact(db) && KeyUsed(db.ledger, key) && key.refType == "refund"
    ensures key.refId < |db.refunds| && db.refunds[key.refId].status.RefundSucceeded?
  {
    var i :| 0 <= i < |db.ledger| && db.ledger[i].key == key;
    assert db.ledger[i] in db.ledger;
  }

  /** The lock rows of a new order never collide. */
  lemma LocksAreNew(db: Db, order: Order)
    requires LedgerExact(db) && OrderShape(order)
    ensures Insertable(db.ledger, OrderRows(order.items, |db.orders|, Lock, -1))
  {
    var rows := OrderRows(order.items, |db.orders|, Lock, -1);
    forall i | 0 <= i < |rows| ensures !KeyUsed(db.ledger, rows[i].key) {
      if KeyUsed(db.ledger, rows[i].key) {
        OrderKeyUsed(db, rows[i].key);
      }
    }
  }

  /** The release rows of a pending order never collide. */
  lemma ReleasesAreNew(db: Db, id: nat)
    requires LedgerExact(db) && OrdersOk(db.orders) && id < |db.orders| && db.orders[id].status.Pending?
    ensures Insertable(db.ledger, OrderRows(db.orders[id].items, id, Unlock, 1))
  {
    assert OrderShape(db.orders[id]);
    var rows := OrderRows(db.orders[id].items, id, Unlock, 1);
    forall i | 0 <= i < |rows| ensures !KeyUsed(db.ledger, rows[i].key) {
      if KeyUsed(db.ledger, rows[i].key) {
        OrderKeyUsed(db, rows[i].key);
      }
    }
  }

  lemma DeductionsAreNew(db: Db, id: nat)
    requires LedgerExact(db) && OrdersOk(db.orders) && id < |db.orders| && db.orders[id].status.Pending?
    ensures Insertable(db.ledger, DeductionRows(db.orders[id].items, id))
  {
    var items := db.orders[id].items;
    assert OrderShape(db.orders[id]);
    var rows := DeductionRows(items, id);
    forall k | 0 <= k < |rows| ensures !KeyUsed(db.ledger, rows[k].key) && FitsInteger(rows[k].qty) {
      assert k == 2 * (k / 2) || k == 2 * (k / 2) + 1;
      assert rows[2 * (k / 2)].key.sku == items[k / 2].sku;
      if KeyUsed(db.ledger, rows[k].key) {
        OrderKeyUsed(db, rows[k].key);
      }
    }
    forall j, k | 0 <= j < k < |rows| ensures rows[j].key != rows[k].key {
      assert j == 2 * (j / 2) || j == 2 * (j / 2) + 1;
      assert k == 2 * (k / 2) || k == 2 * (k / 2) + 1;
      assert rows[2 * (k / 2)].key.sku == items[k / 2].sku && rows[2 * (j / 2)].key.sku == items[j / 2].sku;
    }
  }

  /** So the insert that skips duplicates never has one to skip. */
  lemma RestoresAreNew(db: Db, id: nat)
    requires LedgerExact(db) && OrdersOk(db.orders) && RefundsOk(db.orders, db.refunds)
    requires id < |db.refunds| && !db.refunds[id].status.RefundSucceeded?
    ensures var refund := db.refunds[id];
            refund.orderId < |db.orders| && LinesOf(refund.lines, db.orders[refund.orderId].items) &&
            Insertable(db.ledger, RestoreRows(db.orders[refund.orderId].items, refund.lines, id))
  {
    var refund := db.refunds[id];
    assert RefundShape(db.orders, refund) && OrderShape(db.orders[refund.orderId]);
    var items := db.orders[refund.orderId].items;
    var rows := RestoreRows(items, refund.lines, id);
    forall k | 0 <= k < |rows| ensures !KeyUsed(db.ledger, rows[k].key) {
      if KeyUsed(db.ledger, rows[k].key) {
        RefundKeyUsed(db, rows[k].key);
      }
    }
    forall k | 0 <= k < |rows| ensures FitsInteger(rows[k].qty) {
      assert rows[k].qty == refund.lines[k].quantity;
    }
  }
}
