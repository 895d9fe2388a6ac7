/** What a direct inventory command and an opening entry promise, in terms of the ledger alone. */
module StockPromises {
  import opened Wrappers
  import opened Summation
  import opened Inventory
  import opened Tables
  import opened Steps

  // ---------------------------------------------------------- direct commands

  /** The quantity, with the sign its row or rows will carry, fits an integer column. */
  predicate RowFits(op: EntryType, quantity: int) {
    match op
    case Lock => -quantity >= -0x8000_0000
    case Out => quantity <= 0x7FFF_FFFF
    case _ => -0x8000_0000 <= quantity <= 0x7FFF_FFFF
  }

  /** The guards of a command at one SKU's on-hand and locked quantities. */
  predicate Allowed(op: EntryType, quantity: int, onHand: int, locked: int) {
    match op
    case In => quantity > 0
    case RefundEntry => quantity > 0
    case Adjustment => quantity != 0 && onHand + quantity >= locked
    case Lock => 0 < quantity <= onHand - locked
    case Unlock => 0 < quantity <= locked
    case Out => 0 < quantity <= locked
    case _ => false
  }

  /** The SKU exists, and the command is a repeat, or its guards hold and its keys are free. */
  predicate Accepts(rows: seq<Row>, known: bool, c: Command) {
    && known
    && (|| KeyUsed(rows, Key(c.sku, c.op, c.refType, c.refId))
        || (&& Allowed(c.op, c.quantity, OnHand(rows, c.sku), Locked(rows, c.sku))
            && RowFits(c.op, c.quantity)
            && (c.op.Out? ==> !KeyUsed(rows, Key(c.sku, Unlock, c.refType, c.refId)))))
  }

  lemma CommandIsAcceptedIff(rows: seq<Row>, known: bool, c: Command)
    ensures Execute(rows, known, c).result.Ok? <==> Accepts(rows, known, c)
  {
    hide OnHand; hide Locked; hide KeyUsed;
    if c.op.Out? {
      assert RowsOf(c)[0] == Row(Key(c.sku, Out, c.refType, c.refId), -c.quantity);
      assert RowsOf(c)[1] == Row(Key(c.sku, Unlock, c.refType, c.refId), c.quantity);
    } else {
      assert |RowsOf(c)| == 1 && RowsOf(c)[0].key == Key(c.sku, c.op, c.refType, c.refId);
    }
  }

  /** Which error a refused command gets: unknown SKU, a guard, or a constraint of the table. */
  lemma CommandErrors(rows: seq<Row>, known: bool, c: Command)
    requires Execute(rows, known, c).result.Err?
    ensures Execute(rows, known, c).result.error ==
            if !known then NotFound
            else if !Allowed(c.op, c.quantity, OnHand(rows, c.sku), Locked(rows, c.sku))
                    || !(-0x1F_FFFF_FFFF_FFFF <= c.quantity <= 0x1F_FFFF_FFFF_FFFF) then Conflict
            else Constraint
  {
    hide OnHand; hide Locked; hide KeyUsed; hide Insertable;
  }

  /** By how much a command moves what is on hand. */
  function OnHandMove(op: EntryType, quantity: int): int {
    match op
    case In => quantity
    case RefundEntry => quantity
    case Adjustment => quantity
    case Out => -quantity
    case _ => 0
  }

  /** By how much it moves what is locked. */
  function LockedMove(op: EntryType, quantity: int): int {
    match op
    case Lock => quantity
    case Unlock => -quantity
    case Out => -quantity
    case _ => 0
  }

  /** The command's own SKU is moved by exactly its quantity, and no other SKU. */
  ghost predicate Moved(rows: seq<Row>, after: seq<Row>, c: Command) {
    forall sku: nat ::
      && OnHand(after, sku) == OnHand(rows, sku) + (if sku == c.sku then OnHandMove(c.op, c.quantity) else 0)
      && Locked(after, sku) == Locked(rows, sku) + (if sku == c.sku then LockedMove(c.op, c.quantity) else 0)
  }

  /**
   An accepted command that is no repeat moves its own SKU by exactly its quantity, leaves every other SKU
   alone, and answers with the old balance so moved.
   */
  lemma CommandMoves(rows: seq<Row>, known: bool, c: Command)
    requires Execute(rows, known, c).result.Ok? && !KeyUsed(rows, Key(c.sku, c.op, c.refType, c.refId))
    ensures var outcome := Execute(rows, known, c);
            && Moved(rows, outcome.rows, c)
            && outcome.result.value.onHand == OnHand(rows, c.sku) + OnHandMove(c.op, c.quantity)
            && outcome.result.value.locked == Locked(rows, c.sku) + LockedMove(c.op, c.quantity)
            && outcome.result.value.available == outcome.result.value.onHand - outcome.result.value.locked
  {
    hide OnHand; hide Locked; hide KeyUsed; hide Insertable; hide RowsOf;
    forall sku: nat
      ensures && OnHand(rows + RowsOf(c), sku) ==
                 OnHand(rows, sku) + (if sku == c.sku then OnHandMove(c.op, c.quantity) else 0)
              && Locked(rows + RowsOf(c), sku) ==
                 Locked(rows, sku) + (if sku == c.sku then LockedMove(c.op, c.quantity) else 0)
    {
      RowsMoveBalance(rows, c, sku);
    }
  }

  /** It only adds to the ledger: one row under its own key, and for `out` one more that releases. */
  lemma CommandAdds(rows: seq<Row>, known: bool, c: Command)
    requires Execute(rows, known, c).result.Ok? && !KeyUsed(rows, Key(c.sku, c.op, c.refType, c.refId))
    ensures var after := Execute(rows, known, c).rows;
            && rows <= after && |after| == |rows| + (if c.op.Out? then 2 else 1)
            && after[|rows|].key == Key(c.sku, c.op, c.refType, c.refId)
            && (c.op.Out? ==> after[|rows| + 1] == Row(Key(c.sku, Unlock, c.refType, c.refId), c.quantity))
  {
    hide KeyUsed; hide Insertable; hide BalanceOf;
  }

  /** A repeat writes nothing and answers with the balance as it is now; so does nothing a refusal. */
  lemma RepeatsAndRefusalsWriteNothing(rows: seq<Row>, known: bool, c: Command)
    requires Execute(rows, known, c).result.Err? || KeyUsed(rows, Key(c.sku, c.op, c.refType, c.refId))
    ensures Execute(rows, known, c).rows == rows
    ensures known && KeyUsed(rows, Key(c.sku, c.op, c.refType, c.refId)) ==>
              Execute(rows, known, c).result ==
              Ok(Balance(OnHand(rows, c.sku), Locked(rows, c.sku), OnHand(rows, c.sku) - Locked(rows, c.sku)))
  {
    hide KeyUsed; hide Insertable;
  }

  // ------------------------------------------------------------- opening stock

  function OpeningKey(sku: nat, intake: bool, refId: nat): Key {
    if intake then Key(sku, Initial, "product_intake", refId) else Key(sku, Inbound, "product_initial_stock", refId)
  }

  lemma OpeningIsAcceptedIff(db: Db, sku: nat, quantity: int, intake: bool, refId: nat)
    ensures OpenStock(db, sku, quantity, intake, refId).result.Ok? <==>
              0 <= quantity <= 0x7FFF_FFFF && !KeyUsed(db.ledger, OpeningKey(sku, intake, refId))
  {
    hide KeyUsed;
    var rows := [OpeningRow(sku, quantity, intake, refId)];
    assert rows[0].key == OpeningKey(sku, intake, refId) && rows[0].qty == quantity;
  }

  lemma OpeningErrors(db: Db, sku: nat, quantity: int, intake: bool, refId: nat)
    requires OpenStock(db, sku, quantity, intake, refId).result.Err?
    ensures OpenStock(db, sku, quantity, intake, refId).result.error ==
            if 0 <= quantity <= 0x1F_FFFF_FFFF_FFFF then Constraint else Conflict
  {
    hide KeyUsed; hide Insertable;
  }

  /** Opening stock reaches the product page and neither the ledger's on-hand nor its locked quantity. */
  lemma OpeningCountsOnThePageOnly(db: Db, sku: nat, quantity: int, intake: bool, refId: nat, other: nat)
    requires OpenStock(db, sku, quantity, intake, refId).result.Ok?
    ensures var after := OpenStock(db, sku, quantity, intake, refId).db;
            && after == db.(ledger := db.ledger + [Row(OpeningKey(sku, intake, refId), quantity)])
            && CatalogueStock(after.ledger, other) ==
               CatalogueStock(db.ledger, other) + (if other == sku then quantity else 0)
            && OnHand(after.ledger, other) == OnHand(db.ledger, other)
            && Locked(after.ledger, other) == Locked(db.ledger, other)
  {
    hide Insertable;
    var row := OpeningRow(sku, quantity, intake, refId);
    Append(db.ledger, row, StockOf(other));
    Append(db.ledger, row, OnHandOf(other));
    Append(db.ledger, row, LockOf(other));
  }
}
