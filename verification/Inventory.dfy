/** The append-only stock ledger: its rows, the balance fold and the direct inventory commands. */
module Inventory {
  import opened Wrappers
  import opened Summation

  /** `Inbound` and `Initial` are how opening stock is written; the balance fold knows neither. */
  datatype EntryType =
    | In | Out | Adjustment | RefundEntry | Lock | Unlock
    | Inbound | Initial | Other(name: string)

  /** The unique key of the ledger within one tenant. */
  datatype Key = Key(sku: nat, kind: EntryType, refType: string, refId: nat)

  datatype Row = Row(key: Key, qty: int)

  datatype Balance = Balance(onHand: int, locked: int, available: int)

  datatype Command = Command(op: EntryType, sku: nat, quantity: int, refType: string, refId: nat)

  const MAX_SAFE_INTEGER: int := 0x1F_FFFF_FFFF_FFFF

  predicate SafeInteger(n: int) {
    -MAX_SAFE_INTEGER <= n <= MAX_SAFE_INTEGER
  }

  /** The range of a database integer column. */
  predicate FitsInteger(n: int) {
    -0x8000_0000 <= n <= 0x7FFF_FFFF
  }

  // ---------------------------------------------------------------- balance

  predicate CountsOnHand(kind: EntryType) {
    kind.In? || kind.Out? || kind.Adjustment? || kind.RefundEntry?
  }

  predicate CountsLock(kind: EntryType) {
    kind.Lock? || kind.Unlock?
  }

  function OnHandOf(sku: nat): Row -> int {
    (r: Row) => if r.key.sku == sku && CountsOnHand(r.key.kind) then r.qty else 0
  }

  function LockOf(sku: nat): Row -> int {
    (r: Row) => if r.key.sku == sku && CountsLock(r.key.kind) then -r.qty else 0
  }

  function OnHand(rows: seq<Row>, sku: nat): int {
    Sum(rows, OnHandOf(sku))
  }

  function Locked(rows: seq<Row>, sku: nat): int {
    Sum(rows, LockOf(sku))
  }

  function BalanceOf(rows: seq<Row>, sku: nat): Balance {
    Balance(OnHand(rows, sku), Locked(rows, sku), OnHand(rows, sku) - Locked(rows, sku))
  }

  method CalculateBalance(rows: seq<Row>, sku: nat) returns (balance: Balance)
    ensures balance == BalanceOf(rows, sku)
  {
    var onHand, lockDelta := 0, 0;
    for i := 0 to |rows|
      invariant onHand == OnHand(rows[..i], sku)
      invariant lockDelta == -Locked(rows[..i], sku)
    {
      var entry := rows[i];
      Append(rows[..i], entry, OnHandOf(sku));
      Append(rows[..i], entry, LockOf(sku));
      assert rows[..i + 1] == rows[..i] + [entry];
      if entry.key.sku == sku {
        if CountsOnHand(entry.key.kind) {
          onHand := onHand + entry.qty;
        }
        if CountsLock(entry.key.kind) {
          lockDelta := lockDelta + entry.qty;
        }
      }
    }
    assert rows[..|rows|] == rows;
    var locked := if lockDelta == 0 then 0 else -lockDelta;
    balance := Balance(onHand, locked, onHand - locked);
  }

  /** The query names no order, so the balance must not depend on one. */
  lemma BalanceIgnoresOrder(rows: seq<Row>, shuffled: seq<Row>, sku: nat)
    requires multiset(rows) == multiset(shuffled)
    ensures BalanceOf(rows, sku) == BalanceOf(shuffled, sku)
  {
    Permute(rows, shuffled, OnHandOf(sku));
    Permute(rows, shuffled, LockOf(sku));
  }

  // ------------------------------------------------- the catalogue's figure

  function StockOf(sku: nat): Row -> int {
    (r: Row) => if r.key.sku == sku then r.qty else 0
  }

  function IgnoredOf(sku: nat): Row -> int {
    (r: Row) => if r.key.sku == sku && !CountsOnHand(r.key.kind) && !CountsLock(r.key.kind) then r.qty else 0
  }

  /** What a product page shows: every row added up, whatever its type. */
  function CatalogueStock(rows: seq<Row>, sku: nat): int {
    Sum(rows, StockOf(sku))
  }

  /** The product page agrees with the ledger's `available` up to the rows the fold ignores. */
  lemma {:induction false} CatalogueStockIsAvailablePlusIgnored(rows: seq<Row>, sku: nat)
    ensures CatalogueStock(rows, sku) == BalanceOf(rows, sku).available + Sum(rows, IgnoredOf(sku))
  {
    var counted := (r: Row) => OnHandOf(sku)(r) - LockOf(sku)(r);
    var unlocked := (r: Row) => -LockOf(sku)(r);
    var none := (r: Row) => 0;
    Plus(rows, LockOf(sku), unlocked, none);
    Zero(rows, none);
    Plus(rows, OnHandOf(sku), unlocked, counted);
    Plus(rows, counted, IgnoredOf(sku), StockOf(sku));
  }

  // --------------------------------------------------------------- inserting

  predicate KeyUsed(rows: seq<Row>, key: Key) {
    exists i :: 0 <= i < |rows| && rows[i].key == key
  }

  ghost predicate UniqueKeys(rows: seq<Row>) {
    forall i, j :: 0 <= i < j < |rows| ==> rows[i].key != rows[j].key
  }

  predicate Insertable(rows: seq<Row>, added: seq<Row>) {
    && (forall i :: 0 <= i < |added| ==> FitsInteger(added[i].qty) && !KeyUsed(rows, added[i].key))
    && (forall i, j :: 0 <= i < j < |added| ==> added[i].key != added[j].key)
  }

  /** A multi-row insert: all rows, or a constraint error and none. */
  function Insert(rows: seq<Row>, added: seq<Row>): (r: Option<seq<Row>>)
    ensures r.Some? && UniqueKeys(rows) ==> UniqueKeys(r.value)
  {
    if Insertable(rows, added) then
      assert UniqueKeys(rows) ==> UniqueKeys(rows + added) by {
        if UniqueKeys(rows) {
          forall i, j | 0 <= i < j < |rows + added| ensures (rows + added)[i].key != (rows + added)[j].key {
            if i < |rows| <= j {
              assert !KeyUsed(rows, added[j - |rows|].key);
              assert rows[i].key != added[j - |rows|].key;
            }
          }
        }
      }
      Some(rows + added)
    else None
  }

  /** An insert that skips rows whose key is taken. */
  function InsertSkippingDuplicates(rows: seq<Row>, added: seq<Row>): (r: seq<Row>)
    decreases |added|
    ensures UniqueKeys(rows) ==> UniqueKeys(r)
    ensures Insertable(rows, added) ==> r == rows + added
  {
    if added == [] then assert rows + added == rows; rows
    else if KeyUsed(rows, added[0].key) then InsertSkippingDuplicates(rows, added[1..])
    else
      var next := rows + [added[0]];
      assert Insertable(rows, added) ==> Insertable(next, added[1..]) by {
        if Insertable(rows, added) {
          forall i | 0 <= i < |added[1..]| ensures !KeyUsed(next, added[1..][i].key) {
            assert added[1..][i] == added[i + 1];
            assert !KeyUsed(rows, added[i + 1].key) && added[0].key != added[i + 1].key;
          }
        }
      }
      assert rows + added == next + added[1..];
      InsertSkippingDuplicates(next, added[1..])
  }

  // ---------------------------------------------------------- direct commands

  /** The guards of a stock command; an order runs them for its own locks as well. */
  function Refusal(op: EntryType, quantity: int, balance: Balance): Option<Error> {
    if !(op.In? || op.Adjustment? || op.Lock? || op.Unlock? || op.Out? || op.RefundEntry?) then Some(Conflict)
    else if !SafeInteger(quantity) || quantity == 0 then Some(Conflict)
    else if !op.Adjustment? && quantity < 0 then Some(Conflict)
    else if op.Lock? && balance.available < quantity then Some(Conflict)
    else if (op.Unlock? || op.Out?) && balance.locked < quantity then Some(Conflict)
    else if op.Adjustment? && balance.onHand + quantity < balance.locked then Some(Conflict)
    else None
  }

  function QtyChange(op: EntryType, quantity: int): int {
    if op.Out? || op.Lock? then -quantity else quantity
  }

  function KeyOf(c: Command): Key {
    Key(c.sku, c.op, c.refType, c.refId)
  }

  function RowsOf(c: Command): seq<Row> {
    [Row(KeyOf(c), QtyChange(c.op, c.quantity))] +
    if c.op.Out? then [Row(Key(c.sku, Unlock, c.refType, c.refId), c.quantity)] else []
  }

  datatype LedgerOutcome = LedgerOutcome(rows: seq<Row>, result: Result<Balance>)

  function Execute(rows: seq<Row>, known: bool, c: Command): LedgerOutcome {
    if !known then LedgerOutcome(rows, Err(NotFound))
    else if KeyUsed(rows, KeyOf(c)) then LedgerOutcome(rows, Ok(BalanceOf(rows, c.sku)))
    else
      match Refusal(c.op, c.quantity, BalanceOf(rows, c.sku))
      case Some(e) => LedgerOutcome(rows, Err(e))
      case None =>
        match Insert(rows, RowsOf(c))
        case None => LedgerOutcome(rows, Err(Constraint))
        case Some(all) => LedgerOutcome(all, Ok(BalanceOf(all, c.sku)))
  }

  /** How an accepted command moves one SKU's balance. */
  lemma RowsMoveBalance(rows: seq<Row>, c: Command, sku: nat)
    ensures OnHand(rows + RowsOf(c), sku) == OnHand(rows, sku) +
            (if c.sku != sku then 0 else if c.op.In? || c.op.Adjustment? || c.op.RefundEntry? then c.quantity
             else if c.op.Out? then -c.quantity else 0)
    ensures Locked(rows + RowsOf(c), sku) == Locked(rows, sku) +
            (if c.sku != sku then 0 else if c.op.Lock? then c.quantity
             else if c.op.Unlock? || c.op.Out? then -c.quantity else 0)
  {
    var first, more := RowsOf(c)[..1], RowsOf(c)[1..];
    assert rows + RowsOf(c) == rows + first + more;
    Append(rows, first[0], OnHandOf(sku));
    Append(rows, first[0], LockOf(sku));
    if c.op.Out? {
      Append(rows + first, more[0], OnHandOf(sku));
      Append(rows + first, more[0], LockOf(sku));
    } else {
      assert rows + first + more == rows + first;
    }
  }

  ghost predicate Safe(rows: seq<Row>) {
    forall sku: nat :: 0 <= Locked(rows, sku) <= OnHand(rows, sku)
  }

  lemma ExecuteIsSafe(rows: seq<Row>, known: bool, c: Command)
    requires Safe(rows)
    ensures Safe(Execute(rows, known, c).rows)
  {
    hide OnHand; hide Locked; hide KeyUsed; hide Insertable; hide RowsOf;
    forall sku: nat ensures 0 <= Locked(Execute(rows, known, c).rows, sku) <= OnHand(Execute(rows, known, c).rows, sku) {
      RowsMoveBalance(rows, c, sku);
      assert 0 <= Locked(rows, sku) <= OnHand(rows, sku);
    }
  }

  function ExecuteAll(rows: seq<Row>, known: set<nat>, commands: seq<Command>): seq<Row>
    decreases |commands|
  {
    if commands == [] then rows
    else ExecuteAll(Execute(rows, commands[0].sku in known, commands[0]).rows, known, commands[1..])
  }

  /** Without orders, the command guards alone keep every SKU safe, whatever is asked. */
  lemma {:induction false} CommandsAloneAreSafe(rows: seq<Row>, known: set<nat>, commands: seq<Command>)
    requires Safe(rows) && UniqueKeys(rows)
    ensures Safe(ExecuteAll(rows, known, commands)) && UniqueKeys(ExecuteAll(rows, known, commands))
    decreases |commands|
  {
    if commands != [] {
      ExecuteIsSafe(rows, commands[0].sku in known, commands[0]);
      CommandsAloneAreSafe(Execute(rows, commands[0].sku in known, commands[0]).rows, known, commands[1..]);
    }
  }
}
