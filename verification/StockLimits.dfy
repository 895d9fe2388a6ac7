/**
 Where direct releases can break stock safety, and exactly when: `execute` checks a release against the
 aggregate lock, not against what direct commands hold.
 */
module StockLimits {
  import opened Summation
  import opened Inventory
  import opened Tables
  import opened Orders
  import opened Steps
  import opened Books
  import opened BooksKept
  import opened Runs
  import opened Stock
  import opened StockKept
  import opened StockSafety
  import Text

  // ---------------------------------------------- releasing what orders hold

  /** Cancel every order, in turn. */
  function Cancels(n: nat): seq<Step> {
    if n == 0 then [] else Cancels(n - 1) + [OrderCancel(n - 1)]
  }

  lemma CancelOne(db: Db, id: nat)
    requires Valid(db) && Accounted(db) && id < |db.orders|
    ensures var after := CancelOrder(db, id).db;
            && Accounted(after)
            && |after.orders| == |db.orders| && !after.orders[id].status.Pending?
            && (forall i :: 0 <= i < |db.orders| && i != id ==> after.orders[i] == db.orders[i])
            && forall sku: nat :: DirectLocks(after.ledger, sku) == DirectLocks(db.ledger, sku)
  {
    hide Valid; hide Accounted; hide DirectLocks; hide Insertable; hide Db.Linked;
    if db.orders[id].status.Pending? {
      CloseOrderAccounts(db, id, Canceled);
      var rows := OrderRows(db.orders[id].items, id, Unlock, 1);
      forall sku: nat ensures DirectLocks(db.ledger + rows, sku) == DirectLocks(db.ledger, sku) {
        OrderRowsWeigh(db.orders[id].items, id, Unlock, 1, sku);
        Grow(db.ledger, rows, sku);
      }
    }
  }

  lemma {:induction false} CancelAll(db: Db, n: nat)
    requires Valid(db) && Accounted(db) && n <= |db.orders|
    ensures var after := Run(db, Cancels(n));
            && Accounted(after)
            && |after.orders| == |db.orders|
            && (forall i :: 0 <= i < n ==> !after.orders[i].status.Pending?)
            && forall sku: nat :: DirectLocks(after.ledger, sku) == DirectLocks(db.ledger, sku)
  {
    hide Valid; hide Accounted; hide DirectLocks;
    if n > 0 {
      CancelAll(db, n - 1);
      assert Cancels(n)[..|Cancels(n)| - 1] == Cancels(n - 1);
      CancelOne(Run(db, Cancels(n - 1)), n - 1);
    }
  }

  lemma {:induction false} CancelsOnlyCancel(n: nat)
    ensures forall i :: 0 <= i < |Cancels(n)| ==> Cancels(n)[i].OrderCancel?
  {
    if n > 0 {
      CancelsOnlyCancel(n - 1);
    }
  }

  lemma CancelsAreDisciplined(db: Db, n: nat)
    requires Valid(db)
    ensures DisciplinedRun(db, Cancels(n))
  {
    CancelsOnlyCancel(n);
    hide Run; hide Valid;
  }

  /** Once every order is closed, the locks left are the direct ones, and those are overdrawn. */
  lemma OverdrawnLocksSurface(db: Db, sku: nat)
    requires Valid(db) && Accounted(db) && DirectLocks(db.ledger, sku) < 0
    ensures !Safe(Run(db, Cancels(|db.orders|)).ledger)
  {
    CancelAll(db, |db.orders|);
    var after := Run(db, Cancels(|db.orders|));
    assert Conserved(after, sku);
    Zero(after.orders, PendingOf(sku));
    assert Locked(after.ledger, sku) < 0;
  }

  ghost predicate SafeForever(db: Db)
    requires Valid(db)
  {
    forall steps :: DisciplinedRun(db, steps) ==> Safe(Run(db, steps).ledger)
  }

  /**
   An accepted direct release is harmless, now and in every later state, if and only if it stays
   within what direct commands hold. The guard of `execute` does not ask this.
   */
  lemma ReleaseIsSafeExactlyWithinDirectLocks(db: Db, c: Command)
    requires Sound(db) && !Reserved(c.refType) && Releases(db, c)
    requires ExecuteCommand(db, c).result.Ok?
    ensures Valid(ExecuteCommand(db, c).db)
    ensures SafeForever(ExecuteCommand(db, c).db) <==> c.quantity <= DirectLocks(db.ledger, c.sku)
  {
    ValidIsLinked(db);
    StepKeepsBooks(db, StockCommand(c));
    hide Valid; hide Accounted; hide SafeForever;
    if c.quantity <= DirectLocks(db.ledger, c.sku) {
      DisciplinedReleaseIsSafe(db, c);
    } else {
      OverReleaseIsUnsafe(db, c);
    }
  }

  lemma DisciplinedReleaseIsSafe(db: Db, c: Command)
    requires Sound(db) && db.Linked() && Disciplined(db, StockCommand(c)) && Valid(ExecuteCommand(db, c).db)
    ensures SafeForever(ExecuteCommand(db, c).db)
  {
    hide Valid; hide Accounted; hide ExecuteCommand; hide Sound; hide DisciplinedRun; hide Safe; hide Disciplined;
    StepKeepsSound(db, StockCommand(c));
    var after := ExecuteCommand(db, c).db;
    forall steps | DisciplinedRun(after, steps) ensures Safe(Run(after, steps).ledger) {
      RunKeepsSound(after, steps);
      SoundIsSafe(Run(after, steps));
    }
  }

  lemma ReleaseWrites(db: Db, c: Command)
    requires Releases(db, c) && ExecuteCommand(db, c).result.Ok?
    ensures ExecuteCommand(db, c).db != db
  {
    assert |ExecuteCommand(db, c).db.ledger| > |db.ledger|;
  }

  lemma OverReleaseIsUnsafe(db: Db, c: Command)
    requires Sound(db) && db.Linked() && !Reserved(c.refType) && Releases(db, c)
    requires ExecuteCommand(db, c).result.Ok? && Valid(ExecuteCommand(db, c).db)
    requires c.quantity > DirectLocks(db.ledger, c.sku)
    ensures !SafeForever(ExecuteCommand(db, c).db)
  {
    hide Valid; hide Accounted; hide ExecuteCommand; hide DisciplinedRun; hide Safe; hide Insertable;
    hide Locked; hide OnHand; hide DirectLocks; hide RowsOf; hide KeyUsed; hide Covered;
    var after := ExecuteCommand(db, c).db;
    ReleaseWrites(db, c);
    CommandEffect(db, c);
    StepKeepsStock(db, StockCommand(c));
    RowsMoveBalance(db.ledger, c, c.sku);
    DirectCommandLocks(db.ledger, c, c.sku);
    OverdrawnLocksSurface(after, c.sku);
    CancelsAreDisciplined(after, |after.orders|);
  }

  // ------------------------------------------------------------- a concrete run

  const Request := OrderRequest("order-1", [ItemAsk(0, 3)], 0, 0, "")

  /** Stock five units, sell three, release three by hand, cancel the order. */
  const OverRelease: seq<Step> := [
    CatalogueChange(0, Variant(100, true)),
    StockCommand(Command(In, 0, 5, "manual", 1)),
    OrderCreate(Request, 0, 30),
    StockCommand(Command(Unlock, 0, 3, "manual", 2)),
    OrderCancel(0)]

  lemma RequestIsValid()
    ensures ValidOrderRequest(Request)
  {
    var key := Request.key;
    assert Text.TrimLeft(key) == key;
    assert Text.TrimRight(key) == key;
  }

  const Items := [OrderItem(0, 100, 3)]
  const Sold := Order(Request, Pending, Items, 300, 300, 1_800_000)
  const Received := Row(Key(0, In, "manual", 1), 5)
  const LockedRow := Row(Key(0, Lock, "order", 0), -3)
  const ByHand := Row(Key(0, Unlock, "manual", 2), 3)
  const Stocked := Empty.(catalogue := map[0 := Variant(100, true)], ledger := [Received])
  const Ordered := Stocked.(ledger := [Received, LockedRow], orders := [Sold])
  const Released := Ordered.(ledger := [Received, LockedRow, ByHand])

  /** One more row of SKU 0 on a ledger. */
  lemma RowCounts(rows: seq<Row>, row: Row)
    requires row.key.sku == 0
    ensures OnHand([], 0) == 0 && Locked([], 0) == 0
    ensures OnHand(rows + [row], 0) == OnHand(rows, 0) + if CountsOnHand(row.key.kind) then row.qty else 0
    ensures Locked(rows + [row], 0) == Locked(rows, 0) - if CountsLock(row.key.kind) then row.qty else 0
  {
    Append(rows, row, OnHandOf(0));
    Append(rows, row, LockOf(0));
  }

  lemma LedgerSums()
    ensures OnHand(Stocked.ledger, 0) == 5 && Locked(Stocked.ledger, 0) == 0
    ensures Locked(Ordered.ledger, 0) == 3 && Locked(Released.ledger, 0) == 0
  {
    hide OnHand; hide Locked;
    assert Stocked.ledger == [] + [Received];
    assert Ordered.ledger == Stocked.ledger + [LockedRow];
    assert Released.ledger == Ordered.ledger + [ByHand];
    RowCounts([], Received);
    RowCounts(Stocked.ledger, LockedRow);
    RowCounts(Ordered.ledger, ByHand);
  }

  lemma GoodsArrive()
    ensures Apply(Apply(Empty, OverRelease[0]).db, OverRelease[1]).db == Stocked
  {
    hide BalanceOf;
    assert RowsOf(Command(In, 0, 5, "manual", 1)) == [Received];
  }

  lemma OrderIsBuilt()
    ensures NewOrder(Request, Snapshot(Stocked.catalogue, Request.items), ExpiresAt(0, 30)) == Sold
  {
    assert Snapshot(Stocked.catalogue, Request.items) == Items;
    assert Items == [] + [Items[0]];
    Append([], Items[0], LineTotal);
  }

  lemma OrderIsAdded()
    ensures AddOrder(Stocked, Sold).db == Ordered
  {
    assert Items[..0] == [];
    assert OrderRows(Items, 0, Lock, -1) == [LockedRow];
  }

  lemma LockIsAllowed()
    ensures Lockable(Stocked.ledger, Request.items)
  {
    hide OnHand; hide Locked;
    LedgerSums();
  }

  lemma OrderIsTaken()
    ensures CreateOrder(Stocked, Request, 0, 30).db == Ordered
  {
    RequestIsValid();
    LockIsAllowed();
    OrderIsBuilt();
    OrderIsAdded();
    hide AddOrder; hide NewOrder; hide Snapshot; hide Lockable; hide ValidOrderRequest; hide ExpiresAt;
  }

  lemma HandReleaseIsTaken()
    ensures ExecuteCommand(Ordered, Command(Unlock, 0, 3, "manual", 2)).db == Released
  {
    hide OnHand; hide Locked;
    LedgerSums();
    assert RowsOf(Command(Unlock, 0, 3, "manual", 2)) == [ByHand];
  }

  lemma CancelOverdraws()
    ensures Locked(CancelOrder(Released, 0).db.ledger, 0) == -3
  {
    assert Items[..0] == [];
    var release := Row(Key(0, Unlock, "order", 0), 3);
    assert OrderRows(Items, 0, Unlock, 1) == [release];
    hide OnHand; hide Locked;
    assert CancelOrder(Released, 0).db.ledger == Released.ledger + [release];
    LedgerSums();
    RowCounts(Released.ledger, release);
  }

  lemma RunExtends(db: Db, steps: seq<Step>, n: nat)
    requires Valid(db) && n < |steps|
    ensures Run(db, steps[..n]).Linked()
    ensures Run(db, steps[..n + 1]) == Apply(Run(db, steps[..n]), steps[n]).db
  {
    assert steps[..n + 1][..n] == steps[..n];
  }

  lemma OrderedIsReached()
    ensures Reach(OverRelease[..3]) == Ordered
  {
    hide Valid; hide CreateOrder; hide ExecuteCommand; hide Run;
    EmptyIsValid();
    GoodsArrive();
    OrderIsTaken();
    RunNothing(OverRelease);
    RunExtends(Empty, OverRelease, 0);
    RunExtends(Empty, OverRelease, 1);
    RunExtends(Empty, OverRelease, 2);
  }

  lemma RunNothing(steps: seq<Step>)
    requires Valid(Empty)
    ensures Run(Empty, steps[..0]) == Empty
  {
  }

  /** The hand release is accepted, and the run ends with a lock balance of minus three. */
  lemma HandReleaseOversells()
    ensures Locked(Reach(OverRelease).ledger, 0) == -3
  {
    hide Valid; hide CancelOrder; hide ExecuteCommand; hide Locked; hide Run;
    EmptyIsValid();
    OrderedIsReached();
    HandReleaseIsTaken();
    CancelOverdraws();
    RunExtends(Empty, OverRelease, 3);
    RunExtends(Empty, OverRelease, 4);
    assert OverRelease[..5] == OverRelease;
  }
}
