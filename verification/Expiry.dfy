/**
 The expiry sweep over what its scan found. Each order is closed in a transaction of its own, so one
 that cannot be closed ends the sweep and keeps every later order waiting.
 */
module Expiry {
  import opened Wrappers
  import opened Inventory
  import opened Tables
  import opened Orders
  import opened Steps
  import opened Books
  import opened Runs
  import opened Stock
  import opened StockSafety
  import opened ReservedKeys

  /** The orders after the first `n` candidates were closed. */
  ghost predicate Closed(before: seq<Order>, after: seq<Order>, candidates: seq<nat>, n: nat)
    requires n <= |candidates|
  {
    && |after| == |before|
    && forall o :: 0 <= o < |before| ==>
      after[o] == if o in candidates[..n] then before[o].(status := Expired) else before[o]
  }

  /** Orders are only touched by their own turn. */
  ghost predicate Distinct(orders: seq<Order>, candidates: seq<nat>, now: int) {
    && (forall k :: 0 <= k < |candidates| ==> candidates[k] < |orders| && Due(orders[candidates[k]], now))
    && (forall j, k :: 0 <= j < k < |candidates| ==> candidates[j] != candidates[k])
  }

  // ----------------------------------------------------------- what a scan finds

  ghost function DueOrders(orders: seq<Order>, now: int): set<nat> {
    set o | 0 <= o < |orders| && Due(orders[o], now)
  }

  function Listed(candidates: seq<nat>): set<nat> {
    set c | c in candidates
  }

  lemma {:induction false} AsManyAsListed(candidates: seq<nat>)
    requires forall j, k :: 0 <= j < k < |candidates| ==> candidates[j] != candidates[k]
    ensures |Listed(candidates)| == |candidates|
  {
    if |candidates| > 0 {
      var n := |candidates| - 1;
      AsManyAsListed(candidates[..n]);
      assert candidates == candidates[..n] + [candidates[n]];
      assert Listed(candidates) == Listed(candidates[..n]) + {candidates[n]};
      assert candidates[n] !in Listed(candidates[..n]);
    }
  }

  /** A scan finds every order that is due, unless there are more than its limit, which is one to a hundred. */
  lemma ScanFinds(orders: seq<Order>, candidates: seq<nat>, limit: int, now: int)
    requires IsScan(orders, candidates, limit, now)
    ensures var due, found := DueOrders(orders, now), Listed(candidates);
            && found <= due && |found| == |candidates| <= 100
            && (1 <= limit <= 100 ==> if |due| <= limit then found == due else |candidates| == limit)
            && (limit < 1 ==> if |due| <= 1 then found == due else |candidates| == 1)
            && (limit > 100 ==> if |due| <= 100 then found == due else |candidates| == 100)
    ensures forall o | o in DueOrders(orders, now) && o !in candidates ::
              forall k :: 0 <= k < |candidates| ==> orders[candidates[k]].expiresAt <= orders[o].expiresAt
  {
    var due, found := DueOrders(orders, now), Listed(candidates);
    AsManyAsListed(candidates);
    if o :| o in due && o !in found {
      Strict(found, due, o);
    } else {
      assert found == due;
    }
  }

  lemma Strict(smaller: set<nat>, larger: set<nat>, o: nat)
    requires smaller <= larger && o in larger && o !in smaller
    ensures |smaller| < |larger|
  {
    assert larger == smaller + (larger - smaller);
  }

  // --------------------------------------------------------------- one sweep

  lemma CloseOne(db: Db, orders: seq<Order>, candidates: seq<nat>, n: nat, now: int)
    requires n < |candidates| && Distinct(orders, candidates, now) && Closed(orders, db.orders, candidates, n)
    ensures var outcome := ExpireOrder(db, candidates[n], now);
            && candidates[n] < |db.orders| && db.orders[candidates[n]] == orders[candidates[n]]
            && outcome == CloseOrder(db, candidates[n], Expired)
            && (outcome.result.Err? ==> outcome.db == db)
            && (outcome.result.Ok? ==> outcome.result == Ok(1) && Closed(orders, outcome.db.orders, candidates, n + 1))
  {
    hide Insertable;
    assert candidates[..n + 1] == candidates[..n] + [candidates[n]];
    forall k | 0 <= k < n ensures candidates[..n][k] != candidates[n] {
      assert candidates[..n][k] == candidates[k];
    }
  }

  /** Closing other orders takes none of an order's keys. */
  lemma {:induction false} SweepLeavesKeys(
    db: Db, candidates: seq<nat>, n: nat, now: int, o: nat, sku: nat)
    requires n <= |candidates| && o !in candidates[..n]
    ensures KeyUsed(ExpireAll(db, candidates, n, now).db.ledger, ReleaseKey(sku, o)) <==>
              KeyUsed(db.ledger, ReleaseKey(sku, o))
  {
    hide KeyUsed; hide CloseOrder;
    if n > 0 {
      assert candidates[n - 1] in candidates[..n];
      assert o !in candidates[..n - 1] by {
        assert candidates[..n - 1] == candidates[..n][..n - 1];
      }
      SweepLeavesKeys(db, candidates, n - 1, now, o, sku);
      var before := ExpireAll(db, candidates, n - 1, now).db;
      if candidates[n - 1] < |before.orders| {
        CloseTakesItsOwn(before, candidates[n - 1], Expired, ReleaseKey(sku, o));
      }
    }
  }

  /** An order whose release keys are free. */
  ghost predicate Closable(db: Db, o: nat)
    requires o < |db.orders|
  {
    forall i :: 0 <= i < |db.orders[o].items| ==> !KeyUsed(db.ledger, ReleaseKey(db.orders[o].items[i].sku, o))
  }

  /** A sweep gets as far as every candidate before that point can be closed, and closes exactly those. */
  lemma {:induction false} SweepGoesOnIff(db: Db, candidates: seq<nat>, n: nat, now: int)
    requires n <= |candidates| && Distinct(db.orders, candidates, now)
    requires forall o :: 0 <= o < |db.orders| ==> OrderShape(db.orders[o])
    ensures var sweep := ExpireAll(db, candidates, n, now);
            && (sweep.result.Ok? <==> forall k :: 0 <= k < n ==> Closable(db, candidates[k]))
            && (sweep.result.Ok? ==>
                  sweep.result.value == candidates[..n] && Closed(db.orders, sweep.db.orders, candidates, n))
  {
    hide CloseOrder; hide ExpireOrder; hide Closable; hide OrderShape; hide Distinct; hide Closed;
    if n == 0 {
      NothingClosed(db.orders, candidates);
    } else {
      SweepGoesOnIff(db, candidates, n - 1, now);
      var before := ExpireAll(db, candidates, n - 1, now);
      if before.result.Ok? {
        CloseOne(before.db, db.orders, candidates, n - 1, now);
        TurnSucceedsIff(db, candidates, n - 1, now);
        assert candidates[..n] == candidates[..n - 1] + [candidates[n - 1]];
      }
    }
  }

  lemma NothingClosed(orders: seq<Order>, candidates: seq<nat>)
    ensures Closed(orders, orders, candidates, 0) && candidates[..0] == []
  {
  }

  lemma TurnSucceedsIff(db: Db, candidates: seq<nat>, n: nat, now: int)
    requires n < |candidates| && Distinct(db.orders, candidates, now)
    requires forall o :: 0 <= o < |db.orders| ==> OrderShape(db.orders[o])
    requires var before := ExpireAll(db, candidates, n, now).db;
             candidates[n] < |before.orders| && before.orders[candidates[n]] == db.orders[candidates[n]]
    ensures CloseOrder(ExpireAll(db, candidates, n, now).db, candidates[n], Expired).result.Ok? <==>
              Closable(db, candidates[n])
  {
    hide CloseOrder; hide KeyUsed; hide ExpireAll; hide OrderShape;
    var before, o := ExpireAll(db, candidates, n, now).db, candidates[n];
    var items := db.orders[o].items;
    CloseNeedsFreeKeys(before, o, Expired);
    assert o !in candidates[..n] by {
      assert forall k :: 0 <= k < n ==> candidates[..n][k] == candidates[k];
    }
    forall i | 0 <= i < |items|
      ensures KeyUsed(before.ledger, ReleaseKey(items[i].sku, o)) <==> KeyUsed(db.ledger, ReleaseKey(items[i].sku, o))
    {
      SweepLeavesKeys(db, candidates, n, now, o, items[i].sku);
    }
  }

  lemma ScanIsDistinct(orders: seq<Order>, candidates: seq<nat>, limit: int, now: int)
    requires IsScan(orders, candidates, limit, now)
    ensures Distinct(orders, candidates, now)
  {
  }

  lemma ShapesOf(db: Db)
    requires Valid(db)
    ensures forall o :: 0 <= o < |db.orders| ==> OrderShape(db.orders[o])
  {
  }

  /**
   In every state at all: a sweep succeeds iff every order its scan found can be closed. It then has
   expired exactly these, and when the scan found fewer than the limit, no order is due any more.
   */
  lemma SweepSucceedsIff(db: Db, candidates: seq<nat>, limit: int, now: int)
    requires Valid(db) && IsScan(db.orders, candidates, limit, now)
    ensures var sweep := ExpireAll(db, candidates, |candidates|, now);
            && (sweep.result.Ok? <==> forall k :: 0 <= k < |candidates| ==> Closable(db, candidates[k]))
            && (sweep.result.Ok? ==>
                  && sweep.result.value == candidates && Closed(db.orders, sweep.db.orders, candidates, |candidates|)
                  && (|candidates| < PageSize(limit) ==>
                        forall o :: 0 <= o < |sweep.db.orders| ==> !Due(sweep.db.orders[o], now)))
  {
    hide ExpireAll; hide Closable; hide Valid; hide OrderShape;
    ScanIsDistinct(db.orders, candidates, limit, now);
    ShapesOf(db);
    SweepGoesOnIff(db, candidates, |candidates|, now);
    assert candidates[..|candidates|] == candidates;
  }

  lemma WaitingOrderIsClosable(db: Db, o: nat)
    requires LedgerExact(db) && o < |db.orders| && db.orders[o].status.Pending?
    ensures Closable(db, o)
  {
    hide LedgerExact; hide KeyUsed;
    forall i | 0 <= i < |db.orders[o].items| ensures !KeyUsed(db.ledger, ReleaseKey(db.orders[o].items[i].sku, o)) {
      FreshOrderKeys(db, o, db.orders[o].items[i].sku);
    }
  }

  /** When direct commands keep off the reserved types, every sweep expires all its scan found. */
  lemma SweepsAlwaysSucceed(steps: seq<Step>, candidates: seq<nat>, limit: int, now: int)
    requires UnreservedRun(steps) && IsScan(Reach(steps).orders, candidates, limit, now)
    ensures ExpireAll(Reach(steps), candidates, |candidates|, now).result == Ok(candidates)
  {
    hide Reach; hide Valid; hide LedgerExact; hide Conserved; hide Run; hide ExpireAll; hide Closable; hide UnreservedRun;
    AccountedReach(steps);
    var db := Reach(steps);
    forall k | 0 <= k < |candidates| ensures Closable(db, candidates[k]) {
      WaitingOrderIsClosable(db, candidates[k]);
    }
    SweepSucceedsIff(db, candidates, limit, now);
  }

  lemma AccountedReach(steps: seq<Step>)
    requires UnreservedRun(steps)
    ensures Accounted(Reach(steps))
  {
    hide Run; hide Valid; hide Accounted; hide UnreservedRun;
    EmptyIsSound();
    RunKeepsStock(Empty, steps);
  }

  /**
   One blocked order starves the rest: while a due order cannot be closed, no sweep over any scan
   expires an order that comes after it.
   */
  lemma BlockedOrderStarvesTheRest(
    db: Db, candidates: seq<nat>, limit: int, now: int, blocked: nat, i: nat, o: nat)
    requires Valid(db) && IsScan(db.orders, candidates, limit, now)
    requires Blocked(db, blocked, i) && Due(db.orders[blocked], now)
    requires o < |db.orders| && Before(db.orders, blocked, o)
    ensures var after := ExpireAll(db, candidates, |candidates|, now).db;
            o < |after.orders| && after.orders[o] == db.orders[o]
  {
    hide ExpireAll; hide Valid; hide OrderShape; hide KeyUsed;
    ScanIsDistinct(db.orders, candidates, limit, now);
    ShapesOf(db);
    assert !Closable(db, blocked);
    if o in candidates {
      var k :| 0 <= k < |candidates| && candidates[k] == o;
      assert blocked in candidates;
      var b :| 0 <= b < |candidates| && candidates[b] == blocked;
      assert b < k;
      SweepStopsAt(db, candidates, |candidates|, now, b, o);
    } else {
      OthersStay(db, candidates, |candidates|, now, o);
    }
  }

  lemma {:induction false} OthersStay(db: Db, candidates: seq<nat>, n: nat, now: int, o: nat)
    requires n <= |candidates| && o < |db.orders| && o !in candidates[..n]
    ensures var after := ExpireAll(db, candidates, n, now).db; o < |after.orders| && after.orders[o] == db.orders[o]
  {
    hide Insertable; hide OrderRows;
    if n > 0 {
      assert candidates[n - 1] in candidates[..n];
      assert candidates[..n - 1] == candidates[..n][..n - 1];
      OthersStay(db, candidates, n - 1, now, o);
    }
  }

  lemma {:induction false} SweepStopsAt(db: Db, candidates: seq<nat>, n: nat, now: int, b: nat, o: nat)
    requires b < |candidates| && n <= |candidates| && o < |db.orders| && o !in candidates[..b + 1]
    requires Distinct(db.orders, candidates, now) && !Closable(db, candidates[b])
    requires forall p :: 0 <= p < |db.orders| ==> OrderShape(db.orders[p])
    ensures var after := ExpireAll(db, candidates, n, now).db; o < |after.orders| && after.orders[o] == db.orders[o]
  {
    hide ExpireOrder; hide Closable; hide OrderShape;
    if n <= b + 1 {
      assert candidates[..n] <= candidates[..b + 1];
      forall k | 0 <= k < n ensures candidates[..n][k] != o {
        assert candidates[..b + 1][k] == candidates[k];
      }
      OthersStay(db, candidates, n, now, o);
    } else {
      SweepStopsAt(db, candidates, n - 1, now, b, o);
      SweepGoesOnIff(db, candidates, n - 1, now);
    }
  }
}
