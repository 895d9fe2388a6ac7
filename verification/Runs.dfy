/** Runs of any length, and what holds of orders, payments, refunds and shipments after each. */
module Runs {
  import opened Summation
  import opened Tables
  import opened Orders
  import opened Refunds
  import opened Shipments
  import opened Steps
  import opened Books
  import opened BooksKept
  import Text

  const Empty := Db(map[], [], [], [], [], [], [])

  lemma EmptyIsValid()
    ensures Valid(Empty)
  {
  }

  /** No sequence of transactions, accepted or refused, leads out of the valid books. */
  function Run(db: Db, steps: seq<Step>): (after: Db)
    requires Valid(db)
    ensures Valid(after) && after.Linked()
  {
    ValidIsLinked(db);
    if |steps| == 0 then db
    else
      var before := Run(db, steps[..|steps| - 1]);
      StepKeepsBooks(before, steps[|steps| - 1]);
      ValidIsLinked(Apply(before, steps[|steps| - 1]).db);
      Apply(before, steps[|steps| - 1]).db
  }

  /** The tables after a run from the empty ones. */
  function Reach(steps: seq<Step>): (db: Db)
    ensures Valid(db) && db.Linked()
  {
    EmptyIsValid();
    Run(Empty, steps)
  }

  lemma {:induction false} RunConcat(db: Db, first: seq<Step>, second: seq<Step>)
    requires Valid(db)
    ensures Run(db, first + second) == Run(Run(db, first), second)
  {
    hide Valid; hide Apply;
    if |second| == 0 {
      assert first + second == first;
    } else {
      var n := |second| - 1;
      RunConcat(db, first, second[..n]);
      assert (first + second)[..|first + second| - 1] == first + second[..n];
    }
  }

  lemma RunOne(db: Db, step: Step)
    requires Valid(db)
    ensures db.Linked() && Run(db, [step]) == Apply(db, step).db
  {
    ValidIsLinked(db);
    assert [step][..0] == [];
    assert Run(db, []) == db;
  }

  // -------------------------------------------------------------- one payment

  lemma TwoWinners(payments: seq<Payment>, o: nat, i: nat, j: nat)
    requires i < |payments| && j < |payments| && i != j
    requires WinOf(o)(payments[i]) == 1 && WinOf(o)(payments[j]) == 1
    ensures Wins(payments, o) >= 2
  {
    var loser := payments[i].(status := PaymentPending);
    var rest := payments[i := loser];
    Update(payments, i, loser, WinOf(o));
    NonNegative(rest, WinOf(o));
    assert rest[j] in rest;
  }

  lemma SomeWinner(payments: seq<Payment>, o: nat) returns (i: nat)
    requires Wins(payments, o) > 0
    ensures i < |payments| && WinOf(o)(payments[i]) == 1
  {
    if forall p | p in payments :: WinOf(o)(p) == 0 {
      Zero(payments, WinOf(o));
    }
    i :| i < |payments| && WinOf(o)(payments[i]) != 0;
  }

  /** However many payments are opened on an order, one at most succeeds, and it pays the total. */
  lemma OnePaymentWins(steps: seq<Step>, o: nat)
    requires o < |Reach(steps).orders|
    ensures var db := Reach(steps);
            && (PaidOrLater(db.orders[o].status) <==> exists i :: 0 <= i < |db.payments| && SucceededFor(o)(db.payments[i]))
            && (forall i, j | 0 <= i < |db.payments| && 0 <= j < |db.payments|
                  && SucceededFor(o)(db.payments[i]) && SucceededFor(o)(db.payments[j]) :: i == j)
            && (forall i :: 0 <= i < |db.payments| && SucceededFor(o)(db.payments[i]) ==>
                  db.payments[i].amount == db.orders[o].total)
  {
    var db := Reach(steps);
    OnePaymentWinsIn(db, o);
  }

  lemma OnePaymentWinsIn(db: Db, o: nat)
    requires Valid(db) && o < |db.orders|
    ensures PaidOrLater(db.orders[o].status) <==> exists i :: 0 <= i < |db.payments| && SucceededFor(o)(db.payments[i])
    ensures forall i, j | 0 <= i < |db.payments| && 0 <= j < |db.payments|
              && SucceededFor(o)(db.payments[i]) && SucceededFor(o)(db.payments[j]) :: i == j
    ensures forall i :: 0 <= i < |db.payments| && SucceededFor(o)(db.payments[i]) ==>
              db.payments[i].amount == db.orders[o].total
  {
    if PaidOrLater(db.orders[o].status) {
      var i := SomeWinner(db.payments, o);
      assert SucceededFor(o)(db.payments[i]);
    }
    forall i | 0 <= i < |db.payments| && SucceededFor(o)(db.payments[i]) ensures Wins(db.payments, o) >= 1 {
      NonNegative(db.payments, WinOf(o));
      assert db.payments[i] in db.payments;
    }
    forall i, j | 0 <= i < |db.payments| && 0 <= j < |db.payments|
                  && SucceededFor(o)(db.payments[i]) && SucceededFor(o)(db.payments[j])
      ensures i == j
    {
      if i != j {
        TwoWinners(db.payments, o, i, j);
      }
    }
  }

  // ------------------------------------------------------------------ refunds

  lemma RefundedItemsWithin(db: Db, o: nat)
    requires Valid(db) && o < |db.orders|
    ensures forall i :: 0 <= i < |db.orders[o].items| ==>
              0 <= RefundedQty(db.refunds, o, i) <= ReservedQty(db.refunds, o, i) <= db.orders[o].items[i].quantity
  {
    forall i | 0 <= i < |db.orders[o].items|
      ensures 0 <= RefundedQty(db.refunds, o, i) <= ReservedQty(db.refunds, o, i) <= db.orders[o].items[i].quantity
    {
      RefundedWithinReserved(db.orders, db.refunds, o, i);
    }
  }

  lemma RefundedWithinPaid(db: Db, o: nat)
    requires Valid(db) && o < |db.orders|
    ensures RefundedAmount(db.refunds, o) <= ReservedAmount(db.refunds, o) <= db.orders[o].total
    ensures !PaidOrLater(db.orders[o].status) ==> RefundedAmount(db.refunds, o) == 0
  {
    assert forall r | r in db.refunds :: RefundShape(db.orders, r);
    AtMost(db.refunds, SucceededAmountOf(o), ActiveAmountOf(o));
    if !PaidOrLater(db.orders[o].status) {
      Zero(db.refunds, SucceededAmountOf(o));
    }
  }

  /** What comes back never exceeds what was bought, item by item, nor what was paid. */
  lemma RefundsStayWithinTheOrder(steps: seq<Step>, o: nat)
    requires o < |Reach(steps).orders|
    ensures var db := Reach(steps);
            && (forall i :: 0 <= i < |db.orders[o].items| ==>
                  0 <= RefundedQty(db.refunds, o, i) <= ReservedQty(db.refunds, o, i) <= db.orders[o].items[i].quantity)
            && RefundedAmount(db.refunds, o) <= ReservedAmount(db.refunds, o) <= db.orders[o].total
            && (forall p :: 0 <= p < |db.payments| && SucceededFor(o)(db.payments[p]) ==>
                  RefundedAmount(db.refunds, o) <= db.payments[p].amount)
            && (!PaidOrLater(db.orders[o].status) ==> RefundedAmount(db.refunds, o) == 0)
  {
    hide *;
    var db := Reach(steps);
    RefundedItemsWithin(db, o);
    RefundedWithinPaid(db, o);
    OnePaymentWinsIn(db, o);
  }

  /** A weight for each item, added up at the items' prices. */
  function Weigh(items: seq<OrderItem>, weight: nat -> int, n: nat): int
    requires n <= |items|
  {
    if n == 0 then 0 else Weigh(items, weight, n - 1) + items[n - 1].unitPrice * weight(n - 1)
  }

  lemma {:induction false} WeighPlus(items: seq<OrderItem>, f: nat -> int, g: nat -> int, h: nat -> int, n: nat)
    requires n <= |items|
    requires forall i: nat | i < n :: h(i) == f(i) + g(i)
    ensures Weigh(items, h, n) == Weigh(items, f, n) + Weigh(items, g, n)
  {
    if n > 0 {
      WeighPlus(items, f, g, h, n - 1);
    }
  }

  lemma {:induction false} WeighZero(items: seq<OrderItem>, f: nat -> int, n: nat)
    requires n <= |items|
    requires forall i: nat | i < n :: f(i) == 0
    ensures Weigh(items, f, n) == 0
  {
    if n > 0 {
      WeighZero(items, f, n - 1);
    }
  }

  lemma {:induction false} WeighOne(items: seq<OrderItem>, f: nat -> int, item: nat, n: nat)
    requires item < n <= |items|
    requires forall i: nat | i < n && i != item :: f(i) == 0
    ensures Weigh(items, f, n) == items[item].unitPrice * f(item)
  {
    if item == n - 1 {
      WeighZero(items, f, n - 1);
    } else {
      WeighOne(items, f, item, n - 1);
    }
  }

  function LineWeight(lines: seq<RefundLine>): nat -> int {
    (i: nat) => LineQty(lines, i)
  }

  function RefundedWeight(refunds: seq<Refund>, o: nat): nat -> int {
    (i: nat) => RefundedQty(refunds, o, i)
  }

  /** A refund's amount is the worth of its lines. */
  lemma {:induction false} AmountIsWorth(items: seq<OrderItem>, lines: seq<RefundLine>)
    requires LinesOf(lines, items)
    requires forall k :: 0 <= k < |lines| ==> lines[k].amount == items[lines[k].item].unitPrice * lines[k].quantity
    ensures Sum(lines, AmountOf) == Weigh(items, LineWeight(lines), |items|)
  {
    if |lines| == 0 {
      WeighZero(items, LineWeight(lines), |items|);
    } else {
      var last := lines[|lines| - 1];
      var front := lines[..|lines| - 1];
      AmountIsWorth(items, front);
      var one := (i: nat) => if i == last.item then last.quantity as int else 0;
      WeighOne(items, one, last.item, |items|);
      WeighPlus(items, LineWeight(front), one, LineWeight(lines), |items|);
    }
  }

  lemma NothingIsWorth(items: seq<OrderItem>, o: nat)
    ensures RefundedAmount([], o) == Weigh(items, RefundedWeight([], o), |items|)
  {
    WeighZero(items, RefundedWeight([], o), |items|);
  }

  /** What one more refund adds to the money and to the quantities. */
  lemma LastIsWorth(orders: seq<Order>, refunds: seq<Refund>, o: nat)
    requires o < |orders| && |refunds| > 0 && RefundShape(orders, refunds[|refunds| - 1])
    ensures var items, front := orders[o].items, refunds[..|refunds| - 1];
            RefundedAmount(refunds, o) - RefundedAmount(front, o) ==
            Weigh(items, RefundedWeight(refunds, o), |items|) - Weigh(items, RefundedWeight(front, o), |items|)
  {
    hide Weigh;
    var items, last := orders[o].items, refunds[|refunds| - 1];
    var front := refunds[..|refunds| - 1];
    var weight := if last.orderId == o && last.status.RefundSucceeded? then LineWeight(last.lines) else (i: nat) => 0;
    if last.orderId == o && last.status.RefundSucceeded? {
      AmountIsWorth(items, last.lines);
    } else {
      WeighZero(items, weight, |items|);
    }
    WeighPlus(items, RefundedWeight(front, o), weight, RefundedWeight(refunds, o), |items|);
  }

  /** The money refunded on an order is the worth of the quantities refunded. */
  lemma {:induction false} RefundedIsWorth(orders: seq<Order>, refunds: seq<Refund>, o: nat)
    requires o < |orders| && forall r | r in refunds :: RefundShape(orders, r)
    ensures RefundedAmount(refunds, o) == Weigh(orders[o].items, RefundedWeight(refunds, o), |orders[o].items|)
  {
    hide Weigh; hide RefundedAmount; hide RefundedWeight; hide RefundShape;
    if |refunds| == 0 {
      NothingIsWorth(orders[o].items, o);
      assert refunds == [];
    } else {
      RefundedIsWorth(orders, refunds[..|refunds| - 1], o);
      LastIsWorth(orders, refunds, o);
    }
  }

  lemma {:induction false} FullWorth(items: seq<OrderItem>, weight: nat -> int, n: nat)
    requires n <= |items|
    requires forall i: nat | i < n :: weight(i) == items[i].quantity
    ensures Weigh(items, weight, n) == Subtotal(items[..n])
  {
    if n > 0 {
      FullWorth(items, weight, n - 1);
      assert items[..n][..n - 1] == items[..n - 1];
    }
  }

  /** A fully refunded order gave back its whole subtotal, which the total must have covered. */
  lemma RefundedOrderIsWhole(db: Db, o: nat)
    requires Valid(db) && o < |db.orders| && db.orders[o].status.Refunded?
    ensures RefundedAmount(db.refunds, o) == db.orders[o].subtotal
    ensures db.orders[o].request.discount <= db.orders[o].request.shippingFee
  {
    var items := db.orders[o].items;
    var weight := RefundedWeight(db.refunds, o);
    assert forall r | r in db.refunds :: RefundShape(db.orders, r);
    assert StatusExact(db.orders, db.refunds, o);
    forall i: nat | i < |items| ensures weight(i) == items[i].quantity {
      RefundedWithinReserved(db.orders, db.refunds, o, i);
    }
    FullWorth(items, weight, |items|);
    assert items[..|items|] == items;
    RefundedIsWorth(db.orders, db.refunds, o);
    AtMost(db.refunds, SucceededAmountOf(o), ActiveAmountOf(o));
    assert OrderShape(db.orders[o]);
  }

  /** The order status tells exactly how far the order was refunded, in every reachable state. */
  lemma RefundStatusIsExact(steps: seq<Step>, o: nat)
    requires o < |Reach(steps).orders|
    ensures var db := Reach(steps);
            && (db.orders[o].status.Refunded? <==>
                forall i :: 0 <= i < |db.orders[o].items| ==>
                  RefundedQty(db.refunds, o, i) == db.orders[o].items[i].quantity)
            && (db.orders[o].status.PartiallyRefunded? <==>
                && SomeRefunded(db.refunds, o)
                && exists i :: 0 <= i < |db.orders[o].items|
                     && RefundedQty(db.refunds, o, i) < db.orders[o].items[i].quantity)
            && (db.orders[o].status.Refunded? ==>
                && db.orders[o].request.discount <= db.orders[o].request.shippingFee
                && forall r :: 0 <= r < |db.refunds| && db.refunds[r].orderId == o ==> !Open(db.refunds[r].status))
  {
    var db := Reach(steps);
    var items := db.orders[o].items;
    assert StatusExact(db.orders, db.refunds, o);
    forall i: nat | i < |items| ensures RefundedQty(db.refunds, o, i) <= items[i].quantity {
      RefundedWithinReserved(db.orders, db.refunds, o, i);
    }
    if db.orders[o].status.Refunded? {
      RefundedOrderIsWhole(db, o);
      forall r | 0 <= r < |db.refunds| && db.refunds[r].orderId == o ensures !Open(db.refunds[r].status) {
        if Open(db.refunds[r].status) {
          OpenRefundLeavesOrderOpen(db, r);
        }
      }
    }
  }

  /** A refund has one transaction at most, and the two always tell the same story. */
  lemma RefundHasOneTransaction(steps: seq<Step>, r: nat)
    requires r < |Reach(steps).refunds|
    ensures var db := Reach(steps);
            && (forall t, u | 0 <= t < |db.transactions| && 0 <= u < |db.transactions|
                  && ForRefund(r)(db.transactions[t]) && ForRefund(r)(db.transactions[u]) :: t == u)
            && (forall t :: 0 <= t < |db.transactions| && ForRefund(r)(db.transactions[t]) ==>
                  Agree(db.transactions[t].status, db.refunds[r].status))
            && (db.refunds[r].status.RefundSucceeded? || db.refunds[r].status.RefundFailed? ==>
                exists t :: 0 <= t < |db.transactions| && ForRefund(r)(db.transactions[t]))
  {
    var db := Reach(steps);
    var found := Find(db.transactions, ForRefund(r));
    assert found.Some? ==> ForRefund(r)(db.transactions[found.value]);
  }

  // ---------------------------------------------------------------- shipments

  /** Shipped quantities and the order status agree in every reachable state. */
  lemma ShipmentsMatchStatus(steps: seq<Step>, o: nat)
    requires o < |Reach(steps).orders|
    ensures var db := Reach(steps);
            var items := db.orders[o].items;
            && (forall i :: 0 <= i < |items| ==> 0 <= ShippedQty(db.shipments, o, i) <= items[i].quantity)
            && (db.orders[o].status.Fulfilled? ==>
                forall i :: 0 <= i < |items| ==> ShippedQty(db.shipments, o, i) == items[i].quantity)
            && (db.orders[o].status.Paid? ==>
                exists i :: 0 <= i < |items| && ShippedQty(db.shipments, o, i) < items[i].quantity)
            && (!PaidOrLater(db.orders[o].status) ==>
                forall i :: 0 <= i < |items| ==> ShippedQty(db.shipments, o, i) == 0)
  {
    assert ShippedExact(Reach(steps).orders, Reach(steps).shipments, o);
  }

  /** Shipping what remains leaves nothing to ship. */
  lemma RemainingCompletes(db: Db, o: nat, shipment: Shipment)
    requires o < |db.orders| && ShippedExact(db.orders, db.shipments, o) && shipment.orderId == o
    requires shipment.lines == ShipmentLines(Remaining(db, o, |db.orders[o].items|))
    ensures FullyShipped(db.orders[o].items, db.shipments + [shipment], o)
  {
    var items := db.orders[o].items;
    var asks := Remaining(db, o, |items|);
    RemainingIs(db, o, |items|);
    forall i | 0 <= i < |items| ensures ShippedQty(db.shipments + [shipment], o, i) == items[i].quantity {
      AddedShipmentCounts(db, shipment, o, i);
      ShipLineQtyIs(shipment.lines, i);
      if Left(db, o, i) > 0 {
        var k := RemainingHas(db, o, |items|, i);
        assert shipment.lines[k].item == i;
      } else {
        assert forall k :: 0 <= k < |shipment.lines| ==> shipment.lines[k].item == asks[k].item.index;
      }
    }
  }

  /** A paid order always has something to ship, and nothing that remains is refused. */
  lemma RemainingIsAccepted(db: Db, o: nat)
    requires o < |db.orders| && ShippedExact(db.orders, db.shipments, o) && db.orders[o].status.Paid?
    ensures var asks := Remaining(db, o, |db.orders[o].items|);
            |asks| > 0 && ShipLinesRefusal(db, o, asks).None?
  {
    var items := db.orders[o].items;
    var asks := Remaining(db, o, |items|);
    var first :| 0 <= first < |items| && ShippedQty(db.shipments, o, first) < items[first].quantity;
    var at := RemainingHas(db, o, |items|, first);
    RemainingIs(db, o, |items|);
    forall k | 0 <= k < |asks| ensures ShipLineRefusal(db, o, asks[k]).None? {
    }
  }

  /** Leaving out the item list ships all that is left: the order is fulfilled. */
  lemma WholeShipmentCompletes(db: Db, o: nat, request: ShipmentRequest)
    requires Valid(db) && o < |db.orders| && db.orders[o].status.Paid?
    requires ValidShipmentRequest(request) && request.lines.None?
    requires !TrackingTaken(db.shipments, Text.Trim(request.carrierCode), Text.Trim(request.trackingNo))
    ensures CreateShipment(db, o, request).result.Ok?
    ensures CreateShipment(db, o, request).db.orders[o].status.Fulfilled?
  {
    assert ShippedExact(db.orders, db.shipments, o);
    RemainingIsAccepted(db, o);
    var lines := ShipmentLines(Remaining(db, o, |db.orders[o].items|));
    RemainingCompletes(db, o, Shipment(o, Text.Trim(request.carrierCode), Text.Trim(request.trackingNo), lines));
    hide Valid; hide FullyShipped; hide ShippedExact; hide Remaining; hide ShipLinesRefusal;
  }
}
