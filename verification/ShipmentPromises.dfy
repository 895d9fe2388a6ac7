/** What shipping a paid order, whole or in parts, promises, in terms of the request and the tables alone. */
module ShipmentPromises {
  import opened Wrappers
  import opened Tables
  import opened Shipments
  import opened Books
  import opened BooksKept
  import opened Runs
  import Text

  predicate Named(value: string, width: nat) {
    Text.Trim(value) != "" && |Text.Trim(value)| <= width
  }

  predicate WellFormed(request: ShipmentRequest) {
    && Named(request.carrierCode, 40) && Named(request.carrierName, 80) && Named(request.trackingNo, 100)
    && (request.lines.Some? ==>
          var lines := request.lines.value;
          && |lines| > 0
          && (forall i :: 0 <= i < |lines| ==> 0 < lines[i].quantity <= 0x1F_FFFF_FFFF_FFFF)
          && (forall i, j :: 0 <= i < j < |lines| ==> lines[i].item != lines[j].item))
  }

  /** No shipment has the carrier and tracking number yet. */
  ghost predicate NumberFree(db: Db, request: ShipmentRequest) {
    forall s :: 0 <= s < |db.shipments| ==>
      !(db.shipments[s].carrierCode == Text.Trim(request.carrierCode)
        && db.shipments[s].trackingNo == Text.Trim(request.trackingNo))
  }

  /** The line names an item of the order and asks for no more than is still to ship. */
  predicate FitsOrder(db: Db, orderId: nat, ask: LineAsk)
    requires orderId < |db.orders|
  {
    && ask.item.orderId == orderId && ask.item.index < |db.orders[orderId].items|
    && ask.quantity <= db.orders[orderId].items[ask.item.index].quantity - ShippedQty(db.shipments, orderId, ask.item.index)
  }

  lemma LinesFitIff(db: Db, orderId: nat, asks: seq<LineAsk>)
    requires orderId < |db.orders| && forall i :: 0 <= i < |asks| ==> asks[i].quantity > 0
    ensures ShipLinesRefusal(db, orderId, asks).None? <==>
              forall i :: 0 <= i < |asks| ==> FitsOrder(db, orderId, asks[i])
  {
    hide ShippedQty; hide ShipLinesRefusal;
    forall i | 0 <= i < |asks| ensures ShipLineRefusal(db, orderId, asks[i]).None? <==> FitsOrder(db, orderId, asks[i]) {
    }
    hide ShipLineRefusal; hide FitsOrder;
  }

  lemma AddingIsAcceptedIff(db: Db, orderId: nat, request: ShipmentRequest, asks: seq<LineAsk>)
    requires orderId < |db.orders|
    ensures AddShipment(db, orderId, request, asks).result.Ok? <==> NumberFree(db, request)
  {
    hide Text.Trim; hide FullyShipped;
  }

  /** What a request must meet, in terms of the order and what of it has shipped. */
  ghost predicate Accepts(db: Db, orderId: nat, request: ShipmentRequest) {
    && WellFormed(request) && orderId < |db.orders| && db.orders[orderId].status == Paid
    && (request.lines.Some? ==>
          forall i :: 0 <= i < |request.lines.value| ==> FitsOrder(db, orderId, request.lines.value[i]))
    && NumberFree(db, request)
  }

  /**
   A shipment with a list is accepted iff the request is well formed, the order is paid, every line fits
   what is still to ship and the tracking number is new. Parts of a line are as good as the whole.
   */
  lemma ListedShipmentIsAcceptedIff(db: Db, orderId: nat, request: ShipmentRequest)
    requires request.lines.Some?
    ensures CreateShipment(db, orderId, request).result.Ok? <==> Accepts(db, orderId, request)
  {
    hide Text.Trim; hide AddShipment; hide NumberFree; hide FitsOrder; hide ShipLinesRefusal; hide Remaining;
    if ValidShipmentRequest(request) && orderId < |db.orders| {
      LinesFitIff(db, orderId, request.lines.value);
      AddingIsAcceptedIff(db, orderId, request, request.lines.value);
    }
  }

  /** One without a list is accepted iff the request is well formed, the order is paid and the number new. */
  lemma WholeShipmentIsAcceptedIff(db: Db, orderId: nat, request: ShipmentRequest)
    requires Valid(db) && request.lines.None?
    ensures CreateShipment(db, orderId, request).result.Ok? <==> Accepts(db, orderId, request)
  {
    hide Text.Trim; hide AddShipment; hide NumberFree; hide ShipLinesRefusal; hide Remaining; hide Valid; hide ShippedExact;
    if ValidShipmentRequest(request) && orderId < |db.orders| && db.orders[orderId].status == Paid {
      ShippedOf(db, orderId);
      RemainingIsAccepted(db, orderId);
      AddingIsAcceptedIff(db, orderId, request, Remaining(db, orderId, |db.orders[orderId].items|));
    }
  }

  lemma ShippedOf(db: Db, orderId: nat)
    requires Valid(db) && orderId < |db.orders|
    ensures ShippedExact(db.orders, db.shipments, orderId)
  {
  }

  /** The first line that does not fit. */
  ghost predicate FirstMisfit(db: Db, orderId: nat, asks: seq<LineAsk>, i: nat)
    requires orderId < |db.orders| && i < |asks|
  {
    !FitsOrder(db, orderId, asks[i]) && forall j :: 0 <= j < i ==> FitsOrder(db, orderId, asks[j])
  }

  lemma {:induction false} FirstMisfitDecides(db: Db, orderId: nat, asks: seq<LineAsk>) returns (i: nat)
    requires orderId < |db.orders| && (forall k :: 0 <= k < |asks| ==> asks[k].quantity > 0)
    requires ShipLinesRefusal(db, orderId, asks).Some?
    ensures i < |asks| && FirstMisfit(db, orderId, asks, i)
    ensures ShipLinesRefusal(db, orderId, asks) ==
            if asks[i].item.orderId == orderId && asks[i].item.index < |db.orders[orderId].items|
            then Some(Conflict) else Some(NotFound)
    decreases |asks|
  {
    hide ShippedQty;
    var n := |asks| - 1;
    LinesFitIff(db, orderId, asks[..n]);
    if ShipLinesRefusal(db, orderId, asks[..n]).Some? {
      i := FirstMisfitDecides(db, orderId, asks[..n]);
    } else {
      i := n;
    }
  }

  /** Not found means: no such order, or the first line that does not fit names nothing of it. */
  lemma ListedShipmentNotFoundIff(db: Db, orderId: nat, request: ShipmentRequest)
    requires request.lines.Some?
    ensures CreateShipment(db, orderId, request).result == Err(NotFound) <==>
              && WellFormed(request)
              && (|| orderId >= |db.orders|
                  || (&& db.orders[orderId].status == Paid
                      && exists i :: 0 <= i < |request.lines.value| && FirstMisfit(db, orderId, request.lines.value, i) &&
                           !(request.lines.value[i].item.orderId == orderId
                             && request.lines.value[i].item.index < |db.orders[orderId].items|)))
  {
    hide Text.Trim; hide ShipLinesRefusal; hide FitsOrder;
    if ValidShipmentRequest(request) && orderId < |db.orders| && db.orders[orderId].status == Paid {
      var asks := request.lines.value;
      LinesFitIff(db, orderId, asks);
      if ShipLinesRefusal(db, orderId, asks).Some? {
        var i := FirstMisfitDecides(db, orderId, asks);
        assert forall k :: 0 <= k < |asks| && FirstMisfit(db, orderId, asks, k) ==> k == i;
      }
    }
  }

  /** A constraint means: all fits, but the tracking number is taken. */
  lemma ListedShipmentConstraintIff(db: Db, orderId: nat, request: ShipmentRequest)
    requires request.lines.Some?
    ensures CreateShipment(db, orderId, request).result == Err(Constraint) <==>
              && WellFormed(request) && orderId < |db.orders| && db.orders[orderId].status == Paid
              && (forall i :: 0 <= i < |request.lines.value| ==> FitsOrder(db, orderId, request.lines.value[i]))
              && !NumberFree(db, request)
  {
    hide Text.Trim; hide ShipLinesRefusal; hide FitsOrder; hide FullyShipped;
    if ValidShipmentRequest(request) && orderId < |db.orders| {
      LinesFitIff(db, orderId, request.lines.value);
      if ShipLinesRefusal(db, orderId, request.lines.value).Some? {
        var i := FirstMisfitDecides(db, orderId, request.lines.value);
      }
    }
  }

  /** How much of an item the request sends: its line, or without a list all that is left. */
  ghost predicate Sends(db: Db, orderId: nat, request: ShipmentRequest, item: nat, quantity: int)
    requires orderId < |db.orders| && item < |db.orders[orderId].items|
  {
    if request.lines.None? then
      quantity == db.orders[orderId].items[item].quantity - ShippedQty(db.shipments, orderId, item)
    else
      var lines := request.lines.value;
      || (exists k :: 0 <= k < |lines| && lines[k].item.index == item && lines[k].quantity == quantity)
      || (quantity == 0 && forall k :: 0 <= k < |lines| ==> lines[k].item.index != item)
  }

  lemma AcceptedAdds(db: Db, orderId: nat, request: ShipmentRequest)
    requires CreateShipment(db, orderId, request).result.Ok?
    ensures orderId < |db.orders| && db.orders[orderId].status == Paid && ValidShipmentRequest(request)
    ensures |Requested(db, orderId, request)| > 0 && ShipLinesRefusal(db, orderId, Requested(db, orderId, request)).None?
    ensures CreateShipment(db, orderId, request) == AddShipment(db, orderId, request, Requested(db, orderId, request))
  {
    hide Text.Trim; hide ShipLinesRefusal; hide Requested; hide ValidShipmentRequest; hide AddShipment;
  }

  /** The row an accepted request leaves, and the order's new status. */
  ghost predicate ShippedAs(db: Db, after: Db, orderId: nat, request: ShipmentRequest, lines: seq<ShipmentLine>)
    requires orderId < |db.orders|
  {
    && after == db.(shipments := after.shipments, orders := after.orders)
    && after.shipments == db.shipments +
         [Shipment(orderId, Text.Trim(request.carrierCode), Text.Trim(request.trackingNo), lines)]
    && after.orders == db.orders[orderId := db.orders[orderId].(status :=
         if forall i :: 0 <= i < |db.orders[orderId].items| ==>
              ShippedQty(after.shipments, orderId, i) == db.orders[orderId].items[i].quantity
         then Fulfilled else Paid)]
  }

  /** An accepted shipment is one row more; the order is fulfilled iff nothing is left to ship, and else stays paid. */
  lemma ShipmentWrites(db: Db, orderId: nat, request: ShipmentRequest)
    requires CreateShipment(db, orderId, request).result.Ok?
    ensures orderId < |db.orders|
    ensures CreateShipment(db, orderId, request).result == Ok(|db.shipments|)
    ensures ShippedAs(db, CreateShipment(db, orderId, request).db, orderId, request,
                      ShipmentLines(Requested(db, orderId, request)))
  {
    hide Text.Trim; hide ShipLinesRefusal; hide Requested; hide ValidShipmentRequest; hide CreateShipment; hide ShippedQty;
    hide TrackingTaken;
    AcceptedAdds(db, orderId, request);
    assert db.orders[orderId := db.orders[orderId]] == db.orders;
  }

  lemma {:induction false} SentIs(lines: seq<ShipmentLine>, asks: seq<LineAsk>, item: nat)
    requires |lines| == |asks|
    requires forall k :: 0 <= k < |asks| ==> lines[k] == ShipmentLine(asks[k].item.index, asks[k].quantity)
    requires forall j, k :: 0 <= j < k < |asks| ==> asks[j].item.index != asks[k].item.index
    requires forall k :: 0 <= k < |asks| ==> asks[k].quantity > 0
    ensures forall k :: 0 <= k < |asks| && asks[k].item.index == item ==> ShipLineQty(lines, item) == asks[k].quantity
    ensures (forall k :: 0 <= k < |asks| ==> asks[k].item.index != item) ==> ShipLineQty(lines, item) == 0
  {
    hide ShipLineQty;
    ShipLineQtyIs(lines, item);
    forall k | 0 <= k < |asks| && asks[k].item.index == item ensures ShipLineQty(lines, item) == asks[k].quantity {
      assert lines[k].item == item;
    }
  }

  /** It raises each item's shipped quantity by exactly what was asked, and no other order's. */
  lemma ShipmentCounts(db: Db, orderId: nat, request: ShipmentRequest, o: nat, item: nat)
    requires Valid(db) && CreateShipment(db, orderId, request).result.Ok?
    requires o < |db.orders| && item < |db.orders[o].items|
    ensures orderId < |db.orders|
    ensures var after, before := CreateShipment(db, orderId, request).db, ShippedQty(db.shipments, o, item);
            if o == orderId then Sends(db, o, request, item, ShippedQty(after.shipments, o, item) - before)
            else ShippedQty(after.shipments, o, item) == before
  {
    hide Text.Trim; hide ShipLinesRefusal; hide CreateShipment; hide ShippedQty; hide Valid; hide ShipmentLines;
    hide Remaining; hide ValidShipmentRequest; hide ShippedExact; hide ShippedAs;
    AcceptedAdds(db, orderId, request);
    ShipmentWrites(db, orderId, request);
    var asks := Requested(db, orderId, request);
    RequestedIsShippable(db, orderId, request);
    var shipment := NewShipment(db, orderId, request);
    AskedLines(db, orderId, asks);
    AddedShipmentCounts(db, shipment, o, item);
    if o == orderId {
      SentIs(shipment.lines, asks, item);
      if request.lines.None? {
        RestIsSent(db, orderId, asks, item, ShipLineQty(shipment.lines, item));
      } else if k :| 0 <= k < |asks| && asks[k].item.index == item {
        assert Sends(db, o, request, item, asks[k].quantity);
      }
    }
  }

  /** The row itself. */
  lemma NewShipment(db: Db, orderId: nat, request: ShipmentRequest) returns (shipment: Shipment)
    requires CreateShipment(db, orderId, request).result.Ok? && orderId < |db.orders|
    requires ShippedAs(db, CreateShipment(db, orderId, request).db, orderId, request,
                       ShipmentLines(Requested(db, orderId, request)))
    ensures shipment.orderId == orderId && shipment.lines == ShipmentLines(Requested(db, orderId, request))
    ensures CreateShipment(db, orderId, request).db.shipments == db.shipments + [shipment]
  {
    hide CreateShipment; hide Text.Trim; hide ShipmentLines; hide Requested; hide ShippedQty;
    shipment := Shipment(orderId, Text.Trim(request.carrierCode), Text.Trim(request.trackingNo),
                         ShipmentLines(Requested(db, orderId, request)));
  }

  lemma AskedLines(db: Db, orderId: nat, asks: seq<LineAsk>)
    requires orderId < |db.orders| && Shippable(db, orderId, asks)
    ensures var lines := ShipmentLines(asks);
            && |lines| == |asks|
            && (forall k :: 0 <= k < |asks| ==> lines[k] == ShipmentLine(asks[k].item.index, asks[k].quantity))
            && (forall k :: 0 <= k < |asks| ==> asks[k].quantity > 0 && lines[k].quantity > 0)
            && (forall j, k :: 0 <= j < k < |asks| ==>
                  asks[j].item.index != asks[k].item.index && lines[j].item != lines[k].item)
  {
    hide ShippedQty;
  }

  lemma RestIsSent(db: Db, orderId: nat, asks: seq<LineAsk>, item: nat, quantity: int)
    requires Valid(db) && orderId < |db.orders| && item < |db.orders[orderId].items|
    requires asks == Remaining(db, orderId, |db.orders[orderId].items|)
    requires forall k :: 0 <= k < |asks| && asks[k].item.index == item ==> quantity == asks[k].quantity
    requires (forall k :: 0 <= k < |asks| ==> asks[k].item.index != item) ==> quantity == 0
    ensures quantity == db.orders[orderId].items[item].quantity - ShippedQty(db.shipments, orderId, item)
  {
    hide Remaining; hide ShippedQty; hide Valid;
    ShippedOf(db, orderId);
    RemainingIs(db, orderId, |db.orders[orderId].items|);
    if Left(db, orderId, item) > 0 {
      var k := RemainingHas(db, orderId, |db.orders[orderId].items|, item);
    }
  }

  /** What is asked of one item and one less can both be sent: the first unit of several is a shipment of its own. */
  lemma PartsCanBeSent(db: Db, orderId: nat, request: ShipmentRequest, item: nat, quantity: int)
    requires Valid(db) && orderId < |db.orders| && db.orders[orderId].status == Paid && item < |db.orders[orderId].items|
    requires request.lines == Some([LineAsk(ItemRef(orderId, item), quantity)])
    requires Named(request.carrierCode, 40) && Named(request.carrierName, 80) && Named(request.trackingNo, 100)
    requires NumberFree(db, request)
    ensures CreateShipment(db, orderId, request).result.Ok? <==>
              0 < quantity <= db.orders[orderId].items[item].quantity - ShippedQty(db.shipments, orderId, item)
  {
    hide CreateShipment; hide NumberFree; hide ShippedQty; hide Text.Trim; hide Valid;
    ListedShipmentIsAcceptedIff(db, orderId, request);
    QuantitiesAreSafe(db, orderId, item);
    assert request.lines.value[0] == LineAsk(ItemRef(orderId, item), quantity);
  }

  lemma QuantitiesAreSafe(db: Db, orderId: nat, item: nat)
    requires Valid(db) && orderId < |db.orders| && item < |db.orders[orderId].items|
    ensures db.orders[orderId].items[item].quantity <= 0x7FFF_FFFF && ShippedQty(db.shipments, orderId, item) >= 0
  {
    hide PaymentsOk; hide RefundsOk; hide CapsOk; hide StatusesExact; hide TransactionsOk; hide ShippedQty;
    assert OrderShape(db.orders[orderId]);
    assert ShippedExact(db.orders, db.shipments, orderId);
  }
}
