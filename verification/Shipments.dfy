/** Shipping a paid order, whole or in parts. */
module Shipments {
  import opened Wrappers
  import opened Tables
  import opened Text
  import opened Orders
  import opened Refunds

  predicate ValidText(value: string, maxLength: nat) {
    !Blank(value) && |Trim(value)| <= maxLength
  }

  predicate ValidShipmentRequest(request: ShipmentRequest) {
    && ValidText(request.carrierCode, 40)
    && ValidText(request.carrierName, 80)
    && ValidText(request.trackingNo, 100)
    && (request.lines.Some? ==> ValidAsks(request.lines.value))
  }

  /** How much of one item is still to ship. */
  function Left(db: Db, orderId: nat, item: nat): int
    requires orderId < |db.orders| && item < |db.orders[orderId].items|
  {
    db.orders[orderId].items[item].quantity - ShippedQty(db.shipments, orderId, item)
  }

  /** What is still to ship of the first `n` items. */
  function Remaining(db: Db, orderId: nat, n: nat): seq<LineAsk>
    requires orderId < |db.orders| && n <= |db.orders[orderId].items|
  {
    if n == 0 then []
    else
      Remaining(db, orderId, n - 1) +
      if Left(db, orderId, n - 1) > 0 then [LineAsk(ItemRef(orderId, n - 1), Left(db, orderId, n - 1))] else []
  }

  function ShipLineRefusal(db: Db, orderId: nat, ask: LineAsk): Option<Error>
    requires orderId < |db.orders|
  {
    var items := db.orders[orderId].items;
    if ask.item.orderId != orderId || ask.item.index >= |items| then Some(NotFound)
    else
      var remaining := Left(db, orderId, ask.item.index);
      if remaining <= 0 || ask.quantity > remaining then Some(Conflict) else None
  }

  function ShipLinesRefusal(db: Db, orderId: nat, asks: seq<LineAsk>): (r: Option<Error>)
    requires orderId < |db.orders|
    ensures r.None? <==> forall i :: 0 <= i < |asks| ==> ShipLineRefusal(db, orderId, asks[i]).None?
  {
    if |asks| == 0 then None
    else
      var n := |asks| - 1;
      match ShipLinesRefusal(db, orderId, asks[..n])
      case Some(e) => Some(e)
      case None => ShipLineRefusal(db, orderId, asks[n])
  }

  function ShipmentLines(asks: seq<LineAsk>): (lines: seq<ShipmentLine>)
    ensures |lines| == |asks|
    ensures forall i :: 0 <= i < |asks| ==> lines[i] == ShipmentLine(asks[i].item.index, asks[i].quantity)
  {
    seq(|asks|, i requires 0 <= i < |asks| => ShipmentLine(asks[i].item.index, asks[i].quantity))
  }

  predicate FullyShipped(items: seq<OrderItem>, shipments: seq<Shipment>, orderId: nat) {
    forall i :: 0 <= i < |items| ==> ShippedQty(shipments, orderId, i) == items[i].quantity
  }

  predicate TrackingTaken(shipments: seq<Shipment>, carrierCode: string, trackingNo: string) {
    exists i :: 0 <= i < |shipments| && shipments[i].carrierCode == carrierCode && shipments[i].trackingNo == trackingNo
  }

  function Requested(db: Db, orderId: nat, request: ShipmentRequest): seq<LineAsk>
    requires orderId < |db.orders|
  {
    if request.lines.Some? then request.lines.value else Remaining(db, orderId, |db.orders[orderId].items|)
  }

  function CreateShipment(db: Db, orderId: nat, request: ShipmentRequest): Outcome {
    if !ValidShipmentRequest(request) then Throw(db, Conflict)
    else if orderId >= |db.orders| then Throw(db, NotFound)
    else if !db.orders[orderId].status.Paid? then Throw(db, Conflict)
    else
      var asks := Requested(db, orderId, request);
      if |asks| == 0 then Throw(db, Conflict)
      else
        match ShipLinesRefusal(db, orderId, asks)
        case Some(e) => Throw(db, e)
        case None => AddShipment(db, orderId, request, asks)
  }

  /** The write of a shipment, and of the order's status when nothing is left to ship. */
  function AddShipment(db: Db, orderId: nat, request: ShipmentRequest, asks: seq<LineAsk>): Outcome
    requires orderId < |db.orders|
  {
    var carrierCode, trackingNo := Trim(request.carrierCode), Trim(request.trackingNo);
    if TrackingTaken(db.shipments, carrierCode, trackingNo) then Throw(db, Constraint)
    else
      var shipments := db.shipments + [Shipment(orderId, carrierCode, trackingNo, ShipmentLines(asks))];
      Return(db.(shipments := shipments,
                 orders := if FullyShipped(db.orders[orderId].items, shipments, orderId)
                           then WithStatus(db.orders, orderId, Fulfilled) else db.orders), |db.shipments|)
  }
}
