/**
 The commerce tables of one tenant. A generated identifier is the position of its row: the code
 only relies on a new identifier differing from every earlier one. Money is in cents.
 */
module Tables {
  import opened Wrappers
  import opened Summation
  import opened Inventory
  import opened Text

  // ------------------------------------------------------------------ orders

  datatype OrderStatus = Pending | Paid | Fulfilled | PartiallyRefunded | Refunded | Canceled | Expired

  datatype ItemAsk = ItemAsk(sku: nat, quantity: int)

  /** `details` stands for the customer, the address, the remark and how the amounts were spelled. */
  datatype OrderRequest = OrderRequest(
    key: string, items: seq<ItemAsk>, discount: nat, shippingFee: nat, details: string)

  datatype OrderItem = OrderItem(sku: nat, unitPrice: nat, quantity: nat)

  datatype Order = Order(
    request: OrderRequest, status: OrderStatus, items: seq<OrderItem>,
    subtotal: int, total: int, expiresAt: int)

  datatype Variant = Variant(price: nat, active: bool)

  predicate OrderStep(current: OrderStatus, next: OrderStatus) {
    match current
    case Pending => next.Paid? || next.Canceled? || next.Expired?
    case Paid => next.Fulfilled? || next.PartiallyRefunded? || next.Refunded?
    case Fulfilled => next.PartiallyRefunded? || next.Refunded?
    case PartiallyRefunded => next.PartiallyRefunded? || next.Refunded?
    case _ => false
  }

  predicate PaidOrLater(status: OrderStatus) {
    status.Paid? || status.Fulfilled? || status.PartiallyRefunded? || status.Refunded?
  }

  // ---------------------------------------------------------------- payments

  datatype PaymentStatus = PaymentPending | PaymentSucceeded | PaymentFailed

  datatype Payment = Payment(
    orderId: nat, number: string, key: string, channel: string, status: PaymentStatus, amount: int,
    eventId: Option<string>, tradeNo: Option<string>)

  // ----------------------------------------------------------------- refunds

  datatype RefundStatus = PendingReview | Approved | Rejected | RefundSucceeded | RefundFailed

  /** An order item's identifier: the order it belongs to and its place there. */
  datatype ItemRef = ItemRef(orderId: nat, index: nat)

  datatype LineAsk = LineAsk(item: ItemRef, quantity: int)

  datatype RefundRequest = RefundRequest(key: string, reason: string, lines: seq<LineAsk>)

  datatype RefundLine = RefundLine(item: nat, quantity: nat, amount: nat)

  datatype Refund = Refund(
    orderId: nat, request: RefundRequest, status: RefundStatus, lines: seq<RefundLine>, amount: int)

  predicate RefundStep(current: RefundStatus, next: RefundStatus) {
    match current
    case PendingReview => next.Approved? || next.Rejected?
    case Approved => next.RefundSucceeded? || next.RefundFailed?
    case _ => false
  }

  datatype TransactionStatus = TxPending | TxSucceeded | TxFailed

  datatype Transaction = Transaction(
    refundId: nat, channel: string, status: TransactionStatus, amount: int,
    eventId: Option<string>, refundNo: Option<string>)

  // --------------------------------------------------------------- shipments

  datatype ShipmentLine = ShipmentLine(item: nat, quantity: int)

  datatype ShipmentRequest = ShipmentRequest(
    carrierCode: string, carrierName: string, trackingNo: string, lines: Option<seq<LineAsk>>)

  datatype Shipment = Shipment(orderId: nat, carrierCode: string, trackingNo: string, lines: seq<ShipmentLine>)

  // ---------------------------------------------------------------- the store

  datatype Db = Db(
    catalogue: map<nat, Variant>,
    ledger: seq<Row>,
    orders: seq<Order>,
    payments: seq<Payment>,
    refunds: seq<Refund>,
    transactions: seq<Transaction>,
    shipments: seq<Shipment>)
  {
    /** The foreign keys of the schema. */
    ghost predicate Linked() {
      && (forall p | p in payments :: p.orderId < |orders|)
      && (forall r | r in refunds :: r.orderId < |orders| && LinesOf(r.lines, orders[r.orderId].items))
      && (forall t | t in transactions :: t.refundId < |refunds|)
      && (forall s | s in shipments :: s.orderId < |orders|)
    }
  }

  predicate LinesOf(lines: seq<RefundLine>, items: seq<OrderItem>) {
    forall k :: 0 <= k < |lines| ==> lines[k].item < |items|
  }

  /** What a use case leaves behind and returns; a throw leaves the tables as they were. */
  datatype Outcome = Outcome(db: Db, result: Result<nat>)

  function Throw(db: Db, e: Error): Outcome {
    Outcome(db, Err(e))
  }

  function Return(db: Db, value: nat): Outcome {
    Outcome(db, Ok(value))
  }

  /** How many rows a scan takes at most. */
  function PageSize(limit: int): nat {
    if limit < 1 then 1 else if limit > 100 then 100 else limit
  }

  // ------------------------------------------------------------ money columns

  /** Ten integer digits and two decimals, in cents. */
  const MONEY_LIMIT: int := 1_000_000_000_000

  predicate FitsMoney(cents: int) {
    -MONEY_LIMIT < cents < MONEY_LIMIT
  }

  predicate ValidKey(key: string) {
    !Blank(key) && |key| <= 100
  }

  // ------------------------------------------------------------------ lookups

  /** The first row that matches. */
  function Find<T>(rows: seq<T>, matches: T -> bool): (r: Option<nat>)
    ensures r.Some? ==> r.value < |rows| && matches(rows[r.value])
    ensures r.Some? ==> forall i :: 0 <= i < r.value ==> !matches(rows[i])
    ensures r.None? ==> forall i :: 0 <= i < |rows| ==> !matches(rows[i])
  {
    if |rows| == 0 then None
    else
      var n := |rows| - 1;
      match Find(rows[..n], matches)
      case Some(i) => Some(i)
      case None => if matches(rows[n]) then Some(n) else None
  }

  function OrderKeyed(key: string): Order -> bool {
    (o: Order) => o.request.key == key
  }

  function PaymentKeyed(key: string): Payment -> bool {
    (p: Payment) => p.key == key
  }

  function RefundKeyed(key: string): Refund -> bool {
    (r: Refund) => r.request.key == key
  }

  function ForRefund(refundId: nat): Transaction -> bool {
    (t: Transaction) => t.refundId == refundId
  }

  function SucceededFor(orderId: nat): Payment -> bool {
    (p: Payment) => p.orderId == orderId && p.status.PaymentSucceeded?
  }

  // --------------------------------------------------- quantities within a row

  function ItemOf(sku: nat): OrderItem -> int {
    (it: OrderItem) => if it.sku == sku then it.quantity else 0
  }

  /** How much of one SKU an order holds. */
  function QtyOf(items: seq<OrderItem>, sku: nat): int {
    Sum(items, ItemOf(sku))
  }

  function LineOf(item: nat): RefundLine -> int {
    (l: RefundLine) => if l.item == item then l.quantity else 0
  }

  /** How much of one order item a refund asks back. */
  function LineQty(lines: seq<RefundLine>, item: nat): int {
    Sum(lines, LineOf(item))
  }

  function ShipLineOf(item: nat): ShipmentLine -> int {
    (l: ShipmentLine) => if l.item == item then l.quantity else 0
  }

  function ShipLineQty(lines: seq<ShipmentLine>, item: nat): int {
    Sum(lines, ShipLineOf(item))
  }

  // ------------------------------------------------- quantities across a table

  predicate Active(status: RefundStatus) {
    status.PendingReview? || status.Approved? || status.RefundSucceeded?
  }

  function ActiveQtyOf(orderId: nat, item: nat): Refund -> int {
    (r: Refund) => if r.orderId == orderId && Active(r.status) then LineQty(r.lines, item) else 0
  }

  function SucceededQtyOf(orderId: nat, item: nat): Refund -> int {
    (r: Refund) => if r.orderId == orderId && r.status.RefundSucceeded? then LineQty(r.lines, item) else 0
  }

  function ActiveAmountOf(orderId: nat): Refund -> int {
    (r: Refund) => if r.orderId == orderId && Active(r.status) then r.amount else 0
  }

  function SucceededAmountOf(orderId: nat): Refund -> int {
    (r: Refund) => if r.orderId == orderId && r.status.RefundSucceeded? then r.amount else 0
  }

  /** Quantity of an item held by refunds in review, approved or succeeded. */
  function ReservedQty(refunds: seq<Refund>, orderId: nat, item: nat): int {
    Sum(refunds, ActiveQtyOf(orderId, item))
  }

  function RefundedQty(refunds: seq<Refund>, orderId: nat, item: nat): int {
    Sum(refunds, SucceededQtyOf(orderId, item))
  }

  function ReservedAmount(refunds: seq<Refund>, orderId: nat): int {
    Sum(refunds, ActiveAmountOf(orderId))
  }

  function RefundedAmount(refunds: seq<Refund>, orderId: nat): int {
    Sum(refunds, SucceededAmountOf(orderId))
  }

  function ShippedOf(orderId: nat, item: nat): Shipment -> int {
    (s: Shipment) => if s.orderId == orderId then ShipLineQty(s.lines, item) else 0
  }

  function ShippedQty(shipments: seq<Shipment>, orderId: nat, item: nat): int {
    Sum(shipments, ShippedOf(orderId, item))
  }
}
