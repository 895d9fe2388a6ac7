/** Every committed transaction of the commerce core as a step. */
module Steps {
  import opened Wrappers
  import opened Inventory
  import opened Tables
  import opened Orders
  import opened Payments
  import opened Refunds
  import opened Shipments

  datatype Step =
    | OrderCreate(order: OrderRequest, now: int, timeoutMinutes: int)
    | OrderCancel(id: nat)
    | OrderExpire(id: nat, now: int)
    | PaymentCreate(key: string, orderId: nat, channel: string, number: string)
    | PaymentConfirm(id: nat, confirmation: Confirmation)
    | RefundCreate(orderId: nat, refund: RefundRequest)
    | RefundReview(id: nat, approved: bool, note: string)
    | RefundBegin(id: nat)
    | RefundUpdate(transactionId: nat, eventId: string, refundNo: string)
    | RefundConfirm(id: nat, notice: RefundNotice)
    | ShipmentCreate(orderId: nat, shipment: ShipmentRequest)
    | StockCommand(command: Command)
    | OpeningStock(sku: nat, quantity: int, intake: bool, refId: nat)
    | CatalogueChange(sku: nat, variant: Variant)

  function ExecuteCommand(db: Db, c: Command): Outcome {
    var outcome := Execute(db.ledger, c.sku in db.catalogue, c);
    Outcome(db.(ledger := outcome.rows), if outcome.result.Ok? then Ok(0) else Err(outcome.result.error))
  }

  /** A command that writes passed its guards and adds exactly its rows. */
  lemma CommandEffect(db: Db, c: Command)
    requires ExecuteCommand(db, c).db != db
    ensures !KeyUsed(db.ledger, KeyOf(c)) && Insertable(db.ledger, RowsOf(c))
    ensures Refusal(c.op, c.quantity, BalanceOf(db.ledger, c.sku)).None?
    ensures ExecuteCommand(db, c).db == db.(ledger := db.ledger + RowsOf(c))
  {
  }

  /** Opening stock of a new product, and of an intake: types the balance fold does not know. */
  function OpeningRow(sku: nat, quantity: int, intake: bool, refId: nat): Row {
    if intake then Row(Key(sku, Initial, "product_intake", refId), quantity)
    else Row(Key(sku, Inbound, "product_initial_stock", refId), quantity)
  }

  function OpenStock(db: Db, sku: nat, quantity: int, intake: bool, refId: nat): Outcome {
    if !SafeInteger(quantity) || quantity < 0 then Throw(db, Conflict)
    else
      match Insert(db.ledger, [OpeningRow(sku, quantity, intake, refId)])
      case None => Throw(db, Constraint)
      case Some(ledger) => Return(db.(ledger := ledger), 0)
  }

  function Apply(db: Db, step: Step): Outcome
    requires db.Linked()
  {
    match step
    case OrderCreate(request, now, timeout) => CreateOrder(db, request, now, timeout)
    case OrderCancel(id) => CancelOrder(db, id)
    case OrderExpire(id, now) => ExpireOrder(db, id, now)
    case PaymentCreate(key, orderId, channel, number) => CreatePayment(db, key, orderId, channel, number)
    case PaymentConfirm(id, c) => ConfirmPayment(db, id, c)
    case RefundCreate(orderId, request) => CreateRefund(db, orderId, request)
    case RefundReview(id, approved, note) => ReviewRefund(db, id, approved, note)
    case RefundBegin(id) => BeginExecute(db, id)
    case RefundUpdate(id, eventId, refundNo) => UpdatePending(db, id, eventId, refundNo)
    case RefundConfirm(id, n) => ConfirmRefund(db, id, n)
    case ShipmentCreate(orderId, request) => CreateShipment(db, orderId, request)
    case StockCommand(c) => ExecuteCommand(db, c)
    case OpeningStock(sku, quantity, intake, refId) => OpenStock(db, sku, quantity, intake, refId)
    case CatalogueChange(sku, variant) => Return(db.(catalogue := db.catalogue[sku := variant]), 0)
  }
}
