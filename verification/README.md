# Commerce core: model and proofs

The commerce core is one transactional state machine. Orders lock stock, payments deduct it, refunds
put it back, shipments use up an order's items, and two webhook inboxes feed provider reports into it.
Stock itself is never stored: it is a fold over an append-only ledger. Each use case is one
serializable transaction that reads rows, checks guards, appends ledger rows and moves statuses, or
throws and leaves everything as it was. No use case checks the whole invariant. Cancelling, expiring,
confirming a payment and restoring a refund's stock append ledger rows without looking at the balance;
they are safe only because of what other steps established before.

The project says what those steps keep, over runs of any length, and proves it.

## How it is laid out

| file | content |
|---|---|
| `Inventory.dfy` | the ledger, its balance, direct commands, inserts under the unique key |
| `Tables.dfy` | the entities and the tables of one tenant |
| `Orders.dfy`, `Payments.dfy`, `Refunds.dfy`, `Shipments.dfy` | every transaction as a function from tables to tables and result |
| `Store.dfy` | the services in their own form: an object whose methods loop, check and write in place, each proved to carry out its transaction |
| `StockPromises.dfy`, `OrderPromises.dfy`, `PaymentPromises.dfy`, `RefundPromises.dfy`, `ShipmentPromises.dfy` | for each transaction, exactly when it is accepted and exactly what it leaves, said of the request and the tables without its functions |
| `Steps.dfy`, `Books.dfy`, `BooksKept.dfy`, `Runs.dfy` | all transactions as steps; the invariant of orders, payments, refunds and shipments; what it says of every run |
| `Stock.dfy`, `StockKept.dfy`, `StockSafety.dfy` | the ledger as a function of the other tables, and stock safety over runs |
| `StockLimits.dfy`, `ReservedKeys.dfy` | exactly when direct commands break it: by releasing too much, and by writing under an order's or a refund's reference |
| `Expiry.dfy` | the expiry sweep: when it succeeds, and what one blocked order does to it |
| `Causes.dfy` | which step may give an order or refund which status |
| `Replay.dfy` | repeated and reused commands |
| `RefundExecution.dfy`, `RefundLimits.dfy` | the phases of executing a refund, interleaved with everything else; exactly when a refund is never asked for or forgets its event |
| `Inbox.dfy`, `InboxWorkers.dfy`, `InboxService.dfy` | the inbox rows, any number of workers with crash points, and the worker's loop as one of their schedules |
| `ReportPromises.dfy` | what a report does: its verdict decides the payment or refund, for one report and over runs of the workers |
| `RetryBound.dfy` | the retry bound over those workers, and how two of them break it |
| `Locks.dfy` | the advisory-lock protocol: no deadlock, and who excludes whom |
| `CategoryPromises.dfy` | what each edit of a category is accepted for and leaves; how versions guard edits |
| `Categories.dfy`, `Bill.dfy`, `Csv.dfy`, `Money.dfy`, `Prices.dfy` | the category forest, the bill comparison, the column splitter, money as text |

Two invariants carry the main results. `Books.Valid` needs no assumption at all: it holds after every
run of steps. `StockSafety.Sound` adds that the ledger rows are exactly those the statuses call for
and that every SKU has 0 <= locked <= on hand. It rests on one assumption about direct commands,
because `execute` checks a release against the aggregate lock only
(`apps/core/src/commerce/domain/inventory.rules.ts:40`) and takes any reference type: they keep off the
reference types `order` and `refund`, and release no more than direct commands hold. Neither half can be
dropped. `StockLimits` shows that an accepted release is harmless iff it meets the second half.
`ReservedKeys` shows over runs without any restriction that a pending order can be closed or paid, and
a succeeding refund restores a line, iff no accepted command took the ledger key that needs.

Some results describe the code as it is rather than as one might wish:

- A direct `unlock` or `out` may release what a pending order holds. The order's own release then
  drives the lock balance below zero (`StockLimits.HandReleaseOversells`).
- A one-unit direct release under an order's own reference is accepted. That order can then never be
  cancelled, expired or paid (`ReservedKeys.SeizedOrderStaysPending`), and as the sweep stops at the
  first order it cannot close, no order due after it is expired either
  (`Expiry.BlockedOrderStarvesTheRest`).
- A one-unit direct `refund` command under a refund's own reference is accepted while the refund waits.
  The refund then succeeds without putting that line's stock back (`ReservedKeys.RestoreIsSeized`).
- The write for an undecided refund answer reads no status. When a notice settled the refund first, it
  replaces the recorded event id, and a redelivery of that notice is refused, unless both ids are the
  same or the write itself fails (`RefundLimits.OvertakenNoticeIsForgottenIff`). The refund's status and
  stock are unaffected.
- The provider is asked at most once per refund. The price is that an executor that dies between
  recording its transaction and asking leaves a refund nobody asks for again
  (`RefundLimits.CrashAbandons`, `RefundLimits.RecordedRefundIsAskedIff`).
- Two workers that read an event at the same count leave it failed after its tenth attempt, where a
  lone worker would have made it a dead letter (`RetryBound.TwoWorkersMissTheBound`).
- A confirmation from outside the inbox that carries a queued report's event and trade number but the
  other verdict settles the payment; the report is then acknowledged without being carried out
  (`ReportPromises.ProcessedReportIsCarriedOutIff` says exactly when).
- Settling a refund takes no key of its order, so no lock keeps it apart from a new refund request on that
  order (`Locks.SettlingOverlapsRequesting`); only the isolation of the two transactions does.
- An order without other refunds can be asked back as a whole iff its discount does not exceed its
  shipping fee (`RefundPromises.WholeOrderIsRefundableIff`).
- Two category moves that walk the same rows before either writes can form a cycle
  (`Categories.TwoMovesFormCycle`).
- The one-hour cap on the retry delay never applies (`Inbox.DelayNeverCapped`).
- Opening stock is written with types the balance fold ignores; the product page counts it, the
  ledger's `available` does not (`Inventory.CatalogueStockIsAvailablePlusIgnored`).
- A payment number the bill lists twice is compared by its last entry only (`Bill.RepeatedNumbersHide`).

Conventions: identifiers generated by the database are row positions, since the code only relies on
their being new (a command that names an identifier before its row exists is possible in the model);
money is in integer cents, as the Decimal(12,2) columns hold it; a fingerprint is the request itself; the
unique keys of the schema (`apps/core/src/generated/prisma/edge.js:808`) are
checked where a row is written and fail with `Constraint`. `NotFound` and `Conflict` stand for the
exceptions of those names.

## Model

| member | source | states |
|---|---|---|
| `Inventory.CalculateBalance` | apps/core/src/commerce/domain/inventory.rules.ts:9-21 | the loop returns the sums of the on-hand and lock types of one SKU; other types count nowhere |
| `Inventory.BalanceIgnoresOrder` | apps/core/src/commerce/application/inventory.service.ts:96-106 | the balance is the same for any order in which the query returns the rows |
| `Inventory.CatalogueStockIsAvailablePlusIgnored` | apps/core/src/commerce/application/product.service.ts:1119-1146 | for any ledger the product page's stock is `available` plus the rows whose type the fold ignores |
| `Inventory.RowsMoveBalance` | apps/core/src/commerce/application/inventory.service.ts:53-79 | an accepted command moves on hand by plus its quantity for `in`, `refund` and `adjustment` and minus for `out`, and locked by plus for `lock` and minus for `unlock` and `out` |
| `StockPromises.CommandIsAcceptedIff` | apps/core/src/commerce/domain/inventory.rules.ts:23-46 | a command is accepted iff the SKU exists and it is a repeat, or its kind's own guard holds, its quantity fits the column and its keys are free |
| `StockPromises.CommandMoves` | apps/core/src/commerce/application/inventory.service.ts:51-79 | an accepted new command moves its SKU, and no other, by exactly its quantity in the direction of its kind, and answers with the balance so moved |
| `StockPromises.CommandAdds` | apps/core/src/commerce/application/inventory.service.ts:54-78 | it adds one row under its own key, and for `out` one that releases the same quantity |
| `StockPromises.RepeatsAndRefusalsWriteNothing` | apps/core/src/commerce/application/inventory.service.ts:37-52 | a repeat answers with the present balance and writes nothing, nor does a refusal |
| `StockPromises.CommandErrors` | apps/core/src/commerce/application/inventory.service.ts:35-54 | a refused command is not found iff the SKU is unknown, a conflict iff its guard fails, and else meets a constraint of the table |
| `StockPromises.OpeningIsAcceptedIff` | apps/core/src/commerce/application/product.service.ts:985-986 | opening stock is accepted iff it is not negative, fits its column and its key is free |
| `StockPromises.OpeningCountsOnThePageOnly` | apps/core/src/commerce/application/product-intake.service.ts:428-440 | it raises the product page's figure of its SKU by its quantity and neither on hand nor locked of any |
| `Inventory.ExecuteIsSafe` | apps/core/src/commerce/domain/inventory.rules.ts:23-46 | a command of any kind and quantity leaves 0 <= locked <= on hand for every SKU |
| `Inventory.CommandsAloneAreSafe` | apps/core/src/commerce/application/inventory.service.ts:25-84 | without orders, any sequence of any commands keeps every SKU safe and the keys unique |
| `Inventory.Insert` | apps/core/src/generated/prisma/edge.js:808 | a multi-row insert that goes through leaves the ledger's key unique |
| `Inventory.InsertSkippingDuplicates` | apps/core/src/commerce/application/refund.service.ts:402-414 | the unique key holds after it, and no row is dropped when all keys are new |
| `Store.CheckOrderItems` | apps/core/src/commerce/domain/order.rules.ts:4-15 | the loop with its set accepts exactly positive safe quantities of pairwise different SKUs |
| `Store.CheckLineAsks` | apps/core/src/commerce/domain/refund.rules.ts:9-23 | the same for requested order items |
| `Store.SumQuantities` | apps/core/src/commerce/application/refund.service.ts:348-355 | the filled map holds, for every item, the sum of its quantities |
| `Store.SumShippedQuantities` | apps/core/src/commerce/application/shipment.service.ts:134-141 | the same for shipped lines |
| `Store.CommerceStore.Execute` | apps/core/src/commerce/application/inventory.service.ts:25-84 | repeat, refusal, or one or two rows and the new balance; it is accepted exactly under the guards spelled out and moves its SKU by exactly its quantity; nothing else changes |
| `Store.CommerceStore.OpenStock` | apps/core/src/commerce/application/product.service.ts:978-999 | one opening row under the type the source gives it, or an error and no row |
| `Store.CommerceStore.CreateOrder` | apps/core/src/commerce/application/order.service.ts:33-145 | the object performs the order transaction, every error path included; under a fresh key it succeeds exactly when price list and ledger allow the request, and the new order carries the list prices |
| `OrderPromises.OrderIsAcceptedIff` | apps/core/src/commerce/application/order.service.ts:65-93 | under a fresh key an order is accepted iff the request is well formed, every SKU is on sale with enough neither sold nor locked, the total at list prices less discount plus fee is not negative, and columns and lock keys allow it |
| `OrderPromises.OrderNotFoundIff` | apps/core/src/commerce/application/order.service.ts:66-71 | a well-formed request is answered as not found iff one of its SKUs is unknown or off sale |
| `OrderPromises.OrderConstraintIff` | apps/core/src/commerce/application/order.service.ts:93-140 | an otherwise acceptable request fails on a constraint iff a column width or a used lock key stands in the way; every other refusal is a conflict |
| `OrderPromises.OrderIsAsAsked` | apps/core/src/commerce/application/order.service.ts:86-140 | the new order has the requested SKUs and quantities at the catalogue's prices, the total these give, its deadline within the window, and one lock row a line; nothing else changes |
| `OrderPromises.OrderLocks` | apps/core/src/commerce/application/order.service.ts:129-140 | placing an order raises locked by what it asks of each SKU and leaves on hand |
| `OrderPromises.OrdersCarryListPrices` | apps/core/src/commerce/application/order.service.ts:111-124 | in every reachable state each order's items and total are those of a request of the run at the prices of that moment |
| `OrderPromises.CancelPromise` | apps/core/src/commerce/application/order.service.ts:177-222 | cancelling is accepted iff the order is pending and its release keys are free; it unlocks every line and changes nothing else |
| `Store.CommerceStore.CancelOrder` | apps/core/src/commerce/application/order.service.ts:177-222 | all lines released and the status moved, or an error and no change |
| `Store.CommerceStore.ExpireOne` | apps/core/src/commerce/application/order.service.ts:243-276 | closes a pending order past its deadline; otherwise nothing happens and that is no error |
| `OrderPromises.ExpirePromise` | apps/core/src/commerce/application/order.service.ts:243-276 | a pending order whose deadline has come is closed and unlocked iff its release keys are free; any other call does nothing and is no error |
| `Store.CommerceStore.ExpirePending` | apps/core/src/commerce/application/order.service.ts:224-241 | the orders found are closed one transaction each, and an error ends the sweep; when they are the earliest due ones up to the limit it succeeds iff each can be closed, lists them all, and below the limit leaves none due |
| `Expiry.ScanFinds` | apps/core/src/commerce/application/order.service.ts:226-236 | a scan finds every due order, or the earliest ones when there are more than its limit of one to a hundred |
| `Expiry.SweepSucceedsIff` | apps/core/src/commerce/application/order.service.ts:224-241 | in every state a sweep succeeds iff each order it found can be closed; it then expired exactly these, and below the limit none is due any more |
| `Expiry.SweepsAlwaysSucceed` | apps/core/src/commerce/application/order.service.ts:237-239 | when direct commands keep off the reserved types, every sweep expires all it found |
| `Expiry.BlockedOrderStarvesTheRest` | apps/core/src/commerce/application/order.service.ts:229-239 | while a due order cannot be closed, no sweep expires an order that comes after it |
| `Store.CommerceStore.CreatePayment` | apps/core/src/commerce/application/payment.service.ts:32-77 | the payment transaction, replay and reuse of a key included |
| `PaymentPromises.PaymentIsOpenedIff` | apps/core/src/commerce/application/payment.service.ts:37-59 | under a fresh key a payment is opened iff key and channel are valid, the order is pending and the number is new |
| `PaymentPromises.PaymentIsAsAsked` | apps/core/src/commerce/application/payment.service.ts:60-73 | it is one more pending payment over the order's total, and nothing else |
| `PaymentPromises.OpeningErrors` | apps/core/src/commerce/application/payment.service.ts:37-59 | which error each refused request gets |
| `Store.CommerceStore.ConfirmPayment` | apps/core/src/commerce/application/payment.service.ts:121-214 | deduction, order and payment move together or not at all |
| `PaymentPromises.FailureReportPromise` | apps/core/src/commerce/application/payment.service.ts:147-160 | a failure report on a pending payment is taken iff it is legible and its event free; the payment fails and no other row of any table changes |
| `PaymentPromises.SuccessReportPromise` | apps/core/src/commerce/application/payment.service.ts:163-213 | a success report is taken iff it also names the payment's amount, the order still waits and its keys are free; payment and order then move and each line leaves on hand and locked |
| `PaymentPromises.ReportErrors` | apps/core/src/commerce/application/payment.service.ts:126-198 | which error each refused report gets; event id and ledger keys are constraints |
| `PaymentPromises.SettledPaymentAnswers` | apps/core/src/commerce/application/payment.service.ts:139-146 | a settled payment acknowledges its own event and trade number and refuses the rest, unchanged either way |
| `Store.PriceLines` | apps/core/src/commerce/application/refund.service.ts:76-100 | no line is refused iff each names an item of the order within what other refunds leave; the first that does not fit decides the error; otherwise each line is priced |
| `Store.CommerceStore.CreateRefund` | apps/core/src/commerce/application/refund.service.ts:43-144 | the refund request transaction; under a fresh key it succeeds exactly when every line fits what is left and the money stays within the total, and the refund is as asked |
| `RefundPromises.RefundIsAcceptedIff` | apps/core/src/commerce/application/refund.service.ts:76-112 | under a fresh key a request is accepted iff it is well formed, the order is paid, fulfilled or partially refunded, every line fits what no other refund holds and is worth something, and all refunds together stay within the total |
| `RefundPromises.RefundIsAsAsked` | apps/core/src/commerce/application/refund.service.ts:86-137 | the new refund has the requested lines at the order's own prices and their sum as its amount, and waits for review |
| `RefundPromises.RefundNotFoundIff` | apps/core/src/commerce/application/refund.service.ts:66-90 | a well-formed request is answered as not found iff the order is unknown, or open to refunds while the first line that does not fit names no item of it |
| `RefundPromises.LastUnitsFit` | apps/core/src/commerce/domain/refund.rules.ts:46-51 | all that remains of an item can be asked back, and not one more |
| `RefundPromises.WholeOrderIsRefundableIff` | apps/core/src/commerce/application/refund.service.ts:97-112 | an order without other refunds can be asked back as a whole iff its discount does not exceed its shipping fee |
| `RefundPromises.RequestHolds` | apps/core/src/commerce/application/refund.service.ts:76-84 | an accepted request holds its quantities and amount |
| `RefundPromises.ReviewHolds` | apps/core/src/commerce/application/refund.service.ts:103-112 | a rejection lets go of both, an approval of neither |
| `RefundPromises.NoticeHolds` | apps/core/src/commerce/application/refund.service.ts:76-84 | settling turns what a refund held into refunded, or lets go of it if the provider failed |
| `RefundPromises.RejectedCanBeAskedAgain` | apps/core/src/commerce/application/refund.service.ts:76-112 | what was asked and rejected is accepted again under another key |
| `Store.CommerceStore.ReviewRefund` | apps/core/src/commerce/application/refund.service.ts:147-181 | only a refund under review moves, to approved or rejected; an overlong note is refused |
| `RefundPromises.ReviewPromise` | apps/core/src/commerce/domain/refund.rules.ts:26-38 | a review is accepted iff its note is short and the refund awaits one; only the status changes, to the decision |
| `Store.CommerceStore.BeginExecute` | apps/core/src/commerce/application/refund.service.ts:184-240 | records one transaction per refund and says whether the provider is to be asked |
| `RefundPromises.RefundBeginsIff` | apps/core/src/commerce/application/refund.service.ts:202-208 | in valid books the provider is to be asked iff the refund is approved and has no transaction |
| `RefundPromises.RefundBeginsAs` | apps/core/src/commerce/application/refund.service.ts:209-216 | one pending transaction over the refund's amount is recorded, on the channel the order was paid through |
| `Store.CommerceStore.UpdatePending` | apps/core/src/commerce/application/refund.service.ts:377-389 | writes event and number without reading a status |
| `RefundPromises.PendingUpdatePromise` | apps/core/src/commerce/application/refund.service.ts:377-389 | the write goes through iff the event is free on the channel, and only event id and refund number change |
| `Store.CommerceStore.ExecuteRefund` | apps/core/src/commerce/application/refund.service.ts:184-264 | record, ask, book the answer: the two transactions an undisturbed execution commits |
| `Store.CommerceStore.ConfirmRefund` | apps/core/src/commerce/application/refund.service.ts:267-320 | transaction, refund, stock and order status move together or not at all |
| `RefundPromises.NoticePromise` | apps/core/src/commerce/application/refund.service.ts:295-313 | a notice on a pending transaction is taken iff it is legible, names the refund's amount and a free event; transaction and refund then end by its verdict with its identifiers, and a failure touches nothing else |
| `RefundPromises.NoticeErrors` | apps/core/src/commerce/application/refund.service.ts:273-298 | which error each refused notice gets |
| `RefundPromises.SuccessMovesTheOrder` | apps/core/src/commerce/application/refund.service.ts:415-434 | after a success the order is refunded iff succeeded refunds cover every item, else partially refunded; no other order changes |
| `Store.CommerceStore.RestoreInventoryAndOrder` | apps/core/src/commerce/application/refund.service.ts:391-435 | stock rows of every line, and the order status recomputed over all succeeded refunds |
| `Store.CommerceStore.ResolveRequestedItems` | apps/core/src/commerce/application/shipment.service.ts:110-132 | the requested or the remaining lines; none is refused iff each names an item of the order within what is still to ship, and the first that does not decides the error |
| `Store.CommerceStore.IsOrderFullyShipped` | apps/core/src/commerce/application/shipment.service.ts:143-153 | the two maps decide exactly whether the order will be complete with the new shipment |
| `Store.CommerceStore.CreateShipment` | apps/core/src/commerce/application/shipment.service.ts:24-90 | the shipment transaction; it succeeds exactly when each line fits what is still to ship, each item's shipped quantity rises by what was asked, and the order is fulfilled iff nothing is left |
| `ShipmentPromises.ListedShipmentIsAcceptedIff` | apps/core/src/commerce/domain/shipment.rules.ts:10-31 | a shipment with a list is accepted iff it is well formed, the order is paid, each line asks no more than is still to ship and the tracking number is new; parts of a line are as good as the whole |
| `ShipmentPromises.ListedShipmentNotFoundIff` | apps/core/src/commerce/application/shipment.service.ts:39-52 | one is answered as not found iff the order is unknown, or paid while the first line that does not fit names no item of it |
| `ShipmentPromises.ListedShipmentConstraintIff` | apps/core/src/commerce/application/shipment.service.ts:55-74 | it fails on a constraint iff everything fits but the tracking number is taken |
| `ShipmentPromises.WholeShipmentIsAcceptedIff` | apps/core/src/commerce/application/shipment.service.ts:115-132 | one without a list is accepted iff it is well formed, the order is paid and the number new |
| `ShipmentPromises.ShipmentWrites` | apps/core/src/commerce/application/shipment.service.ts:55-83 | it adds one shipment under the trimmed names; the order is fulfilled iff nothing is left, and else stays paid |
| `ShipmentPromises.ShipmentCounts` | apps/core/src/commerce/application/shipment.service.ts:65-71 | each item's shipped quantity rises by exactly what the request sends of it, and no other order's |
| `ShipmentPromises.PartsCanBeSent` | apps/core/src/commerce/domain/shipment.rules.ts:27-31 | of one item of a paid order any quantity from one to what is left can be sent, and no other |
| `Store.Perform` | apps/core/src/commerce/application/order.service.ts:195-206 | whatever is asked of the object it performs that step of the model, keeps the books valid and, for disciplined commands, stock safe |
| `BooksKept.StepKeepsBooks` | apps/core/src/commerce/application/refund.service.ts:43-144 | every transaction, accepted or refused, keeps the whole invariant of the books |
| `Runs.OnePaymentWins` | apps/core/src/commerce/application/payment.service.ts:147-213 | however many payments are opened on an order, at most one succeeds; the order is paid or later iff one did; its amount is the total |
| `Runs.RefundsStayWithinTheOrder` | apps/core/src/commerce/application/refund.service.ts:76-112 | in every reachable state refunded <= reserved <= ordered per item and refunded <= reserved <= total in money, so never more than was paid |
| `Runs.RefundedIsWorth` | apps/core/src/commerce/application/refund.service.ts:84-93 | the money refunded on an order is the worth of the quantities refunded |
| `Runs.RefundedOrderIsWhole` | apps/core/src/commerce/application/order.service.ts:86-93 | a refunded order gave back its whole subtotal, which forces discount <= shipping fee |
| `Runs.RefundStatusIsExact` | apps/core/src/commerce/application/refund.service.ts:415-434 | refunded iff every quantity is covered, partially refunded iff some refund succeeded and not all is covered; a refunded order has no open refund |
| `Runs.RefundHasOneTransaction` | apps/core/src/commerce/application/refund.service.ts:289-314 | at most one transaction per refund, its status agreeing with the refund's, and one exists once the refund ended |
| `Runs.ShipmentsMatchStatus` | apps/core/src/commerce/domain/shipment.rules.ts:24-31 | shipped <= ordered per item; fulfilled orders are shipped whole; paid orders have something left; unpaid ones nothing shipped |
| `Runs.WholeShipmentCompletes` | apps/core/src/commerce/application/shipment.service.ts:115-132 | a shipment without item list is accepted for any paid order and completes it |
| `Stock.LocksAreNew` | apps/core/src/commerce/application/order.service.ts:129-140 | the lock rows of a new order never meet a used key |
| `Stock.ReleasesAreNew` | apps/core/src/commerce/application/order.service.ts:195-206 | nor do the release rows of a pending order |
| `Stock.DeductionsAreNew` | apps/core/src/commerce/application/payment.service.ts:171-192 | nor do the deduction rows of its payment |
| `Stock.RestoresAreNew` | apps/core/src/commerce/application/refund.service.ts:402-414 | nor do the rows a succeeding refund restores, so `skipDuplicates` drops none |
| `StockKept.StepKeepsStock` | apps/core/src/commerce/application/payment.service.ts:171-198 | every step whose command keeps off the reserved types keeps ledger and statuses in agreement |
| `StockSafety.StepKeepsSound` | apps/core/src/commerce/application/order.service.ts:74-84 | every disciplined step keeps 0 <= locked <= on hand, though only order creation looks at the balance |
| `StockSafety.StockIsSafe` | apps/core/src/commerce/domain/inventory.rules.ts:23-46 | after any disciplined run 0 <= locked <= on hand, and locked is what pending orders and direct locks hold |
| `StockSafety.StockIsConserved` | apps/core/src/commerce/domain/inventory.rules.ts:9-21 | on hand is net direct movement minus what paid orders took plus what succeeded refunds returned |
| `StockSafety.LedgerFollowsStatus` | apps/core/src/commerce/application/order.service.ts:252-271 | order and refund rows are exactly those the statuses call for, once each |
| `StockSafety.PendingOrdersCanAlwaysClose` | apps/core/src/commerce/application/order.service.ts:177-222 | in every such run cancelling a pending order succeeds, and so does expiring one that is due |
| `StockSafety.PendingPaymentsCanAlwaysSucceed` | apps/core/src/commerce/application/payment.service.ts:147-198 | a success report of the right amount is taken unless its event id is in use |
| `StockLimits.ReleaseIsSafeExactlyWithinDirectLocks` | apps/core/src/commerce/domain/inventory.rules.ts:40-41 | an accepted direct release is harmless in all later states iff it stays within the direct locks |
| `StockLimits.HandReleaseOversells` | apps/core/src/commerce/domain/inventory.rules.ts:40-41 | a five-step run that ends with a lock balance of minus three |
| `ReservedKeys.CloseNeedsFreeKeys` | apps/core/src/commerce/application/order.service.ts:195-206 | an order can be closed iff its release keys are free |
| `ReservedKeys.OrderClosesAfterCommandIff` | apps/core/src/commerce/application/inventory.service.ts:37-65 | an accepted command leaves a pending order closable iff it is no `unlock` or `out` under that order's reference for one of its SKUs |
| `ReservedKeys.OrderIsPaidAfterCommandIff` | apps/core/src/commerce/application/payment.service.ts:171-192 | and payable under the same condition |
| `ReservedKeys.KeyHistory` | apps/core/src/commerce/application/inventory.service.ts:54-79 | in every run whatever, a key a waiting order or refund will need is used iff an accepted direct command of the run wrote under it |
| `ReservedKeys.PendingOrderClosesIff` | apps/core/src/commerce/application/order.service.ts:177-222 | in every run whatever, a pending order can be cancelled iff no command of the run took one of its release keys |
| `ReservedKeys.PendingOrderIsPaidIff` | apps/core/src/commerce/application/payment.service.ts:147-198 | and a fitting success report is taken iff none did |
| `ReservedKeys.AimedReleaseIsAccepted` | apps/core/src/commerce/domain/inventory.rules.ts:40-41 | `execute` accepts a one-unit release under any pending order's reference, and the order is stuck |
| `ReservedKeys.TakenReleaseKeyBlocksOrder` | apps/core/src/commerce/application/inventory.service.ts:54-65 | a stuck order stays pending in every later state |
| `ReservedKeys.SeizedOrderStaysPending` | apps/core/src/commerce/application/inventory.service.ts:54-65 | a four-step run after which, however it goes on, its order is never cancelled, expired or paid |
| `ReservedKeys.LineIsRestoredIff` | apps/core/src/commerce/application/refund.service.ts:402-414 | in every run whatever, a succeeding refund puts a line's quantity back iff no command took its key, and nothing otherwise |
| `ReservedKeys.EverythingIsRestoredIff` | apps/core/src/commerce/application/refund.service.ts:402-414 | `skipDuplicates` skips nothing iff no command took a key of the refund |
| `ReservedKeys.RestoreIsSeized` | apps/core/src/commerce/application/inventory.service.ts:37-65 | `execute` accepts a one-unit `refund` command under a waiting refund's reference; the refund then succeeds and the line's stock stays away |
| `Causes.RefusedStepsChangeNothing` | apps/core/src/commerce/application/order.service.ts:177-222 | a throw rolls back: every refused step leaves every table as it was |
| `Causes.StatusChangesHaveCauses` | apps/core/src/commerce/domain/order.rules.ts:17-29 | every order status change, also where the source updates without consulting the table, is one the table allows and has its own cause: cancellation, deadline, full payment, shipment, or a refund of that order |
| `Causes.RefundChangesHaveCauses` | apps/core/src/commerce/domain/refund.rules.ts:34-45 | the same for refunds: only its own review and notices move one |
| `Replay.StepExtends` | apps/core/src/commerce/application/payment.service.ts:139-146 | no step takes back a settled payment, refund, key or ledger row |
| `Replay.RepeatChangesNothing` | apps/core/src/commerce/application/inventory.service.ts:37-49 | an accepted command, sent again after any further steps, changes no table |
| `Replay.RepeatsAreInvisible` | apps/core/src/commerce/application/order.service.ts:54-63 | a run with such repeats put in anywhere later ends in the same state as the run without |
| `Replay.ReusedOrderKeyIsRefused` | apps/core/src/commerce/application/order.service.ts:59-62 | a used order key with another request is refused without change |
| `Replay.ReusedRefundKeyIsRefused` | apps/core/src/commerce/application/refund.service.ts:56-64 | a used refund key answers its own request and refuses any other |
| `Replay.ReusedPaymentKeyIsRefused` | apps/core/src/commerce/application/payment.service.ts:46-54 | a used payment key answers its own order and channel and refuses any other |
| `RefundExecution.PlayIsARun` | apps/core/src/commerce/application/refund.service.ts:184-264 | any interleaving of executors, answers, notices, other use cases and crashes commits a run of whole transactions |
| `RefundExecution.ProviderIsAskedOnce` | apps/core/src/commerce/application/refund.service.ts:203-214 | whatever interleaves, the provider is asked at most once per refund, and only after a transaction was recorded |
| `RefundLimits.CrashAbandons` | apps/core/src/commerce/application/refund.service.ts:209-241 | from any world a refund can begin in, an executor that starts and dies leaves it abandoned |
| `RefundLimits.AbandonedRefundIsNeverAsked` | apps/core/src/commerce/application/refund.service.ts:203-204 | no later execution ever asks for an abandoned refund |
| `RefundLimits.RecordedRefundIsAskedIff` | apps/core/src/commerce/application/refund.service.ts:203-251 | once its transaction is recorded, some continuation asks for a refund iff it was asked for or an executor stands before its call |
| `RefundExecution.UndisturbedExecution` | apps/core/src/commerce/application/refund.service.ts:241-264 | the four phases without interference commit what `ExecuteRefund` commits and ask once |
| `RefundExecution.AccomplishedIsBookedIff` | apps/core/src/commerce/application/refund.service.ts:254-261 | an accomplished answer ends in a succeeded refund iff it is not blank and its event id is free on the channel |
| `RefundExecution.LinesAreRestoredExactlyOnce` | apps/core/src/commerce/application/refund.service.ts:402-414 | each refund line has one stock row iff the refund succeeded and none otherwise, with its quantity |
| `RefundLimits.SettledEventIsRemembered` | apps/core/src/commerce/application/refund.service.ts:291-294 | without a late write a settled transaction stays as it is in every run |
| `RefundLimits.LateUpdateIff` | apps/core/src/commerce/application/refund.service.ts:377-389 | after a late write the notice that settled the refund is acknowledged iff the write names the same event, or one already used so that it fails |
| `RefundLimits.LateAnswerIff` | apps/core/src/commerce/application/refund.service.ts:254-263 | the same of an executor that finishes with an undecided answer |
| `RefundLimits.OvertakenNoticeIsForgottenIff` | apps/core/src/commerce/application/refund.service.ts:241-263 | from any world a refund can begin in: start, ask, hear, settle by a notice, finish; the notice is then refused under exactly that condition |
| `RefundLimits.SettledNoticeIsAcknowledgedIff` | apps/core/src/commerce/application/refund.service.ts:291-294 | after any run a settled refund acknowledges a notice iff the last write that went through named its event |
| `Inbox.DelayNeverCapped` | apps/core/src/commerce/application/payment-webhook-inbox.service.ts:154-155 | for the ten attempts there are, the delay is 2^n seconds and below the cap |
| `Inbox.RetryWaits` | apps/core/src/commerce/application/payment-webhook-inbox.service.ts:154-163 | the n-th failure puts the next attempt off by exactly 2^n seconds and touches no other column but status and count |
| `Inbox.EnqueuePromise` | apps/core/src/commerce/application/payment-webhook-inbox.service.ts:38-54 | a new event is appended with no attempts and due at once; a known one changes nothing and is accepted iff its content is the same |
| `Inbox.ReplayPromise` | apps/core/src/commerce/application/payment-webhook-inbox.service.ts:119-123 | a dead letter put back is as if just delivered; other rows stay |
| `Inbox.RetriesAreBounded` | apps/core/src/commerce/application/payment-webhook-inbox.service.ts:148-169 | with one worker attempts tell the status, the tenth failure is final, and round n is read at least 2^n - 2 seconds after the first |
| `Inbox.LastAttemptIsLate` | apps/core/src/commerce/application/refund-webhook-inbox.service.ts:147-168 | a dead letter took exactly ten attempts, the last at least 1022 seconds after the first |
| `RetryBound.LoneHistory` | apps/core/src/commerce/application/payment-webhook-inbox.service.ts:58-92 | over any number of workers, crashes and replays: an event never held by two at once is what a lone worker's failed rounds made of it |
| `RetryBound.LoneEventsAreBounded` | apps/core/src/commerce/application/payment-webhook-inbox.service.ts:148-169 | its status then tells its attempts, and it is a dead letter iff it failed ten times, the last read at least 1022 seconds after the first |
| `RetryBound.MarkKeepsBoundIff` | apps/core/src/commerce/application/payment-webhook-inbox.service.ts:154-162 | a failed mark keeps an event within the bound iff the count its worker read lies on the same side of nine as the row's |
| `RetryBound.TwoWorkersMissTheBound` | apps/core/src/commerce/application/payment-webhook-inbox.service.ts:58-92 | a run from the empty world in which two workers read one count and the event ends failed with ten attempts |
| `InboxWorkers.PlayIsARun` | apps/core/src/commerce/application/payment-webhook-inbox.service.ts:58-92 | deliveries, batches, retries and crashes commit a run of whole transactions |
| `InboxWorkers.ProcessedMeansSettled` | apps/core/src/commerce/application/payment-webhook-inbox.service.ts:138-146 | a processed event has its payment at its end with that event id and trade number, or its refund at its end |
| `InboxWorkers.PaymentSettlesOnce` | apps/core/src/commerce/application/payment.service.ts:139-146 | a settled payment is never changed again, whatever is delivered or retried |
| `InboxWorkers.OtherReportsAreRefused` | apps/core/src/commerce/application/payment.service.ts:139-146 | another event id or trade number for it is refused without change |
| `InboxWorkers.StockIsDeductedOnce` | apps/core/src/commerce/application/payment.service.ts:171-192 | however often a payment is reported, each order line is deducted once, iff the order is paid or later |
| `ReportPromises.FailureReport` | apps/core/src/commerce/application/payment-webhook-inbox.service.ts:75-84 | a failure report that names a pending payment is accepted iff legible with a free event; the payment fails, orders and ledger stay |
| `ReportPromises.SuccessReport` | apps/core/src/commerce/application/payment-webhook-inbox.service.ts:75-84 | a success report that fits pays the order and takes its lines from stock; one that does not is refused |
| `ReportPromises.StrayReport` | apps/core/src/commerce/application/payment-webhook-inbox.service.ts:75-77 | a report of an unknown payment, or under another channel or number, is refused without change |
| `ReportPromises.RefundVerdict` | apps/core/src/commerce/application/refund-webhook-inbox.service.ts:77-83 | a refund report accepted for a pending transaction ends refund and transaction by its verdict |
| `ReportPromises.SettlementHasACause` | apps/core/src/commerce/application/payment-webhook-inbox.service.ts:78-84 | over any run a payment that became settled carries the identifiers and verdict of a report of the inbox or of a confirmation from elsewhere |
| `ReportPromises.ProcessedReportIsCarriedOutIff` | apps/core/src/commerce/application/payment-webhook-inbox.service.ts:72-90 | with any workers, crashes and repeats, a payment report marked processed has its verdict carried out, except exactly when a confirmation from elsewhere settled the payment the other way |
| `ReportPromises.RefundEndsIff` | apps/core/src/commerce/application/refund-webhook-inbox.service.ts:74-89 | a refund ends with a verdict iff a report or notice of that verdict was accepted while it was open |
| `ReportPromises.RefundReportIsCarriedOutIff` | apps/core/src/commerce/application/refund-webhook-inbox.service.ts:74-89 | a refund report marked processed has its verdict carried out iff the accepted one shared it |
| `InboxWorkers.EndsAreLeftByReplayOnly` | apps/core/src/commerce/application/payment-webhook-inbox.service.ts:115-136 | processed is final; a dead letter is left by replay only, back to attempt zero |
| `InboxService.LoopIsASchedule` | apps/core/src/commerce/application/payment-webhook-inbox.service.ts:72-92 | the worker's loop is a schedule of the step system in which that worker alone moves |
| `InboxService.WorkingOffStaysTruthful` | apps/core/src/commerce/application/payment-webhook-inbox.service.ts:138-146 | whatever the batch, after the loop every processed event is settled |
| `InboxService.VerdictsAreCarriedOut` | apps/core/src/commerce/application/payment-webhook-inbox.service.ts:72-90 | after a batch each processed event whose payment was pending has its own verdict carried out, and each whose refund was open that of a report about this refund |
| `InboxService.EachEventMovesOnce` | apps/core/src/commerce/application/refund-webhook-inbox.service.ts:74-91 | each event of a batch moves exactly once, to processed or one failure further |
| `InboxService.OthersUntouched` | apps/core/src/commerce/application/refund-webhook-inbox.service.ts:74-91 | no other row changes |
| `InboxService.ReturnsHowManyWereProcessed` | apps/core/src/commerce/application/payment-webhook-inbox.service.ts:72-91 | a lone worker's return value is the number of batch events left processed |
| `InboxService.WebhookInbox.Enqueue` | apps/core/src/commerce/application/payment-webhook-inbox.service.ts:28-56 | a new event is queued, a repeat ignored, another content under the same id refused |
| `InboxService.WebhookInbox.ReplayDeadLetter` | apps/core/src/commerce/application/payment-webhook-inbox.service.ts:115-122 | only a dead letter goes back to the queue, with its attempts at zero |
| `InboxService.WebhookInbox.MarkFailed` | apps/core/src/commerce/application/payment-webhook-inbox.service.ts:148-169 | one attempt more, the next due time and the status the read count calls for; ended rows stay |
| `InboxService.WebhookInbox.ProcessPending` | apps/core/src/commerce/application/payment-webhook-inbox.service.ts:58-92 | works off the earliest due events up to the limit, keeps every processed event settled, carries out the verdicts of those whose payment or refund was open, and returns how many were processed |
| `Locks.SortSorts` | apps/core/src/commerce/application/order.service.ts:193-194 | sorting the SKUs yields them all in order |
| `Locks.EveryScriptClimbs` | apps/core/src/commerce/application/order.service.ts:186-194 | every use case takes its keys in one global order, however its items are listed |
| `Locks.NoDeadlock` | apps/core/src/commerce/application/payment.service.ts:167-170 | for any number of transactions the wait-for graph is acyclic in every reachable state |
| `Locks.SomeoneCanMove` | apps/core/src/commerce/application/refund.service.ts:400-401 | while any transaction runs, some transaction can take its next key or end |
| `Locks.ScriptHas` | apps/core/src/commerce/application/order.service.ts:54-65 | a use case takes the keys of its idempotency key, payment, refund or event, of its order and of its SKUs, and no others |
| `Locks.CompetitorsTakeTurns` | apps/core/src/commerce/application/payment.service.ts:133-170 | two use cases that share an order, a SKU or such a key are never past their locks together |
| `Locks.OthersOverlap` | apps/core/src/commerce/application/inventory.service.ts:34-34 | any two that share nothing can be |
| `Locks.SettlingOverlapsRequesting` | apps/core/src/commerce/application/refund.service.ts:276-281 | so settling a refund and requesting one of the same order can be past their locks together |
| `Categories.Catalog.AssertCategoryParent` | apps/core/src/commerce/application/catalog.service.ts:251-267 | the walk ends, reports a cycle iff the category is the parent or above it, and misses no row but the requested parent |
| `Categories.AboveStep` | apps/core/src/commerce/application/catalog.service.ts:258-266 | one step of the climb: ancestors are the node and the ancestors of its parent |
| `Categories.MoveKeepsRanks` | apps/core/src/commerce/application/catalog.service.ts:91-101 | moving a category under one that is not below it keeps a measure that falls along every climb |
| `Categories.CategoriesStayAForest` | apps/core/src/commerce/application/catalog.service.ts:79-109 | after any steps, one after another, no category is its own ancestor, every ancestor of a live one is live, names are unique |
| `Categories.ConcurrentMovesFormCycleIff` | apps/core/src/commerce/application/catalog.service.ts:86-101 | two moves cleared on the same rows form a cycle iff each puts its category below the other's |
| `Categories.TwoMovesFormCycle` | apps/core/src/commerce/application/catalog.service.ts:86-101 | two top categories moved under each other at the same time do |
| `Categories.DeleteMeetsCreateIff` | apps/core/src/commerce/application/catalog.service.ts:28-33 | a delete and a create cleared on the same rows leave a live category under a deleted one iff the one is the other's parent |
| `Categories.RestoreUndoesDelete` | apps/core/src/commerce/application/catalog.service.ts:175-200 | a deleted category can be restored at once, unchanged but for status and version |
| `Categories.Catalog.Create` | apps/core/src/commerce/application/catalog.service.ts:19-53 | a new live row under a live parent, or an error and no change; the forest stays one |
| `Categories.Catalog.Update` | apps/core/src/commerce/application/catalog.service.ts:79-109 | an edit at the version read, under a parent the walk cleared; the forest stays one |
| `Categories.Catalog.Delete` | apps/core/src/commerce/application/catalog.service.ts:175-187 | only a row without products and live children is marked |
| `Categories.Catalog.Restore` | apps/core/src/commerce/application/catalog.service.ts:189-200 | only a marked row under a live parent comes back |
| `CategoryPromises.CreatePromise` | apps/core/src/commerce/application/catalog.service.ts:23-41 | a category is created iff its name is new and fits, its order fits and its parent is live or absent; the row is as sent |
| `CategoryPromises.UpdatePromise` | apps/core/src/commerce/application/catalog.service.ts:83-103 | an edit is accepted iff the row is live at the version sent, the fields fit and the new parent is live and not below it; name, order, status and parent are then as sent and the version one up, on that row only |
| `CategoryPromises.DeletePromise` | apps/core/src/commerce/application/catalog.service.ts:175-187 | a category is deleted iff it is live without products and live children |
| `CategoryPromises.RestorePromise` | apps/core/src/commerce/application/catalog.service.ts:189-200 | a deleted one is restored, inactive, iff its parent is live or absent |
| `CategoryPromises.UpdateErrors` | apps/core/src/commerce/application/catalog.service.ts:83-103 | which error each refused edit gets, a missing parent and a cycle being the same one |
| `CategoryPromises.OtherErrors` | apps/core/src/commerce/application/catalog.service.ts:175-200 | which error each refused creation, deletion and restoration gets, and that none changes a row |
| `CategoryPromises.VersionCountsChanges` | apps/core/src/commerce/application/catalog.service.ts:93-101 | over any run a row's version rises by exactly the accepted changes of it, and without one the row is as it was |
| `CategoryPromises.StaleEditIsRefused` | apps/core/src/commerce/application/catalog.service.ts:93-103 | an edit read before any other accepted change of the row is refused and changes nothing |
| `CategoryPromises.OneOfTwoEditsWins` | apps/core/src/commerce/application/catalog.service.ts:93-103 | of two edits read at one version the later is refused, whatever happened between |
| `Bill.Compare` | apps/core/src/commerce/application/payment-bill-reconciliation.service.ts:112-154 | the two loops report the verdict on every local entry and then every unknown provider entry |
| `Bill.NoDifferencesIff` | apps/core/src/commerce/application/payment-bill-reconciliation.service.ts:119-153 | for any lists: nothing is reported iff every local entry equals the bill's last entry for its number and no bill entry is unknown |
| `Bill.MatchedMeansEqual` | apps/core/src/commerce/application/payment-bill-reconciliation.service.ts:112-154 | for distinct numbers: nothing is reported iff both lists are the same map |
| `Bill.ReportsTheRightKind` | apps/core/src/commerce/application/payment-bill-reconciliation.service.ts:121-145 | a reported number carries the kind that fits what both sides hold |
| `Bill.ReportsWhatEachSideLists` | apps/core/src/commerce/application/payment-bill-reconciliation.service.ts:119-153 | a report quotes each amount as its side lists it and the provider's trade number, and leaves out what a side does not list |
| `Bill.ReportsAll` | apps/core/src/commerce/application/payment-bill-reconciliation.service.ts:119-153 | every number that should be reported is |
| `Bill.ReportsOnce` | apps/core/src/commerce/application/payment-bill-reconciliation.service.ts:119-153 | no number is reported twice |
| `Bill.SharedCountsAgree` | apps/core/src/commerce/application/payment-bill-reconciliation.service.ts:67-69 | local count minus missing_provider equals provider count minus missing_local |
| `Bill.RepeatedNumbersHide` | apps/core/src/commerce/application/payment-bill-reconciliation.service.ts:116-117 | a matched bill stays matched when any earlier entry for a listed number is put in front |
| `Csv.Columns` | apps/core/src/commerce/infrastructure/wechat-pay.provider.ts:225-239 | the loop over characters yields the columns of the recursive scan |
| `Csv.ScanEncoded` | apps/core/src/commerce/infrastructure/wechat-pay.provider.ts:225-239 | any line encoded by section 2 of RFC 4180 yields its fields without quotes and outer blanks |
| `Csv.RoundTripIff` | apps/core/src/commerce/infrastructure/wechat-pay.provider.ts:225-239 | the fields come back unchanged, commas included, iff all are trimmed and free of quotes |
| `Money.CentsAreExact` | apps/core/src/commerce/infrastructure/wechat-pay.provider.ts:269-272 | the cents are a hundred times the number, rounded down; exact up to two decimals |
| `Money.MoneyTextConverts` | apps/core/src/commerce/domain/product.rules.ts:29-33 | every money text but zero is converted exactly, and the safe-integer bound never applies |
| `Money.CentsRoundTrip` | apps/core/src/commerce/infrastructure/wechat-pay-callback.service.ts:99-101 | cents to text and back is the identity from 1 to the safe-integer bound; the text is a money text iff below 10^12 |
| `Money.AmountRoundTrip` | apps/core/src/commerce/infrastructure/wechat-pay.provider.ts:269-275 | an accepted text comes back as it was iff it is in standard form |
| `Prices.CompareIsNumeric` | apps/miniapp/src/utils/product-view.ts:37-49 | comparing two price texts has the sign of the difference in cents, whatever zeros, plus signs or decimals they carry |
| `Prices.MoneyComparesExactly` | apps/miniapp/src/utils/product-view.ts:37-44 | for money texts that is the sign of the numeric difference |
| `Prices.LowestPriceIsMinimum` | apps/miniapp/src/utils/product-view.ts:14-19 | the lowest price is one of the prices, none is lower, and it is the first that low |

## Left out

- Tenants: one tenant is modelled. The unique key on a payment's channel and event id spans tenants in the schema; here it spans the one.
- Identifiers as text: SKU, category and row identifiers are numbers, so empty identifiers do not occur.
- Database isolation below the transaction: each transaction is one atomic step. Row locks and serialization failures are not modelled; a failed attempt changes nothing and can be repeated.
- Hash collisions of advisory-lock keys and of request fingerprints: keys and fingerprints are taken as distinct for distinct inputs.
- Store.CommerceStore.ExpirePending: the query's answer is an argument, stale or not; what the query finds is the condition `IsScan`, under which the contract says more.
- InboxService.WebhookInbox.ProcessPending: takes the query's answer as an argument that must meet the query's conditions; payment and refund events share one table here and are told apart by their payload.
- Store.CommerceStore.BeginExecute: the latest succeeded payment is taken without regard to `paidAt`, because at most one succeeds.
- Categories.CategoriesStayAForest: its transactions run one after another, though the source takes no lock and no serializable isolation for them; of overlapping ones only two moves, and a delete beside a create, are treated.
- Money.CentsAreExact: texts with letters, signs, exponents or several points, which the source hands to `Number`, are outside the model; callers send decimal columns.
- Bill.Compare: an amount that is no decimal makes the source throw; amounts are decimals here.
- The reading of a whole trade bill: line splitting, the header search and row filters of `parseTradeBill` around the columns that `Csv` recovers.
- The payment timeout setting is a whole number of minutes here; a setting that is no number is read as thirty before the model begins.
- Order request details (customer, address, remark) and refund reasons are compared as whole texts; their length limits beyond the reason's and the review note's are not modelled.
- Product drafts, publishing, images, intake quotas, media, usage metering and tenant state.
- Audit logs, outbox rows, callback routes, notification texts and response formats.
- Provider calls, signatures, encryption and HTTP: a provider's answer is an arbitrary value.
