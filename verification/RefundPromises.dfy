/** What requesting, reviewing, starting and settling a refund promise, in terms of the tables alone. */
module RefundPromises {
  import opened Wrappers
  import opened Summation
  import opened Inventory
  import opened Tables
  import opened Orders
  import opened Refunds
  import opened Books
  import opened BooksKept
  import opened Runs
  import opened ReservedKeys
  import opened RefundLimits
  import Text

  // --------------------------------------------------------------- requesting

  predicate WellFormed(request: RefundRequest) {
    && Text.Trim(request.key) != "" && |request.key| <= 100
    && Text.Trim(request.reason) != "" && |Text.Trim(request.reason)| <= 500
    && |request.lines| > 0
    && (forall i :: 0 <= i < |request.lines| ==> 0 < request.lines[i].quantity <= 0x1F_FFFF_FFFF_FFFF)
    && (forall i, j :: 0 <= i < j < |request.lines| ==> request.lines[i].item != request.lines[j].item)
  }

  /** The line names an item of the order and asks for no more than no other refund holds. */
  predicate FitsOrder(db: Db, orderId: nat, ask: LineAsk)
    requires orderId < |db.orders|
  {
    && ask.item.orderId == orderId && ask.item.index < |db.orders[orderId].items|
    && ask.quantity <=
       db.orders[orderId].items[ask.item.index].quantity - ReservedQty(db.refunds, orderId, ask.item.index)
  }

  /** What the asked quantities are worth at the order's own prices. */
  function Worth(items: seq<OrderItem>, asks: seq<LineAsk>): int {
    if |asks| == 0 then 0
    else
      var last := asks[|asks| - 1];
      Worth(items, asks[..|asks| - 1]) +
      if last.item.index < |items| then items[last.item.index].unitPrice * last.quantity else 0
  }

  ghost predicate FreshKey(db: Db, key: string) {
    forall r :: 0 <= r < |db.refunds| ==> db.refunds[r].request.key != key
  }

  lemma KeyIsFree(db: Db, key: string)
    requires FreshKey(db, key)
    ensures Find(db.refunds, RefundKeyed(key)).None?
  {
  }

  lemma {:induction false} PricedIsWorth(items: seq<OrderItem>, asks: seq<LineAsk>)
    requires forall i :: 0 <= i < |asks| ==> asks[i].item.index < |items| && asks[i].quantity > 0
    ensures Sum(PricedLines(items, asks), AmountOf) == Worth(items, asks)
  {
    if |asks| > 0 {
      var n := |asks| - 1;
      PricedIsWorth(items, asks[..n]);
      var lines := PricedLines(items, asks);
      assert lines[..n] == PricedLines(items, asks[..n]);
      assert lines == lines[..n] + [lines[n]];
      Append(lines[..n], lines[n], AmountOf);
    }
  }

  lemma {:induction false} WorthIsPositive(items: seq<OrderItem>, asks: seq<LineAsk>)
    requires forall i :: 0 <= i < |asks| ==>
               asks[i].item.index < |items| && items[asks[i].item.index].unitPrice * asks[i].quantity > 0
    ensures Worth(items, asks) >= 0 && (|asks| > 0 ==> Worth(items, asks) > 0)
  {
    if |asks| > 0 {
      WorthIsPositive(items, asks[..|asks| - 1]);
    }
  }

  lemma ReservedIsNonNegative(db: Db, o: nat)
    requires Valid(db) && o < |db.orders|
    ensures ReservedAmount(db.refunds, o) >= 0
  {
    forall r | r in db.refunds ensures ActiveAmountOf(o)(r) >= 0 {
      assert RefundShape(db.orders, r);
    }
    NonNegative(db.refunds, ActiveAmountOf(o));
  }

  lemma LinesFitIff(db: Db, orderId: nat, asks: seq<LineAsk>)
    requires orderId < |db.orders| && forall i :: 0 <= i < |asks| ==> asks[i].quantity > 0
    ensures LinesRefusal(db, orderId, asks).None? <==> forall i :: 0 <= i < |asks| ==> FitsOrder(db, orderId, asks[i])
  {
    hide ReservedQty;
    forall i | 0 <= i < |asks| ensures LineRefusal(db, orderId, asks[i]).None? <==> FitsOrder(db, orderId, asks[i]) {
    }
    hide LinesRefusal; hide LineRefusal; hide FitsOrder;
  }

  /** The money caps and the check of the amounts, on lines that fit. */
  lemma {:induction false} AddingIsAcceptedIff(db: Db, orderId: nat, request: RefundRequest, lines: seq<RefundLine>)
    requires orderId < |db.orders| && ReservedAmount(db.refunds, orderId) >= 0 && |lines| > 0
    requires (forall i :: 0 <= i < |lines| ==> lines[i].amount > 0) ==> Sum(lines, AmountOf) > 0
    ensures AddRefund(db, orderId, request, lines).result.Ok? <==>
              && (forall i :: 0 <= i < |lines| ==> lines[i].amount > 0)
              && Sum(lines, AmountOf) + ReservedAmount(db.refunds, orderId) <= db.orders[orderId].total
  {
    hide ReservedAmount; hide Sum;
  }

  /** What a request under a fresh key must meet, in terms of the order and its other refunds. */
  predicate Accepts(db: Db, orderId: nat, request: RefundRequest) {
    && WellFormed(request) && orderId < |db.orders|
    && (db.orders[orderId].status == Paid || db.orders[orderId].status == Fulfilled
        || db.orders[orderId].status == PartiallyRefunded)
    && (forall i :: 0 <= i < |request.lines| ==>
          && FitsOrder(db, orderId, request.lines[i])
          && db.orders[orderId].items[request.lines[i].item.index].unitPrice * request.lines[i].quantity > 0)
    && Worth(db.orders[orderId].items, request.lines) + ReservedAmount(db.refunds, orderId) <= db.orders[orderId].total
  }

  /**
   With a fresh key a refund is accepted iff the request is well formed, the order is paid, fulfilled or
   partially refunded, every line fits what no other refund holds and is worth something, and together
   with the other refunds the money stays within the total.
   */
  lemma RefundIsAcceptedIff(db: Db, orderId: nat, request: RefundRequest)
    requires Valid(db) && FreshKey(db, request.key)
    ensures CreateRefund(db, orderId, request).result.Ok? <==> Accepts(db, orderId, request)
  {
    hide Valid; hide AddRefund; hide Text.Trim; hide Find; hide LinesRefusal; hide Worth; hide FitsOrder;
    hide ReservedAmount;
    KeyIsFree(db, request.key);
    if ValidRefundRequest(request) && orderId < |db.orders| {
      LinesFitIff(db, orderId, request.lines);
      if LinesRefusal(db, orderId, request.lines).None? {
        FittingRequest(db, orderId, request);
      }
    }
  }

  lemma FittingRequest(db: Db, orderId: nat, request: RefundRequest)
    requires Valid(db) && orderId < |db.orders| && ValidRefundRequest(request)
    requires LinesRefusal(db, orderId, request.lines).None?
    ensures AddRefund(db, orderId, request, LinesFor(db, orderId, request)).result.Ok? <==>
              && (forall i :: 0 <= i < |request.lines| ==>
                    && request.lines[i].item.index < |db.orders[orderId].items|
                    && db.orders[orderId].items[request.lines[i].item.index].unitPrice * request.lines[i].quantity > 0)
              && Worth(db.orders[orderId].items, request.lines) + ReservedAmount(db.refunds, orderId)
                 <= db.orders[orderId].total
  {
    hide Valid; hide AddRefund; hide Text.Trim; hide ReservedAmount; hide Sum; hide LinesRefusal; hide FitsOrder;
    LinesFitIff(db, orderId, request.lines);
    LinesAre(db, orderId, request);
    ReservedIsNonNegative(db, orderId);
    var items, lines := db.orders[orderId].items, LinesFor(db, orderId, request);
    if forall i :: 0 <= i < |lines| ==> lines[i].amount > 0 {
      forall i | 0 <= i < |lines| ensures items[request.lines[i].item.index].unitPrice * request.lines[i].quantity > 0 {
        assert lines[i].amount > 0;
      }
      WorthIsPositive(items, request.lines);
    }
    AddingIsAcceptedIff(db, orderId, request, lines);
  }

  lemma LinesAre(db: Db, orderId: nat, request: RefundRequest)
    requires orderId < |db.orders| && ValidRefundRequest(request)
    requires LinesRefusal(db, orderId, request.lines).None?
    ensures var items, lines := db.orders[orderId].items, LinesFor(db, orderId, request);
            && |lines| == |request.lines|
            && (forall i :: 0 <= i < |lines| ==>
                  && request.lines[i].item.index < |items|
                  && lines[i] == RefundLine(request.lines[i].item.index, request.lines[i].quantity,
                                            items[request.lines[i].item.index].unitPrice * request.lines[i].quantity))
            && Sum(lines, AmountOf) == Worth(items, request.lines)
  {
    hide Text.Trim; hide Sum; hide ReservedQty;
    var items := db.orders[orderId].items;
    assert forall i :: 0 <= i < |request.lines| ==> LineRefusal(db, orderId, request.lines[i]).None?;
    PricedIsWorth(items, request.lines);
  }

  /** The first line that does not fit. */
  ghost predicate FirstMisfit(db: Db, orderId: nat, asks: seq<LineAsk>, i: nat)
    requires orderId < |db.orders| && i < |asks|
  {
    !FitsOrder(db, orderId, asks[i]) && forall j :: 0 <= j < i ==> FitsOrder(db, orderId, asks[j])
  }

  lemma {:induction false} FirstMisfitDecides(db: Db, orderId: nat, asks: seq<LineAsk>) returns (i: nat)
    requires orderId < |db.orders| && (forall k :: 0 <= k < |asks| ==> asks[k].quantity > 0)
    requires LinesRefusal(db, orderId, asks).Some?
    ensures i < |asks| && FirstMisfit(db, orderId, asks, i)
    ensures LinesRefusal(db, orderId, asks) ==
            if asks[i].item.orderId == orderId && asks[i].item.index < |db.orders[orderId].items|
            then Some(Conflict) else Some(NotFound)
    decreases |asks|
  {
    hide ReservedQty;
    var n := |asks| - 1;
    LinesFitIff(db, orderId, asks[..n]);
    if LinesRefusal(db, orderId, asks[..n]).Some? {
      i := FirstMisfitDecides(db, orderId, asks[..n]);
    } else {
      i := n;
    }
  }

  /** Not found means: no such order, or the first line that does not fit names nothing of it. */
  lemma RefundNotFoundIff(db: Db, orderId: nat, request: RefundRequest)
    requires FreshKey(db, request.key)
    ensures CreateRefund(db, orderId, request).result == Err(NotFound) <==>
              && WellFormed(request)
              && (|| orderId >= |db.orders|
                  || (&& Refundable(db.orders[orderId].status)
                      && exists i :: 0 <= i < |request.lines| && FirstMisfit(db, orderId, request.lines, i) &&
                           !(request.lines[i].item.orderId == orderId
                             && request.lines[i].item.index < |db.orders[orderId].items|)))
  {
    hide Text.Trim; hide Find; hide LinesRefusal; hide FitsOrder; hide AddRefund; hide LinesFor;
    KeyIsFree(db, request.key);
    if ValidRefundRequest(request) && orderId < |db.orders| && Refundable(db.orders[orderId].status) {
      LinesFitIff(db, orderId, request.lines);
      if LinesRefusal(db, orderId, request.lines).Some? {
        var i := FirstMisfitDecides(db, orderId, request.lines);
        assert forall k :: 0 <= k < |request.lines| && FirstMisfit(db, orderId, request.lines, k) ==> k == i;
      } else {
        AddingErrors(db, orderId, request, LinesFor(db, orderId, request));
      }
    }
  }

  /** Of lines that fit, only worthless ones are a constraint; exceeding the total is a conflict. */
  lemma AddingErrors(db: Db, orderId: nat, request: RefundRequest, lines: seq<RefundLine>)
    requires orderId < |db.orders|
    ensures AddRefund(db, orderId, request, lines).result.Err? ==>
              AddRefund(db, orderId, request, lines).result.error ==
              if Sum(lines, AmountOf) <= db.orders[orderId].total
                 && Sum(lines, AmountOf) + ReservedAmount(db.refunds, orderId) <= db.orders[orderId].total
              then Constraint else Conflict
  {
    hide ReservedAmount; hide Sum;
  }

  /** The refund a request asks for: line by line, at the order's prices, waiting for review. */
  ghost predicate AsAsked(items: seq<OrderItem>, orderId: nat, request: RefundRequest, refund: Refund) {
    && refund.orderId == orderId && refund.request == request && refund.status == PendingReview
    && |refund.lines| == |request.lines|
    && (forall i :: 0 <= i < |request.lines| ==>
          && refund.lines[i].item == request.lines[i].item.index < |items|
          && refund.lines[i].quantity == request.lines[i].quantity
          && refund.lines[i].amount == items[refund.lines[i].item].unitPrice * request.lines[i].quantity)
    && refund.amount == Worth(items, request.lines)
  }

  /** An accepted refund waits for review, line by line as asked, at the order's prices; nothing else changes. */
  lemma RefundIsAsAsked(db: Db, orderId: nat, request: RefundRequest)
    requires FreshKey(db, request.key) && CreateRefund(db, orderId, request).result.Ok?
    ensures orderId < |db.orders|
    ensures var outcome, r := CreateRefund(db, orderId, request), |db.refunds|;
            && outcome.result == Ok(r) && outcome.db == db.(refunds := outcome.db.refunds)
            && |outcome.db.refunds| == r + 1 && outcome.db.refunds[..r] == db.refunds
            && AsAsked(db.orders[orderId].items, orderId, request, outcome.db.refunds[r])
  {
    hide Text.Trim; hide Find; hide LinesRefusal; hide LinesFor; hide Worth; hide ReservedAmount; hide Sum;
    KeyIsFree(db, request.key);
    LinesAre(db, orderId, request);
  }

  /** All that remains of an item can be asked back: the quantity check lets the last unit through. */
  lemma LastUnitsFit(db: Db, orderId: nat, item: nat)
    requires orderId < |db.orders| && item < |db.orders[orderId].items|
    ensures var left := db.orders[orderId].items[item].quantity - ReservedQty(db.refunds, orderId, item);
            left > 0 ==>
              && LineRefusal(db, orderId, LineAsk(ItemRef(orderId, item), left)) == None
              && LineRefusal(db, orderId, LineAsk(ItemRef(orderId, item), left + 1)) == Some(Conflict)
  {
    hide ReservedQty;
  }

  lemma {:induction false} WholeIsWorth(items: seq<OrderItem>, asks: seq<LineAsk>)
    requires |asks| <= |items|
    requires forall i :: 0 <= i < |asks| ==> asks[i].item.index == i && asks[i].quantity == items[i].quantity
    ensures Worth(items, asks) == Subtotal(items[..|asks|])
  {
    if |asks| > 0 {
      var n := |asks| - 1;
      WholeIsWorth(items, asks[..n]);
      assert items[..n + 1] == items[..n] + [items[n]];
      Append(items[..n], items[n], LineTotal);
    }
  }

  /** The request asks back every item of the order in full. */
  predicate AsksForAll(request: RefundRequest, orderId: nat, items: seq<OrderItem>) {
    && |request.lines| == |items|
    && forall i :: 0 <= i < |items| ==> request.lines[i] == LineAsk(ItemRef(orderId, i), items[i].quantity)
  }

  /** An order without other refunds can be asked back as a whole iff its discount does not exceed its shipping fee. */
  lemma WholeOrderIsRefundableIff(db: Db, orderId: nat, request: RefundRequest)
    requires Valid(db) && FreshKey(db, request.key) && WellFormed(request) && orderId < |db.orders|
    requires db.orders[orderId].status == Paid || db.orders[orderId].status == Fulfilled
             || db.orders[orderId].status == PartiallyRefunded
    requires AsksForAll(request, orderId, db.orders[orderId].items)
    requires forall r :: 0 <= r < |db.refunds| && db.refunds[r].orderId == orderId ==> !Active(db.refunds[r].status)
    requires forall i :: 0 <= i < |db.orders[orderId].items| ==> db.orders[orderId].items[i].unitPrice > 0
    ensures CreateRefund(db, orderId, request).result.Ok? <==>
              db.orders[orderId].request.discount <= db.orders[orderId].request.shippingFee
  {
    hide Valid; hide CreateRefund; hide Text.Trim; hide Subtotal; hide Worth; hide LineRefusal;
    var items := db.orders[orderId].items;
    ShapeOf(db, orderId);
    RefundIsAcceptedIff(db, orderId, request);
    WholeIsWorth(items, request.lines);
    assert items[..|items|] == items;
    NothingReserved(db, orderId);
    forall i | 0 <= i < |items| ensures items[i].unitPrice * items[i].quantity > 0 {
    }
  }

  lemma NothingReserved(db: Db, o: nat)
    requires forall r :: 0 <= r < |db.refunds| && db.refunds[r].orderId == o ==> !Active(db.refunds[r].status)
    ensures ReservedAmount(db.refunds, o) == 0 && forall i: nat :: ReservedQty(db.refunds, o, i) == 0
  {
    Zero(db.refunds, ActiveAmountOf(o));
    forall i: nat ensures ReservedQty(db.refunds, o, i) == 0 {
      Zero(db.refunds, ActiveQtyOf(o, i));
    }
  }

  // ----------------------------------------------------------------- reviewing

  /** A review is accepted iff its note is short and the refund awaits one; only the status changes. */
  lemma ReviewPromise(db: Db, id: nat, approved: bool, note: string)
    ensures ReviewRefund(db, id, approved, note).result.Ok? <==>
              |Text.Trim(note)| <= 500 && id < |db.refunds| && db.refunds[id].status == PendingReview
    ensures ReviewRefund(db, id, approved, note).result.Ok? ==>
              ReviewRefund(db, id, approved, note).db == db.(refunds :=
                db.refunds[id := db.refunds[id].(status := if approved then Approved else Rejected)])
  {
    hide Text.Trim;
  }

  // ------------------------------------------------------ what refunds hold back

  /** A request holds its quantities and its amount from the moment it is accepted. */
  lemma RequestHolds(db: Db, orderId: nat, request: RefundRequest, o: nat, item: nat)
    requires FreshKey(db, request.key) && CreateRefund(db, orderId, request).result.Ok?
    ensures var after := CreateRefund(db, orderId, request).db;
            && |after.refunds| == |db.refunds| + 1
            && var refund := after.refunds[|db.refunds|];
               && ReservedQty(after.refunds, o, item) ==
                  ReservedQty(db.refunds, o, item) + (if o == orderId then LineQty(refund.lines, item) else 0)
               && ReservedAmount(after.refunds, o) ==
                  ReservedAmount(db.refunds, o) + (if o == orderId then refund.amount else 0)
  {
    hide LineQty; hide CreateRefund; hide Worth;
    RefundIsAsAsked(db, orderId, request);
    var after := CreateRefund(db, orderId, request).db;
    assert after.refunds == db.refunds + [after.refunds[|db.refunds|]];
    Append(db.refunds, after.refunds[|db.refunds|], ActiveQtyOf(o, item));
    Append(db.refunds, after.refunds[|db.refunds|], ActiveAmountOf(o));
  }

  /** A rejection lets go of both; an approval of neither. */
  lemma ReviewHolds(db: Db, id: nat, approved: bool, note: string, o: nat, item: nat)
    requires ReviewRefund(db, id, approved, note).result.Ok?
    ensures id < |db.refunds|
    ensures var after, refund := ReviewRefund(db, id, approved, note).db, db.refunds[id];
            && ReservedQty(after.refunds, o, item) ==
               ReservedQty(db.refunds, o, item)
               - (if !approved && o == refund.orderId then LineQty(refund.lines, item) else 0)
            && ReservedAmount(after.refunds, o) ==
               ReservedAmount(db.refunds, o) - (if !approved && o == refund.orderId then refund.amount else 0)
  {
    hide LineQty; hide Text.Trim;
    ReviewPromise(db, id, approved, note);
    var refund := ReviewRefund(db, id, approved, note).db.refunds[id];
    Update(db.refunds, id, refund, ActiveQtyOf(o, item));
    Update(db.refunds, id, refund, ActiveAmountOf(o));
  }

  /** Settling moves them from held to refunded, or lets go of them if the provider failed. */
  lemma NoticeHolds(db: Db, k: nat, id: nat, n: RefundNotice, o: nat, item: nat)
    requires Valid(db) && db.Linked() && k < |db.transactions| && db.transactions[k].refundId == id
    requires db.transactions[k].status == TxPending && ConfirmRefund(db, id, n).result.Ok?
    ensures id < |db.refunds|
    ensures var after, refund := ConfirmRefund(db, id, n).db, db.refunds[id];
            var quantity := if o == refund.orderId then LineQty(refund.lines, item) else 0;
            && ReservedQty(after.refunds, o, item) ==
               ReservedQty(db.refunds, o, item) - (if n.succeeded then 0 else quantity)
            && RefundedQty(after.refunds, o, item) ==
               RefundedQty(db.refunds, o, item) + (if n.succeeded then quantity else 0)
  {
    hide LineQty; hide Valid; hide ConfirmRefund; hide Db.Linked; hide Legible; hide EventFree;
    PendingIsApproved(db, k, id);
    NoticePromise(db, k, id, n);
    var refund := ConfirmRefund(db, id, n).db.refunds[id];
    Update(db.refunds, id, refund, ActiveQtyOf(o, item));
    Update(db.refunds, id, refund, SucceededQtyOf(o, item));
  }

  lemma RejectedHoldsNothing(db: Db, orderId: nat, request: RefundRequest, note: string)
    requires FreshKey(db, request.key) && CreateRefund(db, orderId, request).result.Ok?
    requires ReviewRefund(CreateRefund(db, orderId, request).db, |db.refunds|, false, note).result.Ok?
    ensures var after := ReviewRefund(CreateRefund(db, orderId, request).db, |db.refunds|, false, note).db;
            && after.orders == db.orders
            && ReservedAmount(after.refunds, orderId) == ReservedAmount(db.refunds, orderId)
            && forall item: nat :: ReservedQty(after.refunds, orderId, item) == ReservedQty(db.refunds, orderId, item)
  {
    hide CreateRefund; hide Text.Trim; hide ReservedQty; hide ReservedAmount; hide LineQty;
    var asked := CreateRefund(db, orderId, request).db;
    RefundIsAsAsked(db, orderId, request);
    ReviewPromise(asked, |db.refunds|, false, note);
    forall item: nat
      ensures && ReservedQty(ReviewRefund(asked, |db.refunds|, false, note).db.refunds, orderId, item) ==
                 ReservedQty(db.refunds, orderId, item)
              && ReservedAmount(ReviewRefund(asked, |db.refunds|, false, note).db.refunds, orderId) ==
                 ReservedAmount(db.refunds, orderId)
    {
      RequestHolds(db, orderId, request, orderId, item);
      ReviewHolds(asked, |db.refunds|, false, note, orderId, item);
    }
    assert ReservedQty(ReviewRefund(asked, |db.refunds|, false, note).db.refunds, orderId, 0) ==
           ReservedQty(db.refunds, orderId, 0);
  }

  /** What was asked and rejected can be asked for again, under another key. */
  lemma RejectedCanBeAskedAgain(db: Db, orderId: nat, request: RefundRequest, note: string, again: RefundRequest)
    requires Valid(db) && FreshKey(db, request.key) && CreateRefund(db, orderId, request).result.Ok?
    requires var asked := CreateRefund(db, orderId, request).db;
             && ReviewRefund(asked, |db.refunds|, false, note).result.Ok?
             && again.lines == request.lines && WellFormed(again) && FreshKey(asked, again.key)
    ensures var rejected := ReviewRefund(CreateRefund(db, orderId, request).db, |db.refunds|, false, note).db;
            CreateRefund(rejected, orderId, again).result.Ok?
  {
    hide Valid; hide CreateRefund; hide Text.Trim; hide ReservedQty; hide ReservedAmount; hide Worth; hide WellFormed;
    RejectedHoldsNothing(db, orderId, request, note);
    RefundIsAcceptedIff(db, orderId, request);
    var asked := CreateRefund(db, orderId, request).db;
    CreateRefundKeeps(db, orderId, request);
    ReviewRefundKeeps(asked, |db.refunds|, false, note);
    var rejected := ReviewRefund(asked, |db.refunds|, false, note).db;
    RefundIsAcceptedIff(rejected, orderId, again);
  }

  // ------------------------------------------------------------------ starting

  /** In valid books the provider is to be asked iff the refund is approved and has no transaction yet. */
  lemma RefundBeginsIff(db: Db, id: nat)
    requires Valid(db) && db.Linked()
    ensures BeginExecute(db, id).result == Ok(1) <==>
              id < |db.refunds| && db.refunds[id].status == Approved && !Recorded(db, id)
  {
    hide OrdersOk; hide CapsOk; hide StatusesExact; hide ShipmentsOk; hide TransactionsOk; hide Db.Linked;
    if id < |db.refunds| && db.refunds[id].status == Approved {
      var found := Find(db.transactions, ForRefund(id));
      if found.Some? {
        assert ForRefund(id)(db.transactions[found.value]);
      }
      assert RefundShape(db.orders, db.refunds[id]);
      var o := db.refunds[id].orderId;
      var p := SomeWinner(db.payments, o);
      assert SucceededFor(o)(db.payments[p]);
    } else {
      BeginNeedsApproval(db, id);
    }
  }

  lemma BeginNeedsApproval(db: Db, id: nat)
    requires db.Linked() && !(id < |db.refunds| && db.refunds[id].status == Approved)
    ensures BeginExecute(db, id).result != Ok(1)
  {
    hide Find; hide Db.Linked;
  }

  /** It records one pending transaction over the refund's amount, on the channel the order was paid through. */
  lemma RefundBeginsAs(db: Db, id: nat)
    requires Valid(db) && db.Linked() && BeginExecute(db, id).result == Ok(1)
    ensures id < |db.refunds|
    ensures var after, k := BeginExecute(db, id).db, |db.transactions|;
            && after == db.(transactions := after.transactions)
            && |after.transactions| == k + 1 && after.transactions[..k] == db.transactions
            && var t := after.transactions[k];
               && t == Transaction(id, t.channel, TxPending, db.refunds[id].amount, None, None)
               && forall p | 0 <= p < |db.payments| && SucceededFor(db.refunds[id].orderId)(db.payments[p]) ::
                    db.payments[p].channel == t.channel
  {
    hide Valid; hide Db.Linked;
    forall p | 0 <= p < |db.payments| && db.payments[p].orderId == db.refunds[id].orderId
                 && db.payments[p].status == PaymentSucceeded
      ensures Find(db.payments, SucceededFor(db.refunds[id].orderId)) == Some(p)
    {
      PayerIsUnique(db, id, p);
    }
  }

  lemma PayerIsUnique(db: Db, id: nat, p: nat)
    requires Valid(db) && db.Linked() && id < |db.refunds| && p < |db.payments|
    requires db.payments[p].orderId == db.refunds[id].orderId && db.payments[p].status == PaymentSucceeded
    ensures Find(db.payments, SucceededFor(db.refunds[id].orderId)) == Some(p)
  {
    var o := db.refunds[id].orderId;
    assert db.refunds[id] in db.refunds;
    assert SucceededFor(o)(db.payments[p]);
    OnePaymentWinsIn(db, o);
    hide Valid;
    var found := Find(db.payments, SucceededFor(o));
    assert SucceededFor(o)(db.payments[found.value]);
  }

  /** No other transaction of the channel carries the event. */
  ghost predicate EventFree(db: Db, k: nat, eventId: string)
    requires k < |db.transactions|
  {
    forall i :: 0 <= i < |db.transactions| && i != k && db.transactions[i].channel == db.transactions[k].channel ==>
      db.transactions[i].eventId != Some(eventId)
  }

  /** An undecided answer is written down iff its event is free, and only the two identifiers change. */
  lemma PendingUpdatePromise(db: Db, k: nat, eventId: string, refundNo: string)
    ensures UpdatePending(db, k, eventId, refundNo).result.Ok? <==> k < |db.transactions| && EventFree(db, k, eventId)
    ensures UpdatePending(db, k, eventId, refundNo).result.Ok? ==>
              UpdatePending(db, k, eventId, refundNo).db == db.(transactions :=
                db.transactions[k := db.transactions[k].(eventId := Some(eventId), refundNo := Some(refundNo))])
  {
  }

  // ------------------------------------------------------------------ settling

  /** The notice names its event and refund number, and an amount that fits the column. */
  predicate Legible(eventId: string, refundNo: string, amount: int) {
    Text.Trim(eventId) != "" && Text.Trim(refundNo) != "" && 0 <= amount < 1_000_000_000_000
  }

  /** What a notice leaves: its verdict on transaction and refund, and its two identifiers. */
  ghost predicate SettledAs(
    db: Db, after: Db, k: nat, id: nat, eventId: string, refundNo: string, succeeded: bool)
    requires k < |db.transactions| && id < |db.refunds|
  {
    && after == db.(transactions := after.transactions, refunds := after.refunds, ledger := after.ledger,
                    orders := after.orders)
    && after.transactions == db.transactions[k := db.transactions[k].(
         status := if succeeded then TxSucceeded else TxFailed,
         eventId := Some(eventId), refundNo := Some(refundNo))]
    && after.refunds == db.refunds[id := db.refunds[id].(status := if succeeded then RefundSucceeded else RefundFailed)]
    && (!succeeded ==> after.ledger == db.ledger && after.orders == db.orders)
  }

  lemma PendingIsApproved(db: Db, k: nat, id: nat)
    requires Valid(db) && db.Linked() && k < |db.transactions| && db.transactions[k].refundId == id
    requires db.transactions[k].status == TxPending
    ensures id < |db.refunds| && db.refunds[id].status == Approved && Find(db.transactions, ForRefund(id)) == Some(k)
  {
    hide OrdersOk; hide PaymentsOk; hide RefundsOk; hide CapsOk; hide StatusesExact; hide ShipmentsOk;
    assert ForRefund(id)(db.transactions[k]);
    var found := Find(db.transactions, ForRefund(id)).value;
    assert ForRefund(id)(db.transactions[found]);
  }

  /** A notice on a pending transaction is taken iff it is legible, names the refund's amount and a free event. */
  lemma NoticePromise(db: Db, k: nat, id: nat, n: RefundNotice)
    requires Valid(db) && db.Linked() && k < |db.transactions| && db.transactions[k].refundId == id
    requires db.transactions[k].status == TxPending
    ensures id < |db.refunds|
    ensures ConfirmRefund(db, id, n).result.Ok? <==>
              Legible(n.eventId, n.refundNo, n.amount) && n.amount == db.refunds[id].amount && EventFree(db, k, n.eventId)
    ensures ConfirmRefund(db, id, n).result.Ok? ==>
              SettledAs(db, ConfirmRefund(db, id, n).db, k, id, n.eventId, n.refundNo, n.succeeded)
  {
    hide Valid; hide Text.Trim; hide Find; hide FullyRefunded; hide RestoreRows; hide InsertSkippingDuplicates;
    PendingIsApproved(db, k, id);
  }

  /** Which error a refused notice gets. */
  lemma NoticeErrors(db: Db, id: nat, n: RefundNotice)
    requires Valid(db) && db.Linked() && ConfirmRefund(db, id, n).result.Err?
    ensures ConfirmRefund(db, id, n).result.error ==
            if !Legible(n.eventId, n.refundNo, n.amount) then Conflict
            else if id >= |db.refunds| then NotFound
            else if exists k :: 0 <= k < |db.transactions| && db.transactions[k].refundId == id
                      && db.transactions[k].status == TxPending && n.amount == db.refunds[id].amount then Constraint
            else Conflict
  {
    hide Valid; hide Text.Trim; hide FullyRefunded; hide RestoreRows; hide InsertSkippingDuplicates;
    hide RefundEventTaken;
    forall k: nat | k < |db.transactions| && db.transactions[k].refundId == id && db.transactions[k].status == TxPending
      ensures id < |db.refunds| && db.refunds[id].status == Approved && Find(db.transactions, ForRefund(id)) == Some(k)
    {
      PendingIsApproved(db, k, id);
    }
  }

  /** After a success the order says whether succeeded refunds now cover all of it; no other order changes. */
  lemma SuccessMovesTheOrder(db: Db, k: nat, id: nat, n: RefundNotice)
    requires Valid(db) && db.Linked() && k < |db.transactions| && db.transactions[k].refundId == id
    requires db.transactions[k].status == TxPending && ConfirmRefund(db, id, n).result.Ok? && n.succeeded
    ensures id < |db.refunds| && db.refunds[id].orderId < |db.orders|
    ensures var o, after := db.refunds[id].orderId, ConfirmRefund(db, id, n).db;
            after.orders == db.orders[o := db.orders[o].(status :=
              if forall i :: 0 <= i < |db.orders[o].items| ==>
                   RefundedQty(after.refunds, o, i) >= db.orders[o].items[i].quantity
              then Refunded else PartiallyRefunded)]
  {
    hide Text.Trim; hide Find; hide RestoreRows; hide InsertSkippingDuplicates; hide RefundedQty; hide RefundEventTaken;
    hide OrdersOk; hide PaymentsOk; hide CapsOk; hide StatusesExact; hide ShipmentsOk; hide TransactionsOk;
    PendingIsApproved(db, k, id);
    OpenRefundLeavesOrderOpen(db, id);
    assert db.refunds[id] in db.refunds;
  }
}
