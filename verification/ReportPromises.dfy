/**
 What a report from the inbox does: its verdict, and nothing else, decides how the payment or refund it
 names ends. This holds for one report, for a worker's batch, and over whole runs of the workers.
 */
module ReportPromises {
  import opened Wrappers
  import opened Inventory
  import opened Tables
  import opened Orders
  import opened Payments
  import opened Refunds
  import opened Shipments
  import opened Steps
  import opened Books
  import opened Replay
  import opened Causes
  import opened InboxWorkers
  import I = Inbox
  import PP = PaymentPromises
  import RP = RefundPromises

  // ---------------------------------------------------------------- one report

  /** The report names a payment by its number, on its channel. */
  predicate Names(db: Db, e: I.InboxEvent, p: nat) {
    && e.payload.PaymentReport? && e.payload.paymentId == p && p < |db.payments|
    && db.payments[p].channel == e.channel && db.payments[p].number == e.payload.number
  }

  /** A failure report fails the pending payment it names and touches nothing else. */
  lemma FailureReport(db: Db, e: I.InboxEvent, p: nat)
    requires db.Linked() && Names(db, e, p) && db.payments[p].status == PaymentPending && !e.payload.succeeded
    ensures I.Handle(db, e).result.Ok? <==>
              PP.Legible(e.eventId, e.payload.tradeNo, e.payload.amount) && PP.EventFree(db, p, e.eventId)
    ensures I.Handle(db, e).result.Ok? ==>
              I.Handle(db, e).db == db.(payments :=
                db.payments[p := PP.SettledAs(db.payments[p], PaymentFailed, e.eventId, e.payload.tradeNo)])
  {
    hide ConfirmPayment; hide PP.Legible; hide PP.EventFree; hide Db.Linked;
    PP.FailureReportPromise(db, p, Confirmation(e.eventId, e.payload.tradeNo, e.payload.amount, e.payload.succeeded));
  }

  /** A success report pays the order and sells its stock, if it fits; otherwise it is refused. */
  lemma SuccessReport(db: Db, e: I.InboxEvent, p: nat)
    requires Valid(db) && db.Linked() && Names(db, e, p)
    requires db.payments[p].status == PaymentPending && e.payload.succeeded
    ensures db.payments[p].orderId < |db.orders|
    ensures var o := db.payments[p].orderId;
            I.Handle(db, e).result.Ok? <==>
              && PP.Legible(e.eventId, e.payload.tradeNo, e.payload.amount) && PP.EventFree(db, p, e.eventId)
              && e.payload.amount == db.payments[p].amount
              && db.orders[o].status == Pending && PP.SaleKeysFree(db, o)
    ensures I.Handle(db, e).result.Ok? ==> PP.SoldAs(db, I.Handle(db, e).db, p, e.eventId, e.payload.tradeNo)
  {
    hide ConfirmPayment; hide PP.Legible; hide PP.EventFree; hide PP.SaleKeysFree; hide PP.SoldAs; hide Valid;
    PP.SuccessReportPromise(db, p, Confirmation(e.eventId, e.payload.tradeNo, e.payload.amount, e.payload.succeeded));
  }

  /** A report of a payment that is not there, or has another channel or number, changes nothing. */
  lemma StrayReport(db: Db, e: I.InboxEvent)
    requires db.Linked() && e.payload.PaymentReport? && !Names(db, e, e.payload.paymentId)
    ensures I.Handle(db, e) == Outcome(db, Err(if e.payload.paymentId >= |db.payments| then NotFound else Conflict))
  {
    hide Db.Linked;
  }

  /** A refund report settles refund and transaction by its verdict, if it fits; a failure touches nothing else. */
  lemma RefundVerdict(db: Db, e: I.InboxEvent, k: nat)
    requires Valid(db) && db.Linked() && e.payload.RefundReport? && k < |db.transactions|
    requires db.transactions[k].refundId == e.payload.refundId && db.transactions[k].status == TxPending
    ensures e.payload.refundId < |db.refunds|
    ensures I.Handle(db, e).result.Ok? <==>
              && RP.Legible(e.eventId, e.payload.refundNo, e.payload.amount)
              && e.payload.amount == db.refunds[e.payload.refundId].amount && RP.EventFree(db, k, e.eventId)
    ensures I.Handle(db, e).result.Ok? ==>
              RP.SettledAs(db, I.Handle(db, e).db, k, e.payload.refundId,
                           e.eventId, e.payload.refundNo, e.payload.succeeded)
  {
    hide ConfirmRefund; hide RP.Legible; hide RP.EventFree; hide RP.SettledAs; hide Valid; hide Db.Linked;
    RP.NoticePromise(db, k, e.payload.refundId,
                     RefundNotice(e.eventId, e.payload.refundNo, e.payload.amount, e.payload.succeeded));
  }

  // -------------------------------------------------------------- over whole runs

  function PaymentEnd(succeeded: bool): PaymentStatus {
    if succeeded then PaymentSucceeded else PaymentFailed
  }

  function RefundEnd(succeeded: bool): RefundStatus {
    if succeeded then RefundSucceeded else RefundFailed
  }

  /** The payment or refund the event names ended the way the event reports. */
  predicate Agrees(db: Db, e: I.InboxEvent) {
    match e.payload
    case PaymentReport(id, _, _, _, succeeded) => id < |db.payments| && db.payments[id].status == PaymentEnd(succeeded)
    case RefundReport(id, _, _, succeeded) => id < |db.refunds| && db.refunds[id].status == RefundEnd(succeeded)
  }

  /** The payment carries this event's identifiers and ended by its verdict. */
  predicate Reported(e: I.InboxEvent, p: nat, payment: Payment) {
    && e.payload.PaymentReport? && e.payload.paymentId == p && e.channel == payment.channel
    && payment.eventId == Some(e.eventId) && payment.tradeNo == Some(e.payload.tradeNo)
    && payment.status == PaymentEnd(e.payload.succeeded)
  }

  /** The payment was pending and is now settled by a confirmation from outside the inbox. */
  predicate ConfirmedDirectly(world: World, event: Event, p: nat, payment: Payment)
    requires world.db.Linked()
  {
    && event.Elsewhere? && event.step.PaymentConfirm? && event.step.id == p
    && p < |world.db.payments| && world.db.payments[p].status == PaymentPending
    && ConfirmPayment(world.db, p, event.step.confirmation).result.Ok?
    && payment.eventId == Some(event.step.confirmation.eventId)
    && payment.tradeNo == Some(event.step.confirmation.tradeNo)
    && payment.status == PaymentEnd(event.step.confirmation.succeeded)
  }

  /** What any accepted confirmation leaves on a payment it settles. */
  lemma ConfirmationSettles(db: Db, p: nat, c: Confirmation)
    requires Valid(db) && db.Linked() && p < |db.payments| && db.payments[p].status == PaymentPending
    requires ConfirmPayment(db, p, c).result.Ok?
    ensures var after := ConfirmPayment(db, p, c).db;
            && p < |after.payments| && after.payments[p].status == PaymentEnd(c.succeeded)
            && after.payments[p].eventId == Some(c.eventId) && after.payments[p].tradeNo == Some(c.tradeNo)
            && after.payments[p].channel == db.payments[p].channel
  {
    hide ConfirmPayment; hide Valid; hide Db.Linked; hide PP.SaleKeysFree; hide PP.EventFree; hide PP.Legible;
    if c.succeeded {
      PP.SuccessReportPromise(db, p, c);
    } else {
      PP.FailureReportPromise(db, p, c);
    }
  }

  /** Only confirming a payment settles it. */
  lemma OthersSettleNone(db: Db, step: Step, p: nat)
    requires db.Linked() && p < |Apply(db, step).db.payments| && Apply(db, step).db.payments[p].status != PaymentPending
    requires !(step.PaymentConfirm? && step.id == p)
    ensures p < |db.payments| && db.payments[p] == Apply(db, step).db.payments[p]
  {
    hide Insertable; hide Find; hide Execute; hide OrderRows; hide DeductionRows; hide EventTaken; hide Db.Linked;
    hide LinesFor; hide LinesRefusal; hide ShipLinesRefusal; hide Requested; hide FullyShipped; hide FullyRefunded;
    hide RestoreRows; hide RefundEventTaken; hide ValidNotice; hide ValidRefundRequest; hide ValidShipmentRequest;
    hide ValidOrderRequest; hide Lockable;
  }

  /** When an event of the system settles a payment, a report in the inbox or a direct confirmation did. */
  lemma EventSettles(world: World, event: Event, p: nat)
    requires Valid(world.db) && world.db.Linked()
    requires p >= |world.db.payments| || world.db.payments[p].status == PaymentPending
    requires p < |Next(world, event).db.payments| && Next(world, event).db.payments[p].status != PaymentPending
    ensures var payment := Next(world, event).db.payments[p];
            || (exists m :: 0 <= m < |world.events| && Reported(world.events[m], p, payment))
            || ConfirmedDirectly(world, event, p, payment)
  {
    hide Valid; hide Apply; hide I.Handle; hide ConfirmPayment; hide Next; hide PaymentsExtend; hide RefundsExtend;
    DbFollows(world, event);
    var step := StepOf(world, event).value;
    if !(step.PaymentConfirm? && step.id == p) {
      OthersSettleNone(world.db, step, p);
    }
    var c := step.confirmation;
    AcceptedSettles(world.db, p, c);
    ConfirmationSettles(world.db, p, c);
    if event.Work? {
      assert Reported(world.events[world.workers[event.w].todo[0].event], p, Next(world, event).db.payments[p]);
    }
  }

  lemma AcceptedSettles(db: Db, p: nat, c: Confirmation)
    requires db.Linked() && Apply(db, PaymentConfirm(p, c)).db != db
    ensures p < |db.payments| && ConfirmPayment(db, p, c).result.Ok?
    ensures Apply(db, PaymentConfirm(p, c)).db == ConfirmPayment(db, p, c).db
  {
    hide Insertable; hide DeductionRows; hide EventTaken; hide ValidConfirmation; hide Db.Linked;
  }

  /** A payment that was not settled at first and is now was settled by a report of the inbox or directly. */
  lemma {:induction false} SettlementHasACause(world: World, events: seq<Event>, p: nat)
    requires Orderly(world) && (p >= |world.db.payments| || world.db.payments[p].status == PaymentPending)
    requires p < |Play(world, events).db.payments| && Play(world, events).db.payments[p].status != PaymentPending
    ensures var after := Play(world, events);
            || (exists m :: 0 <= m < |after.events| && Reported(after.events[m], p, after.db.payments[p]))
            || (exists j :: 0 <= j < |events|
                  && ConfirmedDirectly(Play(world, events[..j]), events[j], p, after.db.payments[p]))
  {
    hide Orderly; hide Next; hide ConfirmedDirectly; hide RefundsExtend; hide Valid; hide Db.Linked;
    if |events| == 0 {
      PlayNothing(world);
    } else {
      var n := |events| - 1;
      var before, after := Play(world, events[..n]), Play(world, events);
      assert events == events[..n] + [events[n]];
      PlayMore(world, events[..n], events[n]);
      OrderlyBooks(before);
      EventsAreKept(before, events[n]);
      if p < |before.db.payments| && before.db.payments[p].status != PaymentPending {
        SettlementHasACause(world, events[..n], p);
        DbFollows(before, events[n]);
        if j :| 0 <= j < n && ConfirmedDirectly(Play(world, events[..n][..j]), events[..n][j], p, before.db.payments[p]) {
          assert events[..n][..j] == events[..j];
          assert ConfirmedDirectly(Play(world, events[..j]), events[j], p, after.db.payments[p]);
        } else {
          var m :| 0 <= m < |before.events| && Reported(before.events[m], p, before.db.payments[p]);
          assert Reported(after.events[m], p, after.db.payments[p]);
        }
      } else {
        EventSettles(before, events[n], p);
        if m :| 0 <= m < |before.events| && Reported(before.events[m], p, after.db.payments[p]) {
          assert Reported(after.events[m], p, after.db.payments[p]);
        }
      }
    }
  }

  lemma OrderlyBooks(world: World)
    requires Orderly(world)
    ensures Valid(world.db)
  {
  }

  lemma {:induction false} PlayKeepsEvents(world: World, events: seq<Event>)
    requires Orderly(world)
    ensures EventsKept(world.events, Play(world, events).events)
  {
    hide Orderly; hide Next;
    if |events| == 0 {
      PlayNothing(world);
    } else {
      var n := |events| - 1;
      PlayKeepsEvents(world, events[..n]);
      EventsAreKept(Play(world, events[..n]), events[n]);
    }
  }

  // ------------------------------------------------------- verdicts of payments

  /** The unique key of an inbox: payment and refund events are tables of their own. */
  ghost predicate UniqueEvents(events: seq<I.InboxEvent>) {
    forall i, j :: 0 <= i < j < |events| ==>
      !(events[i].payload.PaymentReport? == events[j].payload.PaymentReport?
        && events[i].channel == events[j].channel && events[i].eventId == events[j].eventId)
  }

  lemma EventsStayUnique(world: World, event: Event)
    requires world.db.Linked() && UniqueEvents(world.events)
    ensures UniqueEvents(Next(world, event).events)
  {
    hide I.Handle; hide Apply;
    EventsAreKept(world, event);
    if |Next(world, event).events| > |world.events| {
      NewEventIsNew(world.events, event.channel, event.eventId, event.payload, event.now);
    }
  }

  lemma NewEventIsNew(events: seq<I.InboxEvent>, channel: string, eventId: string, payload: I.Payload, now: int)
    requires UniqueEvents(events)
    ensures UniqueEvents(I.Enqueue(events, channel, eventId, payload, now).events)
  {
    if Find(events, I.Matching(payload, channel, eventId)).None? {
      forall i | 0 <= i < |events| ensures !I.Matching(payload, channel, eventId)(events[i]) {
      }
    }
  }

  lemma {:induction false} PlayedEventsAreUnique(world: World, events: seq<Event>)
    requires Orderly(world) && UniqueEvents(world.events)
    ensures UniqueEvents(Play(world, events).events)
  {
    hide Orderly; hide Next; hide UniqueEvents;
    if |events| == 0 {
      PlayNothing(world);
    } else {
      PlayedEventsAreUnique(world, events[..|events| - 1]);
      EventsStayUnique(Play(world, events[..|events| - 1]), events[|events| - 1]);
    }
  }

  /** A confirmation from outside the inbox settles the pending payment against this report's verdict. */
  predicate Overruled(world: World, event: Event, e: I.InboxEvent)
    requires world.db.Linked()
  {
    && e.payload.PaymentReport? && event.Elsewhere? && event.step.PaymentConfirm?
    && event.step.id == e.payload.paymentId && event.step.confirmation.succeeded != e.payload.succeeded
    && event.step.id < |world.db.payments| && world.db.payments[event.step.id].status == PaymentPending
    && ConfirmPayment(world.db, event.step.id, event.step.confirmation).result.Ok?
  }

  /** A run is the run up to an event, that event, and the rest. */
  lemma PlayThrough(world: World, events: seq<Event>, j: nat)
    requires Orderly(world) && j < |events|
    ensures var next := Next(Play(world, events[..j]), events[j]);
            Orderly(next) && Play(world, events) == Play(next, events[j + 1..])
  {
    hide Orderly; hide Next; hide Play;
    assert events[..j + 1] == events[..j] + [events[j]];
    PlayMore(world, events[..j], events[j]);
    PlayConcat(world, events[..j + 1], events[j + 1..]);
    assert events[..j + 1] + events[j + 1..] == events;
  }

  lemma OverruledNow(world: World, event: Event, e: I.InboxEvent)
    requires Valid(world.db) && world.db.Linked() && Overruled(world, event, e)
    ensures var p, after := e.payload.paymentId, Next(world, event).db;
            p < |after.payments| && after.payments[p].status == PaymentEnd(!e.payload.succeeded)
  {
    hide Valid; hide Next; hide ConfirmPayment; hide Db.Linked;
    ConfirmationSettles(world.db, e.payload.paymentId, event.step.confirmation);
    ElsewhereConfirms(world, e.payload.paymentId, event.step.confirmation);
  }

  lemma OverruledForGood(world: World, events: seq<Event>, j: nat, e: I.InboxEvent)
    requires Orderly(world) && j < |events| && Overruled(Play(world, events[..j]), events[j], e)
    ensures e.payload.PaymentReport? && !Agrees(Play(world, events).db, e)
  {
    hide Orderly; hide Next; hide Play; hide Valid; hide ConfirmPayment;
    var at := Play(world, events[..j]);
    OrderlyBooks(at);
    OverruledNow(at, events[j], e);
    PlayThrough(world, events, j);
    PaymentSettlesOnce(Next(at, events[j]), events[j + 1..], e.payload.paymentId);
  }

  lemma ElsewhereConfirms(world: World, p: nat, c: Confirmation)
    requires world.db.Linked()
    ensures Next(world, Elsewhere(PaymentConfirm(p, c))).db == ConfirmPayment(world.db, p, c).db
  {
    hide ConfirmPayment;
  }

  lemma SameReport(db: Db, events: seq<I.InboxEvent>, m: nat, e: I.InboxEvent)
    requires UniqueEvents(events) && e in events && m < |events|
    requires e.payload.PaymentReport? && InboxWorkers.Settled(db, e)
    requires Reported(events[m], e.payload.paymentId, db.payments[e.payload.paymentId])
    ensures Agrees(db, e)
  {
    var i :| 0 <= i < |events| && events[i] == e;
    assert m == i;
  }

  lemma OtherConfirmation(world: World, event: Event, db: Db, e: I.InboxEvent)
    requires world.db.Linked() && e.payload.PaymentReport? && InboxWorkers.Settled(db, e)
    requires ConfirmedDirectly(world, event, e.payload.paymentId, db.payments[e.payload.paymentId])
    ensures Overruled(world, event, e) || Agrees(db, e)
  {
    hide ConfirmPayment; hide Db.Linked;
  }

  /** A settled payment that carries the report's event agrees with it, unless it was overruled. */
  lemma SettledAgreesIff(world: World, events: seq<Event>, e: I.InboxEvent)
    requires Orderly(world) && UniqueEvents(world.events) && e.payload.PaymentReport?
    requires e in Play(world, events).events && InboxWorkers.Settled(Play(world, events).db, e)
    requires e.payload.paymentId < |world.db.payments| ==> world.db.payments[e.payload.paymentId].status == PaymentPending
    ensures Agrees(Play(world, events).db, e) <==>
              forall j | 0 <= j < |events| :: !Overruled(Play(world, events[..j]), events[j], e)
  {
    hide Orderly; hide Play; hide Db.Linked; hide ConfirmedDirectly; hide Overruled; hide Agrees; hide UniqueEvents;
    hide Reported;
    PlayedEventsAreUnique(world, events);
    var after, p := Play(world, events), e.payload.paymentId;
    SettlementHasACause(world, events, p);
    if m :| 0 <= m < |after.events| && Reported(after.events[m], p, after.db.payments[p]) {
      SameReport(after.db, after.events, m, e);
    } else {
      var j :| 0 <= j < |events| && ConfirmedDirectly(Play(world, events[..j]), events[j], p, after.db.payments[p]);
      OtherConfirmation(Play(world, events[..j]), events[j], after.db, e);
    }
    forall j | 0 <= j < |events| && Overruled(Play(world, events[..j]), events[j], e) ensures !Agrees(after.db, e) {
      OverruledForGood(world, events, j, e);
    }
  }

  /**
   However often it was delivered and by however many workers, a payment report marked processed has
   its verdict carried out, unless and only unless a confirmation from outside the inbox had settled
   the payment the other way.
   */
  lemma ProcessedReportIsCarriedOutIff(events: seq<Event>, i: nat)
    requires i < |Played(events).events| && Played(events).events[i].status.Processed?
    requires Played(events).events[i].payload.PaymentReport?
    ensures Agrees(Played(events).db, Played(events).events[i]) <==>
              forall j | 0 <= j < |events| :: !Overruled(Played(events[..j]), events[j], Played(events).events[i])
  {
    hide Play; hide Orderly; hide Overruled; hide InboxWorkers.Settled; hide Agrees;
    FreshIsOrderly();
    ProcessedMeansSettled(events, i);
    SettledAgreesIff(Fresh, events, Played(events).events[i]);
    forall j | 0 <= j < |events| ensures Played(events[..j]) == Play(Fresh, events[..j]) {
    }
  }

  // -------------------------------------------------------- verdicts of refunds

  predicate Over(status: RefundStatus) {
    status == RefundSucceeded || status == RefundFailed
  }

  /** A report taken up by a worker, or a notice from elsewhere, with this verdict is accepted for an open refund. */
  predicate Decides(world: World, event: Event, r: nat, verdict: bool)
    requires world.db.Linked()
  {
    && r < |world.db.refunds| && !Over(world.db.refunds[r].status)
    && match event
       case Work(w) =>
         && Busy(world, w) && world.workers[w].stage.Ready?
         && var e := world.events[world.workers[w].todo[0].event];
            && e.payload.RefundReport? && e.payload.refundId == r && e.payload.succeeded == verdict
            && I.Handle(world.db, e).result.Ok?
       case Elsewhere(step) =>
         && step.RefundConfirm? && step.id == r && step.notice.succeeded == verdict
         && ConfirmRefund(world.db, r, step.notice).result.Ok?
       case _ => false
  }

  lemma NoticeDecides(db: Db, r: nat, n: RefundNotice)
    requires Valid(db) && db.Linked() && r < |db.refunds| && !Over(db.refunds[r].status)
    requires ConfirmRefund(db, r, n).result.Ok?
    ensures var after := ConfirmRefund(db, r, n).db;
            r < |after.refunds| && after.refunds[r].status == RefundEnd(n.succeeded)
  {
    hide RestoreRows; hide FullyRefunded; hide InsertSkippingDuplicates; hide ValidNotice;
    hide OrdersOk; hide PaymentsOk; hide RefundsOk; hide CapsOk; hide StatusesExact; hide ShipmentsOk;
    var k := Find(db.transactions, ForRefund(r)).value;
    assert ForRefund(r)(db.transactions[k]);
    if db.transactions[k].status != TxPending {
      SettledTransactionSettlesRefund(db.refunds, db.transactions, k);
    }
  }

  lemma DecisionIsWritten(world: World, event: Event, r: nat, verdict: bool)
    requires Valid(world.db) && world.db.Linked() && Decides(world, event, r, verdict)
    ensures r < |Next(world, event).db.refunds| && Next(world, event).db.refunds[r].status == RefundEnd(verdict)
  {
    hide ConfirmRefund; hide ConfirmPayment; hide Valid; hide Db.Linked;
    match event
    case Work(w) =>
      var e := world.events[world.workers[w].todo[0].event];
      NoticeDecides(world.db, r, RefundNotice(e.eventId, e.payload.refundNo, e.payload.amount, e.payload.succeeded));
    case Elsewhere(step) => NoticeDecides(world.db, r, step.notice);
    case _ =>
  }

  lemma EndIsDecided(world: World, event: Event, r: nat)
    requires Valid(world.db) && world.db.Linked()
    requires r < |world.db.refunds| ==> !Over(world.db.refunds[r].status)
    requires r < |Next(world, event).db.refunds| && Over(Next(world, event).db.refunds[r].status)
    ensures Decides(world, event, r, Next(world, event).db.refunds[r].status == RefundSucceeded)
  {
    hide ConfirmRefund; hide ConfirmPayment; hide Valid; hide Db.Linked; hide PaymentsExtend; hide RefundsExtend;
    DbFollows(world, event);
    var step := StepOf(world, event).value;
    RefundChangesHaveCauses(world.db, step);
    if Apply(world.db, step).result.Err? {
      RefusedStepsChangeNothing(world.db, step);
    }
  }

  /** A refund ends with a verdict exactly when a notice of that verdict was accepted while it was open. */
  lemma {:induction false} RefundEndsIff(world: World, events: seq<Event>, r: nat, verdict: bool)
    requires Orderly(world) && (r < |world.db.refunds| ==> !Over(world.db.refunds[r].status))
    ensures var after := Play(world, events).db;
            r < |after.refunds| && after.refunds[r].status == RefundEnd(verdict) <==>
            exists j :: 0 <= j < |events| && Decides(Play(world, events[..j]), events[j], r, verdict)
  {
    hide Orderly; hide Next; hide Decides; hide Valid; hide Db.Linked; hide Play; hide PaymentsExtend;
    if |events| == 0 {
      PlayNothing(world);
      assert events == [];
    } else {
      var n := |events| - 1;
      var before, after := Play(world, events[..n]), Play(world, events);
      assert events == events[..n] + [events[n]];
      PlayMore(world, events[..n], events[n]);
      OrderlyBooks(before);
      RefundEndsIff(world, events[..n], r, verdict);
      forall j | 0 <= j < n ensures events[..n][..j] == events[..j] && events[..n][j] == events[j] {
      }
      DbFollows(before, events[n]);
      if Decides(before, events[n], r, verdict) {
        DecisionIsWritten(before, events[n], r, verdict);
      }
      if r < |after.db.refunds| && Over(after.db.refunds[r].status)
         && !(r < |before.db.refunds| && Over(before.db.refunds[r].status)) {
        EndIsDecided(before, events[n], r);
      }
    }
  }

  /** A refund report marked processed has its verdict carried out iff the notice that decided the refund shared it. */
  lemma RefundReportIsCarriedOutIff(events: seq<Event>, i: nat)
    requires i < |Played(events).events| && Played(events).events[i].status.Processed?
    requires Played(events).events[i].payload.RefundReport?
    ensures var e := Played(events).events[i];
            var r, verdict := e.payload.refundId, e.payload.succeeded;
            && (Agrees(Played(events).db, e) <==>
                  exists j :: 0 <= j < |events| && Decides(Played(events[..j]), events[j], r, verdict))
            && (!Agrees(Played(events).db, e) <==>
                  exists j :: 0 <= j < |events| && Decides(Played(events[..j]), events[j], r, !verdict))
  {
    hide Play; hide Orderly; hide Decides;
    FreshIsOrderly();
    ProcessedMeansSettled(events, i);
    var e := Played(events).events[i];
    RefundEndsIff(Fresh, events, e.payload.refundId, e.payload.succeeded);
    RefundEndsIff(Fresh, events, e.payload.refundId, !e.payload.succeeded);
    forall j | 0 <= j < |events| ensures Played(events[..j]) == Play(Fresh, events[..j]) {
    }
  }
}
