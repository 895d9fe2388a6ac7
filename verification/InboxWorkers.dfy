/**
 Inbox workers over the commerce tables: any number of them, holding batches read at different
 times, each free to stop between settling a payment and marking its event.
 */
module InboxWorkers {
  import opened Wrappers
  import opened Inventory
  import opened Tables
  import opened Payments
  import opened Refunds
  import opened Steps
  import opened Books
  import opened BooksKept
  import opened Runs
  import opened Stock
  import opened StockSafety
  import opened Replay
  import I = Inbox

  /** An event of a batch, with the attempts read along with it, and when. */
  datatype Note = Note(event: nat, attempts: nat, readAt: int)

  /** Ready for the next note; handled it and due to mark it processed, or failed; or stopped. */
  datatype Stage = Ready | Confirmed | Broken | Gone

  datatype Worker = Worker(todo: seq<Note>, stage: Stage)

  datatype World = World(db: Db, events: seq<I.InboxEvent>, workers: seq<Worker>)

  datatype Event =
    | Deliver(channel: string, eventId: string, payload: I.Payload, now: int)
    | Fetch(picked: seq<nat>, now: int)
    | Work(w: nat)
    | Mark(w: nat, now: int)
    | Stumble(w: nat)
    | Crash(w: nat)
    | Revive(event: nat, now: int)
    | Elsewhere(step: Step)

  predicate Busy(world: World, w: nat) {
    w < |world.workers| && |world.workers[w].todo| > 0 && world.workers[w].todo[0].event < |world.events|
  }

  /** The transaction of a worker that takes up its next event. */
  function StepFor(e: I.InboxEvent): Step {
    match e.payload
    case PaymentReport(id, number, tradeNo, amount, succeeded) =>
      PaymentConfirm(id, Confirmation(e.eventId, tradeNo, amount, succeeded))
    case RefundReport(id, refundNo, amount, succeeded) =>
      RefundConfirm(id, RefundNotice(e.eventId, refundNo, amount, succeeded))
  }

  function Staged(world: World, w: nat, worker: Worker): seq<Worker>
    requires w < |world.workers|
  {
    world.workers[w := worker]
  }

  function Next(world: World, event: Event): World
    requires world.db.Linked()
  {
    match event
    case Deliver(channel, eventId, payload, now) =>
      world.(events := I.Enqueue(world.events, channel, eventId, payload, now).events)
    case Fetch(picked, now) =>
      if |picked| <= 100 && forall i :: 0 <= i < |picked| ==>
           picked[i] < |world.events| && I.Due(world.events[picked[i]], now)
      then
        var todo := seq(|picked|, i requires 0 <= i < |picked| && picked[i] < |world.events| =>
          Note(picked[i], world.events[picked[i]].attempts, now));
        world.(workers := world.workers + [Worker(todo, Ready)])
      else world
    case Work(w) =>
      if Busy(world, w) && world.workers[w].stage.Ready? then
        var outcome := I.Handle(world.db, world.events[world.workers[w].todo[0].event]);
        world.(db := outcome.db,
               workers := Staged(world, w, world.workers[w].(
                 stage := if outcome.result.Ok? then Confirmed else Broken)))
      else world
    case Mark(w, now) =>
      if Busy(world, w) && (world.workers[w].stage.Confirmed? || world.workers[w].stage.Broken?) then
        var note := world.workers[w].todo[0];
        var e := world.events[note.event];
        world.(events := world.events[note.event :=
                 if world.workers[w].stage.Confirmed? then I.MarkProcessed(e) else I.MarkFailed(e, note.attempts, now)],
               workers := Staged(world, w, Worker(world.workers[w].todo[1..], Ready)))
      else world
    case Stumble(w) =>
      if Busy(world, w) && world.workers[w].stage.Confirmed? then
        world.(workers := Staged(world, w, world.workers[w].(stage := Broken)))
      else world
    case Crash(w) =>
      if w < |world.workers| then world.(workers := Staged(world, w, world.workers[w].(stage := Gone))) else world
    case Revive(i, now) =>
      if i < |world.events| then world.(events := world.events[i := I.Replay(world.events[i], now)]) else world
    case Elsewhere(step) => world.(db := Apply(world.db, step).db)
  }

  // ---------------------------------------------------------------- invariants

  /** The event's own payment, or refund, has reached its end. */
  ghost predicate Settled(db: Db, e: I.InboxEvent) {
    match e.payload
    case PaymentReport(id, number, tradeNo, amount, succeeded) =>
      && id < |db.payments|
      && db.payments[id].channel == e.channel && db.payments[id].number == number
      && !db.payments[id].status.PaymentPending?
      && db.payments[id].eventId == Some(e.eventId)
      && db.payments[id].tradeNo == Some(tradeNo)
    case RefundReport(id, refundNo, amount, succeeded) =>
      && id < |db.refunds|
      && (db.refunds[id].status.RefundSucceeded? || db.refunds[id].status.RefundFailed?)
  }

  ghost predicate MarkedTruly(world: World) {
    && (forall i :: 0 <= i < |world.events| && world.events[i].status.Processed? ==> Settled(world.db, world.events[i]))
    && (forall w :: 0 <= w < |world.workers| && world.workers[w].stage.Confirmed? && Busy(world, w) ==>
          Settled(world.db, world.events[world.workers[w].todo[0].event]))
  }

  ghost predicate NotesPoint(world: World) {
    forall w, k :: 0 <= w < |world.workers| && 0 <= k < |world.workers[w].todo| ==>
      world.workers[w].todo[k].event < |world.events|
  }

  ghost predicate Orderly(world: World) {
    Valid(world.db) && NotesPoint(world) && MarkedTruly(world)
  }

  lemma PaymentHandled(db: Db, e: I.InboxEvent)
    requires Valid(db) && db.Linked() && e.payload.PaymentReport? && I.Handle(db, e).result.Ok?
    ensures Settled(I.Handle(db, e).db, e)
  {
    hide Insertable; hide EventTaken; hide DeductionRows; hide Valid; hide ValidConfirmation;
    assert db.payments[e.payload.paymentId].status.PaymentPending? ||
           I.Handle(db, e).db == db;
  }

  lemma RefundHandled(db: Db, e: I.InboxEvent)
    requires Valid(db) && db.Linked() && e.payload.RefundReport? && I.Handle(db, e).result.Ok?
    ensures Settled(I.Handle(db, e).db, e)
  {
    var n := RefundNotice(e.eventId, e.payload.refundNo, e.payload.amount, e.payload.succeeded);
    ConfirmRefundKeeps(db, e.payload.refundId, n);
    var k := NoticeSettles(db, e.payload.refundId, n);
    var after := I.Handle(db, e).db;
    SettledTransactionSettlesRefund(after.refunds, after.transactions, k);
  }

  lemma SettledTransactionSettlesRefund(refunds: seq<Refund>, transactions: seq<Transaction>, k: nat)
    requires TransactionsOk(refunds, transactions) && k < |transactions| && !transactions[k].status.TxPending?
    ensures var r := transactions[k].refundId;
            r < |refunds| && (refunds[r].status.RefundSucceeded? || refunds[r].status.RefundFailed?)
  {
  }

  /** What is settled stays settled, by the same event. */
  lemma SettledStays(a: Db, b: Db, e: I.InboxEvent)
    requires Settled(a, e) && PaymentsExtend(a.payments, b.payments) && RefundsExtend(a.refunds, b.refunds)
    ensures Settled(b, e)
  {
  }

  /** The database transaction an event runs, if any. */
  function StepOf(world: World, event: Event): Option<Step> {
    match event
    case Work(w) =>
      if Busy(world, w) && world.workers[w].stage.Ready?
         && Matches(world.db, world.events[world.workers[w].todo[0].event])
      then Some(StepFor(world.events[world.workers[w].todo[0].event])) else None
    case Elsewhere(step) => Some(step)
    case _ => None
  }

  /** The worker's own check, on columns that never change. */
  predicate Matches(db: Db, e: I.InboxEvent) {
    e.payload.PaymentReport? ==>
      e.payload.paymentId < |db.payments| && db.payments[e.payload.paymentId].channel == e.channel
      && db.payments[e.payload.paymentId].number == e.payload.number
  }

  lemma HandleIsAStep(db: Db, e: I.InboxEvent)
    requires db.Linked()
    ensures I.Handle(db, e).db == if Matches(db, e) then Apply(db, StepFor(e)).db else db
  {
    hide ConfirmPayment; hide ConfirmRefund;
  }

  lemma DbFollows(world: World, event: Event)
    requires Valid(world.db) && world.db.Linked()
    ensures Next(world, event).db ==
            match StepOf(world, event) case Some(step) => Apply(world.db, step).db case None => world.db
    ensures Valid(Next(world, event).db) && Next(world, event).db.Linked()
    ensures PaymentsExtend(world.db.payments, Next(world, event).db.payments)
    ensures RefundsExtend(world.db.refunds, Next(world, event).db.refunds)
  {
    hide Valid; hide Apply; hide I.Handle; hide Matches; hide StepFor; hide Settled;
    hide OrdersExtend; hide TransactionsExtend;
    if event.Work? && Busy(world, event.w) {
      HandleIsAStep(world.db, world.events[world.workers[event.w].todo[0].event]);
    }
    if StepOf(world, event).Some? {
      StepKeepsBooks(world.db, StepOf(world, event).value);
      StepExtends(world.db, StepOf(world, event).value);
    }
    ValidIsLinked(Next(world, event).db);
  }

  /** Events keep their place and content; only their progress is written. */
  ghost predicate EventsKept(a: seq<I.InboxEvent>, b: seq<I.InboxEvent>) {
    && |a| <= |b|
    && forall i :: 0 <= i < |a| ==>
      b[i].payload == a[i].payload && b[i].channel == a[i].channel && b[i].eventId == a[i].eventId
  }

  lemma EventsAreKept(world: World, event: Event)
    requires world.db.Linked()
    ensures EventsKept(world.events, Next(world, event).events)
  {
    hide I.Handle; hide Apply;
  }

  /** Rows become processed only under a worker that settled their event. */
  lemma ProcessedBy(world: World, event: Event, i: nat)
    requires world.db.Linked() && i < |Next(world, event).events|
    requires Next(world, event).events[i].status.Processed?
    ensures i < |world.events|
    ensures world.events[i].status.Processed? ||
            (event.Mark? && Busy(world, event.w) && world.workers[event.w].stage.Confirmed?
             && world.workers[event.w].todo[0].event == i)
  {
    hide I.Handle; hide Apply;
  }

  /** A worker stands confirmed only on an event it has just handled, or still stands on. */
  lemma ConfirmedBy(world: World, event: Event, w: nat)
    requires world.db.Linked() && NotesPoint(world) && w < |Next(world, event).workers|
    requires Next(world, event).workers[w].stage.Confirmed? && Busy(Next(world, event), w)
    ensures Busy(world, w) && world.workers[w].todo == Next(world, event).workers[w].todo
    ensures world.workers[w].stage.Confirmed? ||
            (event == Work(w) && I.Handle(world.db, world.events[world.workers[w].todo[0].event]).result.Ok?)
  {
    hide I.Handle; hide Apply;
  }

  lemma NotesStillPoint(world: World, event: Event)
    requires world.db.Linked() && NotesPoint(world)
    ensures NotesPoint(Next(world, event))
  {
    hide I.Handle; hide Apply;
  }

  lemma HandledIsSettled(db: Db, e: I.InboxEvent)
    requires Valid(db) && db.Linked() && I.Handle(db, e).result.Ok?
    ensures Settled(I.Handle(db, e).db, e)
  {
    hide Valid; hide I.Handle; hide Settled;
    if e.payload.PaymentReport? {
      PaymentHandled(db, e);
    } else {
      RefundHandled(db, e);
    }
  }

  lemma ConfirmedIsSettled(world: World, event: Event, w: nat)
    requires Orderly(world) && world.db.Linked() && w < |Next(world, event).workers|
    requires Next(world, event).workers[w].stage.Confirmed? && Busy(Next(world, event), w)
    ensures var after := Next(world, event); Settled(after.db, after.events[after.workers[w].todo[0].event])
  {
    hide Valid; hide I.Handle; hide PaymentsExtend; hide RefundsExtend;
    ConfirmedBy(world, event, w);
    DbFollows(world, event);
    EventsAreKept(world, event);
    var e := world.events[world.workers[w].todo[0].event];
    if world.workers[w].stage.Confirmed? {
      SettledStays(world.db, Next(world, event).db, e);
    } else {
      HandledIsSettled(world.db, e);
    }
  }

  lemma ProcessedIsSettled(world: World, event: Event, i: nat)
    requires Orderly(world) && world.db.Linked() && i < |Next(world, event).events|
    requires Next(world, event).events[i].status.Processed?
    ensures Settled(Next(world, event).db, Next(world, event).events[i])
  {
    hide Valid; hide I.Handle; hide PaymentsExtend; hide RefundsExtend; hide Next;
    ProcessedBy(world, event, i);
    DbFollows(world, event);
    EventsAreKept(world, event);
    assert Settled(world.db, world.events[i]);
    SettledStays(world.db, Next(world, event).db, world.events[i]);
  }

  lemma NextIsOrderly(world: World, event: Event)
    requires Orderly(world) && world.db.Linked()
    ensures Orderly(Next(world, event)) && Next(world, event).db.Linked()
  {
    hide Valid; hide Next; hide Settled; hide PaymentsExtend; hide RefundsExtend;
    DbFollows(world, event);
    NotesStillPoint(world, event);
    var after := Next(world, event);
    forall i | 0 <= i < |after.events| && after.events[i].status.Processed? ensures Settled(after.db, after.events[i]) {
      ProcessedIsSettled(world, event, i);
    }
    forall w | 0 <= w < |after.workers| && after.workers[w].stage.Confirmed? && Busy(after, w)
      ensures Settled(after.db, after.events[after.workers[w].todo[0].event])
    {
      ConfirmedIsSettled(world, event, w);
    }
  }

  // ------------------------------------------------------------ over whole runs

  function Play(world: World, events: seq<Event>): (after: World)
    requires Orderly(world)
    ensures Orderly(after) && after.db.Linked()
  {
    ValidIsLinked(world.db);
    if |events| == 0 then world
    else
      var before := Play(world, events[..|events| - 1]);
      NextIsOrderly(before, events[|events| - 1]);
      Next(before, events[|events| - 1])
  }

  lemma {:induction false} PlayConcat(world: World, first: seq<Event>, second: seq<Event>)
    requires Orderly(world)
    ensures Play(world, first + second) == Play(Play(world, first), second)
  {
    hide Next; hide Orderly;
    if |second| == 0 {
      assert first + second == first;
    } else {
      var n := |second| - 1;
      PlayConcat(world, first, second[..n]);
      assert (first + second)[..|first + second| - 1] == first + second[..n];
    }
  }

  lemma PlayMore(world: World, events: seq<Event>, event: Event)
    requires Orderly(world)
    ensures Play(world, events).db.Linked() && Play(world, events + [event]) == Next(Play(world, events), event)
  {
    hide Orderly; hide Next;
    assert (events + [event])[..|events|] == events;
  }

  lemma PlayNothing(world: World)
    requires Orderly(world)
    ensures Play(world, []) == world
  {
  }

  const Fresh := World(Empty, [], [])

  lemma FreshIsOrderly()
    ensures Orderly(Fresh)
  {
  }

  /** The transactions a run of events commits on the commerce tables, in order. */
  function StepsOf(world: World, events: seq<Event>): (steps: seq<Step>)
    requires Orderly(world)
  {
    if |events| == 0 then []
    else
      var before := Play(world, events[..|events| - 1]);
      StepsOf(world, events[..|events| - 1]) +
      match StepOf(before, events[|events| - 1]) case Some(step) => [step] case None => []
  }

  /** Deliveries, retries and crashes only ever repeat whole transactions. */
  lemma {:induction false} PlayIsARun(world: World, events: seq<Event>)
    requires Orderly(world)
    ensures Play(world, events).db == Run(world.db, StepsOf(world, events))
  {
    hide NotesPoint; hide MarkedTruly; hide Valid; hide Apply; hide StepOf; hide Next;
    hide PaymentsExtend; hide RefundsExtend;
    if |events| > 0 {
      var n := |events| - 1;
      var before := Play(world, events[..n]);
      PlayIsARun(world, events[..n]);
      DbFollows(before, events[n]);
      var steps := StepsOf(world, events[..n]);
      if StepOf(before, events[n]).Some? {
        RunConcat(world.db, steps, [StepOf(before, events[n]).value]);
        RunOne(Run(world.db, steps), StepOf(before, events[n]).value);
      } else {
        assert StepsOf(world, events) == steps;
      }
    }
  }

  /** Where a run of events leads from the empty world. */
  function Played(events: seq<Event>): (after: World)
    ensures Orderly(after) && after.db.Linked()
  {
    FreshIsOrderly();
    Play(Fresh, events)
  }

  /** The transactions such a run commits. */
  function Committed(events: seq<Event>): seq<Step> {
    FreshIsOrderly();
    StepsOf(Fresh, events)
  }

  /**
   At least once becomes exactly once: with any number of workers, duplicate deliveries and crashes,
   an event marked processed has its payment at its end, by that very event and trade number; a
   refund event has its refund at its end.
   */
  lemma ProcessedMeansSettled(events: seq<Event>, i: nat)
    requires i < |Played(events).events| && Played(events).events[i].status.Processed?
    ensures Settled(Played(events).db, Played(events).events[i])
  {
  }

  lemma {:induction false} PlayExtends(world: World, events: seq<Event>)
    requires Orderly(world)
    ensures PaymentsExtend(world.db.payments, Play(world, events).db.payments)
  {
    hide NotesPoint; hide MarkedTruly; hide Valid; hide Next; hide RefundsExtend;
    if |events| > 0 {
      PlayExtends(world, events[..|events| - 1]);
      DbFollows(Play(world, events[..|events| - 1]), events[|events| - 1]);
    }
  }

  /** A payment changes once at most: whatever is delivered or retried later leaves it as it is. */
  lemma PaymentSettlesOnce(world: World, events: seq<Event>, p: nat)
    requires Orderly(world) && p < |world.db.payments| && !world.db.payments[p].status.PaymentPending?
    ensures var after := Play(world, events).db; p < |after.payments| && after.payments[p] == world.db.payments[p]
  {
    PlayExtends(world, events);
  }

  /** Another event, or another trade number, for a settled payment is refused without a trace. */
  lemma OtherReportsAreRefused(db: Db, e: I.InboxEvent)
    requires db.Linked() && e.payload.PaymentReport? && e.payload.paymentId < |db.payments|
    requires var p := db.payments[e.payload.paymentId];
             && !p.status.PaymentPending?
             && (p.eventId != Some(e.eventId) || p.tradeNo != Some(e.payload.tradeNo))
    ensures I.Handle(db, e) == Throw(db, Conflict)
  {
    hide Insertable; hide EventTaken; hide DeductionRows; hide ValidConfirmation;
  }

  /** However often it is delivered, a payment deducts each line of its order from stock once. */
  lemma StockIsDeductedOnce(events: seq<Event>, o: nat, i: nat)
    requires UnreservedRun(Committed(events))
    requires o < |Played(events).db.orders| && i < |Played(events).db.orders[o].items|
    ensures var db := Played(events).db;
            var item := db.orders[o].items[i];
            var row := Row(Key(item.sku, Out, "order", o), -(item.quantity as int));
            && UniqueKeys(db.ledger)
            && (row in db.ledger <==> PaidOrLater(db.orders[o].status))
            && forall other | other in db.ledger && other.key == row.key :: other == row
  {
    EmptyIsSound();
    FreshIsOrderly();
    hide Play; hide Run; hide StepsOf; hide LedgerExact; hide Conserved; hide NotesPoint; hide MarkedTruly;
    PlayIsARun(Fresh, events);
    RunKeepsStock(Empty, Committed(events));
    LineIsDeductedOnce(Played(events).db, o, i);
  }

  lemma LineIsDeductedOnce(db: Db, o: nat, i: nat)
    requires OrdersOk(db.orders) && LedgerExact(db) && o < |db.orders| && i < |db.orders[o].items|
    ensures var item := db.orders[o].items[i];
            var row := Row(Key(item.sku, Out, "order", o), -(item.quantity as int));
            && UniqueKeys(db.ledger)
            && (row in db.ledger <==> PaidOrLater(db.orders[o].status))
            && forall other | other in db.ledger && other.key == row.key :: other == row
  {
    var item := db.orders[o].items[i];
    assert OrderShape(db.orders[o]);
    QtyOfItem(db.orders[o].items, item.sku);
    var row := Row(Key(item.sku, Out, "order", o), -(item.quantity as int));
    assert OrderRow(db.orders, row) <==> PaidOrLater(db.orders[o].status);
    forall other | other in db.ledger && other.key == row.key ensures other == row {
      assert OrderRow(db.orders, other);
    }
  }

  /** Only a replay takes an event out of the dead letters, and nothing unprocesses one. */
  lemma EndsAreLeftByReplayOnly(world: World, event: Event, i: nat)
    requires world.db.Linked() && i < |world.events|
    ensures i < |Next(world, event).events|
    ensures var before, after := world.events[i], Next(world, event).events[i];
            && (before.status.Processed? ==> after == before)
            && (before.status.DeadLetter? && after != before ==>
                  event.Revive? && event.event == i && after.status.Waiting? && after.attempts == 0)
  {
    hide I.Handle; hide Apply;
  }
}
