/**
 The inbox service at work: one worker fetches due events, settles each against the commerce tables
 and marks its row. The loop is one schedule of the step system of InboxWorkers, so what holds of
 every schedule holds of it.
 */
module InboxService {
  import opened Wrappers
  import opened Summation
  import opened Tables
  import opened Payments
  import opened Refunds
  import opened Books
  import opened BooksKept
  import opened InboxWorkers
  import opened ReportPromises
  import I = Inbox
  import Store

  // ------------------------------------------------------------ what a batch is

  /** Due earlier, or at the same time and delivered earlier. */
  predicate Earlier(events: seq<I.InboxEvent>, i: nat, j: nat)
    requires i < |events| && j < |events|
  {
    events[i].nextAttemptAt < events[j].nextAttemptAt || (events[i].nextAttemptAt == events[j].nextAttemptAt && i < j)
  }

  /** The answer of the query for due events: the earliest ones, in order, as far as the limit reaches. */
  ghost predicate IsBatch(events: seq<I.InboxEvent>, batch: seq<Note>, limit: int, now: int) {
    && |batch| <= PageSize(limit)
    && (forall k :: 0 <= k < |batch| ==>
          && batch[k].event < |events|
          && I.Due(events[batch[k].event], now)
          && batch[k].attempts == events[batch[k].event].attempts && batch[k].readAt == now)
    && (forall j, k :: 0 <= j < k < |batch| ==> Earlier(events, batch[j].event, batch[k].event))
    && (forall i :: 0 <= i < |events| && I.Due(events[i], now) && (forall k :: 0 <= k < |batch| ==> batch[k].event != i) ==>
          |batch| == PageSize(limit) && forall k :: 0 <= k < |batch| ==> Earlier(events, batch[k].event, i))
  }

  /** When an event is marked, and whether the transaction that would mark it processed is lost. */
  datatype Marking = Marking(at: int, lost: bool)

  datatype Progress = Progress(db: Db, events: seq<I.InboxEvent>, processed: nat)

  ghost predicate Points(events: seq<I.InboxEvent>, batch: seq<Note>) {
    forall k :: 0 <= k < |batch| ==> batch[k].event < |events|
  }

  /** The first `n` events of a batch worked off in order by one worker. */
  function WorkOff(db: Db, events: seq<I.InboxEvent>, batch: seq<Note>, marks: seq<Marking>, n: nat): (p: Progress)
    requires Valid(db) && n <= |batch| && n <= |marks| && Points(events, batch)
    ensures Valid(p.db) && p.db.Linked() && |p.events| == |events|
  {
    ValidIsLinked(db);
    if n == 0 then Progress(db, events, 0)
    else
      var before := WorkOff(db, events, batch, marks, n - 1);
      HandleKeepsBooks(before.db, before.events[batch[n - 1].event]);
      WorkOne(before, batch[n - 1], marks[n - 1])
  }

  function WorkOne(before: Progress, note: Note, mark: Marking): Progress
    requires before.db.Linked() && note.event < |before.events|
  {
    var e := before.events[note.event];
    var outcome := I.Handle(before.db, e);
    if outcome.result.Ok? && !mark.lost
    then Progress(outcome.db, before.events[note.event := I.MarkProcessed(e)], before.processed + 1)
    else Progress(outcome.db, before.events[note.event := I.MarkFailed(e, note.attempts, mark.at)], before.processed)
  }

  lemma HandleKeepsBooks(db: Db, e: I.InboxEvent)
    requires Valid(db) && db.Linked()
    ensures Valid(I.Handle(db, e).db) && I.Handle(db, e).db.Linked()
  {
    hide Valid; hide I.Handle;
    HandleIsAStep(db, e);
    StepKeepsBooks(db, StepFor(e));
    ValidIsLinked(I.Handle(db, e).db);
  }

  // ------------------------------------------------- the loop is one schedule

  function Turn(w: nat, mark: Marking): seq<Event> {
    [Work(w)] + (if mark.lost then [Stumble(w)] else []) + [Mark(w, mark.at)]
  }

  function Schedule(w: nat, marks: seq<Marking>, n: nat): seq<Event>
    requires n <= |marks|
  {
    if n == 0 then [] else Schedule(w, marks, n - 1) + Turn(w, marks[n - 1])
  }

  /** What one turn of a worker leaves. */
  ghost predicate TurnDone(world: World, after: World, w: nat, mark: Marking, processed: nat)
    requires world.db.Linked() && Busy(world, w)
  {
    var work := WorkOne(Progress(world.db, world.events, processed), world.workers[w].todo[0], mark);
    && after.db == work.db && after.events == work.events
    && after.workers == world.workers[w := Worker(world.workers[w].todo[1..], Ready)]
  }

  lemma KeptTurn(world: World, one: World, w: nat, mark: Marking, processed: nat)
    requires world.db.Linked() && one.db.Linked() && Busy(world, w) && world.workers[w].stage.Ready? && !mark.lost
    requires one == Next(world, Work(w))
    ensures TurnDone(world, Next(one, Mark(w, mark.at)), w, mark, processed)
  {
    hide I.Handle; hide I.MarkProcessed; hide I.MarkFailed; hide Db.Linked;
  }

  lemma LostTurn(world: World, one: World, two: World, w: nat, mark: Marking, processed: nat)
    requires world.db.Linked() && one.db.Linked() && two.db.Linked() && Busy(world, w)
    requires world.workers[w].stage.Ready? && mark.lost
    requires one == Next(world, Work(w)) && two == Next(one, Stumble(w))
    ensures TurnDone(world, Next(two, Mark(w, mark.at)), w, mark, processed)
  {
    hide I.Handle; hide I.MarkProcessed; hide I.MarkFailed; hide Db.Linked;
  }

  /** One turn of a ready worker: settle the next event, then mark it. */
  lemma TurnPlays(world: World, w: nat, mark: Marking, processed: nat)
    requires Orderly(world) && Busy(world, w) && world.workers[w].stage.Ready?
    ensures world.db.Linked() && TurnDone(world, Play(world, Turn(w, mark)), w, mark, processed)
  {
    hide Orderly; hide Play; hide Next; hide TurnDone; hide Busy; hide Db.Linked;
    PlayNothing(world);
    assert [] + [Work(w)] == [Work(w)];
    PlayMore(world, [], Work(w));
    var one := Play(world, [Work(w)]);
    if mark.lost {
      PlayMore(world, [Work(w)], Stumble(w));
      PlayMore(world, [Work(w)] + [Stumble(w)], Mark(w, mark.at));
      LostTurn(world, one, Play(world, [Work(w)] + [Stumble(w)]), w, mark, processed);
    } else {
      PlayMore(world, [Work(w)], Mark(w, mark.at));
      KeptTurn(world, one, w, mark, processed);
      assert [Work(w)] + [] + [Mark(w, mark.at)] == [Work(w)] + [Mark(w, mark.at)];
    }
  }

  lemma OrderlyNotes(world: World, w: nat)
    requires Orderly(world) && w < |world.workers|
    ensures Valid(world.db) && Points(world.events, world.workers[w].todo)
  {
  }

  /** The world after a worker's turns: its work is done, its notes used up, nobody else has moved. */
  function Advanced(world: World, w: nat, work: Progress, n: nat): World
    requires w < |world.workers| && n <= |world.workers[w].todo|
  {
    World(work.db, work.events, world.workers[w := Worker(world.workers[w].todo[n..], Ready)])
  }

  lemma NoTurn(world: World, w: nat, marks: seq<Marking>)
    requires Orderly(world) && w < |world.workers| && world.workers[w].stage.Ready?
    requires Valid(world.db) && Points(world.events, world.workers[w].todo)
    ensures Play(world, Schedule(w, marks, 0)) ==
            Advanced(world, w, WorkOff(world.db, world.events, world.workers[w].todo, marks, 0), 0)
  {
    hide Orderly; hide Valid; hide Points; hide Next; hide WorkOne; hide I.Handle;
    var todo := world.workers[w].todo;
    assert todo[0..] == todo;
  }

  lemma LastTurn(world: World, w: nat, marks: seq<Marking>, work: Progress, n: nat)
    requires Orderly(world) && w < |world.workers|
    requires 0 < n <= |marks| && n <= |world.workers[w].todo|
    requires Valid(world.db) && Points(world.events, world.workers[w].todo)
    requires work == WorkOff(world.db, world.events, world.workers[w].todo, marks, n - 1)
    requires Orderly(Advanced(world, w, work, n - 1))
    ensures Play(Advanced(world, w, work, n - 1), Turn(w, marks[n - 1])) ==
            Advanced(world, w, WorkOff(world.db, world.events, world.workers[w].todo, marks, n), n)
  {
    hide Orderly; hide Next; hide Db.Linked; hide Valid; hide WorkOne; hide Turn; hide Play;
    var todo := world.workers[w].todo;
    var before := Advanced(world, w, work, n - 1);
    OrderlyNotes(before, w);
    assert before.workers[w].todo[0] == todo[n - 1];
    assert before.workers[w].todo[1..] == todo[n..];
    TurnPlays(before, w, marks[n - 1], work.processed);
  }

  lemma ScheduleGrows(w: nat, marks: seq<Marking>, n: nat)
    requires 0 < n <= |marks|
    ensures Schedule(w, marks, n) == Schedule(w, marks, n - 1) + Turn(w, marks[n - 1])
  {
  }

  /** The worker's loop, seen from the step system, is a run in which that worker alone moves. */
  lemma {:induction false} LoopIsASchedule(world: World, w: nat, marks: seq<Marking>, n: nat)
    requires Orderly(world) && w < |world.workers| && world.workers[w].stage.Ready?
    requires n <= |marks| && n <= |world.workers[w].todo|
    ensures Valid(world.db) && Points(world.events, world.workers[w].todo)
    ensures Play(world, Schedule(w, marks, n)) ==
            Advanced(world, w, WorkOff(world.db, world.events, world.workers[w].todo, marks, n), n)
    decreases n
  {
    hide *;
    OrderlyNotes(world, w);
    if n == 0 {
      NoTurn(world, w, marks);
    } else {
      LoopIsASchedule(world, w, marks, n - 1);
      ScheduleGrows(w, marks, n);
      PlayConcat(world, Schedule(w, marks, n - 1), Turn(w, marks[n - 1]));
      LastTurn(world, w, marks, WorkOff(world.db, world.events, world.workers[w].todo, marks, n - 1), n);
    }
  }

  /** Whatever batch is worked off, a processed event is settled: the loop keeps the tables truthful. */
  lemma WorkingOffStaysTruthful(db: Db, events: seq<I.InboxEvent>, batch: seq<Note>, marks: seq<Marking>)
    requires Orderly(World(db, events, [])) && |batch| == |marks| && Points(events, batch)
    ensures var after := WorkOff(db, events, batch, marks, |batch|); Orderly(World(after.db, after.events, []))
  {
    hide InboxWorkers.Settled; hide Valid; hide WorkOff;
    hide Play;
    var world := World(db, events, [Worker(batch, Ready)]);
    LoopIsASchedule(world, 0, marks, |batch|);
    var after := Play(world, Schedule(0, marks, |batch|));
    assert MarkedTruly(after);
  }

  // -------------------------------------------------- verdicts a batch carries out

  lemma {:induction false} ScheduleIsOneWorker(w: nat, marks: seq<Marking>, n: nat)
    requires n <= |marks|
    ensures forall j :: 0 <= j < |Schedule(w, marks, n)| ==> !Schedule(w, marks, n)[j].Elsewhere?
  {
    if n > 0 {
      ScheduleIsOneWorker(w, marks, n - 1);
    }
  }

  /** Some refund report of the inbox about the same refund ended it its way. */
  ghost predicate SomeReportAgrees(db: Db, events: seq<I.InboxEvent>, refundId: nat) {
    exists m :: 0 <= m < |events| && events[m].payload.RefundReport? && events[m].payload.refundId == refundId
                && Agrees(db, events[m])
  }

  /** If the event's payment or refund was open before, it ended the way this report, or one about the refund, says. */
  ghost predicate CarriedOut(before: Db, after: Db, events: seq<I.InboxEvent>, e: I.InboxEvent) {
    match e.payload
    case PaymentReport(p, _, _, _, _) =>
      p < |before.payments| && before.payments[p].status == PaymentPending ==> Agrees(after, e)
    case RefundReport(r, _, _, _) =>
      r < |before.refunds| && !Over(before.refunds[r].status) ==> SomeReportAgrees(after, events, r)
  }

  lemma PaymentsCarriedOut(world: World, events: seq<Event>, i: nat)
    requires Orderly(world) && UniqueEvents(world.events)
    requires forall j :: 0 <= j < |events| ==> !events[j].Elsewhere?
    requires i < |Play(world, events).events| && Play(world, events).events[i].status.Processed?
    requires var e := Play(world, events).events[i];
             && e.payload.PaymentReport? && e.payload.paymentId < |world.db.payments|
             && world.db.payments[e.payload.paymentId].status == PaymentPending
    ensures Agrees(Play(world, events).db, Play(world, events).events[i])
  {
    hide Play; hide InboxWorkers.Settled; hide Agrees; hide UniqueEvents; hide Valid; hide NotesPoint;
    SettledAgreesIff(world, events, Play(world, events).events[i]);
  }

  lemma DecidingReport(world: World, event: Event, r: nat, verdict: bool) returns (m: nat)
    requires world.db.Linked() && Decides(world, event, r, verdict) && !event.Elsewhere?
    ensures m < |world.events| && world.events[m].payload.RefundReport?
    ensures world.events[m].payload.refundId == r && world.events[m].payload.succeeded == verdict
  {
    hide I.Handle;
    m := world.workers[event.w].todo[0].event;
  }

  lemma RefundsCarriedOut(world: World, events: seq<Event>, i: nat)
    requires Orderly(world)
    requires forall j :: 0 <= j < |events| ==> !events[j].Elsewhere?
    requires i < |Play(world, events).events| && Play(world, events).events[i].status.Processed?
    requires var e := Play(world, events).events[i];
             && e.payload.RefundReport? && e.payload.refundId < |world.db.refunds|
             && !Over(world.db.refunds[e.payload.refundId].status)
    ensures var after := Play(world, events); SomeReportAgrees(after.db, after.events, after.events[i].payload.refundId)
  {
    hide Play; hide Valid; hide Decides; hide Orderly; hide Busy;
    var after := Play(world, events);
    var r := after.events[i].payload.refundId;
    OrderlyIsTruthful(after, i);
    var verdict := after.db.refunds[r].status == RefundSucceeded;
    RefundEndsIff(world, events, r, verdict);
    var j :| 0 <= j < |events| && Decides(Play(world, events[..j]), events[j], r, verdict);
    var at := Play(world, events[..j]);
    PlayConcat(world, events[..j], events[j..]);
    assert events[..j] + events[j..] == events;
    PlayKeepsEvents(at, events[j..]);
    var m := DecidingReport(at, events[j], r, verdict);
    assert Agrees(after.db, after.events[m]);
  }

  lemma OrderlyIsTruthful(world: World, i: nat)
    requires Orderly(world) && i < |world.events| && world.events[i].status.Processed?
    ensures InboxWorkers.Settled(world.db, world.events[i])
  {
  }

  lemma EventCarriedOut(world: World, events: seq<Event>, i: nat)
    requires Orderly(world) && UniqueEvents(world.events)
    requires forall j :: 0 <= j < |events| ==> !events[j].Elsewhere?
    requires i < |Play(world, events).events| && Play(world, events).events[i].status.Processed?
    ensures var after := Play(world, events); CarriedOut(world.db, after.db, after.events, after.events[i])
  {
    hide Play; hide Orderly; hide UniqueEvents; hide Agrees; hide SomeReportAgrees;
    var payload := Play(world, events).events[i].payload;
    if payload.PaymentReport? {
      if payload.paymentId < |world.db.payments| && world.db.payments[payload.paymentId].status == PaymentPending {
        PaymentsCarriedOut(world, events, i);
      }
    } else if payload.refundId < |world.db.refunds| && !Over(world.db.refunds[payload.refundId].status) {
      RefundsCarriedOut(world, events, i);
    }
  }

  /** What a batch settles, it settles by the verdict of a report of the inbox. */
  lemma {:induction false} VerdictsAreCarriedOut(db: Db, events: seq<I.InboxEvent>, batch: seq<Note>, marks: seq<Marking>)
    requires Orderly(World(db, events, [])) && UniqueEvents(events) && |batch| == |marks| && Points(events, batch)
    ensures var after := WorkOff(db, events, batch, marks, |batch|);
            && UniqueEvents(after.events)
            && forall e | e in after.events && e.status.Processed? :: CarriedOut(db, after.db, after.events, e)
  {
    hide InboxWorkers.Settled; hide Valid; hide WorkOff; hide UniqueEvents; hide CarriedOut; hide Play; hide Schedule;
    var world, schedule := World(db, events, [Worker(batch, Ready)]), Schedule(0, marks, |batch|);
    LoopIsASchedule(world, 0, marks, |batch|);
    ScheduleIsOneWorker(0, marks, |batch|);
    PlayedEventsAreUnique(world, schedule);
    var after := Play(world, schedule);
    forall i: nat | i < |after.events| && after.events[i].status.Processed?
      ensures CarriedOut(db, after.db, after.events, after.events[i])
    {
      EventCarriedOut(world, schedule, i);
    }
  }

  // ----------------------------------------------------- what becomes of a batch

  ghost predicate Fresh(events: seq<I.InboxEvent>, batch: seq<Note>) {
    && (forall k :: 0 <= k < |batch| ==> batch[k].event < |events| && I.Open(events[batch[k].event].status))
    && (forall j, k :: 0 <= j < k < |batch| ==> batch[j].event != batch[k].event)
  }

  lemma {:induction false} OthersUntouched(
    db: Db, events: seq<I.InboxEvent>, batch: seq<Note>, marks: seq<Marking>, n: nat, i: nat)
    requires Valid(db) && n <= |batch| && n <= |marks| && Points(events, batch) && i < |events|
    requires forall k :: 0 <= k < n ==> batch[k].event != i
    ensures WorkOff(db, events, batch, marks, n).events[i] == events[i]
  {
    hide Valid; hide I.Handle; hide I.MarkProcessed; hide I.MarkFailed; hide Db.Linked;
    if n > 0 {
      OthersUntouched(db, events, batch, marks, n - 1, i);
    }
  }

  /** A lone worker moves each event of its batch exactly once, to processed or one failure further. */
  lemma {:induction false} EachEventMovesOnce(
    db: Db, events: seq<I.InboxEvent>, batch: seq<Note>, marks: seq<Marking>, n: nat, k: nat)
    requires Valid(db) && k < n <= |batch| && n <= |marks| && Fresh(events, batch)
    ensures Points(events, batch)
    ensures var e, after := events[batch[k].event], WorkOff(db, events, batch, marks, n).events[batch[k].event];
            after == I.MarkProcessed(e) || after == I.MarkFailed(e, batch[k].attempts, marks[k].at)
  {
    hide Valid; hide I.Handle; hide I.MarkProcessed; hide I.MarkFailed; hide Db.Linked;
    if k < n - 1 {
      EachEventMovesOnce(db, events, batch, marks, n - 1, k);
    } else {
      OthersUntouched(db, events, batch, marks, k, batch[k].event);
    }
  }

  function CountsProcessed(events: seq<I.InboxEvent>): Note -> int {
    (n: Note) => if n.event < |events| && events[n.event].status.Processed? then 1 else 0
  }

  lemma WorkOneCounts(before: Progress, note: Note, mark: Marking)
    requires before.db.Linked() && note.event < |before.events| && I.Open(before.events[note.event].status)
    ensures var after := WorkOne(before, note, mark);
            && after.processed == before.processed + CountsProcessed(after.events)(note)
            && |after.events| == |before.events|
            && forall i :: 0 <= i < |before.events| && i != note.event ==> after.events[i] == before.events[i]
  {
    hide I.Handle; hide I.Delay; hide Db.Linked;
  }

  /** The number returned is the number of events the batch left processed. */
  lemma {:induction false} ReturnsHowManyWereProcessed(
    db: Db, events: seq<I.InboxEvent>, batch: seq<Note>, marks: seq<Marking>, n: nat)
    requires Valid(db) && n <= |batch| && n <= |marks| && Fresh(events, batch)
    ensures Points(events, batch)
    ensures var after := WorkOff(db, events, batch, marks, n);
            after.processed == Sum(batch[..n], CountsProcessed(after.events))
  {
    hide Valid; hide I.Handle; hide Db.Linked; hide WorkOne;
    if n > 0 {
      ReturnsHowManyWereProcessed(db, events, batch, marks, n - 1);
      var before, after := WorkOff(db, events, batch, marks, n - 1), WorkOff(db, events, batch, marks, n);
      OthersUntouched(db, events, batch, marks, n - 1, batch[n - 1].event);
      WorkOneCounts(before, batch[n - 1], marks[n - 1]);
      Same(batch[..n - 1], CountsProcessed(before.events), CountsProcessed(after.events));
      assert batch[..n] == batch[..n - 1] + [batch[n - 1]];
      Append(batch[..n - 1], batch[n - 1], CountsProcessed(after.events));
    }
  }

  // ------------------------------------------------------------------ the class

  class WebhookInbox {
    const store: Store.CommerceStore
    var events: seq<I.InboxEvent>

    /** Every processed event is settled in the commerce tables, and no event is queued twice. */
    ghost predicate Truthful()
      reads this, store
    {
      Orderly(World(store.Rows(), events, [])) && UniqueEvents(events)
    }

    constructor (store: Store.CommerceStore)
      requires Valid(store.Rows())
      ensures this.store == store && events == [] && Truthful()
    {
      this.store := store;
      events := [];
    }

    method Enqueue(channel: string, eventId: string, payload: I.Payload, now: int) returns (result: Result<()>)
      requires Truthful()
      modifies this`events
      ensures I.Enqueued(events, result) == I.Enqueue(old(events), channel, eventId, payload, now)
      ensures Truthful()
    {
      hide InboxWorkers.Settled; hide Valid; hide UniqueEvents;
      NewEventIsNew(events, channel, eventId, payload, now);
      var existing := Find(events, I.Matching(payload, channel, eventId));
      if existing.Some? {
        return if events[existing.value].payload == payload then Ok(()) else Err(Conflict);
      }
      events := events + [I.InboxEvent(channel, eventId, payload, I.Waiting, 0, now)];
      return Ok(());
    }

    /** A dead letter goes back to the queue; anything else is refused. */
    method ReplayDeadLetter(id: nat, now: int) returns (result: Result<()>)
      requires Truthful()
      modifies this`events
      ensures result == if id < |old(events)| && old(events)[id].status.DeadLetter? then Ok(()) else Err(Conflict)
      ensures events == if result.Ok? then old(events)[id := I.Replay(old(events)[id], now)] else old(events)
      ensures Truthful()
    {
      hide InboxWorkers.Settled; hide Valid;
      if id >= |events| || !events[id].status.DeadLetter? {
        return Err(Conflict);
      }
      events := events[id := events[id].(status := I.Waiting, attempts := 0, nextAttemptAt := now)];
      return Ok(());
    }

    method MarkProcessed(id: nat)
      requires id < |events|
      modifies this`events
      ensures events == old(events)[id := I.MarkProcessed(old(events)[id])]
    {
      if events[id].status.Waiting? || events[id].status.Failed? {
        events := events[id := events[id].(status := I.Processed)];
      }
    }

    method MarkFailed(id: nat, attempts: nat, now: int)
      requires id < |events|
      modifies this`events
      ensures events == old(events)[id := I.MarkFailed(old(events)[id], attempts, now)]
    {
      var nextAttempts := attempts + 1;
      var delay := I.Delay(nextAttempts);
      if events[id].status.Waiting? || events[id].status.Failed? {
        var status := if nextAttempts >= 10 then I.DeadLetter else I.Failed;
        events := events[id := events[id].(
          status := status, attempts := events[id].attempts + 1, nextAttemptAt := now + delay)];
      }
    }

    /** Finds the payment, checks that the event names it, and confirms; refunds are confirmed directly. */
    method HandleEvent(e: I.InboxEvent) returns (result: Result<nat>)
      requires store.Rows().Linked()
      modifies store
      ensures Outcome(store.Rows(), result) == I.Handle(old(store.Rows()), e)
    {
      hide ConfirmPayment; hide ConfirmRefund;
      match e.payload
      case PaymentReport(id, number, tradeNo, amount, succeeded) =>
        if id >= |store.payments| {
          return Err(NotFound);
        }
        if store.payments[id].channel != e.channel || store.payments[id].number != number {
          return Err(Conflict);
        }
        result := store.ConfirmPayment(id, Confirmation(e.eventId, tradeNo, amount, succeeded));
      case RefundReport(id, refundNo, amount, succeeded) =>
        result := store.ConfirmRefund(id, RefundNotice(e.eventId, refundNo, amount, succeeded));
    }

    /** Settles and marks the events of a batch, one after the other. */
    method WorkThrough(batch: seq<Note>, marks: seq<Marking>) returns (processed: nat)
      requires Valid(store.Rows()) && Points(events, batch) && |marks| == |batch|
      modifies this`events, store
      ensures Progress(store.Rows(), events, processed) ==
              WorkOff(old(store.Rows()), old(events), batch, marks, |batch|)
    {
      hide Valid; hide I.Handle; hide I.MarkFailed; hide I.MarkProcessed; hide Db.Linked;
      ghost var db, rows := store.Rows(), events;
      ValidIsLinked(db);
      processed := 0;
      for n := 0 to |batch|
        invariant |events| == |rows| && Valid(store.Rows()) && store.Rows().Linked()
        invariant Progress(store.Rows(), events, processed) == WorkOff(db, rows, batch, marks, n)
      {
        var note := batch[n];
        var result := HandleEvent(events[note.event]);
        if result.Ok? && !marks[n].lost {
          MarkProcessed(note.event);
          processed := processed + 1;
        } else {
          MarkFailed(note.event, note.attempts, marks[n].at);
        }
        assert Progress(store.Rows(), events, processed) == WorkOff(db, rows, batch, marks, n + 1);
      }
    }

    /** Works off a batch the query returned; `marks` says when each event is marked and which marks are lost. */
    method ProcessPending(limit: int, now: int, batch: seq<Note>, marks: seq<Marking>) returns (processed: nat)
      requires Truthful() && IsBatch(events, batch, limit, now) && |marks| == |batch|
      modifies this`events, store
      ensures Points(old(events), batch) && Progress(store.Rows(), events, processed) ==
              WorkOff(old(store.Rows()), old(events), batch, marks, |batch|)
      ensures Truthful()
      ensures processed == Sum(batch, CountsProcessed(events))
      ensures forall e | e in events && e.status.Processed? :: CarriedOut(old(store.Rows()), store.Rows(), events, e)
    {
      hide Valid; hide WorkOff; hide MarkedTruly; hide NotesPoint; hide UniqueEvents; hide CarriedOut;
      VerdictsAreCarriedOut(store.Rows(), events, batch, marks);
      WorkingOffStaysTruthful(store.Rows(), events, batch, marks);
      ReturnsHowManyWereProcessed(store.Rows(), events, batch, marks, |batch|);
      assert batch[..|batch|] == batch;
      processed := WorkThrough(batch, marks);
    }
  }
}
