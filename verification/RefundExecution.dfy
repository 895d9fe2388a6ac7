/**
 Executing a refund takes two transactions with a provider call between them. Any number of
 executors, notices and other transactions interleave, and an executor may die at any point.
 */
module RefundExecution {
  import opened Wrappers
  import opened Summation
  import opened Inventory
  import opened Tables
  import opened Refunds
  import opened Steps
  import opened Books
  import opened BooksKept
  import opened Runs
  import opened Stock
  import opened StockSafety
  import opened Replay

  /** Where an executor stands: its transaction is recorded, the provider is asked, has answered. */
  datatype Phase = Recorded | Asked | Answered(answer: Answer) | Ended

  datatype Executor = Executor(refundId: nat, transactionId: nat, phase: Phase)

  /** `calls` lists the refunds for which the provider was asked to pay money back. */
  datatype World = World(db: Db, executors: seq<Executor>, calls: seq<nat>)

  datatype Event =
    | Start(refundId: nat)
    | Ask(e: nat)
    | Hear(e: nat, answer: Answer)
    | Finish(e: nat)
    | Crash(e: nat)
    | Elsewhere(step: Step)

  /** The database transaction an event runs, if any. */
  function StepOf(w: World, event: Event): Option<Step> {
    match event
    case Start(refundId) => Some(RefundBegin(refundId))
    case Finish(e) =>
      if e < |w.executors| && w.executors[e].phase.Answered? && w.executors[e].refundId < |w.db.refunds| then
        var x := w.executors[e];
        match x.phase.answer
        case Accomplished(eventId, refundNo) =>
          Some(RefundConfirm(x.refundId, RefundNotice(eventId, refundNo, w.db.refunds[x.refundId].amount, true)))
        case Undecided(eventId, refundNo) => Some(RefundUpdate(x.transactionId, eventId, refundNo))
      else None
    case Elsewhere(step) => Some(step)
    case _ => None
  }

  function Moved(w: World, e: nat, phase: Phase): seq<Executor>
    requires e < |w.executors|
  {
    w.executors[e := w.executors[e].(phase := phase)]
  }

  function Next(w: World, event: Event): World
    requires w.db.Linked()
  {
    var db := match StepOf(w, event) case Some(step) => Apply(w.db, step).db case None => w.db;
    match event
    case Start(refundId) =>
      if BeginExecute(w.db, refundId).result == Ok(1) then
        World(db, w.executors + [Executor(refundId, |w.db.transactions|, Recorded)], w.calls)
      else World(db, w.executors, w.calls)
    case Ask(e) =>
      if e < |w.executors| && w.executors[e].phase.Recorded? then
        World(db, Moved(w, e, Asked), w.calls + [w.executors[e].refundId])
      else w
    case Hear(e, answer) =>
      if e < |w.executors| && w.executors[e].phase.Asked? then World(db, Moved(w, e, Answered(answer)), w.calls)
      else w
    case Finish(e) =>
      if e < |w.executors| && w.executors[e].phase.Answered? then World(db, Moved(w, e, Ended), w.calls)
      else w
    case Crash(e) =>
      if e < |w.executors| then World(db, Moved(w, e, Ended), w.calls) else w
    case Elsewhere(step) => World(db, w.executors, w.calls)
  }

  // ---------------------------------------------------------------- invariants

  /** Every executor owns the one transaction of its refund. */
  ghost predicate Owned(w: World) {
    && (forall e :: 0 <= e < |w.executors| ==>
          && w.executors[e].transactionId < |w.db.transactions|
          && w.db.transactions[w.executors[e].transactionId].refundId == w.executors[e].refundId)
    && (forall e, f :: 0 <= e < f < |w.executors| ==> w.executors[e].refundId != w.executors[f].refundId)
  }

  /** Every call was made by an executor that has left its first phase. */
  ghost predicate CalledOnce(w: World) {
    && (forall c :: 0 <= c < |w.calls| ==> MadeBy(w, w.calls[c]))
    && (forall c, d :: 0 <= c < d < |w.calls| ==> w.calls[c] != w.calls[d])
  }

  ghost predicate MadeBy(w: World, refundId: nat) {
    exists e :: 0 <= e < |w.executors| && w.executors[e].refundId == refundId && !w.executors[e].phase.Recorded?
  }

  ghost predicate Settling(w: World) {
    Valid(w.db) && Owned(w) && CalledOnce(w)
  }

  lemma MadeByStays(w: World, after: World, refundId: nat)
    requires MadeBy(w, refundId) && |w.executors| <= |after.executors|
    requires forall e :: 0 <= e < |w.executors| ==>
               after.executors[e].refundId == w.executors[e].refundId &&
               (after.executors[e].phase.Recorded? ==> w.executors[e].phase.Recorded?)
    ensures MadeBy(after, refundId)
  {
    var e :| 0 <= e < |w.executors| && w.executors[e].refundId == refundId && !w.executors[e].phase.Recorded?;
    assert after.executors[e].refundId == refundId && !after.executors[e].phase.Recorded?;
  }

  lemma DbFollows(w: World, event: Event)
    requires Valid(w.db) && w.db.Linked()
    ensures Valid(Next(w, event).db) && Next(w, event).db.Linked()
    ensures Extends(w.db, Next(w, event).db)
    ensures Next(w, event).db == match StepOf(w, event) case Some(step) => Apply(w.db, step).db case None => w.db
  {
    if StepOf(w, event).None? {
      NothingExtends(w.db);
    }
    hide Valid; hide Apply; hide Extends; hide BeginExecute;
    if StepOf(w, event).Some? {
      StepKeepsBooks(w.db, StepOf(w, event).value);
      StepExtends(w.db, StepOf(w, event).value);
    }
    ValidIsLinked(Next(w, event).db);
  }

  lemma StartOwns(w: World, refundId: nat)
    requires w.db.Linked() && Owned(w) && BeginExecute(w.db, refundId).result == Ok(1)
    ensures Owned(Next(w, Start(refundId)))
  {
    forall e | 0 <= e < |w.executors| ensures w.executors[e].refundId != refundId {
      assert !ForRefund(refundId)(w.db.transactions[w.executors[e].transactionId]);
    }
    hide Find;
  }

  lemma OwnedStays(w: World, after: World)
    requires Owned(w) && TransactionsExtend(w.db.transactions, after.db.transactions)
    requires |after.executors| == |w.executors|
    requires forall e :: 0 <= e < |w.executors| ==> after.executors[e].(phase := w.executors[e].phase) == w.executors[e]
    ensures Owned(after)
  {
  }

  lemma NextOwns(w: World, event: Event)
    requires Valid(w.db) && w.db.Linked() && Owned(w)
    ensures Owned(Next(w, event))
  {
    hide Valid; hide Apply; hide StepOf; hide BeginExecute; hide Owned; hide TransactionsExtend;
    hide OrdersExtend; hide PaymentsExtend; hide RefundsExtend;
    if event.Start? && BeginExecute(w.db, event.refundId).result == Ok(1) {
      StartOwns(w, event.refundId);
    } else {
      DbFollows(w, event);
      OwnedStays(w, Next(w, event));
    }
  }

  lemma NextCallsOnce(w: World, event: Event)
    requires w.db.Linked() && Owned(w) && CalledOnce(w)
    ensures CalledOnce(Next(w, event))
  {
    hide Apply; hide StepOf; hide BeginExecute;
    var after := Next(w, event);
    forall c | 0 <= c < |w.calls| ensures MadeBy(after, w.calls[c]) {
      MadeByStays(w, after, w.calls[c]);
    }
    if event.Ask? && after.calls != w.calls {
      var e := event.e;
      assert after.executors[e].refundId == after.calls[|w.calls|] && !after.executors[e].phase.Recorded?;
      forall c | 0 <= c < |w.calls| ensures w.calls[c] != w.executors[e].refundId {
        assert MadeBy(w, w.calls[c]);
      }
    }
  }

  lemma NextSettles(w: World, event: Event)
    requires Settling(w) && w.db.Linked()
    ensures Settling(Next(w, event)) && Next(w, event).db.Linked()
  {
    hide Valid; hide Owned; hide CalledOnce; hide Next;
    DbFollows(w, event);
    NextOwns(w, event);
    NextCallsOnce(w, event);
  }

  // ------------------------------------------------------------ over whole runs

  function Play(w: World, events: seq<Event>): (after: World)
    requires Settling(w)
    ensures Settling(after) && after.db.Linked()
  {
    ValidIsLinked(w.db);
    if |events| == 0 then w
    else
      var before := Play(w, events[..|events| - 1]);
      NextSettles(before, events[|events| - 1]);
      Next(before, events[|events| - 1])
  }

  const Fresh := World(Empty, [], [])

  lemma FreshSettles()
    ensures Settling(Fresh)
  {
  }

  /** The transactions a run of events commits, in order. */
  function StepsOf(w: World, events: seq<Event>): (steps: seq<Step>)
    requires Settling(w)
  {
    if |events| == 0 then []
    else
      var before := Play(w, events[..|events| - 1]);
      StepsOf(w, events[..|events| - 1]) +
      match StepOf(before, events[|events| - 1]) case Some(step) => [step] case None => []
  }

  /** Every interleaving of executors, crashes included, is a run of whole transactions. */
  lemma {:induction false} PlayIsARun(w: World, events: seq<Event>)
    requires Settling(w)
    ensures Play(w, events).db == Run(w.db, StepsOf(w, events))
  {
    hide Owned; hide CalledOnce; hide Valid; hide Apply; hide StepOf; hide Next; hide Extends;
    if |events| > 0 {
      var n := |events| - 1;
      var before := Play(w, events[..n]);
      PlayIsARun(w, events[..n]);
      DbFollows(before, events[n]);
      var steps := StepsOf(w, events[..n]);
      if StepOf(before, events[n]).Some? {
        RunConcat(w.db, steps, [StepOf(before, events[n]).value]);
        RunOne(Run(w.db, steps), StepOf(before, events[n]).value);
      } else {
        assert StepsOf(w, events) == steps;
      }
    }
  }

  /** Where a run of events leads from the empty world. */
  function Played(events: seq<Event>): (after: World)
    ensures Settling(after) && after.db.Linked()
  {
    FreshSettles();
    Play(Fresh, events)
  }

  /** The transactions such a run commits. */
  function Committed(events: seq<Event>): seq<Step> {
    FreshSettles();
    StepsOf(Fresh, events)
  }

  /** Whatever interleaves or crashes, the provider is asked at most once for each refund. */
  lemma ProviderIsAskedOnce(events: seq<Event>, c: nat, d: nat)
    requires c < |Played(events).calls| && d < |Played(events).calls|
    requires Played(events).calls[c] == Played(events).calls[d]
    ensures c == d
    ensures var w := Played(events);
            exists t :: 0 <= t < |w.db.transactions| && ForRefund(w.calls[c])(w.db.transactions[t])
  {
    var w := Played(events);
    assert MadeBy(w, w.calls[c]);
    var e :| 0 <= e < |w.executors| && w.executors[e].refundId == w.calls[c];
    assert ForRefund(w.calls[c])(w.db.transactions[w.executors[e].transactionId]);
  }

  lemma PlayMore(w: World, events: seq<Event>, event: Event)
    requires Settling(w)
    ensures Play(w, events).db.Linked() && Play(w, events + [event]) == Next(Play(w, events), event)
  {
    hide Settling; hide Next;
    assert (events + [event])[..|events|] == events;
  }

  /** Until it books the answer, an execution has recorded its transaction and asked once. */
  lemma AskedAndAnswered(w: World, refundId: nat, answer: Answer)
    requires Settling(w) && w.db.Linked() && BeginExecute(w.db, refundId).result == Ok(1)
    ensures var e := |w.executors|;
            Play(w, [Start(refundId)] + [Ask(e)] + [Hear(e, answer)]) ==
            World(BeginExecute(w.db, refundId).db,
                  w.executors + [Executor(refundId, |w.db.transactions|, Answered(answer))], w.calls + [refundId])
  {
    hide Settling; hide BeginExecute; hide Db.Linked; hide Play;
    var e := |w.executors|;
    assert [] + [Start(refundId)] == [Start(refundId)];
    PlayNothing(w);
    PlayMore(w, [], Start(refundId));
    PlayMore(w, [Start(refundId)], Ask(e));
    PlayMore(w, [Start(refundId)] + [Ask(e)], Hear(e, answer));
  }

  /** Executed without interference, a refund takes the transactions of `ExecuteRefund` and asks once. */
  lemma UndisturbedExecution(w: World, refundId: nat, answer: Answer)
    requires Settling(w) && w.db.Linked() && BeginExecute(w.db, refundId).result == Ok(1)
    ensures var e := |w.executors|;
            var after := Play(w, [Start(refundId)] + [Ask(e)] + [Hear(e, answer)] + [Finish(e)]);
            after.db == ExecuteRefund(w.db, refundId, answer).db && after.calls == w.calls + [refundId]
  {
    hide Settling; hide ConfirmRefund; hide UpdatePending; hide BeginExecute; hide Db.Linked; hide Play;
    var e := |w.executors|;
    AskedAndAnswered(w, refundId, answer);
    PlayMore(w, [Start(refundId)] + [Ask(e)] + [Hear(e, answer)], Finish(e));
    BeginKeepsLinks(w.db, refundId);
    BeginOnlyRecords(w.db, refundId);
  }

  lemma PlayNothing(w: World)
    requires Settling(w)
    ensures Play(w, []) == w
  {
  }

  /** The order was paid through this channel. */
  predicate PaidThrough(db: Db, orderId: nat, channel: string) {
    var paid := Find(db.payments, SucceededFor(orderId));
    paid.Some? && db.payments[paid.value].channel == channel
  }

  /**
   An accomplished answer is booked, and the refund succeeds, unless the provider's answer is blank
   or another transaction of the channel carries its event id.
   */
  lemma AccomplishedIsBookedIff(db: Db, id: nat, eventId: string, refundNo: string, channel: string)
    requires Valid(db) && db.Linked() && BeginExecute(db, id).result == Ok(1)
    requires id < |db.refunds| && PaidThrough(db, db.refunds[id].orderId, channel)
    ensures var outcome := ExecuteRefund(db, id, Accomplished(eventId, refundNo));
            && (outcome.result.Ok? <==>
                  && ValidNotice(RefundNotice(eventId, refundNo, db.refunds[id].amount, true))
                  && !RefundEventTaken(db.transactions, |db.transactions|, channel, eventId))
            && (outcome.result.Ok? ==>
                  id < |outcome.db.refunds| && outcome.db.refunds[id].status.RefundSucceeded?)
  {
    hide Valid; hide BeginExecute; hide Find; hide ValidNotice; hide Db.Linked; hide FullyRefunded; hide RestoreRows;
    hide RefundEventTaken; hide PaidThrough;
    BeginKeepsLinks(db, id);
    BeginRecords(db, id, channel, eventId);
  }

  /** What the first transaction leaves: one more transaction, found under its refund. */
  lemma BeginRecords(db: Db, id: nat, channel: string, eventId: string)
    requires db.Linked() && BeginExecute(db, id).result == Ok(1)
    requires id < |db.refunds| && PaidThrough(db, db.refunds[id].orderId, channel)
    ensures db.refunds[id].status.Approved?
    ensures var after, n := BeginExecute(db, id).db, |db.transactions|;
            && after == db.(transactions := after.transactions)
            && |after.transactions| == n + 1
            && Find(after.transactions, ForRefund(id)) == Some(n)
            && after.transactions[n].status.TxPending? && after.transactions[n].channel == channel
            && (RefundEventTaken(after.transactions, n, channel, eventId) <==>
                RefundEventTaken(db.transactions, n, channel, eventId))
  {
    hide Db.Linked;
    var after, n := BeginExecute(db, id).db, |db.transactions|;
    assert after.transactions[..n] == db.transactions;
    assert ForRefund(id)(after.transactions[n]);
  }

  function HasKey(key: Key): Row -> int {
    (r: Row) => if r.key == key then 1 else 0
  }

  lemma {:induction false} CountUnique(rows: seq<Row>, key: Key)
    requires UniqueKeys(rows)
    ensures Sum(rows, HasKey(key)) == if KeyUsed(rows, key) then 1 else 0
  {
    if |rows| > 0 {
      var n := |rows| - 1;
      CountUnique(rows[..n], key);
      if rows[n].key == key {
        assert !KeyUsed(rows[..n], key);
        assert KeyUsed(rows, key);
      } else if KeyUsed(rows, key) {
        var i :| 0 <= i < |rows| && rows[i].key == key;
        assert rows[..n][i].key == key;
      } else {
        assert forall i :: 0 <= i < n ==> rows[..n][i] == rows[i];
      }
    }
  }

  /**
   Each line of a refund is put back exactly once if the refund succeeded and never otherwise, in
   every interleaving whose direct commands keep off the reserved reference types.
   */
  lemma LinesAreRestoredExactlyOnce(events: seq<Event>, r: nat, k: nat)
    requires UnreservedRun(Committed(events))
    requires r < |Played(events).db.refunds| && k < |Played(events).db.refunds[r].lines|
    ensures var db := Played(events).db;
            var refund := db.refunds[r];
            && refund.orderId < |db.orders| && refund.lines[k].item < |db.orders[refund.orderId].items|
            && var key := Key(db.orders[refund.orderId].items[refund.lines[k].item].sku, RefundEntry, "refund", r);
               && Sum(db.ledger, HasKey(key)) == (if refund.status.RefundSucceeded? then 1 else 0)
               && forall row | row in db.ledger && row.key == key :: row.qty == refund.lines[k].quantity
  {
    EmptyIsSound();
    FreshSettles();
    hide Play; hide Run; hide StepsOf; hide Valid; hide LedgerExact; hide Conserved; hide Owned; hide CalledOnce;
    PlayIsARun(Fresh, events);
    RunKeepsStock(Empty, Committed(events));
    LineIsRestoredOnce(Played(events).db, r, k);
  }

  lemma LineIsRestoredOnce(db: Db, r: nat, k: nat)
    requires Valid(db) && LedgerExact(db) && r < |db.refunds| && k < |db.refunds[r].lines|
    ensures var refund := db.refunds[r];
            && refund.orderId < |db.orders| && refund.lines[k].item < |db.orders[refund.orderId].items|
            && var key := Key(db.orders[refund.orderId].items[refund.lines[k].item].sku, RefundEntry, "refund", r);
               && Sum(db.ledger, HasKey(key)) == (if refund.status.RefundSucceeded? then 1 else 0)
               && forall row | row in db.ledger && row.key == key :: row.qty == refund.lines[k].quantity
  {
    var refund := db.refunds[r];
    assert RefundShape(db.orders, refund) && OrderShape(db.orders[refund.orderId]);
    var items := db.orders[refund.orderId].items;
    var sku := items[refund.lines[k].item].sku;
    var key := Key(sku, RefundEntry, "refund", r);
    RestoreQtyOfLine(items, refund.lines, sku);
    CountUnique(db.ledger, key);
    var row := Row(key, refund.lines[k].quantity);
    if refund.status.RefundSucceeded? {
      assert RefundRow(db.orders, db.refunds, row);
      var i :| 0 <= i < |db.ledger| && db.ledger[i] == row;
      assert KeyUsed(db.ledger, key);
    } else if KeyUsed(db.ledger, key) {
      RefundKeyUsed(db, key);
    }
  }
}
