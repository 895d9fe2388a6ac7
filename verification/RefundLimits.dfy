/**
 Where executing a refund falls short, and exactly when: an executor that dies before it asks loses the
 refund, and an undecided answer that comes late replaces the event a settled refund remembers.
 */
module RefundLimits {
  import opened Wrappers
  import opened Inventory
  import opened Tables
  import opened Orders
  import opened Payments
  import opened Refunds
  import opened Shipments
  import opened Steps
  import opened Books
  import opened BooksKept
  import opened Runs
  import opened Replay
  import opened RefundExecution

  // ---------------------------------------------------- asked, or never asked

  /** An executor that died before it asked, with its transaction recorded. */
  ghost predicate Abandoned(w: World, e: nat) {
    e < |w.executors| && w.executors[e].phase.Ended? && w.executors[e].refundId !in w.calls
  }

  lemma NextLeavesAbandoned(w: World, event: Event, e: nat)
    requires Owned(w) && w.db.Linked() && Abandoned(w, e)
    ensures Abandoned(Next(w, event), e)
    ensures Next(w, event).executors[e] == w.executors[e]
  {
    hide Apply; hide StepOf; hide BeginExecute; hide Db.Linked;
  }

  /**
   The price of asking once: when an executor dies between recording its transaction and asking,
   no later execution of that refund ever asks the provider.
   */
  lemma {:induction false} AbandonedRefundIsNeverAsked(w: World, events: seq<Event>, e: nat)
    requires Settling(w) && Abandoned(w, e)
    ensures Abandoned(Play(w, events), e) && w.executors[e].refundId !in Play(w, events).calls
    ensures Play(w, events).executors[e] == w.executors[e]
  {
    hide Valid; hide Next; hide CalledOnce; hide Owned;
    if |events| > 0 {
      var n := |events| - 1;
      AbandonedRefundIsNeverAsked(w, events[..n], e);
      NextLeavesAbandoned(Play(w, events[..n]), events[n], e);
    }
  }

  /** Recording a transaction and dying is all it takes. */
  lemma CrashAbandons(w: World, refundId: nat)
    requires Settling(w) && w.db.Linked() && BeginExecute(w.db, refundId).result == Ok(1)
    ensures var after, e := Play(w, [Start(refundId)] + [Crash(|w.executors|)]), |w.executors|;
            Abandoned(after, e) && after.executors[e].refundId == refundId
  {
    hide Settling; hide Play; hide BeginExecute; hide Db.Linked; hide Apply;
    NotYetAsked(w, refundId);
    assert [] + [Start(refundId)] == [Start(refundId)];
    PlayNothing(w);
    PlayMore(w, [], Start(refundId));
    PlayMore(w, [Start(refundId)], Crash(|w.executors|));
  }

  ghost predicate Recorded(db: Db, refundId: nat) {
    exists t :: 0 <= t < |db.transactions| && ForRefund(refundId)(db.transactions[t])
  }

  lemma CalledIsRecorded(w: World, c: nat)
    requires Settling(w) && c < |w.calls|
    ensures Recorded(w.db, w.calls[c])
  {
    hide Valid;
    assert MadeBy(w, w.calls[c]);
    var e :| 0 <= e < |w.executors| && w.executors[e].refundId == w.calls[c];
    assert ForRefund(w.calls[c])(w.db.transactions[w.executors[e].transactionId]);
  }

  lemma BeginsUnrecorded(db: Db, refundId: nat)
    requires db.Linked() && BeginExecute(db, refundId).result == Ok(1)
    ensures !Recorded(db, refundId)
  {
    hide Db.Linked;
  }

  lemma NotYetAsked(w: World, refundId: nat)
    requires Settling(w) && w.db.Linked() && BeginExecute(w.db, refundId).result == Ok(1)
    ensures refundId !in w.calls
  {
    hide Settling; hide Recorded; hide BeginExecute;
    BeginsUnrecorded(w.db, refundId);
    forall c | 0 <= c < |w.calls| ensures w.calls[c] != refundId {
      CalledIsRecorded(w, c);
    }
  }

  /** The provider was asked, or an executor stands ready to ask. */
  ghost predicate AskedOrAboutToBe(w: World, refundId: nat) {
    refundId in w.calls ||
    exists e :: 0 <= e < |w.executors| && w.executors[e].refundId == refundId && w.executors[e].phase.Recorded?
  }

  /** Some continuation of the world has the provider asked. */
  ghost predicate CanBeAsked(w: World, refundId: nat)
    requires Settling(w)
  {
    exists events :: refundId in Play(w, events).calls
  }

  lemma StaysRecorded(w: World, event: Event, refundId: nat)
    requires Valid(w.db) && w.db.Linked() && Recorded(w.db, refundId)
    ensures Recorded(Next(w, event).db, refundId)
  {
    hide Valid; hide Next; hide OrdersExtend; hide PaymentsExtend; hide RefundsExtend;
    DbFollows(w, event);
    var t :| 0 <= t < |w.db.transactions| && ForRefund(refundId)(w.db.transactions[t]);
    assert ForRefund(refundId)(Next(w, event).db.transactions[t]);
  }

  lemma NobodyStepsIn(w: World, event: Event, refundId: nat)
    requires w.db.Linked() && Recorded(w.db, refundId) && !AskedOrAboutToBe(w, refundId)
    ensures !AskedOrAboutToBe(Next(w, event), refundId)
  {
    hide Apply; hide StepOf; hide Db.Linked;
    if event.Start? && event.refundId == refundId {
      var t :| 0 <= t < |w.db.transactions| && ForRefund(refundId)(w.db.transactions[t]);
      assert BeginExecute(w.db, refundId).result != Ok(1);
    }
    hide BeginExecute;
  }

  lemma {:induction false} NobodyEverStepsIn(w: World, events: seq<Event>, refundId: nat)
    requires Settling(w) && Recorded(w.db, refundId) && !AskedOrAboutToBe(w, refundId)
    ensures Recorded(Play(w, events).db, refundId) && !AskedOrAboutToBe(Play(w, events), refundId)
  {
    hide Valid; hide Next; hide CalledOnce; hide Owned; hide Recorded; hide AskedOrAboutToBe;
    if |events| > 0 {
      var before := Play(w, events[..|events| - 1]);
      NobodyEverStepsIn(w, events[..|events| - 1], refundId);
      StaysRecorded(before, events[|events| - 1], refundId);
      NobodyStepsIn(before, events[|events| - 1], refundId);
    }
  }

  /** Once its transaction is recorded, a refund can still be asked for iff it was, or an executor is about to. */
  lemma RecordedRefundIsAskedIff(w: World, refundId: nat)
    requires Settling(w) && Recorded(w.db, refundId)
    ensures CanBeAsked(w, refundId) <==> AskedOrAboutToBe(w, refundId)
  {
    hide Settling; hide Recorded; hide Play;
    if refundId in w.calls {
      PlayNothing(w);
      assert refundId in Play(w, []).calls;
    } else if AskedOrAboutToBe(w, refundId) {
      var e :| 0 <= e < |w.executors| && w.executors[e].refundId == refundId && w.executors[e].phase.Recorded?;
      PlayNothing(w);
      PlayMore(w, [], Ask(e));
      assert refundId in Play(w, [] + [Ask(e)]).calls;
    } else {
      forall events ensures refundId !in Play(w, events).calls {
        NobodyEverStepsIn(w, events, refundId);
      }
    }
  }

  // ------------------------------------------------------- a late answer's write

  lemma NoticeKeepsSettled(db: Db, id: nat, n: RefundNotice, k: nat)
    requires db.Linked() && k < |db.transactions| && !db.transactions[k].status.TxPending?
    ensures var after := ConfirmRefund(db, id, n).db;
            |after.transactions| == |db.transactions| && after.transactions[k] == db.transactions[k]
  {
    hide FullyRefunded; hide RefundEventTaken; hide RestoreRows; hide ValidNotice;
  }

  /** Only three steps write refund transactions. */
  lemma OthersKeepTransactions(db: Db, step: Step)
    requires db.Linked() && !step.RefundConfirm? && !step.RefundBegin? && !step.RefundUpdate?
    ensures Apply(db, step).db.transactions == db.transactions
  {
    hide FullyShipped; hide ShipLinesRefusal; hide Remaining; hide Insertable; hide LinesFor; hide LinesRefusal;
    hide ValidOrderRequest; hide Lockable; hide DeductionRows; hide OrderRows; hide EventTaken;
  }

  lemma StepKeepsSettled(db: Db, step: Step, k: nat)
    requires db.Linked() && k < |db.transactions| && !db.transactions[k].status.TxPending?
    requires !(step.RefundUpdate? && step.transactionId == k)
    ensures var after := Apply(db, step).db; k < |after.transactions| && after.transactions[k] == db.transactions[k]
  {
    if step.RefundConfirm? {
      NoticeKeepsSettled(db, step.id, step.notice, k);
    } else if !step.RefundBegin? && !step.RefundUpdate? {
      OthersKeepTransactions(db, step);
      hide Apply;
    }
  }

  /** While no pending write comes late, a settled transaction keeps its event in every run. */
  lemma {:induction false} SettledEventIsRemembered(db: Db, k: nat, steps: seq<Step>)
    requires Valid(db) && k < |db.transactions| && !db.transactions[k].status.TxPending?
    requires forall i :: 0 <= i < |steps| ==> !(steps[i].RefundUpdate? && steps[i].transactionId == k)
    ensures var after := Run(db, steps); k < |after.transactions| && after.transactions[k] == db.transactions[k]
  {
    hide Valid; hide Apply;
    if |steps| > 0 {
      var n := |steps| - 1;
      SettledEventIsRemembered(db, k, steps[..n]);
      StepKeepsSettled(Run(db, steps[..n]), steps[n], k);
    }
  }

  /**
   A late write for an undecided answer leaves the notice that settled the refund acknowledged iff it
   carries the same event id, or one the channel has already used, so that the write fails.
   */
  lemma LateUpdateIff(db: Db, k: nat, eventId: string, refundNo: string, n: RefundNotice)
    requires db.Linked() && TransactionsOk(db.refunds, db.transactions) && k < |db.transactions|
    requires !db.transactions[k].status.TxPending? && db.transactions[k].eventId == Some(n.eventId) && ValidNotice(n)
    ensures var r, after := db.transactions[k].refundId, UpdatePending(db, k, eventId, refundNo).db;
            && ConfirmRefund(db, r, n) == Return(db, r)
            && after.Linked()
            && ConfirmRefund(after, r, n) ==
               if eventId == n.eventId || RefundEventTaken(db.transactions, k, db.transactions[k].channel, eventId)
               then Return(after, r) else Throw(after, Conflict)
  {
    hide RefundEventTaken; hide ValidNotice; hide FullyRefunded; hide RestoreRows;
    var r := db.transactions[k].refundId;
    var after := UpdatePending(db, k, eventId, refundNo).db;
    assert ForRefund(r)(db.transactions[k]);
    assert Find(db.transactions, ForRefund(r)) == Some(k);
    FindUpdated(db.transactions, k, after.transactions[k], r);
  }

  /** The same of an executor that finishes with an undecided answer after a notice settled its refund. */
  lemma LateAnswerIff(w: World, e: nat, n: RefundNotice)
    requires Settling(w) && w.db.Linked() && e < |w.executors|
    requires w.executors[e].phase.Answered? && w.executors[e].phase.answer.Undecided?
    requires var t := w.db.transactions[w.executors[e].transactionId];
             !t.status.TxPending? && t.eventId == Some(n.eventId) && ValidNotice(n)
    ensures var x, after := w.executors[e], Next(w, Finish(e)).db;
            && ConfirmRefund(w.db, x.refundId, n) == Return(w.db, x.refundId)
            && after.Linked()
            && ConfirmRefund(after, x.refundId, n) ==
               if || x.phase.answer.eventId == n.eventId
                  || RefundEventTaken(w.db.transactions, x.transactionId, w.db.transactions[x.transactionId].channel,
                                      x.phase.answer.eventId)
               then Return(after, x.refundId) else Throw(after, Conflict)
  {
    hide ConfirmRefund; hide RefundEventTaken; hide ValidNotice; hide CalledOnce; hide Next;
    hide OrdersOk; hide PaymentsOk; hide RefundsOk; hide CapsOk;
    hide StatusesExact; hide TransactionsOk; hide ShipmentsOk; hide UpdatePending;
    var x := w.executors[e];
    FinishWritesTheAnswer(w, e);
    LateUpdateIff(w.db, x.transactionId, x.phase.answer.eventId, x.phase.answer.refundNo, n);
  }

  lemma FinishWritesTheAnswer(w: World, e: nat)
    requires w.db.Linked() && Owned(w) && e < |w.executors|
    requires w.executors[e].phase.Answered? && w.executors[e].phase.answer.Undecided?
    ensures var x := w.executors[e];
            && x.refundId < |w.db.refunds|
            && Next(w, Finish(e)).db ==
               UpdatePending(w.db, x.transactionId, x.phase.answer.eventId, x.phase.answer.refundNo).db
  {
    hide UpdatePending;
  }

  /** A notice that fits is taken as soon as the transaction is recorded. */
  lemma NoticeOvertakes(db: Db, refundId: nat, channel: string, n: RefundNotice)
    requires db.Linked() && BeginExecute(db, refundId).result == Ok(1)
    requires refundId < |db.refunds| && PaidThrough(db, db.refunds[refundId].orderId, channel)
    requires ValidNotice(n) && n.amount == db.refunds[refundId].amount
    requires !RefundEventTaken(db.transactions, |db.transactions|, channel, n.eventId)
    ensures var begun, k := BeginExecute(db, refundId).db, |db.transactions|;
            && begun.Linked() && |begun.transactions| == k + 1
            && begun.transactions[..k] == db.transactions
            && var after := ConfirmRefund(begun, refundId, n).db;
               && after.transactions == begun.transactions[k := SettledTransaction(begun.transactions[k], n)]
               && after.transactions[k].refundId == refundId && after.transactions[k].channel == channel
  {
    hide Find; hide ValidNotice; hide Db.Linked; hide FullyRefunded; hide RestoreRows; hide RefundEventTaken;
    hide PaidThrough;
    BeginKeepsLinks(db, refundId);
    BeginRecords(db, refundId, channel, n.eventId);
    BeginAppends(db, refundId);
  }

  lemma BeginAppends(db: Db, refundId: nat)
    requires db.Linked() && BeginExecute(db, refundId).result == Ok(1)
    ensures var begun, k := BeginExecute(db, refundId).db, |db.transactions|;
            |begun.transactions| == k + 1 && begun.transactions[..k] == db.transactions
            && begun.transactions[k].refundId == refundId
  {
    hide Find; hide Db.Linked;
  }

  lemma TakenByOthers(a: seq<Transaction>, b: seq<Transaction>, k: nat, channel: string, eventId: string)
    requires k == |a| && |b| == k + 1 && b[..k] == a
    ensures RefundEventTaken(b, k, channel, eventId) <==> RefundEventTaken(a, k, channel, eventId)
  {
    assert forall i :: 0 <= i < k ==> b[i] == b[..k][i];
  }

  /** The executor starts, asks and hears an undecided answer; a notice settles the refund; then it finishes. */
  function Overtaken(w: World, refundId: nat, eventId: string, refundNo: string, n: RefundNotice): seq<Event> {
    var e := |w.executors|;
    [Start(refundId)] + [Ask(e)] + [Hear(e, Undecided(eventId, refundNo))] + [Elsewhere(RefundConfirm(refundId, n))] +
    [Finish(e)]
  }

  lemma OvertakenRun(w: World, refundId: nat, eventId: string, refundNo: string, n: RefundNotice)
    requires Settling(w) && w.db.Linked() && BeginExecute(w.db, refundId).result == Ok(1)
    ensures BeginExecute(w.db, refundId).db.Linked()
    ensures Play(w, Overtaken(w, refundId, eventId, refundNo, n)).db ==
            UpdatePending(ConfirmRefund(BeginExecute(w.db, refundId).db, refundId, n).db, |w.db.transactions|,
                          eventId, refundNo).db
  {
    hide Settling; hide ConfirmRefund; hide UpdatePending; hide BeginExecute; hide Db.Linked; hide Play;
    var e := |w.executors|;
    var a := [Start(refundId)];
    var b := a + [Ask(e)];
    var c := b + [Hear(e, Undecided(eventId, refundNo))];
    var d := c + [Elsewhere(RefundConfirm(refundId, n))];
    assert [] + [Start(refundId)] == a;
    PlayNothing(w);
    PlayMore(w, [], Start(refundId));
    PlayMore(w, a, Ask(e));
    PlayMore(w, b, Hear(e, Undecided(eventId, refundNo)));
    PlayMore(w, c, Elsewhere(RefundConfirm(refundId, n)));
    PlayMore(w, d, Finish(e));
    BeginKeepsLinks(w.db, refundId);
    BeginOnlyRecords(w.db, refundId);
    RefundsAreKept(BeginExecute(w.db, refundId).db, refundId, n);
  }

  lemma RefundsAreKept(db: Db, refundId: nat, n: RefundNotice)
    requires db.Linked()
    ensures |ConfirmRefund(db, refundId, n).db.refunds| == |db.refunds|
  {
    hide RefundEventTaken; hide ValidNotice; hide FullyRefunded; hide RestoreRows; hide Find; hide Db.Linked;
  }

  /**
   From any world in which a refund can begin, that run is possible. Its notice is taken, and delivered
   again it is refused, unless the answer brought the same event id or one the channel had used before.
   */
  lemma OvertakenNoticeIsForgottenIff(
    w: World, refundId: nat, eventId: string, refundNo: string, channel: string, n: RefundNotice)
    requires Settling(w) && w.db.Linked() && BeginExecute(w.db, refundId).result == Ok(1)
    requires refundId < |w.db.refunds| && PaidThrough(w.db, w.db.refunds[refundId].orderId, channel)
    requires ValidNotice(n) && n.amount == w.db.refunds[refundId].amount
    requires !RefundEventTaken(w.db.transactions, |w.db.transactions|, channel, n.eventId)
    ensures var after := Play(w, Overtaken(w, refundId, eventId, refundNo, n)).db;
            && after.Linked()
            && |after.transactions| == |w.db.transactions| + 1 && !after.transactions[|w.db.transactions|].status.TxPending?
            && ConfirmRefund(after, refundId, n) ==
               if eventId == n.eventId || RefundEventTaken(w.db.transactions, |w.db.transactions|, channel, eventId)
               then Return(after, refundId) else Throw(after, Conflict)
  {
    hide Valid; hide Owned; hide CalledOnce; hide ConfirmRefund; hide BeginExecute; hide RefundEventTaken;
    hide ValidNotice; hide PaidThrough; hide Db.Linked; hide Play; hide TransactionsOk; hide Overtaken;
    var k := |w.db.transactions|;
    var begun := BeginExecute(w.db, refundId).db;
    NoticeOvertakes(w.db, refundId, channel, n);
    OvertakenRun(w, refundId, eventId, refundNo, n);
    BeginExecuteKeeps(w.db, refundId);
    ConfirmRefundKeeps(begun, refundId, n);
    var settled := ConfirmRefund(begun, refundId, n).db;
    ValidIsLinked(settled);
    ValidMeansAgreement(settled);
    LateUpdateIff(settled, k, eventId, refundNo, n);
    assert settled.transactions[..k] == w.db.transactions;
    TakenByOthers(w.db.transactions, settled.transactions, k, channel, eventId);
    UpdateKeepsStatus(settled, k, eventId, refundNo);
  }

  lemma ValidMeansAgreement(db: Db)
    requires Valid(db)
    ensures TransactionsOk(db.refunds, db.transactions)
  {
  }

  lemma UpdateKeepsStatus(db: Db, k: nat, eventId: string, refundNo: string)
    requires k < |db.transactions|
    ensures var after := UpdatePending(db, k, eventId, refundNo).db;
            |after.transactions| == |db.transactions| && after.transactions[k].status == db.transactions[k].status
  {
    hide RefundEventTaken;
  }

  // --------------------------------------------------- what a settled refund remembers

  /** The event id a settled transaction carries after a run: that of the last write that went through. */
  function Remembered(db: Db, k: nat, steps: seq<Step>): Option<string>
    requires Valid(db) && k < |db.transactions|
  {
    if |steps| == 0 then db.transactions[k].eventId
    else
      var before, step := Run(db, steps[..|steps| - 1]), steps[|steps| - 1];
      if step.RefundUpdate? && step.transactionId == k && k < |before.transactions|
         && !RefundEventTaken(before.transactions, k, before.transactions[k].channel, step.eventId)
      then Some(step.eventId)
      else Remembered(db, k, steps[..|steps| - 1])
  }

  lemma StepRemembers(db: Db, step: Step, k: nat)
    requires db.Linked() && k < |db.transactions| && !db.transactions[k].status.TxPending?
    ensures var after := Apply(db, step).db;
            && k < |after.transactions| && !after.transactions[k].status.TxPending?
            && after.transactions[k].refundId == db.transactions[k].refundId
            && after.transactions[k].eventId ==
               if step.RefundUpdate? && step.transactionId == k
                  && !RefundEventTaken(db.transactions, k, db.transactions[k].channel, step.eventId)
               then Some(step.eventId) else db.transactions[k].eventId
  {
    hide RefundEventTaken; hide ConfirmRefund; hide BeginExecute;
    if !(step.RefundUpdate? && step.transactionId == k) {
      StepKeepsSettled(db, step, k);
      hide Apply;
    }
  }

  lemma {:induction false} RunRemembers(db: Db, k: nat, steps: seq<Step>)
    requires Valid(db) && k < |db.transactions| && !db.transactions[k].status.TxPending?
    ensures var after := Run(db, steps);
            && k < |after.transactions| && !after.transactions[k].status.TxPending?
            && after.transactions[k].refundId == db.transactions[k].refundId
            && after.transactions[k].eventId == Remembered(db, k, steps)
  {
    hide Valid; hide Apply; hide RefundEventTaken; hide Db.Linked;
    if |steps| > 0 {
      RunRemembers(db, k, steps[..|steps| - 1]);
      StepRemembers(Run(db, steps[..|steps| - 1]), steps[|steps| - 1], k);
    }
  }

  /** After any run a settled refund acknowledges a notice iff the last write that went through named its event. */
  lemma SettledNoticeIsAcknowledgedIff(db: Db, k: nat, steps: seq<Step>, n: RefundNotice)
    requires Valid(db) && k < |db.transactions| && !db.transactions[k].status.TxPending? && ValidNotice(n)
    ensures ConfirmRefund(Run(db, steps), db.transactions[k].refundId, n).result.Ok? <==>
              Remembered(db, k, steps) == Some(n.eventId)
  {
    hide Valid; hide Run; hide Remembered; hide ValidNotice;
    RunRemembers(db, k, steps);
    SettledAnswers(Run(db, steps), k, n);
  }

  lemma SettledAnswers(db: Db, k: nat, n: RefundNotice)
    requires Valid(db) && db.Linked() && k < |db.transactions| && !db.transactions[k].status.TxPending? && ValidNotice(n)
    ensures ConfirmRefund(db, db.transactions[k].refundId, n).result.Ok? <==>
              db.transactions[k].eventId == Some(n.eventId)
  {
    hide OrdersOk; hide PaymentsOk; hide RefundsOk; hide CapsOk; hide StatusesExact; hide ShipmentsOk;
    hide ValidNotice; hide FullyRefunded; hide RestoreRows; hide RefundEventTaken; hide Db.Linked;
    assert ForRefund(db.transactions[k].refundId)(db.transactions[k]);
  }
}
