/** The rows of a webhook inbox and what each of its transactions does to one of them. */
module Inbox {
  import opened Wrappers
  import opened Tables
  import opened Payments
  import opened Refunds

  /** Payment and refund events live in tables of their own that follow the same rules. */
  datatype Payload =
    | PaymentReport(paymentId: nat, number: string, tradeNo: string, amount: nat, succeeded: bool)
    | RefundReport(refundId: nat, refundNo: string, amount: nat, succeeded: bool)

  datatype EventStatus = Waiting | Failed | Processed | DeadLetter

  datatype InboxEvent = InboxEvent(
    channel: string, eventId: string, payload: Payload,
    status: EventStatus, attempts: nat, nextAttemptAt: int)

  const MAX_ATTEMPTS: nat := 10
  const MAX_DELAY: nat := 3_600_000

  predicate Open(status: EventStatus) {
    status.Waiting? || status.Failed?
  }

  function Matching(payload: Payload, channel: string, eventId: string): InboxEvent -> bool {
    (e: InboxEvent) =>
      e.payload.PaymentReport? == payload.PaymentReport? && e.channel == channel && e.eventId == eventId
  }

  datatype Enqueued = Enqueued(events: seq<InboxEvent>, result: Result<()>)

  function Enqueue(events: seq<InboxEvent>, channel: string, eventId: string, payload: Payload, now: int): Enqueued {
    match Find(events, Matching(payload, channel, eventId))
    case Some(i) => Enqueued(events, if events[i].payload == payload then Ok(()) else Err(Conflict))
    case None => Enqueued(events + [InboxEvent(channel, eventId, payload, Waiting, 0, now)], Ok(()))
  }

  predicate Due(e: InboxEvent, now: int) {
    Open(e.status) && e.nextAttemptAt <= now
  }

  function Pow2(n: nat): nat {
    if n == 0 then 1 else 2 * Pow2(n - 1)
  }

  /** Milliseconds to wait after the attempt of this number. */
  function Delay(attempt: nat): nat {
    if Pow2(attempt) * 1000 < MAX_DELAY then Pow2(attempt) * 1000 else MAX_DELAY
  }

  function MarkProcessed(e: InboxEvent): InboxEvent {
    if Open(e.status) then e.(status := Processed) else e
  }

  /** `seen` is the number of attempts read with the batch; the row's own count is incremented. */
  function MarkFailed(e: InboxEvent, seen: nat, now: int): InboxEvent {
    if Open(e.status) then
      e.(status := if seen + 1 >= MAX_ATTEMPTS then DeadLetter else Failed,
         attempts := e.attempts + 1,
         nextAttemptAt := now + Delay(seen + 1))
    else e
  }

  function Replay(e: InboxEvent, now: int): InboxEvent {
    if e.status.DeadLetter? then e.(status := Waiting, attempts := 0, nextAttemptAt := now) else e
  }

  /** What a worker does with an event before it marks the row. */
  function Handle(db: Db, e: InboxEvent): Outcome
    requires db.Linked()
  {
    match e.payload
    case PaymentReport(id, number, tradeNo, amount, succeeded) =>
      if id >= |db.payments| then Throw(db, NotFound)
      else if db.payments[id].channel != e.channel || db.payments[id].number != number then Throw(db, Conflict)
      else ConfirmPayment(db, id, Confirmation(e.eventId, tradeNo, amount, succeeded))
    case RefundReport(id, refundNo, amount, succeeded) =>
      ConfirmRefund(db, id, RefundNotice(e.eventId, refundNo, amount, succeeded))
  }

  // --------------------------------------------------------------- retry bound

  /** One failed round of a single worker: when it read the row, and when it marked it. */
  datatype Round = Round(read: int, marked: int)

  ghost predicate RoundsOf(e: InboxEvent, rounds: seq<Round>) {
    forall i :: 0 <= i < |rounds| ==>
      Due(After(e, rounds[..i]), rounds[i].read) && rounds[i].read <= rounds[i].marked
  }

  /** The row after rounds that all failed, each reading the attempts the one before left. */
  function After(e: InboxEvent, rounds: seq<Round>): InboxEvent {
    if |rounds| == 0 then e
    else
      var before := After(e, rounds[..|rounds| - 1]);
      MarkFailed(before, before.attempts, rounds[|rounds| - 1].marked)
  }

  lemma {:induction false} DelayNeverCapped(attempt: nat)
    requires 1 <= attempt <= MAX_ATTEMPTS
    ensures Delay(attempt) == Pow2(attempt) * 1000 < MAX_DELAY
  {
    assert Pow2(4) == 16;
    assert Pow2(8) == 16 * Pow2(4) by { assert Pow2(6) == 4 * Pow2(4); }
    assert Pow2(10) == 4 * Pow2(8);
    PowGrows(attempt, MAX_ATTEMPTS);
  }

  lemma {:induction false} PowGrows(m: nat, n: nat)
    requires m <= n
    ensures Pow2(m) <= Pow2(n)
  {
    if m < n {
      PowGrows(m, n - 1);
    }
  }

  lemma PowDoubles(n: nat)
    ensures Pow2(n + 1) == 2 * Pow2(n) && Pow2(0) == 1
  {
  }

  lemma FailureWaits(e: InboxEvent, at: int)
    requires Open(e.status) && e.attempts < MAX_ATTEMPTS
    ensures MarkFailed(e, e.attempts, at).nextAttemptAt == at + 1000 * Pow2(e.attempts + 1)
  {
    hide Pow2;
    DelayNeverCapped(e.attempts + 1);
  }

  /**
   With one worker at a time the attempts tell the status, the tenth failure is the last, the hour
   cap never applies, and round n is read at least 2^n - 2 seconds after the first.
   */
  lemma {:induction false} RetriesAreBounded(e: InboxEvent, rounds: seq<Round>)
    requires e.status.Waiting? && e.attempts == 0 && RoundsOf(e, rounds)
    ensures var after := After(e, rounds);
            && |rounds| == after.attempts <= MAX_ATTEMPTS
            && (after.status.Waiting? <==> after.attempts == 0)
            && (after.status.Failed? <==> 1 <= after.attempts <= 9)
            && (after.status.DeadLetter? <==> after.attempts == MAX_ATTEMPTS)
            && !after.status.Processed?
    ensures |rounds| > 0 ==>
              && rounds[|rounds| - 1].read >= rounds[0].read + 1000 * (Pow2(|rounds|) - 2)
              && After(e, rounds).nextAttemptAt >= rounds[0].read + 1000 * (Pow2(|rounds| + 1) - 2)
  {
    hide Pow2; hide Delay;
    if |rounds| > 0 {
      var n := |rounds| - 1;
      forall i | 0 <= i < n ensures Due(After(e, rounds[..n][..i]), rounds[..n][i].read) {
        assert rounds[..n][..i] == rounds[..i];
      }
      RetriesAreBounded(e, rounds[..n]);
      assert Due(After(e, rounds[..n]), rounds[n].read);
      FailureWaits(After(e, rounds[..n]), rounds[n].marked);
      PowDoubles(n + 1);
      PowDoubles(n);
      PowDoubles(0);
    }
  }

  /** The tenth and last attempt comes at least 1022 seconds after the first. */
  lemma LastAttemptIsLate(e: InboxEvent, rounds: seq<Round>)
    requires e.status.Waiting? && e.attempts == 0 && RoundsOf(e, rounds)
    requires After(e, rounds).status.DeadLetter?
    ensures |rounds| == MAX_ATTEMPTS && rounds[9].read >= rounds[0].read + 1_022_000
  {
    RetriesAreBounded(e, rounds);
    assert Pow2(10) == 1024 by {
      assert Pow2(4) == 16;
      assert Pow2(6) == 4 * Pow2(4);
      assert Pow2(8) == 4 * Pow2(6);
      assert Pow2(10) == 4 * Pow2(8);
    }
  }

  /** The n-th failure puts the next attempt off by exactly 2^n seconds from when it was recorded. */
  lemma RetryWaits(e: InboxEvent, rounds: seq<Round>)
    requires e.status.Waiting? && e.attempts == 0 && RoundsOf(e, rounds) && |rounds| > 0
    ensures After(e, rounds).nextAttemptAt == rounds[|rounds| - 1].marked + 1000 * Pow2(|rounds|)
    ensures After(e, rounds).(status := e.status, attempts := 0, nextAttemptAt := e.nextAttemptAt) == e
  {
    hide Pow2; hide MarkFailed;
    var n := |rounds| - 1;
    forall i | 0 <= i < n ensures Due(After(e, rounds[..n][..i]), rounds[..n][i].read) {
      assert rounds[..n][..i] == rounds[..i];
    }
    RetriesAreBounded(e, rounds[..n]);
    assert Due(After(e, rounds[..n]), rounds[n].read);
    FailureWaits(After(e, rounds[..n]), rounds[n].marked);
    ContentIsKept(e, rounds);
  }

  lemma {:induction false} ContentIsKept(e: InboxEvent, rounds: seq<Round>)
    ensures After(e, rounds).channel == e.channel && After(e, rounds).eventId == e.eventId
    ensures After(e, rounds).payload == e.payload
  {
    if |rounds| > 0 {
      ContentIsKept(e, rounds[..|rounds| - 1]);
    }
  }

  // --------------------------------------------------------- entering the queue

  /** The inbox has this event, of the same kind and channel. */
  ghost predicate Known(events: seq<InboxEvent>, channel: string, eventId: string, payload: Payload) {
    exists i :: 0 <= i < |events| && Is(events[i], channel, eventId, payload)
  }

  predicate Is(e: InboxEvent, channel: string, eventId: string, payload: Payload) {
    e.channel == channel && e.eventId == eventId && (e.payload.PaymentReport? <==> payload.PaymentReport?)
  }

  lemma KnownIsCompared(
    events: seq<InboxEvent>, channel: string, eventId: string, payload: Payload, now: int, i: nat)
    requires i < |events| && Is(events[i], channel, eventId, payload)
    requires forall j :: 0 <= j < i ==> !Is(events[j], channel, eventId, payload)
    ensures Enqueue(events, channel, eventId, payload, now) ==
            Enqueued(events, if events[i].payload == payload then Ok(()) else Err(Conflict))
  {
    var matches := Matching(payload, channel, eventId);
    assert matches(events[i]);
    var found := Find(events, matches).value;
    assert matches(events[found]) && Is(events[found], channel, eventId, payload);
  }

  lemma NewIsAppended(events: seq<InboxEvent>, channel: string, eventId: string, payload: Payload, now: int)
    requires !Known(events, channel, eventId, payload)
    ensures Enqueue(events, channel, eventId, payload, now) ==
            Enqueued(events + [InboxEvent(channel, eventId, payload, Waiting, 0, now)], Ok(()))
  {
    var found := Find(events, Matching(payload, channel, eventId));
    if found.Some? {
      assert Is(events[found.value], channel, eventId, payload);
    }
  }

  /** A new event waits at the end of the queue, due at once; a known one is only compared with the first of its kind. */
  lemma EnqueuePromise(events: seq<InboxEvent>, channel: string, eventId: string, payload: Payload, now: int)
    ensures var after := Enqueue(events, channel, eventId, payload, now);
            if Known(events, channel, eventId, payload) then
              && after.events == events
              && forall i | 0 <= i < |events| && Is(events[i], channel, eventId, payload)
                              && (forall j :: 0 <= j < i ==> !Is(events[j], channel, eventId, payload)) ::
                   after.result == if events[i].payload == payload then Ok(()) else Err(Conflict)
            else
              && after.result.Ok? && |after.events| == |events| + 1 && after.events[..|events|] == events
              && var e := after.events[|events|];
                 && Is(e, channel, eventId, payload) && e.payload == payload && e.status == Waiting && e.attempts == 0
                 && forall at :: Due(e, at) <==> now <= at
  {
    hide Enqueue;
    if Known(events, channel, eventId, payload) {
      hide Is;
      var i := FirstKnown(events, channel, eventId, payload);
      KnownIsCompared(events, channel, eventId, payload, now, i);
    } else {
      NewIsAppended(events, channel, eventId, payload, now);
    }
  }

  lemma FirstKnown(events: seq<InboxEvent>, channel: string, eventId: string, payload: Payload) returns (i: nat)
    requires Known(events, channel, eventId, payload)
    ensures i < |events| && Is(events[i], channel, eventId, payload)
    ensures forall j :: 0 <= j < i ==> !Is(events[j], channel, eventId, payload)
  {
    hide Is;
    var same := (e: InboxEvent) => Is(e, channel, eventId, payload);
    var known :| 0 <= known < |events| && Is(events[known], channel, eventId, payload);
    assert same(events[known]);
    i := Find(events, same).value;
    forall j | 0 <= j < i ensures !Is(events[j], channel, eventId, payload) {
      assert !same(events[j]);
    }
  }

  /** A dead letter put back is like an event just delivered; any other row stays as it is. */
  lemma ReplayPromise(e: InboxEvent, now: int)
    ensures e.status == DeadLetter ==>
              && Replay(e, now) == InboxEvent(e.channel, e.eventId, e.payload, Waiting, 0, now)
              && Enqueue([], e.channel, e.eventId, e.payload, now).events == [Replay(e, now)]
    ensures e.status != DeadLetter ==> Replay(e, now) == e
  {
  }
}
