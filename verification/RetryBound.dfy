/**
 The retry bound over the workers of the inbox. While no event is held by two workers at once, each
 event's history is a lone worker's: its status tells its attempts and its tenth failure is the last.
 Two workers that read the same count break this.
 */
module RetryBound {
  import opened Tables
  import opened Steps
  import opened Runs
  import opened InboxWorkers
  import I = Inbox

  /** A worker that has not stopped has a note for the event still to do. */
  ghost predicate Holds(world: World, w: nat, k: nat, i: nat) {
    && w < |world.workers| && !world.workers[w].stage.Gone?
    && k < |world.workers[w].todo| && world.workers[w].todo[k].event == i
  }

  ghost predicate Lone(world: World, i: nat) {
    forall w: nat, k: nat, x: nat, l: nat :: Holds(world, w, k, i) && Holds(world, x, l, i) ==> w == x && k == l
  }

  /** A worker marks an event no earlier than it read it. */
  predicate Punctual(world: World, event: Event) {
    event.Mark? && Busy(world, event.w) ==> world.workers[event.w].todo[0].readAt <= event.now
  }

  /** The event is never held twice, and clocks do not run backwards. */
  ghost predicate LoneRun(events: seq<Event>, i: nat) {
    forall n :: 0 <= n < |events| ==> Lone(Played(events[..n]), i) && Punctual(Played(events[..n]), events[n])
  }

  /** The row is what a lone worker's failed rounds made of it, or that and then processed. */
  ghost predicate Tracks(world: World, i: nat, first: I.InboxEvent, rounds: seq<I.Round>) {
    && i < |world.events|
    && first.status.Waiting? && first.attempts == 0 && I.RoundsOf(first, rounds)
    && var after := I.After(first, rounds);
       && (world.events[i] == after || (I.Open(after.status) && world.events[i] == after.(status := I.Processed)))
       && forall w: nat, k: nat :: Holds(world, w, k, i) ==>
            && world.events[i] == after
            && world.workers[w].todo[k].attempts == after.attempts
            && I.Due(after, world.workers[w].todo[k].readAt)
  }

  lemma HoldsOn(world: World, event: Event, w: nat, k: nat, i: nat)
    requires world.db.Linked() && Holds(Next(world, event), w, k, i) && i < |world.events|
    ensures !(event.Mark? && event.w == w) && !(event.Fetch? && w == |world.workers|) ==>
              Holds(world, w, k, i) && Next(world, event).workers[w].todo[k] == world.workers[w].todo[k]
    ensures event.Mark? && event.w == w ==>
              var shift := if Next(world, event) == world then 0 else 1;
              Holds(world, w, k + shift, i) && Next(world, event).workers[w].todo[k] == world.workers[w].todo[k + shift]
    ensures event.Fetch? && w == |world.workers| ==>
              && I.Due(world.events[i], event.now)
              && Next(world, event).workers[w].todo[k] == Note(i, world.events[i].attempts, event.now)
  {
    hide I.Handle; hide Apply; hide Db.Linked;
  }

  lemma RoundAdded(first: I.InboxEvent, rounds: seq<I.Round>, round: I.Round)
    requires I.RoundsOf(first, rounds) && I.Due(I.After(first, rounds), round.read) && round.read <= round.marked
    ensures I.RoundsOf(first, rounds + [round])
    ensures var after := I.After(first, rounds);
            I.After(first, rounds + [round]) == I.MarkFailed(after, after.attempts, round.marked)
  {
    hide I.Due; hide I.MarkFailed;
    assert (rounds + [round])[..|rounds|] == rounds;
    forall n | 0 <= n < |rounds| + 1
      ensures I.Due(I.After(first, (rounds + [round])[..n]), (rounds + [round])[n].read)
    {
      assert (rounds + [round])[..n] == rounds[..n];
    }
  }

  predicate Marks(world: World, event: Event, i: nat) {
    event.Mark? && Busy(world, event.w) && world.workers[event.w].todo[0].event == i
    && (world.workers[event.w].stage.Confirmed? || world.workers[event.w].stage.Broken?)
  }

  /** Only its holder's mark and a replay write an event. */
  lemma WritesOf(world: World, event: Event, i: nat)
    requires world.db.Linked() && i < |world.events|
    ensures i < |Next(world, event).events|
    ensures !Marks(world, event, i) && !(event.Revive? && event.event == i) ==>
              Next(world, event).events[i] == world.events[i]
    ensures Marks(world, event, i) ==>
              Next(world, event).events[i] ==
              if world.workers[event.w].stage.Confirmed? then I.MarkProcessed(world.events[i])
              else I.MarkFailed(world.events[i], world.workers[event.w].todo[0].attempts, event.now)
    ensures event.Revive? && event.event == i ==> Next(world, event).events[i] == I.Replay(world.events[i], event.now)
  {
    hide I.Handle; hide Apply; hide Db.Linked; hide I.MarkProcessed; hide I.MarkFailed; hide I.Replay;
  }

  lemma MarkTracks(world: World, event: Event, i: nat, first: I.InboxEvent, rounds: seq<I.Round>)
    returns (later: seq<I.Round>)
    requires world.db.Linked() && Lone(world, i) && Punctual(world, event) && Tracks(world, i, first, rounds)
    requires Marks(world, event, i)
    ensures Tracks(Next(world, event), i, first, later)
  {
    hide I.Handle; hide Apply; hide Db.Linked; hide Next; hide I.RoundsOf; hide I.After; hide I.MarkFailed;
    var w := event.w;
    var note := world.workers[w].todo[0];
    assert Holds(world, w, 0, i);
    WritesOf(world, event, i);
    MarkUsesUp(world, event, i);
    if world.workers[w].stage.Confirmed? {
      later := rounds;
    } else {
      var round := I.Round(note.readAt, event.now);
      RoundAdded(first, rounds, round);
      later := rounds + [round];
    }
  }

  lemma MarkUsesUp(world: World, event: Event, i: nat)
    requires world.db.Linked() && Lone(world, i) && i < |world.events| && Marks(world, event, i)
    ensures forall w: nat, k: nat :: !Holds(Next(world, event), w, k, i)
  {
    hide I.Handle; hide Apply; hide Db.Linked; hide I.MarkProcessed; hide I.MarkFailed;
    assert Holds(world, event.w, 0, i);
    var after := Next(world, event);
    forall w: nat, k: nat ensures !Holds(after, w, k, i) {
      if Holds(after, w, k, i) {
        HoldsOn(world, event, w, k, i);
        assert false;
      }
    }
  }

  lemma OtherTracks(world: World, event: Event, i: nat, first: I.InboxEvent, rounds: seq<I.Round>)
    requires world.db.Linked() && Tracks(world, i, first, rounds)
    requires !Marks(world, event, i) && !(event.Revive? && event.event == i)
    ensures Tracks(Next(world, event), i, first, rounds)
  {
    hide I.RoundsOf; hide I.After; hide Next; hide Db.Linked;
    WritesOf(world, event, i);
    var after := Next(world, event);
    forall w: nat, k: nat | Holds(after, w, k, i)
      ensures after.events[i] == I.After(first, rounds)
      ensures after.workers[w].todo[k].attempts == after.events[i].attempts
      ensures I.Due(after.events[i], after.workers[w].todo[k].readAt)
    {
      HoldsOn(world, event, w, k, i);
    }
  }

  lemma ReviveTracks(world: World, event: Event, i: nat, first: I.InboxEvent, rounds: seq<I.Round>)
    returns (next: I.InboxEvent, later: seq<I.Round>)
    requires world.db.Linked() && Tracks(world, i, first, rounds) && event.Revive? && event.event == i
    ensures Tracks(Next(world, event), i, next, later)
  {
    hide Db.Linked;
    if world.events[i].status.DeadLetter? {
      next, later := Next(world, event).events[i], [];
      forall w: nat, k: nat ensures !Holds(Next(world, event), w, k, i) {
        if Holds(Next(world, event), w, k, i) {
          HoldsOn(world, event, w, k, i);
          assert false;
        }
      }
    } else {
      next, later := first, rounds;
      assert Next(world, event).events == world.events;
    }
  }

  lemma DeliveryTracks(world: World, event: Event, i: nat)
    requires world.db.Linked() && NotesPoint(world) && i >= |world.events| && i < |Next(world, event).events|
    ensures Tracks(Next(world, event), i, Next(world, event).events[i], [])
  {
    hide I.Handle; hide Apply; hide Db.Linked;
  }

  /** The history of an event that was never held twice is a lone worker's. */
  lemma {:induction false} LoneHistory(events: seq<Event>, i: nat)
    returns (first: I.InboxEvent, rounds: seq<I.Round>)
    requires LoneRun(events, i) && i < |Played(events).events|
    ensures Tracks(Played(events), i, first, rounds)
    decreases |events|
  {
    hide Tracks; hide Lone; hide Punctual; hide Marks; hide Next; hide Orderly; hide Play; hide Db.Linked;
    FreshIsOrderly();
    if |events| == 0 {
      NothingPlayed(events);
    }
    var n := |events| - 1;
    var before, event := Played(events[..n]), events[n];
    assert events == events[..n] + [event];
    PlayMore(Fresh, events[..n], event);
    if i < |before.events| {
      PrefixIsLone(events, n, i);
      first, rounds := LoneHistory(events[..n], i);
      if Marks(before, event, i) {
        rounds := MarkTracks(before, event, i, first, rounds);
      } else if event.Revive? && event.event == i {
        first, rounds := ReviveTracks(before, event, i, first, rounds);
      } else {
        OtherTracks(before, event, i, first, rounds);
      }
    } else {
      OrderlyPoints(before);
      DeliveryTracks(before, event, i);
      first, rounds := Played(events).events[i], [];
    }
  }

  lemma NothingPlayed(events: seq<Event>)
    requires |events| == 0
    ensures Played(events).events == []
  {
  }

  lemma OrderlyPoints(world: World)
    requires Orderly(world)
    ensures NotesPoint(world)
  {
  }

  lemma PrefixIsLone(events: seq<Event>, n: nat, i: nat)
    requires n <= |events| && LoneRun(events, i)
    ensures LoneRun(events[..n], i)
  {
    hide Lone; hide Punctual; hide Played;
    forall m | 0 <= m < n ensures Lone(Played(events[..n][..m]), i) && Punctual(Played(events[..n][..m]), events[..n][m]) {
      assert events[..n][..m] == events[..m];
    }
  }

  /** The status tells the attempts: none, one to nine, ten; and never more than ten. */
  predicate Bounded(e: I.InboxEvent) {
    && e.attempts <= I.MAX_ATTEMPTS
    && (e.status.Waiting? ==> e.attempts == 0)
    && (e.status.Failed? ==> 1 <= e.attempts <= 9)
    && (e.status.DeadLetter? <==> e.attempts == I.MAX_ATTEMPTS)
  }

  /**
   With any number of workers, crashes, replays and other transactions: an event that is never held by
   two of them keeps to the bound. A dead letter took exactly ten failed rounds, each due when it was
   read, the last at least 1022 seconds after the first.
   */
  lemma LoneEventsAreBounded(events: seq<Event>, i: nat)
    returns (first: I.InboxEvent, rounds: seq<I.Round>)
    requires LoneRun(events, i) && i < |Played(events).events|
    ensures Bounded(Played(events).events[i])
    ensures Tracks(Played(events), i, first, rounds) && |rounds| == Played(events).events[i].attempts
    ensures Played(events).events[i].status.DeadLetter? ==>
              |rounds| == 10 && rounds[9].read >= rounds[0].read + 1_022_000
  {
    hide Played; hide I.RoundsOf; hide LoneRun;
    first, rounds := LoneHistory(events, i);
    I.RetriesAreBounded(first, rounds);
    if I.After(first, rounds).status.DeadLetter? {
      I.LastAttemptIsLate(first, rounds);
    }
  }

  // ----------------------------------------------------------- two at a time

  /** A failed mark keeps an event within the bound iff the count its worker read is on the right side of nine. */
  lemma MarkKeepsBoundIff(world: World, w: nat, now: int)
    requires world.db.Linked() && Busy(world, w) && world.workers[w].stage.Broken?
    requires var e := world.events[world.workers[w].todo[0].event]; I.Open(e.status) && Bounded(e)
    ensures var note := world.workers[w].todo[0];
            Bounded(Next(world, Mark(w, now)).events[note.event]) <==>
              (note.attempts >= 9 <==> world.events[note.event].attempts >= 9)
  {
    hide I.Delay; hide Db.Linked;
  }

  const Unknown := I.PaymentReport(0, "P1", "T1", 1, true)
  const Delivery := Deliver("mock", "event-1", Unknown, 0)
  const Pause: int := 10_000_000

  /** One worker fetches the event, fails on it and marks it. */
  function Round(w: nat, t: int): seq<Event> {
    [Fetch([0], t)] + [Work(w)] + [Mark(w, t)]
  }

  function Rounds(n: nat): seq<Event> {
    if n == 0 then [] else Rounds(n - 1) + Round(n - 1, Pause * n)
  }

  /** One event on empty tables, whose payment no worker will find. */
  ghost predicate Hopeless(world: World) {
    && world.db == Empty && |world.events| == 1 && world.events[0].payload == Unknown
    && I.Open(world.events[0].status)
  }

  lemma PlayThree(world: World, a: Event, b: Event, c: Event)
    requires Orderly(world)
    ensures var one := Play(world, [a]);
            var two := Play(world, [a] + [b]);
            && world.db.Linked() && one == Next(world, a)
            && one.db.Linked() && two == Next(one, b)
            && two.db.Linked() && Play(world, [a] + [b] + [c]) == Next(two, c)
  {
    hide Orderly; hide Next; hide Play;
    PlayNothing(world);
    assert [] + [a] == [a];
    PlayMore(world, [], a);
    PlayMore(world, [a], b);
    PlayMore(world, [a] + [b], c);
  }

  lemma FetchOne(world: World, t: int)
    requires world.db.Linked() && |world.events| > 0 && I.Due(world.events[0], t)
    ensures Next(world, Fetch([0], t)) ==
            world.(workers := world.workers + [Worker([Note(0, world.events[0].attempts, t)], Ready)])
  {
    var after := Next(world, Fetch([0], t));
    assert after.workers[|world.workers|].todo == [Note(0, world.events[0].attempts, t)];
  }

  lemma RoundFails(world: World, t: int)
    requires Orderly(world) && Hopeless(world) && I.Due(world.events[0], t)
    ensures var w := |world.workers|;
            Play(world, Round(w, t)) ==
              World(Empty, [I.MarkFailed(world.events[0], world.events[0].attempts, t)],
                    world.workers + [Worker([], Ready)])
  {
    hide Orderly; hide Play; hide I.MarkFailed; hide Db.Linked;
    var w := |world.workers|;
    PlayThree(world, Fetch([0], t), Work(w), Mark(w, t));
    var note := Note(0, world.events[0].attempts, t);
    FetchOne(world, t);
    var two := Play(world, [Fetch([0], t)] + [Work(w)]);
    assert two == World(Empty, world.events, world.workers + [Worker([note], Broken)]);
    assert [note][1..] == [];
  }

  /** Lone rounds, one after the other, take the event's attempts anywhere up to nine. */
  lemma {:induction false} RoundsFail(n: nat)
    requires n <= 9
    ensures Orderly(Fresh)
    ensures var world := Play(Fresh, [Delivery] + Rounds(n));
            && Orderly(world) && Hopeless(world) && |world.workers| == n
            && world.events[0].attempts == n && world.events[0].nextAttemptAt <= Pause * (n + 1)
  {
    hide Orderly; hide Play; hide Next; hide I.Delay; hide Db.Linked;
    FreshIsOrderly();
    if n == 0 {
      DeliveryArrives();
      assert [Delivery] + Rounds(0) == [Delivery];
    } else {
      RoundsFail(n - 1);
      var before := Play(Fresh, [Delivery] + Rounds(n - 1));
      RoundFails(before, Pause * n);
      PlayConcat(Fresh, [Delivery] + Rounds(n - 1), Round(n - 1, Pause * n));
      assert [Delivery] + Rounds(n) == [Delivery] + Rounds(n - 1) + Round(n - 1, Pause * n);
      DelayIsShort(n);
    }
  }

  lemma DelayIsShort(n: nat)
    ensures I.Delay(n) <= 3_600_000
  {
  }

  lemma DeliveryArrives()
    requires Orderly(Fresh)
    ensures Play(Fresh, [Delivery]) == World(Empty, [I.InboxEvent("mock", "event-1", Unknown, I.Waiting, 0, 0)], [])
  {
    hide Orderly;
    PlayNothing(Fresh);
    assert [] + [Delivery] == [Delivery];
    PlayMore(Fresh, [], Delivery);
    hide Play;
  }

  /** Two workers read the event at the same count, fail, and mark it one after the other. */
  function Pair(w: nat, t: int): seq<Event> {
    [Fetch([0], t)] + [Fetch([0], t)] + [Work(w)] + ([Work(w + 1)] + [Mark(w, t)] + [Mark(w + 1, t)])
  }

  lemma PairReads(world: World, t: int)
    requires Orderly(world) && Hopeless(world) && I.Due(world.events[0], t)
    ensures var w, note := |world.workers|, Note(0, world.events[0].attempts, t);
            Play(world, [Fetch([0], t)] + [Fetch([0], t)] + [Work(w)]) ==
              World(Empty, world.events, world.workers + [Worker([note], Broken), Worker([note], Ready)])
  {
    hide Orderly; hide Play; hide Db.Linked;
    var w, note := |world.workers|, Note(0, world.events[0].attempts, t);
    PlayThree(world, Fetch([0], t), Fetch([0], t), Work(w));
    FetchOne(world, t);
    FetchOne(Play(world, [Fetch([0], t)]), t);
    var two := Play(world, [Fetch([0], t)] + [Fetch([0], t)]);
    assert two == World(Empty, world.events, world.workers + [Worker([note], Ready), Worker([note], Ready)]);
  }

  lemma PairMarks(world: World, w: nat, note: Note, t: int)
    requires Orderly(world) && Hopeless(world) && |world.workers| == w + 2 && note.event == 0
    requires world.workers[w] == Worker([note], Broken) && world.workers[w + 1] == Worker([note], Ready)
    requires I.Open(I.MarkFailed(world.events[0], note.attempts, t).status)
    ensures Play(world, [Work(w + 1)] + [Mark(w, t)] + [Mark(w + 1, t)]).events ==
              [I.MarkFailed(I.MarkFailed(world.events[0], note.attempts, t), note.attempts, t)]
  {
    hide Orderly; hide Play; hide I.MarkFailed; hide Db.Linked;
    PlayThree(world, Work(w + 1), Mark(w, t), Mark(w + 1, t));
  }

  /** A run of two such workers ends with ten attempts and no dead letter. */
  lemma TwoWorkersMissTheBound()
    ensures var e := Played([Delivery] + Rounds(8) + Pair(8, Pause * 9)).events;
            |e| == 1 && e[0].status.Failed? && e[0].attempts == I.MAX_ATTEMPTS && !Bounded(e[0])
  {
    hide Orderly; hide Play; hide Next; hide I.Delay; hide Db.Linked; hide Rounds;
    RoundsFail(8);
    var world, t := Play(Fresh, [Delivery] + Rounds(8)), Pause * 9;
    var fetched := [Fetch([0], t)] + [Fetch([0], t)] + [Work(8)];
    var marks := [Work(9)] + [Mark(8, t)] + [Mark(9, t)];
    PairReads(world, t);
    PairMarks(Play(world, fetched), 8, Note(0, 8, t), t);
    PlayConcat(world, fetched, marks);
    PlayConcat(Fresh, [Delivery] + Rounds(8), Pair(8, t));
  }
}
