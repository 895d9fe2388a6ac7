/**
 The advisory-lock protocol. A transaction takes its keys one by one, waits for a key another holds,
 and gives all of them back when it ends. Any number of transactions run; no set of them ever
 waits in a circle.
 */
module Locks {

  /** The first key of a use case names its idempotency key, payment, refund or event. */
  datatype LockKey =
    | FrontKey(tenant: nat, kind: FrontKind, name: string)
    | OrderKey(tenant: nat, id: nat)
    | SkuKey(tenant: nat, sku: nat)

  datatype FrontKind =
    | OrderIdempotency | PaymentIdempotency | RefundIdempotency | PaymentLock | RefundLock | InboxEventLock

  /** The use cases that lock, with what decides their keys. */
  datatype UseCase =
    | CreateOrder(idempotencyKey: string, skus: seq<nat>)
    | CancelOrExpireOrder(orderId: nat, skus: seq<nat>)
    | CreatePayment(idempotencyKey: string, orderId: nat)
    | ConfirmPayment(paymentId: string, orderId: nat, skus: seq<nat>)
    | CreateRefund(idempotencyKey: string, orderId: nat)
    | ReviewOrExecuteRefund(refundId: string)
    | ConfirmRefund(refundId: string, skus: seq<nat>)
    | CreateShipment(orderId: nat)
    | InventoryCommand(sku: nat)
    | EnqueueEvent(eventId: string)

  // ------------------------------------------------------------------- sorting

  function Insert(x: nat, sorted: seq<nat>): seq<nat> {
    if |sorted| == 0 || x <= sorted[0] then [x] + sorted else [sorted[0]] + Insert(x, sorted[1..])
  }

  /** `sort()` on SKU identifiers. */
  function Sort(skus: seq<nat>): seq<nat> {
    if |skus| == 0 then [] else Insert(skus[0], Sort(skus[1..]))
  }

  ghost predicate Sorted(s: seq<nat>) {
    forall i, j :: 0 <= i < j < |s| ==> s[i] <= s[j]
  }

  ghost predicate Distinct(s: seq<nat>) {
    forall i, j :: 0 <= i < j < |s| ==> s[i] != s[j]
  }

  lemma {:induction false} InsertAdds(x: nat, sorted: seq<nat>)
    ensures multiset(Insert(x, sorted)) == multiset(sorted) + multiset{x}
    ensures forall y | y in Insert(x, sorted) :: y == x || y in sorted
  {
    if |sorted| > 0 && x > sorted[0] {
      InsertAdds(x, sorted[1..]);
      assert sorted == [sorted[0]] + sorted[1..];
    }
  }

  lemma PrependSorted(x: nat, rest: seq<nat>)
    requires Sorted(rest) && forall y | y in rest :: x <= y
    ensures Sorted([x] + rest)
  {
    forall i, j | 0 <= i < j < |[x] + rest| ensures ([x] + rest)[i] <= ([x] + rest)[j] {
      assert rest[j - 1] in rest;
    }
  }

  lemma {:induction false} InsertSorts(x: nat, sorted: seq<nat>)
    requires Sorted(sorted)
    ensures Sorted(Insert(x, sorted))
  {
    if |sorted| == 0 || x <= sorted[0] {
      PrependSorted(x, sorted);
    } else {
      InsertSorts(x, sorted[1..]);
      InsertAdds(x, sorted[1..]);
      PrependSorted(sorted[0], Insert(x, sorted[1..]));
    }
  }

  lemma {:induction false} SortSorts(skus: seq<nat>)
    ensures Sorted(Sort(skus)) && multiset(Sort(skus)) == multiset(skus)
  {
    if |skus| > 0 {
      SortSorts(skus[1..]);
      InsertSorts(skus[0], Sort(skus[1..]));
      InsertAdds(skus[0], Sort(skus[1..]));
      assert skus == [skus[0]] + skus[1..];
    }
  }

  lemma DistinctByCount(s: seq<nat>)
    ensures Distinct(s) <==> forall x :: multiset(s)[x] <= 1
  {
    if Distinct(s) {
      forall x ensures multiset(s)[x] <= 1 {
        CountDistinct(s, x);
      }
    } else {
      var i, j :| 0 <= i < j < |s| && s[i] == s[j];
      assert s == s[..j] + [s[j]] + s[j + 1..];
      assert s[i] in s[..j];
      assert multiset(s)[s[j]] >= 2;
    }
  }

  lemma {:induction false} CountDistinct(s: seq<nat>, x: nat)
    requires Distinct(s)
    ensures multiset(s)[x] <= 1
  {
    if |s| > 0 {
      CountDistinct(s[1..], x);
      assert s == [s[0]] + s[1..];
      assert s[0] !in s[1..];
    }
  }

  /** Distinct SKUs, sorted, come out strictly increasing. */
  lemma SortedSkusIncrease(skus: seq<nat>)
    requires Distinct(skus)
    ensures forall i, j :: 0 <= i < j < |Sort(skus)| ==> Sort(skus)[i] < Sort(skus)[j]
  {
    SortSorts(skus);
    DistinctByCount(skus);
    DistinctByCount(Sort(skus));
  }

  // ------------------------------------------------------------------- scripts

  function SkuKeys(tenant: nat, skus: seq<nat>): seq<LockKey> {
    seq(|skus|, i requires 0 <= i < |skus| => SkuKey(tenant, skus[i]))
  }

  /** The keys a use case takes, in order. */
  function Script(tenant: nat, u: UseCase): seq<LockKey> {
    match u
    case CreateOrder(key, skus) => [FrontKey(tenant, OrderIdempotency, key)] + SkuKeys(tenant, Sort(skus))
    case CancelOrExpireOrder(id, skus) => [OrderKey(tenant, id)] + SkuKeys(tenant, Sort(skus))
    case CreatePayment(key, id) => [FrontKey(tenant, PaymentIdempotency, key), OrderKey(tenant, id)]
    case ConfirmPayment(payment, id, skus) =>
      [FrontKey(tenant, PaymentLock, payment), OrderKey(tenant, id)] + SkuKeys(tenant, Sort(skus))
    case CreateRefund(key, id) => [FrontKey(tenant, RefundIdempotency, key), OrderKey(tenant, id)]
    case ReviewOrExecuteRefund(refund) => [FrontKey(tenant, RefundLock, refund)]
    case ConfirmRefund(refund, skus) => [FrontKey(tenant, RefundLock, refund)] + SkuKeys(tenant, Sort(skus))
    case CreateShipment(id) => [OrderKey(tenant, id)]
    case InventoryCommand(sku) => [SkuKey(tenant, sku)]
    case EnqueueEvent(event) => [FrontKey(tenant, InboxEventLock, event)]
  }

  function SkusOf(u: UseCase): seq<nat> {
    match u
    case CreateOrder(_, skus) => skus
    case CancelOrExpireOrder(_, skus) => skus
    case ConfirmPayment(_, _, skus) => skus
    case ConfirmRefund(_, skus) => skus
    case _ => []
  }

  /** Front keys come before order keys, and those before SKU keys in SKU order. */
  predicate Before(a: LockKey, b: LockKey) {
    match (a, b)
    case (FrontKey(_, _, _), FrontKey(_, _, _)) => false
    case (FrontKey(_, _, _), _) => true
    case (OrderKey(_, _), SkuKey(_, _)) => true
    case (SkuKey(_, x), SkuKey(_, y)) => x < y
    case _ => false
  }

  ghost predicate Climbs(script: seq<LockKey>) {
    forall i, j :: 0 <= i < j < |script| ==> Before(script[i], script[j])
  }

  /** Every use case climbs, whatever order its items are listed in. */
  lemma EveryScriptClimbs(tenant: nat, u: UseCase)
    requires Distinct(SkusOf(u))
    ensures Climbs(Script(tenant, u))
  {
    hide Sort; hide Distinct;
    SortedSkusIncrease(SkusOf(u));
  }

  // -------------------------------------------------------------------- system

  /** A running transaction holds the first `held` keys of its script and wants the next. */
  datatype Transaction = Transaction(script: seq<LockKey>, held: nat, ended: bool)

  type System = seq<Transaction>

  datatype Action =
    | Begin(tenant: nat, useCase: UseCase)
    | Acquire(t: nat)
    | End(t: nat)

  predicate Holds(s: System, t: nat, key: LockKey) {
    t < |s| && !s[t].ended && s[t].held <= |s[t].script| && key in s[t].script[..s[t].held]
  }

  predicate Wants(s: System, t: nat, key: LockKey) {
    t < |s| && !s[t].ended && s[t].held < |s[t].script| && s[t].script[s[t].held] == key
  }

  predicate Free(s: System, t: nat, key: LockKey) {
    forall u :: 0 <= u < |s| && u != t ==> !Holds(s, u, key)
  }

  /** A commit, a rollback or an early return may come at any time; acquiring waits while the key is taken. */
  function Act(s: System, action: Action): System {
    match action
    case Begin(tenant, u) => s + [Transaction(Script(tenant, u), 0, false)]
    case Acquire(t) =>
      if t < |s| && !s[t].ended && s[t].held < |s[t].script| && Free(s, t, s[t].script[s[t].held])
      then s[t := s[t].(held := s[t].held + 1)] else s
    case End(t) => if t < |s| then s[t := s[t].(ended := true)] else s
  }

  function ActAll(s: System, actions: seq<Action>): System {
    if |actions| == 0 then s else Act(ActAll(s, actions[..|actions| - 1]), actions[|actions| - 1])
  }

  /** The code gives each transaction distinct SKUs: one order, or one refund, lists none twice. */
  ghost predicate FromTheCode(actions: seq<Action>) {
    forall i :: 0 <= i < |actions| && actions[i].Begin? ==> Distinct(SkusOf(actions[i].useCase))
  }

  ghost predicate Disciplined(s: System) {
    && (forall t :: 0 <= t < |s| ==> Climbs(s[t].script) && s[t].held <= |s[t].script|)
    && (forall t, u, key | 0 <= t < |s| && 0 <= u < |s| && Holds(s, t, key) && Holds(s, u, key) :: t == u)
  }

  lemma ActKeepsDiscipline(s: System, action: Action)
    requires Disciplined(s) && (action.Begin? ==> Distinct(SkusOf(action.useCase)))
    ensures Disciplined(Act(s, action))
  {
    var after := Act(s, action);
    if action.Begin? {
      EveryScriptClimbs(action.tenant, action.useCase);
    }
    forall t, u, key | 0 <= t < |after| && 0 <= u < |after| && Holds(after, t, key) && Holds(after, u, key)
      ensures t == u
    {
      if action.Acquire? && after != s {
        var a := action.t;
        var wanted := s[a].script[s[a].held];
        assert after[a].script[..after[a].held] == s[a].script[..s[a].held] + [wanted];
        assert forall v :: 0 <= v < |s| && v != a ==> (Holds(after, v, key) <==> Holds(s, v, key));
        assert Holds(after, a, key) ==> Holds(s, a, key) || key == wanted;
        assert Free(s, a, wanted);
      } else if action.Begin? {
        assert forall v :: 0 <= v < |s| ==> (Holds(after, v, key) <==> Holds(s, v, key));
      } else {
        assert forall v :: 0 <= v < |s| && Holds(after, v, key) ==> Holds(s, v, key);
      }
    }
  }

  lemma {:induction false} RunIsDisciplined(actions: seq<Action>)
    requires FromTheCode(actions)
    ensures Disciplined(ActAll([], actions))
  {
    if |actions| > 0 {
      RunIsDisciplined(actions[..|actions| - 1]);
      ActKeepsDiscipline(ActAll([], actions[..|actions| - 1]), actions[|actions| - 1]);
    }
  }

  // ------------------------------------------------------------ no deadlock

  /** Transaction `t` waits for a key that `u` holds. */
  ghost predicate WaitsFor(s: System, t: nat, u: nat) {
    t != u && exists key :: Wants(s, t, key) && Holds(s, u, key)
  }

  /** A chain of transactions, each waiting for the next. */
  ghost predicate WaitChain(s: System, chain: seq<nat>) {
    |chain| > 1 && forall i :: 0 <= i < |chain| - 1 ==> WaitsFor(s, chain[i], chain[i + 1])
  }

  lemma BeforeIsTransitive(a: LockKey, b: LockKey, c: LockKey)
    requires Before(a, b) && Before(b, c)
    ensures Before(a, c) && !Before(c, a) && a != c
  {
  }

  /** Along a chain the wanted keys climb, so the last cannot hold what the first wants. */
  lemma {:induction false} WantsClimb(s: System, chain: seq<nat>, first: LockKey, last: LockKey)
    requires Disciplined(s) && WaitChain(s, chain)
    requires Wants(s, chain[0], first) && Wants(s, chain[|chain| - 1], last)
    ensures Before(first, last)
  {
    var key :| Wants(s, chain[0], key) && Holds(s, chain[1], key);
    var u := s[chain[1]];
    assert u.held < |u.script| by {
      if |chain| > 2 {
        assert WaitsFor(s, chain[1], chain[2]);
        var next :| Wants(s, chain[1], next) && Holds(s, chain[2], next);
      }
    }
    var k :| 0 <= k < u.held && u.script[k] == key;
    var next := u.script[u.held];
    assert Before(key, next);
    if |chain| > 2 {
      WantsClimb(s, chain[1..], next, last);
      BeforeIsTransitive(first, next, last);
    }
  }

  /** The wait-for graph is acyclic in every reachable state, for any number of transactions. */
  lemma NoDeadlock(actions: seq<Action>, chain: seq<nat>)
    requires FromTheCode(actions) && WaitChain(ActAll([], actions), chain)
    ensures chain[0] != chain[|chain| - 1]
  {
    var s := ActAll([], actions);
    RunIsDisciplined(actions);
    if chain[0] == chain[|chain| - 1] {
      var key :| Wants(s, chain[0], key) && Holds(s, chain[1], key);
      WantsClimb(s, chain, key, key);
    }
  }

  /** Nothing holds the transaction up: it has all its keys, or the next one is free. */
  predicate CanMove(s: System, t: nat) {
    t < |s| && !s[t].ended && (s[t].held >= |s[t].script| || Free(s, t, s[t].script[s[t].held]))
  }

  /** Follow the holders: the chain never returns to itself, so it ends at one that can move. */
  lemma Follow(s: System, chain: seq<nat>) returns (t: nat)
    requires Disciplined(s) && |chain| > 0 && (forall i :: 0 <= i < |chain| ==> chain[i] < |s| && !s[chain[i]].ended)
    requires forall i :: 0 <= i < |chain| - 1 ==> WaitsFor(s, chain[i], chain[i + 1])
    ensures CanMove(s, t)
    decreases set i | 0 <= i < |s| && i !in chain
  {
    var last := chain[|chain| - 1];
    if CanMove(s, last) {
      return last;
    }
    var wanted := s[last].script[s[last].held];
    var holder :| 0 <= holder < |s| && holder != last && Holds(s, holder, wanted);
    assert Wants(s, last, wanted) && WaitsFor(s, last, holder);
    if holder in chain {
      var i :| 0 <= i < |chain| && chain[i] == holder;
      var circle := chain[i..] + [holder];
      assert WaitChain(s, circle) && WaitsFor(s, circle[0], circle[1]);
      var first :| Wants(s, circle[0], first) && Holds(s, circle[1], first);
      WantsClimb(s, circle, first, first);
    } else {
      var outside := set i | 0 <= i < |s| && i !in chain;
      var fewer := set i | 0 <= i < |s| && i !in chain + [holder];
      assert fewer <= outside && holder in outside && holder !in fewer;
      t := Follow(s, chain + [holder]);
    }
  }

  /** While any transaction runs, one of them can take its next key or end. */
  lemma SomeoneCanMove(actions: seq<Action>, t: nat)
    requires FromTheCode(actions)
    requires t < |ActAll([], actions)| && !ActAll([], actions)[t].ended
    ensures exists u :: CanMove(ActAll([], actions), u)
  {
    RunIsDisciplined(actions);
    var u := Follow(ActAll([], actions), [t]);
  }

  // -------------------------------------------------------- mutual exclusion

  datatype Front = NoFront | Front(kind: FrontKind, name: string)

  /** The idempotency key, payment, refund or event a use case is about. */
  function FrontOf(u: UseCase): Front {
    match u
    case CreateOrder(key, _) => Front(OrderIdempotency, key)
    case CreatePayment(key, _) => Front(PaymentIdempotency, key)
    case CreateRefund(key, _) => Front(RefundIdempotency, key)
    case ConfirmPayment(payment, _, _) => Front(PaymentLock, payment)
    case ReviewOrExecuteRefund(refund) => Front(RefundLock, refund)
    case ConfirmRefund(refund, _) => Front(RefundLock, refund)
    case EnqueueEvent(event) => Front(InboxEventLock, event)
    case _ => NoFront
  }

  /** The order a use case works under. Settling a refund works under none. */
  predicate WorksOn(u: UseCase, order: nat) {
    match u
    case CancelOrExpireOrder(id, _) => id == order
    case CreatePayment(_, id) => id == order
    case ConfirmPayment(_, id, _) => id == order
    case CreateRefund(_, id) => id == order
    case CreateShipment(id) => id == order
    case _ => false
  }

  /** The use case reads and moves this SKU's stock. */
  predicate MovesStock(u: UseCase, sku: nat) {
    sku in SkusOf(u) || u == InventoryCommand(sku)
  }

  ghost predicate Compete(u: UseCase, v: UseCase) {
    || (FrontOf(u) == FrontOf(v) && FrontOf(u) != NoFront)
    || (exists order :: WorksOn(u, order) && WorksOn(v, order))
    || (exists sku :: MovesStock(u, sku) && MovesStock(v, sku))
  }

  /** The key names what the use case is about. */
  predicate Keyed(tenant: nat, u: UseCase, key: LockKey) {
    && key.tenant == tenant
    && match key
       case FrontKey(_, kind, name) => FrontOf(u) == Front(kind, name)
       case OrderKey(_, id) => WorksOn(u, id)
       case SkuKey(_, sku) => MovesStock(u, sku)
  }

  lemma KeysHave(tenant: nat, skus: seq<nat>, key: LockKey)
    ensures key in SkuKeys(tenant, skus) <==> key.SkuKey? && key.tenant == tenant && key.sku in skus
  {
    assert forall i :: 0 <= i < |skus| ==> SkuKeys(tenant, skus)[i] == SkuKey(tenant, skus[i]);
  }

  lemma SortedKeysHave(tenant: nat, skus: seq<nat>, key: LockKey)
    ensures key in SkuKeys(tenant, Sort(skus)) <==> key.SkuKey? && key.tenant == tenant && key.sku in skus
  {
    hide SkuKeys; hide Sort; hide Sorted;
    SortSorts(skus);
    KeysHave(tenant, Sort(skus), key);
    assert key.SkuKey? ==> (key.sku in Sort(skus) <==> key.sku in multiset(Sort(skus)));
    assert key.SkuKey? ==> (key.sku in skus <==> key.sku in multiset(skus));
  }

  /** A script holds the keys of what its use case is about, and no others. */
  lemma ScriptHas(tenant: nat, u: UseCase, key: LockKey)
    ensures key in Script(tenant, u) <==> Keyed(tenant, u, key)
  {
    hide SkuKeys; hide Sort;
    SortedKeysHave(tenant, SkusOf(u), key);
  }

  lemma CompetitorsShareAKey(tenant: nat, u: UseCase, v: UseCase) returns (key: LockKey)
    requires Compete(u, v)
    ensures Keyed(tenant, u, key) && Keyed(tenant, v, key)
  {
    hide FrontOf; hide WorksOn; hide MovesStock;
    if FrontOf(u) == FrontOf(v) && FrontOf(u) != NoFront {
      key := FrontKey(tenant, FrontOf(u).kind, FrontOf(u).name);
    } else if order :| WorksOn(u, order) && WorksOn(v, order) {
      key := OrderKey(tenant, order);
    } else {
      var sku :| MovesStock(u, sku) && MovesStock(v, sku);
      key := SkuKey(tenant, sku);
    }
  }

  lemma SharedKeyCompetes(tenant: nat, u: UseCase, v: UseCase, key: LockKey)
    requires Keyed(tenant, u, key) && Keyed(tenant, v, key)
    ensures Compete(u, v)
  {
    hide FrontOf; hide WorksOn; hide MovesStock;
  }

  lemma CompetingScriptsMeet(tenant: nat, u: UseCase, v: UseCase)
    ensures Compete(u, v) <==> exists key :: key in Script(tenant, u) && key in Script(tenant, v)
  {
    hide Script; hide Keyed; hide Compete;
    if Compete(u, v) {
      var key := CompetitorsShareAKey(tenant, u, v);
      ScriptHas(tenant, u, key);
      ScriptHas(tenant, v, key);
    }
    if key :| key in Script(tenant, u) && key in Script(tenant, v) {
      ScriptHas(tenant, u, key);
      ScriptHas(tenant, v, key);
      SharedKeyCompetes(tenant, u, v, key);
    }
  }

  /** The transaction runs this use case and has all its keys: it is past its locks. */
  predicate Inside(s: System, t: nat, tenant: nat, u: UseCase) {
    t < |s| && s[t].script == Script(tenant, u) && !s[t].ended && s[t].held == |s[t].script|
  }

  /** Two competing use cases are never past their locks together, however many transactions run. */
  lemma CompetitorsTakeTurns(actions: seq<Action>, t: nat, u: nat, tenant: nat, mine: UseCase, yours: UseCase)
    requires FromTheCode(actions) && t != u && Compete(mine, yours)
    requires Inside(ActAll([], actions), t, tenant, mine)
    ensures !Inside(ActAll([], actions), u, tenant, yours)
  {
    hide Script; hide Compete;
    var s := ActAll([], actions);
    RunIsDisciplined(actions);
    CompetingScriptsMeet(tenant, mine, yours);
    var key :| key in Script(tenant, mine) && key in Script(tenant, yours);
    assert s[t].script[..s[t].held] == s[t].script;
    assert Holds(s, t, key) && !Holds(s, u, key);
    assert u < |s| ==> s[u].script[..|s[u].script|] == s[u].script;
  }

  function Acquires(t: nat, n: nat): seq<Action> {
    if n == 0 then [] else Acquires(t, n - 1) + [Acquire(t)]
  }

  /** Another key is taken while nobody else holds it. */
  lemma TakesNext(s: System, t: nat, n: nat)
    requires t < |s| && !s[t].ended && s[t].held == 0 && n < |s[t].script| && Free(s, t, s[t].script[n])
    ensures Act(s[t := s[t].(held := n)], Acquire(t)) == s[t := s[t].(held := n + 1)]
  {
    var almost, key := s[t := s[t].(held := n)], s[t].script[n];
    forall u | 0 <= u < |s| && u != t ensures !Holds(almost, u, key) {
      assert !Holds(s, u, key) && almost[u] == s[u];
    }
    assert Free(almost, t, key);
  }

  lemma {:induction false} TakesAll(before: seq<Action>, t: nat, n: nat)
    requires var s := ActAll([], before);
             && t < |s| && !s[t].ended && s[t].held == 0 && n <= |s[t].script|
             && forall k :: 0 <= k < n ==> Free(s, t, s[t].script[k])
    ensures var s := ActAll([], before);
            ActAll([], before + Acquires(t, n)) == s[t := s[t].(held := n)]
  {
    hide Act; hide Free;
    var s := ActAll([], before);
    if n == 0 {
      assert before + [] == before;
    } else {
      TakesAll(before, t, n - 1);
      var actions := before + Acquires(t, n);
      assert actions[..|actions| - 1] == before + Acquires(t, n - 1);
      TakesNext(s, t, n - 1);
    }
  }

  /** Any two use cases that share nothing can be past their locks together. */
  lemma OthersOverlap(tenant: nat, mine: UseCase, yours: UseCase) returns (actions: seq<Action>)
    requires Distinct(SkusOf(mine)) && Distinct(SkusOf(yours)) && !Compete(mine, yours)
    ensures FromTheCode(actions)
    ensures Inside(ActAll([], actions), 0, tenant, mine) && Inside(ActAll([], actions), 1, tenant, yours)
  {
    hide Script; hide Compete; hide Distinct; hide Free;
    var begun := [Begin(tenant, mine), Begin(tenant, yours)];
    var first, second := Script(tenant, mine), Script(tenant, yours);
    BothBegin(tenant, mine, yours);
    NobodyHolds(first, second);
    TakesAll(begun, 0, |first|);
    var one := begun + Acquires(0, |first|);
    assert ActAll([], one) == [Transaction(first, |first|, false), Transaction(second, 0, false)];
    CompetingScriptsMeet(tenant, mine, yours);
    assert forall key | key in second :: key !in first;
    SecondIsFree(first, second);
    TakesAll(one, 1, |second|);
    actions := one + Acquires(1, |second|);
    AcquiresBeginNothing(0, |first|);
    AcquiresBeginNothing(1, |second|);
  }

  lemma BothBegin(tenant: nat, mine: UseCase, yours: UseCase)
    ensures ActAll([], [Begin(tenant, mine), Begin(tenant, yours)]) ==
            [Transaction(Script(tenant, mine), 0, false), Transaction(Script(tenant, yours), 0, false)]
  {
    hide Script;
    var begun := [Begin(tenant, mine), Begin(tenant, yours)];
    assert begun[..1] == [Begin(tenant, mine)] && begun[..1][..0] == [];
    assert ActAll([], begun[..1]) == [Transaction(Script(tenant, mine), 0, false)];
  }

  lemma NobodyHolds(first: seq<LockKey>, second: seq<LockKey>)
    ensures forall k :: 0 <= k < |first| ==>
              Free([Transaction(first, 0, false), Transaction(second, 0, false)], 0, first[k])
  {
  }

  lemma SecondIsFree(first: seq<LockKey>, second: seq<LockKey>)
    requires forall key | key in second :: key !in first
    ensures forall k :: 0 <= k < |second| ==>
              Free([Transaction(first, |first|, false), Transaction(second, 0, false)], 1, second[k])
  {
    assert first[..|first|] == first;
  }

  lemma {:induction false} AcquiresBeginNothing(t: nat, n: nat)
    ensures forall i :: 0 <= i < |Acquires(t, n)| ==> Acquires(t, n)[i] == Acquire(t)
  {
    if n > 0 {
      AcquiresBeginNothing(t, n - 1);
    }
  }

  /** Settling a refund and requesting another of the same order are not kept apart: no lock names both. */
  lemma SettlingOverlapsRequesting(tenant: nat, key: string, order: nat, refund: string, skus: seq<nat>)
    requires Distinct(skus)
    ensures exists actions :: FromTheCode(actions)
              && Inside(ActAll([], actions), 0, tenant, CreateRefund(key, order))
              && Inside(ActAll([], actions), 1, tenant, ConfirmRefund(refund, skus))
  {
    var actions := OthersOverlap(tenant, CreateRefund(key, order), ConfirmRefund(refund, skus));
  }
}
