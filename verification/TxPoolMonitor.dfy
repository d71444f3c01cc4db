/** The pool as a monitor: callers that add, callers that pack, one lock, one condition variable. */
module TxPoolMonitor {
  import opened Sequences
  import opened TxPool

  datatype CallState =
    | Idle       // has not got the lock yet
    | Holding    // has the lock
    | Parked     // in Wait, not yet woken
    | Signalled  // woken, waiting for the lock
    | Done

  /** A call that adds the transactions number 0 to `total` - 1 of its caller, at the tail or at the head. */
  datatype Producer = Producer(head: bool, total: nat, added: nat, call: CallState)

  /** Transaction number `index` of producer `producer`. */
  datatype Entry = Entry(producer: nat, index: nat)

  datatype Lock = Free | Adder(id: nat) | Packer(max: nat)

  /** `arrived` and `packed` record what was added, in that order, and what was packed. */
  datatype State = State(capacity: nat, queue: seq<Entry>, lock: Lock, producers: seq<Producer>,
                         arrived: seq<Entry>, packed: seq<Entry>)

  datatype Action = Acquire(id: nat) | Add(id: nat) | Wait(id: nat) | Release(id: nat) | PackLock(n: nat) | Pack

  /** The next transaction of a producer: from the first at the tail, from the last at the head. */
  function NextEntry(id: nat, p: Producer): Entry
    requires p.added < p.total
  {
    Entry(id, if p.head then p.total - 1 - p.added else p.added)
  }

  predicate Enabled(s: State, a: Action) {
    match a
    case Acquire(i) => i < |s.producers| && s.lock.Free? && (s.producers[i].call.Idle? || s.producers[i].call.Signalled?)
    case Add(i) => i < |s.producers| && s.producers[i].call.Holding? && s.producers[i].added < s.producers[i].total && |s.queue| < s.capacity
    case Wait(i) => i < |s.producers| && s.producers[i].call.Holding? && s.producers[i].added < s.producers[i].total && |s.queue| >= s.capacity
    case Release(i) => i < |s.producers| && s.producers[i].call.Holding? && s.producers[i].added >= s.producers[i].total
    case PackLock(n) => s.lock.Free?
    case Pack => s.lock.Packer?
  }

  function Woken(p: Producer): Producer { if p.call.Parked? then p.(call := Signalled) else p }

  function Broadcast(ps: seq<Producer>): seq<Producer> { seq(|ps|, i requires 0 <= i < |ps| => Woken(ps[i])) }

  function Next(s: State, a: Action): State
    requires Enabled(s, a)
  {
    match a
    case Acquire(i) => s.(lock := Adder(i), producers := s.producers[i := s.producers[i].(call := Holding)])
    case Add(i) =>
      var p := s.producers[i];
      var e := NextEntry(i, p);
      s.(queue := Added(s.queue, e, p.head), arrived := s.arrived + [e],
         producers := s.producers[i := p.(added := p.added + 1)])
    case Wait(i) => s.(lock := Free, producers := s.producers[i := s.producers[i].(call := Parked)])
    case Release(i) => s.(lock := Free, producers := s.producers[i := s.producers[i].(call := Done)])
    case PackLock(n) => s.(lock := Packer(n))
    case Pack =>
      var n := PackCount(|s.queue|, s.lock.max);
      s.(lock := Free, queue := s.queue[n..], packed := s.packed + s.queue[..n],
         producers := if n > 0 then Broadcast(s.producers) else s.producers)
  }

  predicate Start(s: State) {
    && s.capacity > 0 && s.queue == [] && s.lock.Free? && s.arrived == [] && s.packed == []
    && forall i :: 0 <= i < |s.producers| ==> s.producers[i].call.Idle? && s.producers[i].added == 0
  }

  predicate IsRun(s: State, actions: seq<Action>)
    decreases |actions|
  {
    actions == [] || (Enabled(s, actions[0]) && IsRun(Next(s, actions[0]), actions[1..]))
  }

  function RunTo(s: State, actions: seq<Action>): State
    requires IsRun(s, actions)
    decreases |actions|
  {
    if actions == [] then s else RunTo(Next(s, actions[0]), actions[1..])
  }

  // What every interleaving keeps

  /** Exactly the holder holds the lock. */
  predicate LockInv(s: State) {
    && (s.lock.Adder? ==> s.lock.id < |s.producers|)
    && forall i :: 0 <= i < |s.producers| ==> (s.producers[i].call.Holding? <==> s.lock == Adder(i))
  }

  /** The queue is within its capacity, and full while anyone is parked without having been woken. */
  predicate FullInv(s: State) {
    && s.capacity > 0 && |s.queue| <= s.capacity
    && forall i :: 0 <= i < |s.producers| && s.producers[i].call.Parked? ==> |s.queue| == s.capacity
  }

  predicate CallInv(s: State) {
    forall i :: 0 <= i < |s.producers| ==>
      s.producers[i].added <= s.producers[i].total && (s.producers[i].call.Done? ==> s.producers[i].added == s.producers[i].total)
  }

  ghost predicate BagInv(s: State) { multiset(s.packed) + multiset(s.queue) == multiset(s.arrived) }

  /** Nobody adds at the head. */
  predicate TailOnly(s: State) { forall i :: 0 <= i < |s.producers| ==> !s.producers[i].head }

  predicate FifoInv(s: State) { TailOnly(s) ==> s.packed + s.queue == s.arrived }

  /** The transactions of a producer that stand in the queue are in the caller's order, whichever end it adds
      at, and those of a tail producer arrive in that order. */
  predicate Ordered(entries: seq<Entry>, id: nat) {
    forall i, j :: 0 <= i < j < |entries| && entries[i].producer == id && entries[j].producer == id ==> entries[i].index < entries[j].index
  }

  /** Where the index of a queued or arrived transaction lies: among those its producer has added. */
  predicate Within(p: Producer, index: nat) {
    if p.head then p.total - p.added <= index < p.total else index < p.added
  }

  ghost predicate OrderInv(s: State) {
    && (forall k :: 0 <= k < |s.queue| ==> s.queue[k] in s.arrived)
    && (forall e :: e in s.arrived <==> e.producer < |s.producers| && Within(s.producers[e.producer], e.index))
    && (forall i, j :: 0 <= i < j < |s.arrived| ==> s.arrived[i] != s.arrived[j])
    && (forall i :: 0 <= i < |s.producers| ==> Ordered(s.queue, i))
    && (forall i :: 0 <= i < |s.producers| && !s.producers[i].head ==> Ordered(s.arrived, i))
  }

  ghost predicate Inv(s: State) { LockInv(s) && FullInv(s) && CallInv(s) && BagInv(s) && FifoInv(s) && OrderInv(s) }

  lemma StepLock(s: State, a: Action)
    requires LockInv(s) && Enabled(s, a)
    ensures LockInv(Next(s, a))
  {
  }

  lemma StepFull(s: State, a: Action)
    requires LockInv(s) && FullInv(s) && Enabled(s, a)
    ensures FullInv(Next(s, a))
  {
  }

  lemma StepCall(s: State, a: Action)
    requires CallInv(s) && Enabled(s, a)
    ensures CallInv(Next(s, a))
  {
  }

  lemma SameHeads(s: State, a: Action)
    requires Enabled(s, a)
    ensures TailOnly(Next(s, a)) ==> TailOnly(s)
  {
    var s' := Next(s, a);
    assert forall i :: 0 <= i < |s.producers| ==> s'.producers[i].head == s.producers[i].head;
  }

  lemma PackKeeps(packed: seq<Entry>, queue: seq<Entry>, n: nat)
    requires n <= |queue|
    ensures (packed + queue[..n]) + queue[n..] == packed + queue
    ensures multiset(packed + queue[..n]) + multiset(queue[n..]) == multiset(packed) + multiset(queue)
  {
    assert queue == queue[..n] + queue[n..];
  }

  lemma AddKeeps(packed: seq<Entry>, queue: seq<Entry>, e: Entry)
    ensures packed + (queue + [e]) == (packed + queue) + [e]
    ensures multiset([e] + queue) == multiset(queue + [e]) == multiset(queue) + multiset{e}
  {
  }

  lemma StepBag(s: State, a: Action)
    requires BagInv(s) && FifoInv(s) && Enabled(s, a)
    ensures BagInv(Next(s, a)) && FifoInv(Next(s, a))
  {
    hide Broadcast, TailOnly;
    SameHeads(s, a);
    if a.Pack? {
      PackKeeps(s.packed, s.queue, PackCount(|s.queue|, s.lock.max));
    } else if a.Add? {
      var e := NextEntry(a.id, s.producers[a.id]);
      if TailOnly(s) { TailAdds(s, a.id); }
      AddKeeps(s.packed, s.queue, e);
      assert multiset(s.arrived + [e]) == multiset(s.arrived) + multiset{e};
    }
  }

  lemma TailAdds(s: State, id: nat)
    requires TailOnly(s) && id < |s.producers|
    ensures !s.producers[id].head
  {
  }

  lemma StepOrder(s: State, a: Action)
    requires OrderInv(s) && CallInv(s) && Enabled(s, a)
    ensures OrderInv(Next(s, a))
  {
    hide CallInv;
    if a.Add? {
      AddOrder(s, a.id);
    } else if a.Pack? {
      var s' := Next(s, a);
      forall i | 0 <= i < |s'.producers| ensures Ordered(s'.queue, i) && (!s'.producers[i].head ==> Ordered(s'.arrived, i)) {
        assert Ordered(s.queue, i);
      }
    }
  }

  lemma AddOrder(s: State, id: nat)
    requires OrderInv(s) && CallInv(s) && Enabled(s, Add(id))
    ensures OrderInv(Next(s, Add(id)))
  {
    hide CallInv;
    var s' := Next(s, Add(id));
    var p := s.producers[id];
    var e := NextEntry(id, p);
    assert forall x :: x in s'.arrived <==> x in s.arrived || x == e;
    forall i | 0 <= i < |s'.producers|
      ensures Ordered(s'.queue, i) && (!s'.producers[i].head ==> Ordered(s'.arrived, i))
    {
      assert Ordered(s.queue, i);
    }
  }

  lemma StepInv(s: State, a: Action)
    requires Inv(s) && Enabled(s, a)
    ensures Inv(Next(s, a))
  {
    StepLock(s, a);
    StepFull(s, a);
    StepCall(s, a);
    StepBag(s, a);
    StepOrder(s, a);
  }

  /** For every interleaving the queue stays within its capacity, an unwoken parked producer means a full
      queue, and nothing is lost, invented or reordered. */
  lemma {:induction false} RunInv(s: State, actions: seq<Action>)
    requires Inv(s) && IsRun(s, actions)
    ensures Inv(RunTo(s, actions))
    decreases |actions|
  {
    if actions != [] {
      StepInv(s, actions[0]);
      RunInv(Next(s, actions[0]), actions[1..]);
    }
  }

  lemma StartInv(s: State)
    requires Start(s)
    ensures Inv(s)
  {
  }

  /** First in, first out: with tail producers only, what was packed followed by what is queued is what arrived,
      each producer's transactions in its own order, each once, and all of them once its call is done. */
  lemma FirstInFirstOut(s: State, actions: seq<Action>)
    requires Start(s) && IsRun(s, actions) && TailOnly(RunTo(s, actions))
    ensures var r := RunTo(s, actions);
      && r.packed + r.queue == r.arrived && |r.queue| <= r.capacity
      && (forall i :: 0 <= i < |r.producers| ==> Ordered(r.arrived, i))
      && (forall i: nat, k: nat :: i < |r.producers| ==> (Entry(i, k) in r.arrived <==> k < r.producers[i].added))
      && (forall i :: 0 <= i < |r.producers| && r.producers[i].call.Done? ==> r.producers[i].added == r.producers[i].total)
  {
    StartInv(s);
    RunInv(s, actions);
  }

  /** No wakeup is lost: with the lock free and room in the queue, every unfinished producer can take the lock. */
  lemma NoLostWakeup(s: State, actions: seq<Action>)
    requires Start(s) && IsRun(s, actions)
    ensures var r := RunTo(s, actions);
      r.lock.Free? && |r.queue| < r.capacity ==>
        forall i :: 0 <= i < |r.producers| && !r.producers[i].call.Done? ==> Enabled(r, Acquire(i))
  {
    StartInv(s);
    RunInv(s, actions);
  }

  /** Whoever holds the lock can go on. */
  lemma HolderMoves(s: State)
    requires Inv(s)
    ensures s.lock.Packer? ==> Enabled(s, Pack)
    ensures s.lock.Adder? ==> Enabled(s, Add(s.lock.id)) || Enabled(s, Wait(s.lock.id)) || Enabled(s, Release(s.lock.id))
  {
  }

  /** When no producer can move and the lock is free, every producer is done or parked at a full queue, and
      packing anything wakes all of them and makes room. */
  lemma RestOnlyAtFullQueue(s: State, n: nat, i: nat)
    requires Inv(s) && s.lock.Free? && i < |s.producers| && !Enabled(s, Acquire(i)) && !s.producers[i].call.Done? && n > 0
    ensures |s.queue| == s.capacity && Enabled(s, PackLock(n))
    ensures var s1 := Next(s, PackLock(n));
      Enabled(s1, Pack) && var s2 := Next(s1, Pack); |s2.queue| < s2.capacity && Enabled(s2, Acquire(i))
  {
  }

  /** A packing takes the first transactions, as many as it asks for or all there are. It wakes every parked call
      when it takes any, and none when it takes nothing. */
  lemma PackEffect(s: State)
    requires s.lock.Packer?
    ensures var s' := Next(s, Pack);
      var k := |s.queue| - |s'.queue|;
      && 0 <= k <= s.lock.max && k <= |s.queue| && (k == s.lock.max || k == |s.queue|)
      && s'.queue == s.queue[k..] && s'.packed == s.packed + s.queue[..k] && s'.lock == Free
      && s'.arrived == s.arrived && s'.capacity == s.capacity && |s'.producers| == |s.producers|
      && forall i :: 0 <= i < |s.producers| ==>
           s'.producers[i] == if k > 0 && s.producers[i].call == Parked then s.producers[i].(call := Signalled) else s.producers[i]
  {
  }

  /** How much a call has left to do before the next packing. */
  function Left(p: Producer): int {
    2 * (p.total - p.added) +
    match p.call case Idle => 3 case Signalled => 3 case Holding => 2 case Parked => 1 case Done => 0
  }

  /** Without packing the producers come to rest: each of their steps decreases the work left, which is never negative. */
  lemma ProducersRest(s: State, a: Action)
    requires Inv(s) && Enabled(s, a) && !a.Pack? && !a.PackLock?
    ensures SumBy(Left, Next(s, a).producers) < SumBy(Left, s.producers)
    ensures SumBy(Left, s.producers) >= 0
  {
    SumByUpdate(Left, s.producers, a.id, Next(s, a).producers[a.id]);
    SumByNonnegative(Left, s.producers);
  }

  lemma Then(s: State, a: Action, rest: seq<Action>)
    requires Enabled(s, a) && IsRun(Next(s, a), rest)
    ensures IsRun(s, [a] + rest) && RunTo(s, [a] + rest) == RunTo(Next(s, a), rest)
  {
    assert ([a] + rest)[1..] == rest;
  }

  /** A head producer of two transactions at a pool of one place: it adds one and has to wait ... */
  const WAITING := State(1, [Entry(0, 1)], Free, [Producer(true, 2, 1, Parked)], [Entry(0, 1)], [])

  /** ... is woken by a packing, adds the other, and that is packed too. */
  const REST: seq<Action> := [PackLock(1)] + ([Pack] + ([Acquire(0)] + ([Add(0)] + ([Release(0)] + ([PackLock(1)] + ([Pack] + []))))))

  lemma HeadWaits()
    ensures IsRun(WAITING, REST) && RunTo(WAITING, REST).packed == [Entry(0, 1), Entry(0, 0)]
  {
    var s1 := Next(WAITING, PackLock(1));
    var s2 := Next(s1, Pack);
    assert s2 == State(1, [], Free, [Producer(true, 2, 1, Signalled)], [Entry(0, 1)], [Entry(0, 1)]);
    var s3 := Next(s2, Acquire(0));
    var s4 := Next(s3, Add(0));
    assert s4 == State(1, [Entry(0, 0)], Adder(0), [Producer(true, 2, 2, Holding)], [Entry(0, 1), Entry(0, 0)], [Entry(0, 1)]);
    var s5 := Next(s4, Release(0));
    var s6 := Next(s5, PackLock(1));
    assert Next(s6, Pack).packed == [Entry(0, 1), Entry(0, 0)];
    Then(s6, Pack, []);
    Then(s5, PackLock(1), [Pack] + []);
    Then(s4, Release(0), [PackLock(1)] + ([Pack] + []));
    Then(s3, Add(0), [Release(0)] + ([PackLock(1)] + ([Pack] + [])));
    Then(s2, Acquire(0), [Add(0)] + ([Release(0)] + ([PackLock(1)] + ([Pack] + []))));
    Then(s1, Pack, [Acquire(0)] + ([Add(0)] + ([Release(0)] + ([PackLock(1)] + ([Pack] + [])))));
    Then(WAITING, PackLock(1), [Pack] + ([Acquire(0)] + ([Add(0)] + ([Release(0)] + ([PackLock(1)] + ([Pack] + []))))));
  }

  /** Adding at the head keeps the caller's order only while the transactions stand in the queue together: a
      caller that has to wait between two of them can have the later one packed first. */
  lemma HeadOrderCanBreak()
    ensures exists s, actions :: Start(s) && IsRun(s, actions) && RunTo(s, actions).packed == [Entry(0, 1), Entry(0, 0)]
  {
    HeadWaits();
    hide REST;
    var s := State(1, [], Free, [Producer(true, 2, 0, Idle)], [], []);
    var s1 := Next(s, Acquire(0));
    var s2 := Next(s1, Add(0));
    assert Next(s2, Wait(0)) == WAITING;
    Then(s2, Wait(0), REST);
    Then(s1, Add(0), [Wait(0)] + REST);
    Then(s, Acquire(0), [Add(0)] + ([Wait(0)] + REST));
    assert Start(s);
  }

  // When it is kept

  /** A transaction of the head producer `id` has been packed before it added its last. */
  predicate EarlyNow(s: State, id: nat) {
    id < |s.producers| && s.producers[id].added < s.producers[id].total && exists k :: 0 <= k < |s.packed| && s.packed[k].producer == id
  }

  predicate EverEarly(s: State, actions: seq<Action>, id: nat)
    requires IsRun(s, actions)
    decreases |actions|
  {
    EarlyNow(s, id) || (actions != [] && EverEarly(Next(s, actions[0]), actions[1..], id))
  }

  ghost predicate InOrder(s: State, id: nat) {
    Inv(s) && id < |s.producers| && s.producers[id].head && Ordered(s.packed + s.queue, id) && !EarlyNow(s, id)
  }

  /** A smaller index of the producer stands after the one packed at `k`. */
  ghost predicate SmallerLater(s: State, id: nat, k: nat)
    requires k < |s.packed|
  {
    exists e: Entry :: e.producer == id && e.index < s.packed[k].index && (e in s.queue || e in s.packed[k + 1..])
  }

  /** The order of `id` is broken at the packed position `k`, or will be by its next addition. */
  ghost predicate OutOfOrder(s: State, id: nat, k: nat) {
    && Inv(s) && id < |s.producers| && s.producers[id].head
    && k < |s.packed| && s.packed[k].producer == id && s.packed[k] in s.arrived
    && (s.producers[id].added < s.producers[id].total || SmallerLater(s, id, k))
  }

  lemma InOrderStep(s: State, a: Action, id: nat)
    requires InOrder(s, id) && Enabled(s, a)
    ensures var s' := Next(s, a); InOrder(s', id) || EarlyNow(s', id)
  {
    hide Inv, Ordered;
    StepInv(s, a);
    var s' := Next(s, a);
    if a.Add? {
      var e := NextEntry(a.id, s.producers[a.id]);
      InOrderAdd(s, a.id, id, e);
      if !s.producers[a.id].head {
        assert s'.packed + s'.queue == (s.packed + s.queue) + [e];
      }
    } else if a.Pack? {
      var n := PackCount(|s.queue|, s.lock.max);
      assert s'.packed + s'.queue == s.packed + s.queue;
    }
  }

  lemma InOrderAdd(s: State, adder: nat, id: nat, e: Entry)
    requires InOrder(s, id) && Enabled(s, Add(adder)) && e == NextEntry(adder, s.producers[adder])
    ensures Ordered(s.packed + ([e] + s.queue), id)
    ensures !s.producers[adder].head ==> Ordered((s.packed + s.queue) + [e], id)
  {
    var all := s.packed + s.queue;
    forall k | 0 <= k < |s.queue| && s.queue[k].producer == id ensures adder == id ==> e.index < s.queue[k].index {
      assert s.queue[k] in s.arrived;
    }
    var after := s.packed + ([e] + s.queue);
    forall i, j | 0 <= i < j < |after| && after[i].producer == id && after[j].producer == id ensures after[i].index < after[j].index {
      var n := |s.packed|;
      if i < n && j > n { assert after[i] == all[i] && after[j] == all[j - 1]; }
      if i < n && j < n { assert after[i] == all[i] && after[j] == all[j]; }
      if i > n { assert after[i] == all[i - 1] && after[j] == all[j - 1]; }
    }
  }

  lemma OutOfOrderStep(s: State, a: Action, id: nat, k: nat)
    requires OutOfOrder(s, id, k) && Enabled(s, a)
    ensures OutOfOrder(Next(s, a), id, k)
  {
    StepInv(s, a);
    var s' := Next(s, a);
    if a.Add? && a.id == id {
      var e := NextEntry(id, s.producers[id]);
      assert e in s'.queue && e.index < s.packed[k].index;
    } else if SmallerLater(s, id, k) {
      var e: Entry :| e.producer == id && e.index < s.packed[k].index && (e in s.queue || e in s.packed[k + 1..]);
      LaterStays(s, a, k, e);
    }
  }

  lemma LaterStays(s: State, a: Action, k: nat, e: Entry)
    requires Enabled(s, a) && k < |s.packed| && (e in s.queue || e in s.packed[k + 1..])
    ensures var s' := Next(s, a); k < |s'.packed| && s'.packed[k] == s.packed[k] && (e in s'.queue || e in s'.packed[k + 1..])
  {
    if a.Pack? {
      var n := PackCount(|s.queue|, s.lock.max);
      assert s.queue == s.queue[..n] + s.queue[n..];
      assert (s.packed + s.queue[..n])[k + 1..] == s.packed[k + 1..] + s.queue[..n];
    }
  }

  lemma {:induction false} OutOfOrderStays(s: State, actions: seq<Action>, id: nat, k: nat)
    requires OutOfOrder(s, id, k) && IsRun(s, actions)
    ensures OutOfOrder(RunTo(s, actions), id, k)
    decreases |actions|
  {
    if actions != [] {
      OutOfOrderStep(s, actions[0], id, k);
      OutOfOrderStays(Next(s, actions[0]), actions[1..], id, k);
    }
  }

  lemma BrokenOrder(s: State, id: nat, k: nat)
    requires k < |s.packed| && s.packed[k].producer == id && SmallerLater(s, id, k)
    ensures !Ordered(s.packed + s.queue, id)
  {
    var all := s.packed + s.queue;
    var e: Entry :| e.producer == id && e.index < s.packed[k].index && (e in s.queue || e in s.packed[k + 1..]);
    if e in s.queue {
      var j :| 0 <= j < |s.queue| && s.queue[j] == e;
      assert all[k] == s.packed[k] && all[|s.packed| + j] == e;
    } else {
      var j :| 0 <= j < |s.packed[k + 1..]| && s.packed[k + 1..][j] == e;
      assert all[k] == s.packed[k] && all[k + 1 + j] == e;
    }
  }

  lemma {:induction false} HeadOrderFrom(s: State, actions: seq<Action>, id: nat)
    requires InOrder(s, id) && IsRun(s, actions) && id < |RunTo(s, actions).producers|
    requires RunTo(s, actions).producers[id].added == RunTo(s, actions).producers[id].total
    ensures var r := RunTo(s, actions); Ordered(r.packed + r.queue, id) <==> !EverEarly(s, actions, id)
    decreases |actions|
  {
    hide Ordered, LockInv, FullInv, CallInv, BagInv, FifoInv, OrderInv;
    if actions != [] {
      InOrderStep(s, actions[0], id);
      var s1 := Next(s, actions[0]);
      if InOrder(s1, id) {
        HeadOrderFrom(s1, actions[1..], id);
      } else {
        StepInv(s, actions[0]);
        EarlyBreaks(s1, actions[1..], id);
      }
    }
  }

  lemma EarlyBreaks(s: State, actions: seq<Action>, id: nat)
    requires Inv(s) && EarlyNow(s, id) && s.producers[id].head && IsRun(s, actions)
    requires id < |RunTo(s, actions).producers|
    requires RunTo(s, actions).producers[id].added == RunTo(s, actions).producers[id].total
    ensures var r := RunTo(s, actions); !Ordered(r.packed + r.queue, id)
  {
    var k :| 0 <= k < |s.packed| && s.packed[k].producer == id;
    assert s.packed[k] in multiset(s.packed) + multiset(s.queue);
    assert s.packed[k] in multiset(s.arrived);
    OutOfOrderStays(s, actions, id, k);
    BrokenOrder(RunTo(s, actions), id, k);
  }

  /** A head producer that has added everything stands in its caller's order, in what was packed and what is
      queued, exactly when nothing of it was packed before it added its last. */
  lemma PackedEarlyIff(s: State, actions: seq<Action>, id: nat)
    requires Start(s) && IsRun(s, actions) && id < |s.producers| && s.producers[id].head
    requires id < |RunTo(s, actions).producers|
    requires RunTo(s, actions).producers[id].added == RunTo(s, actions).producers[id].total
    ensures var r := RunTo(s, actions); Ordered(r.packed + r.queue, id) <==> !EverEarly(s, actions, id)
  {
    StartInv(s);
    HeadOrderFrom(s, actions, id);
  }

  // What the caller can tell when it gets the lock

  /** The head call `id` has just got the lock for the first time. */
  ghost predicate HeadCall(s: State, id: nat) {
    Inv(s) && id < |s.producers| && s.producers[id].head && s.lock == Adder(id) && s.producers[id].added == 0
  }

  /** All that the call adds fits into the room it finds, or there is no order to lose. */
  predicate RoomForAll(s: State, id: nat)
    requires id < |s.producers|
  {
    s.producers[id].total <= 1 || |s.queue| + s.producers[id].total <= s.capacity
  }

  ghost predicate AlwaysOrdered(s: State, id: nat) {
    forall actions :: IsRun(s, actions) ==> Ordered(RunTo(s, actions).packed + RunTo(s, actions).queue, id)
  }

  /** What is packed or queued has been added. */
  lemma PackedArrived(s: State, e: Entry)
    requires BagInv(s) && OrderInv(s) && (e in s.packed || e in s.queue)
    ensures e in s.arrived && (e.producer < |s.producers| && Within(s.producers[e.producer], e.index))
  {
    assert e in multiset(s.packed) + multiset(s.queue);
    assert e in multiset(s.arrived);
  }

  lemma NothingAddedYet(s: State, id: nat)
    requires HeadCall(s, id)
    ensures InOrder(s, id)
  {
    forall e | e in s.packed || e in s.queue ensures e.producer != id { PackedArrived(s, e); }
    var all := s.packed + s.queue;
    assert forall e :: e in all ==> e in s.packed || e in s.queue;
    assert forall i :: 0 <= i < |all| ==> all[i] in all;
  }

  /** The rest of the call fits, or the call is of one transaction at most. */
  predicate Settles(s: State, id: nat)
    requires id < |s.producers|
  {
    var p := s.producers[id];
    p.total <= 1 || p.added >= p.total || (s.lock == Adder(id) && |s.queue| + (p.total - p.added) <= s.capacity)
  }

  lemma SettlesStep(s: State, a: Action, id: nat)
    requires InOrder(s, id) && Settles(s, id) && Enabled(s, a)
    ensures InOrder(Next(s, a), id) && Settles(Next(s, a), id)
  {
    InOrderStep(s, a, id);
    StepInv(s, a);
    SettlesOn(s, a, id);
    StepKind(s, a, id);
    hide Inv, Ordered, Next, Enabled, Settles;
    var s' := Next(s, a);
    if EarlyNow(s', id) {
      var k :| 0 <= k < |s'.packed| && s'.packed[k].producer == id;
      OneIsNotEarly(s', id, s'.packed[k]);
    }
  }

  lemma StepKind(s: State, a: Action, id: nat)
    requires Enabled(s, a) && id < |s.producers|
    ensures var s' := Next(s, a); id < |s'.producers| && s'.producers[id].head == s.producers[id].head
  {
  }

  /** While the rest fits, only the call itself can move, and it does not wait. */
  lemma SettlesOn(s: State, a: Action, id: nat)
    requires LockInv(s) && CallInv(s) && id < |s.producers| && Settles(s, id) && Enabled(s, a)
    ensures var s' := Next(s, a); id < |s'.producers| && Settles(s', id) && s'.producers[id].total == s.producers[id].total
    ensures s.producers[id].total > 1 && s.producers[id].added < s.producers[id].total ==> Next(s, a).packed == s.packed
  {
  }

  /** Of a call of one transaction nothing is packed before the last. */
  lemma OneIsNotEarly(s: State, id: nat, e: Entry)
    requires Inv(s) && EarlyNow(s, id) && s.producers[id].head && e in s.packed && e.producer == id
    ensures s.producers[id].total > 1
  {
    PackedArrived(s, e);
  }

  lemma {:induction false} SettlesAlways(s: State, actions: seq<Action>, id: nat)
    requires InOrder(s, id) && Settles(s, id) && IsRun(s, actions)
    ensures Ordered(RunTo(s, actions).packed + RunTo(s, actions).queue, id)
    decreases |actions|
  {
    if actions != [] {
      SettlesStep(s, actions[0], id);
      SettlesAlways(Next(s, actions[0]), actions[1..], id);
    }
  }

  // When not everything fits

  /** The call `id` has the lock, is not done, and cannot add all that is left without waiting. */
  ghost predicate MustWait(s: State, id: nat) {
    && Inv(s) && id < |s.producers| && s.producers[id].head && s.lock == Adder(id)
    && s.producers[id].added < s.producers[id].total && |s.queue| + (s.producers[id].total - s.producers[id].added) > s.capacity
  }

  function Turn(id: nat): seq<Action> { [Wait(id), PackLock(1), Pack, Acquire(id), Add(id)] }

  /** At a full queue the call waits, a packing of one makes room, and the call goes on: the front has left
      and the next transaction of the call has taken its place. */
  lemma TakeTurn(s: State, id: nat) returns (s': State)
    requires MustWait(s, id) && |s.queue| == s.capacity
    ensures s'.queue == [NextEntry(id, s.producers[id])] + s.queue[1..] && s'.packed == s.packed + [s.queue[0]]
    ensures Inv(s') && s'.capacity == s.capacity && s'.lock == Adder(id) && |s'.producers| == |s.producers|
    ensures s'.producers[id].head && s'.producers[id].added == s.producers[id].added + 1 && s'.producers[id].total == s.producers[id].total
    ensures forall rest :: IsRun(s', rest) ==> IsRun(s, Turn(id) + rest) && RunTo(s, Turn(id) + rest) == RunTo(s', rest)
  {
    hide Inv, Next, Enabled;
    var s3 := MakeRoom(s, id);
    s' := ComeBack(s3, id);
    forall rest | IsRun(s', rest) ensures IsRun(s, Turn(id) + rest) && RunTo(s, Turn(id) + rest) == RunTo(s', rest) {
      var back := [Acquire(id)] + ([Add(id)] + rest);
      assert IsRun(s3, back);
      assert Turn(id) + rest == [Wait(id)] + ([PackLock(1)] + ([Pack] + back));
    }
  }

  /** The call waits, and a packing of one wakes it. */
  lemma MakeRoom(s: State, id: nat) returns (s': State)
    requires MustWait(s, id) && |s.queue| == s.capacity
    ensures s'.queue == s.queue[1..] && s'.packed == s.packed + [s.queue[0]] && s'.lock.Free? && s'.capacity == s.capacity
    ensures Inv(s') && |s.queue| > 0 && |s'.producers| == |s.producers| && s'.producers[id] == s.producers[id].(call := Signalled)
    ensures forall rest :: IsRun(s', rest) ==>
      (IsRun(s, [Wait(id)] + ([PackLock(1)] + ([Pack] + rest))) &&
       RunTo(s, [Wait(id)] + ([PackLock(1)] + ([Pack] + rest))) == RunTo(s', rest))
  {
    WaitMakesRoom(s, id);
    hide Inv;
    var s1 := Next(s, Wait(id));
    var s2 := Next(s1, PackLock(1));
    s' := Next(s2, Pack);
    StepInv(s, Wait(id));
    StepInv(s1, PackLock(1));
    StepInv(s2, Pack);
    hide Next, Enabled;
    forall rest | IsRun(s', rest)
      ensures IsRun(s, [Wait(id)] + ([PackLock(1)] + ([Pack] + rest)))
      ensures RunTo(s, [Wait(id)] + ([PackLock(1)] + ([Pack] + rest))) == RunTo(s', rest)
    {
      Then(s2, Pack, rest);
      Then(s1, PackLock(1), [Pack] + rest);
      Then(s, Wait(id), [PackLock(1)] + ([Pack] + rest));
    }
  }

  /** A woken call takes the free lock and adds its next transaction. */
  lemma ComeBack(s: State, id: nat) returns (s': State)
    requires Inv(s) && s.lock.Free? && id < |s.producers| && s.producers[id].call.Signalled? && s.producers[id].head
    requires s.producers[id].added < s.producers[id].total && |s.queue| < s.capacity
    ensures s'.queue == [NextEntry(id, s.producers[id])] + s.queue && s'.packed == s.packed
    ensures Inv(s') && s'.capacity == s.capacity && s'.lock == Adder(id) && |s'.producers| == |s.producers|
    ensures s'.producers[id].head && s'.producers[id].added == s.producers[id].added + 1 && s'.producers[id].total == s.producers[id].total
    ensures forall rest :: IsRun(s', rest) ==>
      (IsRun(s, [Acquire(id)] + ([Add(id)] + rest)) && RunTo(s, [Acquire(id)] + ([Add(id)] + rest)) == RunTo(s', rest))
  {
    hide Inv;
    var s1 := Next(s, Acquire(id));
    StepInv(s, Acquire(id));
    s' := Next(s1, Add(id));
    StepInv(s1, Add(id));
    hide Next, Enabled;
    forall rest | IsRun(s', rest)
      ensures IsRun(s, [Acquire(id)] + ([Add(id)] + rest)) && RunTo(s, [Acquire(id)] + ([Add(id)] + rest)) == RunTo(s', rest)
    {
      Then(s1, Add(id), rest);
      Then(s, Acquire(id), [Add(id)] + rest);
    }
  }

  lemma WaitMakesRoom(s: State, id: nat)
    requires MustWait(s, id) && |s.queue| == s.capacity
    ensures |s.queue| > 0 && Enabled(s, Wait(id))
    ensures var s1 := Next(s, Wait(id));
      && Enabled(s1, PackLock(1))
      && var s2 := Next(s1, PackLock(1));
         && Enabled(s2, Pack)
         && var s3 := Next(s2, Pack);
            && s3.queue == s.queue[1..] && s3.packed == s.packed + [s.queue[0]] && s3.lock.Free? && s3.capacity == s.capacity
            && |s3.producers| == |s.producers| && s3.producers[id] == s.producers[id].(call := Signalled)
  {
    assert s.queue[..1] == [s.queue[0]];
  }

  /** With one of its transactions at the front, the call adds until the queue is full, waits, and has that
      front packed before the next one is added. */
  lemma BreaksFromFront(s: State, id: nat) returns (actions: seq<Action>)
    requires MustWait(s, id) && s.queue != [] && s.queue[0].producer == id
    ensures IsRun(s, actions) && !Ordered(RunTo(s, actions).packed + RunTo(s, actions).queue, id)
    decreases s.capacity - |s.queue|
  {
    if |s.queue| < s.capacity {
      var s1 := AddOne(s, id);
      var rest := BreaksFromFront(s1, id);
      Then(s, Add(id), rest);
      actions := [Add(id)] + rest;
    } else {
      var s' := TakeTurn(s, id);
      TurnBreaks(s, s', id);
      assert IsRun(s', []);
      actions := Turn(id) + [];
    }
  }

  lemma AddOne(s: State, id: nat) returns (s1: State)
    requires MustWait(s, id) && |s.queue| < s.capacity && s.producers[id].total - s.producers[id].added >= 2
    ensures Enabled(s, Add(id)) && s1 == Next(s, Add(id))
    ensures MustWait(s1, id) && |s1.queue| == |s.queue| + 1 && s1.queue[0].producer == id && s1.capacity == s.capacity
  {
    StepInv(s, Add(id));
    s1 := Next(s, Add(id));
  }

  lemma TurnBreaks(s: State, s': State, id: nat)
    requires MustWait(s, id) && s.queue != [] && s.queue[0].producer == id
    requires s'.queue == [NextEntry(id, s.producers[id])] + s.queue[1..] && s'.packed == s.packed + [s.queue[0]]
    ensures !Ordered(s'.packed + s'.queue, id)
  {
    PackedArrived(s, s.queue[0]);
    var e := NextEntry(id, s.producers[id]);
    assert s'.queue[0] == e;
    assert e in s'.queue && e.index < s'.packed[|s.packed|].index;
    BrokenOrder(s', id, |s.packed|);
  }

  /** A call of two or more that does not fit can be made to lose its order. */
  lemma CanBreak(s: State, id: nat) returns (actions: seq<Action>)
    requires HeadCall(s, id) && !RoomForAll(s, id)
    ensures IsRun(s, actions) && !Ordered(RunTo(s, actions).packed + RunTo(s, actions).queue, id)
  {
    if |s.queue| < s.capacity {
      var s1 := AddOne(s, id);
      var rest := BreaksFromFront(s1, id);
      Then(s, Add(id), rest);
      actions := [Add(id)] + rest;
    } else {
      var s' := TakeTurn(s, id);
      assert s'.queue[0].producer == id;
      var rest := BreaksFromFront(s', id);
      actions := Turn(id) + rest;
    }
  }

  /** The head variant keeps the caller's order, whatever happens afterwards, if and only if everything fits
      when the call gets the lock, or it adds one transaction at most. */
  lemma HeadOrderIff(s: State, id: nat)
    requires HeadCall(s, id)
    ensures AlwaysOrdered(s, id) <==> s.producers[id].total <= 1 || |s.queue| + s.producers[id].total <= s.capacity
  {
    if RoomForAll(s, id) {
      NothingAddedYet(s, id);
      forall actions | IsRun(s, actions) ensures Ordered(RunTo(s, actions).packed + RunTo(s, actions).queue, id) {
        SettlesAlways(s, actions, id);
      }
    } else {
      var actions := CanBreak(s, id);
    }
  }
}
