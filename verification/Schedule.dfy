/** What every interleaving keeps about channels, workers and phases, independent of what the steps do to memory. */
module Schedule {
  import opened BanknoteTypes
  import opened LedgerMachine

  function CountKind(txs: seq<BanknoteTx>, k: TxType): nat {
    if txs == [] then 0 else CountKind(txs[..|txs| - 1], k) + if txs[|txs| - 1].kind == k then 1 else 0
  }

  lemma {:induction false} CountPrefix(txs: seq<BanknoteTx>, n: nat, k: TxType)
    requires n <= |txs|
    ensures CountKind(txs[..n], k) <= CountKind(txs, k)
    ensures n < |txs| && txs[n].kind == k ==> CountKind(txs[..n], k) < CountKind(txs, k)
  {
    if n < |txs| {
      var front := txs[..|txs| - 1];
      if n < |front| {
        assert front[..n] == txs[..n];
        CountPrefix(front, n, k);
      } else {
        assert front == txs[..n];
      }
    } else {
      assert txs[..n] == txs;
    }
  }

  /** A split that has handed its source to the deferred channel. */
  predicate HasDeferred(p: Pc) { (p.Cleared? || p.Half? || p.Finished?) && !p.hit }

  function CountDeferred(txs: seq<BanknoteTx>, pc: seq<Pc>): nat
    requires |txs| == |pc|
  {
    if txs == [] then 0
    else CountDeferred(txs[..|txs| - 1], pc[..|pc| - 1])
         + if txs[|txs| - 1].kind.BS? && HasDeferred(pc[|pc| - 1]) then 1 else 0
  }

  lemma {:induction false} CountDeferredUpdate(txs: seq<BanknoteTx>, pc: seq<Pc>, i: nat, p: Pc)
    requires |txs| == |pc| && i < |pc|
    ensures CountDeferred(txs, pc[i := p]) == CountDeferred(txs, pc)
              - (if txs[i].kind.BS? && HasDeferred(pc[i]) then 1 else 0) + (if txs[i].kind.BS? && HasDeferred(p) then 1 else 0)
  {
    var n := |pc| - 1;
    if i == n {
      assert pc[i := p][..n] == pc[..n];
    } else {
      assert pc[i := p][..n] == pc[..n][i := p];
      CountDeferredUpdate(txs[..n], pc[..n], i, p);
    }
  }

  /** While some split has not deferred its source, fewer sources are deferred than there are splits. */
  lemma {:induction false} CountDeferredBound(txs: seq<BanknoteTx>, pc: seq<Pc>, i: nat)
    requires |txs| == |pc|
    ensures CountDeferred(txs, pc) <= CountKind(txs, BS)
    ensures i < |pc| && txs[i].kind.BS? && !HasDeferred(pc[i]) ==> CountDeferred(txs, pc) < CountKind(txs, BS)
  {
    if txs != [] {
      CountDeferredBound(txs[..|txs| - 1], pc[..|pc| - 1], i);
    }
  }

  ghost predicate QueueInv(c: Config, s: Local)
    requires |s.pc| == |c.txs|
  {
    && s.next <= |c.txs| && s.closed <= 4 && (s.closed > 0 ==> s.next == |c.txs|)
    && (forall k, j :: 0 <= j < |s.queues.Of(k)| ==>
          && s.queues.Of(k)[j] < s.next
          && c.txs[s.queues.Of(k)[j]].kind == k && s.pc[s.queues.Of(k)[j]].Waiting?)
    && (forall i :: 0 <= i < s.next && s.pc[i].Waiting? ==> i in s.queues.Of(c.txs[i].kind))
    && (forall i :: s.next <= i < |s.pc| ==> s.pc[i].Waiting?)
  }

  /** Channels are first-in first-out: queued positions ascend, and what is received came before what is queued. */
  ghost predicate FifoInv(c: Config, s: Local)
    requires |s.pc| == |c.txs|
  {
    && (forall k, j, l :: 0 <= j < l < |s.queues.Of(k)| ==> s.queues.Of(k)[j] < s.queues.Of(k)[l])
    && (forall i, j :: 0 <= i < |s.pc| && !s.pc[i].Waiting? && 0 <= j < |s.queues.Of(c.txs[i].kind)| ==>
          i < s.queues.Of(c.txs[i].kind)[j])
  }

  ghost predicate BusyInv(c: Config, s: Local)
    requires |s.pc| == |c.txs|
  {
    && (forall w :: 0 <= w < |s.workers| && s.workers[w].Busy? ==>
          && s.workers[w].i < |s.pc|
          && c.txs[s.workers[w].i].kind == StageKind(s.stage) && Active(s.pc[s.workers[w].i]))
    && (forall v, w :: 0 <= v < w < |s.workers| && s.workers[v].Busy? && s.workers[w].Busy? ==>
          s.workers[v].i != s.workers[w].i)
    && (forall i :: 0 <= i < |s.pc| && Active(s.pc[i]) ==> Busy(i) in s.workers)
  }

  /** The transaction of a busy worker belongs to the phase, and the worker's step moves it on. */
  lemma BusyStep(c: Config, m: Mem, s: Local, w: nat)
    requires Grounded(c, m, s) && Enabled(c, m, s, Work(w)) && BusyInv(c, s) && s.workers[w].Busy?
    ensures var i := s.workers[w].i;
      && i < |s.pc| && Active(s.pc[i]) && Rank(c.txs[i].kind) == StageRank(s.stage)
      && PcFits(c.txs[i].kind, s.pc[i]) && RefOk(s.pc[i], m)
      && var (m', s') := WorkStep(c, m, s, w);
         var o := TxStep(c.txs[i], s.pc[i], m);
         m' == o.mem && s'.pc == s.pc[i := o.pc] && s'.stage == s.stage && s'.drained == s.drained
  {
  }

  ghost predicate ExitInv(c: Config, s: Local) {
    && (Exited in s.workers && StageRank(s.stage) < 4 ==>
          IsClosed(s, StageKind(s.stage)) && s.queues.Of(StageKind(s.stage)) == [])
    && |s.workers| == (if s.stage.DrainStage? then 1 else c.workers)
    && (StageRank(s.stage) == 4 ==> AllExited(s.workers))
  }

  /** Each phase starts only after the previous one is fully processed. */
  ghost predicate Barrier(c: Config, s: Local)
    requires |s.pc| == |c.txs|
  {
    forall i :: 0 <= i < |s.pc| ==>
      && (Rank(c.txs[i].kind) < StageRank(s.stage) ==> s.pc[i].Finished?)
      && (Rank(c.txs[i].kind) > StageRank(s.stage) ==> s.pc[i].Waiting?)
  }

  ghost predicate CountInv(c: Config, s: Local)
    requires |s.pc| == |c.txs| && s.next <= |c.txs|
  {
    && (forall k :: |s.queues.Of(k)| <= CountKind(c.txs[..s.next], k))
    && (forall k :: |s.queues.Of(k)| <= Slots(c.chanSize))
  }

  ghost predicate ChannelInv(c: Config, s: Local)
    requires |s.pc| == |c.txs|
  {
    && |s.deferred| <= CountDeferred(c.txs, s.pc) && |s.deferred| <= c.chanSize
    && (s.deferred == [] || 1 <= StageRank(s.stage) <= 2 || s.stage.DrainStage?)
    && |s.acct| <= Slots(c.acctSize)
    && (s.trie.Returned? <==> s.stage.DoneStage?)
    && (s.trie.Signalling? ==> s.stage.JoinStage?)
    && (!s.trie.Collecting? ==> s.acct == [])
  }

  ghost predicate ShapeInv(c: Config, m: Mem, s: Local) {
    |s.pc| == |c.txs| && forall i :: 0 <= i < |s.pc| ==> PcFits(c.txs[i].kind, s.pc[i]) && RefOk(s.pc[i], m)
  }

  ghost predicate SInv(c: Config, m: Mem, s: Local) {
    && ShapeInv(c, m, s) && QueueInv(c, s) && FifoInv(c, s) && BusyInv(c, s) && ExitInv(c, s)
    && Barrier(c, s) && CountInv(c, s) && ChannelInv(c, s)
  }

  lemma SInvGrounded(c: Config, m: Mem, s: Local)
    requires ShapeInv(c, m, s) && QueueInv(c, s) && BusyInv(c, s)
    ensures Grounded(c, m, s)
  {
  }

  lemma StartSInv(c: Config, m: Mem, st: map<Address, Account>)
    requires ConfigOk(c)
    ensures SInv(c, m, Start(c, st))
  {
    var s := Start(c, st);
    assert forall k :: s.queues.Of(k) == [];
    assert forall i :: 0 <= i < |s.pc| ==> s.pc[i] == Waiting && c.txs[i] in c.txs;
    assert BusyInv(c, s) && ExitInv(c, s);
  }

  /** The shape of one worker step: its transaction moves on, and it sends what `OutputOf` says. */
  lemma TxStepShape(t: BanknoteTx, p: Pc, m: Mem)
    requires Active(p) && PcFits(t.kind, p) && RefOk(p, m) && MemOk(m)
    ensures var o := TxStep(t, p, m);
      && !o.pc.Waiting? && PcFits(t.kind, o.pc) && RefOk(o.pc, o.mem)
      && o.out == OutputOf(t, p)
      && (o.out.Defer? ==> t.kind.BS? && !HasDeferred(p) && HasDeferred(o.pc))
      && (t.kind.BS? && HasDeferred(p) ==> HasDeferred(o.pc))
  {
  }

  /** A step only adds notes. */
  lemma TxStepMem(t: BanknoteTx, p: Pc, m: Mem)
    requires Active(p) && PcFits(t.kind, p) && RefOk(p, m) && MemOk(m)
    ensures var m' := TxStep(t, p, m).mem; MemOk(m') && |m.notes| <= |m'.notes|
  {
  }

  lemma WithOf(q: Queues, k: TxType, x: seq<nat>)
    requires !k.NT?
    ensures q.With(k, x).Of(k) == x
    ensures forall l :: l != k ==> q.With(k, x).Of(l) == q.Of(l)
  {
  }

  /** Steps that leave the channels alone and put nothing back in waiting keep the channel facts. */
  lemma QueueFrame(c: Config, s: Local, s': Local)
    requires |s.pc| == |c.txs| == |s'.pc| && QueueInv(c, s) && FifoInv(c, s) && CountInv(c, s)
    requires s'.queues == s.queues && s'.next == s.next && s'.closed == s.closed
    requires forall i :: 0 <= i < |s.pc| ==> (s'.pc[i].Waiting? <==> s.pc[i].Waiting?)
    ensures QueueInv(c, s') && FifoInv(c, s') && CountInv(c, s')
  {
  }

  /** Exactly when a worker with a transaction can go on: a mint or recycling waits to send its account record while
      the channel is full, and a split waits to defer its source while that channel is full; nothing else waits. */
  lemma WorkerWaits(c: Config, m: Mem, s: Local, w: nat)
    requires Grounded(c, m, s) && w < |s.workers| && s.workers[w].Busy?
    ensures var t, p := c.txs[s.workers[w].i], s.pc[s.workers[w].i];
      Enabled(c, m, s, Work(w)) <==>
        && ((t.kind == BG || t.kind == BR) && p == Received ==> |s.acct| < c.acctSize || (c.acctSize == 0 && s.acct == []))
        && (t.kind == BS && p == Absent ==> |s.deferred| < c.chanSize)
  {
  }

  /** Exactly when an idle worker can go on: when its phase channel holds something, or is closed. The channels are
      closed in the order mints, transfers, splits, recyclings, once everything is dispatched. */
  lemma IdleWaits(c: Config, m: Mem, s: Local, w: nat)
    requires SInv(c, m, s) && Grounded(c, m, s) && w < |s.workers| && s.workers[w].Idle?
    ensures Enabled(c, m, s, Work(w)) <==>
      match s.stage
      case MintStage => s.queues.bg != [] || s.closed >= 1
      case MoveStage => s.queues.bt != [] || s.closed >= 2
      case SplitStage => s.queues.bs != [] || s.closed >= 3
      case _ => s.queues.br != [] || s.closed >= 4
    ensures s.closed > 0 ==> s.next == |c.txs|
  {
    assert !AllExited(s.workers);
  }

  // The dispatcher

  lemma DispatchQueue(c: Config, s: Local, s': Local, k: TxType)
    requires |s.pc| == |c.txs| && QueueInv(c, s) && FifoInv(c, s) && CountInv(c, s)
    requires s.next < |c.txs| && k == c.txs[s.next].kind && !k.NT? && |s.queues.Of(k)| < Slots(c.chanSize)
    requires s'.pc == s.pc && s'.next == s.next + 1 && s'.closed == s.closed == 0
    requires s'.queues.Of(k) == s.queues.Of(k) + [s.next]
    requires forall l :: l != k ==> s'.queues.Of(l) == s.queues.Of(l)
    ensures QueueInv(c, s') && CountInv(c, s')
  {
    QueueBounds(c, s);
    hide *;
    DispatchCount(c, s, s', k);
    DispatchWaiting(c, s, s', k);
    forall l, j | 0 <= j < |s'.queues.Of(l)| ensures QueuedAt(c, s', l, s'.queues.Of(l)[j]) { DispatchedAt(c, s, s', k, l, j); }
    QueueFacts(c, s');
  }

  /** The position `i` may stand in channel `l`. */
  predicate QueuedAt(c: Config, s: Local, l: TxType, i: nat)
    requires |s.pc| == |c.txs|
  {
    i < s.next && i < |s.pc| && c.txs[i].kind == l && s.pc[i].Waiting?
  }

  lemma QueueFacts(c: Config, s: Local)
    requires |s.pc| == |c.txs| && s.next <= |c.txs| && s.closed <= 4 && (s.closed > 0 ==> s.next == |c.txs|)
    requires forall l, j :: 0 <= j < |s.queues.Of(l)| ==> QueuedAt(c, s, l, s.queues.Of(l)[j])
    requires forall i :: 0 <= i < s.next && s.pc[i].Waiting? ==> i in s.queues.Of(c.txs[i].kind)
    requires forall i :: s.next <= i < |s.pc| ==> s.pc[i].Waiting?
    ensures QueueInv(c, s)
  {
    hide Queues.Of;
    forall l, j | 0 <= j < |s.queues.Of(l)|
      ensures s.queues.Of(l)[j] < s.next && c.txs[s.queues.Of(l)[j]].kind == l && s.pc[s.queues.Of(l)[j]].Waiting?
    {
      assert QueuedAt(c, s, l, s.queues.Of(l)[j]);
    }
  }

  lemma DispatchedAt(c: Config, s: Local, s': Local, k: TxType, l: TxType, j: nat)
    requires |s.pc| == |c.txs| && QueueInv(c, s) && s.next < |c.txs| && k == c.txs[s.next].kind
    requires s'.pc == s.pc && s'.next == s.next + 1
    requires s'.queues.Of(l) == if l == k then s.queues.Of(k) + [s.next] else s.queues.Of(l)
    requires j < |s'.queues.Of(l)|
    ensures QueuedAt(c, s', l, s'.queues.Of(l)[j])
  {
    hide Queues.Of;
    if j < |s.queues.Of(l)| { assert s'.queues.Of(l)[j] == s.queues.Of(l)[j]; }
  }

  lemma DispatchWaiting(c: Config, s: Local, s': Local, k: TxType)
    requires |s.pc| == |c.txs| && QueueInv(c, s) && s.next < |c.txs| && k == c.txs[s.next].kind
    requires s'.pc == s.pc && s'.next == s.next + 1 && s'.queues.Of(k) == s.queues.Of(k) + [s.next]
    requires forall l :: l != k ==> s'.queues.Of(l) == s.queues.Of(l)
    ensures forall i :: 0 <= i < s'.next && s'.pc[i].Waiting? ==> i in s'.queues.Of(c.txs[i].kind)
    ensures forall i :: s'.next <= i < |s'.pc| ==> s'.pc[i].Waiting?
  {
    forall i | 0 <= i < s'.next && s'.pc[i].Waiting? ensures i in s'.queues.Of(c.txs[i].kind) {
      if i < s.next { assert i in s.queues.Of(c.txs[i].kind); }
    }
  }

  lemma DispatchCount(c: Config, s: Local, s': Local, k: TxType)
    requires |s.pc| == |c.txs| == |s'.pc| && s.next < |c.txs| && CountInv(c, s) && k == c.txs[s.next].kind
    requires s'.next == s.next + 1 && s'.queues.Of(k) == s.queues.Of(k) + [s.next] && |s.queues.Of(k)| < Slots(c.chanSize)
    requires forall l :: l != k ==> s'.queues.Of(l) == s.queues.Of(l)
    ensures CountInv(c, s')
  {
    var front := c.txs[..s.next];
    assert c.txs[..s.next + 1] == front + [c.txs[s.next]] && c.txs[..s.next + 1][..s.next] == front;
    forall l ensures |s'.queues.Of(l)| <= CountKind(c.txs[..s'.next], l) && |s'.queues.Of(l)| <= Slots(c.chanSize) {
      assert |s.queues.Of(l)| <= CountKind(front, l);
    }
  }

  lemma DispatchFifo(c: Config, s: Local, s': Local, k: TxType)
    requires |s.pc| == |c.txs| && QueueInv(c, s) && FifoInv(c, s)
    requires s.next < |c.txs|
    requires s'.pc == s.pc
    requires s'.queues.Of(k) == s.queues.Of(k) + [s.next]
    requires forall l :: l != k ==> s'.queues.Of(l) == s.queues.Of(l)
    ensures FifoInv(c, s')
  {
    forall l, i, j | 0 <= i < j < |s'.queues.Of(l)| ensures s'.queues.Of(l)[i] < s'.queues.Of(l)[j] {
      assert s'.queues.Of(l)[i] == s.queues.Of(l)[i];
      if j < |s.queues.Of(l)| { assert s'.queues.Of(l)[j] == s.queues.Of(l)[j]; }
    }
    forall i, j | 0 <= i < |s'.pc| && !s'.pc[i].Waiting? && 0 <= j < |s'.queues.Of(c.txs[i].kind)|
      ensures i < s'.queues.Of(c.txs[i].kind)[j]
    {
      var l := c.txs[i].kind;
      if j < |s.queues.Of(l)| { assert s'.queues.Of(l)[j] == s.queues.Of(l)[j]; }
    }
  }

  lemma DispatchKeeps(c: Config, m: Mem, s: Local)
    requires ConfigOk(c) && SInv(c, m, s) && Grounded(c, m, s) && Enabled(c, m, s, Dispatch)
    ensures SInv(c, m, Next(c, m, s, Dispatch).1)
  {
    var s' := Next(c, m, s, Dispatch).1;
    var k := c.txs[s.next].kind;
    DispatchFacts(c, m, s);
    hide QueueInv, FifoInv, CountInv, ExitInv, BusyInv, ChannelInv, Barrier, ShapeInv, Grounded, Enabled, Next, CanTake, Queues.Of;
    DispatchQueue(c, s, s', k);
    DispatchFifo(c, s, s', k);
    DispatchRest(c, m, s, s');
  }

  lemma DispatchFacts(c: Config, m: Mem, s: Local)
    requires ConfigOk(c) && |s.pc| == |c.txs| && QueueInv(c, s) && Grounded(c, m, s) && Enabled(c, m, s, Dispatch)
    ensures var s', k := Next(c, m, s, Dispatch).1, c.txs[s.next].kind;
      && s.next < |c.txs| && !k.NT? && |s.queues.Of(k)| < Slots(c.chanSize)
      && s'.queues.Of(k) == s.queues.Of(k) + [s.next] && (forall l :: l != k ==> s'.queues.Of(l) == s.queues.Of(l))
      && s'.next == s.next + 1 && s'.closed == s.closed == 0
      && s' == s.(next := s'.next, queues := s'.queues)
  {
    assert c.txs[s.next] in c.txs;
    WithOf(s.queues, c.txs[s.next].kind, s.queues.Of(c.txs[s.next].kind) + [s.next]);
  }

  lemma DispatchRest(c: Config, m: Mem, s: Local, s': Local)
    requires ShapeInv(c, m, s) && BusyInv(c, s) && ExitInv(c, s) && Barrier(c, s) && ChannelInv(c, s)
    requires s' == s.(next := s'.next, queues := s'.queues) && s.closed == 0
    ensures ShapeInv(c, m, s') && BusyInv(c, s') && ExitInv(c, s') && Barrier(c, s') && ChannelInv(c, s')
  {
  }

  lemma CloseKeeps(c: Config, m: Mem, s: Local)
    requires SInv(c, m, s) && Grounded(c, m, s) && Enabled(c, m, s, Close)
    ensures SInv(c, m, Next(c, m, s, Close).1)
  {
  }

  lemma TrieKeeps(c: Config, m: Mem, s: Local)
    requires SInv(c, m, s) && Grounded(c, m, s) && Enabled(c, m, s, Trie)
    ensures SInv(c, m, Next(c, m, s, Trie).1)
  {
    hide QueueInv, FifoInv, CountInv, BusyInv, ExitInv, Barrier, ShapeInv;
    var s' := Next(c, m, s, Trie).1;
    QueueFrame(c, s, s');
    assert ChannelInv(c, s');
    SameWorkers(c, m, s, s');
  }

  lemma SameWorkers(c: Config, m: Mem, s: Local, s': Local)
    requires ShapeInv(c, m, s) && BusyInv(c, s) && ExitInv(c, s) && Barrier(c, s)
    requires s'.pc == s.pc && s'.workers == s.workers && s'.stage == s.stage && s'.queues == s.queues && s'.closed == s.closed
    ensures ShapeInv(c, m, s') && BusyInv(c, s') && ExitInv(c, s') && Barrier(c, s')
  {
  }

  // The workers

  /** Replacing the worker at `w`, which is not busy, keeps what every other worker holds. */
  lemma OthersHold(ws: seq<Worker>, w: nat, x: Worker, i: nat)
    requires w < |ws| && Busy(i) in ws && ws[w] != Busy(i)
    ensures Busy(i) in ws[w := x]
  {
    var v :| 0 <= v < |ws| && ws[v] == Busy(i);
    assert ws[w := x][v] == Busy(i);
  }

  lemma ReceiveQueue(c: Config, s: Local, s': Local, k: TxType)
    requires |s.pc| == |c.txs| && QueueInv(c, s) && FifoInv(c, s) && CountInv(c, s)
    requires s.queues.Of(k) != []
    requires s'.pc == s.pc[s.queues.Of(k)[0] := Received] && s'.next == s.next && s'.closed == s.closed
    requires s'.queues.Of(k) == s.queues.Of(k)[1..]
    requires forall l :: l != k ==> s'.queues.Of(l) == s.queues.Of(l)
    ensures QueueInv(c, s') && CountInv(c, s')
  {
    QueueBounds(c, s);
    hide *;
    ReceiveCount(c, s, s', k);
    ReceiveWaiting(c, s, s', k);
    forall l, j | 0 <= j < |s'.queues.Of(l)| ensures QueuedAt(c, s', l, s'.queues.Of(l)[j]) { ReceiveAt(c, s, s', k, l, j); }
    QueueFacts(c, s');
  }

  lemma QueueBounds(c: Config, s: Local)
    requires |s.pc| == |c.txs| && QueueInv(c, s)
    ensures s.next <= |c.txs| && s.closed <= 4 && (s.closed > 0 ==> s.next == |c.txs|)
  {
  }

  lemma ReceiveAt(c: Config, s: Local, s': Local, k: TxType, l: TxType, j: nat)
    requires |s.pc| == |c.txs| && QueueInv(c, s) && FifoInv(c, s) && s.queues.Of(k) != []
    requires s'.pc == s.pc[s.queues.Of(k)[0] := Received] && s'.next == s.next
    requires s'.queues.Of(l) == if l == k then s.queues.Of(k)[1..] else s.queues.Of(l)
    requires j < |s'.queues.Of(l)|
    ensures QueuedAt(c, s', l, s'.queues.Of(l)[j])
  {
    var q := s.queues.Of(k);
    var i := if l == k then j + 1 else j;
    assert s'.queues.Of(l)[j] == s.queues.Of(l)[i];
    assert c.txs[q[0]].kind == k;
    if l == k { assert q[0] < q[i]; }
  }

  lemma ReceiveWaiting(c: Config, s: Local, s': Local, k: TxType)
    requires |s.pc| == |c.txs| && QueueInv(c, s) && s.queues.Of(k) != []
    requires s'.pc == s.pc[s.queues.Of(k)[0] := Received] && s'.next == s.next
    requires s'.queues.Of(k) == s.queues.Of(k)[1..]
    requires forall l :: l != k ==> s'.queues.Of(l) == s.queues.Of(l)
    ensures forall i :: 0 <= i < s'.next && s'.pc[i].Waiting? ==> i in s'.queues.Of(c.txs[i].kind)
    ensures forall i :: s'.next <= i < |s'.pc| ==> s'.pc[i].Waiting?
  {
    var q := s.queues.Of(k);
    assert q == [q[0]] + q[1..];
    forall i | 0 <= i < s'.next && s'.pc[i].Waiting? ensures i in s'.queues.Of(c.txs[i].kind) {
      assert i in s.queues.Of(c.txs[i].kind);
    }
  }

  lemma ReceiveCount(c: Config, s: Local, s': Local, k: TxType)
    requires |s.pc| == |c.txs| == |s'.pc| && s.next <= |c.txs| && CountInv(c, s) && s'.next == s.next && s.queues.Of(k) != []
    requires s'.queues.Of(k) == s.queues.Of(k)[1..] && forall l :: l != k ==> s'.queues.Of(l) == s.queues.Of(l)
    ensures CountInv(c, s')
  {
  }

  lemma ReceiveFifo(c: Config, s: Local, s': Local, k: TxType)
    requires |s.pc| == |c.txs| && QueueInv(c, s) && FifoInv(c, s)
    requires s.queues.Of(k) != []
    requires s'.pc == s.pc[s.queues.Of(k)[0] := Received]
    requires s'.queues.Of(k) == s.queues.Of(k)[1..]
    requires forall l :: l != k ==> s'.queues.Of(l) == s.queues.Of(l)
    ensures FifoInv(c, s')
  {
    forall l, i, j | 0 <= i < j < |s'.queues.Of(l)|
      ensures s'.queues.Of(l)[i] < s'.queues.Of(l)[j]
    {
      if l == k { assert s.queues.Of(k)[i + 1] < s.queues.Of(k)[j + 1]; }
    }
    forall i, j | 0 <= i < |s'.pc| && !s'.pc[i].Waiting? && 0 <= j < |s'.queues.Of(c.txs[i].kind)|
      ensures i < s'.queues.Of(c.txs[i].kind)[j]
    {
      ReceiveFifoAt(c, s, k, i, j, s');
    }
  }

  lemma ReceiveFifoAt(c: Config, s: Local, k: TxType, i: nat, j: nat, s': Local)
    requires |s.pc| == |c.txs| && QueueInv(c, s) && FifoInv(c, s)
    requires s.queues.Of(k) != []
    requires s'.pc == s.pc[s.queues.Of(k)[0] := Received]
    requires s'.queues.Of(k) == s.queues.Of(k)[1..]
    requires forall l :: l != k ==> s'.queues.Of(l) == s.queues.Of(l)
    requires i < |s'.pc| && !s'.pc[i].Waiting? && j < |s'.queues.Of(c.txs[i].kind)|
    ensures i < s'.queues.Of(c.txs[i].kind)[j]
  {
    if c.txs[i].kind == k {
      assert s.queues.Of(k)[0] < s.queues.Of(k)[j + 1];
    }
  }

  lemma ReceiveBusy(c: Config, s: Local, s': Local, w: nat, i: nat)
    requires |s.pc| == |c.txs| && BusyInv(c, s)
    requires w < |s.workers| && s.workers[w].Idle?
    requires i < |s.pc| && s.pc[i].Waiting? && c.txs[i].kind == StageKind(s.stage)
    requires s'.pc == s.pc[i := Received] && s'.workers == s.workers[w := Busy(i)] && s'.stage == s.stage
    ensures BusyInv(c, s')
  {
    forall v | 0 <= v < |s.workers| && s.workers[v].Busy? ensures s.workers[v].i != i { }
    forall j | 0 <= j < |s'.pc| && Active(s'.pc[j]) ensures Busy(j) in s'.workers {
      if j == i { assert s'.workers[w] == Busy(i); } else { OthersHold(s.workers, w, Busy(i), j); }
    }
  }

  lemma ReceiveKeeps(c: Config, m: Mem, s: Local, w: nat)
    requires ConfigOk(c) && SInv(c, m, s) && Grounded(c, m, s) && Enabled(c, m, s, Work(w))
    requires s.workers[w].Idle? && s.queues.Of(StageKind(s.stage)) != []
    ensures SInv(c, m, Next(c, m, s, Work(w)).1)
  {
    var s' := Next(c, m, s, Work(w)).1;
    var k := StageKind(s.stage);
    var q := s.queues.Of(k);
    WithOf(s.queues, k, q[1..]);
    assert s.pc[q[0]].Waiting? && c.txs[q[0]].kind == k;
    ReceiveQueue(c, s, s', k);
    ReceiveFifo(c, s, s', k);
    ReceiveBusy(c, s, s', w, q[0]);
    ReceiveRest(c, m, s, s', w, q[0]);
  }

  lemma ReceiveRest(c: Config, m: Mem, s: Local, s': Local, w: nat, i: nat)
    requires ShapeInv(c, m, s) && Barrier(c, s) && ChannelInv(c, s) && ExitInv(c, s)
    requires w < |s.workers| && s.workers[w].Idle?
    requires i < |s.pc| && s.pc[i].Waiting? && c.txs[i].kind == StageKind(s.stage) && !c.txs[i].kind.NT?
    requires s.queues.Of(StageKind(s.stage)) != []
    requires s'.pc == s.pc[i := Received] && s'.workers == s.workers[w := Busy(i)] && s'.stage == s.stage
    requires s'.deferred == s.deferred && s'.acct == s.acct && s'.trie == s.trie
    ensures ShapeInv(c, m, s') && Barrier(c, s') && ChannelInv(c, s') && ExitInv(c, s')
  {
    CountDeferredUpdate(c.txs, s.pc, i, Received);
    assert Exited in s'.workers ==> Exited in s.workers;
  }

  lemma ExitKeeps(c: Config, m: Mem, s: Local, w: nat)
    requires ConfigOk(c) && SInv(c, m, s) && Grounded(c, m, s) && Enabled(c, m, s, Work(w))
    requires s.workers[w].Idle? && s.queues.Of(StageKind(s.stage)) == []
    ensures SInv(c, m, Next(c, m, s, Work(w)).1)
  {
    var s' := Next(c, m, s, Work(w)).1;
    assert BusyInv(c, s') by {
      forall j | 0 <= j < |s'.pc| && Active(s'.pc[j]) ensures Busy(j) in s'.workers {
        OthersHold(s.workers, w, Exited, j);
      }
    }
    assert ExitInv(c, s');
  }

  lemma BusyKeeps(c: Config, m: Mem, s: Local, w: nat)
    requires ConfigOk(c) && MemOk(m) && SInv(c, m, s) && Grounded(c, m, s) && Enabled(c, m, s, Work(w))
    requires s.workers[w].Busy?
    ensures var n := Next(c, m, s, Work(w)); SInv(c, n.0, n.1) && MemOk(n.0) && |m.notes| <= |n.0.notes|
  {
    var (m', s') := Next(c, m, s, Work(w));
    var i := s.workers[w].i;
    TxStepShape(c.txs[i], s.pc[i], m);
    TxStepMem(c.txs[i], s.pc[i], m);
    BusyShape(c, m, s, m', s', w, TxStep(c.txs[i], s.pc[i], m));
  }

  lemma BusyBusy(c: Config, s: Local, s': Local, w: nat, p: Pc)
    requires |s.pc| == |c.txs| && BusyInv(c, s)
    requires w < |s.workers| && s.workers[w].Busy? && !p.Waiting?
    requires s'.pc == s.pc[s.workers[w].i := p] && s'.stage == s.stage
    requires s'.workers == if p.Finished? then s.workers[w := Idle] else s.workers
    ensures BusyInv(c, s')
  {
    forall j | 0 <= j < |s'.pc| && Active(s'.pc[j]) ensures Busy(j) in s'.workers {
      assert Active(s.pc[j]);
      if j != s.workers[w].i && p.Finished? { OthersHold(s.workers, w, Idle, j); }
    }
  }

  lemma BusyKind(c: Config, s: Local, w: nat)
    requires |s.pc| == |c.txs| && BusyInv(c, s) && w < |s.workers| && s.workers[w].Busy?
    ensures s.workers[w].i < |s.pc| && c.txs[s.workers[w].i].kind == StageKind(s.stage)
  {
  }

  lemma SameRefs(m: Mem, m': Mem, pc: seq<Pc>)
    requires |m.notes| <= |m'.notes|
    ensures forall i :: 0 <= i < |pc| && RefOk(pc[i], m) ==> RefOk(pc[i], m')
  {
  }

  lemma BusyShape(c: Config, m: Mem, s: Local, m': Mem, s': Local, w: nat, o: Outcome)
    requires SInv(c, m, s) && |m.notes| <= |m'.notes|
    requires w < |s.workers| && s.workers[w].Busy? && s.workers[w].i < |s.pc| && Active(s.pc[s.workers[w].i])
    requires var i := s.workers[w].i;
      && !o.pc.Waiting? && PcFits(c.txs[i].kind, o.pc) && RefOk(o.pc, m')
      && o.out == OutputOf(c.txs[i], s.pc[i]) && HasRoom(c, s, o.out)
      && (o.out.Defer? ==> c.txs[i].kind.BS? && !HasDeferred(s.pc[i]) && HasDeferred(o.pc))
      && (c.txs[i].kind.BS? && HasDeferred(s.pc[i]) ==> HasDeferred(o.pc))
      && s' == Deliver(s.(pc := s.pc[i := o.pc], workers := if o.pc.Finished? then s.workers[w := Idle] else s.workers), o.out)
    ensures SInv(c, m', s')
  {
    hide QueueInv, FifoInv, CountInv, BusyInv, ChannelInv, OutputOf, HasRoom, RefOk, PcFits;
    var i := s.workers[w].i;
    BusyKind(c, s, w);
    assert s'.pc == s.pc[i := o.pc] && s'.queues == s.queues && s'.next == s.next && s'.closed == s.closed
      && s'.stage == s.stage && s'.trie == s.trie;
    SameRefs(m, m', s.pc);
    QueueFrame(c, s, s');
    BusyBusy(c, s, s', w, o.pc);
    assert ExitInv(c, s') by { assert Exited in s'.workers ==> Exited in s.workers; }
    assert Barrier(c, s') && ShapeInv(c, m', s');
    BusyChannels(c, s, s', i, o);
  }

  lemma BusyChannels(c: Config, s: Local, s': Local, i: nat, o: Outcome)
    requires |s.pc| == |c.txs| && Barrier(c, s) && ChannelInv(c, s)
    requires i < |s.pc| && Active(s.pc[i]) && c.txs[i].kind == StageKind(s.stage) && !c.txs[i].kind.NT?
    requires o.out == OutputOf(c.txs[i], s.pc[i]) && HasRoom(c, s, o.out)
    requires o.out.Defer? ==> c.txs[i].kind.BS? && !HasDeferred(s.pc[i]) && HasDeferred(o.pc)
    requires c.txs[i].kind.BS? && HasDeferred(s.pc[i]) ==> HasDeferred(o.pc)
    requires s'.pc == s.pc[i := o.pc] && s'.stage == s.stage && s'.trie == s.trie
    requires s'.deferred == s.deferred + (if o.out.Defer? then [o.out.h] else [])
    requires s'.acct == s.acct + (if o.out.Send? then [o.out.rec] else [])
    ensures ChannelInv(c, s')
  {
    CountDeferredUpdate(c.txs, s.pc, i, o.pc);
    assert !s.stage.JoinStage? && !s.stage.DoneStage?;
  }

  // The main goroutine

  /** When every worker of a phase has exited, every transaction of the phase is processed. */
  lemma PhaseProcessed(c: Config, m: Mem, s: Local, i: nat)
    requires SInv(c, m, s) && AllExited(s.workers) && c.workers > 0 && StageRank(s.stage) < 4
    requires i < |s.pc| && c.txs[i].kind == StageKind(s.stage)
    ensures s.pc[i].Finished?
  {
    assert s.workers[0] == Exited;
    assert Busy(i) !in s.workers;
    assert i !in s.queues.Of(c.txs[i].kind);
  }

  lemma NothingActive(c: Config, m: Mem, s: Local)
    requires SInv(c, m, s) && AllExited(s.workers)
    ensures forall i :: 0 <= i < |s.pc| ==> !Active(s.pc[i])
  {
    forall i | 0 <= i < |s.pc| ensures !Active(s.pc[i]) {
      assert Busy(i) !in s.workers;
    }
  }

  lemma AdvanceBarrier(c: Config, m: Mem, s: Local, s': Local)
    requires SInv(c, m, s) && AllExited(s.workers) && c.workers > 0
    requires StageRank(s.stage) < 4 && StageRank(s'.stage) == StageRank(s.stage) + 1 && s'.pc == s.pc
    ensures Barrier(c, s')
  {
    forall i | 0 <= i < |s.pc|
      ensures Rank(c.txs[i].kind) < StageRank(s'.stage) ==> s.pc[i].Finished?
    {
      if Rank(c.txs[i].kind) == StageRank(s.stage) {
        assert c.txs[i].kind == StageKind(s.stage);
        PhaseProcessed(c, m, s, i);
      }
    }
  }

  lemma AdvanceKeeps(c: Config, m: Mem, s: Local)
    requires ConfigOk(c) && SInv(c, m, s) && Grounded(c, m, s) && Enabled(c, m, s, Advance)
    requires !s.stage.DrainStage? && !s.stage.JoinStage?
    ensures var n := Next(c, m, s, Advance); SInv(c, n.0, n.1)
  {
    hide QueueInv, FifoInv, CountInv;
    var (m', s') := Next(c, m, s, Advance);
    assert StageRank(s'.stage) == StageRank(s.stage) + 1;
    assert m' == m && s'.pc == s.pc && s'.queues == s.queues && s'.next == s.next && s'.closed == s.closed;
    AdvanceBarrier(c, m, s, s');
    NothingActive(c, m, s);
    QueueFrame(c, s, s');
    assert ChannelInv(c, s');
    assert forall w :: 0 <= w < |s'.workers| ==> s'.workers[w].Idle? || s'.stage.JoinStage?;
    assert ExitInv(c, s') && BusyInv(c, s');
  }

  lemma DrainBusy(c: Config, s: Local, s': Local)
    requires |s.pc| == |c.txs| && BusyInv(c, s) && s'.pc == s.pc && StageKind(s'.stage) == StageKind(s.stage)
    requires |s'.workers| >= |s.workers| && s'.workers[..|s.workers|] == s.workers
    requires forall w :: |s.workers| <= w < |s'.workers| ==> s'.workers[w].Idle?
    ensures BusyInv(c, s')
    ensures Exited in s'.workers ==> Exited in s.workers
  {
    forall w | 0 <= w < |s.workers| ensures s'.workers[w] == s.workers[w] {
      assert s'.workers[w] == s'.workers[..|s.workers|][w];
    }
    forall j | 0 <= j < |s'.pc| && Active(s'.pc[j]) ensures Busy(j) in s'.workers {
      var v :| 0 <= v < |s.workers| && s.workers[v] == Busy(j);
      assert s'.workers[v] == Busy(j);
    }
  }

  lemma DrainKeeps(c: Config, m: Mem, s: Local)
    requires ConfigOk(c) && SInv(c, m, s) && Grounded(c, m, s) && Enabled(c, m, s, Advance)
    requires s.stage.DrainStage? || s.stage.JoinStage?
    ensures var n := Next(c, m, s, Advance); SInv(c, n.0, n.1)
  {
    var (m', s') := AdvanceStep(c, m, s);
    DrainFacts(c, m, s);
    DrainShape(c, m, s, m', s');
  }

  lemma DrainFacts(c: Config, m: Mem, s: Local)
    requires c.workers > 0 && Grounded(c, m, s) && Enabled(c, m, s, Advance) && |s.workers| == (if s.stage.DrainStage? then 1 else c.workers)
    requires s.stage.DrainStage? || s.stage.JoinStage?
    ensures var (m', s') := AdvanceStep(c, m, s);
      && m'.notes == m.notes
      && s'.pc == s.pc && s'.queues == s.queues && s'.next == s.next && s'.closed == s.closed && s'.acct == s.acct
      && StageRank(s'.stage) == StageRank(s.stage) && StageKind(s'.stage) == StageKind(s.stage)
      && |s'.workers| == (if s'.stage.DrainStage? then 1 else c.workers)
      && |s'.workers| >= |s.workers| && s'.workers[..|s.workers|] == s.workers
      && (forall w :: |s.workers| <= w < |s'.workers| ==> s'.workers[w].Idle?)
      && (StageRank(s'.stage) == 4 ==> s'.workers == s.workers)
      && |s'.deferred| <= |s.deferred| && (s.stage.DrainStage? ==> s'.deferred == [] || s'.stage.DrainStage?)
      && (s.stage.JoinStage? ==> s'.deferred == s.deferred)
      && s'.trie == (if s'.stage.DoneStage? then Returned else s.trie) && (s'.stage.DoneStage? ==> s.trie.Signalling?)
      && (s.stage.JoinStage? <==> s'.stage.DoneStage?)
  {
  }

  lemma DrainShape(c: Config, m: Mem, s: Local, m': Mem, s': Local)
    requires SInv(c, m, s) && m'.notes == m.notes && !s.stage.DoneStage?
    requires s'.pc == s.pc && s'.queues == s.queues && s'.next == s.next && s'.closed == s.closed && s'.acct == s.acct
    requires StageRank(s'.stage) == StageRank(s.stage) && StageKind(s'.stage) == StageKind(s.stage)
    requires |s'.workers| == (if s'.stage.DrainStage? then 1 else c.workers)
    requires |s'.workers| >= |s.workers| && s'.workers[..|s.workers|] == s.workers
    requires forall w :: |s.workers| <= w < |s'.workers| ==> s'.workers[w].Idle?
    requires StageRank(s'.stage) == 4 ==> s'.workers == s.workers
    requires |s'.deferred| <= |s.deferred| && (s'.deferred == [] || s'.stage.DrainStage?)
    requires s'.trie == (if s'.stage.DoneStage? then Returned else s.trie) && (s'.stage.DoneStage? ==> s.trie.Signalling?)
    requires s.stage.JoinStage? <==> s'.stage.DoneStage?
    ensures SInv(c, m', s')
  {
    DrainBusy(c, s, s');
    QueueFrame(c, s, s');
    assert ExitInv(c, s');
    assert Barrier(c, s') && ShapeInv(c, m', s') && ChannelInv(c, s');
  }

  lemma StepKeeps(c: Config, m: Mem, s: Local, a: Action)
    requires ConfigOk(c) && MemOk(m) && SInv(c, m, s) && Grounded(c, m, s) && Enabled(c, m, s, a)
    ensures var n := Next(c, m, s, a); SInv(c, n.0, n.1) && MemOk(n.0) && |m.notes| <= |n.0.notes|
  {
    match a
    case Dispatch => DispatchKeeps(c, m, s);
    case Close => CloseKeeps(c, m, s);
    case Advance => if s.stage.DrainStage? || s.stage.JoinStage? { DrainKeeps(c, m, s); } else { AdvanceKeeps(c, m, s); }
    case Trie => TrieKeeps(c, m, s);
    case Work(w) =>
      if s.workers[w].Busy? {
        BusyKeeps(c, m, s, w);
      } else if s.queues.Of(StageKind(s.stage)) != [] {
        ReceiveKeeps(c, m, s, w);
      } else {
        ExitKeeps(c, m, s, w);
      }
  }
}
