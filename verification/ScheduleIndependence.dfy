/** When the schedule can make a difference: the complete runs of a block agree with each other exactly when no
    note that a split of the block produces is at hazard in a ledger of several workers. */
module ScheduleIndependence {
  import opened BanknoteTypes
  import opened Lifecycle
  import opened Accounts
  import opened LedgerMachine
  import opened Schedule
  import opened Progress
  import opened PoolInvariant
  import opened LedgerInvariant
  import opened BlockMachine
  import opened BlockBody
  import opened BlockOutcome
  import opened PhaseTheorem
  import opened CrossLedger

  // A split that missed its source

  /** The split got nothing from the pool, so it never removes its source at once. */
  predicate Missed(p: Pc) { p.Absent? || HasDeferred(p) }

  lemma StepMissed(c: Config, m: Mem, s: Local, a: Action, j: nat)
    requires Grounded(c, m, s) && Enabled(c, m, s, a) && QueueInv(c, s)
    requires j < |c.txs| && c.txs[j].kind.BS? && Missed(s.pc[j])
    ensures var s' := Next(c, m, s, a).1; |s'.pc| == |c.txs| && Missed(s'.pc[j])
  {
    if a.Work? && s.workers[a.w].Idle? {
      var q := s.queues.Of(StageKind(s.stage));
      if q != [] { assert s.pc[q[0]].Waiting?; }
    }
  }

  lemma {:induction false} RunMissed(cs: seq<Config>, b: Block, moves: seq<Move>, l: nat, j: nat)
    requires ConfigsOk(cs) && BlockSched(cs, b) && IsRun(cs, b, moves)
    requires l < |cs| && j < |cs[l].txs| == |b.ledgers[l].pc| && cs[l].txs[j].kind.BS? && Missed(b.ledgers[l].pc[j])
    ensures var b' := RunTo(cs, b, moves);
      |b'.ledgers| == |cs| && |b'.ledgers[l].pc| == |cs[l].txs| && Missed(b'.ledgers[l].pc[j])
    decreases |moves|
  {
    if moves != [] {
      var mv := moves[0];
      MoveSched(cs, b, mv);
      if mv.ledger == l { StepMissed(cs[l], b.mem, b.ledgers[l], mv.action, j); }
      hide Missed;
      RunMissed(cs, DoMove(cs, b, mv), moves[1..], l, j);
    }
  }

  // A run in which the split of a note overtakes the split that produces it

  /** All splits are queued and none has started. */
  ghost predicate SplitsQueued(c: Config, s: Local) {
    && |s.pc| == |c.txs| && s.stage.SplitStage? && s.next == |c.txs| && |s.workers| == c.workers
    && (forall w :: 0 <= w < |s.workers| ==> s.workers[w].Idle?)
    && forall i :: 0 <= i < |c.txs| && c.txs[i].kind.BS? ==> s.pc[i].Waiting?
  }

  lemma MintStep(c: Config, m: Mem, s: Local, a: Action)
    requires ConfigOk(c) && SInv(c, m, s) && Grounded(c, m, s) && Enabled(c, m, s, a) && s.stage.MintStage?
    ensures var s' := Next(c, m, s, a).1; s'.stage.MintStage? || SplitsQueued(c, s')
  {
    if a.Advance? {
      assert s.workers[0] in s.workers;
    }
  }

  /** The second worker is to receive the split `i` and then to stand still; meanwhile the first worker takes all
      other splits, and has not yet looked for the source of `j`. */
  ghost predicate Stalled(c: Config, s: Local, i: nat, j: nat) {
    && |s.pc| == |c.txs| && i < |c.txs| && j < |c.txs| && s.stage.SplitStage? && s.next == |c.txs| && |s.workers| > 1
    && !s.workers[0].Exited? && (forall w :: 2 <= w < |s.workers| ==> s.workers[w].Idle?)
    && ((s.workers[1].Idle? && s.pc[i].Waiting?) || (s.workers[1] == Busy(i) && s.pc[i].Received?))
    && (s.pc[j].Waiting? || s.pc[j].Received?)
  }

  lemma QueuedStalled(c: Config, s: Local, i: nat, j: nat)
    requires SplitsQueued(c, s) && c.workers > 1 && i < |c.txs| && j < |c.txs| && c.txs[i].kind.BS? && c.txs[j].kind.BS?
    ensures Stalled(c, s, i, j)
  {
  }

  /** One step of a worker that is at a split. */
  lemma SplitterStep(c: Config, m: Mem, s: Local, w: nat)
    requires Grounded(c, m, s) && Enabled(c, m, s, Work(w)) && MemOk(m) && s.workers[w].Busy? && c.txs[s.workers[w].i].kind.BS?
    ensures var k := s.workers[w].i;
      var p, s' := TxStep(c.txs[k], s.pc[k], m).pc, Next(c, m, s, Work(w)).1;
      && k < |s.pc| && s'.pc == s.pc[k := p] && s'.stage == s.stage && s'.next == s.next
      && s'.workers == (if p.Finished? then s.workers[w := Idle] else s.workers)
      && (s.pc[k].Received? && c.txs[k].note !in m.pool ==> p.Absent?)
  {
  }

  /** A deferred source finds room while some split has not deferred its own. */
  lemma SplitHasRoom(c: Config, m: Mem, s: Local, i: nat, w: nat)
    requires SInv(c, m, s) && Grounded(c, m, s) && Fits(c) && s.stage.SplitStage? && w < |s.workers| && s.workers[w].Busy?
    requires i < |c.txs| && c.txs[i].kind.BS? && !HasDeferred(s.pc[i])
    ensures Enabled(c, m, s, Work(w)) && c.txs[s.workers[w].i].kind.BS?
  {
    CountDeferredBound(c.txs, s.pc, i);
    BusyKind(c, s, w);
  }

  /** The first worker goes on with its split. */
  lemma FirstWorks(c: Config, m: Mem, s: Local, i: nat, j: nat)
    requires ConfigOk(c) && SInv(c, m, s) && Grounded(c, m, s) && MemOk(m) && Fits(c) && Stalled(c, s, i, j) && i != j
    requires c.txs[i].kind.BS? && c.txs[j].kind.BS? && c.txs[j].note !in m.pool && s.workers[0].Busy?
    ensures Enabled(c, m, s, Work(0))
    ensures var s' := Next(c, m, s, Work(0)).1; Stalled(c, s', i, j) || (|s'.pc| == |c.txs| && Missed(s'.pc[j]))
  {
    hide SInv, Fits, Grounded, TxStep, Next, Enabled, MemOk;
    SplitHasRoom(c, m, s, i, 0);
    SplitterStep(c, m, s, 0);
    BusyActive(c, m, s);
  }

  lemma BusyActive(c: Config, m: Mem, s: Local)
    requires SInv(c, m, s) && |s.workers| > 1 && s.workers[0].Busy?
    ensures s.workers[0].i < |s.pc| && Active(s.pc[s.workers[0].i])
    ensures s.workers[1].Busy? ==> s.workers[1].i != s.workers[0].i
  {
    hide QueueInv, FifoInv, ExitInv, CountInv, ChannelInv, Barrier;
  }

  /** Some split is queued while `j` is not yet received. */
  lemma QueueLeft(c: Config, m: Mem, s: Local, i: nat, j: nat)
    requires SInv(c, m, s) && Stalled(c, s, i, j) && i != j && c.txs[j].kind.BS? && s.workers[0].Idle?
    ensures var q := s.queues.Of(BS); q != [] && q[0] < |s.pc| && s.pc[q[0]].Waiting?
  {
    hide FifoInv, ExitInv, CountInv, ChannelInv, Barrier, ShapeInv;
    assert Busy(j) !in s.workers;
    assert !Active(s.pc[j]) by { hide QueueInv; }
    hide BusyInv;
    assert j in s.queues.Of(BS);
  }

  lemma Receive(c: Config, m: Mem, s: Local, w: nat)
    requires Grounded(c, m, s) && s.stage.SplitStage? && w < |s.workers| && s.workers[w].Idle? && s.queues.Of(BS) != []
    ensures Enabled(c, m, s, Work(w))
    ensures var i, s' := s.queues.Of(BS)[0], Next(c, m, s, Work(w)).1;
      && i < |s.pc| && s'.pc == s.pc[i := Received] && s'.workers == s.workers[w := Busy(i)]
      && s'.stage == s.stage && s'.next == s.next
  {
  }

  /** Until the split `j` has missed its source there is a step that leaves the worker of `i` where it is. */
  lemma StallStep(c: Config, m: Mem, s: Local, i: nat, j: nat) returns (a: Action)
    requires ConfigOk(c) && SInv(c, m, s) && Grounded(c, m, s) && MemOk(m) && Fits(c) && Stalled(c, s, i, j) && i != j
    requires c.txs[i].kind.BS? && c.txs[j].kind.BS? && c.txs[j].note !in m.pool
    ensures Enabled(c, m, s, a)
    ensures var s' := Next(c, m, s, a).1; Stalled(c, s', i, j) || (|s'.pc| == |c.txs| && Missed(s'.pc[j]))
  {
    hide SInv, Fits, Grounded, Next, Enabled, MemOk;
    if s.workers[0].Busy? {
      FirstWorks(c, m, s, i, j);
      a := Work(0);
    } else {
      QueueLeft(c, m, s, i, j);
      var w := if s.queues.Of(BS)[0] == i then 1 else 0;
      Receive(c, m, s, w);
      a := Work(w);
    }
  }

  /** A note is not in the pool before the split that produces it stores it. */
  lemma NotYetStored(v: View, txs: seq<BanknoteTx>, m: Mem, pc: seq<Pc>, waiting: set<Hash>, drained: set<Hash>, i: nat, h: Hash)
    requires FreshOutputs(v, txs) && PoolInv(v, txs, m, pc, waiting, drained, 1) && TouchedBy(txs, h)
    requires i < |txs| && Produces(txs[i], h) && !StoredAt(txs[i], pc[i], h)
    ensures h !in m.pool
  {
    assert txs[i] in txs && FreshOutput(v, txs[i]);
    forall j | 0 <= j < |txs| ensures !StoredAt(txs[j], pc[j], h) {
      if j != i { PairApart(v, txs, i, j); }
      assert StoredAt(txs[j], pc[j], h) ==> Produces(txs[j], h);
    }
    EarlyPhases(v, txs, m, pc, waiting, drained, 1, h);
    assert HashInv(v, txs, m, pc, drained, h);
  }

  /** Everything known of a reachable state in which ledger `l` has not yet let `j` look for its source. */
  ghost predicate Overtaking(ledgers: nat, batch: seq<BanknoteTx>, cs: seq<Config>, v: View, sts: seq<StateTrie>, b: Block, l: nat, i: nat, j: nat)
    requires ledgers > 0
  {
    && Steady(cs, b) && BlockInv(ledgers, batch, cs, v, sts, b) && l < |cs|
    && (b.ledgers[l].stage.MintStage? || Stalled(cs[l], b.ledgers[l], i, j))
  }

  /** The split `i` of ledger `l` produces the source of its split `j`. */
  ghost predicate Feeds(cs: seq<Config>, l: nat, i: nat, j: nat, h: Hash) {
    && l < |cs| && i < |cs[l].txs| && j < |cs[l].txs| && i != j && cs[l].workers > 1 && Fits(cs[l])
    && cs[l].txs[i].kind.BS? && cs[l].txs[j].kind.BS? && Produces(cs[l].txs[i], h) && cs[l].txs[j].note == h
  }

  /** The next move towards a missed source. */
  lemma OvertakingMove(ledgers: nat, batch: seq<BanknoteTx>, cs: seq<Config>, v: View, sts: seq<StateTrie>, b: Block, l: nat, i: nat, j: nat, h: Hash)
    returns (mv: Move)
    requires ledgers > 0 && Executes(ledgers, batch, cs) && FreshOutputs(v, batch)
    requires Overtaking(ledgers, batch, cs, v, sts, b, l, i, j) && Feeds(cs, l, i, j, h)
    ensures mv.ledger == l && CanMove(cs, b, mv)
    ensures var s' := DoMove(cs, b, mv).ledgers[l];
      s'.stage.MintStage? || Stalled(cs[l], s', i, j) || (|s'.pc| == |cs[l].txs| && Missed(s'.pc[j]))
  {
    var c, s := cs[l], b.ledgers[l];
    if s.stage.MintStage? {
      mv := LedgerMove(cs, b, l);
      MintMove(cs, b, mv);
      if SplitsQueued(c, DoMove(cs, b, mv).ledgers[l]) { QueuedStalled(c, DoMove(cs, b, mv).ledgers[l], i, j); }
    } else {
      AbsentSource(ledgers, batch, cs, v, sts, b, l, i, j, h);
      StallFacts(cs, b, l);
      var a := StallStep(c, b.mem, s, i, j);
      mv := Move(l, a);
    }
  }

  lemma MintMove(cs: seq<Config>, b: Block, mv: Move)
    requires Steady(cs, b) && CanMove(cs, b, mv) && b.ledgers[mv.ledger].stage.MintStage?
    ensures var s' := DoMove(cs, b, mv).ledgers[mv.ledger]; s'.stage.MintStage? || SplitsQueued(cs[mv.ledger], s')
  {
    MintStep(cs[mv.ledger], b.mem, b.ledgers[mv.ledger], mv.action);
  }

  lemma StallFacts(cs: seq<Config>, b: Block, l: nat)
    requires Steady(cs, b) && l < |cs|
    ensures |b.ledgers| == |cs| && ConfigOk(cs[l]) && SInv(cs[l], b.mem, b.ledgers[l]) && MemOk(b.mem)
    ensures Grounded(cs[l], b.mem, b.ledgers[l])
  {
    SInvGrounded(cs[l], b.mem, b.ledgers[l]);
  }

  lemma AbsentSource(ledgers: nat, batch: seq<BanknoteTx>, cs: seq<Config>, v: View, sts: seq<StateTrie>, b: Block, l: nat, i: nat, j: nat, h: Hash)
    requires ledgers > 0 && Executes(ledgers, batch, cs) && FreshOutputs(v, batch) && BlockInv(ledgers, batch, cs, v, sts, b)
    requires Feeds(cs, l, i, j, h) && Stalled(cs[l], b.ledgers[l], i, j)
    ensures h !in b.mem.pool
  {
    hide LedgerInv, BlockInv, FreshOutputs, PoolInv;
    LedgerAt(ledgers, batch, cs, v, sts, b, l);
    var c, s := cs[l], b.ledgers[l];
    PoolAt(c, v, sts[l], b.mem, s);
    PartFresh(ledgers, batch, l, v);
    assert c.txs[i] in c.txs && Touches(c.txs[i], h) && !StoredAt(c.txs[i], s.pc[i], h);
    NotYetStored(v, c.txs, b.mem, s.pc, WaitingOf(s), s.drained, i, h);
  }

  lemma LedgerAt(ledgers: nat, batch: seq<BanknoteTx>, cs: seq<Config>, v: View, sts: seq<StateTrie>, b: Block, l: nat)
    requires ledgers > 0 && Executes(ledgers, batch, cs) && BlockInv(ledgers, batch, cs, v, sts, b) && l < |cs|
    ensures |b.ledgers| == |cs| == |sts| && LedgerInv(cs[l], v, sts[l], b.mem, b.ledgers[l])
  {
    hide LedgerInv;
  }

  lemma PoolAt(c: Config, v: View, st0: StateTrie, m: Mem, s: Local)
    requires LedgerInv(c, v, st0, m, s)
    ensures PoolInv(v, c.txs, m, s.pc, WaitingOf(s), s.drained, StageRank(s.stage)) && MemOk(m)
  {
    hide HashInv, PcInv, RankOk, WaitingInv, SInv;
  }

  /** A run at whose end the split `j` has missed its source. */
  lemma {:induction false} RunToMiss(ledgers: nat, batch: seq<BanknoteTx>, cs: seq<Config>, v: View, sts: seq<StateTrie>, b: Block, l: nat, i: nat, j: nat, h: Hash)
    returns (moves: seq<Move>)
    requires ledgers > 0 && Executes(ledgers, batch, cs) && FreshOutputs(v, batch) && OneLedgerPerNote(ledgers, batch)
    requires Feeds(cs, l, i, j, h) && Steady(cs, b) && BlockInv(ledgers, batch, cs, v, sts, b)
    requires Overtaking(ledgers, batch, cs, v, sts, b, l, i, j) || (|b.ledgers[l].pc| == |cs[l].txs| && Missed(b.ledgers[l].pc[j]))
    requires |b.ledgers| == |cs| && forall k :: 0 <= k < |cs| ==> InRange(cs[k], b.ledgers[k])
    ensures IsRun(cs, b, moves)
    ensures var b' := RunTo(cs, b, moves);
      Steady(cs, b') && |b'.ledgers| == |cs| && |b'.ledgers[l].pc| == |cs[l].txs| && Missed(b'.ledgers[l].pc[j])
    decreases TotalMeasure(cs, b.ledgers)
  {
    if |b.ledgers[l].pc| == |cs[l].txs| && Missed(b.ledgers[l].pc[j]) {
      moves := [];
    } else {
      var mv := OvertakingMove(ledgers, batch, cs, v, sts, b, l, i, j, h);
      MoveSteady(cs, b, mv);
      MoveLess(cs, b, mv);
      MoveInv(ledgers, batch, cs, v, sts, b, mv);
      hide Steady, BlockInv, Stalled, Missed, CanMove, DoMove, Executes, FreshOutputs, OneLedgerPerNote, Feeds, InRange, TotalMeasure;
      var rest := RunToMiss(ledgers, batch, cs, v, sts, DoMove(cs, b, mv), l, i, j, h);
      moves := [mv] + rest;
      assert moves[1..] == rest;
    }
  }

  lemma MoveLess(cs: seq<Config>, b: Block, mv: Move)
    requires Steady(cs, b) && CanMove(cs, b, mv)
    ensures forall k :: 0 <= k < |cs| ==> InRange(cs[k], b.ledgers[k]) && InRange(cs[k], DoMove(cs, b, mv).ledgers[k])
    ensures |DoMove(cs, b, mv).ledgers| == |cs| && TotalMeasure(cs, DoMove(cs, b, mv).ledgers) < TotalMeasure(cs, b.ledgers)
  {
    MoveDecreases(cs, b, mv);
  }

  /** The ledgers can be run to their ends, first all others and then `l`. */
  lemma RunToEnd(cs: seq<Config>, b: Block, l: nat) returns (moves: seq<Move>)
    requires Steady(cs, b) && l < |cs| == |b.ledgers| && forall k :: 0 <= k < |cs| ==> Fits(cs[k])
    ensures IsRun(cs, b, moves) && AllDone(RunTo(cs, b, moves))
  {
    hide Steady, Fits, IsRun, RunTo;
    var first := RunOthers(cs, b, l, |cs|);
    SteadyRange(cs, RunTo(cs, b, first));
    var second := RunAlone(cs, RunTo(cs, b, first), l);
    RunOn(cs, b, first, second);
    moves := first + second;
  }

  /** A split that overtakes the split that produces its source: a complete run in which it misses it. */
  lemma OvertakingRun(ledgers: nat, batch: seq<BanknoteTx>, cs: seq<Config>, m: Mem, sts: seq<StateTrie>, l: nat, i: nat, j: nat, h: Hash)
    returns (moves: seq<Move>)
    requires ledgers > 0 && Executes(ledgers, batch, cs) && OneLedgerPerNote(ledgers, batch) && MemOk(m) && |sts| == |cs|
    requires FreshOutputs(ViewOf(m), batch) && Feeds(cs, l, i, j, h) && forall k :: 0 <= k < |cs| ==> Fits(cs[k])
    ensures Completes(cs, m, sts, moves)
    ensures var s := Final(cs, m, sts, moves).ledgers; |s| == |cs| && |s[l].pc| == |cs[l].txs| && Missed(s[l].pc[j])
  {
    var b0 := StartBlock(cs, m, sts);
    StartInv(ledgers, batch, cs, m, sts);
    StartAt(cs, m, sts, l);
    hide Steady, BlockInv, Fits, IsRun, RunTo, Executes, FreshOutputs, OneLedgerPerNote, StartBlock;
    var first := RunToMiss(ledgers, batch, cs, ViewOf(m), sts, b0, l, i, j, h);
    var b1 := RunTo(cs, b0, first);
    var second := RunToEnd(cs, b1, l);
    MissedFromHere(cs, b1, second, l, j);
    RunOn(cs, b0, first, second);
    moves := first + second;
  }

  lemma MissedFromHere(cs: seq<Config>, b: Block, moves: seq<Move>, l: nat, j: nat)
    requires Steady(cs, b) && IsRun(cs, b, moves) && l < |cs| && j < |cs[l].txs| && cs[l].txs[j].kind.BS?
    requires |b.ledgers| == |cs| && |b.ledgers[l].pc| == |cs[l].txs| && Missed(b.ledgers[l].pc[j])
    ensures var b' := RunTo(cs, b, moves); |b'.ledgers| == |cs| && |b'.ledgers[l].pc| == |cs[l].txs| && Missed(b'.ledgers[l].pc[j])
  {
    RunMissed(cs, b, moves, l, j);
  }

  // A ledger of one worker

  /** What a ledger of one worker keeps: it processes its splits one after the other, and finds their sources. */
  ghost predicate SplitsFound(c: Config, v: View, s: Local) {
    OneBusy(s) && SplitsInOrder(c, s) && FoundInv(v, c.txs, s.pc)
  }

  lemma OneWorkerStep(c: Config, v: View, st0: StateTrie, m: Mem, s: Local, a: Action)
    requires ConfigOk(c) && MemOk(m) && LedgerInv(c, v, st0, m, s) && Grounded(c, m, s) && Enabled(c, m, s, a)
    requires c.workers == 1 && LifecycleRespecting(v, c.txs) && SplitsFound(c, v, s)
    ensures SplitsFound(c, v, Next(c, m, s, a).1)
  {
    hide PoolInv, LifecycleRespecting, FoundInv, Next, Enabled, Grounded, OneBusy, SplitsInOrder;
    FoundLedgerStep(c, v, m, s, a);
    assert |s.workers| == (if s.stage.DrainStage? then 1 else c.workers) && SInv(c, m, s);
    hide LedgerInv, SInv;
    SerialStep(c, m, s, a);
  }

  lemma {:induction false} RunOneByOne(ledgers: nat, batch: seq<BanknoteTx>, cs: seq<Config>, v: View, sts: seq<StateTrie>, b: Block, moves: seq<Move>, l: nat)
    requires ledgers > 0 && Executes(ledgers, batch, cs) && LifecycleRespecting(v, batch) && OneLedgerPerNote(ledgers, batch)
    requires BlockInv(ledgers, batch, cs, v, sts, b) && IsRun(cs, b, moves) && l < |cs| && cs[l].workers == 1
    requires SplitsFound(cs[l], v, b.ledgers[l])
    ensures |RunTo(cs, b, moves).ledgers| == |cs| && SplitsFound(cs[l], v, RunTo(cs, b, moves).ledgers[l])
    decreases |moves|
  {
    if moves != [] {
      var mv := moves[0];
      LifecycleOrderFree(v, batch);
      OrderFreeFresh(v, batch);
      MoveInv(ledgers, batch, cs, v, sts, b, mv);
      if mv.ledger == l {
        PartLifecycle(ledgers, batch, l, v);
        OneWorkerStep(cs[l], v, sts[l], b.mem, b.ledgers[l], mv.action);
      }
      hide SplitsFound, LifecycleRespecting, FreshOutputs, OrderFree, OneLedgerPerNote, LedgerInv;
      RunOneByOne(ledgers, batch, cs, v, sts, DoMove(cs, b, mv), moves[1..], l);
    }
  }

  /** A hazard in a ledger of one worker shows in every run. */
  lemma OneWorkerHazardShows(ledgers: nat, batch: seq<BanknoteTx>, cs: seq<Config>, m: Mem, sts: seq<StateTrie>, moves: seq<Move>, t: BanknoteTx, h: Hash)
    requires ledgers > 0 && Executes(ledgers, batch, cs) && OneLedgerPerNote(ledgers, batch) && MemOk(m) && |sts| == |cs|
    requires LifecycleRespecting(ViewOf(m), batch) && Hazard(ViewOf(m), batch, h) && Completes(cs, m, sts, moves)
    requires t in batch && t.kind.BS? && Consumes(t, h) && cs[GetLedgerHashByID(ledgers, t.txHash)].workers == 1
    ensures GhostNote(cs, Final(cs, m, sts, moves), h)
  {
    var v, b := ViewOf(m), Final(cs, m, sts, moves);
    var l := GetLedgerHashByID(ledgers, t.txHash);
    assert Touches(t, h);
    PartAgrees(ledgers, batch, t, h);
    SameTouching(v, cs[l].txs, batch, h);
    LifecycleOrderFree(v, batch);
    OrderFreeFresh(v, batch);
    FinalInv(ledgers, batch, cs, m, sts, moves);
    StartSerial(ledgers, batch, cs, m, sts);
    NothingYet(cs[l], v, sts[l]);
    RunOneByOne(ledgers, batch, cs, v, sts, StartBlock(cs, m, sts), moves, l);
    FoundGone(cs[l], v, sts[l], b.mem, b.ledgers[l], h);
    assert GhostIn(cs[l], b.ledgers[l], h);
  }

  // The theorem

  /** A note at hazard that only a split of the block brings into circulation, and that is split in a ledger of
      several workers: then it is for the schedule to say whether the split finds the note. */
  ghost predicate Race(ledgers: nat, batch: seq<BanknoteTx>, cs: seq<Config>, v: View, h: Hash)
    requires ledgers > 0 && |cs| == ledgers
  {
    && Hazard(v, batch, h) && !EarlyBorn(v, batch, h)
    && exists t :: t in batch && t.kind.BS? && Consumes(t, h) && cs[GetLedgerHashByID(ledgers, t.txHash)].workers > 1
  }

  ghost predicate EndAlike(cs: seq<Config>, m: Mem, sts: seq<StateTrie>, moves1: seq<Move>, moves2: seq<Move>)
    requires |sts| == |cs| && Completes(cs, m, sts, moves1) && Completes(cs, m, sts, moves2)
  {
    var m1, m2 := Final(cs, m, sts, moves1).mem, Final(cs, m, sts, moves2).mem;
    MemOk(m1) && MemOk(m2) && SameNotes(ViewOf(m1), ViewOf(m2))
  }

  /** Where a race takes place: the ledger, the split that produces the note and the one that consumes it. */
  lemma RacePlace(ledgers: nat, batch: seq<BanknoteTx>, cs: seq<Config>, v: View, h: Hash) returns (l: nat, i: nat, j: nat)
    requires ledgers > 0 && Executes(ledgers, batch, cs) && OneLedgerPerNote(ledgers, batch) && OrderFree(v, batch)
    requires Race(ledgers, batch, cs, v, h) && forall k :: 0 <= k < |cs| ==> Fits(cs[k])
    ensures Feeds(cs, l, i, j, h)
  {
    hide OrderFree, OneLedgerPerNote, Fits, Race, Touches, Produces;
    var t, u := Racers(ledgers, batch, cs, v, h);
    l := GetLedgerHashByID(ledgers, t.txHash);
    var part := ActionTxs(ledgers, batch, l);
    assert cs[l].txs == part;
    hide Executes, ActionTxs, Consumes;
    j := PlaceIn(ledgers, batch, t, t, h);
    i := PlaceIn(ledgers, batch, t, u, h);
  }

  /** The split that consumes the note and the one that produces it. */
  lemma Racers(ledgers: nat, batch: seq<BanknoteTx>, cs: seq<Config>, v: View, h: Hash) returns (t: BanknoteTx, u: BanknoteTx)
    requires ledgers > 0 && |cs| == ledgers && OrderFree(v, batch) && Race(ledgers, batch, cs, v, h)
    ensures t in batch && t.kind.BS? && t.note == h && Touches(t, h) && cs[GetLedgerHashByID(ledgers, t.txHash)].workers > 1
    ensures u in batch && u.kind.BS? && Produces(u, h) && Touches(u, h) && u != t
  {
    t :| t in batch && t.kind.BS? && Consumes(t, h) && cs[GetLedgerHashByID(ledgers, t.txHash)].workers > 1;
    u := SplitProducer(batch, v, h);
    assert Sound(v, u) && !Consumes(u, h);
  }

  /** The position of a transaction on `h` in the part of the batch that holds another one on `h`. */
  lemma PlaceIn(ledgers: nat, batch: seq<BanknoteTx>, t: BanknoteTx, u: BanknoteTx, h: Hash) returns (i: nat)
    requires ledgers > 0 && OneLedgerPerNote(ledgers, batch) && t in batch && u in batch && Touches(t, h) && Touches(u, h)
    ensures var part := ActionTxs(ledgers, batch, GetLedgerHashByID(ledgers, t.txHash)); i < |part| && part[i] == u
  {
    PartAgrees(ledgers, batch, t, h);
    var part := ActionTxs(ledgers, batch, GetLedgerHashByID(ledgers, t.txHash));
    i :| 0 <= i < |part| && part[i] == u;
  }

  lemma SplitProducer(batch: seq<BanknoteTx>, v: View, h: Hash) returns (u: BanknoteTx)
    requires Hazard(v, batch, h) && !EarlyBorn(v, batch, h)
    ensures u in batch && u.kind.BS? && Produces(u, h)
  {
    u :| u in batch && Produces(u, h);
  }

  /** After a run in which the split missed its source, the note is gone. */
  lemma MissedGone(ledgers: nat, batch: seq<BanknoteTx>, cs: seq<Config>, v: View, sts: seq<StateTrie>, b: Block, l: nat, i: nat, j: nat, h: Hash)
    requires ledgers > 0 && Executes(ledgers, batch, cs) && OneLedgerPerNote(ledgers, batch) && OrderFree(v, batch) && Keyed(v)
    requires BlockInv(ledgers, batch, cs, v, sts, b) && AllDone(b) && Feeds(cs, l, i, j, h)
    requires |b.ledgers| == |cs| && |b.ledgers[l].pc| == |cs[l].txs| && Missed(b.ledgers[l].pc[j])
    ensures h !in b.mem.pool
  {
    hide OrderFree, BlockInv, OneLedgerPerNote, Executes, Feeds, AllDone, AnyGone, Consumed, Survives, Hazard, Missed;
    FeedsInPart(ledgers, batch, cs, l, i, j, h);
    PartOrderFree(ledgers, batch, l, v);
    MissedNoGhost(cs[l], v, b.ledgers[l], j, h);
    GhostElsewhere(ledgers, batch, cs, b, h, l);
    NoteOutcome(ledgers, batch, cs, v, sts, b, h);
    NotSurviving(v, batch, h);
  }

  lemma NotSurviving(v: View, batch: seq<BanknoteTx>, h: Hash)
    requires Consumed(batch, h)
    ensures !Survives(v, batch, h)
  {
  }

  lemma MissedNoGhost(c: Config, v: View, s: Local, j: nat, h: Hash)
    requires OrderFree(v, c.txs) && j < |c.txs| == |s.pc| && c.txs[j].kind.BS? && Consumes(c.txs[j], h) && Missed(s.pc[j])
    ensures !GhostIn(c, s, h)
  {
    NotGone(v, c.txs, s.pc, j, h);
  }

  lemma FeedsInPart(ledgers: nat, batch: seq<BanknoteTx>, cs: seq<Config>, l: nat, i: nat, j: nat, h: Hash)
    requires ledgers > 0 && Executes(ledgers, batch, cs) && Feeds(cs, l, i, j, h)
    ensures |cs| == ledgers && l < |cs| && cs[l].txs == ActionTxs(ledgers, batch, l) && TouchedBy(cs[l].txs, h)
    ensures j < |cs[l].txs| && cs[l].txs[j].kind.BS? && Consumes(cs[l].txs[j], h) && Consumed(batch, h)
  {
    assert cs[l].txs[j] in cs[l].txs && Touches(cs[l].txs[j], h);
  }

  /** A race has two ends: some complete run keeps the note, and some does not. */
  lemma RaceEnds(ledgers: nat, batch: seq<BanknoteTx>, cs: seq<Config>, m: Mem, sts: seq<StateTrie>, h: Hash)
    returns (moves1: seq<Move>, moves2: seq<Move>)
    requires ledgers > 0 && Executes(ledgers, batch, cs) && OneLedgerPerNote(ledgers, batch) && MemOk(m) && |sts| == |cs|
    requires LifecycleRespecting(ViewOf(m), batch) && Race(ledgers, batch, cs, ViewOf(m), h)
    requires forall l :: 0 <= l < |cs| ==> Fits(cs[l])
    ensures Completes(cs, m, sts, moves1) && h in Final(cs, m, sts, moves1).mem.pool
    ensures Completes(cs, m, sts, moves2) && h !in Final(cs, m, sts, moves2).mem.pool
  {
    var v := ViewOf(m);
    LifecycleOrderFree(v, batch);
    OrderFreeFresh(v, batch);
    var l, i, j := RacePlace(ledgers, batch, cs, v, h);
    hide LifecycleRespecting, OrderFree, FreshOutputs, OneLedgerPerNote, Executes, Fits, IsRun, RunTo, BlockInv, Feeds, Missed;
    moves1 := HazardRun(ledgers, batch, cs, m, sts, h);
    FinalInv(ledgers, batch, cs, m, sts, moves1);
    NoteOutcome(ledgers, batch, cs, v, sts, Final(cs, m, sts, moves1), h);
    moves2 := OvertakingRun(ledgers, batch, cs, m, sts, l, i, j, h);
    FinalInv(ledgers, batch, cs, m, sts, moves2);
    MissedGone(ledgers, batch, cs, v, sts, Final(cs, m, sts, moves2), l, i, j, h);
  }

  /** Without a race on `h`, whether a run leaves a ghost of `h` is settled before it starts. */
  lemma GhostSettled(ledgers: nat, batch: seq<BanknoteTx>, cs: seq<Config>, m: Mem, sts: seq<StateTrie>, moves: seq<Move>, h: Hash)
    requires ledgers > 0 && Executes(ledgers, batch, cs) && OneLedgerPerNote(ledgers, batch) && MemOk(m) && |sts| == |cs|
    requires LifecycleRespecting(ViewOf(m), batch) && Completes(cs, m, sts, moves) && !Race(ledgers, batch, cs, ViewOf(m), h)
    ensures GhostNote(cs, Final(cs, m, sts, moves), h) <==> Hazard(ViewOf(m), batch, h)
  {
    ConcurrentExactly(ledgers, batch, cs, m, sts, moves, h);
    LifecycleOrderFree(ViewOf(m), batch);
    if Hazard(ViewOf(m), batch, h) {
      if EarlyBorn(ViewOf(m), batch, h) {
        EarlyHazardAlwaysShows(ledgers, batch, cs, m, sts, moves, h);
      } else {
        var t :| t in batch && t.kind.BS? && Consumes(t, h);
        assert ConfigOk(cs[GetLedgerHashByID(ledgers, t.txHash)]);
        OneWorkerHazardShows(ledgers, batch, cs, m, sts, moves, t, h);
      }
    }
  }

  /** Without races, what a run leaves under `h` is settled before it starts. */
  lemma NoteSettled(ledgers: nat, batch: seq<BanknoteTx>, cs: seq<Config>, m: Mem, sts: seq<StateTrie>, moves: seq<Move>, h: Hash)
    requires ledgers > 0 && Executes(ledgers, batch, cs) && OneLedgerPerNote(ledgers, batch) && MemOk(m) && |sts| == |cs|
    requires LifecycleRespecting(ViewOf(m), batch) && Completes(cs, m, sts, moves) && !Race(ledgers, batch, cs, ViewOf(m), h)
    ensures var m', log := Final(cs, m, sts, moves).mem, RunLog(ViewOf(m), batch);
      && MemOk(m')
      && (h in ViewOf(m') <==> h in log || Hazard(ViewOf(m), batch, h))
      && (h in ViewOf(m') ==> ViewOf(m')[h].hash == h && ViewOf(m')[h].value == if h in log then log[h].value else INIT_NOTE_VALUE)
  {
    GhostSettled(ledgers, batch, cs, m, sts, moves, h);
    ConcurrentExactly(ledgers, batch, cs, m, sts, moves, h);
    LifecycleOrderFree(ViewOf(m), batch);
    OrderFreeFresh(ViewOf(m), batch);
    FinalInv(ledgers, batch, cs, m, sts, moves);
    NoteOutcome(ledgers, batch, cs, ViewOf(m), sts, Final(cs, m, sts, moves), h);
  }

  /** All complete runs of a block leave the same notes at the same values exactly when there is no race. */
  lemma RunsAgreeIffNoRace(ledgers: nat, batch: seq<BanknoteTx>, cs: seq<Config>, m: Mem, sts: seq<StateTrie>)
    requires ledgers > 0 && Executes(ledgers, batch, cs) && OneLedgerPerNote(ledgers, batch) && MemOk(m) && |sts| == |cs|
    requires LifecycleRespecting(ViewOf(m), batch)
    requires forall l :: 0 <= l < |cs| ==> Fits(cs[l])
    ensures (forall h :: !Race(ledgers, batch, cs, ViewOf(m), h)) <==>
      forall moves1, moves2 :: Completes(cs, m, sts, moves1) && Completes(cs, m, sts, moves2) ==> EndAlike(cs, m, sts, moves1, moves2)
  {
    assert |cs| == ledgers;
    hide LifecycleRespecting, OneLedgerPerNote, Executes, Fits, Completes, Final, RunLog, Hazard, Race;
    if h :| Race(ledgers, batch, cs, ViewOf(m), h) {
      var moves1, moves2 := RaceEnds(ledgers, batch, cs, m, sts, h);
      Differ(cs, m, sts, moves1, moves2, h);
    } else {
      forall moves1, moves2 | Completes(cs, m, sts, moves1) && Completes(cs, m, sts, moves2)
        ensures EndAlike(cs, m, sts, moves1, moves2)
      {
        NoRaceAlike(ledgers, batch, cs, m, sts, moves1, moves2);
      }
    }
  }

  lemma NoRaceAlike(ledgers: nat, batch: seq<BanknoteTx>, cs: seq<Config>, m: Mem, sts: seq<StateTrie>, moves1: seq<Move>, moves2: seq<Move>)
    requires ledgers > 0 && Executes(ledgers, batch, cs) && OneLedgerPerNote(ledgers, batch) && MemOk(m) && |sts| == |cs|
    requires LifecycleRespecting(ViewOf(m), batch) && forall h :: !Race(ledgers, batch, cs, ViewOf(m), h)
    requires Completes(cs, m, sts, moves1) && Completes(cs, m, sts, moves2)
    ensures EndAlike(cs, m, sts, moves1, moves2)
  {
    hide LifecycleRespecting, OneLedgerPerNote, Executes, IsRun, RunTo, RunLog, Hazard, Race;
    NoteSettled(ledgers, batch, cs, m, sts, moves1, 0);
    NoteSettled(ledgers, batch, cs, m, sts, moves2, 0);
    var w1, w2 := ViewOf(Final(cs, m, sts, moves1).mem), ViewOf(Final(cs, m, sts, moves2).mem);
    forall h
      ensures h in w1 <==> h in w2
      ensures h in w1 ==> w1[h].hash == w2[h].hash && w1[h].value == w2[h].value
    {
      NoteSettled(ledgers, batch, cs, m, sts, moves1, h);
      NoteSettled(ledgers, batch, cs, m, sts, moves2, h);
    }
    assert w1.Keys == w2.Keys;
  }

  lemma Differ(cs: seq<Config>, m: Mem, sts: seq<StateTrie>, moves1: seq<Move>, moves2: seq<Move>, h: Hash)
    requires |sts| == |cs| && Completes(cs, m, sts, moves1) && Completes(cs, m, sts, moves2)
    requires h in Final(cs, m, sts, moves1).mem.pool && h !in Final(cs, m, sts, moves2).mem.pool
    ensures !EndAlike(cs, m, sts, moves1, moves2)
  {
    hide IsRun, RunTo;
    var m1, m2 := Final(cs, m, sts, moves1).mem, Final(cs, m, sts, moves2).mem;
    if MemOk(m1) && MemOk(m2) { assert h in ViewOf(m1).Keys && h !in ViewOf(m2).Keys; }
  }

  // A race, concretely

  /** A note in the pool is split into a note of the initial value, which is transferred and split in turn. */
  const RACE_POOL: Mem := Mem([Note(9, INIT_NOTE_VALUE + 5, 5)], map[9 := 0])

  const RACE_BATCH: seq<BanknoteTx> := [
    BanknoteTx(10, BS, 5, 6, 9, INIT_NOTE_VALUE + 5, 8, 5, 1, INIT_NOTE_VALUE),
    BanknoteTx(11, BT, ZERO_ADDRESS, 7, 1, INIT_NOTE_VALUE, 0, 0, 0, 0),
    BanknoteTx(12, BS, 7, 7, 1, INIT_NOTE_VALUE, 2, 40, 3, INIT_NOTE_VALUE - 40)]

  lemma RaceBatch()
    ensures MemOk(RACE_POOL) && LifecycleRespecting(ViewOf(RACE_POOL), RACE_BATCH) && OneLedgerPerNote(1, RACE_BATCH)
    ensures forall h :: Hazard(ViewOf(RACE_POOL), RACE_BATCH, h) <==> h == 1
    ensures !EarlyBorn(ViewOf(RACE_POOL), RACE_BATCH, 1)
    ensures RACE_BATCH[2] in RACE_BATCH && Consumes(RACE_BATCH[2], 1)
    ensures forall t :: t in RACE_BATCH ==> !t.kind.NT?
  {
    var v, t, u, w := ViewOf(RACE_POOL), RACE_BATCH[0], RACE_BATCH[1], RACE_BATCH[2];
    assert t in RACE_BATCH && u in RACE_BATCH && w in RACE_BATCH;
    assert Produces(t, 1) && Revives(u, 1) && Consumes(w, 1);
    assert Sound(v, t) && Sound(v, u) && Sound(v, w);
    assert Related(t, u) && Related(t, w) && Related(u, w);
  }

  lemma CountThree(t: BanknoteTx, u: BanknoteTx, w: BanknoteTx, k: TxType)
    ensures CountKind([t, u, w], k) ==
            (if t.kind == k then 1 else 0) + (if u.kind == k then 1 else 0) + if w.kind == k then 1 else 0
  {
    assert [t, u, w][..2] == [t, u] && [t, u][..1] == [t] && [t][..0] == [];
    assert CountKind([t], k) == if t.kind == k then 1 else 0;
  }

  lemma RaceFits(c: Config)
    requires c.txs == RACE_BATCH && c.chanSize == 2
    ensures Fits(c)
  {
    assert RACE_BATCH == [RACE_BATCH[0], RACE_BATCH[1], RACE_BATCH[2]];
    forall k ensures CountKind(c.txs, k) <= 2 {
      CountThree(RACE_BATCH[0], RACE_BATCH[1], RACE_BATCH[2], k);
    }
  }

  lemma RaceWhen(cs: seq<Config>)
    requires |cs| == 1 && cs[0].workers > 0
    ensures (forall h :: !Race(1, RACE_BATCH, cs, ViewOf(RACE_POOL), h)) <==> cs[0].workers == 1
  {
    RaceBatch();
    hide Hazard, EarlyBorn, LifecycleRespecting, OneLedgerPerNote;
    var t := RACE_BATCH[2];
    assert GetLedgerHashByID(1, t.txHash) == 0;
    if cs[0].workers > 1 { assert Race(1, RACE_BATCH, cs, ViewOf(RACE_POOL), 1); }
  }

  /** On that block, with the smallest channels that hold it, all complete runs agree exactly when the ledger has one worker. */
  lemma RaceExample(workers: nat, acctSize: nat, initBalance: int, st: StateTrie)
    requires workers > 0
    ensures var cs := [Config(RACE_BATCH, workers, 2, acctSize, initBalance)];
      (workers == 1) <==> forall moves1, moves2 ::
        Completes(cs, RACE_POOL, [st], moves1) && Completes(cs, RACE_POOL, [st], moves2) ==> EndAlike(cs, RACE_POOL, [st], moves1, moves2)
  {
    var cs := [Config(RACE_BATCH, workers, 2, acctSize, initBalance)];
    RaceBatch();
    OneLedger(RACE_BATCH);
    RaceFits(cs[0]);
    assert Executes(1, RACE_BATCH, cs);
    hide Executes, LifecycleRespecting, Hazard, EarlyBorn, Completes, EndAlike, OneLedgerPerNote, Fits;
    RaceWhen(cs);
    hide Race;
    RunsAgreeIffNoRace(1, RACE_BATCH, cs, RACE_POOL, [st]);
  }
}
