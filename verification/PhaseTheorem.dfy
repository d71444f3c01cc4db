/** The phase-ordered concurrent block against the log-order run. */
module PhaseTheorem {
  import opened BanknoteTypes
  import opened Sequences
  import opened Lifecycle
  import opened Accounts
  import opened LedgerMachine
  import opened Schedule
  import opened Progress
  import opened PoolInvariant
  import opened LedgerInvariant
  import opened BlockMachine
  import opened BlockBody
  import opened BlockOutcome

  /** A run of the whole block, from its start until every ledger is done. */
  ghost predicate Completes(cs: seq<Config>, m: Mem, sts: seq<StateTrie>, moves: seq<Move>)
    requires |sts| == |cs|
  {
    IsRun(cs, StartBlock(cs, m, sts), moves) && AllDone(RunTo(cs, StartBlock(cs, m, sts), moves))
  }

  function Final(cs: seq<Config>, m: Mem, sts: seq<StateTrie>, moves: seq<Move>): Block
    requires |sts| == |cs| && IsRun(cs, StartBlock(cs, m, sts), moves)
  {
    RunTo(cs, StartBlock(cs, m, sts), moves)
  }

  lemma FinalInv(ledgers: nat, batch: seq<BanknoteTx>, cs: seq<Config>, m: Mem, sts: seq<StateTrie>, moves: seq<Move>)
    requires ledgers > 0 && Executes(ledgers, batch, cs) && OneLedgerPerNote(ledgers, batch) && MemOk(m) && |sts| == |cs|
    requires FreshOutputs(ViewOf(m), batch) && Completes(cs, m, sts, moves)
    ensures BlockInv(ledgers, batch, cs, ViewOf(m), sts, Final(cs, m, sts, moves))
  {
    StartInv(ledgers, batch, cs, m, sts);
    RunInv(ledgers, batch, cs, ViewOf(m), sts, StartBlock(cs, m, sts), moves);
  }

  /** For every interleaving, the finished block holds exactly the notes of the log-order run, at the same
      values, and the ghosts. */
  lemma ConcurrentExactly(ledgers: nat, batch: seq<BanknoteTx>, cs: seq<Config>, m: Mem, sts: seq<StateTrie>, moves: seq<Move>, h: Hash)
    requires ledgers > 0 && Executes(ledgers, batch, cs) && OneLedgerPerNote(ledgers, batch) && MemOk(m) && |sts| == |cs|
    requires LifecycleRespecting(ViewOf(m), batch) && Completes(cs, m, sts, moves)
    ensures var b := Final(cs, m, sts, moves);
      var log := RunLog(ViewOf(m), batch);
      && MemOk(b.mem)
      && (h in ViewOf(b.mem) <==> h in log || GhostNote(cs, b, h))
      && (h in log ==> h in ViewOf(b.mem) && ViewOf(b.mem)[h].value == log[h].value && log[h].hash == h)
      && (GhostNote(cs, b, h) ==> h !in log && Hazard(ViewOf(m), batch, h))
  {
    var v := ViewOf(m);
    var b := Final(cs, m, sts, moves);
    LifecycleOrderFree(v, batch);
    OrderFreeFresh(v, batch);
    FinalInv(ledgers, batch, cs, m, sts, moves);
    NoteOutcome(ledgers, batch, cs, v, sts, b, h);
    LogSettled(v, batch);
    var log := RunLog(v, batch);
    assert h in log <==> Survives(v, batch, h);
    if h in log { RuleUnique(v, batch, h, log[h].value, ViewOf(b.mem)[h].value); }
  }

  lemma RuleUnique(v: View, txs: seq<BanknoteTx>, h: Hash, x: int, y: int)
    requires ValueRule(v, txs, h, x) && ValueRule(v, txs, h, y)
    ensures x == y
  {
  }

  /** A run ends as the log does exactly when it leaves no ghost. */
  lemma AgreesIffNoGhost(ledgers: nat, batch: seq<BanknoteTx>, cs: seq<Config>, m: Mem, sts: seq<StateTrie>, moves: seq<Move>)
    requires ledgers > 0 && Executes(ledgers, batch, cs) && OneLedgerPerNote(ledgers, batch) && MemOk(m) && |sts| == |cs|
    requires LifecycleRespecting(ViewOf(m), batch) && Completes(cs, m, sts, moves)
    ensures var b := Final(cs, m, sts, moves);
      MemOk(b.mem) &&
      (SameNotes(ViewOf(b.mem), RunLog(ViewOf(m), batch)) <==> forall h :: !GhostNote(cs, b, h))
  {
    var b := Final(cs, m, sts, moves);
    var log := RunLog(ViewOf(m), batch);
    ConcurrentExactly(ledgers, batch, cs, m, sts, moves, 0);
    var w := ViewOf(b.mem);
    forall h
      ensures h in w <==> h in log || GhostNote(cs, b, h)
      ensures h in log ==> h in w && w[h].value == log[h].value && log[h].hash == h
      ensures GhostNote(cs, b, h) ==> h !in log
    {
      ConcurrentExactly(ledgers, batch, cs, m, sts, moves, h);
    }
    if SameNotes(w, log) {
      forall h ensures !GhostNote(cs, b, h) { assert h in w.Keys <==> h in log.Keys; }
    }
  }

  /** Without hazards, every interleaving leaves the same pool hashes and values as the log-order run. */
  lemma ConcurrentIsLog(ledgers: nat, batch: seq<BanknoteTx>, cs: seq<Config>, m: Mem, sts: seq<StateTrie>, moves: seq<Move>)
    requires ledgers > 0 && Executes(ledgers, batch, cs) && OneLedgerPerNote(ledgers, batch) && MemOk(m) && |sts| == |cs|
    requires LifecycleRespecting(ViewOf(m), batch) && HazardFree(ViewOf(m), batch) && Completes(cs, m, sts, moves)
    ensures var b := Final(cs, m, sts, moves); MemOk(b.mem) && SameNotes(ViewOf(b.mem), RunLog(ViewOf(m), batch))
  {
    AgreesIffNoGhost(ledgers, batch, cs, m, sts, moves);
    forall h ensures !GhostNote(cs, Final(cs, m, sts, moves), h) {
      ConcurrentExactly(ledgers, batch, cs, m, sts, moves, h);
    }
  }

  // Hazards show

  /** No split of a note that the batch or the pool provides misses it. */
  ghost predicate FoundInv(v: View, txs: seq<BanknoteTx>, pc: seq<Pc>) {
    |txs| == |pc| &&
    forall i :: 0 <= i < |txs| && txs[i].kind.BS? && (pc[i].Absent? || HasDeferred(pc[i])) ==>
      txs[i].note !in v && !Produced(txs, txs[i].note)
  }

  lemma ProducedEarlier(v: View, txs: seq<BanknoteTx>, i: nat, j: nat, h: Hash)
    requires LifecycleRespecting(v, txs) && i < |txs| && j < |txs| && i != j
    ensures Uses(txs[i], h) && Produces(txs[j], h) ==> j < i
  {
    if i < j { assert Related(txs[i], txs[j]); }
  }

  /** In a serial run the producer of a split note has already stored it. */
  lemma SerialBorn(v: View, txs: seq<BanknoteTx>, pc: seq<Pc>, i: nat)
    requires |txs| == |pc| && LifecycleRespecting(v, txs) && RankOk(txs, pc, 1)
    requires i < |txs| && txs[i].kind.BS? && pc[i].Received?
    requires forall j, k :: 0 <= j < k < |pc| && txs[j].kind.BS? && txs[k].kind.BS? && !pc[k].Waiting? ==> pc[j].Finished?
    requires txs[i].note in v || Produced(txs, txs[i].note)
    ensures Born(v, txs, pc, txs[i].note)
  {
    var h := txs[i].note;
    if h !in v {
      var t :| t in txs && Produces(t, h);
      var j :| 0 <= j < |txs| && txs[j] == t;
      assert Sound(v, txs[i]) && Consumes(txs[i], h);
      ProducedEarlier(v, txs, i, j, h);
      assert StoredAt(txs[j], pc[j], h);
    }
  }

  lemma FoundStep(v: View, txs: seq<BanknoteTx>, m: Mem, pc: seq<Pc>, waiting: set<Hash>, drained: set<Hash>, i: nat)
    requires LifecycleRespecting(v, txs) && i < |txs|
    requires PoolInv(v, txs, m, pc, waiting, drained, Rank(txs[i].kind)) && Active(pc[i]) && FoundInv(v, txs, pc)
    requires PcFits(txs[i].kind, pc[i]) && RefOk(pc[i], m)
    requires forall j, k :: 0 <= j < k < |pc| && txs[j].kind.BS? && txs[k].kind.BS? && !pc[k].Waiting? ==> pc[j].Finished?
    ensures FoundInv(v, txs, pc[i := TxStep(txs[i], pc[i], m).pc])
  {
    if txs[i].kind.BS? && pc[i].Received? && (txs[i].note in v || Produced(txs, txs[i].note)) {
      LifecycleOrderFree(v, txs);
      SerialBorn(v, txs, pc, i);
      BornFound(v, txs, m, pc, waiting, drained, i);
    }
  }

  ghost predicate SerialInv(cs: seq<Config>, v: View, b: Block) {
    Serial(cs, b) && forall l :: 0 <= l < |cs| ==> FoundInv(v, cs[l].txs, b.ledgers[l].pc)
  }

  lemma PartLifecycle(ledgers: nat, batch: seq<BanknoteTx>, l: nat, v: View)
    requires ledgers > 0 && LifecycleRespecting(v, batch)
    ensures LifecycleRespecting(v, ActionTxs(ledgers, batch, l))
  {
    FilterPairwise((t: BanknoteTx) => RunsIn(ledgers, l, t), Related, batch);
  }

  lemma FoundLedgerStep(c: Config, v: View, m: Mem, s: Local, a: Action)
    requires Grounded(c, m, s) && Enabled(c, m, s, a) && LifecycleRespecting(v, c.txs)
    requires PoolInv(v, c.txs, m, s.pc, WaitingOf(s), s.drained, StageRank(s.stage))
    requires BusyInv(c, s) && SplitsInOrder(c, s) && FoundInv(v, c.txs, s.pc)
    ensures FoundInv(v, c.txs, Next(c, m, s, a).1.pc)
  {
    hide PoolInv, LifecycleRespecting, BusyInv, TxStep;
    if a.Work? && s.workers[a.w].Busy? {
      BusyStep(c, m, s, a.w);
      FoundStep(v, c.txs, m, s.pc, WaitingOf(s), s.drained, s.workers[a.w].i);
    } else if a.Advance? {
      AdvancePc(c, m, s);
    }
  }

  lemma AdvancePc(c: Config, m: Mem, s: Local)
    requires Grounded(c, m, s) && Enabled(c, m, s, Advance)
    ensures Next(c, m, s, Advance).1.pc == s.pc
  {
  }

  ghost predicate AllSerial(ledgers: nat, batch: seq<BanknoteTx>, cs: seq<Config>, v: View, sts: seq<StateTrie>, b: Block)
    requires ledgers > 0
  {
    BlockInv(ledgers, batch, cs, v, sts, b) && BlockSched(cs, b) && SerialInv(cs, v, b)
  }

  /** A move of a ledger that processes its splits in order keeps them finding their sources. */
  lemma MoveFound(cs: seq<Config>, v: View, sts: seq<StateTrie>, b: Block, mv: Move)
    requires CanMove(cs, b, mv) && |sts| == |cs| && LifecycleRespecting(v, cs[mv.ledger].txs)
    requires LedgerInv(cs[mv.ledger], v, sts[mv.ledger], b.mem, b.ledgers[mv.ledger])
    requires SerialInv(cs, v, b) && Serial(cs, DoMove(cs, b, mv))
    ensures SerialInv(cs, v, DoMove(cs, b, mv))
  {
    hide LifecycleRespecting, FoundInv, Serial, PoolInv, Next;
    var k := mv.ledger;
    InOrderAt(cs, b, k);
    FoundLedgerStep(cs[k], v, b.mem, b.ledgers[k], mv.action);
  }

  lemma InOrderAt(cs: seq<Config>, b: Block, k: nat)
    requires Serial(cs, b) && k < |cs|
    ensures |b.ledgers| == |cs| && SplitsInOrder(cs[k], b.ledgers[k])
  {
  }

  /** While some ledger is not done there is a move that keeps the run serial. */
  lemma SerialMoveKeeps(ledgers: nat, batch: seq<BanknoteTx>, cs: seq<Config>, v: View, sts: seq<StateTrie>, b: Block, l: nat)
    returns (mv: Move)
    requires ledgers > 0 && Executes(ledgers, batch, cs) && LifecycleRespecting(v, batch) && OneLedgerPerNote(ledgers, batch)
    requires AllSerial(ledgers, batch, cs, v, sts, b) && l < |cs| && Fits(cs[l]) && !b.ledgers[l].stage.DoneStage?
    ensures CanMove(cs, b, mv) && AllSerial(ledgers, batch, cs, v, sts, DoMove(cs, b, mv))
  {
    hide OneLedgerPerNote, LifecycleRespecting, OrderFree, FreshOutputs, FoundInv, LedgerInv, SInv, Fits, OneBusy, SplitsInOrder;
    mv := SerialMove(cs, b, l);
    MoveSched(cs, b, mv);
    LifecycleOrderFree(v, batch);
    OrderFreeFresh(v, batch);
    MoveInv(ledgers, batch, cs, v, sts, b, mv);
    PartLifecycle(ledgers, batch, mv.ledger, v);
    MoveFound(cs, v, sts, b, mv);
  }

  /** From a serial state every ledger can be run to its end one transaction at a time. */
  lemma SerialRunExists(ledgers: nat, batch: seq<BanknoteTx>, cs: seq<Config>, v: View, sts: seq<StateTrie>, b: Block)
    returns (moves: seq<Move>)
    requires ledgers > 0 && Executes(ledgers, batch, cs) && LifecycleRespecting(v, batch) && OneLedgerPerNote(ledgers, batch)
    requires forall l :: 0 <= l < |cs| ==> Fits(cs[l])
    requires AllSerial(ledgers, batch, cs, v, sts, b)
    requires forall l :: 0 <= l < |cs| ==> InRange(cs[l], b.ledgers[l])
    ensures IsRun(cs, b, moves) && AllDone(RunTo(cs, b, moves))
    ensures AllSerial(ledgers, batch, cs, v, sts, RunTo(cs, b, moves))
    decreases TotalMeasure(cs, b.ledgers)
  {
    if AllDone(b) {
      moves := [];
    } else {
      var l: nat :| l < |cs| && !b.ledgers[l].stage.DoneStage?;
      var mv := SerialMoveKeeps(ledgers, batch, cs, v, sts, b, l);
      MoveDecreases(cs, b, mv);
      var rest := SerialRunExists(ledgers, batch, cs, v, sts, DoMove(cs, b, mv));
      moves := [mv] + rest;
      assert moves[1..] == rest;
    }
  }

  /** In one ledger: a finished one whose splits all found their sources has removed each source at once. */
  lemma FoundGone(c: Config, v: View, st0: StateTrie, m: Mem, s: Local, h: Hash)
    requires ConfigOk(c) && LedgerInv(c, v, st0, m, s) && s.stage.DoneStage? && FoundInv(v, c.txs, s.pc)
    requires Split(c.txs, h) && (h in v || Produced(c.txs, h))
    ensures |s.pc| == |c.txs| && AnyGone(c.txs, s.pc, h)
  {
    DoneComplete(c, v, st0, m, s);
    hide LedgerInv, PoolInv, FoundInv;
    FoundSplitGone(v, c.txs, s.pc, WaitingOf(s), s.drained, h);
  }

  lemma FoundSplitGone(v: View, txs: seq<BanknoteTx>, pc: seq<Pc>, waiting: set<Hash>, drained: set<Hash>, h: Hash)
    requires |txs| == |pc| && Complete(txs, pc, waiting, drained) && FoundInv(v, txs, pc)
    requires (forall i :: 0 <= i < |txs| ==> PcFits(txs[i].kind, pc[i])) && Split(txs, h) && (h in v || Produced(txs, h))
    ensures AnyGone(txs, pc, h)
  {
    var t0 :| t0 in txs && t0.kind.BS? && Consumes(t0, h);
    var i :| 0 <= i < |txs| && txs[i] == t0;
    assert GoneAt(txs[i], pc[i], h);
  }

  lemma HazardPart(ledgers: nat, batch: seq<BanknoteTx>, v: View, h: Hash) returns (l: nat)
    requires ledgers > 0 && OneLedgerPerNote(ledgers, batch) && Hazard(v, batch, h)
    ensures l < ledgers && Hazard(v, ActionTxs(ledgers, batch, l), h)
  {
    var t0 :| t0 in batch && t0.kind.BS? && Consumes(t0, h);
    l := GetLedgerHashByID(ledgers, t0.txHash);
    assert Touches(t0, h);
    PartAgrees(ledgers, batch, t0, h);
    SameTouching(v, ActionTxs(ledgers, batch, l), batch, h);
  }

  /** A split note that the batch or the pool provides, and that is transferred at the initial value,
      becomes a ghost in a serial run. */
  lemma HazardShows(ledgers: nat, batch: seq<BanknoteTx>, cs: seq<Config>, v: View, sts: seq<StateTrie>, b: Block, h: Hash)
    requires ledgers > 0 && Executes(ledgers, batch, cs) && OneLedgerPerNote(ledgers, batch)
    requires BlockInv(ledgers, batch, cs, v, sts, b) && AllDone(b) && SerialInv(cs, v, b) && Hazard(v, batch, h)
    ensures GhostNote(cs, b, h)
  {
    hide LedgerInv, FoundInv, Serial, OneLedgerPerNote;
    var l := HazardPart(ledgers, batch, v, h);
    FoundGone(cs[l], v, sts[l], b.mem, b.ledgers[l], h);
    assert GhostIn(cs[l], b.ledgers[l], h);
  }

  /** A hazard makes some run differ from the log. */
  lemma HazardRun(ledgers: nat, batch: seq<BanknoteTx>, cs: seq<Config>, m: Mem, sts: seq<StateTrie>, h: Hash) returns (moves: seq<Move>)
    requires ledgers > 0 && Executes(ledgers, batch, cs) && OneLedgerPerNote(ledgers, batch) && MemOk(m) && |sts| == |cs|
    requires LifecycleRespecting(ViewOf(m), batch) && Hazard(ViewOf(m), batch, h)
    requires forall l :: 0 <= l < |cs| ==> Fits(cs[l])
    ensures Completes(cs, m, sts, moves)
    ensures GhostNote(cs, Final(cs, m, sts, moves), h)
  {
    var b0 := StartBlock(cs, m, sts);
    StartSerial(ledgers, batch, cs, m, sts);
    moves := SerialRunExists(ledgers, batch, cs, ViewOf(m), sts, b0);
    HazardShows(ledgers, batch, cs, ViewOf(m), sts, RunTo(cs, b0, moves), h);
  }

  lemma StartSerial(ledgers: nat, batch: seq<BanknoteTx>, cs: seq<Config>, m: Mem, sts: seq<StateTrie>)
    requires ledgers > 0 && Executes(ledgers, batch, cs) && MemOk(m) && |sts| == |cs|
    ensures AllSerial(ledgers, batch, cs, ViewOf(m), sts, StartBlock(cs, m, sts))
    ensures forall l :: 0 <= l < |cs| ==> InRange(cs[l], StartBlock(cs, m, sts).ledgers[l])
    ensures BlockEarly(cs, ViewOf(m), StartBlock(cs, m, sts))
  {
    StartInv(ledgers, batch, cs, m, sts);
    StartSched(cs, m, sts);
    SchedInRange(cs, StartBlock(cs, m, sts));
    forall l | 0 <= l < |cs| { NothingYet(cs[l], ViewOf(m), sts[l]); }
  }

  lemma NothingYet(c: Config, v: View, st: StateTrie)
    ensures var s := Start(c, st);
      OneBusy(s) && SplitsInOrder(c, s) && FoundInv(v, c.txs, s.pc) && |s.pc| == |c.txs| && EarlyInv(v, c.txs, s.pc)
  {
    assert forall i :: 0 <= i < |c.txs| ==> Start(c, st).pc[i] == Waiting;
  }

  /** No split of a note that was there when the splits started misses it, in any ledger. */
  ghost predicate BlockEarly(cs: seq<Config>, v: View, b: Block) {
    |b.ledgers| == |cs| && forall l :: 0 <= l < |cs| ==> |b.ledgers[l].pc| == |cs[l].txs| && EarlyInv(v, cs[l].txs, b.ledgers[l].pc)
  }

  /** The run ends with the notes of the log-order run, at the same values. */
  ghost predicate EndsAsLog(batch: seq<BanknoteTx>, cs: seq<Config>, m: Mem, sts: seq<StateTrie>, moves: seq<Move>)
    requires |sts| == |cs| && MemOk(m) && Completes(cs, m, sts, moves)
  {
    var b := Final(cs, m, sts, moves);
    MemOk(b.mem) && SameNotes(ViewOf(b.mem), RunLog(ViewOf(m), batch))
  }

  /** Every interleaving of a life-cycle-respecting batch agrees with the log exactly when no note that the
      pool or the batch provides is both transferred at the initial value and split. */
  lemma AllRunsAgreeIffHazardFree(ledgers: nat, batch: seq<BanknoteTx>, cs: seq<Config>, m: Mem, sts: seq<StateTrie>)
    requires ledgers > 0 && Executes(ledgers, batch, cs) && OneLedgerPerNote(ledgers, batch) && MemOk(m) && |sts| == |cs|
    requires LifecycleRespecting(ViewOf(m), batch)
    requires forall l :: 0 <= l < |cs| ==> Fits(cs[l])
    ensures HazardFree(ViewOf(m), batch) <==>
      forall moves :: Completes(cs, m, sts, moves) ==> EndsAsLog(batch, cs, m, sts, moves)
  {
    if HazardFree(ViewOf(m), batch) {
      forall moves | Completes(cs, m, sts, moves) ensures EndsAsLog(batch, cs, m, sts, moves) {
        ConcurrentIsLog(ledgers, batch, cs, m, sts, moves);
      }
    } else {
      var h :| Hazard(ViewOf(m), batch, h);
      var moves := HazardRun(ledgers, batch, cs, m, sts, h);
      AgreesIffNoGhost(ledgers, batch, cs, m, sts, moves);
      assert !EndsAsLog(batch, cs, m, sts, moves);
    }
  }

  // A hazard, concretely

  /** A note of the initial value in the pool, transferred and then split in one block. */
  const HAZARD_POOL: Mem := Mem([Note(1, INIT_NOTE_VALUE, 5)], map[1 := 0])

  const HAZARD_BATCH: seq<BanknoteTx> := [
    BanknoteTx(10, BT, ZERO_ADDRESS, 6, 1, INIT_NOTE_VALUE, 0, 0, 0, 0),
    BanknoteTx(11, BS, 6, 6, 1, INIT_NOTE_VALUE, 2, 40, 3, INIT_NOTE_VALUE - 40)]

  lemma HazardExample()
    ensures MemOk(HAZARD_POOL) && LifecycleRespecting(ViewOf(HAZARD_POOL), HAZARD_BATCH)
    ensures OneLedgerPerNote(1, HAZARD_BATCH) && Hazard(ViewOf(HAZARD_POOL), HAZARD_BATCH, 1)
    ensures EarlyBorn(ViewOf(HAZARD_POOL), HAZARD_BATCH, 1) && 1 !in RunLog(ViewOf(HAZARD_POOL), HAZARD_BATCH)
  {
    var v, t, u := ViewOf(HAZARD_POOL), HAZARD_BATCH[0], HAZARD_BATCH[1];
    assert HAZARD_BATCH == [t, u] && t in HAZARD_BATCH && u in HAZARD_BATCH;
    assert Consumes(u, 1) && Revives(t, 1);
    assert Related(t, u);
    assert Sound(v, t) && Sound(v, u);
    assert HAZARD_BATCH[..1] == [t];
    assert RunLog(v, HAZARD_BATCH) == ApplyTx(RunLog(v, [t]), u);
  }

  /** On that block of one ledger every run that ends leaves the split note, which the log does not. */
  lemma HazardExampleShows(workers: nat, chanSize: nat, acctSize: nat, initBalance: int, st: StateTrie, moves: seq<Move>)
    requires workers > 0
    requires Completes([Config(HAZARD_BATCH, workers, chanSize, acctSize, initBalance)], HAZARD_POOL, [st], moves)
    ensures 1 in Final([Config(HAZARD_BATCH, workers, chanSize, acctSize, initBalance)], HAZARD_POOL, [st], moves).mem.pool
    ensures MemOk(HAZARD_POOL) && !EndsAsLog(HAZARD_BATCH, [Config(HAZARD_BATCH, workers, chanSize, acctSize, initBalance)], HAZARD_POOL, [st], moves)
  {
    HazardExample();
    LifecycleOrderFree(ViewOf(HAZARD_POOL), HAZARD_BATCH);
    OneLedger(HAZARD_BATCH);
    EarlyHazardAlwaysShows(1, HAZARD_BATCH, [Config(HAZARD_BATCH, workers, chanSize, acctSize, initBalance)], HAZARD_POOL, [st], moves, 1);
  }

  /** A single ledger executes the whole batch. */
  lemma OneLedger(batch: seq<BanknoteTx>)
    requires forall t :: t in batch ==> !t.kind.NT?
    ensures ActionTxs(1, batch, 0) == batch
  {
    FilterAll((t: BanknoteTx) => RunsIn(1, 0, t), batch);
  }

  // Notes that were there before the splits started: every run shows the hazard

  lemma EarlyLedgerStep(c: Config, v: View, m: Mem, s: Local, a: Action)
    requires Grounded(c, m, s) && Enabled(c, m, s, a) && OrderFree(v, c.txs)
    requires PoolInv(v, c.txs, m, s.pc, WaitingOf(s), s.drained, StageRank(s.stage))
    requires BusyInv(c, s) && EarlyInv(v, c.txs, s.pc)
    ensures var pc' := Next(c, m, s, a).1.pc; |pc'| == |c.txs| && EarlyInv(v, c.txs, pc')
  {
    hide PoolInv, BusyInv, TxStep, OrderFree, FreshOutputs;
    if a.Work? && s.workers[a.w].Busy? {
      BusyStep(c, m, s, a.w);
      OrderFreeFresh(v, c.txs);
      StepEarly(v, c.txs, m, s.pc, WaitingOf(s), s.drained, s.workers[a.w].i);
    } else if a.Advance? {
      AdvancePc(c, m, s);
    }
  }

  lemma MoveEarly(ledgers: nat, batch: seq<BanknoteTx>, cs: seq<Config>, v: View, sts: seq<StateTrie>, b: Block, mv: Move)
    requires ledgers > 0 && Executes(ledgers, batch, cs) && OrderFree(v, batch)
    requires BlockInv(ledgers, batch, cs, v, sts, b) && CanMove(cs, b, mv) && BlockEarly(cs, v, b)
    ensures BlockEarly(cs, v, DoMove(cs, b, mv))
  {
    var k := mv.ledger;
    assert LedgerInv(cs[k], v, sts[k], b.mem, b.ledgers[k]);
    PartOrderFree(ledgers, batch, k, v);
    EarlyLedgerStep(cs[k], v, b.mem, b.ledgers[k], mv.action);
  }

  lemma {:induction false} RunEarly(ledgers: nat, batch: seq<BanknoteTx>, cs: seq<Config>, v: View, sts: seq<StateTrie>, b: Block, moves: seq<Move>)
    requires ledgers > 0 && Executes(ledgers, batch, cs) && OrderFree(v, batch) && OneLedgerPerNote(ledgers, batch)
    requires BlockInv(ledgers, batch, cs, v, sts, b) && IsRun(cs, b, moves) && BlockEarly(cs, v, b)
    ensures BlockEarly(cs, v, RunTo(cs, b, moves))
    decreases |moves|
  {
    if moves != [] {
      MoveEarly(ledgers, batch, cs, v, sts, b, moves[0]);
      OrderFreeFresh(v, batch);
      MoveInv(ledgers, batch, cs, v, sts, b, moves[0]);
      RunEarly(ledgers, batch, cs, v, sts, DoMove(cs, b, moves[0]), moves[1..]);
    }
  }

  lemma EarlyPart(ledgers: nat, batch: seq<BanknoteTx>, v: View, t0: BanknoteTx, h: Hash)
    requires ledgers > 0 && OneLedgerPerNote(ledgers, batch) && t0 in batch && t0.kind.BS? && Consumes(t0, h)
    requires EarlyBorn(v, batch, h) && Revived(batch, h)
    ensures var part := ActionTxs(ledgers, batch, GetLedgerHashByID(ledgers, t0.txHash));
      EarlyBorn(v, part, h) && Revived(part, h) && Split(part, h)
  {
    assert Touches(t0, h);
    PartAgrees(ledgers, batch, t0, h);
    SameTouching(v, ActionTxs(ledgers, batch, GetLedgerHashByID(ledgers, t0.txHash)), batch, h);
    if h !in v {
      var t :| t in batch && t.kind.BG? && t.note == h;
      assert Touches(t, h);
    }
  }

  /** A note that was in the pool before the block, or is minted in it, and is transferred at the initial
      value and split in it, is a ghost after every run. */
  lemma EarlyHazardAlwaysShows(ledgers: nat, batch: seq<BanknoteTx>, cs: seq<Config>, m: Mem, sts: seq<StateTrie>, moves: seq<Move>, h: Hash)
    requires ledgers > 0 && Executes(ledgers, batch, cs) && OneLedgerPerNote(ledgers, batch) && MemOk(m) && |sts| == |cs|
    requires OrderFree(ViewOf(m), batch) && Completes(cs, m, sts, moves)
    requires EarlyBorn(ViewOf(m), batch, h) && Revived(batch, h) && Split(batch, h)
    ensures GhostNote(cs, Final(cs, m, sts, moves), h) && h in Final(cs, m, sts, moves).mem.pool
    ensures LifecycleRespecting(ViewOf(m), batch) ==> h !in RunLog(ViewOf(m), batch)
  {
    var v := ViewOf(m);
    var b := Final(cs, m, sts, moves);
    if LifecycleRespecting(v, batch) { SplitLeavesLog(v, batch, h); }
    FinalEarly(ledgers, batch, cs, m, sts, moves);
    var t0 :| t0 in batch && t0.kind.BS? && Consumes(t0, h);
    EarlyPart(ledgers, batch, v, t0, h);
    EarlyGhost(cs, v, sts, b, GetLedgerHashByID(ledgers, t0.txHash), h);
    NoteOutcome(ledgers, batch, cs, v, sts, b, h);
  }

  lemma SplitLeavesLog(v: View, batch: seq<BanknoteTx>, h: Hash)
    requires Keyed(v) && LifecycleRespecting(v, batch) && Split(batch, h)
    ensures h !in RunLog(v, batch)
  {
    LogSettled(v, batch);
    assert !Survives(v, batch, h);
  }

  lemma FinalEarly(ledgers: nat, batch: seq<BanknoteTx>, cs: seq<Config>, m: Mem, sts: seq<StateTrie>, moves: seq<Move>)
    requires ledgers > 0 && Executes(ledgers, batch, cs) && OneLedgerPerNote(ledgers, batch) && MemOk(m) && |sts| == |cs|
    requires OrderFree(ViewOf(m), batch) && Completes(cs, m, sts, moves)
    ensures BlockInv(ledgers, batch, cs, ViewOf(m), sts, Final(cs, m, sts, moves))
    ensures BlockEarly(cs, ViewOf(m), Final(cs, m, sts, moves))
  {
    OrderFreeFresh(ViewOf(m), batch);
    FinalInv(ledgers, batch, cs, m, sts, moves);
    StartSerial(ledgers, batch, cs, m, sts);
    RunEarly(ledgers, batch, cs, ViewOf(m), sts, StartBlock(cs, m, sts), moves);
  }

  lemma EarlyGhost(cs: seq<Config>, v: View, sts: seq<StateTrie>, b: Block, l: nat, h: Hash)
    requires |b.ledgers| == |cs| == |sts| && l < |cs| && ConfigOk(cs[l]) && AllDone(b) && BlockEarly(cs, v, b)
    requires LedgerInv(cs[l], v, sts[l], b.mem, b.ledgers[l])
    requires EarlyBorn(v, cs[l].txs, h) && Revived(cs[l].txs, h) && Split(cs[l].txs, h)
    ensures GhostNote(cs, b, h)
  {
    var c, s := cs[l], b.ledgers[l];
    DoneComplete(c, v, sts[l], b.mem, s);
    EarlyGone(v, c.txs, b.mem, s.pc, WaitingOf(s), s.drained, h);
    assert GhostIn(c, s, h);
  }

  // Splits only

  /** After any interleaving of splits, the pool holds the notes of before and all outputs, without the
      sources, even when a note is split before the split that creates it. Nothing is asked of the sources. */
  lemma SplitsOutcome(ledgers: nat, batch: seq<BanknoteTx>, cs: seq<Config>, m: Mem, sts: seq<StateTrie>, moves: seq<Move>, h: Hash)
    requires ledgers > 0 && Executes(ledgers, batch, cs) && OneLedgerPerNote(ledgers, batch) && MemOk(m) && |sts| == |cs|
    requires FreshOutputs(ViewOf(m), batch) && (forall t :: t in batch ==> t.kind.BS?) && Completes(cs, m, sts, moves)
    ensures var b := Final(cs, m, sts, moves);
      && MemOk(b.mem)
      && (h in ViewOf(b.mem) <==> (h in ViewOf(m) || Produced(batch, h)) && !Split(batch, h))
      && (h in ViewOf(b.mem) && h in ViewOf(m) ==> ViewOf(b.mem)[h].value == ViewOf(m)[h].value)
      && (forall t :: t in batch && Produces(t, h) && h in ViewOf(b.mem) ==> ViewOf(b.mem)[h].value == Product(t, h).value)
  {
    var v := ViewOf(m);
    var b := Final(cs, m, sts, moves);
    FinalInv(ledgers, batch, cs, m, sts, moves);
    if TouchedBy(batch, h) {
      var t0 :| t0 in batch && Touches(t0, h);
      var l := GetLedgerHashByID(ledgers, t0.txHash);
      var c, s := cs[l], b.ledgers[l];
      PartAgrees(ledgers, batch, t0, h);
      SameTouching(v, c.txs, batch, h);
      DoneComplete(c, v, sts[l], b.mem, s);
      SplitsAt(v, c.txs, b.mem, s.pc, WaitingOf(s), s.drained, h);
      assert forall t :: t in batch && Produces(t, h) ==> t in c.txs && Touches(t, h);
    } else {
      assert forall t :: t in batch ==> !Produces(t, h) && !Consumes(t, h);
    }
  }

  lemma SplitsAt(v: View, txs: seq<BanknoteTx>, m: Mem, pc: seq<Pc>, waiting: set<Hash>, drained: set<Hash>, h: Hash)
    requires PoolInv(v, txs, m, pc, waiting, drained, 4) && Complete(txs, pc, waiting, drained) && TouchedBy(txs, h)
    requires forall t :: t in txs ==> t.kind.BS?
    ensures h in m.pool <==> (h in v || Produced(txs, h)) && !Split(txs, h)
    ensures h in m.pool && h in v ==> m.notes[m.pool[h]].value == v[h].value
    ensures forall t :: t in txs && Produces(t, h) && h in m.pool ==> m.notes[m.pool[h]].value == Product(t, h).value
  {
    Members(txs, pc, waiting, drained, h);
    assert HashInv(v, txs, m, pc, drained, h);
    forall i | 0 <= i < |txs| ensures !RevivedAt(txs[i], pc[i], h) && !CutAt(txs[i], pc[i], h) { assert txs[i] in txs; }
    if Split(txs, h) {
      var t :| t in txs && t.kind.BS? && Consumes(t, h);
      var i :| 0 <= i < |txs| && txs[i] == t;
      assert PcInv(v, txs, m, pc, waiting, txs[i], pc[i]);
      assert GoneAt(txs[i], pc[i], h) || h in drained;
    } else {
      assert Consumed(txs, h) ==> Split(txs, h);
      NotWaiting(v, txs, m, pc, waiting, drained, h);
      if h in m.pool { LiveValueRule(v, txs, pc, waiting, drained, h, m.notes[m.pool[h]].value); }
    }
  }
}
