/** All the peripheral ledgers of a block at work at once on the shared pool, with no synchronisation
    between them, and when the block finishes. */
module BlockMachine {
  import opened Accounts
  import opened LedgerMachine
  import opened Schedule
  import opened Progress

  datatype Block = Block(mem: Mem, ledgers: seq<Local>)

  /** One step of one goroutine of one ledger. */
  datatype Move = Move(ledger: nat, action: Action)

  predicate CanMove(cs: seq<Config>, b: Block, mv: Move) {
    && |b.ledgers| == |cs| && mv.ledger < |cs|
    && Grounded(cs[mv.ledger], b.mem, b.ledgers[mv.ledger])
    && Enabled(cs[mv.ledger], b.mem, b.ledgers[mv.ledger], mv.action)
  }

  function DoMove(cs: seq<Config>, b: Block, mv: Move): Block
    requires CanMove(cs, b, mv)
  {
    var (m', s') := Next(cs[mv.ledger], b.mem, b.ledgers[mv.ledger], mv.action);
    Block(m', b.ledgers[mv.ledger := s'])
  }

  /** A run: each move is possible where it is made. */
  predicate IsRun(cs: seq<Config>, b: Block, moves: seq<Move>)
    decreases |moves|
  {
    moves == [] || (CanMove(cs, b, moves[0]) && IsRun(cs, DoMove(cs, b, moves[0]), moves[1..]))
  }

  function RunTo(cs: seq<Config>, b: Block, moves: seq<Move>): Block
    requires IsRun(cs, b, moves)
    decreases |moves|
  {
    if moves == [] then b else RunTo(cs, DoMove(cs, b, moves[0]), moves[1..])
  }

  function StartBlock(cs: seq<Config>, m: Mem, sts: seq<StateTrie>): Block
    requires |sts| == |cs|
  {
    Block(m, seq(|cs|, l requires 0 <= l < |cs| => Start(cs[l], sts[l])))
  }

  predicate AllDone(b: Block) { forall l :: 0 <= l < |b.ledgers| ==> b.ledgers[l].stage.DoneStage? }

  ghost predicate ConfigsOk(cs: seq<Config>) { forall l :: 0 <= l < |cs| ==> ConfigOk(cs[l]) }

  /** What every run keeps about channels, workers and phases in every ledger. */
  ghost predicate BlockSched(cs: seq<Config>, b: Block) {
    && |b.ledgers| == |cs| && MemOk(b.mem)
    && forall l :: 0 <= l < |cs| ==> SInv(cs[l], b.mem, b.ledgers[l])
  }

  lemma StartSched(cs: seq<Config>, m: Mem, sts: seq<StateTrie>)
    requires ConfigsOk(cs) && MemOk(m) && |sts| == |cs|
    ensures BlockSched(cs, StartBlock(cs, m, sts))
  {
    forall l | 0 <= l < |cs| ensures SInv(cs[l], m, StartBlock(cs, m, sts).ledgers[l]) {
      StartSInv(cs[l], m, sts[l]);
    }
  }

  lemma MoveSched(cs: seq<Config>, b: Block, mv: Move)
    requires ConfigsOk(cs) && BlockSched(cs, b) && CanMove(cs, b, mv)
    ensures BlockSched(cs, DoMove(cs, b, mv))
  {
    var k := mv.ledger;
    StepKeeps(cs[k], b.mem, b.ledgers[k], mv.action);
    var b' := DoMove(cs, b, mv);
    forall l | 0 <= l < |cs| ensures SInv(cs[l], b'.mem, b'.ledgers[l]) {
      if l != k { MoreNotes(cs[l], b.mem, b'.mem, b.ledgers[l]); }
    }
  }

  lemma MoreNotes(c: Config, m: Mem, m': Mem, s: Local)
    requires SInv(c, m, s) && |m.notes| <= |m'.notes|
    ensures SInv(c, m', s)
  {
  }

  /** In every reachable state the channel, worker and phase invariants hold; in particular each phase of
      a ledger starts only after the previous one is fully processed. */
  lemma {:induction false} RunSched(cs: seq<Config>, b: Block, moves: seq<Move>)
    requires ConfigsOk(cs) && BlockSched(cs, b) && IsRun(cs, b, moves)
    ensures BlockSched(cs, RunTo(cs, b, moves))
    decreases |moves|
  {
    if moves != [] {
      MoveSched(cs, b, moves[0]);
      RunSched(cs, DoMove(cs, b, moves[0]), moves[1..]);
    }
  }

  // Termination

  function TotalMeasure(cs: seq<Config>, ss: seq<Local>): nat
    requires |cs| == |ss| && forall l :: 0 <= l < |cs| ==> InRange(cs[l], ss[l])
  {
    if cs == [] then 0
    else TotalMeasure(cs[..|cs| - 1], ss[..|ss| - 1]) + Measure(cs[|cs| - 1], ss[|ss| - 1])
  }

  lemma {:induction false} TotalMeasureUpdate(cs: seq<Config>, ss: seq<Local>, l: nat, s: Local)
    requires |cs| == |ss| && (forall k :: 0 <= k < |cs| ==> InRange(cs[k], ss[k]))
    requires l < |cs| && InRange(cs[l], s)
    ensures TotalMeasure(cs, ss[l := s]) == TotalMeasure(cs, ss) - Measure(cs[l], ss[l]) + Measure(cs[l], s)
  {
    var n := |cs| - 1;
    if l == n {
      assert ss[l := s][..n] == ss[..n];
    } else {
      assert ss[l := s][..n] == ss[..n][l := s];
      TotalMeasureUpdate(cs[..n], ss[..n], l, s);
    }
  }

  lemma SchedInRange(cs: seq<Config>, b: Block)
    requires BlockSched(cs, b)
    ensures forall l :: 0 <= l < |cs| ==> InRange(cs[l], b.ledgers[l])
  {
    forall l | 0 <= l < |cs| ensures InRange(cs[l], b.ledgers[l]) { assert SInv(cs[l], b.mem, b.ledgers[l]); }
  }

  lemma MoveDecreases(cs: seq<Config>, b: Block, mv: Move)
    requires ConfigsOk(cs) && BlockSched(cs, b) && CanMove(cs, b, mv)
    ensures var b' := DoMove(cs, b, mv);
      && BlockSched(cs, b')
      && (forall l :: 0 <= l < |cs| ==> InRange(cs[l], b.ledgers[l]) && InRange(cs[l], b'.ledgers[l]))
      && TotalMeasure(cs, b'.ledgers) < TotalMeasure(cs, b.ledgers)
  {
    var k := mv.ledger;
    MoveSched(cs, b, mv);
    SchedInRange(cs, b);
    SchedInRange(cs, DoMove(cs, b, mv));
    StepDecreases(cs[k], b.mem, b.ledgers[k], mv.action);
    TotalMeasureUpdate(cs, b.ledgers, k, Next(cs[k], b.mem, b.ledgers[k], mv.action).1);
  }

  /** No run is longer than the measure of where it starts. */
  lemma {:induction false} RunsAreBounded(cs: seq<Config>, b: Block, moves: seq<Move>)
    requires ConfigsOk(cs) && BlockSched(cs, b) && IsRun(cs, b, moves)
    ensures forall l :: 0 <= l < |cs| ==> InRange(cs[l], b.ledgers[l])
    ensures |moves| <= TotalMeasure(cs, b.ledgers)
    decreases |moves|
  {
    SchedInRange(cs, b);
    if moves != [] {
      MoveDecreases(cs, b, moves[0]);
      RunsAreBounded(cs, DoMove(cs, b, moves[0]), moves[1..]);
    }
  }

  // Which ledgers finish

  /** Every ledger that does not fit is still minting with a blocked dispatcher. */
  ghost predicate Backlogs(cs: seq<Config>, b: Block) {
    |b.ledgers| == |cs| && forall l :: 0 <= l < |cs| && !Fits(cs[l]) ==> Backlog(cs[l], b.ledgers[l])
  }

  lemma {:induction false} RunBacklogs(cs: seq<Config>, b: Block, moves: seq<Move>)
    requires ConfigsOk(cs) && BlockSched(cs, b) && Backlogs(cs, b) && IsRun(cs, b, moves)
    ensures Backlogs(cs, RunTo(cs, b, moves))
    decreases |moves|
  {
    if moves != [] {
      var k := moves[0].ledger;
      if !Fits(cs[k]) { BacklogKept(cs[k], b.mem, b.ledgers[k], moves[0].action); }
      MoveSched(cs, b, moves[0]);
      RunBacklogs(cs, DoMove(cs, b, moves[0]), moves[1..]);
    }
  }

  /** A ledger finishes exactly when its split, transfer and recycling transactions each fit the inner
      channels: every run is finite, and where no goroutine can step, the ledgers that fit are done and the
      others are not. A ledger that does not fit is done in no reachable state. */
  lemma FinishesIffFits(cs: seq<Config>, m: Mem, sts: seq<StateTrie>, moves: seq<Move>, l: nat)
    requires ConfigsOk(cs) && MemOk(m) && |sts| == |cs| && l < |cs|
    requires IsRun(cs, StartBlock(cs, m, sts), moves)
    ensures var b := RunTo(cs, StartBlock(cs, m, sts), moves);
      && |b.ledgers| == |cs|
      && (b.ledgers[l].stage.DoneStage? ==> Fits(cs[l]))
      && (Fits(cs[l]) && !b.ledgers[l].stage.DoneStage? ==> exists a :: CanMove(cs, b, Move(l, a)))
      && ((forall a :: !CanMove(cs, b, Move(l, a))) ==> (b.ledgers[l].stage.DoneStage? <==> Fits(cs[l])))
  {
    var b0 := StartBlock(cs, m, sts);
    var b := RunTo(cs, b0, moves);
    StartSched(cs, m, sts);
    RunSched(cs, b0, moves);
    forall k | 0 <= k < |cs| ensures Backlog(cs[k], b0.ledgers[k]) {
      assert forall t :: b0.ledgers[k].queues.Of(t) == [];
      assert cs[k].txs[..0] == [];
    }
    RunBacklogs(cs, b0, moves);
    assert SInv(cs[l], b.mem, b.ledgers[l]);
    SInvGrounded(cs[l], b.mem, b.ledgers[l]);
    if Fits(cs[l]) && !b.ledgers[l].stage.DoneStage? {
      var a := NeverStuck(cs[l], b.mem, b.ledgers[l]);
      assert CanMove(cs, b, Move(l, a));
    }
  }

  // Runs in which each ledger works on one transaction at a time

  ghost predicate Serial(cs: seq<Config>, b: Block) {
    |b.ledgers| == |cs| && forall l :: 0 <= l < |cs| ==> OneBusy(b.ledgers[l]) && SplitsInOrder(cs[l], b.ledgers[l])
  }

  /** The next move of a serial run. */
  lemma SerialMove(cs: seq<Config>, b: Block, l: nat) returns (mv: Move)
    requires ConfigsOk(cs) && BlockSched(cs, b) && Serial(cs, b)
    requires l < |cs| && Fits(cs[l]) && !b.ledgers[l].stage.DoneStage?
    ensures CanMove(cs, b, mv) && Serial(cs, DoMove(cs, b, mv))
  {
    assert SInv(cs[l], b.mem, b.ledgers[l]);
    SInvGrounded(cs[l], b.mem, b.ledgers[l]);
    var a := NeverStuck(cs[l], b.mem, b.ledgers[l]);
    SerialStep(cs[l], b.mem, b.ledgers[l], a);
    mv := Move(l, a);
  }
}
