/** Why whole blocks need each note in one ledger: ledgers do not wait for each other, so the ones that consume
    a note can be done with it before another produces it, or while another holds it. */
module CrossLedger {
  import opened BanknoteTypes
  import opened Lifecycle
  import opened Accounts
  import opened LedgerMachine
  import opened Schedule
  import opened Progress
  import opened PoolInvariant
  import opened BlockMachine
  import opened BlockBody
  import opened BlockOutcome
  import opened PhaseTheorem

  // What a ledger that does not consume a note does to it

  /** The notes that workers hold are those of their transactions, and a transfer at the initial value always
      gets a note. */
  ghost predicate OwnRefs(c: Config, m: Mem, s: Local) {
    && |s.pc| == |c.txs|
    && (forall i :: 0 <= i < |s.pc| && (s.pc[i].Found? || s.pc[i].Holding? || s.pc[i].Owned?) ==>
          s.pc[i].ref < |m.notes| && m.notes[s.pc[i].ref].hash == c.txs[i].note)
    && (forall i :: 0 <= i < |s.pc| && c.txs[i].kind.BT? && c.txs[i].amount == INIT_NOTE_VALUE ==> s.pc[i] != Finished(false))
  }

  ghost predicate HashesKept(m: Mem, m': Mem) {
    |m.notes| <= |m'.notes| && forall k :: 0 <= k < |m.notes| ==> m'.notes[k].hash == m.notes[k].hash
  }

  /** The ledger does not consume `h`, now or later. */
  ghost predicate Spares(c: Config, s: Local, h: Hash) {
    (forall t :: t in c.txs ==> !Consumes(t, h)) && h !in s.deferred && s.stage != DrainStage(Some(h))
  }

  /** The transaction has put `h` into the pool. */
  predicate Puts(t: BanknoteTx, p: Pc, h: Hash) {
    StoredAt(t, p, h) || (Transfers(t, h) && p == Finished(true))
  }

  /** The transfer has got its note, and will put it into the pool if it has not yet. */
  predicate Grips(t: BanknoteTx, p: Pc) { t.kind.BT? && (p.Holding? || p.Owned? || p == Finished(true)) }

  /** One step of a worker: no hash of a note changes, and unless it consumes `h` it does not remove `h`. */
  lemma TxStepSpares(t: BanknoteTx, p: Pc, m: Mem, h: Hash)
    requires Active(p) && PcFits(t.kind, p) && RefOk(p, m) && MemOk(m)
    requires p.Found? || p.Holding? || p.Owned? ==> m.notes[p.ref].hash == t.note
    ensures var o := TxStep(t, p, m);
      && MemOk(o.mem) && HashesKept(m, o.mem)
      && (o.pc.Found? || o.pc.Holding? || o.pc.Owned? ==> o.pc.ref < |o.mem.notes| && o.mem.notes[o.pc.ref].hash == t.note)
      && (t.kind.BT? && t.amount == INIT_NOTE_VALUE ==> o.pc != Finished(false))
      && (Grips(t, p) ==> Grips(t, o.pc))
      && (p.Received? && Transfers(t, h) && h in m.pool ==> o.pc.Holding?)
      && (!Consumes(t, h) && h in m.pool ==> h in o.mem.pool)
      && (!Consumes(t, h) && Puts(t, o.pc, h) ==> Puts(t, p, h) || h in o.mem.pool)
      && (!Consumes(t, h) && o.out.Defer? ==> o.out.h != h)
  {
  }

  /** What one step makes of the transaction `i0` of a ledger and of the note `h`. */
  ghost predicate SparingStep(c: Config, m: Mem, s: Local, m': Mem, s': Local, h: Hash, i0: nat)
    requires i0 < |c.txs| == |s.pc| == |s'.pc|
  {
    var t, p, p' := c.txs[i0], s.pc[i0], s'.pc[i0];
    && (Grips(t, p) ==> Grips(t, p'))
    && ((p.Waiting? || p.Received?) && Transfers(t, h) && h in m.pool ==> p'.Waiting? || p'.Received? || p'.Holding?)
    && (Spares(c, s, h) ==> Spares(c, s', h) && (h in m.pool ==> h in m'.pool))
    && (Spares(c, s, h) && (Puts(t, p, h) ==> h in m.pool) ==> (Puts(t, p', h) ==> h in m'.pool))
  }

  lemma WorkEffect(c: Config, m: Mem, s: Local, w: nat)
    requires Grounded(c, m, s) && Enabled(c, m, s, Work(w)) && s.workers[w].Busy?
    ensures var i := s.workers[w].i;
      var o := TxStep(c.txs[i], s.pc[i], m);
      var (m', s') := WorkStep(c, m, s, w);
      && m' == o.mem && s'.pc == s.pc[i := o.pc] && s'.stage == s.stage
      && s'.deferred == (if o.out.Defer? then s.deferred + [o.out.h] else s.deferred)
  {
  }

  lemma BusySpares(c: Config, m: Mem, s: Local, w: nat, h: Hash, i0: nat)
    requires Grounded(c, m, s) && Enabled(c, m, s, Work(w)) && MemOk(m) && OwnRefs(c, m, s) && i0 < |c.txs| && s.workers[w].Busy?
    ensures var (m', s') := WorkStep(c, m, s, w);
      MemOk(m') && HashesKept(m, m') && OwnRefs(c, m', s') && SparingStep(c, m, s, m', s', h, i0)
  {
    var i := s.workers[w].i;
    TxStepSpares(c.txs[i], s.pc[i], m, h);
    WorkEffect(c, m, s, w);
    assert c.txs[i] in c.txs;
    hide TxStep, WorkStep, Puts, Grips, Consumes, Transfers, MemOk, Grounded, Enabled;
  }

  lemma ReceiveSpares(c: Config, m: Mem, s: Local, w: nat, h: Hash, i0: nat)
    requires Grounded(c, m, s) && Enabled(c, m, s, Work(w)) && OwnRefs(c, m, s) && QueueInv(c, s) && i0 < |c.txs| && !s.workers[w].Busy?
    ensures var (m', s') := WorkStep(c, m, s, w);
      m' == m && OwnRefs(c, m', s') && SparingStep(c, m, s, m', s', h, i0)
  {
    var q := s.queues.Of(StageKind(s.stage));
    if q != [] { assert s.pc[q[0]].Waiting?; }
    hide QueueInv;
  }

  /** One step of a ledger. */
  lemma StepSpares(c: Config, m: Mem, s: Local, a: Action, h: Hash, i0: nat)
    requires Grounded(c, m, s) && Enabled(c, m, s, a) && MemOk(m) && OwnRefs(c, m, s) && QueueInv(c, s) && i0 < |c.txs|
    ensures var (m', s') := Next(c, m, s, a);
      MemOk(m') && HashesKept(m, m') && OwnRefs(c, m', s') && SparingStep(c, m, s, m', s', h, i0)
  {
    hide QueueInv, Puts, Grips;
    match a
    case Work(w) => if s.workers[w].Busy? { BusySpares(c, m, s, w, h, i0); } else { ReceiveSpares(c, m, s, w, h, i0); }
    case Advance => AdvanceSpares(c, m, s, h);
    case _ =>
  }

  lemma AdvanceSpares(c: Config, m: Mem, s: Local, h: Hash)
    requires Grounded(c, m, s) && Enabled(c, m, s, Advance) && MemOk(m) && OwnRefs(c, m, s)
    ensures var (m', s') := AdvanceStep(c, m, s);
      && MemOk(m') && m'.notes == m.notes && s'.pc == s.pc && OwnRefs(c, m', s')
      && (Spares(c, s, h) ==> Spares(c, s', h) && (h in m.pool ==> h in m'.pool))
  {
    if s.stage == DrainStage(None) && s.deferred != [] {
      assert s.deferred == [s.deferred[0]] + s.deferred[1..];
    }
  }

  // Ledgers at work one after another

  ghost predicate Steady(cs: seq<Config>, b: Block) {
    ConfigsOk(cs) && BlockSched(cs, b) && forall l :: 0 <= l < |cs| ==> OwnRefs(cs[l], b.mem, b.ledgers[l])
  }

  lemma StartSteady(cs: seq<Config>, m: Mem, sts: seq<StateTrie>)
    requires ConfigsOk(cs) && MemOk(m) && |sts| == |cs|
    ensures Steady(cs, StartBlock(cs, m, sts))
  {
    StartSched(cs, m, sts);
  }

  lemma MoveSteady(cs: seq<Config>, b: Block, mv: Move)
    requires Steady(cs, b) && CanMove(cs, b, mv)
    ensures Steady(cs, DoMove(cs, b, mv))
  {
    MoveSched(cs, b, mv);
    var k, b' := mv.ledger, DoMove(cs, b, mv);
    MoveRefs(cs, b, mv);
    hide SInv, Next;
    forall l | 0 <= l < |cs| ensures OwnRefs(cs[l], b'.mem, b'.ledgers[l]) {
      if l != k { SameHashes(cs[l], b.mem, b'.mem, b.ledgers[l]); }
    }
  }

  lemma MoveRefs(cs: seq<Config>, b: Block, mv: Move)
    requires Steady(cs, b) && CanMove(cs, b, mv)
    ensures var b' := DoMove(cs, b, mv);
      && HashesKept(b.mem, b'.mem) && OwnRefs(cs[mv.ledger], b'.mem, b'.ledgers[mv.ledger])
  {
    var c, s := cs[mv.ledger], b.ledgers[mv.ledger];
    if |c.txs| > 0 {
      StepSpares(c, b.mem, s, mv.action, 0, 0);
    } else {
      NothingToDo(c, b.mem, s, mv.action);
    }
  }

  lemma NothingToDo(c: Config, m: Mem, s: Local, a: Action)
    requires c.txs == [] && Grounded(c, m, s) && Enabled(c, m, s, a)
    ensures Next(c, m, s, a).0.notes == m.notes && |Next(c, m, s, a).1.pc| == 0
  {
  }

  lemma SameHashes(c: Config, m: Mem, m': Mem, s: Local)
    requires OwnRefs(c, m, s) && HashesKept(m, m')
    ensures OwnRefs(c, m', s)
  {
  }

  /** The next move of a ledger that fits and is not done. */
  lemma LedgerMove(cs: seq<Config>, b: Block, l: nat) returns (mv: Move)
    requires Steady(cs, b) && l < |cs| && Fits(cs[l]) && !b.ledgers[l].stage.DoneStage?
    ensures mv.ledger == l && CanMove(cs, b, mv) && Steady(cs, DoMove(cs, b, mv))
    ensures forall k :: 0 <= k < |cs| && k != l ==> DoMove(cs, b, mv).ledgers[k] == b.ledgers[k]
    ensures forall k :: 0 <= k < |cs| ==> InRange(cs[k], b.ledgers[k]) && InRange(cs[k], DoMove(cs, b, mv).ledgers[k])
    ensures TotalMeasure(cs, DoMove(cs, b, mv).ledgers) < TotalMeasure(cs, b.ledgers)
  {
    assert SInv(cs[l], b.mem, b.ledgers[l]);
    SInvGrounded(cs[l], b.mem, b.ledgers[l]);
    var a := NeverStuck(cs[l], b.mem, b.ledgers[l]);
    mv := Move(l, a);
    hide SInv, Fits, TotalMeasure;
    MoveSteady(cs, b, mv);
    MoveDecreases(cs, b, mv);
  }

  lemma SteadyRange(cs: seq<Config>, b: Block)
    requires Steady(cs, b)
    ensures |b.ledgers| == |cs| && MemOk(b.mem) && forall k :: 0 <= k < |cs| ==> InRange(cs[k], b.ledgers[k])
  {
    SchedInRange(cs, b);
  }

  /** A ledger that fits can be run to its end while all others stand still. */
  lemma {:induction false} RunAlone(cs: seq<Config>, b: Block, l: nat) returns (moves: seq<Move>)
    requires Steady(cs, b) && l < |cs| && Fits(cs[l]) && |b.ledgers| == |cs|
    requires forall k :: 0 <= k < |cs| ==> InRange(cs[k], b.ledgers[k])
    ensures IsRun(cs, b, moves)
    ensures var b' := RunTo(cs, b, moves);
      && Steady(cs, b') && |b'.ledgers| == |cs| && b'.ledgers[l].stage.DoneStage?
      && forall k :: 0 <= k < |cs| && k != l ==> b'.ledgers[k] == b.ledgers[k]
    decreases TotalMeasure(cs, b.ledgers)
  {
    hide Steady, CanMove, DoMove, InRange, TotalMeasure;
    if b.ledgers[l].stage.DoneStage? {
      moves := [];
    } else {
      var mv := LedgerMove(cs, b, l);
      SteadyRange(cs, DoMove(cs, b, mv));
      var rest := RunAlone(cs, DoMove(cs, b, mv), l);
      moves := [mv] + rest;
      assert moves[1..] == rest;
    }
  }

  lemma {:induction false} RunOn(cs: seq<Config>, b: Block, moves: seq<Move>, more: seq<Move>)
    requires IsRun(cs, b, moves) && IsRun(cs, RunTo(cs, b, moves), more)
    ensures IsRun(cs, b, moves + more) && RunTo(cs, b, moves + more) == RunTo(cs, RunTo(cs, b, moves), more)
    decreases |moves|
  {
    if moves == [] {
      assert moves + more == more;
    } else {
      assert (moves + more)[1..] == moves[1..] + more;
      RunOn(cs, DoMove(cs, b, moves[0]), moves[1..], more);
    }
  }

  /** All ledgers below `n` but `l` can be run to their ends while `l` stands still. */
  lemma {:induction false} RunOthers(cs: seq<Config>, b: Block, l: nat, n: nat) returns (moves: seq<Move>)
    requires Steady(cs, b) && l < |cs| && n <= |cs| && |b.ledgers| == |cs| && forall k :: 0 <= k < |cs| ==> Fits(cs[k])
    ensures IsRun(cs, b, moves)
    ensures var b' := RunTo(cs, b, moves);
      && Steady(cs, b') && |b'.ledgers| == |cs| && b'.ledgers[l] == b.ledgers[l]
      && forall k :: 0 <= k < n && k != l ==> b'.ledgers[k].stage.DoneStage?
  {
    hide Steady, Fits, IsRun, RunTo;
    if n == 0 {
      moves := [];
      NoMoves(cs, b);
    } else {
      var first := RunOthers(cs, b, l, n - 1);
      var b1 := RunTo(cs, b, first);
      if n - 1 == l {
        moves := first;
      } else {
        SteadyRange(cs, b1);
        var second := RunAlone(cs, b1, n - 1);
        RunOn(cs, b, first, second);
        moves := first + second;
      }
    }
  }

  lemma NoMoves(cs: seq<Config>, b: Block)
    ensures IsRun(cs, b, []) && RunTo(cs, b, []) == b
  {
  }

  /** The same for a ledger that spares `h`: it does not remove `h`, and puts it where its transaction `i0` does. */
  lemma {:induction false} RunSparing(cs: seq<Config>, b: Block, l: nat, h: Hash, i0: nat) returns (moves: seq<Move>)
    requires Steady(cs, b) && l < |cs| && Fits(cs[l]) && |b.ledgers| == |cs| && i0 < |cs[l].txs| == |b.ledgers[l].pc|
    requires forall k :: 0 <= k < |cs| ==> InRange(cs[k], b.ledgers[k])
    requires Spares(cs[l], b.ledgers[l], h) && (Puts(cs[l].txs[i0], b.ledgers[l].pc[i0], h) ==> h in b.mem.pool)
    ensures IsRun(cs, b, moves)
    ensures var b' := RunTo(cs, b, moves);
      && Steady(cs, b') && |b'.ledgers| == |cs| && b'.ledgers[l].stage.DoneStage?
      && (forall k :: 0 <= k < |cs| && k != l ==> b'.ledgers[k] == b.ledgers[k])
      && |b'.ledgers[l].pc| == |cs[l].txs| && (Puts(cs[l].txs[i0], b'.ledgers[l].pc[i0], h) ==> h in b'.mem.pool)
      && (Grips(cs[l].txs[i0], b.ledgers[l].pc[i0]) ==> Grips(cs[l].txs[i0], b'.ledgers[l].pc[i0]))
    decreases TotalMeasure(cs, b.ledgers)
  {
    hide Steady, CanMove, DoMove, InRange, TotalMeasure, Spares, Puts, Grips;
    if b.ledgers[l].stage.DoneStage? {
      moves := [];
    } else {
      var mv := LedgerMove(cs, b, l);
      SteadyRange(cs, DoMove(cs, b, mv));
      MoveSpares(cs, b, mv, h, i0);
      var rest := RunSparing(cs, DoMove(cs, b, mv), l, h, i0);
      moves := [mv] + rest;
      assert moves[1..] == rest;
    }
  }

  lemma MoveSpares(cs: seq<Config>, b: Block, mv: Move, h: Hash, i0: nat)
    requires Steady(cs, b) && CanMove(cs, b, mv) && i0 < |cs[mv.ledger].txs|
    ensures var c, s, b' := cs[mv.ledger], b.ledgers[mv.ledger], DoMove(cs, b, mv);
      var s' := b'.ledgers[mv.ledger];
      |s.pc| == |s'.pc| == |c.txs| && SparingStep(c, b.mem, s, b'.mem, s', h, i0)
  {
    StepSpares(cs[mv.ledger], b.mem, b.ledgers[mv.ledger], mv.action, h, i0);
  }

  /** Until transaction `i0` holds the pooled note `h` that it transfers. */
  lemma {:induction false} RunUntilHeld(cs: seq<Config>, b: Block, l: nat, h: Hash, i0: nat) returns (moves: seq<Move>)
    requires Steady(cs, b) && l < |cs| && Fits(cs[l]) && |b.ledgers| == |cs| && i0 < |cs[l].txs| == |b.ledgers[l].pc|
    requires forall k :: 0 <= k < |cs| ==> InRange(cs[k], b.ledgers[k])
    requires Spares(cs[l], b.ledgers[l], h) && Transfers(cs[l].txs[i0], h) && h in b.mem.pool
    requires var p := b.ledgers[l].pc[i0]; p.Waiting? || p.Received? || p.Holding?
    ensures IsRun(cs, b, moves)
    ensures var b' := RunTo(cs, b, moves);
      && Steady(cs, b') && |b'.ledgers| == |cs| && |b'.ledgers[l].pc| == |cs[l].txs| && b'.ledgers[l].pc[i0].Holding?
      && Spares(cs[l], b'.ledgers[l], h)
    decreases TotalMeasure(cs, b.ledgers)
  {
    hide CanMove, DoMove, InRange, TotalMeasure, Spares, Puts, Grips, Fits;
    if b.ledgers[l].pc[i0].Holding? {
      moves := [];
    } else {
      DoneHolds(cs, b, l, i0);
      hide Steady;
      var mv := LedgerMove(cs, b, l);
      SteadyRange(cs, DoMove(cs, b, mv));
      MoveSpares(cs, b, mv, h, i0);
      var rest := RunUntilHeld(cs, DoMove(cs, b, mv), l, h, i0);
      moves := [mv] + rest;
      assert moves[1..] == rest;
    }
  }

  lemma DoneHolds(cs: seq<Config>, b: Block, l: nat, i0: nat)
    requires Steady(cs, b) && l < |cs| && i0 < |cs[l].txs|
    ensures |b.ledgers| == |cs| && |b.ledgers[l].pc| == |cs[l].txs|
    ensures b.ledgers[l].stage.DoneStage? ==> b.ledgers[l].pc[i0].Finished?
    ensures b.ledgers[l].stage.DoneStage? && Revives(cs[l].txs[i0], cs[l].txs[i0].note) ==> b.ledgers[l].pc[i0] == Finished(true)
  {
    assert SInv(cs[l], b.mem, b.ledgers[l]);
    assert cs[l].txs[i0] in cs[l].txs;
  }

  // The theorems

  /** The transactions that consume `h` are all in other ledgers than `t`. */
  ghost predicate ConsumedElsewhere(ledgers: nat, batch: seq<BanknoteTx>, t: BanknoteTx, h: Hash)
    requires ledgers > 0
  {
    forall u :: u in batch && Consumes(u, h) ==> GetLedgerHashByID(ledgers, u.txHash) != GetLedgerHashByID(ledgers, t.txHash)
  }

  lemma StartSpares(ledgers: nat, batch: seq<BanknoteTx>, cs: seq<Config>, m: Mem, sts: seq<StateTrie>, t: BanknoteTx, h: Hash)
    returns (l: nat, i0: nat)
    requires ledgers > 0 && Executes(ledgers, batch, cs) && |sts| == |cs| && t in batch && !t.kind.NT? && ConsumedElsewhere(ledgers, batch, t, h)
    ensures l < |cs| && i0 < |cs[l].txs| && cs[l].txs[i0] == t && Spares(cs[l], Start(cs[l], sts[l]), h)
    ensures |Start(cs[l], sts[l]).pc| == |cs[l].txs| && Start(cs[l], sts[l]).pc[i0].Waiting?
  {
    l := GetLedgerHashByID(ledgers, t.txHash);
    assert cs[l].txs == ActionTxs(ledgers, batch, l);
    assert t in cs[l].txs;
    i0 :| 0 <= i0 < |cs[l].txs| && cs[l].txs[i0] == t;
  }

  /** The last ledger to end puts `h` into the pool, if its transaction produces it, creates it or holds it. */
  lemma RunLast(cs: seq<Config>, b: Block, l: nat, h: Hash, i0: nat) returns (moves: seq<Move>)
    requires Steady(cs, b) && l < |cs| && Fits(cs[l]) && |b.ledgers| == |cs| && i0 < |cs[l].txs| == |b.ledgers[l].pc|
    requires forall k :: 0 <= k < |cs| && k != l ==> b.ledgers[k].stage.DoneStage?
    requires Spares(cs[l], b.ledgers[l], h) && !Puts(cs[l].txs[i0], b.ledgers[l].pc[i0], h)
    requires var t := cs[l].txs[i0]; Produces(t, h) || Revives(t, h) || (Transfers(t, h) && Grips(t, b.ledgers[l].pc[i0]))
    ensures IsRun(cs, b, moves) && AllDone(RunTo(cs, b, moves)) && h in RunTo(cs, b, moves).mem.pool
  {
    hide Steady, Fits, Spares, IsRun, RunTo, Puts, Grips, Produces, Revives, Transfers;
    SteadyRange(cs, b);
    moves := RunSparing(cs, b, l, h, i0);
    var b' := RunTo(cs, b, moves);
    DoneHolds(cs, b', l, i0);
    DonePuts(cs[l].txs[i0], b'.ledgers[l].pc[i0], h);
  }

  lemma DonePuts(t: BanknoteTx, p: Pc, h: Hash)
    requires p.Finished? && (Revives(t, t.note) ==> p == Finished(true))
    requires Produces(t, h) || Revives(t, h) || (Transfers(t, h) && Grips(t, p))
    ensures Puts(t, p, h)
  {
  }

  /** All other ledgers, and then this one. */
  lemma OthersFirst(cs: seq<Config>, b: Block, l: nat, h: Hash, i0: nat) returns (moves: seq<Move>)
    requires Steady(cs, b) && l < |cs| && |b.ledgers| == |cs| && i0 < |cs[l].txs| == |b.ledgers[l].pc|
    requires forall k :: 0 <= k < |cs| ==> Fits(cs[k])
    requires Spares(cs[l], b.ledgers[l], h) && !Puts(cs[l].txs[i0], b.ledgers[l].pc[i0], h)
    requires var t := cs[l].txs[i0]; Produces(t, h) || Revives(t, h) || (Transfers(t, h) && Grips(t, b.ledgers[l].pc[i0]))
    ensures IsRun(cs, b, moves) && AllDone(RunTo(cs, b, moves)) && h in RunTo(cs, b, moves).mem.pool
  {
    hide Steady, Fits, Spares, IsRun, RunTo, Puts, Grips, Produces, Revives, Transfers;
    var first := RunOthers(cs, b, l, |cs|);
    var second := RunLast(cs, RunTo(cs, b, first), l, h, i0);
    RunOn(cs, b, first, second);
    moves := first + second;
  }

  /** A note that one ledger produces, or creates on transfer, and only others consume, is kept by some complete
      run: the others end before that ledger begins. */
  lemma ConsumedBefore(ledgers: nat, batch: seq<BanknoteTx>, cs: seq<Config>, m: Mem, sts: seq<StateTrie>, t: BanknoteTx, h: Hash)
    returns (moves: seq<Move>)
    requires ledgers > 0 && Executes(ledgers, batch, cs) && MemOk(m) && |sts| == |cs| && forall l :: 0 <= l < |cs| ==> Fits(cs[l])
    requires t in batch && (Produces(t, h) || Revives(t, h)) && ConsumedElsewhere(ledgers, batch, t, h)
    ensures Completes(cs, m, sts, moves) && h in Final(cs, m, sts, moves).mem.pool
  {
    var l, i0 := StartSpares(ledgers, batch, cs, m, sts, t, h);
    var b0 := StartBlock(cs, m, sts);
    StartAt(cs, m, sts, l);
    hide Steady, Fits, Spares, IsRun, RunTo, Executes, ConsumedElsewhere, StartBlock, Start;
    moves := OthersFirst(cs, b0, l, h, i0);
  }

  lemma StartAt(cs: seq<Config>, m: Mem, sts: seq<StateTrie>, l: nat)
    requires ConfigsOk(cs) && MemOk(m) && |sts| == |cs| && l < |cs|
    ensures var b := StartBlock(cs, m, sts);
      && Steady(cs, b) && |b.ledgers| == |cs| && b.ledgers[l] == Start(cs[l], sts[l]) && b.mem == m
      && forall k :: 0 <= k < |cs| ==> InRange(cs[k], b.ledgers[k])
  {
    StartSteady(cs, m, sts);
    SteadyRange(cs, StartBlock(cs, m, sts));
  }

  /** A transfer that holds its note has not yet put it into the pool, but will. */
  lemma HoldingGrips(t: BanknoteTx, h: Hash)
    requires Transfers(t, h)
    ensures forall p: Pc :: p.Holding? ==> Grips(t, p) && !Puts(t, p, h)
  {
  }

  /** A pooled note that one ledger transfers and only others consume is kept by some complete run: the others
      end while that ledger holds the note. */
  lemma ConsumedWhileHeld(ledgers: nat, batch: seq<BanknoteTx>, cs: seq<Config>, m: Mem, sts: seq<StateTrie>, t: BanknoteTx, h: Hash)
    returns (moves: seq<Move>)
    requires ledgers > 0 && Executes(ledgers, batch, cs) && MemOk(m) && |sts| == |cs| && forall l :: 0 <= l < |cs| ==> Fits(cs[l])
    requires t in batch && Transfers(t, h) && h in m.pool && ConsumedElsewhere(ledgers, batch, t, h)
    ensures Completes(cs, m, sts, moves) && h in Final(cs, m, sts, moves).mem.pool
  {
    var l, i0 := StartSpares(ledgers, batch, cs, m, sts, t, h);
    var b0 := StartBlock(cs, m, sts);
    StartAt(cs, m, sts, l);
    hide Steady, Fits, Spares, IsRun, RunTo, Executes, ConsumedElsewhere, StartBlock, Start, InRange, Puts, Grips, Transfers;
    HoldingGrips(t, h);
    var first := RunUntilHeld(cs, b0, l, h, i0);
    var b1 := RunTo(cs, b0, first);
    var second := OthersFirst(cs, b1, l, h, i0);
    RunOn(cs, b0, first, second);
    moves := first + second;
  }

  /** So without one ledger per note the phase theorem fails: when a life-cycle-respecting batch consumes a note
      only in other ledgers than one that produces it, creates it on transfer, or transfers it from the pool,
      some complete run keeps the note, which the log-order run does not. */
  lemma CrossLedgerBreaks(ledgers: nat, batch: seq<BanknoteTx>, cs: seq<Config>, m: Mem, sts: seq<StateTrie>, t: BanknoteTx, h: Hash)
    returns (moves: seq<Move>)
    requires ledgers > 0 && Executes(ledgers, batch, cs) && MemOk(m) && |sts| == |cs| && forall l :: 0 <= l < |cs| ==> Fits(cs[l])
    requires LifecycleRespecting(ViewOf(m), batch) && Consumed(batch, h)
    requires t in batch && ConsumedElsewhere(ledgers, batch, t, h)
    requires Produces(t, h) || Revives(t, h) || (Transfers(t, h) && h in m.pool)
    ensures Completes(cs, m, sts, moves) && !EndsAsLog(batch, cs, m, sts, moves)
  {
    LogSettled(ViewOf(m), batch);
    assert !Survives(ViewOf(m), batch, h);
    hide LifecycleRespecting, RunLog, Fits, IsRun, RunTo, Executes;
    if Produces(t, h) || Revives(t, h) {
      moves := ConsumedBefore(ledgers, batch, cs, m, sts, t, h);
    } else {
      moves := ConsumedWhileHeld(ledgers, batch, cs, m, sts, t, h);
    }
    NotAsLog(batch, cs, m, sts, moves, h);
  }

  lemma NotAsLog(batch: seq<BanknoteTx>, cs: seq<Config>, m: Mem, sts: seq<StateTrie>, moves: seq<Move>, h: Hash)
    requires MemOk(m) && |sts| == |cs| && Completes(cs, m, sts, moves)
    requires h in Final(cs, m, sts, moves).mem.pool && h !in RunLog(ViewOf(m), batch)
    ensures !EndsAsLog(batch, cs, m, sts, moves)
  {
    hide RunLog, IsRun, RunTo;
    var b := Final(cs, m, sts, moves);
    if MemOk(b.mem) { assert h in ViewOf(b.mem).Keys; }
  }

  // Concretely

  /** Note 1 is minted by a transaction of ledger 1, then split by one of ledger 0. */
  const MINT := BanknoteTx(1, BG, 5, ZERO_ADDRESS, 1, 40, 0, 0, 0, 0)

  const SPLIT := BanknoteTx(2, BS, 5, 5, 1, 40, 2, 30, 3, 10)

  /** The batch respects the life cycle and has no hazard, yet some run of it does not end as the log does. */
  lemma CrossExample()
    ensures LifecycleRespecting(map[], [MINT, SPLIT]) && HazardFree(map[], [MINT, SPLIT])
    ensures Consumed([MINT, SPLIT], 1) && Produces(MINT, 1) && ConsumedElsewhere(2, [MINT, SPLIT], MINT, 1)
  {
    assert Related(MINT, SPLIT);
    assert Sound(map[], MINT) && Sound(map[], SPLIT);
    assert SPLIT in [MINT, SPLIT] && Consumes(SPLIT, 1);
  }
}
