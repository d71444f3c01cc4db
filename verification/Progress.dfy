/** When a ledger finishes: every step uses up a bounded measure, and a ledger that cannot step has
    finished exactly when its split, transfer and recycling transactions each fit their channel. */
module Progress {
  import opened BanknoteTypes
  import opened LedgerMachine
  import opened Schedule

  /** How many further steps a transaction and its channel messages can cause, at most. */
  function Weight(p: Pc): nat {
    match p
    case Waiting => 11
    case Received => 10
    case Absent => 8
    case Recorded => 7
    case Missing => 7
    case Found(_) => 6
    case Cleared(_) => 4
    case Half(_) => 3
    case Holding(_) => 3
    case Owned(_) => 2
    case Finished(_) => 0
  }

  function SumWeight(pc: seq<Pc>): nat {
    if pc == [] then 0 else SumWeight(pc[..|pc| - 1]) + Weight(pc[|pc| - 1])
  }

  lemma {:induction false} SumWeightUpdate(pc: seq<Pc>, i: nat, p: Pc)
    requires i < |pc|
    ensures SumWeight(pc[i := p]) == SumWeight(pc) - Weight(pc[i]) + Weight(p)
  {
    var n := |pc| - 1;
    if i == n {
      assert pc[i := p][..n] == pc[..n];
    } else {
      assert pc[i := p][..n] == pc[..n][i := p];
      SumWeightUpdate(pc[..n], i, p);
    }
  }

  function Alive(ws: seq<Worker>): nat {
    if ws == [] then 0 else Alive(ws[..|ws| - 1]) + if ws[|ws| - 1].Exited? then 0 else 1
  }

  lemma {:induction false} AliveUpdate(ws: seq<Worker>, w: nat, x: Worker)
    requires w < |ws|
    ensures Alive(ws[w := x]) == Alive(ws) - (if ws[w].Exited? then 0 else 1) + (if x.Exited? then 0 else 1)
  {
    var n := |ws| - 1;
    if w == n {
      assert ws[w := x][..n] == ws[..n];
    } else {
      assert ws[w := x][..n] == ws[..n][w := x];
      AliveUpdate(ws[..n], w, x);
    }
  }

  lemma {:induction false} AliveBound(ws: seq<Worker>)
    ensures Alive(ws) <= |ws|
    ensures AllExited(ws) ==> Alive(ws) == 0
  {
    if ws != [] { AliveBound(ws[..|ws| - 1]); }
  }

  lemma {:induction false} AliveAppend(ws: seq<Worker>, vs: seq<Worker>)
    ensures Alive(ws + vs) <= Alive(ws) + |vs|
  {
    if vs == [] {
      assert ws + vs == ws;
    } else {
      assert (ws + vs)[..|ws + vs| - 1] == ws + vs[..|vs| - 1];
      AliveAppend(ws, vs[..|vs| - 1]);
    }
  }

  /** The workers still to be started, and the phases still to be left. */
  function StagesLeft(s: Stage, workers: nat): nat {
    match s
    case MintStage => 6 * workers + 6
    case SplitStage => 5 * workers + 5
    case MoveStage => 4 * workers + 4
    case DrainStage(_) => 3 * workers + 3
    case RecycleStage => 2 * workers + 2
    case JoinStage => workers + 1
    case DoneStage => 0
  }

  /** The part of the measure that the main goroutine uses up. */
  function MainPart(c: Config, s: Local): nat {
    2 * |s.deferred| + (if s.stage.DrainStage? && s.stage.held.Some? then 1 else 0)
    + Alive(s.workers) + StagesLeft(s.stage, c.workers)
    + (match s.trie case Collecting => 2 case Signalling => 1 case Returned => 0)
  }

  predicate InRange(c: Config, s: Local) { s.next <= |c.txs| && s.closed <= 4 }

  function Measure(c: Config, s: Local): nat
    requires InRange(c, s)
  {
    SumWeight(s.pc) + (|c.txs| - s.next) + (4 - s.closed) + |s.acct| + MainPart(c, s)
  }

  lemma TxStepLighter(t: BanknoteTx, p: Pc, m: Mem)
    requires Active(p) && PcFits(t.kind, p) && RefOk(p, m)
    ensures var o := TxStep(t, p, m);
      Weight(o.pc) + (match o.out case Silent => 0 case Send(_) => 1 case Defer(_) => 2) < Weight(p)
  {
  }

  lemma ReceiveDecreases(c: Config, m: Mem, s: Local, w: nat)
    requires InRange(c, s) && Grounded(c, m, s) && Enabled(c, m, s, Work(w)) && s.workers[w].Idle?
    requires s.queues.Of(StageKind(s.stage)) != [] ==> s.pc[s.queues.Of(StageKind(s.stage))[0]].Waiting?
    ensures var s' := WorkStep(c, m, s, w).1; InRange(c, s') && Measure(c, s') < Measure(c, s)
  {
    var q := s.queues.Of(StageKind(s.stage));
    if q != [] {
      SumWeightUpdate(s.pc, q[0], Received);
      AliveUpdate(s.workers, w, Busy(q[0]));
    } else {
      AliveUpdate(s.workers, w, Exited);
    }
  }

  lemma BusyDecreases(c: Config, m: Mem, s: Local, w: nat)
    requires InRange(c, s) && Grounded(c, m, s) && Enabled(c, m, s, Work(w)) && s.workers[w].Busy?
    ensures var s' := WorkStep(c, m, s, w).1; InRange(c, s') && Measure(c, s') < Measure(c, s)
  {
    var i := s.workers[w].i;
    TxStepLighter(c.txs[i], s.pc[i], m);
    var o := TxStep(c.txs[i], s.pc[i], m);
    var s' := WorkStep(c, m, s, w).1;
    assert s'.pc == s.pc[i := o.pc];
    SumWeightUpdate(s.pc, i, o.pc);
    AliveUpdate(s.workers, w, Idle);
    BusyMeasure(c, s, s', w, o);
  }

  lemma BusyMeasure(c: Config, s: Local, s': Local, w: nat, o: Outcome)
    requires InRange(c, s) && w < |s.workers| && s.workers[w].Busy?
    requires Alive(s.workers[w := Idle]) == Alive(s.workers)
    requires SumWeight(s'.pc) + (match o.out case Silent => 0 case Send(_) => 1 case Defer(_) => 2) < SumWeight(s.pc)
    requires s' == Deliver(s.(pc := s'.pc, workers := if o.pc.Finished? then s.workers[w := Idle] else s.workers), o.out)
    ensures InRange(c, s') && Measure(c, s') < Measure(c, s)
  {
  }

  lemma AdvanceDecreases(c: Config, m: Mem, s: Local)
    requires InRange(c, s) && Grounded(c, m, s) && Enabled(c, m, s, Advance) && c.workers > 0
    ensures var s' := AdvanceStep(c, m, s).1;
      && s'.next == s.next && s'.closed == s.closed && s'.pc == s.pc && s'.acct == s.acct
      && MainPart(c, s') < MainPart(c, s)
  {
    if s.stage.DrainStage? {
      DrainDecreases(c, m, s);
    } else {
      var s' := AdvanceStep(c, m, s).1;
      AliveBound(s'.workers);
      if s.stage.RecycleStage? || s.stage.JoinStage? { assert s'.workers == s.workers; }
    }
  }

  lemma DrainDecreases(c: Config, m: Mem, s: Local)
    requires InRange(c, s) && Grounded(c, m, s) && Enabled(c, m, s, Advance) && c.workers > 0 && s.stage.DrainStage?
    ensures var s' := AdvanceStep(c, m, s).1;
      && s'.next == s.next && s'.closed == s.closed && s'.pc == s.pc && s'.acct == s.acct
      && MainPart(c, s') < MainPart(c, s)
  {
    var others := seq(c.workers - 1, _ => Idle);
    AliveAppend(s.workers, others);
    assert |others| == c.workers - 1;
    if s.stage.held.None? && s.deferred == [] {
      assert AdvanceStep(c, m, s).1 == s.(stage := RecycleStage, workers := s.workers + others);
    }
  }

  /** Every step of every goroutine decreases the measure. */
  lemma StepDecreases(c: Config, m: Mem, s: Local, a: Action)
    requires ConfigOk(c) && SInv(c, m, s) && Grounded(c, m, s) && Enabled(c, m, s, a)
    ensures var s' := Next(c, m, s, a).1;
      s'.next <= |c.txs| && s'.closed <= 4 && Measure(c, s') < Measure(c, s)
  {
    hide FifoInv, BusyInv, ExitInv, Barrier, CountInv, ChannelInv, ShapeInv, TxStep, WorkStep, AdvanceStep;
    match a
    case Work(w) => if s.workers[w].Busy? { BusyDecreases(c, m, s, w); } else { ReceiveDecreases(c, m, s, w); }
    case Advance => AdvanceDecreases(c, m, s);
    case _ =>
  }

  /** The split, transfer and recycling transactions each fit the channel that must hold them until their phase. */
  predicate Fits(c: Config) {
    CountKind(c.txs, BS) <= c.chanSize && CountKind(c.txs, BT) <= c.chanSize && CountKind(c.txs, BR) <= c.chanSize
  }

  /** No worker but possibly one is inside its loop body. */
  ghost predicate OneBusy(s: Local) {
    forall v, w :: 0 <= v < w < |s.workers| ==> !(s.workers[v].Busy? && s.workers[w].Busy?)
  }

  /** The splits are processed one after the other in log order. */
  ghost predicate SplitsInOrder(c: Config, s: Local) {
    |s.pc| == |c.txs| &&
    forall i, j :: 0 <= i < j < |s.pc| && c.txs[i].kind.BS? && c.txs[j].kind.BS? && !s.pc[j].Waiting? ==> s.pc[i].Finished?
  }

  predicate Receives(s: Local, a: Action) {
    a.Work? && a.w < |s.workers| && s.workers[a.w].Idle? && s.queues.Of(StageKind(s.stage)) != []
  }

  lemma BusyCanStep(c: Config, m: Mem, s: Local, w: nat) returns (a: Action)
    requires ConfigOk(c) && SInv(c, m, s) && Grounded(c, m, s) && Fits(c)
    requires w < |s.workers| && s.workers[w].Busy?
    ensures Enabled(c, m, s, a) && !Receives(s, a)
  {
    var i := s.workers[w].i;
    assert StageRank(s.stage) < 4;
    if HasRoom(c, s, OutputOf(c.txs[i], s.pc[i])) {
      a := Work(w);
    } else {
      if OutputOf(c.txs[i], s.pc[i]).Defer? {
        CountDeferredBound(c.txs, s.pc, i);
        assert false;
      }
      a := Trie;
    }
  }

  lemma NoRoomMeansMinting(c: Config, m: Mem, s: Local)
    requires ConfigOk(c) && SInv(c, m, s) && Grounded(c, m, s) && Fits(c)
    requires s.next < |c.txs| && !Enabled(c, m, s, Dispatch) && Idle in s.workers
    ensures s.stage.MintStage? && s.queues.Of(BG) != []
  {
    hide FifoInv, BusyInv, ChannelInv, Grounded;
    var k := c.txs[s.next].kind;
    assert c.txs[s.next] in c.txs;
    CountPrefix(c.txs, s.next, k);
    assert |s.queues.Of(k)| <= CountKind(c.txs[..s.next], k);
    assert k == BG;
    assert s.pc[s.next].Waiting?;
  }

  /** A ledger whose phases fit is never stuck before it is done. The step found keeps the workers to
      one transaction at a time. */
  lemma NeverStuck(c: Config, m: Mem, s: Local) returns (a: Action)
    requires ConfigOk(c) && SInv(c, m, s) && Grounded(c, m, s) && Fits(c) && !s.stage.DoneStage?
    ensures Enabled(c, m, s, a)
    ensures Receives(s, a) ==> forall w :: 0 <= w < |s.workers| ==> !s.workers[w].Busy?
  {
    if w: nat :| w < |s.workers| && s.workers[w].Busy? {
      a := BusyCanStep(c, m, s, w);
    } else if s.next < |c.txs| && Enabled(c, m, s, Dispatch) {
      a := Dispatch;
    } else if s.next == |c.txs| && s.closed < 4 {
      a := Close;
    } else if s.stage.JoinStage? {
      a := if s.trie.Collecting? then Trie else Advance;
    } else if w: nat :| w < |s.workers| && s.workers[w].Idle? {
      if s.next < |c.txs| { NoRoomMeansMinting(c, m, s); }
      a := Work(w);
    } else {
      assert AllExited(s.workers);
      a := Advance;
    }
  }

  lemma SerialReceive(c: Config, m: Mem, s: Local, w: nat)
    requires ConfigOk(c) && SInv(c, m, s) && Grounded(c, m, s) && Enabled(c, m, s, Work(w))
    requires SplitsInOrder(c, s) && Receives(s, Work(w))
    requires forall v :: 0 <= v < |s.workers| ==> !s.workers[v].Busy?
    ensures var s' := Next(c, m, s, Work(w)).1; OneBusy(s') && SplitsInOrder(c, s')
  {
    var q := s.queues.Of(StageKind(s.stage));
    assert c.txs[q[0]].kind == StageKind(s.stage) && s.pc[q[0]].Waiting?;
    forall i | 0 <= i < q[0] && c.txs[i].kind == c.txs[q[0]].kind
      ensures s.pc[i].Finished?
    {
      assert Busy(i) !in s.workers;
      assert i !in q;
    }
  }

  lemma SerialBusy(c: Config, m: Mem, s: Local, w: nat)
    requires Grounded(c, m, s) && Enabled(c, m, s, Work(w)) && s.workers[w].Busy? && MemOk(m)
    requires OneBusy(s) && SplitsInOrder(c, s)
    ensures var s' := Next(c, m, s, Work(w)).1; OneBusy(s') && SplitsInOrder(c, s')
  {
    var i := s.workers[w].i;
    TxStepShape(c.txs[i], s.pc[i], m);
    var p := TxStep(c.txs[i], s.pc[i], m).pc;
    var s' := Next(c, m, s, Work(w)).1;
    assert s'.pc == s.pc[i := p] && !p.Waiting? && Active(s.pc[i]);
  }

  lemma SerialStep(c: Config, m: Mem, s: Local, a: Action)
    requires ConfigOk(c) && MemOk(m) && SInv(c, m, s) && Grounded(c, m, s) && Enabled(c, m, s, a)
    requires OneBusy(s) && SplitsInOrder(c, s)
    requires Receives(s, a) ==> forall w :: 0 <= w < |s.workers| ==> !s.workers[w].Busy?
    ensures var s' := Next(c, m, s, a).1; OneBusy(s') && SplitsInOrder(c, s')
  {
    if Receives(s, a) {
      SerialReceive(c, m, s, a.w);
    } else if a.Work? && s.workers[a.w].Busy? {
      SerialBusy(c, m, s, a.w);
    } else if a.Advance? {
      AdvanceWorkers(c, m, s);
    }
  }

  lemma AdvanceWorkers(c: Config, m: Mem, s: Local)
    requires Grounded(c, m, s) && Enabled(c, m, s, Advance) && OneBusy(s) && c.workers > 0
    ensures var s' := Next(c, m, s, Advance).1; OneBusy(s') && s'.pc == s.pc
  {
  }

  // A ledger that does not fit

  /** While minting, the other channels hold all that was dispatched to them. */
  ghost predicate Backlog(c: Config, s: Local) {
    s.stage.MintStage? && s.next <= |c.txs| &&
    forall k :: k != BG ==> |s.queues.Of(k)| == CountKind(c.txs[..s.next], k) && |s.queues.Of(k)| <= c.chanSize
  }

  lemma UnfitDispatching(c: Config, m: Mem, s: Local)
    requires ConfigOk(c) && SInv(c, m, s) && !Fits(c) && Backlog(c, s)
    ensures s.next < |c.txs| && !AllExited(s.workers)
  {
    var k := if CountKind(c.txs, BS) > c.chanSize then BS else if CountKind(c.txs, BT) > c.chanSize then BT else BR;
    assert c.txs[..|c.txs|] == c.txs;
    assert |s.queues.Of(k)| == CountKind(c.txs[..s.next], k) && |s.queues.Of(k)| <= c.chanSize;
    assert s.workers[0] in s.workers;
  }

  lemma BacklogDispatch(c: Config, m: Mem, s: Local)
    requires ConfigOk(c) && Grounded(c, m, s) && Enabled(c, m, s, Dispatch) && Backlog(c, s)
    ensures Backlog(c, Next(c, m, s, Dispatch).1)
  {
    var l := c.txs[s.next].kind;
    assert c.txs[s.next] in c.txs;
    WithOf(s.queues, l, s.queues.Of(l) + [s.next]);
    assert c.txs[..s.next + 1] == c.txs[..s.next] + [c.txs[s.next]];
    assert c.txs[..s.next + 1][..s.next] == c.txs[..s.next];
  }

  /** The dispatcher of a ledger that does not fit is blocked for ever, and so is the first phase. */
  lemma BacklogKept(c: Config, m: Mem, s: Local, a: Action)
    requires ConfigOk(c) && SInv(c, m, s) && Grounded(c, m, s) && Enabled(c, m, s, a)
    requires !Fits(c) && Backlog(c, s)
    ensures Backlog(c, Next(c, m, s, a).1)
  {
    hide FifoInv, BusyInv, CountInv, ChannelInv, Barrier, QueueInv, ShapeInv, TxStep, Fits;
    UnfitDispatching(c, m, s);
    match a
    case Dispatch => BacklogDispatch(c, m, s);
    case Work(w) =>
      if s.workers[w].Idle? && s.queues.Of(BG) != [] { WithOf(s.queues, BG, s.queues.Of(BG)[1..]); }
    case _ =>
  }
}
