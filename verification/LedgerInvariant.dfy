/** Everything that one ledger's steps keep, put together, and what the ledger has done when it is done. */
module LedgerInvariant {
  import opened BanknoteTypes
  import opened Lifecycle
  import opened Accounts
  import opened Netting
  import opened LedgerMachine
  import opened Schedule
  import opened PoolInvariant
  import opened OwnerInvariant
  import opened RecordInvariant

  /** The split sources that were not found: those still deferred, the one being removed, those removed. */
  function WaitingOf(s: Local): set<Hash> {
    (set h | h in s.deferred) + s.drained +
    if s.stage.DrainStage? && s.stage.held.Some? then {s.stage.held.value} else {}
  }

  /** The facts about notes, taken together. */
  ghost predicate NoteInv(v: View, txs: seq<BanknoteTx>, m: Mem, pc: seq<Pc>, waiting: set<Hash>, drained: set<Hash>, rank: nat) {
    && PoolInv(v, txs, m, pc, waiting, drained, rank)
    && OwnersInv(v, txs, m, pc)
  }

  ghost predicate LedgerInv(c: Config, v: View, st0: StateTrie, m: Mem, s: Local) {
    && SInv(c, m, s)
    && NoteInv(v, c.txs, m, s.pc, WaitingOf(s), s.drained, StageRank(s.stage))
    && RecordInv(c, st0, s)
  }

  /** The hashes a batch touches. */
  function AllTouched(txs: seq<BanknoteTx>): (s: set<Hash>)
    ensures forall h :: h in s <==> TouchedBy(txs, h)
  {
    if txs == [] then {}
    else
      assert forall t :: t in txs <==> t in txs[..|txs| - 1] || t == txs[|txs| - 1];
      AllTouched(txs[..|txs| - 1]) + TouchSet(txs[|txs| - 1])
  }

  lemma FrameWider(m: Mem, m': Mem, touched: set<Hash>, wider: set<Hash>)
    requires Frame(m, m', touched) && touched <= wider
    ensures Frame(m, m', wider)
  {
  }

  lemma StartLedger(c: Config, m: Mem, st0: StateTrie)
    requires ConfigOk(c) && MemOk(m)
    ensures LedgerInv(c, ViewOf(m), st0, m, Start(c, st0))
  {
    var s := Start(c, st0);
    StartSInv(c, m, st0);
    assert forall i :: 0 <= i < |s.pc| ==> s.pc[i] == Waiting && c.txs[i] in c.txs;
    assert WaitingOf(s) == {};
    StartPoolInv(m, c.txs, s.pc);
    StartOwners(m, c.txs, s.pc);
    StartRecords(c, st0);
  }

  lemma StepNotes(v: View, txs: seq<BanknoteTx>, m: Mem, pc: seq<Pc>, waiting: set<Hash>, drained: set<Hash>, i: nat)
    requires i < |txs| && FreshOutputs(v, txs) && NoteInv(v, txs, m, pc, waiting, drained, Rank(txs[i].kind)) && Active(pc[i])
    requires PcFits(txs[i].kind, pc[i]) && RefOk(pc[i], m)
    ensures var o := TxStep(txs[i], pc[i], m);
      && NoteInv(v, txs, o.mem, pc[i := o.pc], WaitingAfter(waiting, o.out), drained, Rank(txs[i].kind))
      && Frame(m, o.mem, AllTouched(txs))
  {
    var t := txs[i];
    StepPoolInv(v, txs, m, pc, waiting, drained, i);
    StepOwners(v, txs, m, pc, waiting, drained, i);
    assert PcInv(v, txs, m, pc, waiting, t, pc[i]);
    StepFrame(t, pc[i], m);
    assert t in txs;
    assert TouchSet(t) <= AllTouched(txs) by {
      forall h | h in TouchSet(t) ensures h in AllTouched(txs) { assert Touches(t, h) && TouchedBy(txs, h); }
    }
    FrameWider(m, TxStep(t, pc[i], m).mem, TouchSet(t), AllTouched(txs));
  }

  lemma ReceiveNotes(v: View, txs: seq<BanknoteTx>, m: Mem, pc: seq<Pc>, waiting: set<Hash>, drained: set<Hash>, i: nat)
    requires i < |txs| && NoteInv(v, txs, m, pc, waiting, drained, Rank(txs[i].kind)) && pc[i].Waiting?
    ensures NoteInv(v, txs, m, pc[i := Received], waiting, drained, Rank(txs[i].kind))
  {
    ReceivePoolInv(v, txs, m, pc, waiting, drained, i);
    ReceiveOwners(v, txs, m, pc, i);
  }

  lemma DrainNotes(v: View, txs: seq<BanknoteTx>, m: Mem, pc: seq<Pc>, waiting: set<Hash>, drained: set<Hash>, h: Hash)
    requires NoteInv(v, txs, m, pc, waiting, drained, 3) && h in waiting
    ensures NoteInv(v, txs, Delete(m, h), pc, waiting, drained + {h}, 3) && Frame(m, Delete(m, h), AllTouched(txs))
  {
    DrainPoolInv(v, txs, m, pc, waiting, drained, h);
    DeleteOwners(v, txs, m, pc, h);
    DeferredTouched(txs, pc, waiting, h);
    DeleteFrame(m, h, AllTouched(txs));
  }

  lemma RankNotes(v: View, txs: seq<BanknoteTx>, m: Mem, pc: seq<Pc>, waiting: set<Hash>, drained: set<Hash>, rank: nat)
    requires NoteInv(v, txs, m, pc, waiting, drained, rank) && RankOk(txs, pc, rank + 1)
    ensures NoteInv(v, txs, m, pc, waiting, drained, rank + 1)
  {
    RankPoolInv(v, txs, m, pc, waiting, drained, rank);
  }

  lemma BusyLedger(c: Config, v: View, m: Mem, s: Local, w: nat)
    requires Grounded(c, m, s) && FreshOutputs(v, c.txs) && BusyInv(c, s)
    requires NoteInv(v, c.txs, m, s.pc, WaitingOf(s), s.drained, StageRank(s.stage))
    requires Enabled(c, m, s, Work(w)) && s.workers[w].Busy?
    ensures var (m', s') := WorkStep(c, m, s, w);
      && NoteInv(v, c.txs, m', s'.pc, WaitingOf(s'), s'.drained, StageRank(s'.stage))
      && Frame(m, m', AllTouched(c.txs))
  {
    hide NoteInv, BusyInv, FreshOutputs, TxStep;
    var i := s.workers[w].i;
    var (m', s') := WorkStep(c, m, s, w);
    BusyStep(c, m, s, w);
    StepNotes(v, c.txs, m, s.pc, WaitingOf(s), s.drained, i);
    assert WaitingOf(s') == WaitingAfter(WaitingOf(s), TxStep(c.txs[i], s.pc[i], m).out);
  }

  lemma ReceiveLedger(c: Config, v: View, m: Mem, s: Local, w: nat)
    requires Grounded(c, m, s) && QueueInv(c, s)
    requires NoteInv(v, c.txs, m, s.pc, WaitingOf(s), s.drained, StageRank(s.stage))
    requires Enabled(c, m, s, Work(w)) && s.workers[w].Idle?
    ensures var (m', s') := WorkStep(c, m, s, w);
      && NoteInv(v, c.txs, m', s'.pc, WaitingOf(s'), s'.drained, StageRank(s'.stage))
      && m' == m
  {
    var q := s.queues.Of(StageKind(s.stage));
    var s' := WorkStep(c, m, s, w).1;
    assert WaitingOf(s') == WaitingOf(s) && s'.stage == s.stage && s'.drained == s.drained;
    if q != [] {
      assert c.txs[q[0]].kind == StageKind(s.stage);
      assert Rank(c.txs[q[0]].kind) == StageRank(s.stage);
      ReceiveNotes(v, c.txs, m, s.pc, WaitingOf(s), s.drained, q[0]);
    }
  }

  lemma AdvanceWaiting(c: Config, m: Mem, s: Local)
    requires Grounded(c, m, s) && Enabled(c, m, s, Advance)
    ensures WaitingOf(AdvanceStep(c, m, s).1) == WaitingOf(s)
  {
    if s.stage == DrainStage(None) && s.deferred != [] {
      assert s.deferred == [s.deferred[0]] + s.deferred[1..];
    }
  }

  lemma AdvanceLedger(c: Config, v: View, m: Mem, s: Local)
    requires Grounded(c, m, s) && Enabled(c, m, s, Advance)
    requires NoteInv(v, c.txs, m, s.pc, WaitingOf(s), s.drained, StageRank(s.stage))
    requires RankOk(c.txs, s.pc, StageRank(AdvanceStep(c, m, s).1.stage))
    ensures var (m', s') := AdvanceStep(c, m, s);
      && NoteInv(v, c.txs, m', s'.pc, WaitingOf(s'), s'.drained, StageRank(s'.stage))
      && Frame(m, m', AllTouched(c.txs))
  {
    hide NoteInv, RankOk;
    var (m', s') := AdvanceStep(c, m, s);
    AdvanceWaiting(c, m, s);
    if s.stage.DrainStage? && s.stage.held.Some? {
      DrainNotes(v, c.txs, m, s.pc, WaitingOf(s), s.drained, s.stage.held.value);
    } else {
      assert m' == m && s'.drained == s.drained && s'.pc == s.pc;
      if StageRank(s'.stage) != StageRank(s.stage) {
        RankNotes(v, c.txs, m, s.pc, WaitingOf(s), s.drained, StageRank(s.stage));
      }
    }
  }

  lemma DeferredTouched(txs: seq<BanknoteTx>, pc: seq<Pc>, waiting: set<Hash>, h: Hash)
    requires |txs| == |pc| && WaitingInv(txs, pc, waiting) && h in waiting
    ensures TouchedBy(txs, h)
  {
    var i :| 0 <= i < |txs| && txs[i].kind.BS? && txs[i].note == h && HasDeferred(pc[i]);
    assert Touches(txs[i], h);
  }

  lemma OtherSteps(c: Config, m: Mem, s: Local, a: Action)
    requires Grounded(c, m, s) && Enabled(c, m, s, a) && !a.Work? && !a.Advance?
    ensures var (m', s') := Next(c, m, s, a);
      m' == m && s'.pc == s.pc && s'.drained == s.drained && s'.stage == s.stage && WaitingOf(s') == WaitingOf(s)
  {
  }

  lemma NotesStep(c: Config, v: View, m: Mem, s: Local, a: Action)
    requires Grounded(c, m, s) && Enabled(c, m, s, a) && FreshOutputs(v, c.txs) && QueueInv(c, s) && BusyInv(c, s)
    requires NoteInv(v, c.txs, m, s.pc, WaitingOf(s), s.drained, StageRank(s.stage))
    requires a.Advance? ==> RankOk(c.txs, s.pc, StageRank(AdvanceStep(c, m, s).1.stage))
    ensures var (m', s') := Next(c, m, s, a);
      && NoteInv(v, c.txs, m', s'.pc, WaitingOf(s'), s'.drained, StageRank(s'.stage))
      && Frame(m, m', AllTouched(c.txs))
  {
    match a
    case Work(w) => if s.workers[w].Busy? { BusyLedger(c, v, m, s, w); } else { ReceiveLedger(c, v, m, s, w); }
    case Advance => AdvanceLedger(c, v, m, s);
    case _ => OtherSteps(c, m, s, a);
  }

  /** Every step of every goroutine of the ledger keeps the invariant, and touches only the ledger's notes. */
  lemma LedgerStep(c: Config, v: View, st0: StateTrie, m: Mem, s: Local, a: Action)
    requires ConfigOk(c) && FreshOutputs(v, c.txs) && LedgerInv(c, v, st0, m, s) && Grounded(c, m, s) && Enabled(c, m, s, a)
    ensures var (m', s') := Next(c, m, s, a);
      LedgerInv(c, v, st0, m', s') && Frame(m, m', AllTouched(c.txs))
  {
    StepKeeps(c, m, s, a);
    if a.Advance? { AdvanceRank(c, m, s); }
    NotesStep(c, v, m, s, a);
    RecordsStep(c, m, s, a, st0);
  }

  lemma RecordsStep(c: Config, m: Mem, s: Local, a: Action, st0: StateTrie)
    requires SInv(c, m, s) && Grounded(c, m, s) && Enabled(c, m, s, a) && RecordInv(c, st0, s)
    ensures var s' := Next(c, m, s, a).1; |s'.pc| == |c.txs| && RecordInv(c, st0, s')
  {
    StepRecords(c, m, s, a, st0);
  }

  lemma AdvanceRank(c: Config, m: Mem, s: Local)
    requires ConfigOk(c) && MemOk(m) && SInv(c, m, s) && Grounded(c, m, s) && Enabled(c, m, s, Advance)
    ensures |s.pc| == |c.txs| && RankOk(c.txs, s.pc, StageRank(AdvanceStep(c, m, s).1.stage))
  {
    StepKeeps(c, m, s, Advance);
    assert AdvanceStep(c, m, s).1.pc == s.pc;
  }

  /** A ledger is not disturbed by the steps of ledgers that touch other notes. */
  lemma LedgerFrame(c: Config, v: View, st0: StateTrie, m: Mem, m': Mem, s: Local, touched: set<Hash>)
    requires LedgerInv(c, v, st0, m, s) && MemOk(m') && Frame(m, m', touched)
    requires touched !! AllTouched(c.txs)
    ensures LedgerInv(c, v, st0, m', s)
  {
    FramePoolInv(v, c.txs, m, m', s.pc, WaitingOf(s), s.drained, StageRank(s.stage), touched);
    FrameOwners(v, c.txs, m, m', s.pc, touched);
  }

  lemma DoneFinished(c: Config, v: View, st0: StateTrie, m: Mem, s: Local)
    requires ConfigOk(c) && LedgerInv(c, v, st0, m, s) && s.stage.DoneStage?
    ensures |s.pc| == |c.txs| && forall i :: 0 <= i < |s.pc| ==> s.pc[i].Finished?
  {
    hide NoteInv, RecordInv, QueueInv, FifoInv, BusyInv, ExitInv, CountInv, ChannelInv;
    forall i | 0 <= i < |s.pc| ensures s.pc[i].Finished? {
      assert c.txs[i] in c.txs;
      assert Rank(c.txs[i].kind) < 4;
    }
  }

  /** When the ledger is done, every transaction is processed and every deferred source is removed. */
  lemma DoneComplete(c: Config, v: View, st0: StateTrie, m: Mem, s: Local)
    requires ConfigOk(c) && LedgerInv(c, v, st0, m, s) && s.stage.DoneStage?
    ensures Complete(c.txs, s.pc, WaitingOf(s), s.drained)
    ensures PoolInv(v, c.txs, m, s.pc, WaitingOf(s), s.drained, 4)
    ensures s.st == ApplyNet(st0, Net(BatchRecords(c.txs)), c.initBalance)
  {
    hide OwnersInv, HashInv, PcInv;
    DoneFinished(c, v, st0, m, s);
    RecordsOutcome(c, st0, s);
  }
}
