/** The owners of notes that a batch transfers, however often: for every interleaving the recipient of one of the
    transfers, and in log order that of the last. */
module RecipientInvariant {
  import opened BanknoteTypes
  import opened Lifecycle
  import opened Accounts
  import opened LedgerMachine
  import opened Schedule
  import opened PoolInvariant
  import opened OwnerInvariant
  import opened RecordInvariant
  import opened LedgerInvariant
  import opened BlockMachine
  import opened BlockOutcome
  import opened PhaseTheorem

  /** Some transaction of the batch transfers `h` to `a`. */
  ghost predicate Recipient(txs: seq<BanknoteTx>, h: Hash, a: Address) {
    exists t :: t in txs && t.kind.BT? && t.note == h && t.to == a
  }

  /** A transfer that has written the owner holds a note of some recipient, one that is through has left such a note
      in the pool, and one that found nothing was right to. */
  ghost predicate RecipientAt(v: View, txs: seq<BanknoteTx>, m: Mem, pc: seq<Pc>, t: BanknoteTx, p: Pc)
    requires |txs| == |pc| && MemOk(m)
  {
    && (p.Owned? ==> p.ref < |m.notes| && Recipient(txs, t.note, m.notes[p.ref].owner))
    && (p == Finished(true) && t.note in m.pool ==> Recipient(txs, t.note, m.notes[m.pool[t.note]].owner))
    && (p == Finished(false) ==> !Live(v, txs, pc, t.note))
  }

  ghost predicate RecipientInv(v: View, txs: seq<BanknoteTx>, m: Mem, pc: seq<Pc>)
    requires |txs| == |pc| && MemOk(m)
  {
    forall i :: 0 <= i < |txs| && txs[i].kind.BT? ==> RecipientAt(v, txs, m, pc, txs[i], pc[i])
  }

  /** In the transfer and recycling phases it is settled which notes live. */
  lemma LiveSettled(v: View, txs: seq<BanknoteTx>, pc: seq<Pc>, i: nat, p: Pc, h: Hash)
    requires |txs| == |pc| && i < |txs| && !txs[i].kind.BG? && !txs[i].kind.BS?
    ensures Live(v, txs, pc[i := p], h) <==> Live(v, txs, pc, h)
  {
    assert forall j :: 0 <= j < |txs| ==> (StoredAt(txs[j], pc[i := p][j], h) <==> StoredAt(txs[j], pc[j], h));
    assert forall j :: 0 <= j < |txs| ==> (GoneAt(txs[j], pc[i := p][j], h) <==> GoneAt(txs[j], pc[j], h));
  }

  /** What one step of a transfer or recycling does to the owners of notes. */
  lemma StepOwner(t: BanknoteTx, p: Pc, m: Mem, r: nat, h: Hash)
    requires Active(p) && PcFits(t.kind, p) && RefOk(p, m) && MemOk(m) && (t.kind.BT? || t.kind.BR?) && r < |m.notes|
    requires p.Found? || p.Holding? || p.Owned? ==> m.notes[p.ref].hash == t.note
    ensures var o := TxStep(t, p, m);
      && MemOk(o.mem) && r < |o.mem.notes|
      && (o.mem.notes[r].owner == m.notes[r].owner || (t.kind.BT? && m.notes[r].hash == t.note && o.mem.notes[r].owner == t.to))
      && (o.pc.Owned? ==> o.pc.ref < |o.mem.notes| && o.mem.notes[o.pc.ref].owner == t.to)
      && (h in o.mem.pool ==>
            || (h in m.pool && o.mem.pool[h] == m.pool[h])
            || (t.kind.BT? && h == t.note && (o.mem.notes[o.mem.pool[h]].owner == t.to || (p.Owned? && o.mem.pool[h] == p.ref && o.mem.notes == m.notes))))
      && (o.pc == Finished(true) && t.kind.BT? ==> p.Owned? && t.note in o.mem.pool && o.mem.pool[t.note] == p.ref && o.mem.notes == m.notes)
      && (o.pc == Finished(false) && t.kind.BT? ==> t.note !in m.pool)
  {
  }

  lemma OwnRecipient(txs: seq<BanknoteTx>, i: nat)
    requires i < |txs| && txs[i].kind.BT?
    ensures Recipient(txs, txs[i].note, txs[i].to)
  {
    assert txs[i] in txs;
  }

  /** After a step the owner of a note of hash `h` that was a recipient of `h` still is one. */
  lemma KeepsRecipient(v: View, txs: seq<BanknoteTx>, m: Mem, pc: seq<Pc>, waiting: set<Hash>, drained: set<Hash>, i: nat, r: nat, h: Hash)
    requires Ready(v, txs, m, pc, waiting, drained, i) && (txs[i].kind.BT? || txs[i].kind.BR?)
    requires PcFits(txs[i].kind, pc[i]) && RefOk(pc[i], m) && MemOk(m)
    requires r < |m.notes| && m.notes[r].hash == h && Recipient(txs, h, m.notes[r].owner)
    ensures var o := TxStep(txs[i], pc[i], m); r < |o.mem.notes| && Recipient(txs, h, o.mem.notes[r].owner)
  {
    ReadyAt(v, txs, m, pc, waiting, drained, i);
    assert PcInv(v, txs, m, pc, waiting, txs[i], pc[i]);
    StepOwner(txs[i], pc[i], m, r, h);
    if txs[i].kind.BT? { OwnRecipient(txs, i); }
    hide TxStep, Recipient, Ready, PcInv;
  }

  lemma OtherRecipient(v: View, txs: seq<BanknoteTx>, m: Mem, pc: seq<Pc>, waiting: set<Hash>, drained: set<Hash>, i: nat, j: nat)
    requires Ready(v, txs, m, pc, waiting, drained, i) && (txs[i].kind.BT? || txs[i].kind.BR?)
    requires PcFits(txs[i].kind, pc[i]) && RefOk(pc[i], m) && MemOk(m)
    requires j < |txs| && j != i && txs[j].kind.BT? && RecipientInv(v, txs, m, pc)
    ensures var o := TxStep(txs[i], pc[i], m); MemOk(o.mem) && RecipientAt(v, txs, o.mem, pc[i := o.pc], txs[j], pc[j])
  {
    var t, p, u, q := txs[i], pc[i], txs[j], pc[j];
    var o := TxStep(t, p, m);
    ReadyAt(v, txs, m, pc, waiting, drained, i);
    OtherAt(v, txs, m, pc, waiting, drained, i, j);
    TxStepMem(t, p, m);
    LiveSettled(v, txs, pc, i, o.pc, u.note);
    assert RecipientAt(v, txs, m, pc, u, q);
    if q.Owned? {
      KeepsRecipient(v, txs, m, pc, waiting, drained, i, q.ref, u.note);
    } else if q == Finished(true) && u.note in o.mem.pool {
      PoolRecipient(v, txs, m, pc, waiting, drained, i, u.note);
    }
    hide TxStep, Ready, Recipient, Live;
  }

  /** The pooled note keeps an owner among the recipients, or gets one. */
  lemma PoolRecipient(v: View, txs: seq<BanknoteTx>, m: Mem, pc: seq<Pc>, waiting: set<Hash>, drained: set<Hash>, i: nat, h: Hash)
    requires Ready(v, txs, m, pc, waiting, drained, i) && (txs[i].kind.BT? || txs[i].kind.BR?)
    requires PcFits(txs[i].kind, pc[i]) && RefOk(pc[i], m) && MemOk(m) && RecipientInv(v, txs, m, pc)
    requires h in m.pool ==> Recipient(txs, h, m.notes[m.pool[h]].owner)
    ensures var o := TxStep(txs[i], pc[i], m);
      MemOk(o.mem) && (h in o.mem.pool ==> Recipient(txs, h, o.mem.notes[o.mem.pool[h]].owner))
  {
    var t, p := txs[i], pc[i];
    ReadyAt(v, txs, m, pc, waiting, drained, i);
    assert PcInv(v, txs, m, pc, waiting, t, p);
    TxStepMem(t, p, m);
    var o := TxStep(t, p, m);
    if h in o.mem.pool {
      if h in m.pool { KeepsRecipient(v, txs, m, pc, waiting, drained, i, m.pool[h], h); }
      if t.kind.BT? {
        OwnRecipient(txs, i);
        assert RecipientAt(v, txs, m, pc, t, p);
      }
      if |m.notes| > 0 { StepOwner(t, p, m, 0, h); }
      hide TxStep, Ready, Recipient, PcInv;
    }
  }

  /** What the stepping transfer leaves behind. */
  lemma OwnStep(v: View, txs: seq<BanknoteTx>, m: Mem, pc: seq<Pc>, waiting: set<Hash>, drained: set<Hash>, i: nat)
    requires Ready(v, txs, m, pc, waiting, drained, i) && txs[i].kind.BT?
    requires PcFits(txs[i].kind, pc[i]) && RefOk(pc[i], m) && MemOk(m) && RecipientInv(v, txs, m, pc)
    ensures var o := TxStep(txs[i], pc[i], m); MemOk(o.mem) && RecipientAt(v, txs, o.mem, pc[i := o.pc], txs[i], o.pc)
  {
    var t, p := txs[i], pc[i];
    var o := TxStep(t, p, m);
    ReadyAt(v, txs, m, pc, waiting, drained, i);
    TxStepMem(t, p, m);
    OwnRecipient(txs, i);
    LiveSettled(v, txs, pc, i, o.pc, t.note);
    assert RecipientAt(v, txs, m, pc, t, p) && PcInv(v, txs, m, pc, waiting, t, p);
    if t.note !in m.pool { AbsentNotLive(v, txs, m, pc, waiting, drained, i); }
    hide Ready, Recipient, Live, PcInv;
  }

  /** A note that a transfer does not find does not live. */
  lemma AbsentNotLive(v: View, txs: seq<BanknoteTx>, m: Mem, pc: seq<Pc>, waiting: set<Hash>, drained: set<Hash>, i: nat)
    requires Ready(v, txs, m, pc, waiting, drained, i) && txs[i].kind.BT? && txs[i].note !in m.pool
    ensures |txs| == |pc| && !Live(v, txs, pc, txs[i].note)
  {
    assert Touches(txs[i], txs[i].note) && txs[i] in txs;
    assert TouchedBy(txs, txs[i].note) && HashInv(v, txs, m, pc, drained, txs[i].note);
    EarlyPhases(v, txs, m, pc, waiting, drained, 2, txs[i].note);
  }

  /** Every worker's step keeps the owners among the recipients. */
  lemma StepRecipients(v: View, txs: seq<BanknoteTx>, m: Mem, pc: seq<Pc>, waiting: set<Hash>, drained: set<Hash>, i: nat)
    requires Ready(v, txs, m, pc, waiting, drained, i) && PcFits(txs[i].kind, pc[i]) && RefOk(pc[i], m) && MemOk(m)
    requires |txs| == |pc| && RecipientInv(v, txs, m, pc)
    ensures var o := TxStep(txs[i], pc[i], m); MemOk(o.mem) && RecipientInv(v, txs, o.mem, pc[i := o.pc])
  {
    var o := TxStep(txs[i], pc[i], m);
    TxStepMem(txs[i], pc[i], m);
    forall j | 0 <= j < |txs| && txs[j].kind.BT? ensures RecipientAt(v, txs, o.mem, pc[i := o.pc], txs[j], pc[i := o.pc][j]) {
      if j == i {
        OwnStep(v, txs, m, pc, waiting, drained, i);
      } else if txs[i].kind.BT? || txs[i].kind.BR? {
        OtherRecipient(v, txs, m, pc, waiting, drained, i, j);
      } else {
        NotYetMoved(v, txs, m, pc, waiting, drained, i, j);
      }
    }
  }

  /** Before the transfer phase no transfer has begun. */
  lemma NotYetMoved(v: View, txs: seq<BanknoteTx>, m: Mem, pc: seq<Pc>, waiting: set<Hash>, drained: set<Hash>, i: nat, j: nat)
    requires Ready(v, txs, m, pc, waiting, drained, i) && !txs[i].kind.BT? && !txs[i].kind.BR? && j < |txs| && txs[j].kind.BT?
    ensures |txs| == |pc| && pc[j].Waiting?
  {
    assert PcInv(v, txs, m, pc, waiting, txs[i], pc[i]);
    assert RankOk(txs, pc, Rank(txs[i].kind));
  }

  // Blocks

  ghost predicate BlockRecipients(cs: seq<Config>, v: View, b: Block) {
    && |b.ledgers| == |cs| && MemOk(b.mem)
    && forall l :: 0 <= l < |cs| ==> |b.ledgers[l].pc| == |cs[l].txs| && RecipientInv(v, cs[l].txs, b.mem, b.ledgers[l].pc)
  }

  lemma LedgerRecipients(c: Config, v: View, m: Mem, s: Local, a: Action)
    requires Grounded(c, m, s) && Enabled(c, m, s, a) && FreshOutputs(v, c.txs) && QueueInv(c, s) && BusyInv(c, s) && MemOk(m)
    requires PoolInv(v, c.txs, m, s.pc, WaitingOf(s), s.drained, StageRank(s.stage)) && RecipientInv(v, c.txs, m, s.pc)
    ensures var (m', s') := Next(c, m, s, a);
      |s'.pc| == |c.txs| && MemOk(m') && RecipientInv(v, c.txs, m', s'.pc)
  {
    hide PoolInv, BusyInv, TxStep, FreshOutputs, RecipientAt;
    match a
    case Work(w) =>
      if s.workers[w].Busy? {
        BusyStep(c, m, s, w);
        StepRecipients(v, c.txs, m, s.pc, WaitingOf(s), s.drained, s.workers[w].i);
      } else {
        ReceiveRecipients(c, v, m, s, w);
      }
    case Advance => AdvanceRecipients(c, v, m, s);
    case _ =>
  }

  lemma ReceiveRecipients(c: Config, v: View, m: Mem, s: Local, w: nat)
    requires Grounded(c, m, s) && Enabled(c, m, s, Work(w)) && QueueInv(c, s) && MemOk(m) && !s.workers[w].Busy?
    requires RecipientInv(v, c.txs, m, s.pc)
    ensures var (m', s') := Next(c, m, s, Work(w)); |s'.pc| == |c.txs| && m' == m && RecipientInv(v, c.txs, m', s'.pc)
  {
    var q := s.queues.Of(StageKind(s.stage));
    if q != [] {
      assert s.pc[q[0]].Waiting?;
      forall h ensures Live(v, c.txs, s.pc[q[0] := Received], h) <==> Live(v, c.txs, s.pc, h) {
        ReceiveHash(v, c.txs, m, s.pc, {}, q[0], h);
      }
      forall j | 0 <= j < |c.txs| && c.txs[j].kind.BT? ensures RecipientAt(v, c.txs, m, s.pc[q[0] := Received], c.txs[j], s.pc[q[0] := Received][j]) {
        assert RecipientAt(v, c.txs, m, s.pc, c.txs[j], s.pc[j]);
      }
    }
  }

  lemma AdvanceRecipients(c: Config, v: View, m: Mem, s: Local)
    requires Grounded(c, m, s) && Enabled(c, m, s, Advance) && MemOk(m) && RecipientInv(v, c.txs, m, s.pc)
    ensures var (m', s') := Next(c, m, s, Advance); s'.pc == s.pc && MemOk(m') && RecipientInv(v, c.txs, m', s'.pc)
  {
    var (m', s') := Next(c, m, s, Advance);
    assert m'.notes == m.notes && m'.pool.Keys <= m.pool.Keys && forall h :: h in m'.pool ==> m'.pool[h] == m.pool[h];
    forall j | 0 <= j < |c.txs| && c.txs[j].kind.BT? ensures RecipientAt(v, c.txs, m', s.pc, c.txs[j], s.pc[j]) {
      assert RecipientAt(v, c.txs, m, s.pc, c.txs[j], s.pc[j]);
    }
  }

  /** Other ledgers touch other notes. */
  lemma FrameRecipients(v: View, txs: seq<BanknoteTx>, m: Mem, m': Mem, pc: seq<Pc>, waiting: set<Hash>, drained: set<Hash>, rank: nat, touched: set<Hash>)
    requires PoolInv(v, txs, m, pc, waiting, drained, rank) && MemOk(m') && Frame(m, m', touched)
    requires forall h :: TouchedBy(txs, h) ==> h !in touched
    requires RecipientInv(v, txs, m, pc)
    ensures RecipientInv(v, txs, m', pc)
  {
    forall j | 0 <= j < |txs| && txs[j].kind.BT? ensures RecipientAt(v, txs, m', pc, txs[j], pc[j]) {
      assert RecipientAt(v, txs, m, pc, txs[j], pc[j]) && PcInv(v, txs, m, pc, waiting, txs[j], pc[j]);
      assert txs[j] in txs && Touches(txs[j], txs[j].note);
      assert TouchedBy(txs, txs[j].note);
    }
  }

  lemma MoveRecipients(ledgers: nat, batch: seq<BanknoteTx>, cs: seq<Config>, v: View, sts: seq<StateTrie>, b: Block, mv: Move)
    requires ledgers > 0 && Executes(ledgers, batch, cs) && FreshOutputs(v, batch) && OneLedgerPerNote(ledgers, batch)
    requires BlockInv(ledgers, batch, cs, v, sts, b) && CanMove(cs, b, mv) && BlockRecipients(cs, v, b)
    ensures BlockRecipients(cs, v, DoMove(cs, b, mv))
  {
    hide PoolInv, RecipientInv, FreshOutputs, OneLedgerPerNote, Next, Enabled;
    var k, b' := mv.ledger, DoMove(cs, b, mv);
    MovedLedger(ledgers, batch, cs, v, sts, b, mv);
    forall l | 0 <= l < |cs| ensures |b'.ledgers[l].pc| == |cs[l].txs| && RecipientInv(v, cs[l].txs, b'.mem, b'.ledgers[l].pc) {
      if l != k { OtherLedger(ledgers, batch, cs, v, sts, b, mv, l); }
    }
  }

  lemma MovedLedger(ledgers: nat, batch: seq<BanknoteTx>, cs: seq<Config>, v: View, sts: seq<StateTrie>, b: Block, mv: Move)
    requires ledgers > 0 && Executes(ledgers, batch, cs) && FreshOutputs(v, batch)
    requires BlockInv(ledgers, batch, cs, v, sts, b) && CanMove(cs, b, mv) && BlockRecipients(cs, v, b)
    ensures var k, b' := mv.ledger, DoMove(cs, b, mv);
      && MemOk(b'.mem) && |b'.ledgers| == |cs| && |b'.ledgers[k].pc| == |cs[k].txs|
      && RecipientInv(v, cs[k].txs, b'.mem, b'.ledgers[k].pc) && Frame(b.mem, b'.mem, AllTouched(cs[k].txs))
  {
    hide PoolInv, RecipientInv, FreshOutputs, Next, OwnersInv, RecordInv;
    var k := mv.ledger;
    assert LedgerInv(cs[k], v, sts[k], b.mem, b.ledgers[k]);
    PartFresh(ledgers, batch, k, v);
    LedgerRecipients(cs[k], v, b.mem, b.ledgers[k], mv.action);
    LedgerStep(cs[k], v, sts[k], b.mem, b.ledgers[k], mv.action);
  }

  lemma OtherLedger(ledgers: nat, batch: seq<BanknoteTx>, cs: seq<Config>, v: View, sts: seq<StateTrie>, b: Block, mv: Move, l: nat)
    requires ledgers > 0 && Executes(ledgers, batch, cs) && OneLedgerPerNote(ledgers, batch)
    requires BlockInv(ledgers, batch, cs, v, sts, b) && CanMove(cs, b, mv) && BlockRecipients(cs, v, b) && l < |cs| && l != mv.ledger
    requires var b' := DoMove(cs, b, mv); MemOk(b'.mem) && Frame(b.mem, b'.mem, AllTouched(cs[mv.ledger].txs))
    ensures RecipientInv(v, cs[l].txs, DoMove(cs, b, mv).mem, b.ledgers[l].pc)
  {
    hide PoolInv, RecipientInv, OneLedgerPerNote, Next, OwnersInv, RecordInv, SInv, Frame;
    assert LedgerInv(cs[l], v, sts[l], b.mem, b.ledgers[l]);
    PartsApart(ledgers, batch, mv.ledger, l);
    var s := b.ledgers[l];
    FrameRecipients(v, cs[l].txs, b.mem, DoMove(cs, b, mv).mem, s.pc, WaitingOf(s), s.drained, StageRank(s.stage), AllTouched(cs[mv.ledger].txs));
  }

  lemma {:induction false} RunRecipients(ledgers: nat, batch: seq<BanknoteTx>, cs: seq<Config>, v: View, sts: seq<StateTrie>, b: Block, moves: seq<Move>)
    requires ledgers > 0 && Executes(ledgers, batch, cs) && FreshOutputs(v, batch) && OneLedgerPerNote(ledgers, batch)
    requires BlockInv(ledgers, batch, cs, v, sts, b) && IsRun(cs, b, moves) && BlockRecipients(cs, v, b)
    ensures BlockRecipients(cs, v, RunTo(cs, b, moves))
    decreases |moves|
  {
    if moves != [] {
      MoveRecipients(ledgers, batch, cs, v, sts, b, moves[0]);
      MoveInv(ledgers, batch, cs, v, sts, b, moves[0]);
      hide BlockInv, BlockRecipients, FreshOutputs, OneLedgerPerNote, Executes;
      RunRecipients(ledgers, batch, cs, v, sts, DoMove(cs, b, moves[0]), moves[1..]);
    }
  }

  lemma StartRecipients(cs: seq<Config>, m: Mem, sts: seq<StateTrie>)
    requires MemOk(m) && |sts| == |cs|
    ensures BlockRecipients(cs, ViewOf(m), StartBlock(cs, m, sts))
  {
    forall l | 0 <= l < |cs| ensures RecipientInv(ViewOf(m), cs[l].txs, m, StartBlock(cs, m, sts).ledgers[l].pc) {
      assert forall i :: 0 <= i < |cs[l].txs| ==> StartBlock(cs, m, sts).ledgers[l].pc[i] == Waiting;
    }
  }

  /** What a finished ledger leaves of a surviving note that it transfers. */
  lemma TransferredOutcome(v: View, txs: seq<BanknoteTx>, m: Mem, pc: seq<Pc>, waiting: set<Hash>, drained: set<Hash>, t: BanknoteTx, h: Hash)
    requires OrderFree(v, txs) && PoolInv(v, txs, m, pc, waiting, drained, 4) && Complete(txs, pc, waiting, drained)
    requires RecipientInv(v, txs, m, pc) && t in txs && t.kind.BT? && t.note == h && Survives(v, txs, h)
    ensures h in m.pool && Recipient(txs, h, m.notes[m.pool[h]].owner)
  {
    assert Touches(t, h);
    assert TouchedBy(txs, h);
    OutcomeAt(v, txs, m, pc, waiting, drained, h);
    var i := Through(v, txs, m, pc, waiting, drained, t, h);
    assert RecipientAt(v, txs, m, pc, txs[i], pc[i]);
  }

  /** Some transfer of a surviving note got through. */
  lemma Through(v: View, txs: seq<BanknoteTx>, m: Mem, pc: seq<Pc>, waiting: set<Hash>, drained: set<Hash>, t: BanknoteTx, h: Hash) returns (i: nat)
    requires PoolInv(v, txs, m, pc, waiting, drained, 4) && Complete(txs, pc, waiting, drained)
    requires RecipientInv(v, txs, m, pc) && t in txs && t.kind.BT? && t.note == h && Survives(v, txs, h)
    ensures i < |txs| && txs[i].kind.BT? && txs[i].note == h && pc[i] == Finished(true)
  {
    if u :| u in txs && Revives(u, h) {
      i :| 0 <= i < |txs| && txs[i] == u;
      assert PcInv(v, txs, m, pc, waiting, txs[i], pc[i]);
    } else {
      i :| 0 <= i < |txs| && txs[i] == t;
      Members(txs, pc, waiting, drained, h);
      assert AnyGone(txs, pc, h) ==> Consumed(txs, h);
      assert Live(v, txs, pc, h) && RecipientAt(v, txs, m, pc, txs[i], pc[i]);
    }
  }

  /** For every interleaving, a surviving note that the batch transfers, however often, belongs to the recipient of
      one of its transfers. */
  lemma RecipientOwns(ledgers: nat, batch: seq<BanknoteTx>, cs: seq<Config>, m: Mem, sts: seq<StateTrie>, moves: seq<Move>, t: BanknoteTx, h: Hash)
    requires ledgers > 0 && Executes(ledgers, batch, cs) && OneLedgerPerNote(ledgers, batch) && MemOk(m) && |sts| == |cs|
    requires OrderFree(ViewOf(m), batch) && Completes(cs, m, sts, moves)
    requires t in batch && t.kind.BT? && t.note == h && Survives(ViewOf(m), batch, h)
    ensures var m' := Final(cs, m, sts, moves).mem;
      MemOk(m') && h in m'.pool && exists u :: u in batch && u.kind.BT? && u.note == h && ViewOf(m')[h].owner == u.to
  {
    var v, b := ViewOf(m), Final(cs, m, sts, moves);
    OrderFreeFresh(v, batch);
    FinalInv(ledgers, batch, cs, m, sts, moves);
    StartInv(ledgers, batch, cs, m, sts);
    StartRecipients(cs, m, sts);
    RunRecipients(ledgers, batch, cs, v, sts, StartBlock(cs, m, sts), moves);
    hide IsRun, RunTo, FreshOutputs, OrderFree, Survives;
    FinalRecipient(ledgers, batch, cs, v, sts, b, t, h);
    var u :| u in batch && u.kind.BT? && u.note == h && b.mem.notes[b.mem.pool[h]].owner == u.to;
    assert ViewOf(b.mem)[h].owner == u.to;
  }

  lemma FinalRecipient(ledgers: nat, batch: seq<BanknoteTx>, cs: seq<Config>, v: View, sts: seq<StateTrie>, b: Block, t: BanknoteTx, h: Hash)
    requires ledgers > 0 && Executes(ledgers, batch, cs) && OneLedgerPerNote(ledgers, batch) && OrderFree(v, batch)
    requires BlockInv(ledgers, batch, cs, v, sts, b) && BlockRecipients(cs, v, b) && AllDone(b)
    requires t in batch && t.kind.BT? && t.note == h && Survives(v, batch, h)
    ensures h in b.mem.pool && exists u :: u in batch && u.kind.BT? && u.note == h && b.mem.notes[b.mem.pool[h]].owner == u.to
  {
    var l := GetLedgerHashByID(ledgers, t.txHash);
    var c, s := cs[l], b.ledgers[l];
    assert Touches(t, h);
    PartAgrees(ledgers, batch, t, h);
    SameTouching(v, c.txs, batch, h);
    PartOrderFree(ledgers, batch, l, v);
    DoneComplete(c, v, sts[l], b.mem, s);
    hide LedgerInv, OrderFree, OneLedgerPerNote, Survives, RecipientInv;
    TransferredOutcome(v, c.txs, b.mem, s.pc, WaitingOf(s), s.drained, t, h);
    var u :| u in c.txs && u.kind.BT? && u.note == h && u.to == b.mem.notes[b.mem.pool[h]].owner;
    assert u in batch;
  }

  // In log order

  /** In log order such a note belongs to the recipient of its last transfer. */
  lemma {:induction false} LastRecipient(v: View, txs: seq<BanknoteTx>, i: nat, h: Hash)
    requires Keyed(v) && LifecycleRespecting(v, txs) && h in RunLog(v, txs)
    requires i < |txs| && txs[i].kind.BT? && txs[i].note == h
    requires forall j :: i < j < |txs| ==> !(txs[j].kind.BT? && txs[j].note == h)
    ensures RunLog(v, txs)[h].owner == txs[i].to
  {
    var front, t := txs[..|txs| - 1], txs[|txs| - 1];
    assert txs == front + [t];
    LifecyclePrefix(v, front, t);
    NamedOnly(RunLog(v, front), t, h);
    if i < |front| {
      assert front[i] == txs[i] && front[i] in front;
      assert Related(front[i], t) && Uses(front[i], h);
      assert !Produces(t, h);
      assert forall j :: i < j < |front| ==> front[j] == txs[j];
      hide ApplyTx;
      LastRecipient(v, front, i, h);
    }
  }
}
