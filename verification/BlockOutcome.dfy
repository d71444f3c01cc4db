/** What a block does to notes and accounts, for every interleaving of every goroutine of every ledger. */
module BlockOutcome {
  import opened BanknoteTypes
  import opened Sequences
  import opened Lifecycle
  import opened Accounts
  import opened LedgerMachine
  import opened PoolInvariant
  import opened OwnerInvariant
  import opened LedgerInvariant
  import opened BlockMachine
  import opened BlockBody

  /** Each note is touched by the transactions of one ledger only. Ledgers do not wait for each other, and
      transactions are routed by their own hash, so nothing else keeps them apart. */
  ghost predicate OneLedgerPerNote(ledgers: nat, batch: seq<BanknoteTx>)
    requires ledgers > 0
  {
    forall t, u, h :: t in batch && u in batch && Touches(t, h) && Touches(u, h) ==>
      GetLedgerHashByID(ledgers, t.txHash) == GetLedgerHashByID(ledgers, u.txHash)
  }

  /** The ledgers execute the batch. */
  ghost predicate Executes(ledgers: nat, batch: seq<BanknoteTx>, cs: seq<Config>)
    requires ledgers > 0
  {
    |cs| == ledgers && ConfigsOk(cs) && forall l :: 0 <= l < ledgers ==> cs[l].txs == ActionTxs(ledgers, batch, l)
  }

  lemma PartOrderFree(ledgers: nat, batch: seq<BanknoteTx>, l: nat, v: View)
    requires ledgers > 0 && OrderFree(v, batch)
    ensures OrderFree(v, ActionTxs(ledgers, batch, l))
  {
    FilterPairwise((t: BanknoteTx) => RunsIn(ledgers, l, t), Compatible, batch);
  }

  lemma PartFresh(ledgers: nat, batch: seq<BanknoteTx>, l: nat, v: View)
    requires ledgers > 0 && FreshOutputs(v, batch)
    ensures FreshOutputs(v, ActionTxs(ledgers, batch, l))
  {
    FilterPairwise((t: BanknoteTx) => RunsIn(ledgers, l, t), ProduceApart, batch);
  }

  lemma PartsApart(ledgers: nat, batch: seq<BanknoteTx>, k: nat, l: nat)
    requires ledgers > 0 && OneLedgerPerNote(ledgers, batch) && k != l
    ensures AllTouched(ActionTxs(ledgers, batch, k)) !! AllTouched(ActionTxs(ledgers, batch, l))
  {
    forall h | h in AllTouched(ActionTxs(ledgers, batch, k)) ensures h !in AllTouched(ActionTxs(ledgers, batch, l)) {
      var t :| t in ActionTxs(ledgers, batch, k) && Touches(t, h);
      forall u | u in ActionTxs(ledgers, batch, l) ensures !Touches(u, h) { }
    }
  }

  /** A ledger's part of the batch says about the notes it touches what the whole batch says. */
  lemma PartAgrees(ledgers: nat, batch: seq<BanknoteTx>, t0: BanknoteTx, h: Hash)
    requires ledgers > 0 && OneLedgerPerNote(ledgers, batch) && t0 in batch && Touches(t0, h)
    ensures var part := ActionTxs(ledgers, batch, GetLedgerHashByID(ledgers, t0.txHash));
      && TouchedBy(part, h)
      && (forall t :: t in part && Touches(t, h) <==> t in batch && Touches(t, h))
  {
    var l := GetLedgerHashByID(ledgers, t0.txHash);
    var part := ActionTxs(ledgers, batch, l);
    forall t | t in batch && Touches(t, h) ensures t in part {
      assert GetLedgerHashByID(ledgers, t.txHash) == l;
    }
    assert t0 in part;
  }

  /** What is said about `h` depends only on the transactions that touch it. */
  lemma SameTouching(v: View, part: seq<BanknoteTx>, batch: seq<BanknoteTx>, h: Hash)
    requires forall t :: t in part && Touches(t, h) <==> t in batch && Touches(t, h)
    ensures Produced(part, h) <==> Produced(batch, h)
    ensures Consumed(part, h) <==> Consumed(batch, h)
    ensures Split(part, h) <==> Split(batch, h)
    ensures Revived(part, h) <==> Revived(batch, h)
    ensures Survives(v, part, h) <==> Survives(v, batch, h)
    ensures forall value :: ValueRule(v, part, h, value) <==> ValueRule(v, batch, h, value)
    ensures forall owner :: OwnerRule(v, part, h, owner) <==> OwnerRule(v, batch, h, owner)
  {
    assert forall t :: Produces(t, h) || Consumes(t, h) || Revives(t, h) || Transfers(t, h) ==> Touches(t, h);
    assert forall t :: Touches(t, h) ==> (t in part <==> t in batch);
  }

  /** The invariants of all ledgers, and nothing happens to notes that no ledger touches. */
  ghost predicate BlockInv(ledgers: nat, batch: seq<BanknoteTx>, cs: seq<Config>, v: View, sts: seq<StateTrie>, b: Block)
    requires ledgers > 0
  {
    && |b.ledgers| == |cs| == |sts| && MemOk(b.mem)
    && (forall l :: 0 <= l < |cs| ==> LedgerInv(cs[l], v, sts[l], b.mem, b.ledgers[l]))
    && (forall h :: !TouchedBy(batch, h) ==>
          (h in b.mem.pool <==> h in v) && (h in v ==> h in b.mem.pool && b.mem.notes[b.mem.pool[h]] == v[h]))
  }

  lemma StartInv(ledgers: nat, batch: seq<BanknoteTx>, cs: seq<Config>, m: Mem, sts: seq<StateTrie>)
    requires ledgers > 0 && Executes(ledgers, batch, cs) && MemOk(m) && |sts| == |cs|
    ensures BlockInv(ledgers, batch, cs, ViewOf(m), sts, StartBlock(cs, m, sts))
  {
    forall l | 0 <= l < |cs| ensures LedgerInv(cs[l], ViewOf(m), sts[l], m, StartBlock(cs, m, sts).ledgers[l]) {
      StartLedger(cs[l], m, sts[l]);
    }
  }

  lemma MoveInv(ledgers: nat, batch: seq<BanknoteTx>, cs: seq<Config>, v: View, sts: seq<StateTrie>, b: Block, mv: Move)
    requires ledgers > 0 && Executes(ledgers, batch, cs) && FreshOutputs(v, batch) && OneLedgerPerNote(ledgers, batch)
    requires BlockInv(ledgers, batch, cs, v, sts, b) && CanMove(cs, b, mv)
    ensures BlockInv(ledgers, batch, cs, v, sts, DoMove(cs, b, mv))
  {
    var k := mv.ledger;
    var b' := DoMove(cs, b, mv);
    PartFresh(ledgers, batch, k, v);
    LedgerStep(cs[k], v, sts[k], b.mem, b.ledgers[k], mv.action);
    forall l | 0 <= l < |cs| ensures LedgerInv(cs[l], v, sts[l], b'.mem, b'.ledgers[l]) {
      if l != k {
        PartsApart(ledgers, batch, k, l);
        LedgerFrame(cs[l], v, sts[l], b.mem, b'.mem, b.ledgers[l], AllTouched(cs[k].txs));
      }
    }
    Untouched(ledgers, batch, k, b.mem, b'.mem, v);
  }

  lemma Untouched(ledgers: nat, batch: seq<BanknoteTx>, k: nat, m: Mem, m': Mem, v: View)
    requires ledgers > 0 && MemOk(m) && MemOk(m')
    requires Frame(m, m', AllTouched(ActionTxs(ledgers, batch, k)))
    requires forall h :: !TouchedBy(batch, h) ==>
      (h in m.pool <==> h in v) && (h in v ==> h in m.pool && m.notes[m.pool[h]] == v[h])
    ensures forall h :: !TouchedBy(batch, h) ==>
      (h in m'.pool <==> h in v) && (h in v ==> h in m'.pool && m'.notes[m'.pool[h]] == v[h])
  {
    forall h | !TouchedBy(batch, h)
      ensures (h in m'.pool <==> h in v) && (h in v ==> h in m'.pool && m'.notes[m'.pool[h]] == v[h])
    {
      assert !TouchedBy(ActionTxs(ledgers, batch, k), h);
    }
  }

  /** Every run keeps the invariants. */
  lemma {:induction false} RunInv(ledgers: nat, batch: seq<BanknoteTx>, cs: seq<Config>, v: View, sts: seq<StateTrie>, b: Block, moves: seq<Move>)
    requires ledgers > 0 && Executes(ledgers, batch, cs) && FreshOutputs(v, batch) && OneLedgerPerNote(ledgers, batch)
    requires BlockInv(ledgers, batch, cs, v, sts, b) && IsRun(cs, b, moves)
    ensures BlockInv(ledgers, batch, cs, v, sts, RunTo(cs, b, moves))
    decreases |moves|
  {
    if moves != [] {
      MoveInv(ledgers, batch, cs, v, sts, b, moves[0]);
      RunInv(ledgers, batch, cs, v, sts, DoMove(cs, b, moves[0]), moves[1..]);
    }
  }

  /** In this run, a split found and removed `h`, and a transfer at the initial value put it back. */
  ghost predicate GhostNote(cs: seq<Config>, b: Block, h: Hash) {
    |b.ledgers| == |cs| && exists l :: 0 <= l < |cs| && GhostIn(cs[l], b.ledgers[l], h)
  }

  ghost predicate GhostIn(c: Config, s: Local, h: Hash) {
    |s.pc| == |c.txs| && AnyGone(c.txs, s.pc, h) && Revived(c.txs, h)
  }

  lemma RevivedTouched(txs: seq<BanknoteTx>, h: Hash)
    requires Revived(txs, h)
    ensures TouchedBy(txs, h)
  {
    var t :| t in txs && Revives(t, h);
    assert Touches(t, h);
  }

  /** What the finished block holds under `h`: exactly the surviving note, or a ghost. */
  lemma NoteOutcome(ledgers: nat, batch: seq<BanknoteTx>, cs: seq<Config>, v: View, sts: seq<StateTrie>, b: Block, h: Hash)
    requires ledgers > 0 && Executes(ledgers, batch, cs) && OrderFree(v, batch) && OneLedgerPerNote(ledgers, batch) && Keyed(v)
    requires BlockInv(ledgers, batch, cs, v, sts, b) && AllDone(b)
    ensures h in b.mem.pool <==> Survives(v, batch, h) || GhostNote(cs, b, h)
    ensures Survives(v, batch, h) ==> h in b.mem.pool && ValueRule(v, batch, h, b.mem.notes[b.mem.pool[h]].value)
    ensures GhostNote(cs, b, h) ==> Hazard(v, batch, h) && !Survives(v, batch, h) && b.mem.notes[b.mem.pool[h]].value == INIT_NOTE_VALUE
  {
    if TouchedBy(batch, h) {
      var t0 :| t0 in batch && Touches(t0, h);
      TouchedOutcome(ledgers, batch, cs, v, sts, b, h, t0);
    } else {
      forall l | 0 <= l < |cs| ensures !GhostIn(cs[l], b.ledgers[l], h) {
        if Revived(cs[l].txs, h) { RevivedTouched(cs[l].txs, h); }
        assert TouchedBy(cs[l].txs, h) ==> TouchedBy(batch, h);
      }
    }
  }

  lemma TouchedOutcome(ledgers: nat, batch: seq<BanknoteTx>, cs: seq<Config>, v: View, sts: seq<StateTrie>, b: Block, h: Hash, t0: BanknoteTx)
    requires ledgers > 0 && Executes(ledgers, batch, cs) && OrderFree(v, batch) && OneLedgerPerNote(ledgers, batch)
    requires BlockInv(ledgers, batch, cs, v, sts, b) && AllDone(b)
    requires t0 in batch && Touches(t0, h)
    ensures h in b.mem.pool <==> Survives(v, batch, h) || GhostNote(cs, b, h)
    ensures Survives(v, batch, h) ==> h in b.mem.pool && ValueRule(v, batch, h, b.mem.notes[b.mem.pool[h]].value)
    ensures GhostNote(cs, b, h) ==> Hazard(v, batch, h) && !Survives(v, batch, h) && b.mem.notes[b.mem.pool[h]].value == INIT_NOTE_VALUE
  {
    var l := GetLedgerHashByID(ledgers, t0.txHash);
    var c, s := cs[l], b.ledgers[l];
    PartAgrees(ledgers, batch, t0, h);
    SameTouching(v, c.txs, batch, h);
    PartOrderFree(ledgers, batch, l, v);
    GhostElsewhere(ledgers, batch, cs, b, h, l);
    LedgerOutcome(c, v, sts[l], b.mem, s, h);
    hide LedgerInv, OrderFree, OneLedgerPerNote, Survives, ValueRule;
  }

  /** What a finished ledger leaves of a note it touches. */
  lemma LedgerOutcome(c: Config, v: View, st0: StateTrie, m: Mem, s: Local, h: Hash)
    requires ConfigOk(c) && LedgerInv(c, v, st0, m, s) && s.stage.DoneStage? && OrderFree(v, c.txs) && TouchedBy(c.txs, h) && MemOk(m)
    ensures h in m.pool <==> Survives(v, c.txs, h) || GhostIn(c, s, h)
    ensures Survives(v, c.txs, h) ==> h in m.pool && ValueRule(v, c.txs, h, m.notes[m.pool[h]].value)
    ensures GhostIn(c, s, h) ==>
      Hazard(v, c.txs, h) && !Survives(v, c.txs, h) && h in m.pool && m.notes[m.pool[h]].value == INIT_NOTE_VALUE
  {
    DoneComplete(c, v, st0, m, s);
    hide LedgerInv;
    OutcomeAt(v, c.txs, m, s.pc, WaitingOf(s), s.drained, h);
    Members(c.txs, s.pc, WaitingOf(s), s.drained, h);
    assert AnyGone(c.txs, s.pc, h) ==> Consumed(c.txs, h);
  }

  /** A ghost of a note is in the one ledger that touches it. */
  lemma GhostElsewhere(ledgers: nat, batch: seq<BanknoteTx>, cs: seq<Config>, b: Block, h: Hash, l: nat)
    requires ledgers > 0 && Executes(ledgers, batch, cs) && OneLedgerPerNote(ledgers, batch) && |b.ledgers| == |cs|
    requires l < |cs| && TouchedBy(cs[l].txs, h)
    ensures GhostNote(cs, b, h) <==> GhostIn(cs[l], b.ledgers[l], h)
  {
    forall k | 0 <= k < |cs| && k != l ensures !GhostIn(cs[k], b.ledgers[k], h) {
      PartsApart(ledgers, batch, k, l);
      if Revived(cs[k].txs, h) { RevivedTouched(cs[k].txs, h); }
      assert h in AllTouched(cs[l].txs);
    }
  }
}
