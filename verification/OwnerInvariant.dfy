/** The owners of the notes that the batch transfers at most once. */
module OwnerInvariant {
  import opened BanknoteTypes
  import opened Lifecycle
  import opened LedgerMachine
  import opened Schedule
  import opened PoolInvariant

  /** At most one transaction of the batch transfers `h`. */
  ghost predicate TransferredOnce(txs: seq<BanknoteTx>, h: Hash) {
    forall i, j :: 0 <= i < j < |txs| ==> !(Transfers(txs[i], h) && Transfers(txs[j], h))
  }

  /** `t` has written its recipient into `h`. */
  predicate MovedAt(t: BanknoteTx, p: Pc, h: Hash) { Transfers(t, h) && (p.Owned? || p == Finished(true)) }

  ghost predicate AnyMoved(txs: seq<BanknoteTx>, pc: seq<Pc>, h: Hash)
    requires |txs| == |pc|
  {
    exists i :: 0 <= i < |txs| && MovedAt(txs[i], pc[i], h)
  }

  /** The owner of `h` as far as the batch has got. */
  ghost predicate OwnerNow(v: View, txs: seq<BanknoteTx>, pc: seq<Pc>, h: Hash, owner: Address)
    requires |txs| == |pc|
  {
    && (forall i :: 0 <= i < |txs| && MovedAt(txs[i], pc[i], h) ==> owner == txs[i].to)
    && (!AnyMoved(txs, pc, h) && Live(v, txs, pc, h) ==>
          && (h in v ==> owner == v[h].owner)
          && (forall i :: 0 <= i < |txs| && StoredAt(txs[i], pc[i], h) ==> owner == Product(txs[i], h).owner))
    && (!Live(v, txs, pc, h) ==>
          forall i :: 0 <= i < |txs| && RevivedAt(txs[i], pc[i], h) ==> owner == txs[i].to)
  }

  ghost predicate OwnerInv(v: View, txs: seq<BanknoteTx>, m: Mem, pc: seq<Pc>, h: Hash)
    requires |txs| == |pc| && MemOk(m)
  {
    && (forall i :: 0 <= i < |txs| && Transfers(txs[i], h) && (pc[i].Holding? || pc[i].Owned?) ==>
          h in m.pool && pc[i].ref == m.pool[h])
    && (forall i :: 0 <= i < |txs| && Transfers(txs[i], h) && pc[i] == Finished(false) ==> h !in m.pool)
    && (h in m.pool ==> OwnerNow(v, txs, pc, h, m.notes[m.pool[h]].owner))
  }

  /** The owners of all touched notes that are transferred at most once. */
  ghost predicate OwnersInv(v: View, txs: seq<BanknoteTx>, m: Mem, pc: seq<Pc>)
    requires |txs| == |pc| && MemOk(m)
  {
    forall h :: TouchedBy(txs, h) && TransferredOnce(txs, h) ==> OwnerInv(v, txs, m, pc, h)
  }

  lemma StartOwners(m: Mem, txs: seq<BanknoteTx>, pc: seq<Pc>)
    requires MemOk(m) && |txs| == |pc| && forall i :: 0 <= i < |txs| ==> pc[i] == Waiting
    ensures OwnersInv(ViewOf(m), txs, m, pc)
  {
  }

  lemma EarlyOwners(v: View, txs: seq<BanknoteTx>, m: Mem, pc: seq<Pc>, waiting: set<Hash>, drained: set<Hash>, rank: nat, h: Hash)
    requires PoolInv(v, txs, m, pc, waiting, drained, rank) && rank < 2
    ensures !AnyMoved(txs, pc, h)
  {
  }

  /** When nothing about `h` changes, its owner is still right. */
  lemma CarryOwner(v: View, txs: seq<BanknoteTx>, pc: seq<Pc>, pc': seq<Pc>, h: Hash, owner: Address)
    requires |txs| == |pc| == |pc'| && OwnerNow(v, txs, pc, h, owner)
    requires forall j :: 0 <= j < |txs| ==> (StoredAt(txs[j], pc'[j], h) <==> StoredAt(txs[j], pc[j], h))
    requires forall j :: 0 <= j < |txs| ==> (MovedAt(txs[j], pc'[j], h) <==> MovedAt(txs[j], pc[j], h))
    requires forall j :: 0 <= j < |txs| ==> (RevivedAt(txs[j], pc'[j], h) <==> RevivedAt(txs[j], pc[j], h))
    requires forall j :: 0 <= j < |txs| ==> (GoneAt(txs[j], pc'[j], h) <==> GoneAt(txs[j], pc[j], h))
    ensures OwnerNow(v, txs, pc', h, owner)
  {
    assert AnyMoved(txs, pc', h) <==> AnyMoved(txs, pc, h);
    assert AnyStored(txs, pc', h) <==> AnyStored(txs, pc, h);
    assert AnyGone(txs, pc', h) <==> AnyGone(txs, pc, h);
  }

  lemma FreshOwner(v: View, txs: seq<BanknoteTx>, m: Mem, pc: seq<Pc>, waiting: set<Hash>, drained: set<Hash>, i: nat, p: Pc, h: Hash)
    requires Ready(v, txs, m, pc, waiting, drained, i) && Rank(txs[i].kind) < 2
    requires Produces(txs[i], h) && !StoredAt(txs[i], pc[i], h) && StoredAt(txs[i], p, h)
    ensures OwnerNow(v, txs, pc[i := p], h, Product(txs[i], h).owner)
  {
    Unborn(v, txs, m, pc, waiting, drained, i, h);
    EarlyOwners(v, txs, m, pc, waiting, drained, Rank(txs[i].kind), h);
    EarlyPhases(v, txs, m, pc, waiting, drained, Rank(txs[i].kind), h);
    assert FreshOutput(v, txs[i]);
    assert forall j :: 0 <= j < |txs| && j != i ==> !StoredAt(txs[j], pc[j], h) && !MovedAt(txs[j], pc[j], h);
    forall j | 0 <= j < |txs| ensures !RevivedAt(txs[j], pc[i := p][j], h) {
      if j != i { assert !RevivedAt(txs[j], pc[j], h); }
    }
  }

  /** What a step of a mint or a split does to the note `h`: it stores it, removes it or leaves it. */
  lemma ProduceMem(v: View, t: BanknoteTx, p: Pc, m: Mem, h: Hash)
    requires Active(p) && PcFits(t.kind, p) && RefOk(p, m) && MemOk(m) && FreshOutput(v, t) && (t.kind.BG? || t.kind.BS?)
    requires p.Found? ==> m.notes[p.ref].hash == t.note
    ensures var o := TxStep(t, p, m);
      && MemOk(o.mem)
      && (StoredAt(t, o.pc, h) && !StoredAt(t, p, h) ==>
            Produces(t, h) && h in o.mem.pool && o.mem.notes[o.mem.pool[h]] == Product(t, h))
      && ((StoredAt(t, o.pc, h) ==> StoredAt(t, p, h)) && h in o.mem.pool ==>
            && h in m.pool && o.mem.notes[o.mem.pool[h]] == m.notes[m.pool[h]]
            && (GoneAt(t, o.pc, h) <==> GoneAt(t, p, h)) && (StoredAt(t, o.pc, h) <==> StoredAt(t, p, h)))
  {
    TxStepMem(t, p, m);
    assert Produces(t, t.new1) || !t.kind.BS?;
    assert Produces(t, t.new2) || !t.kind.BS?;
  }

  /** A step of a mint or a split keeps the owner facts. */
  lemma ProduceOwner(v: View, txs: seq<BanknoteTx>, m: Mem, pc: seq<Pc>, waiting: set<Hash>, drained: set<Hash>, i: nat, h: Hash)
    requires Ready(v, txs, m, pc, waiting, drained, i) && TouchedBy(txs, h)
    requires PcFits(txs[i].kind, pc[i]) && RefOk(pc[i], m) && (txs[i].kind.BG? || txs[i].kind.BS?)
    requires OwnerInv(v, txs, m, pc, h)
    ensures var o := TxStep(txs[i], pc[i], m); MemOk(o.mem) && OwnerInv(v, txs, o.mem, pc[i := o.pc], h)
  {
    var t, p := txs[i], pc[i];
    assert PcInv(v, txs, m, pc, waiting, t, p) && FreshOutput(v, t);
    ProduceMem(v, t, p, m, h);
    var o := TxStep(t, p, m);
    ProduceOwnerAt(v, txs, m, pc, waiting, drained, i, h, o.mem, o.pc);
  }

  lemma ProduceOwnerAt(v: View, txs: seq<BanknoteTx>, m: Mem, pc: seq<Pc>, waiting: set<Hash>, drained: set<Hash>, i: nat, h: Hash, m': Mem, p: Pc)
    requires Ready(v, txs, m, pc, waiting, drained, i)
    requires (txs[i].kind.BG? || txs[i].kind.BS?) && OwnerInv(v, txs, m, pc, h) && MemOk(m')
    requires StoredAt(txs[i], p, h) && !StoredAt(txs[i], pc[i], h) ==>
      Produces(txs[i], h) && h in m'.pool && m'.notes[m'.pool[h]] == Product(txs[i], h)
    requires (StoredAt(txs[i], p, h) ==> StoredAt(txs[i], pc[i], h)) && h in m'.pool ==>
      && h in m.pool && m'.notes[m'.pool[h]] == m.notes[m.pool[h]]
      && (GoneAt(txs[i], p, h) <==> GoneAt(txs[i], pc[i], h)) && (StoredAt(txs[i], p, h) <==> StoredAt(txs[i], pc[i], h))
    ensures OwnerInv(v, txs, m', pc[i := p], h)
  {
    var pc' := pc[i := p];
    assert forall j :: 0 <= j < |txs| && Transfers(txs[j], h) ==> pc'[j].Waiting?;
    if StoredAt(txs[i], p, h) && !StoredAt(txs[i], pc[i], h) {
      FreshOwner(v, txs, m, pc, waiting, drained, i, p, h);
    } else if h in m'.pool {
      CarryOwner(v, txs, pc, pc', h, m.notes[m.pool[h]].owner);
    }
  }

  lemma MoveOwner(v: View, txs: seq<BanknoteTx>, m: Mem, pc: seq<Pc>, waiting: set<Hash>, drained: set<Hash>, i: nat, h: Hash)
    requires Ready(v, txs, m, pc, waiting, drained, i) && TouchedBy(txs, h)
    requires PcFits(txs[i].kind, pc[i]) && RefOk(pc[i], m) && txs[i].kind.BT?
    requires TransferredOnce(txs, h) && OwnerInv(v, txs, m, pc, h)
    ensures var o := TxStep(txs[i], pc[i], m); MemOk(o.mem) && OwnerInv(v, txs, o.mem, pc[i := o.pc], h)
  {
    hide Ready;
    ReadyAt(v, txs, m, pc, waiting, drained, i);
    var t, p := txs[i], pc[i];
    var o := TxStep(t, p, m);
    TxStepMem(t, p, m);
    var pc' := pc[i := o.pc];
    if Transfers(t, h) {
      OnlyMover(txs, i, h);
      MoveOwn(v, txs, m, pc, waiting, drained, i, h);
    } else if h in o.mem.pool {
      CarryOwner(v, txs, pc, pc', h, m.notes[m.pool[h]].owner);
    }
  }

  /** What a step of a transfer that nothing disturbs does to its note. */
  lemma MoveMem(t: BanknoteTx, p: Pc, m: Mem)
    requires t.kind.BT? && Active(p) && PcFits(BT, p) && RefOk(p, m) && MemOk(m)
    requires p.Holding? || p.Owned? ==> t.note in m.pool && p.ref == m.pool[t.note]
    requires p.Owned? ==> m.notes[p.ref].owner == t.to
    ensures var o := TxStep(t, p, m);
      && MemOk(o.mem)
      && (o.pc.Holding? || o.pc.Owned? ==> t.note in o.mem.pool && o.pc.ref == o.mem.pool[t.note])
      && (o.pc == Finished(false) ==> t.note !in o.mem.pool)
      && (p.Received? ==> o.mem == m && (o.pc == Finished(false) || o.pc.Missing? ==> t.note !in m.pool))
      && (!p.Received? ==> t.note in o.mem.pool && o.mem.notes[o.mem.pool[t.note]].owner == t.to)
  {
    TxStepMem(t, p, m);
  }

  lemma MoveOwn(v: View, txs: seq<BanknoteTx>, m: Mem, pc: seq<Pc>, waiting: set<Hash>, drained: set<Hash>, i: nat, h: Hash)
    requires Ready(v, txs, m, pc, waiting, drained, i) && TouchedBy(txs, h)
    requires PcFits(txs[i].kind, pc[i]) && RefOk(pc[i], m) && Transfers(txs[i], h)
    requires forall j :: 0 <= j < |txs| && j != i ==> !Transfers(txs[j], h)
    requires OwnerInv(v, txs, m, pc, h)
    ensures var o := TxStep(txs[i], pc[i], m); MemOk(o.mem) && OwnerInv(v, txs, o.mem, pc[i := o.pc], h)
  {
    hide Ready;
    ReadyAt(v, txs, m, pc, waiting, drained, i);
    var t, p := txs[i], pc[i];
    assert p.Owned? ==> MovedAt(txs[i], pc[i], h);
    MoveMem(t, p, m);
    var o := TxStep(t, p, m);
    var pc' := pc[i := o.pc];
    if h in o.mem.pool {
      var owner := o.mem.notes[o.mem.pool[h]].owner;
      if p.Received? {
        ReceivedOwner(v, txs, m, pc, waiting, drained, i, h, o.pc);
      } else {
        assert owner == t.to;
        MissingLive(v, txs, m, pc, waiting, i, o.pc);
        if !AnyMoved(txs, pc', h) { assert !MovedAt(txs[i], pc'[i], h); assert p.Missing?; }
      }
    }
  }

  /** A transfer that missed its note knows that the note does not live. */
  lemma MissingLive(v: View, txs: seq<BanknoteTx>, m: Mem, pc: seq<Pc>, waiting: set<Hash>, i: nat, p: Pc)
    requires |txs| == |pc| && MemOk(m) && i < |txs| && txs[i].kind.BT? && PcInv(v, txs, m, pc, waiting, txs[i], pc[i])
    ensures pc[i].Missing? ==> !Live(v, txs, pc[i := p], txs[i].note)
  {
    var pc', h := pc[i := p], txs[i].note;
    assert forall j :: 0 <= j < |txs| ==> (StoredAt(txs[j], pc'[j], h) <==> StoredAt(txs[j], pc[j], h));
    assert forall j :: 0 <= j < |txs| ==> (GoneAt(txs[j], pc'[j], h) <==> GoneAt(txs[j], pc[j], h));
    assert AnyStored(txs, pc', h) ==> AnyStored(txs, pc, h);
    assert AnyGone(txs, pc, h) ==> AnyGone(txs, pc', h);
  }

  lemma ReceivedOwner(v: View, txs: seq<BanknoteTx>, m: Mem, pc: seq<Pc>, waiting: set<Hash>, drained: set<Hash>, i: nat, h: Hash, p: Pc)
    requires Ready(v, txs, m, pc, waiting, drained, i) && TouchedBy(txs, h) && Transfers(txs[i], h)
    requires forall j :: 0 <= j < |txs| && j != i ==> !Transfers(txs[j], h)
    requires OwnerInv(v, txs, m, pc, h) && h in m.pool && pc[i].Received? && p.Holding?
    ensures OwnerNow(v, txs, pc[i := p], h, m.notes[m.pool[h]].owner)
  {
    var pc' := pc[i := p];
    assert forall j :: 0 <= j < |txs| ==> !MovedAt(txs[j], pc[j], h) && !MovedAt(txs[j], pc'[j], h) && !RevivedAt(txs[j], pc[j], h);
    assert forall j :: 0 <= j < |txs| ==> (StoredAt(txs[j], pc'[j], h) <==> StoredAt(txs[j], pc[j], h));
    assert forall j :: 0 <= j < |txs| ==> (GoneAt(txs[j], pc'[j], h) <==> GoneAt(txs[j], pc[j], h));
    assert !AnyRevived(txs, pc, h);
    assert HashInv(v, txs, m, pc, drained, h);
    assert Live(v, txs, pc, h);
    assert AnyStored(txs, pc', h) <==> AnyStored(txs, pc, h);
    assert AnyGone(txs, pc', h) <==> AnyGone(txs, pc, h);
  }

  lemma OnlyMover(txs: seq<BanknoteTx>, i: nat, h: Hash)
    requires i < |txs| && TransferredOnce(txs, h) && Transfers(txs[i], h)
    ensures forall j :: 0 <= j < |txs| && j != i ==> !Transfers(txs[j], h)
  {
    assert forall j :: 0 <= j < i ==> !(Transfers(txs[j], h) && Transfers(txs[i], h));
  }

  /** When a recycling is at work, every transfer is finished. */
  lemma MovesDone(v: View, txs: seq<BanknoteTx>, m: Mem, pc: seq<Pc>, waiting: set<Hash>, drained: set<Hash>, i: nat)
    requires Ready(v, txs, m, pc, waiting, drained, i) && txs[i].kind.BR?
    ensures forall j :: 0 <= j < |txs| && txs[j].kind.BT? ==> pc[j].Finished?
  {
  }

  lemma RecycleOwner(v: View, txs: seq<BanknoteTx>, m: Mem, pc: seq<Pc>, waiting: set<Hash>, drained: set<Hash>, i: nat, h: Hash)
    requires Ready(v, txs, m, pc, waiting, drained, i) && TouchedBy(txs, h)
    requires PcFits(txs[i].kind, pc[i]) && RefOk(pc[i], m) && txs[i].kind.BR?
    requires OwnerInv(v, txs, m, pc, h)
    ensures var o := TxStep(txs[i], pc[i], m); MemOk(o.mem) && OwnerInv(v, txs, o.mem, pc[i := o.pc], h)
  {
    hide Ready;
    ReadyAt(v, txs, m, pc, waiting, drained, i);
    MovesDone(v, txs, m, pc, waiting, drained, i);
    var t, p := txs[i], pc[i];
    var o := TxStep(t, p, m);
    var pc' := pc[i := o.pc];
    TxStepMem(t, p, m);
    assert forall j :: 0 <= j < |txs| && Transfers(txs[j], h) ==> pc'[j] == pc[j];
    if h in o.mem.pool {
      CarryOwner(v, txs, pc, pc', h, m.notes[m.pool[h]].owner);
    }
  }

  /** A worker's step keeps the owner facts. */
  lemma StepOwners(v: View, txs: seq<BanknoteTx>, m: Mem, pc: seq<Pc>, waiting: set<Hash>, drained: set<Hash>, i: nat)
    requires Ready(v, txs, m, pc, waiting, drained, i)
    requires PcFits(txs[i].kind, pc[i]) && RefOk(pc[i], m) && OwnersInv(v, txs, m, pc)
    ensures var o := TxStep(txs[i], pc[i], m); MemOk(o.mem) && OwnersInv(v, txs, o.mem, pc[i := o.pc])
  {
    var o := TxStep(txs[i], pc[i], m);
    TxStepMem(txs[i], pc[i], m);
    forall h | TouchedBy(txs, h) && TransferredOnce(txs, h) ensures OwnerInv(v, txs, o.mem, pc[i := o.pc], h) {
      match txs[i].kind
      case BG => ProduceOwner(v, txs, m, pc, waiting, drained, i, h);
      case BS => ProduceOwner(v, txs, m, pc, waiting, drained, i, h);
      case BT => MoveOwner(v, txs, m, pc, waiting, drained, i, h);
      case BR => RecycleOwner(v, txs, m, pc, waiting, drained, i, h);
      case NT =>
    }
  }

  lemma ReceiveOwners(v: View, txs: seq<BanknoteTx>, m: Mem, pc: seq<Pc>, i: nat)
    requires |txs| == |pc| && MemOk(m) && i < |txs| && pc[i].Waiting? && OwnersInv(v, txs, m, pc)
    ensures OwnersInv(v, txs, m, pc[i := Received])
  {
    var pc' := pc[i := Received];
    forall h | TouchedBy(txs, h) && TransferredOnce(txs, h) ensures OwnerInv(v, txs, m, pc', h) {
      assert OwnerInv(v, txs, m, pc, h);
      if h in m.pool { CarryOwner(v, txs, pc, pc', h, m.notes[m.pool[h]].owner); }
    }
  }

  /** Removing a note during the last phase keeps the owner facts. */
  lemma DeleteOwners(v: View, txs: seq<BanknoteTx>, m: Mem, pc: seq<Pc>, g: Hash)
    requires |txs| == |pc| && MemOk(m) && OwnersInv(v, txs, m, pc)
    requires forall i :: 0 <= i < |txs| && txs[i].kind.BT? ==> pc[i].Finished?
    ensures OwnersInv(v, txs, Delete(m, g), pc)
  {
  }

  /** A ledger's owners are not disturbed by steps on notes that none of its transactions touches. */
  lemma FrameOwners(v: View, txs: seq<BanknoteTx>, m: Mem, m': Mem, pc: seq<Pc>, touched: set<Hash>)
    requires |txs| == |pc| && MemOk(m) && MemOk(m') && OwnersInv(v, txs, m, pc) && Frame(m, m', touched)
    requires forall h :: TouchedBy(txs, h) ==> h !in touched
    ensures OwnersInv(v, txs, m', pc)
  {
  }

  /** What the batch makes of the owner of `h`. */
  ghost predicate OwnerRule(v: View, txs: seq<BanknoteTx>, h: Hash, owner: Address) {
    && (forall t :: t in txs && Transfers(t, h) ==> owner == t.to)
    && ((forall t :: t in txs ==> !Transfers(t, h)) ==>
          && (h in v ==> owner == v[h].owner)
          && (forall t :: t in txs && Produces(t, h) ==> owner == Product(t, h).owner))
  }

  /** A surviving note that is transferred at most once belongs to its recipient, or to its producer's choice. */
  lemma OwnerAt(v: View, txs: seq<BanknoteTx>, m: Mem, pc: seq<Pc>, waiting: set<Hash>, drained: set<Hash>, h: Hash)
    requires OrderFree(v, txs)
    requires PoolInv(v, txs, m, pc, waiting, drained, 4) && Complete(txs, pc, waiting, drained)
    requires OwnersInv(v, txs, m, pc) && TouchedBy(txs, h) && TransferredOnce(txs, h) && Survives(v, txs, h)
    ensures h in m.pool && OwnerRule(v, txs, h, m.notes[m.pool[h]].owner)
  {
    hide OrderFree;
    OutcomeAt(v, txs, m, pc, waiting, drained, h);
    assert OwnerInv(v, txs, m, pc, h) && HashInv(v, txs, m, pc, drained, h);
    var owner := m.notes[m.pool[h]].owner;
    Members(txs, pc, waiting, drained, h);
    forall t | t in txs && Transfers(t, h) ensures owner == t.to {
      var i :| 0 <= i < |txs| && txs[i] == t;
      assert MovedAt(txs[i], pc[i], h);
    }
    if forall t :: t in txs ==> !Transfers(t, h) {
      forall i | 0 <= i < |txs| ensures !MovedAt(txs[i], pc[i], h) && !RevivedAt(txs[i], pc[i], h) {
        assert txs[i] in txs;
      }
      assert AnyGone(txs, pc, h) ==> Split(txs, h) && Consumed(txs, h);
      forall t | t in txs && Produces(t, h) ensures owner == Product(t, h).owner {
        var i :| 0 <= i < |txs| && txs[i] == t;
        assert StoredAt(txs[i], pc[i], h);
      }
    }
  }
}
