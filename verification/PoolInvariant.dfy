/** What every interleaving makes of the pool: at each moment the content of the pool under a hash is a
    function of how far the transactions on that hash have got. */
module PoolInvariant {
  import opened BanknoteTypes
  import opened Lifecycle
  import opened LedgerMachine
  import opened Schedule

  /** The notes the pool refers to, by hash. */
  function ViewOf(m: Mem): (v: View)
    requires MemOk(m)
    ensures Keyed(v)
  {
    map h | h in m.pool :: m.notes[m.pool[h]]
  }

  /** `t` has stored its output `h`. */
  predicate StoredAt(t: BanknoteTx, p: Pc, h: Hash) {
    || (t.kind.BG? && t.note == h && p.Finished?)
    || (t.kind.BS? && t.new1 == h && (p.Half? || p.Finished?))
    || (t.kind.BS? && t.new2 == h && p.Finished?)
  }

  /** The split `t` has found its source `h` in the pool and removed it. */
  predicate GoneAt(t: BanknoteTx, p: Pc, h: Hash) {
    t.kind.BS? && t.note == h && (p.Cleared? || p.Half? || p.Finished?) && p.hit
  }

  /** The transfer `t` at the initial value has found `h` or re-created it. */
  predicate RevivedAt(t: BanknoteTx, p: Pc, h: Hash) {
    Revives(t, h) && (p.Holding? || p.Owned? || p == Finished(true))
  }

  /** The recycling `t` has removed `h`. */
  predicate CutAt(t: BanknoteTx, p: Pc, h: Hash) { t.kind.BR? && t.note == h && p == Finished(true) }

  ghost predicate AnyStored(txs: seq<BanknoteTx>, pc: seq<Pc>, h: Hash)
    requires |txs| == |pc|
  {
    exists i :: 0 <= i < |txs| && StoredAt(txs[i], pc[i], h)
  }

  ghost predicate AnyGone(txs: seq<BanknoteTx>, pc: seq<Pc>, h: Hash)
    requires |txs| == |pc|
  {
    exists i :: 0 <= i < |txs| && GoneAt(txs[i], pc[i], h)
  }

  ghost predicate AnyRevived(txs: seq<BanknoteTx>, pc: seq<Pc>, h: Hash)
    requires |txs| == |pc|
  {
    exists i :: 0 <= i < |txs| && RevivedAt(txs[i], pc[i], h)
  }

  ghost predicate AnyCut(txs: seq<BanknoteTx>, pc: seq<Pc>, h: Hash)
    requires |txs| == |pc|
  {
    exists i :: 0 <= i < |txs| && CutAt(txs[i], pc[i], h)
  }

  ghost predicate Born(v: View, txs: seq<BanknoteTx>, pc: seq<Pc>, h: Hash)
    requires |txs| == |pc|
  {
    h in v || AnyStored(txs, pc, h)
  }

  ghost predicate Live(v: View, txs: seq<BanknoteTx>, pc: seq<Pc>, h: Hash)
    requires |txs| == |pc|
  {
    Born(v, txs, pc, h) && !AnyGone(txs, pc, h)
  }

  /** The value of `h` while it lives. */
  ghost predicate LiveValue(v: View, txs: seq<BanknoteTx>, pc: seq<Pc>, h: Hash, value: int)
    requires |txs| == |pc|
  {
    && (h in v ==> value == v[h].value)
    && (forall i :: 0 <= i < |txs| && StoredAt(txs[i], pc[i], h) ==> value == Product(txs[i], h).value)
  }

  /** The content of the pool under `h`. */
  ghost predicate HashInv(v: View, txs: seq<BanknoteTx>, m: Mem, pc: seq<Pc>, drained: set<Hash>, h: Hash)
    requires |txs| == |pc| && MemOk(m)
  {
    && (h in m.pool <==>
          h !in drained && !AnyCut(txs, pc, h) && (Live(v, txs, pc, h) || AnyRevived(txs, pc, h)))
    && (h in m.pool ==>
          if Live(v, txs, pc, h) then LiveValue(v, txs, pc, h, m.notes[m.pool[h]].value)
          else m.notes[m.pool[h]].value == INIT_NOTE_VALUE)
  }

  /** What the worker of `t` knows at its program point. */
  ghost predicate PcInv(v: View, txs: seq<BanknoteTx>, m: Mem, pc: seq<Pc>, waiting: set<Hash>, t: BanknoteTx, p: Pc)
    requires |txs| == |pc| && MemOk(m)
  {
    && PcFits(t.kind, p) && RefOk(p, m)
    && (p.Found? || p.Holding? || p.Owned? ==> m.notes[p.ref].hash == t.note)
    && (p.Holding? || p.Owned? ==> t.note in m.pool && m.notes[p.ref].value == m.notes[m.pool[t.note]].value)
    && (p.Missing? ==> t.amount == INIT_NOTE_VALUE && !Live(v, txs, pc, t.note))
    && (t.kind.BT? && t.amount == INIT_NOTE_VALUE ==> p != Finished(false))
    && (t.kind.BR? && p == Finished(false) ==> t.note !in m.pool)
    && (t.kind.BS? && (p.Found? || GoneAt(t, p, t.note)) ==> Born(v, txs, pc, t.note))
    && (t.kind.BS? && HasDeferred(p) ==> t.note in waiting)
  }

  ghost predicate RankOk(txs: seq<BanknoteTx>, pc: seq<Pc>, rank: nat)
    requires |txs| == |pc|
  {
    forall i :: 0 <= i < |txs| ==>
      (Rank(txs[i].kind) < rank ==> pc[i].Finished?) && (Rank(txs[i].kind) > rank ==> pc[i].Waiting?)
  }

  /** Only sources that a split deferred are deferred or drained. */
  ghost predicate WaitingInv(txs: seq<BanknoteTx>, pc: seq<Pc>, waiting: set<Hash>)
    requires |txs| == |pc|
  {
    forall h :: h in waiting ==> exists i :: 0 <= i < |txs| && txs[i].kind.BS? && txs[i].note == h && HasDeferred(pc[i])
  }

  /** `waiting` holds the deferred sources, those already removed (`drained`) included. */
  ghost predicate PoolInv(v: View, txs: seq<BanknoteTx>, m: Mem, pc: seq<Pc>, waiting: set<Hash>, drained: set<Hash>, rank: nat) {
    && |txs| == |pc| && MemOk(m)
    && (forall h :: TouchedBy(txs, h) ==> HashInv(v, txs, m, pc, drained, h))
    && (forall i :: 0 <= i < |txs| ==> PcInv(v, txs, m, pc, waiting, txs[i], pc[i]))
    && RankOk(txs, pc, rank)
    && WaitingInv(txs, pc, waiting)
    && drained <= waiting && (rank < 3 ==> drained == {})
  }

  lemma StartPoolInv(m: Mem, txs: seq<BanknoteTx>, pc: seq<Pc>)
    requires MemOk(m) && |txs| == |pc|
    requires forall i :: 0 <= i < |txs| ==> pc[i] == Waiting && !txs[i].kind.NT?
    ensures PoolInv(ViewOf(m), txs, m, pc, {}, {}, 0)
  {
  }

  /** No step undoes what has been done, so a step adds at most its own effect. */
  lemma AnyAfter(txs: seq<BanknoteTx>, pc: seq<Pc>, i: nat, p: Pc, h: Hash)
    requires |txs| == |pc| && i < |txs|
    requires StoredAt(txs[i], pc[i], h) ==> StoredAt(txs[i], p, h)
    requires GoneAt(txs[i], pc[i], h) ==> GoneAt(txs[i], p, h)
    requires RevivedAt(txs[i], pc[i], h) ==> RevivedAt(txs[i], p, h)
    requires CutAt(txs[i], pc[i], h) ==> CutAt(txs[i], p, h)
    ensures AnyStored(txs, pc[i := p], h) <==> AnyStored(txs, pc, h) || StoredAt(txs[i], p, h)
    ensures AnyGone(txs, pc[i := p], h) <==> AnyGone(txs, pc, h) || GoneAt(txs[i], p, h)
    ensures AnyRevived(txs, pc[i := p], h) <==> AnyRevived(txs, pc, h) || RevivedAt(txs[i], p, h)
    ensures AnyCut(txs, pc[i := p], h) <==> AnyCut(txs, pc, h) || CutAt(txs[i], p, h)
  {
    hide *;
    StoredAfter(txs, pc, i, p, h);
    GoneAfter(txs, pc, i, p, h);
    RevivedAfter(txs, pc, i, p, h);
    CutAfter(txs, pc, i, p, h);
  }

  lemma StoredAfter(txs: seq<BanknoteTx>, pc: seq<Pc>, i: nat, p: Pc, h: Hash)
    requires |txs| == |pc| && i < |txs| && (StoredAt(txs[i], pc[i], h) ==> StoredAt(txs[i], p, h))
    ensures AnyStored(txs, pc[i := p], h) <==> AnyStored(txs, pc, h) || StoredAt(txs[i], p, h)
  {
    hide StoredAt;
    if j :| 0 <= j < |txs| && StoredAt(txs[j], pc[j], h) { assert StoredAt(txs[j], pc[i := p][j], h); }
    assert pc[i := p][i] == p;
  }

  lemma GoneAfter(txs: seq<BanknoteTx>, pc: seq<Pc>, i: nat, p: Pc, h: Hash)
    requires |txs| == |pc| && i < |txs| && (GoneAt(txs[i], pc[i], h) ==> GoneAt(txs[i], p, h))
    ensures AnyGone(txs, pc[i := p], h) <==> AnyGone(txs, pc, h) || GoneAt(txs[i], p, h)
  {
    hide GoneAt;
    if j :| 0 <= j < |txs| && GoneAt(txs[j], pc[j], h) { assert GoneAt(txs[j], pc[i := p][j], h); }
    assert pc[i := p][i] == p;
  }

  lemma RevivedAfter(txs: seq<BanknoteTx>, pc: seq<Pc>, i: nat, p: Pc, h: Hash)
    requires |txs| == |pc| && i < |txs| && (RevivedAt(txs[i], pc[i], h) ==> RevivedAt(txs[i], p, h))
    ensures AnyRevived(txs, pc[i := p], h) <==> AnyRevived(txs, pc, h) || RevivedAt(txs[i], p, h)
  {
    hide RevivedAt;
    if j :| 0 <= j < |txs| && RevivedAt(txs[j], pc[j], h) { assert RevivedAt(txs[j], pc[i := p][j], h); }
    assert pc[i := p][i] == p;
  }

  lemma CutAfter(txs: seq<BanknoteTx>, pc: seq<Pc>, i: nat, p: Pc, h: Hash)
    requires |txs| == |pc| && i < |txs| && (CutAt(txs[i], pc[i], h) ==> CutAt(txs[i], p, h))
    ensures AnyCut(txs, pc[i := p], h) <==> AnyCut(txs, pc, h) || CutAt(txs[i], p, h)
  {
    hide CutAt;
    if j :| 0 <= j < |txs| && CutAt(txs[j], pc[j], h) { assert CutAt(txs[j], pc[i := p][j], h); }
    assert pc[i := p][i] == p;
  }

  ghost predicate Ready(v: View, txs: seq<BanknoteTx>, m: Mem, pc: seq<Pc>, waiting: set<Hash>, drained: set<Hash>, i: nat) {
    && i < |txs| && FreshOutputs(v, txs)
    && PoolInv(v, txs, m, pc, waiting, drained, Rank(txs[i].kind))
    && Active(pc[i])
  }

  lemma ReadyAt(v: View, txs: seq<BanknoteTx>, m: Mem, pc: seq<Pc>, waiting: set<Hash>, drained: set<Hash>, i: nat)
    requires Ready(v, txs, m, pc, waiting, drained, i)
    ensures |txs| == |pc| && MemOk(m) && i < |txs| && Active(pc[i]) && PcInv(v, txs, m, pc, waiting, txs[i], pc[i])
  {
  }

  lemma StepMonotone(t: BanknoteTx, p: Pc, m: Mem, h: Hash)
    requires Active(p) && PcFits(t.kind, p) && RefOk(p, m)
    ensures var p' := TxStep(t, p, m).pc;
      && (StoredAt(t, p, h) ==> StoredAt(t, p', h)) && (GoneAt(t, p, h) ==> GoneAt(t, p', h))
      && (RevivedAt(t, p, h) ==> RevivedAt(t, p', h)) && (CutAt(t, p, h) ==> CutAt(t, p', h))
  {
  }

  lemma PairApart(v: View, txs: seq<BanknoteTx>, i: nat, j: nat)
    requires FreshOutputs(v, txs) && i < |txs| && j < |txs| && i != j
    ensures ProduceApart(txs[i], txs[j])
  {
    assert i < j ==> ProduceApart(txs[i], txs[j]);
    assert j < i ==> ProduceApart(txs[j], txs[i]);
  }

  lemma PairCompatible(v: View, txs: seq<BanknoteTx>, i: nat, j: nat)
    requires OrderFree(v, txs) && i < |txs| && j < |txs| && i != j
    ensures Compatible(txs[i], txs[j])
  {
    assert i < j ==> Compatible(txs[i], txs[j]);
    assert j < i ==> Compatible(txs[j], txs[i]);
  }

  /** Until its producer stores it, a produced note is neither born nor gone. */
  lemma Unborn(v: View, txs: seq<BanknoteTx>, m: Mem, pc: seq<Pc>, waiting: set<Hash>, drained: set<Hash>, i: nat, h: Hash)
    requires Ready(v, txs, m, pc, waiting, drained, i)
    requires Produces(txs[i], h) && !StoredAt(txs[i], pc[i], h)
    ensures !Born(v, txs, pc, h) && !AnyGone(txs, pc, h)
  {
    assert FreshOutput(v, txs[i]);
    forall j | 0 <= j < |txs| ensures !StoredAt(txs[j], pc[j], h) {
      if j != i { PairApart(v, txs, i, j); }
      assert StoredAt(txs[j], pc[j], h) ==> Produces(txs[j], h);
    }
    forall j | 0 <= j < |txs| ensures !GoneAt(txs[j], pc[j], h) {
      assert PcInv(v, txs, m, pc, waiting, txs[j], pc[j]);
    }
  }

  /** Before the recycling phase nothing is cut, and before the transfers nothing is revived. */
  lemma EarlyPhases(v: View, txs: seq<BanknoteTx>, m: Mem, pc: seq<Pc>, waiting: set<Hash>, drained: set<Hash>, rank: nat, h: Hash)
    requires PoolInv(v, txs, m, pc, waiting, drained, rank)
    ensures rank < 3 ==> !AnyCut(txs, pc, h) && drained == {}
    ensures rank < 2 ==> !AnyRevived(txs, pc, h)
    ensures rank < 1 ==> !AnyGone(txs, pc, h)
  {
  }

  lemma MintHash(v: View, txs: seq<BanknoteTx>, m: Mem, pc: seq<Pc>, waiting: set<Hash>, drained: set<Hash>, i: nat, h: Hash)
    requires Ready(v, txs, m, pc, waiting, drained, i) && txs[i].kind.BG? && TouchedBy(txs, h)
    requires PcFits(BG, pc[i]) && RefOk(pc[i], m)
    ensures var o := TxStep(txs[i], pc[i], m); MemOk(o.mem) && HashInv(v, txs, o.mem, pc[i := o.pc], drained, h)
  {
    var t, p := txs[i], pc[i];
    var o := TxStep(t, p, m);
    TxStepMem(t, p, m);
    StepMonotone(t, p, m, h);
    AnyAfter(txs, pc, i, o.pc, h);
    EarlyPhases(v, txs, m, pc, waiting, drained, 0, h);
    assert HashInv(v, txs, m, pc, drained, h);
    if p.Recorded? && h == t.note {
      Unborn(v, txs, m, pc, waiting, drained, i, h);
      StoreOutput(v, txs, pc, i, o.pc, h);
    } else {
      SameStored(v, txs, pc, i, o.pc, h);
    }
  }

  /** After its producer has stored it, a note lives at the produced value. */
  lemma StoreOutput(v: View, txs: seq<BanknoteTx>, pc: seq<Pc>, i: nat, p: Pc, h: Hash)
    requires |txs| == |pc| && i < |txs| && h !in v && !AnyStored(txs, pc, h) && StoredAt(txs[i], p, h)
    ensures LiveValue(v, txs, pc[i := p], h, Product(txs[i], h).value)
  {
    assert forall j :: 0 <= j < |txs| && j != i ==> !StoredAt(txs[j], pc[j], h);
  }

  lemma SameStored(v: View, txs: seq<BanknoteTx>, pc: seq<Pc>, i: nat, p: Pc, h: Hash)
    requires |txs| == |pc| && i < |txs| && (StoredAt(txs[i], pc[i], h) <==> StoredAt(txs[i], p, h))
    ensures forall value :: LiveValue(v, txs, pc[i := p], h, value) <==> LiveValue(v, txs, pc, h, value)
  {
    forall j | 0 <= j < |txs| ensures StoredAt(txs[j], pc[i := p][j], h) <==> StoredAt(txs[j], pc[j], h) { }
  }

  lemma SplitHash(v: View, txs: seq<BanknoteTx>, m: Mem, pc: seq<Pc>, waiting: set<Hash>, drained: set<Hash>, i: nat, h: Hash)
    requires Ready(v, txs, m, pc, waiting, drained, i) && txs[i].kind.BS? && TouchedBy(txs, h)
    requires PcFits(BS, pc[i]) && RefOk(pc[i], m)
    ensures var o := TxStep(txs[i], pc[i], m); MemOk(o.mem) && HashInv(v, txs, o.mem, pc[i := o.pc], drained, h)
  {
    hide *;
    ReadyAt(v, txs, m, pc, waiting, drained, i);
    if pc[i].Cleared? || pc[i].Half? {
      SplitStores(v, txs, m, pc, waiting, drained, i, h);
    } else {
      SplitLooks(v, txs, m, pc, waiting, drained, i, h);
    }
  }

  /** A split stores its outputs. */
  lemma SplitStores(v: View, txs: seq<BanknoteTx>, m: Mem, pc: seq<Pc>, waiting: set<Hash>, drained: set<Hash>, i: nat, h: Hash)
    requires Ready(v, txs, m, pc, waiting, drained, i) && txs[i].kind.BS? && TouchedBy(txs, h)
    requires PcFits(BS, pc[i]) && RefOk(pc[i], m) && (pc[i].Cleared? || pc[i].Half?)
    ensures var o := TxStep(txs[i], pc[i], m); MemOk(o.mem) && HashInv(v, txs, o.mem, pc[i := o.pc], drained, h)
  {
    var t, p := txs[i], pc[i];
    var o := TxStep(t, p, m);
    TxStepMem(t, p, m);
    StepMonotone(t, p, m, h);
    AnyAfter(txs, pc, i, o.pc, h);
    EarlyPhases(v, txs, m, pc, waiting, drained, 1, h);
    assert HashInv(v, txs, m, pc, drained, h) && FreshOutput(v, t);
    if h == (if p.Cleared? then t.new1 else t.new2) {
      Unborn(v, txs, m, pc, waiting, drained, i, h);
      StoreOutput(v, txs, pc, i, o.pc, h);
    } else {
      SameStored(v, txs, pc, i, o.pc, h);
    }
  }

  /** A split looks for its source and removes it. */
  lemma SplitLooks(v: View, txs: seq<BanknoteTx>, m: Mem, pc: seq<Pc>, waiting: set<Hash>, drained: set<Hash>, i: nat, h: Hash)
    requires Ready(v, txs, m, pc, waiting, drained, i) && txs[i].kind.BS? && TouchedBy(txs, h)
    requires PcFits(BS, pc[i]) && RefOk(pc[i], m) && !pc[i].Cleared? && !pc[i].Half?
    ensures var o := TxStep(txs[i], pc[i], m); MemOk(o.mem) && HashInv(v, txs, o.mem, pc[i := o.pc], drained, h)
  {
    var t, p := txs[i], pc[i];
    var o := TxStep(t, p, m);
    TxStepMem(t, p, m);
    StepMonotone(t, p, m, h);
    AnyAfter(txs, pc, i, o.pc, h);
    EarlyPhases(v, txs, m, pc, waiting, drained, 1, h);
    assert HashInv(v, txs, m, pc, drained, h) && PcInv(v, txs, m, pc, waiting, t, p);
    SameStored(v, txs, pc, i, o.pc, h);
  }

  lemma MoveHash(v: View, txs: seq<BanknoteTx>, m: Mem, pc: seq<Pc>, waiting: set<Hash>, drained: set<Hash>, i: nat, h: Hash)
    requires Ready(v, txs, m, pc, waiting, drained, i) && txs[i].kind.BT? && TouchedBy(txs, h)
    requires PcFits(BT, pc[i]) && RefOk(pc[i], m)
    ensures var o := TxStep(txs[i], pc[i], m); MemOk(o.mem) && HashInv(v, txs, o.mem, pc[i := o.pc], drained, h)
  {
    var t, p := txs[i], pc[i];
    var o := TxStep(t, p, m);
    TxStepMem(t, p, m);
    StepMonotone(t, p, m, h);
    AnyAfter(txs, pc, i, o.pc, h);
    EarlyPhases(v, txs, m, pc, waiting, drained, 2, h);
    SameStored(v, txs, pc, i, o.pc, h);
    assert HashInv(v, txs, m, pc, drained, h) && PcInv(v, txs, m, pc, waiting, t, p);
  }

  lemma RecycleHash(v: View, txs: seq<BanknoteTx>, m: Mem, pc: seq<Pc>, waiting: set<Hash>, drained: set<Hash>, i: nat, h: Hash)
    requires Ready(v, txs, m, pc, waiting, drained, i) && txs[i].kind.BR? && TouchedBy(txs, h)
    requires PcFits(BR, pc[i]) && RefOk(pc[i], m)
    ensures var o := TxStep(txs[i], pc[i], m); MemOk(o.mem) && HashInv(v, txs, o.mem, pc[i := o.pc], drained, h)
  {
    var t, p := txs[i], pc[i];
    var o := TxStep(t, p, m);
    TxStepMem(t, p, m);
    StepMonotone(t, p, m, h);
    AnyAfter(txs, pc, i, o.pc, h);
    SameStored(v, txs, pc, i, o.pc, h);
    assert HashInv(v, txs, m, pc, drained, h) && PcInv(v, txs, m, pc, waiting, t, p);
  }

  lemma StepHash(v: View, txs: seq<BanknoteTx>, m: Mem, pc: seq<Pc>, waiting: set<Hash>, drained: set<Hash>, i: nat, h: Hash)
    requires Ready(v, txs, m, pc, waiting, drained, i) && TouchedBy(txs, h)
    requires PcFits(txs[i].kind, pc[i]) && RefOk(pc[i], m)
    ensures var o := TxStep(txs[i], pc[i], m); MemOk(o.mem) && HashInv(v, txs, o.mem, pc[i := o.pc], drained, h)
  {
    match txs[i].kind
    case BG => MintHash(v, txs, m, pc, waiting, drained, i, h);
    case BS => SplitHash(v, txs, m, pc, waiting, drained, i, h);
    case BT => MoveHash(v, txs, m, pc, waiting, drained, i, h);
    case BR => RecycleHash(v, txs, m, pc, waiting, drained, i, h);
    case NT =>
  }

  /** The deferred sources after a step. */
  function WaitingAfter(waiting: set<Hash>, out: Output): set<Hash> {
    if out.Defer? then waiting + {out.h} else waiting
  }

  /** What the stepping worker itself knows next. */
  lemma StepOwnPc(v: View, txs: seq<BanknoteTx>, m: Mem, pc: seq<Pc>, waiting: set<Hash>, drained: set<Hash>, i: nat)
    requires Ready(v, txs, m, pc, waiting, drained, i)
    requires PcFits(txs[i].kind, pc[i]) && RefOk(pc[i], m)
    ensures var o := TxStep(txs[i], pc[i], m);
      MemOk(o.mem) && PcInv(v, txs, o.mem, pc[i := o.pc], WaitingAfter(waiting, o.out), txs[i], o.pc)
  {
    var t, p := txs[i], pc[i];
    var o := TxStep(t, p, m);
    TxStepMem(t, p, m);
    TxStepShape(t, p, m);
    StepMonotone(t, p, m, t.note);
    AnyAfter(txs, pc, i, o.pc, t.note);
    assert PcInv(v, txs, m, pc, waiting, t, p);
    assert Touches(t, t.note);
    assert TouchedBy(txs, t.note);
    EarlyPhases(v, txs, m, pc, waiting, drained, Rank(t.kind), t.note);
    assert HashInv(v, txs, m, pc, drained, t.note);
  }

  /** What another worker knows; the workers of a ledger are in the same phase. */
  lemma OtherAt(v: View, txs: seq<BanknoteTx>, m: Mem, pc: seq<Pc>, waiting: set<Hash>, drained: set<Hash>, i: nat, j: nat)
    requires Ready(v, txs, m, pc, waiting, drained, i) && j < |txs|
    ensures |txs| == |pc| && MemOk(m) && i < |txs| && PcInv(v, txs, m, pc, waiting, txs[j], pc[j])
    ensures pc[j].Holding? || pc[j].Owned? || pc[j].Missing? ==> txs[i].kind.BT? && HashInv(v, txs, m, pc, drained, txs[j].note)
    ensures pc[j] == Finished(false) && txs[j].kind.BR? ==> txs[i].kind.BR?
  {
    if pc[j].Holding? || pc[j].Owned? || pc[j].Missing? {
      assert Touches(txs[j], txs[j].note);
      assert TouchedBy(txs, txs[j].note);
    }
  }

  /** What another worker knows is not disturbed. */
  lemma StepOtherPc(v: View, txs: seq<BanknoteTx>, m: Mem, pc: seq<Pc>, waiting: set<Hash>, drained: set<Hash>, i: nat, j: nat)
    requires Ready(v, txs, m, pc, waiting, drained, i) && j < |txs| && j != i
    requires PcFits(txs[i].kind, pc[i]) && RefOk(pc[i], m)
    ensures var o := TxStep(txs[i], pc[i], m);
      MemOk(o.mem) && PcInv(v, txs, o.mem, pc[i := o.pc], WaitingAfter(waiting, o.out), txs[j], pc[j])
  {
    hide Ready, FreshOutputs;
    ReadyAt(v, txs, m, pc, waiting, drained, i);
    OtherAt(v, txs, m, pc, waiting, drained, i, j);
    var t, p, u, q := txs[i], pc[i], txs[j], pc[j];
    var o := TxStep(t, p, m);
    TxStepMem(t, p, m);
    StepMonotone(t, p, m, u.note);
    AnyAfter(txs, pc, i, o.pc, u.note);
  }

  /** A worker's step keeps the invariant. */
  lemma StepPoolInv(v: View, txs: seq<BanknoteTx>, m: Mem, pc: seq<Pc>, waiting: set<Hash>, drained: set<Hash>, i: nat)
    requires Ready(v, txs, m, pc, waiting, drained, i)
    requires PcFits(txs[i].kind, pc[i]) && RefOk(pc[i], m)
    ensures var o := TxStep(txs[i], pc[i], m);
      PoolInv(v, txs, o.mem, pc[i := o.pc], WaitingAfter(waiting, o.out), drained, Rank(txs[i].kind))
  {
    var o := TxStep(txs[i], pc[i], m);
    TxStepMem(txs[i], pc[i], m);
    TxStepShape(txs[i], pc[i], m);
    forall h | TouchedBy(txs, h) ensures HashInv(v, txs, o.mem, pc[i := o.pc], drained, h) {
      StepHash(v, txs, m, pc, waiting, drained, i, h);
    }
    StepOwnPc(v, txs, m, pc, waiting, drained, i);
    forall j | 0 <= j < |txs| ensures PcInv(v, txs, o.mem, pc[i := o.pc], WaitingAfter(waiting, o.out), txs[j], pc[i := o.pc][j]) {
      if j != i { StepOtherPc(v, txs, m, pc, waiting, drained, i, j); }
    }
    StepWaiting(txs, m, pc, waiting, i);
  }

  lemma StepWaiting(txs: seq<BanknoteTx>, m: Mem, pc: seq<Pc>, waiting: set<Hash>, i: nat)
    requires |txs| == |pc| && i < |txs| && WaitingInv(txs, pc, waiting)
    requires MemOk(m) && Active(pc[i]) && PcFits(txs[i].kind, pc[i]) && RefOk(pc[i], m)
    ensures var o := TxStep(txs[i], pc[i], m); WaitingInv(txs, pc[i := o.pc], WaitingAfter(waiting, o.out))
  {
    var o := TxStep(txs[i], pc[i], m);
    TxStepShape(txs[i], pc[i], m);
    var pc' := pc[i := o.pc];
    forall h | h in WaitingAfter(waiting, o.out)
      ensures exists j :: 0 <= j < |txs| && txs[j].kind.BS? && txs[j].note == h && HasDeferred(pc'[j])
    {
      if h in waiting {
        var j :| 0 <= j < |txs| && txs[j].kind.BS? && txs[j].note == h && HasDeferred(pc[j]);
        assert HasDeferred(pc'[j]);
      } else {
        assert HasDeferred(pc'[i]);
      }
    }
  }

  lemma ReceiveHash(v: View, txs: seq<BanknoteTx>, m: Mem, pc: seq<Pc>, drained: set<Hash>, i: nat, h: Hash)
    requires |txs| == |pc| && MemOk(m) && i < |txs| && pc[i].Waiting?
    ensures HashInv(v, txs, m, pc, drained, h) ==> HashInv(v, txs, m, pc[i := Received], drained, h)
    ensures Born(v, txs, pc[i := Received], h) <==> Born(v, txs, pc, h)
    ensures Live(v, txs, pc[i := Received], h) <==> Live(v, txs, pc, h)
  {
    AnyAfter(txs, pc, i, Received, h);
    SameStored(v, txs, pc, i, Received, h);
  }

  /** Receiving a transaction changes nothing in the pool. */
  lemma ReceivePoolInv(v: View, txs: seq<BanknoteTx>, m: Mem, pc: seq<Pc>, waiting: set<Hash>, drained: set<Hash>, i: nat)
    requires i < |txs| && PoolInv(v, txs, m, pc, waiting, drained, Rank(txs[i].kind)) && pc[i].Waiting?
    ensures PoolInv(v, txs, m, pc[i := Received], waiting, drained, Rank(txs[i].kind))
  {
    var pc' := pc[i := Received];
    forall h | TouchedBy(txs, h) ensures HashInv(v, txs, m, pc', drained, h) {
      ReceiveHash(v, txs, m, pc, drained, i, h);
    }
    forall j | 0 <= j < |txs| ensures PcInv(v, txs, m, pc', waiting, txs[j], pc'[j]) {
      ReceiveHash(v, txs, m, pc, drained, i, txs[j].note);
      assert PcInv(v, txs, m, pc, waiting, txs[j], pc[j]);
    }
    ReceiveWaiting(txs, pc, waiting, i);
  }

  lemma ReceiveWaiting(txs: seq<BanknoteTx>, pc: seq<Pc>, waiting: set<Hash>, i: nat)
    requires |txs| == |pc| && i < |txs| && pc[i].Waiting? && WaitingInv(txs, pc, waiting)
    ensures WaitingInv(txs, pc[i := Received], waiting)
  {
    forall h | h in waiting
      ensures exists j :: 0 <= j < |txs| && txs[j].kind.BS? && txs[j].note == h && HasDeferred(pc[i := Received][j])
    {
      var j :| 0 <= j < |txs| && txs[j].kind.BS? && txs[j].note == h && HasDeferred(pc[j]);
      assert HasDeferred(pc[i := Received][j]);
    }
  }

  /** Removing a deferred source keeps the invariant. */
  lemma DrainPoolInv(v: View, txs: seq<BanknoteTx>, m: Mem, pc: seq<Pc>, waiting: set<Hash>, drained: set<Hash>, h: Hash)
    requires PoolInv(v, txs, m, pc, waiting, drained, 3) && h in waiting
    ensures PoolInv(v, txs, Delete(m, h), pc, waiting, drained + {h}, 3)
  {
    var m' := Delete(m, h);
    forall g | TouchedBy(txs, g) ensures HashInv(v, txs, m', pc, drained + {h}, g) {
      assert HashInv(v, txs, m, pc, drained, g);
    }
    forall j | 0 <= j < |txs| ensures PcInv(v, txs, m', pc, waiting, txs[j], pc[j]) {
      assert PcInv(v, txs, m, pc, waiting, txs[j], pc[j]);
    }
  }

  /** A phase ends when its transactions are finished. */
  lemma RankPoolInv(v: View, txs: seq<BanknoteTx>, m: Mem, pc: seq<Pc>, waiting: set<Hash>, drained: set<Hash>, rank: nat)
    requires PoolInv(v, txs, m, pc, waiting, drained, rank) && RankOk(txs, pc, rank + 1)
    ensures PoolInv(v, txs, m, pc, waiting, drained, rank + 1)
  {
  }

  // Other ledgers

  /** From `m` to `m'`, notes were only added, kept their hashes and values, and nothing happened to the
      pool or to notes outside the hashes `touched`. */
  ghost predicate Frame(m: Mem, m': Mem, touched: set<Hash>) {
    && |m.notes| <= |m'.notes|
    && (forall r :: 0 <= r < |m.notes| ==> m'.notes[r].hash == m.notes[r].hash && m'.notes[r].value == m.notes[r].value)
    && (forall r :: 0 <= r < |m.notes| && m.notes[r].hash !in touched ==> m'.notes[r] == m.notes[r])
    && (forall h :: h !in touched ==>
          (h in m.pool <==> h in m'.pool) && (h in m.pool ==> m'.pool[h] == m.pool[h]))
  }

  function TouchSet(t: BanknoteTx): (s: set<Hash>)
    ensures forall h :: h in s <==> Touches(t, h)
  {
    match t.kind case BG => {t.note} case BS => {t.note, t.new1, t.new2} case NT => {} case _ => {t.note}
  }

  lemma StepFrame(t: BanknoteTx, p: Pc, m: Mem)
    requires Active(p) && PcFits(t.kind, p) && RefOk(p, m) && MemOk(m)
    requires p.Found? || p.Holding? || p.Owned? ==> m.notes[p.ref].hash == t.note
    ensures Frame(m, TxStep(t, p, m).mem, TouchSet(t))
  {
  }

  lemma DeleteFrame(m: Mem, h: Hash, touched: set<Hash>)
    requires h in touched
    ensures Frame(m, Delete(m, h), touched)
  {
  }

  /** A ledger is not disturbed by steps on notes that none of its transactions touches. */
  lemma FramePoolInv(v: View, txs: seq<BanknoteTx>, m: Mem, m': Mem, pc: seq<Pc>, waiting: set<Hash>, drained: set<Hash>,
                     rank: nat, touched: set<Hash>)
    requires PoolInv(v, txs, m, pc, waiting, drained, rank) && MemOk(m') && Frame(m, m', touched)
    requires forall h :: TouchedBy(txs, h) ==> h !in touched
    ensures PoolInv(v, txs, m', pc, waiting, drained, rank)
  {
    forall h | TouchedBy(txs, h) ensures HashInv(v, txs, m', pc, drained, h) {
      assert HashInv(v, txs, m, pc, drained, h);
    }
    forall i | 0 <= i < |txs| ensures PcInv(v, txs, m', pc, waiting, txs[i], pc[i]) {
      assert PcInv(v, txs, m, pc, waiting, txs[i], pc[i]);
      assert txs[i] in txs;
      if Touches(txs[i], txs[i].note) { assert TouchedBy(txs, txs[i].note); }
    }
  }

  // The outcome

  /** Every transaction is processed and every deferred source is removed. */
  ghost predicate Complete(txs: seq<BanknoteTx>, pc: seq<Pc>, waiting: set<Hash>, drained: set<Hash>) {
    |txs| == |pc| && waiting <= drained && forall i :: 0 <= i < |pc| ==> pc[i].Finished?
  }

  lemma Members(txs: seq<BanknoteTx>, pc: seq<Pc>, waiting: set<Hash>, drained: set<Hash>, h: Hash)
    requires Complete(txs, pc, waiting, drained)
    ensures AnyStored(txs, pc, h) <==> Produced(txs, h)
    ensures AnyGone(txs, pc, h) ==> Split(txs, h)
    ensures AnyRevived(txs, pc, h) ==> Revived(txs, h)
    ensures AnyCut(txs, pc, h) ==> Consumed(txs, h)
  {
    if Produced(txs, h) {
      var t :| t in txs && Produces(t, h);
      var i :| 0 <= i < |txs| && txs[i] == t;
      assert StoredAt(txs[i], pc[i], h);
    }
    if AnyStored(txs, pc, h) {
      var i :| 0 <= i < |txs| && StoredAt(txs[i], pc[i], h);
      assert Produces(txs[i], h);
    }
    if AnyGone(txs, pc, h) {
      var i :| 0 <= i < |txs| && GoneAt(txs[i], pc[i], h);
      assert Consumes(txs[i], h);
    }
    if AnyRevived(txs, pc, h) {
      var i :| 0 <= i < |txs| && RevivedAt(txs[i], pc[i], h);
      assert Revives(txs[i], h);
    }
    if AnyCut(txs, pc, h) {
      var i :| 0 <= i < |txs| && CutAt(txs[i], pc[i], h);
      assert Consumes(txs[i], h);
    }
  }

  lemma RevivedWhenComplete(v: View, txs: seq<BanknoteTx>, m: Mem, pc: seq<Pc>, waiting: set<Hash>, drained: set<Hash>, h: Hash)
    requires PoolInv(v, txs, m, pc, waiting, drained, 4) && Complete(txs, pc, waiting, drained)
    ensures Revived(txs, h) ==> AnyRevived(txs, pc, h)
  {
    if Revived(txs, h) {
      var t :| t in txs && Revives(t, h);
      var i :| 0 <= i < |txs| && txs[i] == t;
      assert PcInv(v, txs, m, pc, waiting, txs[i], pc[i]);
      assert RevivedAt(txs[i], pc[i], h);
    }
  }

  /** A consumed note is gone from the pool at the end, unless its split removed it at once and a
      transfer at the initial value put it back. */
  lemma ConsumedWhenComplete(v: View, txs: seq<BanknoteTx>, m: Mem, pc: seq<Pc>, waiting: set<Hash>, drained: set<Hash>, h: Hash)
    requires PoolInv(v, txs, m, pc, waiting, drained, 4) && Complete(txs, pc, waiting, drained)
    requires Consumed(txs, h)
    ensures h !in m.pool || AnyGone(txs, pc, h)
  {
    var t :| t in txs && Consumes(t, h);
    assert Touches(t, h) && TouchedBy(txs, h);
    assert HashInv(v, txs, m, pc, drained, h);
    var i :| 0 <= i < |txs| && txs[i] == t;
    assert PcInv(v, txs, m, pc, waiting, txs[i], pc[i]);
    if t.kind.BR? {
      if pc[i] == Finished(true) { assert CutAt(txs[i], pc[i], h); }
    } else if pc[i] == Finished(true) {
      assert GoneAt(txs[i], pc[i], h);
    }
  }

  /** What the pool holds under a touched note when the ledger is done, for every interleaving: the
      surviving note, or a ghost of a split note that a transfer re-created. */
  lemma OutcomeAt(v: View, txs: seq<BanknoteTx>, m: Mem, pc: seq<Pc>, waiting: set<Hash>, drained: set<Hash>, h: Hash)
    requires OrderFree(v, txs)
    requires PoolInv(v, txs, m, pc, waiting, drained, 4) && Complete(txs, pc, waiting, drained) && TouchedBy(txs, h)
    ensures h in m.pool <==> Survives(v, txs, h) || (AnyGone(txs, pc, h) && Revived(txs, h))
    ensures Survives(v, txs, h) ==> h in m.pool && ValueRule(v, txs, h, m.notes[m.pool[h]].value)
    ensures AnyGone(txs, pc, h) ==> (h in v || Produced(txs, h))
    ensures AnyGone(txs, pc, h) && h in m.pool ==> m.notes[m.pool[h]].value == INIT_NOTE_VALUE
  {
    Members(txs, pc, waiting, drained, h);
    RevivedWhenComplete(v, txs, m, pc, waiting, drained, h);
    assert HashInv(v, txs, m, pc, drained, h);
    if AnyGone(txs, pc, h) {
      GoneOutcome(v, txs, m, pc, waiting, drained, h);
    } else if Consumed(txs, h) {
      ConsumedWhenComplete(v, txs, m, pc, waiting, drained, h);
    } else {
      NotWaiting(v, txs, m, pc, waiting, drained, h);
      assert h in m.pool <==> Survives(v, txs, h);
      if h in m.pool { LiveValueRule(v, txs, pc, waiting, drained, h, m.notes[m.pool[h]].value); }
    }
  }

  lemma NotWaiting(v: View, txs: seq<BanknoteTx>, m: Mem, pc: seq<Pc>, waiting: set<Hash>, drained: set<Hash>, h: Hash)
    requires PoolInv(v, txs, m, pc, waiting, drained, 4) && !Consumed(txs, h)
    ensures h !in waiting && h !in drained
  {
    if h in waiting {
      var i :| 0 <= i < |txs| && txs[i].kind.BS? && txs[i].note == h && HasDeferred(pc[i]);
      assert Consumes(txs[i], h);
    }
  }

  lemma GoneOutcome(v: View, txs: seq<BanknoteTx>, m: Mem, pc: seq<Pc>, waiting: set<Hash>, drained: set<Hash>, h: Hash)
    requires OrderFree(v, txs)
    requires PoolInv(v, txs, m, pc, waiting, drained, 4) && Complete(txs, pc, waiting, drained)
    requires AnyGone(txs, pc, h)
    ensures Consumed(txs, h) && !AnyCut(txs, pc, h) && h !in drained
    ensures h in v || Produced(txs, h)
  {
    var i :| 0 <= i < |txs| && GoneAt(txs[i], pc[i], h);
    assert PcInv(v, txs, m, pc, waiting, txs[i], pc[i]);
    Members(txs, pc, waiting, drained, h);
    assert Consumes(txs[i], h);
    forall j | 0 <= j < |txs| ensures !CutAt(txs[j], pc[j], h) {
      if j != i { PairCompatible(v, txs, i, j); }
    }
    forall j | 0 <= j < |txs| ensures !(txs[j].kind.BS? && txs[j].note == h && HasDeferred(pc[j])) {
      if j != i { PairCompatible(v, txs, i, j); }
      assert txs[j].kind.BS? && txs[j].note == h ==> Consumes(txs[j], h);
    }
  }

  lemma LiveValueRule(v: View, txs: seq<BanknoteTx>, pc: seq<Pc>, waiting: set<Hash>, drained: set<Hash>, h: Hash, value: int)
    requires Complete(txs, pc, waiting, drained)
    requires !AnyGone(txs, pc, h)
    requires if Live(v, txs, pc, h) then LiveValue(v, txs, pc, h, value) else value == INIT_NOTE_VALUE
    ensures ValueRule(v, txs, h, value)
  {
    Members(txs, pc, waiting, drained, h);
    forall t | t in txs && Produces(t, h) ensures value == Product(t, h).value {
      var i :| 0 <= i < |txs| && txs[i] == t;
      assert StoredAt(txs[i], pc[i], h);
    }
  }

  // Which splits find their source

  /** In the pool before the batch, or minted by it: present when the splits start. */
  ghost predicate EarlyBorn(v: View, txs: seq<BanknoteTx>, h: Hash) {
    h in v || exists t :: t in txs && t.kind.BG? && t.note == h
  }

  /** No split of a note that was there when the splits started misses it. */
  ghost predicate EarlyInv(v: View, txs: seq<BanknoteTx>, pc: seq<Pc>)
    requires |txs| == |pc|
  {
    forall i :: 0 <= i < |txs| && txs[i].kind.BS? && (pc[i].Absent? || HasDeferred(pc[i])) ==>
      !EarlyBorn(v, txs, txs[i].note)
  }

  /** The only consumer of a note is the only one that can have removed it. */
  lemma NotGone(v: View, txs: seq<BanknoteTx>, pc: seq<Pc>, i: nat, h: Hash)
    requires |txs| == |pc| && OrderFree(v, txs) && i < |txs| && Consumes(txs[i], h) && !GoneAt(txs[i], pc[i], h)
    ensures !AnyGone(txs, pc, h)
  {
    forall j | 0 <= j < |txs| ensures !GoneAt(txs[j], pc[j], h) {
      if j != i { PairCompatible(v, txs, i, j); }
      assert GoneAt(txs[j], pc[j], h) ==> Consumes(txs[j], h);
    }
  }

  lemma EarlyStored(v: View, txs: seq<BanknoteTx>, pc: seq<Pc>, h: Hash)
    requires |txs| == |pc| && RankOk(txs, pc, 1) && EarlyBorn(v, txs, h)
    ensures Born(v, txs, pc, h)
  {
    if h !in v {
      var t :| t in txs && t.kind.BG? && t.note == h;
      var j :| 0 <= j < |txs| && txs[j] == t;
      assert StoredAt(txs[j], pc[j], h);
    }
  }

  /** A split of a note that is born finds it. */
  lemma BornFound(v: View, txs: seq<BanknoteTx>, m: Mem, pc: seq<Pc>, waiting: set<Hash>, drained: set<Hash>, i: nat)
    requires PoolInv(v, txs, m, pc, waiting, drained, 1) && OrderFree(v, txs)
    requires i < |txs| && txs[i].kind.BS? && pc[i].Received?
    requires Born(v, txs, pc, txs[i].note)
    ensures txs[i].note in m.pool
  {
    var h := txs[i].note;
    assert txs[i] in txs && Touches(txs[i], h);
    assert TouchedBy(txs, h) && HashInv(v, txs, m, pc, drained, h);
    EarlyPhases(v, txs, m, pc, waiting, drained, 1, h);
    NotGone(v, txs, pc, i, h);
  }

  lemma StepEarly(v: View, txs: seq<BanknoteTx>, m: Mem, pc: seq<Pc>, waiting: set<Hash>, drained: set<Hash>, i: nat)
    requires Ready(v, txs, m, pc, waiting, drained, i) && OrderFree(v, txs) && EarlyInv(v, txs, pc)
    requires PcFits(txs[i].kind, pc[i]) && RefOk(pc[i], m)
    ensures EarlyInv(v, txs, pc[i := TxStep(txs[i], pc[i], m).pc])
  {
    if txs[i].kind.BS? && pc[i].Received? && EarlyBorn(v, txs, txs[i].note) {
      EarlyStored(v, txs, pc, txs[i].note);
      BornFound(v, txs, m, pc, waiting, drained, i);
    }
  }

  /** Every split of a note that was there when the splits started has removed it at once. */
  lemma EarlyGone(v: View, txs: seq<BanknoteTx>, m: Mem, pc: seq<Pc>, waiting: set<Hash>, drained: set<Hash>, h: Hash)
    requires PoolInv(v, txs, m, pc, waiting, drained, 4) && Complete(txs, pc, waiting, drained)
    requires EarlyInv(v, txs, pc) && Split(txs, h) && EarlyBorn(v, txs, h)
    ensures AnyGone(txs, pc, h)
  {
    var t :| t in txs && t.kind.BS? && Consumes(t, h);
    var i :| 0 <= i < |txs| && txs[i] == t;
    assert PcInv(v, txs, m, pc, waiting, txs[i], pc[i]);
    assert GoneAt(txs[i], pc[i], h);
  }
}
