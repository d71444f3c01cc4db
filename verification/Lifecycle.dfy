/** What a batch does to the notes: the meaning of one transaction, of a batch run in log order, and the
    conditions under which a batch respects the life cycle of its notes. */
module Lifecycle {
  import opened BanknoteTypes
  import opened Sequences

  type View = map<Hash, Note>

  /** The notes a transaction puts in circulation. */
  function Outputs(t: BanknoteTx): set<Hash> {
    match t.kind
    case BG => {t.note}
    case BS => {t.new1, t.new2}
    case _ => {}
  }

  predicate Produces(t: BanknoteTx, h: Hash) { h in Outputs(t) }

  predicate Consumes(t: BanknoteTx, h: Hash) { (t.kind.BS? || t.kind.BR?) && t.note == h }

  predicate Transfers(t: BanknoteTx, h: Hash) { t.kind.BT? && t.note == h }

  predicate Uses(t: BanknoteTx, h: Hash) { Consumes(t, h) || Transfers(t, h) }

  predicate Touches(t: BanknoteTx, h: Hash) { Produces(t, h) || Uses(t, h) }

  /** A transfer that re-creates its note when the note is absent. */
  predicate Revives(t: BanknoteTx, h: Hash) { Transfers(t, h) && t.amount == INIT_NOTE_VALUE }

  /** The note `h` as `t` produces it. */
  function Product(t: BanknoteTx, h: Hash): (n: Note)
    requires Produces(t, h)
    ensures n.hash == h
  {
    if t.kind.BG? then Note(h, t.amount, t.from)
    else if h == t.new1 then Note(h, t.amount1, t.from)
    else Note(h, t.amount2, t.to)
  }

  /** One transaction processed on its own, as a batch of one. */
  function ApplyTx(v: View, t: BanknoteTx): View {
    match t.kind
    case BG => v[t.note := Note(t.note, t.amount, t.from)]
    case BS =>
      var created := map[t.new1 := Note(t.new1, t.amount1, t.from)][t.new2 := Note(t.new2, t.amount2, t.to)];
      if t.note in v then (v - {t.note}) + created else (v + created) - {t.note}
    case BT =>
      if t.note in v then v[t.note := v[t.note].(owner := t.to)]
      else if t.amount == INIT_NOTE_VALUE then v[t.note := Note(t.note, t.amount, t.to)]
      else v
    case BR => v - {t.note}
    case NT => v
  }

  /** The batch processed one transaction at a time in log order. */
  function RunLog(v: View, txs: seq<BanknoteTx>): View {
    if txs == [] then v else ApplyTx(RunLog(v, txs[..|txs| - 1]), txs[|txs| - 1])
  }

  /** A transaction produces only notes that are new, and two different ones when it splits. */
  ghost predicate FreshOutput(v: View, t: BanknoteTx) {
    && (forall h :: Produces(t, h) ==> h !in v)
    && (t.kind.BS? ==> t.new1 != t.new2)
  }

  /** No note is produced by both. */
  ghost predicate ProduceApart(t: BanknoteTx, u: BanknoteTx) {
    forall h :: Produces(t, h) ==> !Produces(u, h)
  }

  /** Every produced note is new and produced once. */
  ghost predicate FreshOutputs(v: View, txs: seq<BanknoteTx>) {
    && (forall t :: t in txs ==> FreshOutput(v, t))
    && Pairwise(ProduceApart, txs)
  }

  /** What the life cycle asks of one transaction: it produces only new notes, and does not consume them itself. */
  ghost predicate Sound(v: View, t: BanknoteTx) {
    FreshOutput(v, t) && forall h :: Produces(t, h) ==> !Consumes(t, h)
  }

  /** What the life cycle asks of two transactions in either order: no note is produced twice or consumed twice. */
  ghost predicate Compatible(t: BanknoteTx, u: BanknoteTx) {
    ProduceApart(t, u) && forall h :: Consumes(t, h) ==> !Consumes(u, h)
  }

  /** What the life cycle asks of an earlier and a later transaction: no note is used before it is
      produced, and none is transferred after it is consumed. */
  ghost predicate InOrder(earlier: BanknoteTx, later: BanknoteTx) {
    && (forall h :: Produces(later, h) ==> !Uses(earlier, h))
    && (forall h :: Consumes(earlier, h) ==> !Transfers(later, h))
  }

  ghost predicate Related(t: BanknoteTx, u: BanknoteTx) { Compatible(t, u) && InOrder(t, u) }

  /** The part of the life cycle that does not depend on the order of the batch. */
  ghost predicate OrderFree(v: View, txs: seq<BanknoteTx>) {
    && (forall t :: t in txs ==> Sound(v, t))
    && Pairwise(Compatible, txs)
  }

  /** Each note is produced at most once, before the block or in it, then transferred, then consumed at most once. */
  ghost predicate LifecycleRespecting(v: View, txs: seq<BanknoteTx>) {
    && (forall t :: t in txs ==> Sound(v, t))
    && Pairwise(Related, txs)
  }

  ghost predicate Keyed(v: View) { forall h :: h in v ==> v[h].hash == h }

  ghost predicate Produced(txs: seq<BanknoteTx>, h: Hash) { exists t :: t in txs && Produces(t, h) }

  ghost predicate Consumed(txs: seq<BanknoteTx>, h: Hash) { exists t :: t in txs && Consumes(t, h) }

  ghost predicate Split(txs: seq<BanknoteTx>, h: Hash) { exists t :: t in txs && t.kind.BS? && Consumes(t, h) }

  ghost predicate Revived(txs: seq<BanknoteTx>, h: Hash) { exists t :: t in txs && Revives(t, h) }

  ghost predicate TouchedBy(txs: seq<BanknoteTx>, h: Hash) { exists t :: t in txs && Touches(t, h) }

  /** A note that is in circulation before or by the batch, transferred at the initial value and split. */
  ghost predicate Hazard(v: View, txs: seq<BanknoteTx>, h: Hash) {
    (h in v || Produced(txs, h)) && Revived(txs, h) && Split(txs, h)
  }

  ghost predicate HazardFree(v: View, txs: seq<BanknoteTx>) { forall h :: !Hazard(v, txs, h) }

  /** What the batch makes of the note `h`, whatever the order. */
  ghost predicate Survives(v: View, txs: seq<BanknoteTx>, h: Hash) {
    !Consumed(txs, h) && (h in v || Produced(txs, h) || Revived(txs, h))
  }

  ghost predicate ValueRule(v: View, txs: seq<BanknoteTx>, h: Hash, value: int) {
    && (h in v ==> value == v[h].value)
    && (forall t :: t in txs && Produces(t, h) ==> value == Product(t, h).value)
    && (h !in v && !Produced(txs, h) ==> value == INIT_NOTE_VALUE)
  }

  /** `w` holds exactly the notes that survive the batch, at their values. */
  ghost predicate Settled(v: View, txs: seq<BanknoteTx>, w: View) {
    forall h ::
      && (h in w <==> Survives(v, txs, h))
      && (h in w ==> w[h].hash == h && ValueRule(v, txs, h, w[h].value))
  }

  ghost predicate SameNotes(w1: View, w2: View) {
    w1.Keys == w2.Keys && forall h :: h in w1 ==> w1[h].hash == w2[h].hash && w1[h].value == w2[h].value
  }

  /** What a mint or split stores is in the pool afterwards, with the value and owner it gives: also when it
      replaces a note, and of two outputs with one hash the second. Only a split that names its absent source as
      an output loses that output to the deferred removal. */
  lemma OutputsStored(v: View, t: BanknoteTx, h: Hash)
    requires Produces(t, h)
    ensures t.kind.BG? ==> h in ApplyTx(v, t) && ApplyTx(v, t)[h] == Note(t.note, t.amount, t.from)
    ensures t.kind.BS? ==> (h in ApplyTx(v, t) <==> t.note in v || h != t.note)
    ensures t.kind.BS? && h in ApplyTx(v, t) ==>
      ApplyTx(v, t)[h] == if h == t.new2 then Note(t.new2, t.amount2, t.to) else Note(t.new1, t.amount1, t.from)
  {
  }

  /** What a transfer or a recycling does: the note changes owner, or is created for the recipient when it is absent
      and the amount is 100000000, or is gone. No transaction changes a note that it does not name. */
  lemma NamedOnly(v: View, t: BanknoteTx, h: Hash)
    ensures var w := ApplyTx(v, t);
      && (t.kind.BT? && h == t.note && h in v ==> h in w && w[h].hash == v[h].hash && w[h].value == v[h].value && w[h].owner == t.to)
      && (t.kind.BT? && h == t.note && h !in v ==>
            (h in w <==> t.amount == 100000000) && (h in w ==> w[h] == Note(t.note, 100000000, t.to)))
      && (t.kind.BR? && h == t.note ==> h !in w)
      && (t.kind.BS? && h == t.note && h != t.new1 && h != t.new2 ==> h !in w)
      && (t.kind.NT? || (h != t.note && (t.kind.BS? ==> h != t.new1 && h != t.new2)) ==>
            (h in w <==> h in v) && (h in v ==> w[h] == v[h]))
  {
  }

  lemma SettledUnique(v: View, txs: seq<BanknoteTx>, w1: View, w2: View)
    requires Settled(v, txs, w1) && Settled(v, txs, w2)
    ensures SameNotes(w1, w2)
  {
    forall h | h in w1
      ensures h in w2 && w1[h].hash == w2[h].hash && w1[h].value == w2[h].value
    {
      assert Survives(v, txs, h);
    }
    forall h | h in w2 ensures h in w1 { assert Survives(v, txs, h); }
  }

  lemma LifecycleOrderFree(v: View, txs: seq<BanknoteTx>)
    requires LifecycleRespecting(v, txs)
    ensures OrderFree(v, txs)
  {
    forall i, j | 0 <= i < j < |txs| ensures Compatible(txs[i], txs[j]) {
      assert Related(txs[i], txs[j]);
    }
  }

  lemma OrderFreeFresh(v: View, txs: seq<BanknoteTx>)
    requires OrderFree(v, txs)
    ensures FreshOutputs(v, txs)
  {
    forall t | t in txs ensures FreshOutput(v, t) { assert Sound(v, t); }
    forall i, j | 0 <= i < j < |txs| ensures ProduceApart(txs[i], txs[j]) { assert Compatible(txs[i], txs[j]); }
  }

  lemma LifecyclePrefix(v: View, front: seq<BanknoteTx>, last: BanknoteTx)
    requires LifecycleRespecting(v, front + [last])
    ensures LifecycleRespecting(v, front)
    ensures Sound(v, last)
    ensures forall t :: t in front ==> Related(t, last)
  {
    var txs := front + [last];
    assert last == txs[|front|] && forall t :: t in front ==> t in txs;
    forall t | t in front ensures Related(t, last) {
      var i :| 0 <= i < |front| && front[i] == t;
      assert Related(txs[i], txs[|front|]);
    }
    forall i, j | 0 <= i < j < |front| ensures Related(front[i], front[j]) {
      assert Related(txs[i], txs[j]);
    }
  }

  /** In log order a life-cycle-respecting batch leaves exactly the surviving notes. */
  lemma {:induction false} LogSettled(v: View, txs: seq<BanknoteTx>)
    requires Keyed(v) && LifecycleRespecting(v, txs)
    ensures Settled(v, txs, RunLog(v, txs))
  {
    if txs == [] {
    } else {
      var front, t := txs[..|txs| - 1], txs[|txs| - 1];
      assert txs == front + [t];
      LifecyclePrefix(v, front, t);
      LogSettled(v, front);
      var w := RunLog(v, front);
      forall h
        ensures h in RunLog(v, txs) <==> Survives(v, txs, h)
        ensures h in RunLog(v, txs) ==> RunLog(v, txs)[h].hash == h && ValueRule(v, txs, h, RunLog(v, txs)[h].value)
      {
        LogStep(v, front, t, w, h);
      }
    }
  }

  lemma LogStep(v: View, front: seq<BanknoteTx>, t: BanknoteTx, w: View, h: Hash)
    requires Settled(v, front, w) && Sound(v, t)
    requires forall u :: u in front ==> Related(u, t)
    ensures h in ApplyTx(w, t) <==> Survives(v, front + [t], h)
    ensures h in ApplyTx(w, t) ==> ApplyTx(w, t)[h].hash == h && ValueRule(v, front + [t], h, ApplyTx(w, t)[h].value)
  {
    var txs := front + [t];
    assert forall u :: u in txs <==> u in front || u == t;
    assert Produced(txs, h) <==> Produced(front, h) || Produces(t, h);
    assert Consumed(txs, h) <==> Consumed(front, h) || Consumes(t, h);
    assert Revived(txs, h) <==> Revived(front, h) || Revives(t, h);
    assert Survives(v, front, h) <==> h in w;
    if Produces(t, h) {
      assert h !in v && !Produced(front, h) && !Consumed(front, h) && !Revived(front, h);
    } else if Transfers(t, h) {
      assert !Consumed(front, h);
    }
  }
}
