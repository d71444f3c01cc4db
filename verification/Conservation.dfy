/** Value is neither made nor lost by a block: peripheral balances, circulating notes and untouched initial
    notes keep their total. */
module Conservation {
  import opened BanknoteTypes
  import opened Sequences
  import opened MapSums
  import opened Lifecycle
  import opened Accounts
  import opened Netting
  import opened LedgerMachine
  import opened PoolInvariant
  import opened RecordInvariant
  import opened BlockMachine
  import opened BlockBody
  import opened BlockOutcome
  import opened PhaseTheorem
  import opened Replica

  /** The values of the notes in circulation. */
  function Values(v: View): map<Hash, int> { map h | h in v :: v[h].value }

  ghost function Circulating(v: View): int { MSum(Values(v)) }

  /** The initial notes that no transaction has used yet, each of the initial value. */
  type Grants = set<Hash>

  function Used(g: Grants, t: BanknoteTx): Grants { if t.kind.BG? || t.kind.NT? then g else g - {t.note} }

  /** The initial notes left after the batch. */
  function Unused(g: Grants, txs: seq<BanknoteTx>): Grants {
    if txs == [] then g else Used(Unused(g, txs[..|txs| - 1]), txs[|txs| - 1])
  }

  function Untouched(g: Grants): int { INIT_NOTE_VALUE * |g| }

  /** `value` is the value of the source of `t`, which is in circulation or an untouched initial note. */
  predicate SourceValue(w: View, g: Grants, t: BanknoteTx, value: int) {
    if t.note in w then value == w[t.note].value else t.note in g && value == INIT_NOTE_VALUE
  }

  /** The transaction names a real source, at its value, and its accounts are not the zero address. */
  predicate Backed(w: View, g: Grants, t: BanknoteTx) {
    match t.kind
    case BG => t.from != ZERO_ADDRESS && t.note !in g
    case BT => SourceValue(w, g, t, t.amount)
    case BS => SourceValue(w, g, t, t.amount1 + t.amount2) && t.new1 !in g && t.new2 !in g
    case BR => SourceValue(w, g, t, t.amount) && t.to != ZERO_ADDRESS
    case NT => true
  }

  /** Every transaction of the batch is backed when its turn comes in log order. */
  ghost predicate AllBacked(v: View, g: Grants, txs: seq<BanknoteTx>) {
    txs == [] ||
    (AllBacked(v, g, txs[..|txs| - 1]) &&
     Backed(RunLog(v, txs[..|txs| - 1]), Unused(g, txs[..|txs| - 1]), txs[|txs| - 1]))
  }

  /** What a transaction puts into the accounts. */
  function IntoAccounts(t: BanknoteTx): int {
    match t.kind case BG => -t.amount case BR => t.amount case _ => 0
  }

  lemma RemoveValue(w: View, h: Hash)
    ensures Circulating(w - {h}) == Circulating(w) - if h in w then w[h].value else 0
  {
    assert Values(w - {h}) == Values(w) - {h};
    MSumRemove(Values(w), h);
  }

  lemma SetValue(w: View, h: Hash, n: Note)
    ensures Circulating(w[h := n]) == Circulating(w) + n.value - if h in w then w[h].value else 0
  {
    assert Values(w[h := n]) == Values(w)[h := n.value];
    MSumUpdate(Values(w), h, n.value);
  }

  /** Two new notes add their values. */
  lemma CreateTwo(w: View, t: BanknoteTx)
    requires t.kind.BS? && t.new1 != t.new2 && t.new1 !in w && t.new2 !in w
    ensures Circulating(w[t.new1 := Note(t.new1, t.amount1, t.from)][t.new2 := Note(t.new2, t.amount2, t.to)]) ==
            Circulating(w) + t.amount1 + t.amount2
  {
    SetValue(w, t.new1, Note(t.new1, t.amount1, t.from));
    SetValue(w[t.new1 := Note(t.new1, t.amount1, t.from)], t.new2, Note(t.new2, t.amount2, t.to));
  }

  /** One transaction moves value between notes and accounts. */
  lemma ApplyConserves(w: View, g: Grants, t: BanknoteTx)
    requires Backed(w, g, t) && g !! w.Keys
    requires t.kind.BS? ==> t.new1 != t.new2 && t.new1 !in w && t.new2 !in w && t.note != t.new1 && t.note != t.new2
    requires t.kind.BG? ==> t.note !in w
    ensures Circulating(ApplyTx(w, t)) + Untouched(Used(g, t)) + IntoAccounts(t) == Circulating(w) + Untouched(g)
    ensures Used(g, t) !! ApplyTx(w, t).Keys
  {
    assert t.note in g ==> |g - {t.note}| == |g| - 1;
    assert t.note !in g ==> g - {t.note} == g;
    match t.kind
    case BG => SetValue(w, t.note, Note(t.note, t.amount, t.from));
    case BT =>
      if t.note in w {
        SetValue(w, t.note, w[t.note].(owner := t.to));
      } else {
        SetValue(w, t.note, Note(t.note, t.amount, t.to));
      }
    case BS =>
      CreateTwo(w - {t.note}, t);
      RemoveValue(w, t.note);
      var created := map[t.new1 := Note(t.new1, t.amount1, t.from)][t.new2 := Note(t.new2, t.amount2, t.to)];
      assert (w - {t.note}) + created ==
        (w - {t.note})[t.new1 := Note(t.new1, t.amount1, t.from)][t.new2 := Note(t.new2, t.amount2, t.to)];
      if t.note !in w {
        assert (w + created) - {t.note} == (w - {t.note}) + created;
      }
    case BR => RemoveValue(w, t.note);
    case NT =>
  }

  /** In log order, what leaves the accounts is in the notes and the other way round. */
  lemma {:induction false} LogConserves(v: View, g: Grants, txs: seq<BanknoteTx>)
    requires Keyed(v) && LifecycleRespecting(v, txs) && AllBacked(v, g, txs) && g !! v.Keys
    ensures Circulating(RunLog(v, txs)) + Untouched(Unused(g, txs)) + SumBy(IntoAccounts, txs) == Circulating(v) + Untouched(g)
    ensures Unused(g, txs) !! RunLog(v, txs).Keys
  {
    if txs != [] {
      var front, t := txs[..|txs| - 1], txs[|txs| - 1];
      assert txs == front + [t];
      LifecyclePrefix(v, front, t);
      LogConserves(v, g, front);
      LogSettled(v, front);
      NewOutputs(v, front, t);
      ApplyConserves(RunLog(v, front), Unused(g, front), t);
    }
  }

  lemma NewOutputs(v: View, front: seq<BanknoteTx>, t: BanknoteTx)
    requires Settled(v, front, RunLog(v, front)) && Sound(v, t) && forall u :: u in front ==> Related(u, t)
    ensures var w := RunLog(v, front);
      && (forall h :: Produces(t, h) ==> h !in w && (h != t.note || t.kind.BG?))
      && (t.kind.BS? ==> t.new1 != t.new2 && t.new1 !in w && t.new2 !in w && t.note != t.new1 && t.note != t.new2)
      && (t.kind.BG? ==> t.note !in w)
  {
    forall h | Produces(t, h) ensures h !in RunLog(v, front) && (h != t.note || t.kind.BG?) {
      assert !Survives(v, front, h);
      assert t.kind.BS? ==> Consumes(t, t.note);
    }
    if t.kind.BS? { assert Produces(t, t.new1) && Produces(t, t.new2); }
    if t.kind.BG? { assert Produces(t, t.note); }
  }

  // Accounts

  /** Every netted debit is below the balance. */
  predicate Covered(st: StateTrie, net: NetMap, initBalance: int) {
    forall a :: a in net ==> net[a] >= 0 || Opened(st, a, initBalance).balance > -net[a]
  }

  /** The netted debits that are refused, because the balance does not exceed them. */
  function RefusedDebits(st: StateTrie, net: NetMap, initBalance: int): map<Address, int> {
    map a | a in net && net[a] < 0 && Opened(st, a, initBalance).balance <= -net[a] :: -net[a]
  }

  /** Netting changes the balances by the sum of the netted amounts and puts back the refused debits. */
  lemma NetChange(st: StateTrie, net: NetMap, initBalance: int)
    ensures Excess(ApplyNet(st, net, initBalance), initBalance) ==
      Excess(st, initBalance) + MSum(net) + MSum(RefusedDebits(st, net, initBalance))
  {
    NetAbove(st, net, initBalance);
    MSumPlus(Above(st, initBalance), net);
    MSumPlus(Plus(Above(st, initBalance), net), RefusedDebits(st, net, initBalance));
  }

  lemma NetAbove(st: StateTrie, net: NetMap, initBalance: int)
    ensures Above(ApplyNet(st, net, initBalance), initBalance) ==
      Plus(Plus(Above(st, initBalance), net), RefusedDebits(st, net, initBalance))
  {
    var above := Above(ApplyNet(st, net, initBalance), initBalance);
    var plus := Plus(Plus(Above(st, initBalance), net), RefusedDebits(st, net, initBalance));
    AboveKeys(st, net, initBalance);
    hide Above, ApplyNet, RefusedDebits;
    forall a | a in above ensures above[a] == plus[a] {
      AboveAt(st, net, initBalance, a);
    }
  }

  lemma AboveKeys(st: StateTrie, net: NetMap, initBalance: int)
    ensures Above(ApplyNet(st, net, initBalance), initBalance).Keys == st.Keys + net.Keys
    ensures Above(st, initBalance).Keys == st.Keys && RefusedDebits(st, net, initBalance).Keys <= net.Keys
  {
  }

  lemma AboveAt(st: StateTrie, net: NetMap, initBalance: int, a: Address)
    requires a in st || a in net
    ensures Above(ApplyNet(st, net, initBalance), initBalance)[a] ==
      Get(Above(st, initBalance), a) + Get(net, a) + Get(RefusedDebits(st, net, initBalance), a)
  {
    if a in net { AdjustedExactly(Opened(st, a, initBalance), net[a]); }
  }

  /** Nothing is put back exactly when every netted debit is below the balance. */
  lemma NothingRefused(st: StateTrie, net: NetMap, initBalance: int)
    ensures var refused := MSum(RefusedDebits(st, net, initBalance));
      refused >= 0 && (refused == 0 <==> Covered(st, net, initBalance))
  {
    MSumPositive(RefusedDebits(st, net, initBalance));
    if Covered(st, net, initBalance) {
      assert RefusedDebits(st, net, initBalance).Keys == {};
    } else {
      var a :| a in net && net[a] < 0 && Opened(st, a, initBalance).balance <= -net[a];
      assert a in RefusedDebits(st, net, initBalance);
    }
  }

  /** What a record puts into the accounts. */
  function RecordInto(r: Record): int {
    (if r.from == ZERO_ADDRESS then 0 else -r.amount) + if r.to == ZERO_ADDRESS then 0 else r.amount
  }

  lemma {:induction false} NetTotal(rs: seq<Record>)
    ensures MSum(Net(rs)) == SumBy(RecordInto, rs)
  {
    if rs != [] {
      var front, r := rs[..|rs| - 1], rs[|rs| - 1];
      NetTotal(front);
      hide Credit;
      CreditTotal(Net(front), r.from, -r.amount);
      CreditTotal(Credit(Net(front), r.from, -r.amount), r.to, r.amount);
    }
  }

  lemma CreditTotal(net: NetMap, a: Address, amount: int)
    ensures MSum(Credit(net, a, amount)) == MSum(net) + if a == ZERO_ADDRESS then 0 else amount
  {
    if a != ZERO_ADDRESS { MSumUpdate(net, a, (if a in net then net[a] else 0) + amount); }
  }

  /** No mint names the zero address as payer, and no recycling names it as payee. */
  predicate RealAddresses(t: BanknoteTx) {
    (t.kind.BG? ==> t.from != ZERO_ADDRESS) && (t.kind.BR? ==> t.to != ZERO_ADDRESS)
  }

  lemma {:induction false} RecordsTotal(txs: seq<BanknoteTx>)
    requires forall t :: t in txs ==> RealAddresses(t)
    ensures SumBy(RecordInto, BatchRecords(txs)) == SumBy(IntoAccounts, txs)
  {
    if txs != [] {
      var front, t := txs[..|txs| - 1], txs[|txs| - 1];
      assert txs == front + [t];
      RecordsTotal(front);
      RecordsStep(front, t);
      SumBySnoc(IntoAccounts, front, t);
    }
  }

  lemma RecordsStep(front: seq<BanknoteTx>, t: BanknoteTx)
    requires RealAddresses(t)
    ensures SumBy(RecordInto, BatchRecords(front + [t])) == SumBy(RecordInto, BatchRecords(front)) + IntoAccounts(t)
  {
    assert (front + [t])[..|front|] == front;
    if HasRecord(t) {
      SumBySnoc(RecordInto, BatchRecords(front), RecordOf(t));
    } else {
      assert BatchRecords(front + [t]) == BatchRecords(front);
    }
  }

  ghost function TotalExcess(sts: seq<StateTrie>, initBalance: int): int {
    if sts == [] then 0 else TotalExcess(sts[..|sts| - 1], initBalance) + Excess(sts[|sts| - 1], initBalance)
  }

  /** What the first `k` ledgers put into their accounts. */
  ghost function PartsInto(ledgers: nat, batch: seq<BanknoteTx>, k: nat): int
    requires ledgers > 0
  {
    if k == 0 then 0 else PartsInto(ledgers, batch, k - 1) + SumBy(IntoAccounts, ActionTxs(ledgers, batch, k - 1))
  }

  lemma {:induction false} PartsIntoSnoc(ledgers: nat, front: seq<BanknoteTx>, t: BanknoteTx, k: nat)
    requires ledgers > 0
    ensures PartsInto(ledgers, front + [t], k) ==
      PartsInto(ledgers, front, k) + if !t.kind.NT? && GetLedgerHashByID(ledgers, t.txHash) < k then IntoAccounts(t) else 0
  {
    if k > 0 {
      PartsIntoSnoc(ledgers, front, t, k - 1);
      PartSnoc(ledgers, front, t, k - 1);
    }
  }

  lemma PartSnoc(ledgers: nat, front: seq<BanknoteTx>, t: BanknoteTx, l: nat)
    requires ledgers > 0
    ensures SumBy(IntoAccounts, ActionTxs(ledgers, front + [t], l)) ==
      SumBy(IntoAccounts, ActionTxs(ledgers, front, l)) + if RunsIn(ledgers, l, t) then IntoAccounts(t) else 0
  {
    FilterSnoc((u: BanknoteTx) => RunsIn(ledgers, l, u), front, t);
    if RunsIn(ledgers, l, t) {
      SumBySnoc(IntoAccounts, ActionTxs(ledgers, front, l), t);
    }
  }

  /** The ledgers together put into their accounts what the batch does. */
  lemma {:induction false} PartsTotal(ledgers: nat, batch: seq<BanknoteTx>)
    requires ledgers > 0
    ensures PartsInto(ledgers, batch, ledgers) == SumBy(IntoAccounts, batch)
  {
    if batch == [] {
      NoParts(ledgers, ledgers);
    } else {
      var front, t := batch[..|batch| - 1], batch[|batch| - 1];
      assert batch == front + [t];
      PartsTotal(ledgers, front);
      PartsIntoSnoc(ledgers, front, t, ledgers);
    }
  }

  lemma {:induction false} NoParts(ledgers: nat, k: nat)
    requires ledgers > 0
    ensures PartsInto(ledgers, [], k) == 0
  {
    if k > 0 { NoParts(ledgers, k - 1); }
  }

  /** What ledger `l` nets. */
  function LedgerNet(ledgers: nat, batch: seq<BanknoteTx>, l: nat): NetMap
    requires ledgers > 0
  {
    Net(BatchRecords(ActionTxs(ledgers, batch, l)))
  }

  /** The netted debits that the first `k` ledgers refuse. */
  ghost function RefusedInto(ledgers: nat, batch: seq<BanknoteTx>, sts: seq<StateTrie>, initBalance: int, k: nat): int
    requires ledgers > 0 && k <= |sts|
  {
    if k == 0 then 0
    else
      RefusedInto(ledgers, batch, sts, initBalance, k - 1)
      + MSum(RefusedDebits(sts[k - 1], LedgerNet(ledgers, batch, k - 1), initBalance))
  }

  /** The ledgers refuse nothing exactly when every netted debit of every ledger is covered. */
  lemma {:induction false} RefusedIntoNone(ledgers: nat, batch: seq<BanknoteTx>, sts: seq<StateTrie>, initBalance: int, k: nat)
    requires ledgers > 0 && k <= |sts|
    ensures RefusedInto(ledgers, batch, sts, initBalance, k) >= 0
    ensures RefusedInto(ledgers, batch, sts, initBalance, k) == 0 <==>
      forall l :: 0 <= l < k ==> Covered(sts[l], LedgerNet(ledgers, batch, l), initBalance)
  {
    hide Covered, RefusedDebits, LedgerNet;
    if k > 0 {
      RefusedIntoNone(ledgers, batch, sts, initBalance, k - 1);
      NothingRefused(sts[k - 1], LedgerNet(ledgers, batch, k - 1), initBalance);
    }
  }

  /** The accounts of the first `k` ledgers after the block. */
  lemma {:induction false} LedgersChange(ledgers: nat, batch: seq<BanknoteTx>, sts: seq<StateTrie>, sts': seq<StateTrie>, initBalance: int, k: nat)
    requires ledgers > 0 && |sts| == |sts'| == ledgers && k <= ledgers
    requires forall t :: t in batch ==> RealAddresses(t)
    requires forall l :: 0 <= l < ledgers ==> sts'[l] == ApplyNet(sts[l], LedgerNet(ledgers, batch, l), initBalance)
    ensures TotalExcess(sts'[..k], initBalance) ==
      TotalExcess(sts[..k], initBalance) + PartsInto(ledgers, batch, k) + RefusedInto(ledgers, batch, sts, initBalance, k)
  {
    hide Net, ApplyNet, RefusedDebits, Excess, BatchRecords, RealAddresses;
    if k > 0 {
      LedgersChange(ledgers, batch, sts, sts', initBalance, k - 1);
      assert sts[..k][..k - 1] == sts[..k - 1] && sts'[..k][..k - 1] == sts'[..k - 1];
      var part := ActionTxs(ledgers, batch, k - 1);
      NetChange(sts[k - 1], LedgerNet(ledgers, batch, k - 1), initBalance);
      NetTotal(BatchRecords(part));
      RecordsTotal(part);
    }
  }

  function Tries(b: Block): seq<StateTrie> {
    seq(|b.ledgers|, l requires 0 <= l < |b.ledgers| => b.ledgers[l].st)
  }

  lemma SameNotesSameValue(w1: View, w2: View)
    requires SameNotes(w1, w2)
    ensures Circulating(w1) == Circulating(w2)
  {
    assert Values(w1) == Values(w2);
  }

  lemma {:induction false} BackedAddresses(v: View, g: Grants, txs: seq<BanknoteTx>)
    requires AllBacked(v, g, txs)
    ensures forall t :: t in txs ==> RealAddresses(t)
  {
    if txs != [] {
      BackedAddresses(v, g, txs[..|txs| - 1]);
      assert txs == txs[..|txs| - 1] + [txs[|txs| - 1]];
    }
  }

  /** The peripheral balances above the opening balance, the circulating notes and the untouched initial notes. */
  ghost function BlockValue(sts: seq<StateTrie>, v: View, g: Grants, initBalance: int): int {
    TotalExcess(sts, initBalance) + Circulating(v) + Untouched(g)
  }

  /** For every interleaving, the total value of a block grows by exactly the netted debits that its ledgers
      refuse, so it is kept if and only if every netted debit of every ledger is below the balance. */
  lemma BlockConserves(ledgers: nat, batch: seq<BanknoteTx>, cs: seq<Config>, m: Mem, sts: seq<StateTrie>, moves: seq<Move>,
                       initBalance: int, g: Grants)
    requires ledgers > 0 && Executes(ledgers, batch, cs) && OneLedgerPerNote(ledgers, batch) && MemOk(m) && |sts| == |cs|
    requires LifecycleRespecting(ViewOf(m), batch) && HazardFree(ViewOf(m), batch) && Completes(cs, m, sts, moves)
    requires g !! ViewOf(m).Keys && AllBacked(ViewOf(m), g, batch)
    requires forall l :: 0 <= l < ledgers ==> cs[l].initBalance == initBalance
    ensures var b := Final(cs, m, sts, moves);
      && MemOk(b.mem)
      && BlockValue(Tries(b), ViewOf(b.mem), Unused(g, batch), initBalance)
           == BlockValue(sts, ViewOf(m), g, initBalance) + RefusedInto(ledgers, batch, sts, initBalance, ledgers)
      && (BlockValue(Tries(b), ViewOf(b.mem), Unused(g, batch), initBalance) == BlockValue(sts, ViewOf(m), g, initBalance) <==>
            forall l :: 0 <= l < ledgers ==> Covered(sts[l], LedgerNet(ledgers, batch, l), initBalance))
  {
    var v := ViewOf(m);
    var b := Final(cs, m, sts, moves);
    hide HazardFree, OneLedgerPerNote, IsRun, AllBacked, Covered, LedgerNet;
    ConcurrentIsLog(ledgers, batch, cs, m, sts, moves);
    SameNotesSameValue(ViewOf(b.mem), RunLog(v, batch));
    LogConserves(v, g, batch);
    AccountsChange(ledgers, batch, cs, m, sts, moves, initBalance, g);
    RefusedIntoNone(ledgers, batch, sts, initBalance, ledgers);
  }

  lemma AccountsChange(ledgers: nat, batch: seq<BanknoteTx>, cs: seq<Config>, m: Mem, sts: seq<StateTrie>, moves: seq<Move>,
                       initBalance: int, g: Grants)
    requires ledgers > 0 && Executes(ledgers, batch, cs) && OneLedgerPerNote(ledgers, batch) && MemOk(m) && |sts| == |cs|
    requires LifecycleRespecting(ViewOf(m), batch) && Completes(cs, m, sts, moves) && AllBacked(ViewOf(m), g, batch)
    requires forall l :: 0 <= l < ledgers ==> cs[l].initBalance == initBalance
    ensures var b := Final(cs, m, sts, moves);
      TotalExcess(Tries(b), initBalance)
        == TotalExcess(sts, initBalance) + SumBy(IntoAccounts, batch) + RefusedInto(ledgers, batch, sts, initBalance, ledgers)
  {
    hide LifecycleRespecting, OneLedgerPerNote, IsRun, RunTo, AllBacked, ApplyNet, LedgerNet, RefusedInto, PartsInto, SumBy, TotalExcess, RealAddresses;
    FinalTries(ledgers, batch, cs, m, sts, moves, initBalance);
    BackedAddresses(ViewOf(m), g, batch);
    var sts' := Tries(Final(cs, m, sts, moves));
    LedgersChange(ledgers, batch, sts, sts', initBalance, ledgers);
    assert sts'[..ledgers] == sts' && sts[..ledgers] == sts;
    PartsTotal(ledgers, batch);
  }

  /** For every interleaving, each ledger ends with its netted state trie. */
  lemma FinalTries(ledgers: nat, batch: seq<BanknoteTx>, cs: seq<Config>, m: Mem, sts: seq<StateTrie>, moves: seq<Move>, initBalance: int)
    requires ledgers > 0 && Executes(ledgers, batch, cs) && OneLedgerPerNote(ledgers, batch) && MemOk(m) && |sts| == |cs|
    requires LifecycleRespecting(ViewOf(m), batch) && Completes(cs, m, sts, moves)
    requires forall l :: 0 <= l < ledgers ==> cs[l].initBalance == initBalance
    ensures var sts' := Tries(Final(cs, m, sts, moves));
      && |sts'| == ledgers == |sts|
      && forall l :: 0 <= l < ledgers ==> sts'[l] == ApplyNet(sts[l], LedgerNet(ledgers, batch, l), initBalance)
  {
    var b := Final(cs, m, sts, moves);
    LifecycleOrderFree(ViewOf(m), batch);
    OrderFreeFresh(ViewOf(m), batch);
    FinalInv(ledgers, batch, cs, m, sts, moves);
    forall l | 0 <= l < ledgers ensures b.ledgers[l].st == ApplyNet(sts[l], LedgerNet(ledgers, batch, l), initBalance) {
      FinalTrie(ledgers, batch, cs, ViewOf(m), sts, b, l);
    }
  }
}
