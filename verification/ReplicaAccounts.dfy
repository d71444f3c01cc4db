/** Which accounts of a leader and a peer differ because recyclings are not put in the block. */
module ReplicaAccounts {
  import opened BanknoteTypes
  import opened Sequences
  import opened Accounts
  import opened Netting
  import opened Lifecycle
  import opened LedgerMachine
  import opened PoolInvariant
  import opened RecordInvariant
  import opened BlockMachine
  import opened BlockBody
  import opened BlockOutcome
  import opened PhaseTheorem
  import opened Replica

  /** What mints take from the account `a`, and what recyclings give it. */
  function Paid(txs: seq<BanknoteTx>, a: Address): int {
    SumBy((t: BanknoteTx) => if t.kind.BG? && t.from == a then t.amount else 0, txs)
  }

  function Refunded(txs: seq<BanknoteTx>, a: Address): int {
    SumBy((t: BanknoteTx) => if t.kind.BR? && t.to == a then t.amount else 0, txs)
  }

  ghost predicate Pays(txs: seq<BanknoteTx>, a: Address) { exists t :: t in txs && t.kind.BG? && t.from == a }

  ghost predicate Refunds(txs: seq<BanknoteTx>, a: Address) { exists t :: t in txs && t.kind.BR? && t.to == a }

  /** What the records of a batch do to an account. */
  lemma {:induction false} RecordsOf(txs: seq<BanknoteTx>, a: Address)
    requires a != ZERO_ADDRESS
    ensures Delta(BatchRecords(txs), a) == Refunded(txs, a) - Paid(txs, a)
    ensures Mentioned(BatchRecords(txs), a) <==> Pays(txs, a) || Refunds(txs, a)
  {
    if txs != [] {
      var front, t := txs[..|txs| - 1], txs[|txs| - 1];
      RecordsOf(front, a);
      assert forall u :: u in txs <==> u in front || u == t;
      assert Pays(txs, a) <==> Pays(front, a) || (t.kind.BG? && t.from == a);
      assert Refunds(txs, a) <==> Refunds(front, a) || (t.kind.BR? && t.to == a);
      RecordSnoc(front, t, a);
    }
  }

  lemma RecordSnoc(front: seq<BanknoteTx>, t: BanknoteTx, a: Address)
    ensures var rs, rs' := BatchRecords(front), BatchRecords(front + [t]);
      && (HasRecord(t) ==> rs' == rs + [RecordOf(t)]) && (!HasRecord(t) ==> rs' == rs)
      && Delta(rs', a) == Delta(rs, a) + (if HasRecord(t) then Effect(RecordOf(t), a) else 0)
      && (Mentioned(rs', a) <==> Mentioned(rs, a) || (HasRecord(t) && Mentions(RecordOf(t), a)))
  {
    var rs := BatchRecords(front);
    assert (front + [t])[..|front|] == front;
    if HasRecord(t) {
      SumBySnoc((r: Record) => Effect(r, a), rs, RecordOf(t));
      assert forall r :: r in rs + [RecordOf(t)] <==> r in rs || r == RecordOf(t);
    } else {
      assert rs + [] == rs;
    }
  }

  /** The transaction changes the account `a` in ledger `l`. */
  predicate Names(ledgers: nat, l: nat, t: BanknoteTx, a: Address)
    requires ledgers > 0
  {
    GetLedgerHashByID(ledgers, t.txHash) == l && ((t.kind == BG && t.from == a) || (t.kind == BR && t.to == a))
  }

  /** The accounts of a block, exactly: after every complete run, an account of ledger `l` that a mint of the ledger
      charges or a recycling of it credits has the recycled amounts less the minted ones in one sum, unless that
      is a debit that its balance does not exceed, and one nonce more; any other is as before. */
  lemma AccountOutcome(ledgers: nat, batch: seq<BanknoteTx>, cs: seq<Config>, m: Mem, sts: seq<StateTrie>, moves: seq<Move>, l: nat, a: Address)
    requires ledgers > 0 && Executes(ledgers, batch, cs) && OneLedgerPerNote(ledgers, batch) && MemOk(m) && |sts| == |cs|
    requires FreshOutputs(ViewOf(m), batch) && Completes(cs, m, sts, moves) && l < ledgers && a != ZERO_ADDRESS
    ensures var b := Final(cs, m, sts, moves);
      && |b.ledgers| == |cs| == |sts|
      && var st, st' := sts[l], b.ledgers[l].st;
      var before := if a in st then st[a] else Account(0, cs[l].initBalance);
      var sum := SumBy((t: BanknoteTx) => if !Names(ledgers, l, t, a) then 0 else if t.kind == BR then t.amount else -t.amount, batch);
      var named := exists t :: t in batch && Names(ledgers, l, t, a);
      && (a in st' <==> a in st || named)
      && (a in st' && !named ==> st'[a] == st[a])
      && (a in st' && named ==>
            && st'[a].balance == before.balance + (if sum < 0 && before.balance <= -sum then 0 else sum)
            && st'[a].nonce == before.nonce + 1)
  {
    var b := Final(cs, m, sts, moves);
    FinalInv(ledgers, batch, cs, m, sts, moves);
    FinalTrie(ledgers, batch, cs, ViewOf(m), sts, b, l);
    assert |b.ledgers| == |cs| == |sts|;
    hide BlockInv, Executes, OneLedgerPerNote, FreshOutputs, Completes, Final, ApplyNet, Net;
    PartAccount(ledgers, batch, sts[l], cs[l].initBalance, l, a);
  }

  lemma PartAccount(ledgers: nat, batch: seq<BanknoteTx>, st: StateTrie, initBalance: int, l: nat, a: Address)
    requires ledgers > 0 && a != ZERO_ADDRESS
    ensures var st' := ApplyNet(st, Net(BatchRecords(ActionTxs(ledgers, batch, l))), initBalance);
      var before := if a in st then st[a] else Account(0, initBalance);
      var sum := SumBy((t: BanknoteTx) => if !Names(ledgers, l, t, a) then 0 else if t.kind == BR then t.amount else -t.amount, batch);
      var named := exists t :: t in batch && Names(ledgers, l, t, a);
      && (a in st' <==> a in st || named)
      && (a in st' && !named ==> st'[a] == st[a])
      && (a in st' && named ==>
            && st'[a].balance == before.balance + (if sum < 0 && before.balance <= -sum then 0 else sum)
            && st'[a].nonce == before.nonce + 1)
  {
    var part := ActionTxs(ledgers, batch, l);
    NetAccount(st, BatchRecords(part), initBalance, a);
    SumBySame((r: Record) => (if a == r.from then -r.amount else 0) + (if a == r.to then r.amount else 0),
              (r: Record) => Effect(r, a), BatchRecords(part));
    RecordsOf(part, a);
    PartNamed(ledgers, batch, l, a);
    assert Mentioned(BatchRecords(part), a) <==> exists r :: r in BatchRecords(part) && (r.from == a || r.to == a) by {
      if r :| r in BatchRecords(part) && (r.from == a || r.to == a) { assert Mentions(r, a); }
    }
    hide ApplyNet, Net, BatchRecords, SumBy, ActionTxs, Names;
  }

  lemma PartNamed(ledgers: nat, batch: seq<BanknoteTx>, l: nat, a: Address)
    requires ledgers > 0
    ensures var part := ActionTxs(ledgers, batch, l);
      && (Pays(part, a) || Refunds(part, a) <==> exists t :: t in batch && Names(ledgers, l, t, a))
      && Refunded(part, a) - Paid(part, a) ==
           SumBy((t: BanknoteTx) => if !Names(ledgers, l, t, a) then 0 else if t.kind == BR then t.amount else -t.amount, batch)
  {
    var runs := (t: BanknoteTx) => RunsIn(ledgers, l, t);
    var paid := (t: BanknoteTx) => if t.kind.BG? && t.from == a then t.amount else 0;
    var refunded := (t: BanknoteTx) => if t.kind.BR? && t.to == a then t.amount else 0;
    var paidHere := (t: BanknoteTx) => if runs(t) then paid(t) else 0;
    var refundedHere := (t: BanknoteTx) => if runs(t) then refunded(t) else 0;
    SumByFilter(runs, paid, paidHere, batch);
    SumByFilter(runs, refunded, refundedHere, batch);
    SumByMinus(refundedHere, paidHere,
               (t: BanknoteTx) => if !Names(ledgers, l, t, a) then 0 else if t.kind == BR then t.amount else -t.amount, batch);
    if t :| t in batch && Names(ledgers, l, t, a) { assert t in ActionTxs(ledgers, batch, l); }
  }

  /** The block part of a ledger keeps the mints and loses the recyclings. */
  lemma {:induction false} BlockPart(ledgers: nat, batch: seq<BanknoteTx>, l: nat, a: Address)
    requires ledgers > 0
    ensures var all, part := ActionTxs(ledgers, batch, l), BlockTxs(ledgers, batch, l);
      Paid(part, a) == Paid(all, a) && Refunded(part, a) == 0
  {
    if batch != [] {
      var front, t := batch[..|batch| - 1], batch[|batch| - 1];
      assert batch == front + [t];
      BlockPart(ledgers, front, l, a);
      PartSnocs(ledgers, front, t, l, a);
    }
  }

  lemma PartSnocs(ledgers: nat, front: seq<BanknoteTx>, t: BanknoteTx, l: nat, a: Address)
    requires ledgers > 0
    ensures Paid(ActionTxs(ledgers, front + [t], l), a) ==
      Paid(ActionTxs(ledgers, front, l), a) + if RunsIn(ledgers, l, t) && t.kind.BG? && t.from == a then t.amount else 0
    ensures Paid(BlockTxs(ledgers, front + [t], l), a) ==
      Paid(BlockTxs(ledgers, front, l), a) + if RunsIn(ledgers, l, t) && t.kind.BG? && t.from == a then t.amount else 0
    ensures Refunded(BlockTxs(ledgers, front + [t], l), a) == Refunded(BlockTxs(ledgers, front, l), a)
  {
    FilterSnoc((u: BanknoteTx) => RunsIn(ledgers, l, u), front, t);
    FilterSnoc((u: BanknoteTx) => EntersIn(ledgers, l, u), front, t);
    SumBySnoc((u: BanknoteTx) => if u.kind.BG? && u.from == a then u.amount else 0, ActionTxs(ledgers, front, l), t);
    SumBySnoc((u: BanknoteTx) => if u.kind.BG? && u.from == a then u.amount else 0, BlockTxs(ledgers, front, l), t);
    SumBySnoc((u: BanknoteTx) => if u.kind.BR? && u.to == a then u.amount else 0, BlockTxs(ledgers, front, l), t);
  }

  /** The netting of a peer's part. */
  lemma PeerNet(ledgers: nat, batch: seq<BanknoteTx>, body: BlockBody, l: nat)
    requires ledgers > 0 && IsBodyOf(ledgers, batch, body) && l < ledgers
    ensures Net(BatchRecords(ActionTxs(ledgers, PeerBatch(body), l))) == Net(BatchRecords(BlockTxs(ledgers, batch, l)))
  {
    PeerPartition(ledgers, batch, body, l);
    assert IsSortOf(BlockTxs(ledgers, batch, l), body.pLedgers[l]);
    RecordsBag(BlockTxs(ledgers, batch, l), body.pLedgers[l]);
    NetOrderFree(BatchRecords(BlockTxs(ledgers, batch, l)), BatchRecords(body.pLedgers[l]));
  }

  /** Two tries hold the same account under `a`. */
  predicate SameAccount(st1: StateTrie, st2: StateTrie, a: Address) {
    (a in st1 <==> a in st2) && (a in st1 ==> st1[a] == st2[a])
  }

  /** What the ledgers of the leader and of the peer net for `a`. */
  lemma NetsOf(ledgers: nat, batch: seq<BanknoteTx>, l: nat, a: Address)
    requires ledgers > 0 && a != ZERO_ADDRESS
    ensures var all := ActionTxs(ledgers, batch, l);
      var net, net' := Net(BatchRecords(all)), Net(BatchRecords(BlockTxs(ledgers, batch, l)));
      && (a in net <==> Pays(all, a) || Refunds(all, a)) && (a in net ==> net[a] == Refunded(all, a) - Paid(all, a))
      && (a in net' <==> Pays(all, a)) && (a in net' ==> net'[a] == -Paid(all, a))
  {
    var all, part := ActionTxs(ledgers, batch, l), BlockTxs(ledgers, batch, l);
    RecordsOf(all, a);
    RecordsOf(part, a);
    NetMeaning(BatchRecords(all), a);
    NetMeaning(BatchRecords(part), a);
    BlockPart(ledgers, batch, l, a);
    assert Pays(part, a) <==> Pays(all, a);
    assert !Refunds(part, a);
  }

  lemma AmountsNonnegative(txs: seq<BanknoteTx>, a: Address)
    requires forall t :: t in txs ==> t.amount >= 0
    ensures Paid(txs, a) >= 0 && Refunded(txs, a) >= 0 && (!Refunds(txs, a) ==> Refunded(txs, a) == 0)
  {
    SumByNonnegative((t: BanknoteTx) => if t.kind.BG? && t.from == a then t.amount else 0, txs);
    SumByNonnegative((t: BanknoteTx) => if t.kind.BR? && t.to == a then t.amount else 0, txs);
    if !Refunds(txs, a) { NoRefund(txs, a); }
  }

  lemma {:induction false} NoRefund(txs: seq<BanknoteTx>, a: Address)
    requires !Refunds(txs, a)
    ensures Refunded(txs, a) == 0
  {
    if txs != [] {
      assert txs[|txs| - 1] in txs;
      assert forall t :: t in txs[..|txs| - 1] ==> t in txs;
      NoRefund(txs[..|txs| - 1], a);
    }
  }

  /** When the account of `a` comes out the same with and without its recyclings: there is none, or mints take
      from it as well and the recyclings give nothing, or both netted debits are refused, or the mints' debit is
      refused and the recyclings give back just that. */
  ghost predicate RefundsDoNotShow(all: seq<BanknoteTx>, balance: int, a: Address) {
    var paid, refunded := Paid(all, a), Refunded(all, a);
    !Refunds(all, a) ||
    (Pays(all, a) &&
     (refunded == 0 || (balance <= paid && (refunded == paid || (refunded < paid && balance <= paid - refunded)))))
  }

  lemma TriesOf(st: StateTrie, net: NetMap, net': NetMap, initBalance: int, all: seq<BanknoteTx>, a: Address)
    requires Paid(all, a) >= 0 && Refunded(all, a) >= 0 && (!Refunds(all, a) ==> Refunded(all, a) == 0)
    requires (a in net <==> Pays(all, a) || Refunds(all, a)) && (a in net ==> net[a] == Refunded(all, a) - Paid(all, a))
    requires (a in net' <==> Pays(all, a)) && (a in net' ==> net'[a] == -Paid(all, a))
    ensures SameAccount(ApplyNet(st, net, initBalance), ApplyNet(st, net', initBalance), a) <==>
      RefundsDoNotShow(all, Opened(st, a, initBalance).balance, a)
  {
  }

  /** Replica accounts, exactly: from equal states and for any schedules, leader and peer end with the same
      account `a` in a ledger if and only if its recyclings do not show. */
  lemma ReplicasHoldAccount(ledgers: nat, batch: seq<BanknoteTx>, body: BlockBody, cs: seq<Config>, cs': seq<Config>,
                            m: Mem, m': Mem, sts: seq<StateTrie>, moves: seq<Move>, moves': seq<Move>, l: nat, a: Address)
    requires Replay(ledgers, batch, body, cs, cs', m, m', sts, moves, moves') && l < ledgers && a != ZERO_ADDRESS
    requires forall t :: t in batch ==> t.amount >= 0
    ensures var b, b' := Final(cs, m, sts, moves), Final(cs', m', sts, moves');
      && l < |b.ledgers| && l < |b'.ledgers| && l < |sts| && l < |cs|
      && (SameAccount(b.ledgers[l].st, b'.ledgers[l].st, a) <==>
            RefundsDoNotShow(ActionTxs(ledgers, batch, l), Opened(sts[l], a, cs[l].initBalance).balance, a))
  {
    LeaderTrie(ledgers, batch, body, cs, cs', m, m', sts, moves, moves', l);
    PeerTrie(ledgers, batch, body, cs, cs', m, m', sts, moves, moves', l);
    ReplaysBody(ledgers, batch, body, cs, cs', m, m', sts, moves, moves', l);
    hide Replay, RefundsDoNotShow, SameAccount, ApplyNet, Net;
    PeerNet(ledgers, batch, body, l);
    NetsOf(ledgers, batch, l, a);
    var all := ActionTxs(ledgers, batch, l);
    AmountsNonnegative(all, a);
    TriesOf(sts[l], Net(BatchRecords(all)), Net(BatchRecords(BlockTxs(ledgers, batch, l))), cs[l].initBalance, all, a);
  }
}
