/** The core ledger: account transfers processed one after another, for the plain transactions of a block
    and for the NT transactions of the banknote chain alike. */
module CoreLedger {
  import opened BanknoteTypes
  import opened Sequences
  import opened MapSums
  import opened Accounts

  /** A transfer of the core ledger. */
  datatype Payment = Payment(from: Address, to: Address, amount: int)

  function PaymentOf(t: BanknoteTx): Payment { Payment(t.from, t.to, t.amount) }

  /** The sender's account after the debit, which is refused unless covered, with its nonce raised. */
  function Debited(st: StateTrie, p: Payment, initBalance: int): Account {
    Bumped(Deducted(Opened(st, p.from, initBalance), p.amount))
  }

  /** The transfers of a batch of NT transactions. */
  function Payments(txs: seq<BanknoteTx>): seq<Payment> {
    seq(|txs|, i requires 0 <= i < |txs| => PaymentOf(txs[i]))
  }

  /** One transfer: the sender's account is stored before the receiver's is read. */
  function Pay(st: StateTrie, p: Payment, initBalance: int): StateTrie {
    var st1 := st[p.from := Debited(st, p, initBalance)];
    st1[p.to := Bumped(Deposited(Opened(st1, p.to, initBalance), p.amount))]
  }

  function PayAll(st: StateTrie, ps: seq<Payment>, initBalance: int): StateTrie {
    if ps == [] then st else Pay(PayAll(st, ps[..|ps| - 1], initBalance), ps[|ps| - 1], initBalance)
  }

  /** One turn of the loop: debit and store the sender, then open, credit and store the receiver. */
  method ProcessTx(st: StateTrie, tx: Payment, initBalance: int) returns (st': StateTrie)
    ensures st' == Pay(st, tx, initBalance)
  {
    var sender := Open(st, tx.from, initBalance);
    var _ := sender.Deduct(tx.amount);
    sender.Nonce := sender.Nonce + 1;
    st' := st[tx.from := sender.Encode()];
    var receiver := Open(st', tx.to, initBalance);
    receiver.Deposit(tx.amount);
    receiver.Nonce := receiver.Nonce + 1;
    st' := st'[tx.to := receiver.Encode()];
  }

  /** The sequential processing of the core transfers of a block. */
  method ProcessTxs(st: StateTrie, txs: seq<Payment>, initBalance: int) returns (st': StateTrie)
    ensures st' == PayAll(st, txs, initBalance)
  {
    st' := st;
    for i := 0 to |txs|
      invariant st' == PayAll(st, txs[..i], initBalance)
    {
      assert txs[..i + 1][..i] == txs[..i];
      st' := ProcessTx(st', txs[i], initBalance);
    }
    assert txs[..|txs|] == txs;
  }

  // What every run keeps

  /** The debit of `p` is refused: the balance does not exceed the amount. */
  predicate Refused(st: StateTrie, p: Payment, initBalance: int) { Opened(st, p.from, initBalance).balance <= p.amount }

  /** The amounts credited without a debit. */
  function RefusedTotal(st: StateTrie, ps: seq<Payment>, initBalance: int): int {
    if ps == [] then 0
    else
      var front, p := ps[..|ps| - 1], ps[|ps| - 1];
      RefusedTotal(st, front, initBalance) + if Refused(PayAll(st, front, initBalance), p, initBalance) then p.amount else 0
  }

  function Nonces(st: StateTrie): map<Address, int> { map a | a in st :: st[a].nonce }

  ghost function TotalNonce(st: StateTrie): int { MSum(Nonces(st)) }

  lemma StoreAbove(st: StateTrie, a: Address, acc: Account, initBalance: int)
    ensures Excess(st[a := acc], initBalance) == Excess(st, initBalance) + acc.balance - Opened(st, a, initBalance).balance
    ensures TotalNonce(st[a := acc]) == TotalNonce(st) + acc.nonce - Opened(st, a, initBalance).nonce
  {
    assert Above(st[a := acc], initBalance) == Above(st, initBalance)[a := acc.balance - initBalance];
    MSumUpdate(Above(st, initBalance), a, acc.balance - initBalance);
    assert Nonces(st[a := acc]) == Nonces(st)[a := acc.nonce];
    MSumUpdate(Nonces(st), a, acc.nonce);
  }

  /** One transfer raises the total by its amount when the debit is refused and keeps it otherwise, also when
      an account pays itself; it raises the nonces by two. */
  lemma PayTotals(st: StateTrie, p: Payment, initBalance: int)
    ensures Excess(Pay(st, p, initBalance), initBalance) ==
      Excess(st, initBalance) + if Refused(st, p, initBalance) then p.amount else 0
    ensures TotalNonce(Pay(st, p, initBalance)) == TotalNonce(st) + 2
  {
    var st1 := st[p.from := Debited(st, p, initBalance)];
    StoreAbove(st, p.from, Debited(st, p, initBalance), initBalance);
    StoreAbove(st1, p.to, Bumped(Deposited(Opened(st1, p.to, initBalance), p.amount)), initBalance);
  }

  /** Over every run the total, taken relative to the opening balance of each account, grows exactly by the
      amounts whose debit was refused, and the nonces grow by two per transfer. */
  lemma {:induction false} RunTotals(st: StateTrie, ps: seq<Payment>, initBalance: int)
    ensures Excess(PayAll(st, ps, initBalance), initBalance) == Excess(st, initBalance) + RefusedTotal(st, ps, initBalance)
    ensures TotalNonce(PayAll(st, ps, initBalance)) == TotalNonce(st) + 2 * |ps|
  {
    if ps != [] {
      RunTotals(st, ps[..|ps| - 1], initBalance);
      PayTotals(PayAll(st, ps[..|ps| - 1], initBalance), ps[|ps| - 1], initBalance);
    }
  }

  /** With nonnegative amounts and a positive opening balance, balances stay strictly positive. */
  lemma {:induction false} RunPositive(st: StateTrie, ps: seq<Payment>, initBalance: int)
    requires AllPositive(st) && initBalance > 0 && forall p :: p in ps ==> p.amount >= 0
    ensures AllPositive(PayAll(st, ps, initBalance))
  {
    if ps != [] {
      var front, p := ps[..|ps| - 1], ps[|ps| - 1];
      assert forall q :: q in front ==> q in ps;
      assert p in ps;
      RunPositive(st, front, initBalance);
    }
  }

  // What every run does to one account

  /** One transfer, account by account: the payer is debited when its balance exceeds the amount, the payee is
      credited in any case, and each of the two roles raises the nonce by one. No other account is touched. */
  lemma PayAccount(st: StateTrie, p: Payment, initBalance: int, a: Address)
    ensures var st' := Pay(st, p, initBalance);
      var before := if a in st then st[a] else Account(0, initBalance);
      var payerBalance := if p.from in st then st[p.from].balance else initBalance;
      && (a in st' <==> a in st || a == p.from || a == p.to)
      && (a in st' ==>
            && st'[a].balance == before.balance - (if a == p.from && payerBalance > p.amount then p.amount else 0)
                                                + (if a == p.to then p.amount else 0)
            && st'[a].nonce == before.nonce + (if a == p.from then 1 else 0) + (if a == p.to then 1 else 0))
  {
  }

  /** What is debited from `a`: the amounts below its balance at their turn. */
  function Drawn(st: StateTrie, ps: seq<Payment>, initBalance: int, a: Address): int {
    if ps == [] then 0
    else
      var front, p := ps[..|ps| - 1], ps[|ps| - 1];
      var now := PayAll(st, front, initBalance);
      Drawn(st, front, initBalance, a)
      + if p.from == a && (if a in now then now[a].balance else initBalance) > p.amount then p.amount else 0
  }

  /** Over every run an account is credited with every transfer to it, debited by those of its own that its
      balance exceeds, and its nonce counts both. */
  lemma {:induction false} RunAccount(st: StateTrie, ps: seq<Payment>, initBalance: int, a: Address)
    ensures var st' := PayAll(st, ps, initBalance);
      var before := if a in st then st[a] else Account(0, initBalance);
      var after := if a in st' then st'[a] else Account(0, initBalance);
      && (a in st' <==> a in st || exists p :: p in ps && (p.from == a || p.to == a))
      && after.balance == before.balance + SumBy((p: Payment) => if p.to == a then p.amount else 0, ps)
                                         - Drawn(st, ps, initBalance, a)
      && after.nonce == before.nonce + SumBy((p: Payment) => (if p.from == a then 1 else 0) + (if p.to == a then 1 else 0), ps)
  {
    if ps != [] {
      var front, p := ps[..|ps| - 1], ps[|ps| - 1];
      RunAccount(st, front, initBalance, a);
      PayAccount(PayAll(st, front, initBalance), p, initBalance, a);
      assert forall q :: q in ps <==> q in front || q == p;
      hide Pay;
    } else {
      NothingPaid(a);
    }
  }

  /** The NT transactions of the banknote chain are such transfers, from sender to recipient, in batch order. */
  lemma CorePays(st: StateTrie, front: seq<BanknoteTx>, t: BanknoteTx, initBalance: int, a: Address)
    ensures var now := PayAll(st, Payments(front), initBalance);
      var then' := PayAll(st, Payments(front + [t]), initBalance);
      var before := if a in now then now[a] else Account(0, initBalance);
      var payerBalance := if t.from in now then now[t.from].balance else initBalance;
      && (a in then' <==> a in now || a == t.from || a == t.to)
      && (a in then' ==>
            && then'[a].balance == before.balance - (if a == t.from && payerBalance > t.amount then t.amount else 0)
                                                  + (if a == t.to then t.amount else 0)
            && then'[a].nonce == before.nonce + (if a == t.from then 1 else 0) + (if a == t.to then 1 else 0))
  {
    var all := Payments(front + [t]);
    assert all[..|front|] == Payments(front) && all[|front|] == PaymentOf(t);
    PayAccount(PayAll(st, Payments(front), initBalance), PaymentOf(t), initBalance, a);
    hide Pay;
  }

  lemma NothingPaid(a: Address)
    ensures SumBy((p: Payment) => if p.to == a then p.amount else 0, []) == 0
    ensures SumBy((p: Payment) => (if p.from == a then 1 else 0) + (if p.to == a then 1 else 0), []) == 0
  {
  }

  /** Credits minus debits of the account `a`, every debit taken for granted. */
  function Flow(ps: seq<Payment>, a: Address): int {
    SumBy((p: Payment) => (if p.to == a then p.amount else 0) - (if p.from == a then p.amount else 0), ps)
  }

  /** Every transfer but one of nothing is below what its payer would have if no debit had been refused. */
  ghost predicate Affordable(st: StateTrie, ps: seq<Payment>, initBalance: int) {
    forall i :: 0 <= i < |ps| ==>
      ps[i].amount == 0 || Opened(st, ps[i].from, initBalance).balance + Flow(ps[..i], ps[i].from) > ps[i].amount
  }

  lemma AffordableSnoc(st: StateTrie, ps: seq<Payment>, initBalance: int)
    requires ps != []
    ensures var front, p := ps[..|ps| - 1], ps[|ps| - 1];
      Affordable(st, ps, initBalance) <==>
        (Affordable(st, front, initBalance) &&
         (p.amount == 0 || Opened(st, p.from, initBalance).balance + Flow(front, p.from) > p.amount))
  {
    var front := ps[..|ps| - 1];
    assert forall i :: 0 <= i < |front| ==> front[..i] == ps[..i] && front[i] == ps[i];
  }

  /** One transfer that is not refused, or is of nothing, moves its amount. */
  lemma PayMoves(st: StateTrie, p: Payment, initBalance: int, a: Address)
    requires p.amount == 0 || !Refused(st, p, initBalance)
    ensures Opened(Pay(st, p, initBalance), a, initBalance).balance ==
      Opened(st, a, initBalance).balance + (if p.to == a then p.amount else 0) - (if p.from == a then p.amount else 0)
  {
  }

  /** While every transfer is affordable, balances are the opening ones and the plain flow. */
  lemma {:induction false} AffordableBalance(st: StateTrie, ps: seq<Payment>, initBalance: int, a: Address)
    requires Affordable(st, ps, initBalance)
    ensures Opened(PayAll(st, ps, initBalance), a, initBalance).balance == Opened(st, a, initBalance).balance + Flow(ps, a)
  {
    if ps != [] {
      var front, p := ps[..|ps| - 1], ps[|ps| - 1];
      AffordableSnoc(st, ps, initBalance);
      AffordableBalance(st, front, initBalance, a);
      AffordableBalance(st, front, initBalance, p.from);
      PayMoves(PayAll(st, front, initBalance), p, initBalance, a);
    }
  }

  lemma {:induction false} RefusedIffUnaffordable(st: StateTrie, ps: seq<Payment>, initBalance: int)
    requires forall p :: p in ps ==> p.amount >= 0
    ensures RefusedTotal(st, ps, initBalance) >= 0
    ensures RefusedTotal(st, ps, initBalance) == 0 <==> Affordable(st, ps, initBalance)
  {
    if ps != [] {
      var front, p := ps[..|ps| - 1], ps[|ps| - 1];
      assert forall q :: q in front ==> q in ps;
      assert p in ps;
      RefusedIffUnaffordable(st, front, initBalance);
      AffordableSnoc(st, ps, initBalance);
      hide PayAll, Affordable, Flow;
      if Affordable(st, front, initBalance) { AffordableBalance(st, front, initBalance, p.from); }
    }
  }

  /** With nonnegative amounts, the total above the opening balances is kept if and only if every transfer but
      one of nothing is below its payer's opening balance and the plain flow of the transfers before it. */
  lemma KeptIffAffordable(st: StateTrie, ps: seq<Payment>, initBalance: int)
    requires forall p :: p in ps ==> p.amount >= 0
    ensures Excess(PayAll(st, ps, initBalance), initBalance) == Excess(st, initBalance) <==>
      forall i :: 0 <= i < |ps| ==>
        ps[i].amount == 0 || Opened(st, ps[i].from, initBalance).balance + Flow(ps[..i], ps[i].from) > ps[i].amount
  {
    RunTotals(st, ps, initBalance);
    RefusedIffUnaffordable(st, ps, initBalance);
  }
}
