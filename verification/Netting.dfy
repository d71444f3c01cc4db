/** The goroutine that nets the account changes of one ledger and writes them to the ledger's state trie. */
module Netting {
  import opened BanknoteTypes
  import opened Sequences
  import opened Accounts

  type NetMap = map<Address, int>

  function Credit(net: NetMap, a: Address, amount: int): NetMap {
    if a == ZERO_ADDRESS then net
    else net[a := (if a in net then net[a] else 0) + amount]
  }

  function AddRecord(net: NetMap, r: Record): NetMap {
    Credit(Credit(net, r.from, -r.amount), r.to, r.amount)
  }

  /** The modification map after the records have arrived in this order. */
  function Net(rs: seq<Record>): NetMap {
    if rs == [] then map[] else AddRecord(Net(rs[..|rs| - 1]), rs[|rs| - 1])
  }

  /** One account after its netted change. */
  function Adjusted(a: Account, amount: int): Account {
    Bumped(if amount < 0 then Deducted(a, -amount) else Deposited(a, amount))
  }

  /** The trie after the netted changes. */
  function ApplyNet(st: StateTrie, net: NetMap, initBalance: int): StateTrie {
    map a | a in st.Keys + net.Keys ::
      if a in net then Adjusted(Opened(st, a, initBalance), net[a]) else st[a]
  }

  /** Nets the records in arrival order. */
  method NetRecords(rs: seq<Record>) returns (net: NetMap)
    ensures net == Net(rs)
  {
    net := map[];
    var i := 0;
    while i < |rs|
      invariant 0 <= i <= |rs| && net == Net(rs[..i])
    {
      var r := rs[i];
      assert rs[..i + 1][..i] == rs[..i];
      if r.from != ZERO_ADDRESS {
        if r.from !in net {
          net := net[r.from := 0 - r.amount];
        } else {
          net := net[r.from := net[r.from] - r.amount];
        }
      }
      if r.to != ZERO_ADDRESS {
        if r.to !in net {
          net := net[r.to := 0 + r.amount];
        } else {
          net := net[r.to := net[r.to] + r.amount];
        }
      }
      i := i + 1;
    }
    assert rs[..i] == rs;
  }

  /** Opens, adjusts and stores one account. */
  method AdjustAccount(st: StateTrie, addr: Address, amount: int, initBalance: int) returns (st': StateTrie)
    ensures st' == st[addr := Adjusted(Opened(st, addr, initBalance), amount)]
  {
    var state := Open(st, addr, initBalance);
    if amount < 0 {
      var _ := state.Deduct(-amount);
    } else {
      state.Deposit(amount);
    }
    state.Nonce := state.Nonce + 1;
    st' := st[addr := state.Encode()];
  }

  /** Nets the records, then adjusts each touched account once, taking the accounts in any order. */
  method ProcessStateTrie(rs: seq<Record>, st: StateTrie, initBalance: int) returns (st': StateTrie)
    ensures st' == ApplyNet(st, Net(rs), initBalance)
  {
    var net := NetRecords(rs);
    st' := st;
    var todo := net.Keys;
    while todo != {}
      invariant todo <= net.Keys
      invariant st'.Keys == st.Keys + (net.Keys - todo)
      invariant forall a :: a in net && a !in todo ==> st'[a] == Adjusted(Opened(st, a, initBalance), net[a])
      invariant forall a :: a in st && (a !in net || a in todo) ==> st'[a] == st[a]
    {
      var addr :| addr in todo;
      st' := AdjustAccount(st', addr, net[addr], initBalance);
      todo := todo - {addr};
    }
  }

  // Arrival order

  /** What a record does to the account `a`. */
  function Effect(r: Record, a: Address): int {
    (if a == r.from then -r.amount else 0) + (if a == r.to then r.amount else 0)
  }

  /** Credits minus debits of the account `a`. */
  function Delta(rs: seq<Record>, a: Address): int { SumBy((r: Record) => Effect(r, a), rs) }

  /** The total of the debits of `a`. */
  function Debits(rs: seq<Record>, a: Address): int { SumBy((r: Record) => if a == r.from then r.amount else 0, rs) }

  predicate Mentions(r: Record, a: Address) { a == r.from || a == r.to }

  ghost predicate Mentioned(rs: seq<Record>, a: Address) { exists r :: r in rs && Mentions(r, a) }

  /** The map holds credits minus debits for exactly the nonzero addresses that the records mention. */
  lemma {:induction false} NetMeaning(rs: seq<Record>, a: Address)
    ensures a in Net(rs) <==> a != ZERO_ADDRESS && Mentioned(rs, a)
    ensures a in Net(rs) ==> Net(rs)[a] == Delta(rs, a)
    ensures a != ZERO_ADDRESS && a !in Net(rs) ==> Delta(rs, a) == 0
  {
    if rs != [] {
      var front, last := rs[..|rs| - 1], rs[|rs| - 1];
      NetMeaning(front, a);
      assert forall r :: r in rs <==> r in front || r == last;
      assert Mentioned(rs, a) <==> Mentioned(front, a) || Mentions(last, a);
    }
  }

  /** The netted map does not depend on the order in which the records arrive. */
  lemma NetOrderFree(rs: seq<Record>, qs: seq<Record>)
    requires multiset(rs) == multiset(qs)
    ensures Net(rs) == Net(qs)
  {
    assert forall r :: r in rs <==> r in multiset(rs);
    assert forall r :: r in qs <==> r in multiset(qs);
    forall a
      ensures a in Net(rs) <==> a in Net(qs)
      ensures a in Net(rs) ==> Net(rs)[a] == Net(qs)[a]
    {
      NetMeaning(rs, a);
      NetMeaning(qs, a);
      SumByBag((r: Record) => Effect(r, a), rs, qs);
    }
  }

  // Netting against applying the records one by one

  /** The balance after the debits and credits of `a` are applied one by one. */
  function OneByOne(balance: int, rs: seq<Record>, a: Address): int {
    if rs == [] then balance
    else
      var b := OneByOne(balance, rs[..|rs| - 1], a);
      var r := rs[|rs| - 1];
      var debited := if a == r.from && b > r.amount then b - r.amount else b;
      if a == r.to then debited + r.amount else debited
  }

  lemma {:induction false} OneByOneCovered(balance: int, rs: seq<Record>, a: Address)
    requires forall r :: r in rs ==> r.amount >= 0
    requires balance > Debits(rs, a)
    ensures OneByOne(balance, rs, a) == balance + Delta(rs, a)
    ensures Delta(rs, a) + Debits(rs, a) >= 0 && Debits(rs, a) >= 0
  {
    if rs != [] {
      var front := rs[..|rs| - 1];
      assert forall r :: r in front ==> r in rs;
      assert rs[|rs| - 1] in rs;
      OneByOneCovered(balance, front, a);
    }
  }

  /** With every debit covered, netting gives each account the balance of applying the records one by
      one in any order, and bumps the nonce of each touched account once. */
  lemma NettingMeaning(st: StateTrie, rs: seq<Record>, qs: seq<Record>, initBalance: int, a: Address)
    requires multiset(qs) == multiset(rs)
    requires a != ZERO_ADDRESS
    requires forall r :: r in rs ==> r.amount >= 0
    requires Opened(st, a, initBalance).balance > Debits(rs, a)
    ensures var st' := ApplyNet(st, Net(rs), initBalance);
      && Opened(st', a, initBalance).balance == OneByOne(Opened(st, a, initBalance).balance, qs, a)
      && Opened(st', a, initBalance).nonce ==
           Opened(st, a, initBalance).nonce + if Mentioned(rs, a) then 1 else 0
  {
    assert forall r :: r in qs <==> r in multiset(qs);
    assert forall r :: r in rs <==> r in multiset(rs);
    NetMeaning(rs, a);
    SumByBag((r: Record) => Effect(r, a), rs, qs);
    SumByBag((r: Record) => if a == r.from then r.amount else 0, rs, qs);
    OneByOneCovered(Opened(st, a, initBalance).balance, rs, a);
    OneByOneCovered(Opened(st, a, initBalance).balance, qs, a);
  }

  /** A netted change arrives in full exactly when it is a credit or a debit below the balance; otherwise
      nothing of it does. */
  lemma AdjustedExactly(a: Account, amount: int)
    ensures Adjusted(a, amount).balance == a.balance + amount <==> amount >= 0 || a.balance > -amount
    ensures amount < 0 && a.balance <= -amount ==> Adjusted(a, amount).balance == a.balance
  {
  }

  /** Netting, account by account: an account that some record mentions gets the credits minus the debits in one sum,
      unless the sum is a debit that its balance does not exceed, and one nonce. Any other, and the zero address,
      stays as it was. */
  lemma NetAccount(st: StateTrie, rs: seq<Record>, initBalance: int, a: Address)
    ensures var st' := ApplyNet(st, Net(rs), initBalance);
      var before := if a in st then st[a] else Account(0, initBalance);
      var sum := SumBy((r: Record) => (if a == r.from then -r.amount else 0) + (if a == r.to then r.amount else 0), rs);
      var mentioned := a != ZERO_ADDRESS && exists r :: r in rs && (r.from == a || r.to == a);
      && (a in st' <==> a in st || mentioned)
      && (a in st' && !mentioned ==> st'[a] == st[a])
      && (a in st' && mentioned ==>
            && st'[a].balance == before.balance + (if sum < 0 && before.balance <= -sum then 0 else sum)
            && st'[a].nonce == before.nonce + 1)
  {
    NetMeaning(rs, a);
    var sum := (r: Record) => (if a == r.from then -r.amount else 0) + (if a == r.to then r.amount else 0);
    SumBySame((r: Record) => Effect(r, a), sum, rs);
    assert Mentioned(rs, a) <==> exists r :: r in rs && (r.from == a || r.to == a) by {
      if r :| r in rs && (r.from == a || r.to == a) { assert Mentions(r, a); }
    }
  }

  /** Whatever the records, netting keeps every balance strictly positive. */
  lemma NettingPositive(st: StateTrie, rs: seq<Record>, initBalance: int)
    requires AllPositive(st) && initBalance > 0
    ensures AllPositive(ApplyNet(st, Net(rs), initBalance))
  {
    var net := Net(rs);
    var st' := ApplyNet(st, net, initBalance);
    forall a | a in st' ensures st'[a].balance > 0 {
      if a in net { assert Opened(st, a, initBalance).balance > 0; }
    }
  }
}
