/** What the lines that the simulator logs do to notes and accounts when the block processor executes them. */
module SimulatorAccounts {
  import opened BanknoteTypes
  import opened Sequences
  import opened Lifecycle
  import opened Netting
  import opened RecordInvariant
  import opened Simulator
  import opened SimulatorTotals
  import opened SimulatorLog

  /** The transaction that one more log line adds. */
  ghost predicate OneMoreTx(digest: Row -> Hash, s: Sim, s': Sim, t: BanknoteTx) {
    Batch(digest, s'.log) == Batch(digest, s.log) + [t]
  }

  /** Executing the line of a mint gives the note to its owner, and debits that owner. */
  lemma MintLogged(c: Setup, s: Sim, owner: Address, creator: Address, amount: int, digest: Row -> Hash, v: View)
    ensures var s' := BanknoteNew(c, s, owner, creator, amount);
      exists t :: OneMoreTx(digest, s, s', t) && t.kind.BG? && t.from == owner && t.note == s.nextHash && t.amount == amount
        && ApplyTx(v, t) == v[s.nextHash := Note(s.nextHash, amount, owner)]
        && HasRecord(t) && RecordOf(t) == Record(owner, 0, amount)
  {
    var n := MintNote(c, s, owner, creator, amount);
    var r := Row(owner, ZERO_ADDRESS, 1, n.hash, amount, n.shard, 0, creator, 0, 0, 0, 0);
    BatchSnoc(digest, s.log, r);
    assert OneMoreTx(digest, s, BanknoteNew(c, s, owner, creator, amount), TxOf(digest, r));
  }

  /** Executing the line of a transfer gives the note to the new owner, creates it at 100000000 if it is absent and
      worth that, and leaves the accounts alone. */
  lemma TransferLogged(c: Setup, s: Sim, n: SimNote, b: Address, digest: Row -> Hash, v: View)
    requires Tidy(c, s) && Held(s, n)
    ensures var s' := BanknoteTransfer(s, n, b);
      exists t :: OneMoreTx(digest, s, s', t) && t.kind.BT? && t.to == b && t.note == n.hash && t.amount == n.denomination && !HasRecord(t)
        && ApplyTx(v, t) == (if n.hash in v then v[n.hash := Note(v[n.hash].hash, v[n.hash].value, b)]
                             else if n.denomination == 100000000 then v[n.hash := Note(n.hash, 100000000, b)] else v)
  {
    TransferEntry(c, s, n, b);
    hide BanknoteTransfer, Tidy;
    BatchSnoc(digest, s.log, TransferRow(n, b));
    assert OneMoreTx(digest, s, BanknoteTransfer(s, n, b), TxOf(digest, TransferRow(n, b)));
  }

  /** Executing the line of a recycling removes the note, and credits its owner. */
  lemma RecycleLogged(c: Setup, s: Sim, n: SimNote, digest: Row -> Hash, v: View)
    requires Tidy(c, s) && Held(s, n)
    ensures var s' := BanknoteRecycle(s, n);
      exists t :: OneMoreTx(digest, s, s', t) && t.kind.BR? && t.to == n.owner && t.note == n.hash && t.amount == n.denomination
        && ApplyTx(v, t) == v - {n.hash} && HasRecord(t) && RecordOf(t) == Record(0, n.owner, n.denomination)
  {
    RemoveHeld(c, s, n);
    var r := Row(n.owner, n.owner, 4, n.hash, n.denomination, n.shard, n.turnover, n.creator, 0, 0, 0, 0);
    BatchSnoc(digest, s.log, r);
    assert OneMoreTx(digest, s, BanknoteRecycle(s, n), TxOf(digest, r));
  }

  /** Executing the line of a split gives both notes to the owner of the note that is split, at the amounts of the
      two pieces, and leaves the accounts alone. */
  lemma SplitLogged(c: Setup, s: Sim, n: SimNote, a: Address, b: Address, amountA: int, amountB: int, digest: Row -> Hash, v: View)
    requires Tidy(c, s) && Held(s, n) && n.hash in v
    ensures var s', h := BanknoteSplit(s, n, a, b, amountA, amountB), s.nextHash;
      exists t :: OneMoreTx(digest, s, s', t) && t.kind.BS? && t.note == n.hash && t.from == n.owner && t.to == n.owner && !HasRecord(t)
        && ApplyTx(v, t) == (v - {n.hash}) + map[h := Note(h, amountA, n.owner)][h + 1 := Note(h + 1, amountB, n.owner)]
  {
    var r := Row(n.owner, n.owner, 3, n.hash, n.denomination, n.shard, n.turnover, n.creator, s.nextHash, amountA, s.nextHash + 1, amountB);
    SplitEntry(c, s, n, a, b, amountA, amountB);
    hide BanknoteSplit, Tidy, Held, Batch;
    BatchSnoc(digest, s.log, r);
    assert OneMoreTx(digest, s, BanknoteSplit(s, n, a, b, amountA, amountB), TxOf(digest, r));
  }

  lemma SplitEntry(c: Setup, s: Sim, n: SimNote, a: Address, b: Address, amountA: int, amountB: int)
    requires Tidy(c, s) && Held(s, n)
    ensures BanknoteSplit(s, n, a, b, amountA, amountB).log == s.log +
      [Row(n.owner, n.owner, 3, n.hash, n.denomination, n.shard, n.turnover, n.creator, s.nextHash, amountA, s.nextHash + 1, amountB)]
  {
    RemoveHeld(c, s, n);
    hide Tidy, Held;
  }

  // What whole events do to the accounts

  /** What executing the log puts into the account of `o`. */
  function Inflow(digest: Row -> Hash, s: Sim, o: Address): int { Delta(BatchRecords(Batch(digest, s.log)), o) }

  lemma InflowSnoc(digest: Row -> Hash, s: Sim, s': Sim, t: BanknoteTx, o: Address)
    requires OneMoreTx(digest, s, s', t) && o != ZERO_ADDRESS
    ensures Inflow(digest, s', o) == Inflow(digest, s, o)
      + (if t.kind.BR? && t.to == o then t.amount else 0) - (if t.kind.BG? && t.from == o then t.amount else 0)
  {
    var front := Batch(digest, s.log);
    assert (front + [t])[..|front|] == front;
    if HasRecord(t) {
      SumBySnoc((r: Record) => Effect(r, o), BatchRecords(front), RecordOf(t));
    } else {
      assert BatchRecords(front) + [] == BatchRecords(front);
    }
  }

  lemma TransferInflow(c: Setup, s: Sim, n: SimNote, b: Address, digest: Row -> Hash, o: Address)
    requires Tidy(c, s) && Held(s, n) && o != ZERO_ADDRESS
    ensures Inflow(digest, BanknoteTransfer(s, n, b), o) == Inflow(digest, s, o)
  {
    hide Tidy, BanknoteTransfer, Inflow, OneMoreTx;
    TransferLogged(c, s, n, b, digest, map[]);
    var s' := BanknoteTransfer(s, n, b);
    var t :| OneMoreTx(digest, s, s', t) && t.kind.BT?;
    InflowSnoc(digest, s, s', t, o);
  }

  lemma SplitInflow(c: Setup, s: Sim, n: SimNote, a: Address, b: Address, amountA: int, amountB: int, digest: Row -> Hash, o: Address)
    requires Tidy(c, s) && Held(s, n) && o != ZERO_ADDRESS
    ensures Inflow(digest, BanknoteSplit(s, n, a, b, amountA, amountB), o) == Inflow(digest, s, o)
  {
    hide Tidy, BanknoteSplit, Inflow, OneMoreTx;
    SplitLogged(c, s, n, a, b, amountA, amountB, digest, map[n.hash := Note(n.hash, 0, 0)]);
    var s' := BanknoteSplit(s, n, a, b, amountA, amountB);
    var t :| OneMoreTx(digest, s, s', t) && t.kind.BS?;
    InflowSnoc(digest, s, s', t, o);
  }

  lemma MintInflow(c: Setup, s: Sim, owner: Address, creator: Address, amount: int, digest: Row -> Hash, o: Address)
    requires o != ZERO_ADDRESS
    ensures Inflow(digest, BanknoteNew(c, s, owner, creator, amount), o) == Inflow(digest, s, o) - if o == owner then amount else 0
  {
    hide BanknoteNew, Inflow, OneMoreTx;
    MintLogged(c, s, owner, creator, amount, digest, map[]);
    var s' := BanknoteNew(c, s, owner, creator, amount);
    var t :| OneMoreTx(digest, s, s', t) && t.kind.BG? && t.from == owner && t.amount == amount;
    InflowSnoc(digest, s, s', t, o);
  }

  lemma RecycleInflow(c: Setup, s: Sim, n: SimNote, digest: Row -> Hash, o: Address)
    requires Tidy(c, s) && Held(s, n) && o != ZERO_ADDRESS
    ensures Inflow(digest, BanknoteRecycle(s, n), o) == Inflow(digest, s, o) + if o == n.owner then n.denomination else 0
  {
    hide Tidy, BanknoteRecycle, Inflow, OneMoreTx;
    RecycleLogged(c, s, n, digest, map[]);
    var s' := BanknoteRecycle(s, n);
    var t :| OneMoreTx(digest, s, s', t) && t.kind.BR? && t.to == n.owner && t.amount == n.denomination;
    InflowSnoc(digest, s, s', t, o);
  }

  lemma {:induction false} SpendInflow(c: Setup, s: Sim, a: Address, b: Address, x: int, i: nat, accum: int, digest: Row -> Hash, o: Address)
    requires Tidy(c, s) && a in s.active && b in s.active && o != ZERO_ADDRESS
    ensures Inflow(digest, Spend(c, s, a, b, x, i, accum).0, o) == Inflow(digest, s, o)
    decreases |ListOf(s, a)| - i
  {
    hide Tidy, Inflow, BanknoteTransfer, BanknoteSplit;
    if i < |s.active[a]| && accum < x {
      var n := s.active[a][i];
      TransferTurn(c, s, a, i, b);
      if accum + n.denomination <= x {
        TransferInflow(c, s, n, b, digest, o);
        if accum + n.denomination < x {
          SpendInflow(c, BanknoteTransfer(s, n, b), a, b, x, i + 1, accum + n.denomination, digest, o);
        }
      } else {
        SplitInflow(c, s, n, a, b, accum + n.denomination - x, x - accum, digest, o);
      }
    }
  }

  /** Executing the lines of a payment debits the receiver by what is minted, and no other account. */
  lemma PayCharges(c: Setup, s: Sim, a: Address, b: Address, x: int, digest: Row -> Hash, o: Address)
    requires ValidSetup(c) && Tidy(c, s) && a in s.active && b in s.active && o != ZERO_ADDRESS
    ensures Inflow(digest, Pay(c, s, a, b, x), o) == Inflow(digest, s, o) - if o == b then Minted(c, s, a, b, x) else 0
  {
    hide Tidy, Inflow, BanknoteTransfer, BanknoteNew, Spend;
    FindExactFirst(s.active[a], x);
    match FindExact(s.active[a], x)
    case Some(k) =>
      TransferTurn(c, s, a, k, b);
      TransferInflow(c, s, s.active[a][k], b, digest, o);
    case None =>
      SpendInflow(c, s, a, b, x, 0, 0, digest, o);
      var (s1, accum) := Spend(c, s, a, b, x, 0, 0);
      if accum < x { MintInflow(c, s1, b, a, x - accum, digest, o); }
  }

  lemma {:induction false} SweepOwnerCredits(c: Setup, s: Sim, a: Address, i: nat, digest: Row -> Hash, o: Address)
    requires Tidy(c, s) && a in s.active && o != ZERO_ADDRESS
    ensures var s' := SweepOwner(c, s, a, i);
      Inflow(digest, s', o) + Worth(s', o) == Inflow(digest, s, o) + Worth(s, o)
    decreases |ListOf(s, a)| - i
  {
    hide Tidy, Inflow, Worth, BanknoteRecycle;
    if i < |s.active[a]| {
      var n := s.active[a][i];
      if StaleAt(c, s.block, n) {
        RecycleTurn(c, s, a, i);
        RecycleInflow(c, s, n, digest, o);
        RecycleWorth(c, s, n, o);
        SweepOwnerCredits(c, BanknoteRecycle(s, n), a, i + 1, digest, o);
      } else {
        SweepOwnerCredits(c, s, a, i + 1, digest, o);
      }
    }
  }

  /** What the notes of `o` are worth. */
  function Worth(s: Sim, o: Address): int { SumBy(Denomination, ListOf(s, o)) }

  lemma RecycleWorth(c: Setup, s: Sim, n: SimNote, o: Address)
    requires Tidy(c, s) && Held(s, n)
    ensures Worth(BanknoteRecycle(s, n), o) == Worth(s, o) - if o == n.owner then n.denomination else 0
  {
    RemoveHeld(c, s, n);
    SumByRemoveFirst(Denomination, s.active[n.owner], n);
  }

  lemma {:induction false} SweepFromCredits(c: Setup, s: Sim, k: nat, digest: Row -> Hash, o: Address)
    requires Tidy(c, s) && o != ZERO_ADDRESS
    ensures var s' := SweepFrom(c, s, k);
      Inflow(digest, s', o) + Worth(s', o) == Inflow(digest, s, o) + Worth(s, o)
    decreases |s.owners| - k
  {
    hide Inflow, Worth, SweepOwner;
    if k < |s.owners| {
      SweepOwnerCredits(c, s, s.owners[k], 0, digest, o);
      SweepFromCredits(c, SweepOwner(c, s, s.owners[k], 0), k + 1, digest, o);
    }
  }

  /** Executing the lines of the end of a block credits each account with what its recycled notes were worth. */
  lemma FinalizeCredits(c: Setup, s: Sim, digest: Row -> Hash, o: Address)
    requires Tidy(c, s) && o != ZERO_ADDRESS
    ensures var s' := FinalizeBlock(c, s);
      Inflow(digest, s', o) + Worth(s', o) == Inflow(digest, s, o) + Worth(s, o)
  {
    hide Tidy, SweepFrom, SumBy, Batch;
    SweepFromCredits(c, s, 0, digest, o);
  }

  // Wealth: the notes of an address and what the log puts into its account

  function Wealth(digest: Row -> Hash, s: Sim, o: Address): int { Inflow(digest, s, o) + Worth(s, o) }

  lemma TransferWorth(c: Setup, s: Sim, a: Address, i: nat, b: Address, o: Address)
    requires Tidy(c, s) && a in s.active && b in s.active && i < |s.active[a]|
    ensures var n := s.active[a][i];
      Worth(BanknoteTransfer(s, n, b), o) == Worth(s, o) + (if o == b then n.denomination else 0) - (if o == a then n.denomination else 0)
  {
    var list := s.active[a];
    TransferLists(c, s, a, i, b);
    hide Tidy, BanknoteTransfer, SumBy;
    TakenOut(list, i);
    SumBySnoc(Denomination, list[..i] + list[i + 1..], Moved(s, list[i], b));
    SumBySnoc(Denomination, s.active[b], Moved(s, list[i], b));
  }

  lemma TakenOut(list: seq<SimNote>, i: nat)
    requires i < |list|
    ensures SumBy(Denomination, list[..i] + list[i + 1..]) == SumBy(Denomination, list) - list[i].denomination
  {
    hide SumBy;
    assert list == list[..i] + [list[i]] + list[i + 1..];
    SumByAppend(Denomination, list[..i] + [list[i]], list[i + 1..]);
    SumBySnoc(Denomination, list[..i], list[i]);
    SumByAppend(Denomination, list[..i], list[i + 1..]);
  }

  lemma SplitWorth(c: Setup, s: Sim, a: Address, i: nat, b: Address, amountA: int, amountB: int, o: Address)
    requires Tidy(c, s) && a in s.active && b in s.active && i < |s.active[a]| && amountA + amountB == s.active[a][i].denomination
    ensures Worth(BanknoteSplit(s, s.active[a][i], a, b, amountA, amountB), o) ==
      Worth(s, o) + (if o == b then amountB else 0) - (if o == a then amountB else 0)
  {
    var list := s.active[a];
    var n, left := list[i], list[..i] + list[i + 1..];
    var n1, n2 := Piece1(s, n, a, amountA), Piece2(s, n, b, amountB);
    SplitLists(c, s, a, i, b, amountA, amountB);
    hide Tidy, SumBy, BanknoteSplit;
    TakenOut(list, i);
    SumBySnoc(Denomination, left, n1);
    SumBySnoc(Denomination, left + [n1], n2);
    SumBySnoc(Denomination, s.active[b], n2);
  }

  lemma MintWorth(c: Setup, s: Sim, owner: Address, creator: Address, amount: int, o: Address)
    ensures Worth(BanknoteNew(c, s, owner, creator, amount), o) == Worth(s, o) + if o == owner then amount else 0
  {
    hide SumBy;
    SumBySnoc(Denomination, ListOf(s, owner), MintNote(c, s, owner, creator, amount));
  }

  /** The loop moves what it pays from the payer's notes to the receiver's. */
  lemma {:induction false} SpendWorth(c: Setup, s: Sim, a: Address, b: Address, x: int, i: nat, accum: int, o: Address)
    requires Tidy(c, s) && a in s.active && b in s.active
    ensures var (s', paid) := Spend(c, s, a, b, x, i, accum);
      Worth(s', o) == Worth(s, o) + (if o == b then paid - accum else 0) - (if o == a then paid - accum else 0)
    decreases |ListOf(s, a)| - i
  {
    hide Tidy, Worth, BanknoteTransfer, BanknoteSplit;
    if i < |s.active[a]| && accum < x {
      var n := s.active[a][i];
      TransferTurn(c, s, a, i, b);
      if accum + n.denomination <= x {
        TransferWorth(c, s, a, i, b, o);
        if accum + n.denomination < x {
          SpendWorth(c, BanknoteTransfer(s, n, b), a, b, x, i + 1, accum + n.denomination, o);
        }
      } else {
        SplitWorth(c, s, a, i, b, accum + n.denomination - x, x - accum, o);
      }
    }
  }

  /** The loop never pays more than the amount. */
  lemma {:induction false} SpendAtMost(c: Setup, s: Sim, a: Address, b: Address, x: int, i: nat, accum: int)
    requires Tidy(c, s) && a in s.active && b in s.active && accum <= x
    ensures Spend(c, s, a, b, x, i, accum).1 <= x
    decreases |ListOf(s, a)| - i
  {
    hide Tidy, BanknoteTransfer, BanknoteSplit;
    if i < |s.active[a]| && accum < x {
      var n := s.active[a][i];
      TransferTurn(c, s, a, i, b);
      if accum + n.denomination < x { SpendAtMost(c, BanknoteTransfer(s, n, b), a, b, x, i + 1, accum + n.denomination); }
    }
  }

  /** A payment moves wealth of exactly the part of the amount that is not minted, from the payer to the receiver:
      the receiver gets the whole amount in notes, and pays for the minted part from its own account. */
  lemma PayWealth(c: Setup, s: Sim, a: Address, b: Address, x: int, digest: Row -> Hash, o: Address)
    requires ValidSetup(c) && Tidy(c, s) && a in s.active && b in s.active && x >= 0 && o != ZERO_ADDRESS
    ensures var s', moved := Pay(c, s, a, b, x), x - Minted(c, s, a, b, x);
      && Wealth(digest, s', o) == Wealth(digest, s, o) + (if o == b then moved else 0) - (if o == a then moved else 0)
      && Worth(s', o) == Worth(s, o) + (if o == b then x else 0) - (if o == a then moved else 0)
  {
    hide Tidy, Worth, Inflow, BanknoteTransfer, BanknoteNew, Spend;
    PayCharges(c, s, a, b, x, digest, o);
    FindExactFirst(s.active[a], x);
    match FindExact(s.active[a], x)
    case Some(k) =>
      TransferWorth(c, s, a, k, b, o);
    case None =>
      SpendWorth(c, s, a, b, x, 0, 0, o);
      SpendAtMost(c, s, a, b, x, 0, 0);
      var (s1, accum) := Spend(c, s, a, b, x, 0, 0);
      if accum < x { MintWorth(c, s1, b, a, x - accum, o); }
  }

  // Over whole runs

  lemma {:induction false} GrantsWealth(s: Sim, a: Address, k: nat, digest: Row -> Hash, o: Address)
    requires a !in s.active
    ensures Wealth(digest, Grants(s, a, k), o) == Wealth(digest, s, o) + if o == a then 100000000 * k else 0
  {
    hide SumBy, Inflow;
    if k == 0 {
      GrantsLog(s, a, 0);
      EmptyWeight(Denomination);
      SameInflow(digest, s, Grants(s, a, 0), o);
    } else {
      GrantsWealth(s, a, k - 1, digest, o);
      var s1 := Grants(s, a, k - 1);
      SumBySnoc(Denomination, ListOf(s1, a), GrantNote(s1, a, k - 1));
      SameInflow(digest, s1, Grants(s, a, k), o);
    }
  }

  lemma SameInflow(digest: Row -> Hash, s: Sim, s': Sim, o: Address)
    requires s'.log == s.log
    ensures Inflow(digest, s', o) == Inflow(digest, s, o)
  {
  }

  lemma InitializeWealth(c: Setup, s: Sim, a: Address, digest: Row -> Hash, o: Address)
    requires ValidSetup(c)
    ensures Wealth(digest, InitializeAddress(c, s, a), o) ==
      Wealth(digest, s, o) + if o == a && a !in s.active then 100000000 * c.shards else 0
  {
    if a !in s.active { GrantsWealth(s, a, c.shards, digest, o); }
  }

  /** What event `e` adds to the wealth of `o`: a grant on first sight, and what a payment moves. */
  function Gain(c: Setup, s: Sim, e: Event, o: Address): int
    requires ValidSetup(c) && Tidy(c, s)
  {
    match e
    case Transfer(a, b, x) =>
      var moved := x - Minted(c, Seen(c, s, a, b), a, b, x);
      (if o !in s.active && (o == a || o == b) then 100000000 * c.shards else 0)
      + (if o == b then moved else 0) - (if o == a then moved else 0)
    case EndBlock => 0
  }

  function Gains(c: Setup, events: seq<Event>, o: Address): int
    requires ValidSetup(c)
  {
    if events == [] then 0
    else
      var front := events[..|events| - 1];
      Gains(c, front, o) + Gain(c, Run(c, front), events[|events| - 1], o)
  }

  lemma StepWealth(c: Setup, s: Sim, e: Event, digest: Row -> Hash, o: Address)
    requires ValidSetup(c) && Tidy(c, s) && o != ZERO_ADDRESS && (e.Transfer? ==> e.value >= 0)
    ensures Wealth(digest, Step(c, s, e), o) == Wealth(digest, s, o) + Gain(c, s, e, o)
  {
    match e
    case Transfer(a, b, x) =>
      hide Tidy, Pay, Wealth, InitializeAddress;
      GrantedOnly(c, s, a, b);
      InitializeWealth(c, s, a, digest, o);
      InitializeWealth(c, InitializeAddress(c, s, a), b, digest, o);
      PayWealth(c, Seen(c, s, a, b), a, b, x, digest, o);
    case EndBlock =>
      hide Tidy, FinalizeBlock, Inflow, Worth;
      FinalizeCredits(c, s, digest, o);
  }

  /** Over every run, the notes of an address and what executing the log puts into its account are together what it
      was granted, received and paid; recycling changes nothing about it. */
  lemma {:induction false} RunWealth(c: Setup, events: seq<Event>, digest: Row -> Hash, o: Address)
    requires ValidSetup(c) && o != ZERO_ADDRESS && forall e :: e in events && e.Transfer? ==> e.value >= 0
    ensures Wealth(digest, Run(c, events), o) == Gains(c, events, o)
  {
    if events == [] {
      NoWealth(digest, o);
    } else {
      var front := events[..|events| - 1];
      assert forall e :: e in front ==> e in events;
      hide Step, Wealth, Gain;
      RunWealth(c, front, digest, o);
      StepWealth(c, Run(c, front), events[|events| - 1], digest, o);
    }
  }

  lemma NoWealth(digest: Row -> Hash, o: Address)
    ensures Wealth(digest, EMPTY_SIM, o) == 0
  {
  }
}
