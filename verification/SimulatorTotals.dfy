/** What the simulator keeps over whole runs: the number of active notes, each address granted once, and
    the total value, which only grants and mints raise and only recycling lowers. */
module SimulatorTotals {
  import opened BanknoteTypes
  import opened Sequences
  import opened MapSums
  import opened Simulator

  type Weight = SimNote -> int

  function One(n: SimNote): int { 1 }

  function Denomination(n: SimNote): int { n.denomination }

  function Weights(f: Weight, s: Sim): map<Address, int> { map a | a in s.active :: SumBy(f, s.active[a]) }

  /** The sum of `f` over all listed notes. */
  ghost function Weigh(f: Weight, s: Sim): int { MSum(Weights(f, s)) }

  ghost function TotalNotes(s: Sim): int { Weigh(One, s) }

  ghost function TotalValue(s: Sim): int { Weigh(Denomination, s) }

  lemma {:induction false} SumByRemoveFirst<T(!new)>(f: T -> int, list: seq<T>, x: T)
    requires NoDup(list) && x in list
    ensures SumBy(f, RemoveFirst(list, x)) == SumBy(f, list) - f(x)
  {
    var k :| 0 <= k < |list| && list[k] == x;
    RemoveFirstAt(list, k);
    assert list == list[..k] + [x] + list[k + 1..];
    SumByAppend(f, list[..k], list[k + 1..]);
    SumByAppend(f, list[..k] + [x], list[k + 1..]);
    SumBySnoc(f, list[..k], x);
  }

  lemma WeighRemove(c: Setup, f: Weight, s: Sim, n: SimNote)
    requires Tidy(c, s) && Held(s, n)
    ensures Weigh(f, RemoveNote(s, n)) == Weigh(f, s) - f(n)
  {
    RemoveHeld(c, s, n);
    var list := s.active[n.owner];
    SumByRemoveFirst(f, list, n);
    assert Weights(f, RemoveNote(s, n)) == Weights(f, s)[n.owner := SumBy(f, RemoveFirst(list, n))];
    MSumUpdate(Weights(f, s), n.owner, SumBy(f, RemoveFirst(list, n)));
  }

  lemma WeightsAdd(f: Weight, s: Sim, n: SimNote)
    ensures Weights(f, AddNote(s, n)) == Weights(f, s)[n.owner := SumBy(f, ListOf(s, n.owner) + [n])]
  {
    hide SumBy;
  }

  lemma EmptyWeight(f: Weight)
    ensures SumBy(f, []) == 0
  {
  }

  lemma WeighAdd(f: Weight, s: Sim, n: SimNote)
    ensures Weigh(f, AddNote(s, n)) == Weigh(f, s) + f(n)
  {
    var list := ListOf(s, n.owner);
    SumBySnoc(f, list, n);
    WeightsAdd(f, s, n);
    hide SumBy, MSum, AddNote;
    MSumUpdate(Weights(f, s), n.owner, SumBy(f, list + [n]));
    EmptyWeight(f);
  }

  lemma WeighSame(f: Weight, s: Sim, s': Sim)
    requires s.active == s'.active
    ensures Weigh(f, s) == Weigh(f, s')
  {
    assert Weights(f, s) == Weights(f, s');
  }

  lemma WeighTransfer(c: Setup, f: Weight, s: Sim, n: SimNote, b: Address)
    requires Tidy(c, s) && Held(s, n)
    ensures Weigh(f, BanknoteTransfer(s, n, b)) == Weigh(f, s) - f(n) + f(Moved(s, n, b))
    ensures BanknoteTransfer(s, n, b).count == s.count
  {
    RemoveHeld(c, s, n);
    WeighRemove(c, f, s, n);
    WeighAdd(f, RemoveNote(s, n), Moved(s, n, b));
    WeighSame(f, AddNote(RemoveNote(s, n), Moved(s, n, b)), BanknoteTransfer(s, n, b));
  }

  lemma WeighNew(c: Setup, f: Weight, s: Sim, owner: Address, creator: Address, amount: int)
    ensures Weigh(f, BanknoteNew(c, s, owner, creator, amount)) == Weigh(f, s) + f(MintNote(c, s, owner, creator, amount))
  {
    WeighAdd(f, s, MintNote(c, s, owner, creator, amount));
    WeighSame(f, AddNote(s, MintNote(c, s, owner, creator, amount)), BanknoteNew(c, s, owner, creator, amount));
  }

  lemma WeighRecycle(c: Setup, f: Weight, s: Sim, n: SimNote)
    requires Tidy(c, s) && Held(s, n)
    ensures Weigh(f, BanknoteRecycle(s, n)) == Weigh(f, s) - f(n) && BanknoteRecycle(s, n).count == s.count - 1
  {
    RemoveHeld(c, s, n);
    WeighRemove(c, f, s, n);
    WeighSame(f, RemoveNote(s, n), BanknoteRecycle(s, n));
  }

  lemma WeighSplit(c: Setup, f: Weight, s: Sim, n: SimNote, a: Address, b: Address, amountA: int, amountB: int)
    requires Tidy(c, s) && Held(s, n)
    ensures Weigh(f, BanknoteSplit(s, n, a, b, amountA, amountB)) ==
      Weigh(f, s) - f(n) + f(Piece1(s, n, a, amountA)) + f(Piece2(s, n, b, amountB))
    ensures BanknoteSplit(s, n, a, b, amountA, amountB).count == s.count + 1
  {
    RemoveHeld(c, s, n);
    WeighRemove(c, f, s, n);
    var s0 := RemoveNote(s, n);
    WeighAdd(f, s0, Piece1(s, n, a, amountA));
    WeighAdd(f, AddNote(s0, Piece1(s, n, a, amountA)), Piece2(s, n, b, amountB));
    WeighSame(f, AddNote(AddNote(s0, Piece1(s, n, a, amountA)), Piece2(s, n, b, amountB)),
              BanknoteSplit(s, n, a, b, amountA, amountB));
  }

  lemma {:induction false} WeighGrants(f: Weight, s: Sim, a: Address, k: nat, w: int)
    requires a !in s.active
    requires forall n: SimNote :: n.denomination == DEFAULT_BALANCE ==> f(n) == w
    ensures Weigh(f, Grants(s, a, k)) == Weigh(f, s) + k * w
  {
    if k == 0 {
      assert Weights(f, Grants(s, a, 0)) == Weights(f, s)[a := 0];
      MSumUpdate(Weights(f, s), a, 0);
    } else {
      WeighGrants(f, s, a, k - 1, w);
      var s1 := Grants(s, a, k - 1);
      WeighAdd(f, s1, GrantNote(s1, a, k - 1));
      WeighSame(f, AddNote(s1, GrantNote(s1, a, k - 1)), Grants(s, a, k));
      assert (k - 1) * w + w == k * w;
    }
  }

  lemma {:induction false} GrantsCounters(s: Sim, a: Address, k: nat)
    ensures var s' := Grants(s, a, k);
      && s'.news == s.news && s'.splits == s.splits && s'.recycles == s.recycles && s'.count == s.count + k
      && s'.owners == s.owners + [a] && a in s'.active && s'.log == s.log
  {
    if k > 0 { GrantsCounters(s, a, k - 1); }
  }

  /** What a log line adds to the value in circulation: a mint adds its value, a recycling takes it away. */
  function RowValue(r: Row): int { if r.kind == 1 then r.value else if r.kind == 4 then -r.value else 0 }

  /** The counters and the log agree with the lists: each address was granted once, a split makes one note
      more, and the value in circulation is what was granted and minted less what was recycled. */
  ghost predicate Counted(c: Setup, s: Sim) {
    && s.count == TotalNotes(s)
    && s.count == c.shards * |s.owners| + s.news + s.splits - s.recycles
    && TotalValue(s) == DEFAULT_BALANCE * (c.shards * |s.owners|) + SumBy(RowValue, s.log)
  }

  lemma CountedInitialize(c: Setup, s: Sim, a: Address)
    requires ValidSetup(c) && Counted(c, s)
    ensures Counted(c, InitializeAddress(c, s, a))
  {
    if a !in s.active {
      WeighGrants(One, s, a, c.shards, 1);
      GrantsCounters(s, a, c.shards);
      WeighGrants(Denomination, s, a, c.shards, DEFAULT_BALANCE);
      OneMore(c.shards, |s.owners|);
    }
  }

  lemma OneMore(x: int, k: int)
    ensures x * (k + 1) == x * k + x
  {
  }

  /** A transfer keeps the total value and the counters. */
  lemma TransferKeeps(c: Setup, s: Sim, n: SimNote, b: Address)
    requires Tidy(c, s) && Held(s, n) && b in s.active
    ensures var s' := BanknoteTransfer(s, n, b);
      TotalValue(s') == TotalValue(s) && s'.owners == s.owners && (Counted(c, s) ==> Counted(c, s'))
  {
    WeighTransfer(c, One, s, n, b);
    WeighTransfer(c, Denomination, s, n, b);
    RemoveHeld(c, s, n);
  }

  /** So does a split into pieces that make up the value. */
  lemma SplitKeeps(c: Setup, s: Sim, n: SimNote, a: Address, b: Address, amountA: int, amountB: int)
    requires Tidy(c, s) && Held(s, n) && a in s.active && b in s.active && amountA + amountB == n.denomination
    ensures var s' := BanknoteSplit(s, n, a, b, amountA, amountB);
      TotalValue(s') == TotalValue(s) && s'.owners == s.owners && (Counted(c, s) ==> Counted(c, s'))
  {
    hide BanknoteSplit, Tidy, Weigh, Held;
    SplitOwners(c, s, n, a, b, amountA, amountB);
    WeighSplit(c, One, s, n, a, b, amountA, amountB);
    WeighSplit(c, Denomination, s, n, a, b, amountA, amountB);
  }

  /** The loop only moves value: it keeps the total, and the counters. */
  lemma {:induction false} SpendKeeps(c: Setup, s: Sim, a: Address, b: Address, x: int, i: nat, accum: int)
    requires Tidy(c, s) && a in s.active && b in s.active
    ensures var s' := Spend(c, s, a, b, x, i, accum).0;
      && TotalValue(s') == TotalValue(s) && s'.owners == s.owners && (Counted(c, s) ==> Counted(c, s'))
    decreases |ListOf(s, a)| - i
  {
    hide BanknoteTransfer, BanknoteSplit, Counted, TotalValue, Tidy;
    if i < |s.active[a]| && accum < x {
      var n := s.active[a][i];
      TransferTurn(c, s, a, i, b);
      if accum + n.denomination <= x {
        TransferKeeps(c, s, n, b);
        if accum + n.denomination < x {
          SpendKeeps(c, BanknoteTransfer(s, n, b), a, b, x, i + 1, accum + n.denomination);
        }
      } else {
        SplitKeeps(c, s, n, a, b, accum + n.denomination - x, x - accum);
      }
    }
  }

  lemma SplitOwners(c: Setup, s: Sim, n: SimNote, a: Address, b: Address, amountA: int, amountB: int)
    requires Tidy(c, s) && Held(s, n) && a in s.active && b in s.active
    ensures var s' := BanknoteSplit(s, n, a, b, amountA, amountB);
      && s'.owners == s.owners && s'.news == s.news && s'.splits == s.splits + 1 && s'.recycles == s.recycles
      && SumBy(RowValue, s'.log) == SumBy(RowValue, s.log)
  {
    RemoveHeld(c, s, n);
    SumBySnoc(RowValue, s.log, Row(n.owner, n.owner, 3, n.hash, n.denomination, n.shard, n.turnover, n.creator,
                                   s.nextHash, amountA, s.nextHash + 1, amountB));
  }

  /** A mint raises the total value by its amount. */
  lemma NewKeeps(c: Setup, s: Sim, owner: Address, creator: Address, amount: int)
    requires owner in s.active
    ensures var s' := BanknoteNew(c, s, owner, creator, amount);
      TotalValue(s') == TotalValue(s) + amount && s'.owners == s.owners && (Counted(c, s) ==> Counted(c, s'))
  {
    WeighNew(c, One, s, owner, creator, amount);
    WeighNew(c, Denomination, s, owner, creator, amount);
  }

  /** The amount a transfer of `x` mints: what the loop leaves unpaid, unless a note equals `x`. */
  function Minted(c: Setup, s: Sim, a: Address, b: Address, x: int): int
    requires Tidy(c, s) && a in s.active && b in s.active
  {
    if FindExact(s.active[a], x).Some? then 0
    else
      var accum := Spend(c, s, a, b, x, 0, 0).1;
      if accum < x then x - accum else 0
  }

  /** Paying, to another address or to oneself, raises the total value by what it mints and by nothing else. */
  lemma PayKeeps(c: Setup, s: Sim, a: Address, b: Address, x: int)
    requires ValidSetup(c) && Tidy(c, s) && a in s.active && b in s.active
    ensures var s' := Pay(c, s, a, b, x);
      && TotalValue(s') == TotalValue(s) + Minted(c, s, a, b, x) && s'.owners == s.owners
      && (Counted(c, s) ==> Counted(c, s'))
  {
    hide BanknoteTransfer, BanknoteSplit, BanknoteNew, Tidy, TotalValue, Spend, Counted;
    FindExactFirst(s.active[a], x);
    hide FindExact;
    match FindExact(s.active[a], x)
    case Some(k) =>
      TransferTurn(c, s, a, k, b);
      TransferKeeps(c, s, s.active[a][k], b);
    case None =>
      SpendKeeps(c, s, a, b, x, 0, 0);
      var (s1, accum) := Spend(c, s, a, b, x, 0, 0);
      if accum < x { NewKeeps(c, s1, b, a, x - accum); }
  }

  // Grants

  /** How many of the two addresses are new, counting one address once. */
  function NewAddresses(s: Sim, a: Address, b: Address): nat {
    (if a in s.active then 0 else 1) + if b in s.active || a == b then 0 else 1
  }

  lemma SeenKeeps(c: Setup, s: Sim, a: Address, b: Address)
    requires ValidSetup(c) && Tidy(c, s)
    ensures var s' := Seen(c, s, a, b);
      && TotalValue(s') == TotalValue(s) + DEFAULT_BALANCE * (c.shards * NewAddresses(s, a, b))
      && |s'.owners| == |s.owners| + NewAddresses(s, a, b)
  {
    hide InitializeAddress, Tidy, TotalValue;
    GrantedOnly(c, s, a, b);
    GrantValue(c, s, a);
    GrantValue(c, InitializeAddress(c, s, a), b);
    TwoTimes(c.shards);
  }

  lemma TwoTimes(x: int)
    ensures DEFAULT_BALANCE * (x * 0) == 0 && DEFAULT_BALANCE * (x * 1) == DEFAULT_BALANCE * x
    ensures DEFAULT_BALANCE * (x * 2) == DEFAULT_BALANCE * x + DEFAULT_BALANCE * x
  {
  }

  lemma SeenCounted(c: Setup, s: Sim, a: Address, b: Address)
    requires ValidSetup(c) && Tidy(c, s) && Counted(c, s)
    ensures Counted(c, Seen(c, s, a, b))
  {
    CountedInitialize(c, s, a);
    CountedInitialize(c, InitializeAddress(c, s, a), b);
  }

  lemma GrantedOnly(c: Setup, s: Sim, a: Address, b: Address)
    requires ValidSetup(c) && Tidy(c, s)
    ensures b in InitializeAddress(c, s, a).active <==> b in s.active || b == a
  {
    InitializeTidy(c, s, a);
    if a !in s.active {
      GrantsTidy(c, s, a, c.shards);
      assert b in Grants(s, a, c.shards).owners <==> b in s.owners + [a];
    }
  }

  lemma GrantValue(c: Setup, s: Sim, a: Address)
    requires ValidSetup(c)
    ensures var s' := InitializeAddress(c, s, a);
      && TotalValue(s') == TotalValue(s) + (if a in s.active then 0 else DEFAULT_BALANCE * c.shards)
      && |s'.owners| == |s.owners| + if a in s.active then 0 else 1
  {
    if a !in s.active {
      WeighGrants(Denomination, s, a, c.shards, DEFAULT_BALANCE);
      GrantsCounters(s, a, c.shards);
    }
  }

  // Sweeps

  /** A recycling lowers the total value by that of its note. */
  lemma RecycleCounted(c: Setup, s: Sim, n: SimNote)
    requires Tidy(c, s) && Held(s, n) && Counted(c, s)
    ensures Counted(c, BanknoteRecycle(s, n))
  {
    WeighRecycle(c, One, s, n);
    WeighRecycle(c, Denomination, s, n);
    RecycleEntry(c, s, n);
    hide BanknoteRecycle, Tidy, Weigh;
  }

  lemma RecycleEntry(c: Setup, s: Sim, n: SimNote)
    requires Tidy(c, s) && Held(s, n)
    ensures var s' := BanknoteRecycle(s, n);
      && s'.owners == s.owners && s'.news == s.news && s'.splits == s.splits && s'.recycles == s.recycles + 1
      && SumBy(RowValue, s'.log) == SumBy(RowValue, s.log) - n.denomination
  {
    RemoveHeld(c, s, n);
    SumBySnoc(RowValue, s.log, Row(n.owner, n.owner, 4, n.hash, n.denomination, n.shard, n.turnover, n.creator, 0, 0, 0, 0));
  }

  lemma {:induction false} SweepOwnerCounted(c: Setup, s: Sim, a: Address, i: nat)
    requires Tidy(c, s) && a in s.active && Counted(c, s)
    ensures Counted(c, SweepOwner(c, s, a, i))
    decreases |ListOf(s, a)| - i
  {
    hide BanknoteRecycle, Tidy, Counted;
    if i < |s.active[a]| {
      var n := s.active[a][i];
      if StaleAt(c, s.block, n) {
        RecycleTurn(c, s, a, i);
        RecycleCounted(c, s, n);
        SweepOwnerCounted(c, BanknoteRecycle(s, n), a, i + 1);
      } else {
        SweepOwnerCounted(c, s, a, i + 1);
      }
    }
  }

  lemma {:induction false} SweepFromCounted(c: Setup, s: Sim, k: nat)
    requires Tidy(c, s) && Counted(c, s)
    ensures Counted(c, SweepFrom(c, s, k))
    decreases |s.owners| - k
  {
    if k < |s.owners| {
      SweepOwnerCounted(c, s, s.owners[k], 0);
      SweepFromCounted(c, SweepOwner(c, s, s.owners[k], 0), k + 1);
    }
  }

  lemma FinalizeCounted(c: Setup, s: Sim)
    requires Tidy(c, s) && Counted(c, s)
    ensures Counted(c, FinalizeBlock(c, s))
  {
    hide Counted, SweepFrom, Tidy;
    SweepFromCounted(c, s, 0);
    NextBlockCounted(c, s);
    NextBlockCounted(c, SweepFrom(c, s, 0));
  }

  lemma NextBlockCounted(c: Setup, s: Sim)
    requires Counted(c, s)
    ensures Counted(c, s.(block := s.block + 1))
  {
    hide Weigh;
    WeighSame(One, s, s.(block := s.block + 1));
    WeighSame(Denomination, s, s.(block := s.block + 1));
  }

  /** In every reachable state each note sits in its owner's list and nowhere else, hashes are unique,
      denominations are positive, shards are in range, no removal ever fails to find its note, and the
      active count is the total list length, as the counters say. */
  lemma {:induction false} RunInvariant(c: Setup, events: seq<Event>)
    requires ValidSetup(c)
    ensures Tidy(c, Run(c, events)) && Counted(c, Run(c, events))
  {
    if events == [] {
      assert Weights(One, EMPTY_SIM) == map[];
    } else {
      var s := Run(c, events[..|events| - 1]);
      RunInvariant(c, events[..|events| - 1]);
      match events[|events| - 1]
      case Transfer(a, b, x) =>
        SeenCounted(c, s, a, b);
        PayKeeps(c, Seen(c, s, a, b), a, b, x);
      case EndBlock => FinalizeCounted(c, s);
    }
  }
}
