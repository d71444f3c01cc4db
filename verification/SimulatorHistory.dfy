/** What a state of the simulator says about the events that led to it: when each note was last touched, and in
    which order a sweep logs what it removes. */
module SimulatorHistory {
  import opened BanknoteTypes
  import opened Simulator
  import opened SimulatorTotals
  import opened SimulatorEffects
  import opened Recycling

  // When a note was last touched

  /** Notes that are held now and were not before are last seen in the current block. */
  ghost predicate NewSeen(s: Sim, s': Sim) {
    s'.block == s.block && forall n :: Held(s', n) && !Held(s, n) ==> n.lastSeen == s.block
  }

  lemma NewSeenTrans(s: Sim, s1: Sim, s2: Sim)
    requires NewSeen(s, s1) && NewSeen(s1, s2)
    ensures NewSeen(s, s2)
  {
  }

  lemma NewSeenRefl(s: Sim)
    ensures NewSeen(s, s)
  {
  }

  lemma AddSeen(s: Sim, n: SimNote, nextHash: Hash)
    requires n.lastSeen == s.block
    ensures NewSeen(s, AddNote(s, n).(nextHash := nextHash))
  {
  }

  lemma {:induction false} GrantsSeen(c: Setup, s: Sim, a: Address, k: nat)
    requires Tidy(c, s) && a !in s.active && k <= c.shards
    ensures NewSeen(s, Grants(s, a, k))
  {
    if k == 0 {
      StartGrants(c, s, a);
    } else {
      hide Tidy, NewSeen, AddNote;
      GrantsSeen(c, s, a, k - 1);
      var s1 := Grants(s, a, k - 1);
      AddSeen(s1, GrantNote(s1, a, k - 1), s1.nextHash + 1);
      NewSeenTrans(s, s1, Grants(s, a, k));
    }
  }

  lemma InitializeSeen(c: Setup, s: Sim, a: Address)
    requires ValidSetup(c) && Tidy(c, s)
    ensures NewSeen(s, InitializeAddress(c, s, a))
  {
    hide Tidy, Held;
    if a !in s.active { GrantsSeen(c, s, a, c.shards); }
  }

  lemma BlockKept(c: Setup, s: Sim, n: SimNote)
    ensures RemoveNote(s, n).block == s.block
  {
  }

  lemma TransferSeen(c: Setup, s: Sim, n: SimNote, b: Address)
    requires Tidy(c, s) && Held(s, n)
    ensures NewSeen(s, BanknoteTransfer(s, n, b))
  {
    TransferTidy(c, s, n, b);
    BlockKept(c, s, n);
    hide Tidy, RemoveNote, Held;
  }

  lemma SplitSeen(c: Setup, s: Sim, n: SimNote, a: Address, b: Address, amountA: int, amountB: int)
    requires Tidy(c, s) && Held(s, n) && amountA > 0 && amountB > 0
    ensures NewSeen(s, BanknoteSplit(s, n, a, b, amountA, amountB))
  {
    SplitTidy(c, s, n, a, b, amountA, amountB);
    BlockKept(c, s, n);
    hide Tidy, RemoveNote, Held;
  }

  lemma MintSeen(c: Setup, s: Sim, owner: Address, creator: Address, amount: int)
    requires ValidSetup(c) && Tidy(c, s) && amount > 0
    ensures NewSeen(s, BanknoteNew(c, s, owner, creator, amount))
  {
    NewTidy(c, s, owner, creator, amount);
    hide Tidy, Held;
  }

  lemma {:induction false} SpendSeen(c: Setup, s: Sim, a: Address, b: Address, x: int, i: nat, accum: int)
    requires Tidy(c, s) && a in s.active && b in s.active
    ensures NewSeen(s, Spend(c, s, a, b, x, i, accum).0)
    decreases |ListOf(s, a)| - i
  {
    hide Tidy, NewSeen, BanknoteTransfer, BanknoteSplit;
    if i >= |s.active[a]| || accum >= x {
      NewSeenRefl(s);
    } else {
      var n := s.active[a][i];
      TransferTurn(c, s, a, i, b);
      if accum + n.denomination <= x {
        TransferSeen(c, s, n, b);
        if accum + n.denomination < x {
          var s1 := BanknoteTransfer(s, n, b);
          SpendSeen(c, s1, a, b, x, i + 1, accum + n.denomination);
          NewSeenTrans(s, s1, Spend(c, s, a, b, x, i, accum).0);
        }
      } else {
        SplitSeen(c, s, n, a, b, accum + n.denomination - x, x - accum);
      }
    }
  }

  lemma PaySeen(c: Setup, s: Sim, a: Address, b: Address, x: int)
    requires ValidSetup(c) && Tidy(c, s) && a in s.active && b in s.active
    ensures NewSeen(s, Pay(c, s, a, b, x))
  {
    hide Tidy, NewSeen, BanknoteTransfer, BanknoteNew, Spend;
    FindExactFirst(s.active[a], x);
    match FindExact(s.active[a], x)
    case Some(k) =>
      TransferTurn(c, s, a, k, b);
      TransferSeen(c, s, s.active[a][k], b);
    case None =>
      SpendSeen(c, s, a, b, x, 0, 0);
      var (s1, accum) := Spend(c, s, a, b, x, 0, 0);
      if accum < x {
        MintSeen(c, s1, b, a, x - accum);
        NewSeenTrans(s, s1, BanknoteNew(c, s1, b, a, x - accum));
      }
  }

  /** What a payment mints is one note at the end of the receiver's list: made by the payer, charged to the receiver. */
  lemma PayMints(c: Setup, s: Sim, a: Address, b: Address, x: int)
    requires ValidSetup(c) && Tidy(c, s) && a in s.active && b in s.active && Minted(c, s, a, b, x) > 0
    ensures var s' := Pay(c, s, a, b, x);
      && b in s'.active && s'.active[b] != [] && s'.log != []
      && var n, r := s'.active[b][|s'.active[b]| - 1], s'.log[|s'.log| - 1];
      && n.denomination == Minted(c, s, a, b, x) && n.owner == b && n.creator == a && n.turnover == 0 && n.lastSeen == s.block
      && r.kind == 1 && r.sender == b && r.creator == a && r.hash == n.hash && r.value == n.denomination
  {
    hide Tidy, BanknoteNew, Spend, BanknoteTransfer;
    var (s1, accum) := Spend(c, s, a, b, x, 0, 0);
    SpendSeen(c, s, a, b, x, 0, 0);
    MintEffect(c, s1, b, a, x - accum);
    hide OtherLists;
  }

  /** A transfer event touches only notes that are then last seen in its block; the end of a block touches none. */
  lemma StepSeen(c: Setup, s: Sim, e: Event, n: SimNote)
    requires ValidSetup(c) && Tidy(c, s) && Held(Step(c, s, e), n) && !Held(s, n)
    ensures e.Transfer? && n.lastSeen == s.block
  {
    match e
    case Transfer(a, b, x) =>
      hide Tidy, Pay, InitializeAddress, Held;
      InitializeTidy(c, s, a);
      InitializeSeen(c, s, a);
      var s1 := InitializeAddress(c, s, a);
      InitializeSeen(c, s1, b);
      PaySeen(c, Seen(c, s, a, b), a, b, x);
    case EndBlock =>
      hide Tidy, FinalizeBlock;
      FinalizeSweeps(c, s, n.owner);
      SweptHalves(StaleTest(c, s.block), s.active[n.owner]);
  }

  /** The note `n` appeared in event `i`, a transfer in the block in which `n` was last seen, and has been there since. */
  ghost predicate AppearedAt(c: Setup, events: seq<Event>, n: SimNote, i: nat)
    requires ValidSetup(c)
  {
    && i < |events| && events[i].Transfer?
    && !Held(Run(c, events[..i]), n) && Run(c, events[..i]).block == n.lastSeen
    && forall j :: i < j <= |events| ==> Held(Run(c, events[..j]), n)
  }

  /** In every reachable state, each note was last seen in the block of the transfer event that granted, minted,
      split off or transferred it last. */
  lemma {:induction false} LastSeenMeans(c: Setup, events: seq<Event>, n: SimNote)
    requires ValidSetup(c) && Held(Run(c, events), n)
    ensures exists i: nat :: AppearedAt(c, events, n, i)
  {
    hide Step, Tidy, Held;
    if events == [] {
      NothingHeld(c, n);
    } else {
      var k := |events| - 1;
      assert events[..k + 1] == events;
      if Held(Run(c, events[..k]), n) {
        LastSeenMeans(c, events[..k], n);
        var i: nat :| AppearedAt(c, events[..k], n, i);
        assert events[..k][..i] == events[..i] && events[..k][i] == events[i];
        forall j | i < j <= |events| ensures Held(Run(c, events[..j]), n) {
          if j <= k { assert events[..k][..j] == events[..j]; }
        }
        assert AppearedAt(c, events, n, i);
      } else {
        StepSeen(c, Run(c, events[..k]), events[k], n);
        assert AppearedAt(c, events, n, k);
      }
    }
  }

  lemma NothingHeld(c: Setup, n: SimNote)
    requires ValidSetup(c)
    ensures !Held(Run(c, []), n)
  {
  }

  // What a sweep logs

  /** The lines of the notes before position `k` that go, in their order. */
  function GoneRows(c: Setup, block: int, list: seq<SimNote>, k: nat): seq<Row>
    requires k <= |list|
  {
    if k == 0 then []
    else
      var n := list[k - 1];
      GoneRows(c, block, list, k - 1) +
      if Goes(c, block, list, k - 1) then [Row(n.owner, n.owner, 4, n.hash, n.denomination, n.shard, n.turnover, n.creator, 0, 0, 0, 0)] else []
  }

  /** The lines of the first `k` owners, in the order in which the addresses were first seen. */
  function SweepRows(c: Setup, s: Sim, k: nat): seq<Row>
    requires k <= |s.owners|
  {
    if k == 0 then []
    else SweepRows(c, s, k - 1) + var list := ListOf(s, s.owners[k - 1]); GoneRows(c, s.block, list, |list|)
  }

  lemma RecycleLogs(c: Setup, s: Sim, n: SimNote)
    requires Tidy(c, s) && Held(s, n)
    ensures BanknoteRecycle(s, n).log ==
      s.log + [Row(n.owner, n.owner, 4, n.hash, n.denomination, n.shard, n.turnover, n.creator, 0, 0, 0, 0)]
  {
    RemoveHeld(c, s, n);
  }

  /** The loop over one list, from position `k` of the list as it was: `kept` is what stays of it before. */
  lemma {:induction false} SweepOwnerLogs(c: Setup, s: Sim, a: Address, base: seq<Row>, list: seq<SimNote>, kept: seq<SimNote>, k: nat, i: nat)
    requires Tidy(c, s) && a in s.active && k <= |list| && s.active[a] == kept + list[k..]
    requires |kept| <= i && (k < |list| ==> i == |kept|) && (k == 0 || !Goes(c, s.block, list, k - 1))
    requires s.log == base + GoneRows(c, s.block, list, k)
    ensures SweepOwner(c, s, a, i).log == base + GoneRows(c, s.block, list, |list|)
    decreases |list| - k
  {
    hide *;
    if k == |list| {
      SweepEnd(c, s, a, i);
    } else {
      assert s.active[a][i] == list[k];
      var n := list[k];
      SweepTurn(c, s, a, i);
      GoesIff(c, s.block, list, k);
      if StaleAt(c, s.block, n) {
        RecycleLogs(c, s, n);
        var s1 := BanknoteRecycle(s, n);
        LogsTwo(base, c, s.block, list, k, s.log, s1.log);
        WithoutOne(kept, list, k);
        if k + 1 == |list| {
          SweepEnd(c, s1, a, i + 1);
        } else {
          SweepOwnerLogs(c, s1, a, base, list, kept + [list[k + 1]], k + 2, i + 1);
        }
      } else {
        NextKept(kept, list, k);
        LogsNone(c, s.block, list, k);
        SweepOwnerLogs(c, s, a, base, list, kept + [list[k]], k + 1, i + 1);
      }
    }
  }

  /** The live list after its note at `k` is taken out. */
  lemma WithoutOne(kept: seq<SimNote>, list: seq<SimNote>, k: nat)
    requires k < |list|
    ensures var live, i := kept + list[k..], |kept|;
      && (k + 1 == |list| ==> live[..i] + live[i + 1..] == kept)
      && (k + 1 < |list| ==> live[..i] + live[i + 1..] == (kept + [list[k + 1]]) + list[k + 2..])
  {
  }

  lemma NextKept(kept: seq<SimNote>, list: seq<SimNote>, k: nat)
    requires k < |list|
    ensures kept + list[k..] == (kept + [list[k]]) + list[k + 1..]
  {
  }

  /** One turn of the loop. */
  lemma SweepTurn(c: Setup, s: Sim, a: Address, i: nat)
    requires Tidy(c, s) && a in s.active && i < |s.active[a]|
    ensures var n := s.active[a][i];
      && Held(s, n)
      && (StaleAt(c, s.block, n) ==>
            var s1 := BanknoteRecycle(s, n);
            && Tidy(c, s1) && s1.block == s.block && a in s1.active && s1.active[a] == s.active[a][..i] + s.active[a][i + 1..]
            && SweepOwner(c, s, a, i) == SweepOwner(c, s1, a, i + 1))
      && (!StaleAt(c, s.block, n) ==> SweepOwner(c, s, a, i) == SweepOwner(c, s, a, i + 1))
  {
    hide Tidy, BanknoteRecycle, StaleAt;
    RecycleTurn(c, s, a, i);
    RecycleLists(c, s, a, i);
  }

  lemma SweepEnd(c: Setup, s: Sim, a: Address, i: nat)
    requires Tidy(c, s) && a in s.active && i >= |s.active[a]|
    ensures SweepOwner(c, s, a, i) == s
  {
  }

  lemma GoesIff(c: Setup, block: int, list: seq<SimNote>, k: nat)
    requires k < |list| && (k == 0 || !Goes(c, block, list, k - 1))
    ensures Goes(c, block, list, k) <==> StaleAt(c, block, list[k])
  {
  }

  lemma LogsNone(c: Setup, block: int, list: seq<SimNote>, k: nat)
    requires k < |list| && !Goes(c, block, list, k)
    ensures GoneRows(c, block, list, k + 1) == GoneRows(c, block, list, k)
  {
  }

  /** A note that goes is logged, and the next one escapes. */
  lemma LogsTwo(base: seq<Row>, c: Setup, block: int, list: seq<SimNote>, k: nat, log: seq<Row>, log': seq<Row>)
    requires k < |list| && Goes(c, block, list, k) && log == base + GoneRows(c, block, list, k)
    requires var n := list[k]; log' == log + [Row(n.owner, n.owner, 4, n.hash, n.denomination, n.shard, n.turnover, n.creator, 0, 0, 0, 0)]
    ensures log' == base + GoneRows(c, block, list, k + 1)
    ensures k + 1 < |list| ==> !Goes(c, block, list, k + 1) && log' == base + GoneRows(c, block, list, k + 2)
  {
    assert (base + GoneRows(c, block, list, k)) + log'[|log|..] == base + (GoneRows(c, block, list, k) + log'[|log|..]);
    if k + 1 < |list| { LogsNone(c, block, list, k + 1); }
  }

  /** The sweep of one list logs what goes, and touches no other list. */
  lemma SweepOwnerAll(c: Setup, s: Sim, a: Address)
    requires Tidy(c, s) && a in s.active
    ensures var list, s' := s.active[a], SweepOwner(c, s, a, 0);
      && s'.log == s.log + GoneRows(c, s.block, list, |list|)
      && s'.active.Keys == s.active.Keys && forall o :: o in s.active && o != a ==> s'.active[o] == s.active[o]
  {
    hide Tidy, SweepOwner, Goes, Swept;
    var list := s.active[a];
    assert [] + list[0..] == list && [] + list == list;
    assert s.log == s.log + GoneRows(c, s.block, list, 0);
    SweepOwnerLogs(c, s, a, s.log, list, [], 0, 0);
    SweepOwnerSwept(c, s, a, [], list, 0);
  }

  lemma {:induction false} SweepFromLogs(c: Setup, s0: Sim, s: Sim, k: nat)
    requires Tidy(c, s0) && Tidy(c, s) && s.owners == s0.owners && s.block == s0.block && k <= |s.owners|
    requires s.active.Keys == s0.active.Keys
    requires forall j :: k <= j < |s.owners| ==> ListOf(s, s.owners[j]) == ListOf(s0, s.owners[j])
    requires s.log == s0.log + SweepRows(c, s0, k)
    ensures SweepFrom(c, s, k).log == s0.log + SweepRows(c, s0, |s0.owners|)
    decreases |s.owners| - k
  {
    hide Tidy, SweepOwner, GoneRows, Swept;
    if k < |s.owners| {
      var a := s.owners[k];
      OwnersListed(c, s, k, k);
      var list := s.active[a];
      SweepOwnerAll(c, s, a);
      var s1 := SweepOwner(c, s, a, 0);
      forall j | k < j < |s.owners| ensures ListOf(s1, s.owners[j]) == ListOf(s0, s.owners[j]) { OwnersListed(c, s, k, j); }
      assert (s0.log + SweepRows(c, s0, k)) + GoneRows(c, s.block, list, |list|) == s0.log + SweepRows(c, s0, k + 1);
      SweepFromLogs(c, s0, s1, k + 1);
    }
  }

  /** The end of a block whose number is a multiple of 1000 logs the recycled notes owner by owner in the order in
      which the addresses were first seen, each owner's in list order; any other logs nothing. */
  lemma FinalizeLogs(c: Setup, s: Sim)
    requires Tidy(c, s)
    ensures FinalizeBlock(c, s).log == s.log + if s.block % 1000 == 0 then SweepRows(c, s, |s.owners|) else []
  {
    hide Tidy, SweepFrom;
    assert s.log + [] == s.log;
    SweepFromLogs(c, s, s, 0);
  }
}
