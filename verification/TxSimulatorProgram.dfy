/** The simulator program: its global state as an object, its functions as methods, each proved against the
    meaning given in module Simulator. */
module TxSimulatorProgram {
  import opened BanknoteTypes
  import opened Simulator

  class TxSimulator {
    const setup: Setup
    var owners: seq<Address>                          // key order of activeBanknotes
    var activeBanknotes: map<Address, seq<SimNote>>
    var activeBanknoteCount: int
    var blockCount: int
    var newCount: int
    var transferCount: int
    var splitCount: int
    var recycleCount: int
    var removeErrors: int
    var transactionsOutput: seq<Row>
    var nextHash: Hash

    function State(): Sim
      reads this
    {
      Sim(owners, activeBanknotes, activeBanknoteCount, blockCount, newCount, transferCount, splitCount, recycleCount,
          removeErrors, transactionsOutput, nextHash)
    }

    constructor (setup: Setup)
      ensures this.setup == setup && State() == EMPTY_SIM
    {
      this.setup := setup;
      owners, activeBanknotes, transactionsOutput := [], map[], [];
      activeBanknoteCount, blockCount, newCount, transferCount, splitCount, recycleCount, removeErrors := 0, 0, 0, 0, 0, 0, 0;
      nextHash := 0;
    }

    method RemoveBanknoteFromOwner(bn: SimNote)
      modifies this
      ensures State() == RemoveNote(old(State()), bn)
    {
      var owner := bn.owner;
      if owner in activeBanknotes {
        if |activeBanknotes[owner]| == 0 {
          activeBanknotes := activeBanknotes - {owner};
          owners := RemoveFirst(owners, owner);
        }
        if owner in activeBanknotes && bn in activeBanknotes[owner] {
          activeBanknotes := activeBanknotes[owner := RemoveFirst(activeBanknotes[owner], bn)];
          activeBanknoteCount := activeBanknoteCount - 1;
        } else {
          removeErrors := removeErrors + 1;
        }
      }
    }

    method AddBanknoteToOwner(bn: SimNote)
      modifies this
      ensures State() == AddNote(old(State()), bn)
    {
      var owner := bn.owner;
      if owner !in activeBanknotes {
        activeBanknotes := activeBanknotes[owner := []];
        owners := owners + [owner];
      }
      activeBanknotes := activeBanknotes[owner := activeBanknotes[owner] + [bn]];
      activeBanknoteCount := activeBanknoteCount + 1;
    }

    /** A random hash, which nobody has drawn before. */
    method GenerateRandomHash() returns (h: Hash)
      modifies this`nextHash
      ensures h == old(nextHash) && nextHash == old(nextHash) + 1
    {
      h := nextHash;
      nextHash := nextHash + 1;
    }

    method InitializeAddressIfNeeded(address: Address)
      modifies this
      ensures State() == InitializeAddress(setup, old(State()), address)
    {
      hide Tidy;
      if address !in activeBanknotes {
        owners := owners + [address];
        activeBanknotes := activeBanknotes[address := []];
        var shardId := 0;
        while shardId < setup.shards
          invariant 0 <= shardId && (setup.shards >= 0 ==> shardId <= setup.shards)
          invariant setup.shards < 0 ==> shardId == 0
          invariant address in activeBanknotes && State() == Grants(old(State()), address, shardId)
        {
          var hash := GenerateRandomHash();
          var bn := SimNote(DEFAULT_BALANCE, address, hash, shardId, blockCount, 0, address);
          activeBanknotes := activeBanknotes[address := activeBanknotes[address] + [bn]];
          activeBanknoteCount := activeBanknoteCount + 1;
          shardId := shardId + 1;
        }
      }
    }

    method NewBanknote(owner: Address, creator: Address, amount: int)
      modifies this
      ensures State() == BanknoteNew(setup, old(State()), owner, creator, amount)
    {
      var shardId := setup.pick(nextHash);
      var hash := GenerateRandomHash();
      var bn := SimNote(amount, owner, hash, shardId, blockCount, 0, creator);
      AddBanknoteToOwner(bn);
      newCount := newCount + 1;
      transactionsOutput := transactionsOutput + [Row(owner, ZERO_ADDRESS, 1, bn.hash, amount, shardId, bn.turnover, creator, 0, 0, 0, 0)];
    }

    method TransferBanknote(bn: SimNote, newOwner: Address)
      modifies this
      ensures State() == BanknoteTransfer(old(State()), bn, newOwner)
    {
      RemoveBanknoteFromOwner(bn);
      var moved := bn.(owner := newOwner, turnover := bn.turnover + 1, lastSeen := blockCount);
      AddBanknoteToOwner(moved);
      transferCount := transferCount + 1;
      transactionsOutput := transactionsOutput +
        [Row(ZERO_ADDRESS, newOwner, 2, bn.hash, bn.denomination, bn.shard, moved.turnover, moved.creator, 0, 0, 0, 0)];
    }

    method RecycleBanknote(bn: SimNote)
      modifies this
      ensures State() == BanknoteRecycle(old(State()), bn)
    {
      RemoveBanknoteFromOwner(bn);
      recycleCount := recycleCount + 1;
      transactionsOutput := transactionsOutput +
        [Row(bn.owner, bn.owner, 4, bn.hash, bn.denomination, bn.shard, bn.turnover, bn.creator, 0, 0, 0, 0)];
    }

    method SplitBanknote(bn: SimNote, a: Address, b: Address, amountA: int, amountB: int)
      modifies this
      ensures State() == BanknoteSplit(old(State()), bn, a, b, amountA, amountB)
    {
      RemoveKeeps(State(), bn);
      hide RemoveNote;
      RemoveBanknoteFromOwner(bn);
      var hash1 := GenerateRandomHash();
      var bn1 := SimNote(amountA, a, hash1, bn.shard, blockCount, bn.turnover, bn.creator);
      AddBanknoteToOwner(bn1);
      var hash2 := GenerateRandomHash();
      var bn2 := SimNote(amountB, b, hash2, bn.shard, blockCount, bn.turnover, bn.creator);
      AddBanknoteToOwner(bn2);
      splitCount := splitCount + 1;
      transactionsOutput := transactionsOutput +
        [Row(bn.owner, bn.owner, 3, bn.hash, bn.denomination, bn.shard, bn.turnover, bn.creator,
             bn1.hash, bn1.denomination, bn2.hash, bn2.denomination)];
    }

    /** The loop that looks for a note of exactly the amount. */
    method FindExactNote(list: seq<SimNote>, x: int) returns (found: Option<nat>)
      ensures found == FindExact(list, x)
    {
      var i := 0;
      while i < |list|
        invariant 0 <= i <= |list| && forall j :: 0 <= j < i ==> list[j].denomination != x
      {
        if list[i].denomination == x {
          FindExactIs(list, x, Some(i));
          return Some(i);
        }
        i := i + 1;
      }
      FindExactIs(list, x, None);
      return None;
    }

    method ProcessTransfer(a: Address, b: Address, x: int)
      requires ValidSetup(setup) && Tidy(setup, State())
      modifies this
      ensures State() == Simulator.ProcessTransfer(setup, old(State()), a, b, x)
    {
      InitializeTidy(setup, State(), a);
      InitializeAddressIfNeeded(a);
      InitializeTidy(setup, State(), b);
      InitializeAddressIfNeeded(b);
      ghost var s0 := State();
      assert s0 == Seen(setup, old(State()), a, b);
      var exact := FindExactNote(activeBanknotes[a], x);
      FindExactFirst(activeBanknotes[a], x);
      if exact.Some? {
        TransferBanknote(activeBanknotes[a][exact.value], b);
        return;
      }
      SpendNotes(a, b, x);
    }

    /** The loop of a transfer, and the mint of what it leaves unpaid. */
    method SpendNotes(a: Address, b: Address, x: int)
      requires ValidSetup(setup) && Tidy(setup, State()) && a in activeBanknotes && b in activeBanknotes
      modifies this
      ensures var (s1, accum) := Spend(setup, old(State()), a, b, x, 0, 0);
        State() == if accum < x then BanknoteNew(setup, s1, b, a, x - accum) else s1
    {
      hide BanknoteTransfer, BanknoteSplit, BanknoteNew, Tidy;
      ghost var result := Spend(setup, State(), a, b, x, 0, 0);
      var accum, i, done := 0, 0, false;
      while !done && i < |activeBanknotes[a]| && accum < x
        invariant Tidy(setup, State()) && a in activeBanknotes && b in activeBanknotes && i >= 0
        invariant if done then result == (State(), accum) else result == Spend(setup, State(), a, b, x, i, accum)
        decreases !done, |ListOf(State(), a)| - i
      {
        var bn := activeBanknotes[a][i];
        var d := bn.denomination;
        TransferTurn(setup, State(), a, i, b);
        if accum + d < x {
          TransferBanknote(bn, b);
          accum := accum + d;
        } else if accum + d == x {
          TransferBanknote(bn, b);
          accum := accum + d;
          done := true;
        } else {
          var over := (accum + d) - x;
          var amountToB := x - accum;
          SplitBanknote(bn, a, b, over, amountToB);
          accum := accum + amountToB;
          done := true;
        }
        i := i + 1;
      }
      if accum < x {
        var needed := x - accum;
        NewBanknote(b, a, needed);
      }
    }

    method SweepNotes(owner: Address)
      requires Tidy(setup, State()) && owner in activeBanknotes
      modifies this
      ensures State() == SweepOwner(setup, old(State()), owner, 0)
    {
      var i := 0;
      while i < |activeBanknotes[owner]|
        invariant Tidy(setup, State()) && owner in activeBanknotes && i >= 0
        invariant SweepOwner(setup, State(), owner, i) == SweepOwner(setup, old(State()), owner, 0)
        decreases |ListOf(State(), owner)| - i
      {
        var bn := activeBanknotes[owner][i];
        if blockCount - bn.lastSeen > setup.recycleLength {
          RecycleTurn(setup, State(), owner, i);
          RecycleBanknote(bn);
        }
        i := i + 1;
      }
    }

    method FinalizeBlock()
      requires Tidy(setup, State())
      modifies this
      ensures State() == Simulator.FinalizeBlock(setup, old(State()))
    {
      if blockCount % RECYCLE_INTERVAL == 0 {
        var k := 0;
        while k < |owners|
          invariant Tidy(setup, State()) && k >= 0
          invariant SweepFrom(setup, State(), k) == SweepFrom(setup, old(State()), 0)
          decreases |owners| - k
        {
          SweepNotes(owners[k]);
          k := k + 1;
        }
      }
      blockCount := blockCount + 1;
    }
  }

  const BLOCK_SIZE: int := 1000

  datatype InputRow = InputRow(from: Address, to: Address, value: int)

  /** The events of the payments: a block ends after every `BLOCK_SIZE` of them. */
  function EventsOf(rows: seq<InputRow>): seq<Event> {
    if rows == [] then []
    else
      var r := rows[|rows| - 1];
      EventsOf(rows[..|rows| - 1]) + [Transfer(r.from, r.to, r.value)] + if |rows| % BLOCK_SIZE == 0 then [EndBlock] else []
  }

  /** The payments stand in the events in their order, with the end of a block after every 1000 of them. */
  lemma {:induction false} EventsShape(rows: seq<InputRow>, i: nat)
    requires i < |rows|
    ensures |EventsOf(rows)| == |rows| + |rows| / 1000
    ensures EventsOf(rows)[i + i / 1000] == Transfer(rows[i].from, rows[i].to, rows[i].value)
    ensures (i + 1) % 1000 == 0 ==> EventsOf(rows)[i + i / 1000 + 1] == EndBlock
  {
    var front := rows[..|rows| - 1];
    if i < |front| {
      EventsShape(front, i);
    } else if front != [] {
      EventsShape(front, i - 1);
    }
  }

  lemma RunSnoc(c: Setup, events: seq<Event>, e: Event)
    requires ValidSetup(c)
    ensures Run(c, events + [e]) == Step(c, Run(c, events), e)
  {
    assert (events + [e])[..|events|] == events;
  }

  /** A removal changes the lists, the count and the complaints only. */
  lemma RemoveKeeps(s: Sim, n: SimNote)
    ensures var r := RemoveNote(s, n);
      && r.block == s.block && r.nextHash == s.nextHash && r.log == s.log
      && r.news == s.news && r.transfers == s.transfers && r.splits == s.splits && r.recycles == s.recycles
  {
  }

  lemma EventsSnoc(rows: seq<InputRow>, i: nat)
    requires i < |rows|
    ensures EventsOf(rows[..i + 1]) == EventsOf(rows[..i]) + [Transfer(rows[i].from, rows[i].to, rows[i].value)]
                                         + if i % BLOCK_SIZE == BLOCK_SIZE - 1 then [EndBlock] else []
  {
    assert rows[..i + 1][..i] == rows[..i];
  }

  /** Processes every payment of the input, then ends the last block if it is not empty. */
  method ProcessAll(setup: Setup, rows: seq<InputRow>) returns (sim: TxSimulator)
    requires ValidSetup(setup)
    ensures fresh(sim) && sim.setup == setup
    ensures sim.State() == Run(setup, EventsOf(rows) + if |rows| % BLOCK_SIZE != 0 then [EndBlock] else [])
  {
    hide Step, Tidy, Run, EventsOf, Simulator.ProcessTransfer, Simulator.FinalizeBlock;
    NoEvents(setup);
    sim := new TxSimulator(setup);
    var currentBlockTxCounter := 0;
    for i := 0 to |rows|
      invariant sim.setup == setup && fresh(sim) && currentBlockTxCounter == i % BLOCK_SIZE
      invariant sim.State() == Run(setup, EventsOf(rows[..i]))
    {
      var row := rows[i];
      EventsSnoc(rows, i);
      StepTransfer(setup, sim.State(), row.from, row.to, row.value);
      sim.ProcessTransfer(row.from, row.to, row.value);
      RunSnoc(setup, EventsOf(rows[..i]), Transfer(row.from, row.to, row.value));
      currentBlockTxCounter := currentBlockTxCounter + 1;
      if currentBlockTxCounter >= BLOCK_SIZE {
        StepEnd(setup, sim.State());
        sim.FinalizeBlock();
        RunSnoc(setup, EventsOf(rows[..i]) + [Transfer(row.from, row.to, row.value)], EndBlock);
        currentBlockTxCounter := 0;
      } else {
        ghost var events := EventsOf(rows[..i]) + [Transfer(row.from, row.to, row.value)];
        assert events + [] == events;
      }
    }
    assert rows[..|rows|] == rows;
    if currentBlockTxCounter > 0 {
      StepEnd(setup, sim.State());
      RunSnoc(setup, EventsOf(rows), EndBlock);
      sim.FinalizeBlock();
    } else {
      assert EventsOf(rows) + [] == EventsOf(rows);
    }
  }

  lemma NoEvents(c: Setup)
    requires ValidSetup(c)
    ensures EventsOf([]) == [] && Run(c, []) == EMPTY_SIM
  {
  }

  lemma StepTransfer(c: Setup, s: Sim, a: Address, b: Address, x: int)
    requires ValidSetup(c) && Tidy(c, s)
    ensures Step(c, s, Transfer(a, b, x)) == Simulator.ProcessTransfer(c, s, a, b, x)
  {
  }

  lemma StepEnd(c: Setup, s: Sim)
    requires ValidSetup(c) && Tidy(c, s)
    ensures Step(c, s, EndBlock) == Simulator.FinalizeBlock(c, s)
  {
  }

  lemma {:induction false} FindExactIs(list: seq<SimNote>, x: int, found: Option<nat>)
    requires match found
      case None => forall n :: n in list ==> n.denomination != x
      case Some(k) => k < |list| && list[k].denomination == x && forall j :: 0 <= j < k ==> list[j].denomination != x
    ensures FindExact(list, x) == found
  {
    FindExactFirst(list, x);
  }
}
