/** The two engines together: the block processor run concurrently on the simulator's log, cut into blocks
    that are free of hazards and keep each note in one ledger, ends with the simulator's notes. */
module SimulatedChain {
  import opened BanknoteTypes
  import opened Lifecycle
  import opened Accounts
  import opened LedgerMachine
  import opened PoolInvariant
  import opened BlockMachine
  import opened BlockOutcome
  import opened PhaseTheorem
  import opened Simulator
  import opened SimulatorLog

  lemma {:induction false} RunLogAppend(v: View, s: seq<BanknoteTx>, t: seq<BanknoteTx>)
    ensures RunLog(v, s + t) == RunLog(RunLog(v, s), t)
  {
    if t == [] {
      assert s + t == s;
    } else {
      assert (s + t)[..|s + t| - 1] == s + t[..|t| - 1];
      RunLogAppend(v, s, t[..|t| - 1]);
    }
  }

  /** Replaying does not look at owners to decide which notes there are and what they are worth. */
  lemma {:induction false} RunLogSameNotes(v1: View, v2: View, txs: seq<BanknoteTx>)
    requires SameNotes(v1, v2)
    ensures SameNotes(RunLog(v1, txs), RunLog(v2, txs))
  {
    if txs != [] {
      RunLogSameNotes(v1, v2, txs[..|txs| - 1]);
      ApplySameNotes(RunLog(v1, txs[..|txs| - 1]), RunLog(v2, txs[..|txs| - 1]), txs[|txs| - 1]);
    }
  }

  lemma ApplySameNotes(w1: View, w2: View, t: BanknoteTx)
    requires SameNotes(w1, w2)
    ensures SameNotes(ApplyTx(w1, t), ApplyTx(w2, t))
  {
    var r1, r2 := ApplyTx(w1, t), ApplyTx(w2, t);
    assert forall h :: h in w1 <==> h in w2;
    forall h ensures h in r1 <==> h in r2 {}
    assert r1.Keys == r2.Keys;
  }

  /** After a part of a batch that respects the life cycle, the rest respects it with respect to the pool
      that the part leaves. */
  lemma LifecycleSuffix(v: View, front: seq<BanknoteTx>, back: seq<BanknoteTx>, w: View)
    requires Keyed(v) && LifecycleRespecting(v, front + back) && SameNotes(w, RunLog(v, front))
    ensures LifecycleRespecting(v, front) && LifecycleRespecting(w, back)
  {
    var all := front + back;
    assert forall t :: t in front ==> t in all;
    assert forall t :: t in back ==> t in all;
    forall i, j | 0 <= i < j < |front| ensures Related(front[i], front[j]) { assert Related(all[i], all[j]); }
    forall i, j | 0 <= i < j < |back| ensures Related(back[i], back[j]) {
      assert Related(all[|front| + i], all[|front| + j]);
    }
    LogSettled(v, front);
    forall t | t in back ensures Sound(w, t) {
      assert Sound(v, t);
      forall h | Produces(t, h) ensures h !in w { NewToTheRest(v, front, back, t, h); }
    }
  }

  lemma NewToTheRest(v: View, front: seq<BanknoteTx>, back: seq<BanknoteTx>, t: BanknoteTx, h: Hash)
    requires LifecycleRespecting(v, front + back) && t in back && Produces(t, h)
    ensures !Survives(v, front, h)
  {
    var all := front + back;
    assert t in all && Sound(v, t);
    forall u | u in front ensures !Produces(u, h) && !Revives(u, h) {
      var i :| 0 <= i < |front| && front[i] == u;
      var j :| 0 <= j < |back| && back[j] == t;
      assert all[i] == u && all[|front| + j] == t;
      assert Related(all[i], all[|front| + j]);
    }
  }

  // Chains of blocks

  /** One block: its batch, the ledgers, their state tries before it, and the run of its goroutines. */
  datatype BlockRun = BlockRun(batch: seq<BanknoteTx>, cs: seq<Config>, sts: seq<StateTrie>, moves: seq<Move>)

  /** The block runs to its end from the pool `m`. */
  ghost predicate RunsFrom(ledgers: nat, r: BlockRun, m: Mem)
    requires ledgers > 0
  {
    Executes(ledgers, r.batch, r.cs) && |r.sts| == |r.cs| && Completes(r.cs, m, r.sts, r.moves)
  }

  /** Blocks run one after another, each from the pool the one before it left; `m` is the last pool. */
  ghost predicate Chain(ledgers: nat, runs: seq<BlockRun>, m0: Mem, m: Mem)
    requires ledgers > 0
  {
    if runs == [] then m == m0
    else
      exists mid {:trigger Chain(ledgers, runs[..|runs| - 1], m0, mid)} ::
        && Chain(ledgers, runs[..|runs| - 1], m0, mid)
        && RunsFrom(ledgers, runs[|runs| - 1], mid)
        && var r := runs[|runs| - 1]; m == Final(r.cs, mid, r.sts, r.moves).mem
  }

  /** The transactions of all blocks, in log order. */
  function AllTxs(runs: seq<BlockRun>): seq<BanknoteTx> {
    if runs == [] then [] else AllTxs(runs[..|runs| - 1]) + runs[|runs| - 1].batch
  }

  /** What the cuts have to respect, as the log itself tells: no block both transfers at the initial value and
      splits a note that the log before it leaves or the block produces, and each note of a block is in one ledger. */
  ghost predicate GoodCuts(ledgers: nat, v: View, runs: seq<BlockRun>)
    requires ledgers > 0
  {
    forall i :: 0 <= i < |runs| ==>
      HazardFree(RunLog(v, AllTxs(runs[..i])), runs[i].batch) && OneLedgerPerNote(ledgers, runs[i].batch)
  }

  lemma GoodFront(ledgers: nat, v: View, runs: seq<BlockRun>)
    requires ledgers > 0 && GoodCuts(ledgers, v, runs) && runs != []
    ensures var n := |runs| - 1;
      && GoodCuts(ledgers, v, runs[..n])
      && HazardFree(RunLog(v, AllTxs(runs[..n])), runs[n].batch) && OneLedgerPerNote(ledgers, runs[n].batch)
  {
    var front := runs[..|runs| - 1];
    assert forall i :: 0 <= i < |front| ==> front[..i] == runs[..i] && front[i] == runs[i];
  }

  /** Whether a batch is in hazard depends on which notes there are, not on their owners. */
  lemma HazardSameNotes(v1: View, v2: View, txs: seq<BanknoteTx>)
    requires SameNotes(v1, v2) && HazardFree(v1, txs)
    ensures HazardFree(v2, txs)
  {
    forall h ensures !Hazard(v2, txs, h) {
      assert !Hazard(v1, txs, h);
      assert h in v1.Keys <==> h in v2.Keys;
    }
  }

  /** Any schedules of a chain of well-cut blocks leave the notes of the log-order replay of all of them. */
  lemma {:induction false} ChainIsLog(ledgers: nat, runs: seq<BlockRun>, m0: Mem, m: Mem)
    requires ledgers > 0 && MemOk(m0) && Chain(ledgers, runs, m0, m)
    requires LifecycleRespecting(ViewOf(m0), AllTxs(runs)) && GoodCuts(ledgers, ViewOf(m0), runs)
    ensures MemOk(m) && SameNotes(ViewOf(m), RunLog(ViewOf(m0), AllTxs(runs)))
  {
    if runs != [] {
      hide LifecycleRespecting, HazardFree, OneLedgerPerNote, Executes, GoodCuts, RunLog, Keyed, IsRun;
      var front, r := runs[..|runs| - 1], runs[|runs| - 1];
      var mid :| Chain(ledgers, front, m0, mid) && RunsFrom(ledgers, r, mid) && m == Final(r.cs, mid, r.sts, r.moves).mem;
      var v, done := ViewOf(m0), RunLog(ViewOf(m0), AllTxs(front));
      GoodFront(ledgers, v, runs);
      LifecycleSuffix(v, AllTxs(front), r.batch, done);
      ChainIsLog(ledgers, front, m0, mid);
      NextBlock(ledgers, AllTxs(front), r, v, mid);
    }
  }

  /** One more block: from a pool that holds the notes of the log so far, any schedule leaves those of the log with it. */
  lemma NextBlock(ledgers: nat, front: seq<BanknoteTx>, r: BlockRun, v: View, m: Mem)
    requires ledgers > 0 && MemOk(m) && Keyed(v) && RunsFrom(ledgers, r, m) && SameNotes(ViewOf(m), RunLog(v, front))
    requires LifecycleRespecting(v, front + r.batch)
    requires HazardFree(RunLog(v, front), r.batch) && OneLedgerPerNote(ledgers, r.batch)
    ensures var m' := Final(r.cs, m, r.sts, r.moves).mem; MemOk(m') && SameNotes(ViewOf(m'), RunLog(v, front + r.batch))
  {
    hide LifecycleRespecting, HazardFree, OneLedgerPerNote, Executes, RunLog, Keyed, IsRun;
    var done := RunLog(v, front);
    SameNotesSwap(ViewOf(m), done);
    LifecycleSuffix(v, front, r.batch, ViewOf(m));
    HazardSameNotes(done, ViewOf(m), r.batch);
    ConcurrentIsLog(ledgers, r.batch, r.cs, m, r.sts, r.moves);
    RunLogSameNotes(ViewOf(m), done, r.batch);
    RunLogAppend(v, front, r.batch);
  }

  lemma SameNotesSwap(v1: View, v2: View)
    requires SameNotes(v1, v2)
    ensures SameNotes(v2, v1)
  {
  }

  /** The simulator and the chain agree: any run of the simulator, its log cut into blocks that are free of
      hazards and keep each note in one ledger, and the blocks executed concurrently from an empty pool under any
      schedules leave exactly the active notes that appear in the log, at equal values. */
  lemma ChainFollowsSimulator(c: Setup, events: seq<Event>, digest: Row -> Hash, ledgers: nat, runs: seq<BlockRun>, m: Mem)
    requires ValidSetup(c) && ledgers > 0
    requires AllTxs(runs) == Batch(digest, Run(c, events).log)
    requires GoodCuts(ledgers, map[], runs) && Chain(ledgers, runs, Mem([], map[]), m)
    ensures MemOk(m) && ActiveInLog(Run(c, events), AllTxs(runs), ViewOf(m))
  {
    ForwardSimulation(c, events, digest);
    var empty := Mem([], map[]);
    assert ViewOf(empty) == map[];
    ChainIsLog(ledgers, runs, empty, m);
    SameActive(Run(c, events), AllTxs(runs), RunLog(map[], AllTxs(runs)), ViewOf(m));
  }

  lemma SameActive(s: Sim, txs: seq<BanknoteTx>, v: View, w: View)
    requires ActiveInLog(s, txs, v) && SameNotes(w, v)
    ensures ActiveInLog(s, txs, w)
  {
    assert forall h :: h in w <==> h in v;
    forall h | h in w ensures exists n :: Held(s, n) && n.hash == h && w[h].value == n.denomination {
      var n :| Held(s, n) && n.hash == h && v[h].value == n.denomination;
      assert w[h].value == n.denomination;
    }
  }
}
