/** A leader that ran a batch and a peer that replays the block made from it. */
module Replica {
  import opened BanknoteTypes
  import opened Sequences
  import opened Lifecycle
  import opened Accounts
  import opened Netting
  import opened CoreLedger
  import opened LedgerMachine
  import opened PoolInvariant
  import opened OwnerInvariant
  import opened RecordInvariant
  import opened LedgerInvariant
  import opened BlockMachine
  import opened BlockBody
  import opened BlockOutcome
  import opened PhaseTheorem

  // Account records do not depend on the order of the batch

  lemma {:induction false} RecordsAppend(s: seq<BanknoteTx>, t: seq<BanknoteTx>)
    ensures BatchRecords(s + t) == BatchRecords(s) + BatchRecords(t)
  {
    if t == [] {
      assert s + t == s;
    } else {
      assert (s + t)[..|s + t| - 1] == s + t[..|t| - 1];
      RecordsAppend(s, t[..|t| - 1]);
    }
  }

  lemma {:induction false} RecordsBag(s: seq<BanknoteTx>, t: seq<BanknoteTx>)
    requires multiset(s) == multiset(t)
    ensures multiset(BatchRecords(s)) == multiset(BatchRecords(t))
    decreases |s|
  {
    if s == [] {
      assert |multiset(t)| == 0;
      assert t == [];
    } else {
      hide BatchRecords;
      var front, last := s[..|s| - 1], s[|s| - 1];
      assert s == front + [last];
      var i := TakeLast(s, t);
      var a, b := t[..i], t[i + 1..];
      RecordsBag(front, a + b);
      RecordsAppend(front, [last]);
      TakeRecord(a, last, b);
    }
  }

  lemma TakeRecord(a: seq<BanknoteTx>, t: BanknoteTx, b: seq<BanknoteTx>)
    ensures multiset(BatchRecords(a + [t] + b)) == multiset(BatchRecords(a + b)) + multiset(BatchRecords([t]))
  {
    hide BatchRecords;
    RecordsAppend(a, b);
    RecordsAppend(a + [t], b);
    RecordsAppend(a, [t]);
  }

  // The batch a peer replays

  predicate NotRecycling(t: BanknoteTx) { !t.kind.BR? }

  /** The rebuilt batch is the batch without its recyclings, in another order. */
  lemma PeerBag(ledgers: nat, batch: seq<BanknoteTx>, body: BlockBody)
    requires ledgers > 0 && IsBodyOf(ledgers, batch, body)
    ensures multiset(PeerBatch(body)) == multiset(Filter(NotRecycling, batch))
  {
    BodyBag(ledgers, batch, body);
    forall t ensures multiset(PeerBatch(body))[t] == multiset(Filter(NotRecycling, batch))[t] {
      FilterCount(IsNormal, batch, t);
      FilterCount(Enters, batch, t);
      FilterCount(NotRecycling, batch, t);
    }
  }

  /** The replayed batch keeps what the machine asks of a batch. */
  lemma PeerOrderFree(ledgers: nat, batch: seq<BanknoteTx>, body: BlockBody, v: View)
    requires ledgers > 0 && IsBodyOf(ledgers, batch, body)
    requires OrderFree(v, batch) && OneLedgerPerNote(ledgers, batch) && HazardFree(v, batch)
    ensures var peer := PeerBatch(body);
      && OrderFree(v, peer) && OneLedgerPerNote(ledgers, peer) && HazardFree(v, peer)
      && (forall t :: t in peer <==> t in batch && !t.kind.BR?)
  {
    var kept, peer := Filter(NotRecycling, batch), PeerBatch(body);
    PeerBag(ledgers, batch, body);
    SameMembers(kept, peer);
    FilterPairwise(NotRecycling, Compatible, batch);
    PairwisePermutation(Compatible, kept, peer);
    assert forall t :: t in peer <==> t in batch && !t.kind.BR?;
    forall h ensures !Hazard(v, peer, h) {
      assert !Hazard(v, batch, h);
    }
  }

  /** What the replayed batch makes of a note. */
  lemma PeerSurvives(batch: seq<BanknoteTx>, peer: seq<BanknoteTx>, v: View, h: Hash)
    requires forall t :: t in peer <==> t in batch && !t.kind.BR?
    ensures Survives(v, peer, h) <==> !Split(batch, h) && (h in v || Produced(batch, h) || Revived(batch, h))
    ensures Survives(v, batch, h) ==> Survives(v, peer, h)
    ensures forall value :: ValueRule(v, peer, h, value) <==> ValueRule(v, batch, h, value)
  {
    assert forall t :: Produces(t, h) || Revives(t, h) ==> (t in peer <==> t in batch);
    assert Produced(peer, h) <==> Produced(batch, h);
    assert Revived(peer, h) <==> Revived(batch, h);
    assert Consumed(peer, h) <==> Split(batch, h);
  }

  /** The leader's and the peer's finished runs, from equal pools and equal state tries. */
  ghost predicate Replay(ledgers: nat, batch: seq<BanknoteTx>, body: BlockBody, cs: seq<Config>, cs': seq<Config>,
                         m: Mem, m': Mem, sts: seq<StateTrie>, moves: seq<Move>, moves': seq<Move>)
  {
    && ledgers > 0 && IsBodyOf(ledgers, batch, body)
    && MemOk(m) && MemOk(m') && ViewOf(m) == ViewOf(m')
    && OrderFree(ViewOf(m), batch) && OneLedgerPerNote(ledgers, batch) && HazardFree(ViewOf(m), batch)
    && Executes(ledgers, batch, cs) && Executes(ledgers, PeerBatch(body), cs') && |sts| == ledgers
    && (forall l :: 0 <= l < ledgers ==> cs'[l].initBalance == cs[l].initBalance)
    && Completes(cs, m, sts, moves) && Completes(cs', m', sts, moves')
  }

  lemma ReplayInv(ledgers: nat, batch: seq<BanknoteTx>, body: BlockBody, cs: seq<Config>, cs': seq<Config>,
                  m: Mem, m': Mem, sts: seq<StateTrie>, moves: seq<Move>, moves': seq<Move>)
    requires Replay(ledgers, batch, body, cs, cs', m, m', sts, moves, moves')
    ensures BlockInv(ledgers, batch, cs, ViewOf(m), sts, Final(cs, m, sts, moves))
    ensures BlockInv(ledgers, PeerBatch(body), cs', ViewOf(m), sts, Final(cs', m', sts, moves'))
    ensures OrderFree(ViewOf(m), PeerBatch(body)) && OneLedgerPerNote(ledgers, PeerBatch(body))
    ensures HazardFree(ViewOf(m), PeerBatch(body))
    ensures forall t :: t in PeerBatch(body) <==> t in batch && !t.kind.BR?
  {
    PeerOrderFree(ledgers, batch, body, ViewOf(m));
    OrderFreeFresh(ViewOf(m), batch);
    OrderFreeFresh(ViewOf(m), PeerBatch(body));
    FinalInv(ledgers, batch, cs, m, sts, moves);
    FinalInv(ledgers, PeerBatch(body), cs', m', sts, moves');
  }

  /** For any schedules of the two, the leader and the peer hold the note `h` alike, at the same value,
      exactly when the batch does not recycle it while it is there. */
  lemma ReplicasHold(ledgers: nat, batch: seq<BanknoteTx>, body: BlockBody, cs: seq<Config>, cs': seq<Config>,
                     m: Mem, m': Mem, sts: seq<StateTrie>, moves: seq<Move>, moves': seq<Move>, h: Hash)
    requires Replay(ledgers, batch, body, cs, cs', m, m', sts, moves, moves')
    ensures var p, p' := Final(cs, m, sts, moves).mem, Final(cs', m', sts, moves').mem;
      && MemOk(p) && MemOk(p')
      && ((h in p.pool <==> h in p'.pool) <==>
            !((exists t :: t in batch && t.kind.BR? && t.note == h) && (h in ViewOf(m) || Produced(batch, h) || Revived(batch, h))))
      && (h in p.pool ==> h in p'.pool && ViewOf(p)[h].value == ViewOf(p')[h].value && ViewOf(p)[h].hash == ViewOf(p')[h].hash)
  {
    var v, peer := ViewOf(m), PeerBatch(body);
    var b, b' := Final(cs, m, sts, moves), Final(cs', m', sts, moves');
    ReplayInv(ledgers, batch, body, cs, cs', m, m', sts, moves, moves');
    NoteOutcome(ledgers, batch, cs, v, sts, b, h);
    NoteOutcome(ledgers, peer, cs', v, sts, b', h);
    PeerSurvives(batch, peer, v, h);
    RecycledApart(batch, v, h);
    if h in b.mem.pool {
      RuleUnique(v, batch, h, ViewOf(b.mem)[h].value, ViewOf(b'.mem)[h].value);
    }
  }

  /** A recycled note is not also split. */
  lemma RecycledApart(batch: seq<BanknoteTx>, v: View, h: Hash)
    requires OrderFree(v, batch)
    ensures Consumed(batch, h) <==> Split(batch, h) || exists t :: t in batch && t.kind.BR? && t.note == h
    ensures Split(batch, h) ==> !exists t :: t in batch && t.kind.BR? && t.note == h
  {
    if Split(batch, h) {
      var u :| u in batch && u.kind.BS? && Consumes(u, h);
      var i :| 0 <= i < |batch| && batch[i] == u;
      forall t | t in batch && t.kind.BR? ensures t.note != h {
        var j :| 0 <= j < |batch| && batch[j] == t;
        PairCompatible(v, batch, i, j);
      }
    }
    assert forall t :: t in batch && t.kind.BR? && t.note == h ==> Consumes(t, h);
  }

  lemma ReplayRuns(ledgers: nat, batch: seq<BanknoteTx>, body: BlockBody, cs: seq<Config>, cs': seq<Config>,
                   m: Mem, m': Mem, sts: seq<StateTrie>, moves: seq<Move>, moves': seq<Move>)
    requires Replay(ledgers, batch, body, cs, cs', m, m', sts, moves, moves')
    ensures |sts| == |cs| == |cs'| && IsRun(cs, StartBlock(cs, m, sts), moves) && IsRun(cs', StartBlock(cs', m', sts), moves')
  {
  }

  /** Replica agreement on notes: with no recyclings in the batch, the pools hold the same hashes and values. */
  lemma ReplicasAgreeOnNotes(ledgers: nat, batch: seq<BanknoteTx>, body: BlockBody, cs: seq<Config>, cs': seq<Config>,
                             m: Mem, m': Mem, sts: seq<StateTrie>, moves: seq<Move>, moves': seq<Move>)
    requires Replay(ledgers, batch, body, cs, cs', m, m', sts, moves, moves')
    requires forall t :: t in batch ==> !t.kind.BR?
    ensures var p, p' := Final(cs, m, sts, moves).mem, Final(cs', m', sts, moves').mem;
      MemOk(p) && MemOk(p') && SameNotes(ViewOf(p), ViewOf(p'))
  {
    ReplayRuns(ledgers, batch, body, cs, cs', m, m', sts, moves, moves');
    hide Replay, IsRun, Final;
    var p, p' := Final(cs, m, sts, moves).mem, Final(cs', m', sts, moves').mem;
    ReplicasHold(ledgers, batch, body, cs, cs', m, m', sts, moves, moves', 0);
    forall h ensures SameNote(p, p', h) {
      ReplicasHold(ledgers, batch, body, cs, cs', m, m', sts, moves, moves', h);
    }
    SameNoteAll(p, p');
  }

  /** Two pools hold the same under `h`. */
  ghost predicate SameNote(p: Mem, p': Mem, h: Hash)
    requires MemOk(p) && MemOk(p')
  {
    && (h in p.pool <==> h in p'.pool)
    && (h in p.pool ==> ViewOf(p)[h].value == ViewOf(p')[h].value && ViewOf(p)[h].hash == ViewOf(p')[h].hash)
  }

  lemma SameNoteAll(p: Mem, p': Mem)
    requires MemOk(p) && MemOk(p') && forall h :: SameNote(p, p', h)
    ensures SameNotes(ViewOf(p), ViewOf(p'))
  {
    forall h ensures h in ViewOf(p) <==> h in ViewOf(p') { assert SameNote(p, p', h); }
    assert ViewOf(p).Keys == ViewOf(p').Keys;
    forall h | h in ViewOf(p) ensures ViewOf(p)[h].hash == ViewOf(p')[h].hash && ViewOf(p)[h].value == ViewOf(p')[h].value {
      assert SameNote(p, p', h);
    }
  }

  /** Replica agreement on accounts: with no recyclings in the batch, every ledger ends with the same netted
      accounts, and the core ledger too. */
  lemma ReplicasAgreeOnAccounts(ledgers: nat, batch: seq<BanknoteTx>, body: BlockBody, cs: seq<Config>, cs': seq<Config>,
                                m: Mem, m': Mem, sts: seq<StateTrie>, moves: seq<Move>, moves': seq<Move>, l: nat)
    requires Replay(ledgers, batch, body, cs, cs', m, m', sts, moves, moves') && l < ledgers
    requires forall t :: t in batch ==> !t.kind.BR?
    ensures var b, b' := Final(cs, m, sts, moves), Final(cs', m', sts, moves');
      l < |b.ledgers| && l < |b'.ledgers| && b.ledgers[l].st == b'.ledgers[l].st
    ensures forall core, initBalance ::
      PayAll(core, Payments(NormalTxs(PeerBatch(body))), initBalance) == PayAll(core, Payments(NormalTxs(batch)), initBalance)
  {
    LeaderTrie(ledgers, batch, body, cs, cs', m, m', sts, moves, moves', l);
    PeerTrie(ledgers, batch, body, cs, cs', m, m', sts, moves, moves', l);
    ReplaysBody(ledgers, batch, body, cs, cs', m, m', sts, moves, moves', l);
    SameNet(ledgers, batch, body, sts, cs[l].initBalance, l);
  }

  /** What the netting of its transactions makes of the state trie of ledger `l`. */
  ghost function NettedTrie(ledgers: nat, batch: seq<BanknoteTx>, sts: seq<StateTrie>, initBalance: int, l: nat): StateTrie
    requires ledgers > 0 && l < |sts|
  {
    ApplyNet(sts[l], Net(BatchRecords(ActionTxs(ledgers, batch, l))), initBalance)
  }

  lemma ReplaysBody(ledgers: nat, batch: seq<BanknoteTx>, body: BlockBody, cs: seq<Config>, cs': seq<Config>,
                    m: Mem, m': Mem, sts: seq<StateTrie>, moves: seq<Move>, moves': seq<Move>, l: nat)
    requires Replay(ledgers, batch, body, cs, cs', m, m', sts, moves, moves') && l < ledgers
    ensures ledgers > 0 && IsBodyOf(ledgers, batch, body) && |sts| == |cs| == ledgers
  {
  }

  lemma LeaderTrie(ledgers: nat, batch: seq<BanknoteTx>, body: BlockBody, cs: seq<Config>, cs': seq<Config>,
                   m: Mem, m': Mem, sts: seq<StateTrie>, moves: seq<Move>, moves': seq<Move>, l: nat)
    requires Replay(ledgers, batch, body, cs, cs', m, m', sts, moves, moves') && l < ledgers
    ensures l < |Final(cs, m, sts, moves).ledgers|
    ensures Final(cs, m, sts, moves).ledgers[l].st == NettedTrie(ledgers, batch, sts, cs[l].initBalance, l)
  {
    OrderFreeFresh(ViewOf(m), batch);
    FinalInv(ledgers, batch, cs, m, sts, moves);
    FinalTrie(ledgers, batch, cs, ViewOf(m), sts, Final(cs, m, sts, moves), l);
  }

  lemma PeerTrie(ledgers: nat, batch: seq<BanknoteTx>, body: BlockBody, cs: seq<Config>, cs': seq<Config>,
                 m: Mem, m': Mem, sts: seq<StateTrie>, moves: seq<Move>, moves': seq<Move>, l: nat)
    requires Replay(ledgers, batch, body, cs, cs', m, m', sts, moves, moves') && l < ledgers
    ensures l < |Final(cs', m', sts, moves').ledgers|
    ensures Final(cs', m', sts, moves').ledgers[l].st == NettedTrie(ledgers, PeerBatch(body), sts, cs[l].initBalance, l)
  {
    PeerOrderFree(ledgers, batch, body, ViewOf(m));
    OrderFreeFresh(ViewOf(m), PeerBatch(body));
    FinalInv(ledgers, PeerBatch(body), cs', m', sts, moves');
    FinalTrie(ledgers, PeerBatch(body), cs', ViewOf(m), sts, Final(cs', m', sts, moves'), l);
  }

  lemma FinalTrie(ledgers: nat, batch: seq<BanknoteTx>, cs: seq<Config>, v: View, sts: seq<StateTrie>, b: Block, l: nat)
    requires ledgers > 0 && Executes(ledgers, batch, cs) && BlockInv(ledgers, batch, cs, v, sts, b) && AllDone(b) && l < ledgers
    ensures b.ledgers[l].st == ApplyNet(sts[l], Net(BatchRecords(ActionTxs(ledgers, batch, l))), cs[l].initBalance)
  {
    DoneComplete(cs[l], v, sts[l], b.mem, b.ledgers[l]);
  }

  lemma SameNet(ledgers: nat, batch: seq<BanknoteTx>, body: BlockBody, sts: seq<StateTrie>, initBalance: int, l: nat)
    requires ledgers > 0 && IsBodyOf(ledgers, batch, body) && l < |sts| == ledgers && forall t :: t in batch ==> !t.kind.BR?
    ensures NormalTxs(PeerBatch(body)) == NormalTxs(batch)
    ensures NettedTrie(ledgers, PeerBatch(body), sts, initBalance, l) == NettedTrie(ledgers, batch, sts, initBalance, l)
  {
    PeerPartition(ledgers, batch, body, l);
    SamePart(ledgers, batch, l);
    assert IsSortOf(BlockTxs(ledgers, batch, l), body.pLedgers[l]);
    RecordsBag(ActionTxs(ledgers, batch, l), body.pLedgers[l]);
    NetOrderFree(BatchRecords(ActionTxs(ledgers, batch, l)), BatchRecords(body.pLedgers[l]));
  }

  /** Without recyclings a ledger puts all it executes in the block. */
  lemma SamePart(ledgers: nat, batch: seq<BanknoteTx>, l: nat)
    requires ledgers > 0 && forall t :: t in batch ==> !t.kind.BR?
    ensures multiset(ActionTxs(ledgers, batch, l)) == multiset(BlockTxs(ledgers, batch, l))
  {
    forall t ensures multiset(ActionTxs(ledgers, batch, l))[t] == multiset(BlockTxs(ledgers, batch, l))[t] {
      FilterCount((u: BanknoteTx) => RunsIn(ledgers, l, u), batch, t);
      FilterCount((u: BanknoteTx) => EntersIn(ledgers, l, u), batch, t);
      if t !in batch { assert multiset(batch)[t] == 0; }
    }
  }

  // Owners

  lemma TouchedOwner(ledgers: nat, batch: seq<BanknoteTx>, cs: seq<Config>, v: View, sts: seq<StateTrie>, b: Block, h: Hash)
    requires ledgers > 0 && Executes(ledgers, batch, cs) && OrderFree(v, batch) && OneLedgerPerNote(ledgers, batch)
    requires BlockInv(ledgers, batch, cs, v, sts, b) && AllDone(b)
    requires TransferredOnce(batch, h) && Survives(v, batch, h) && TouchedBy(batch, h)
    ensures h in b.mem.pool && OwnerRule(v, batch, h, b.mem.notes[b.mem.pool[h]].owner)
  {
    var t0 :| t0 in batch && Touches(t0, h);
    var l := GetLedgerHashByID(ledgers, t0.txHash);
    PartAgrees(ledgers, batch, t0, h);
    SameTouching(v, cs[l].txs, batch, h);
    PartOrderFree(ledgers, batch, l, v);
    PartOnce(ledgers, batch, l, h);
    hide LedgerInv, OrderFree, OneLedgerPerNote, TransferredOnce, Survives, OwnerRule;
    LedgerOwner(cs[l], v, sts[l], b.mem, b.ledgers[l], h);
  }

  lemma LedgerOwner(c: Config, v: View, st0: StateTrie, m: Mem, s: Local, h: Hash)
    requires ConfigOk(c) && LedgerInv(c, v, st0, m, s) && s.stage.DoneStage? && OrderFree(v, c.txs)
    requires TransferredOnce(c.txs, h) && Survives(v, c.txs, h) && TouchedBy(c.txs, h)
    ensures h in m.pool && m.pool[h] < |m.notes| && OwnerRule(v, c.txs, h, m.notes[m.pool[h]].owner)
  {
    DoneComplete(c, v, st0, m, s);
    OwnerAt(v, c.txs, m, s.pc, WaitingOf(s), s.drained, h);
  }

  /** For every interleaving, a surviving note that is transferred at most once has the owner of the rule. */
  lemma FinalOwner(ledgers: nat, batch: seq<BanknoteTx>, cs: seq<Config>, v: View, sts: seq<StateTrie>, b: Block, h: Hash)
    requires ledgers > 0 && Executes(ledgers, batch, cs) && OrderFree(v, batch) && OneLedgerPerNote(ledgers, batch)
    requires BlockInv(ledgers, batch, cs, v, sts, b) && AllDone(b)
    requires TransferredOnce(batch, h) && Survives(v, batch, h)
    ensures h in b.mem.pool && OwnerRule(v, batch, h, b.mem.notes[b.mem.pool[h]].owner)
  {
    hide OrderFree, OneLedgerPerNote, IsRun, OwnersInv, LedgerInv;
    if TouchedBy(batch, h) {
      TouchedOwner(ledgers, batch, cs, v, sts, b, h);
    } else {
      assert forall t :: t in batch ==> !Transfers(t, h) && !Produces(t, h) && !Revives(t, h);
      assert h in v;
    }
  }

  predicate NotBoth(h: Hash, t: BanknoteTx, u: BanknoteTx) { !(Transfers(t, h) && Transfers(u, h)) }

  lemma PartOnce(ledgers: nat, batch: seq<BanknoteTx>, l: nat, h: Hash)
    requires ledgers > 0 && TransferredOnce(batch, h)
    ensures TransferredOnce(ActionTxs(ledgers, batch, l), h)
  {
    var r := (t: BanknoteTx, u: BanknoteTx) => NotBoth(h, t, u);
    assert Pairwise(r, batch);
    FilterPairwise((t: BanknoteTx) => RunsIn(ledgers, l, t), r, batch);
    var part := ActionTxs(ledgers, batch, l);
    forall i, j | 0 <= i < j < |part| ensures !(Transfers(part[i], h) && Transfers(part[j], h)) {
      assert r(part[i], part[j]);
    }
  }

  lemma PeerOnce(ledgers: nat, batch: seq<BanknoteTx>, body: BlockBody, h: Hash)
    requires ledgers > 0 && IsBodyOf(ledgers, batch, body) && TransferredOnce(batch, h)
    ensures TransferredOnce(PeerBatch(body), h)
  {
    var r := (t: BanknoteTx, u: BanknoteTx) => NotBoth(h, t, u);
    var kept, peer := Filter(NotRecycling, batch), PeerBatch(body);
    assert Pairwise(r, batch);
    FilterPairwise(NotRecycling, r, batch);
    PeerBag(ledgers, batch, body);
    PairwisePermutation(r, kept, peer);
    forall i, j | 0 <= i < j < |peer| ensures !(Transfers(peer[i], h) && Transfers(peer[j], h)) {
      assert r(peer[i], peer[j]);
    }
  }

  /** Replica agreement on owners: a note that the batch transfers at most once has the same owner. */
  lemma ReplicasAgreeOnOwners(ledgers: nat, batch: seq<BanknoteTx>, body: BlockBody, cs: seq<Config>, cs': seq<Config>,
                              m: Mem, m': Mem, sts: seq<StateTrie>, moves: seq<Move>, moves': seq<Move>, h: Hash)
    requires Replay(ledgers, batch, body, cs, cs', m, m', sts, moves, moves') && TransferredOnce(batch, h)
    ensures var p, p' := Final(cs, m, sts, moves).mem, Final(cs', m', sts, moves').mem;
      MemOk(p) && MemOk(p') &&
      (h in p.pool ==> h in p'.pool && ViewOf(p)[h].owner == ViewOf(p')[h].owner)
  {
    var v, peer := ViewOf(m), PeerBatch(body);
    var b, b' := Final(cs, m, sts, moves), Final(cs', m', sts, moves');
    ReplayInv(ledgers, batch, body, cs, cs', m, m', sts, moves, moves');
    if h in b.mem.pool {
      NoteOutcome(ledgers, batch, cs, v, sts, b, h);
      PeerSurvives(batch, peer, v, h);
      PeerOnce(ledgers, batch, body, h);
      FinalOwner(ledgers, batch, cs, v, sts, b, h);
      FinalOwner(ledgers, peer, cs', v, sts, b', h);
      OwnerUnique(v, batch, peer, h, ViewOf(b.mem)[h].owner, ViewOf(b'.mem)[h].owner);
    }
  }

  lemma OwnerUnique(v: View, batch: seq<BanknoteTx>, peer: seq<BanknoteTx>, h: Hash, x: Address, y: Address)
    requires OwnerRule(v, batch, h, x) && OwnerRule(v, peer, h, y) && Survives(v, batch, h)
    requires forall t: BanknoteTx :: !t.kind.BR? ==> (t in peer <==> t in batch)
    ensures x == y
  {
    if t :| t in batch && Transfers(t, h) {
      assert t in peer;
    } else if h !in v {
      assert Produced(batch, h);
      var t :| t in batch && Produces(t, h);
      assert t in peer;
    }
  }

  // Owners in log order

  /** In log order, too, a surviving note that is transferred at most once has the owner of the rule. */
  lemma {:induction false} LogOwner(v: View, txs: seq<BanknoteTx>, h: Hash)
    requires Keyed(v) && LifecycleRespecting(v, txs) && TransferredOnce(txs, h) && h in RunLog(v, txs)
    ensures OwnerRule(v, txs, h, RunLog(v, txs)[h].owner)
  {
    if txs != [] {
      var front, t := txs[..|txs| - 1], txs[|txs| - 1];
      assert txs == front + [t];
      LifecyclePrefix(v, front, t);
      LogSettled(v, front);
      assert forall u :: u in txs <==> u in front || u == t;
      if h in RunLog(v, front) {
        LogOwner(v, front, h);
      }
      LogOwnerStep(v, front, t, RunLog(v, front), h);
    }
  }

  lemma LogOwnerStep(v: View, front: seq<BanknoteTx>, t: BanknoteTx, w: View, h: Hash)
    requires Settled(v, front, w) && Sound(v, t) && h in ApplyTx(w, t)
    requires forall u :: u in front ==> Related(u, t)
    requires h in w ==> OwnerRule(v, front, h, w[h].owner)
    requires forall u :: u in front ==> !(Transfers(u, h) && Transfers(t, h))
    ensures OwnerRule(v, front + [t], h, ApplyTx(w, t)[h].owner)
  {
    var txs := front + [t];
    assert forall u :: u in txs <==> u in front || u == t;
    assert Survives(v, front, h) <==> h in w;
    if Produces(t, h) {
      assert forall u :: u in front ==> !Transfers(u, h) && !Produces(u, h);
    } else if Transfers(t, h) {
      assert ApplyTx(w, t)[h].owner == t.to;
    } else {
      assert h in w && ApplyTx(w, t)[h] == w[h];
    }
  }

  /** For every interleaving, every note of the log-order run that is transferred at most once has the owner that
      the log-order run gives it. */
  lemma ConcurrentOwnersAreLog(ledgers: nat, batch: seq<BanknoteTx>, cs: seq<Config>, m: Mem, sts: seq<StateTrie>, moves: seq<Move>, h: Hash)
    requires ledgers > 0 && Executes(ledgers, batch, cs) && OneLedgerPerNote(ledgers, batch) && MemOk(m) && |sts| == |cs|
    requires LifecycleRespecting(ViewOf(m), batch) && Completes(cs, m, sts, moves) && TransferredOnce(batch, h)
    requires h in RunLog(ViewOf(m), batch)
    ensures var b := Final(cs, m, sts, moves);
      MemOk(b.mem) && h in b.mem.pool && ViewOf(b.mem)[h].owner == RunLog(ViewOf(m), batch)[h].owner
  {
    var v := ViewOf(m);
    var b := Final(cs, m, sts, moves);
    LifecycleOrderFree(v, batch);
    OrderFreeFresh(v, batch);
    FinalInv(ledgers, batch, cs, m, sts, moves);
    LogSettled(v, batch);
    LogOwner(v, batch, h);
    hide LifecycleRespecting, OrderFree, OneLedgerPerNote, IsRun, RunLog, FreshOutputs, TransferredOnce, LedgerInv;
    FinalOwner(ledgers, batch, cs, v, sts, b, h);
    OwnerUnique(v, batch, batch, h, b.mem.notes[b.mem.pool[h]].owner, RunLog(v, batch)[h].owner);
  }
}
