/** What every interleaving keeps about the account records of a ledger: those sent are those received
    and those still in the channel, and at the end they are the records of the batch. */
module RecordInvariant {
  import opened BanknoteTypes
  import opened Accounts
  import opened Netting
  import opened LedgerMachine

  predicate HasRecord(t: BanknoteTx) { t.kind.BG? || t.kind.BR? }

  function RecordOf(t: BanknoteTx): Record {
    if t.kind.BG? then Record(t.from, ZERO_ADDRESS, t.amount) else Record(ZERO_ADDRESS, t.to, t.amount)
  }

  /** The account records of a batch in log order. */
  function BatchRecords(txs: seq<BanknoteTx>): seq<Record> {
    if txs == [] then []
    else BatchRecords(txs[..|txs| - 1]) + if HasRecord(txs[|txs| - 1]) then [RecordOf(txs[|txs| - 1])] else []
  }

  predicate SentAt(t: BanknoteTx, p: Pc) { HasRecord(t) && !p.Waiting? && !p.Received? }

  function Sent(t: BanknoteTx, p: Pc): multiset<Record> { if SentAt(t, p) then multiset{RecordOf(t)} else multiset{} }

  /** The records sent so far. */
  function SentBag(txs: seq<BanknoteTx>, pc: seq<Pc>): multiset<Record>
    requires |txs| == |pc|
  {
    if txs == [] then multiset{} else SentBag(txs[..|txs| - 1], pc[..|pc| - 1]) + Sent(txs[|txs| - 1], pc[|pc| - 1])
  }

  lemma {:induction false} SentBagUpdate(txs: seq<BanknoteTx>, pc: seq<Pc>, i: nat, p: Pc)
    requires |txs| == |pc| && i < |pc| && (SentAt(txs[i], pc[i]) ==> SentAt(txs[i], p))
    ensures SentBag(txs, pc[i := p]) == SentBag(txs, pc)
              + if SentAt(txs[i], p) && !SentAt(txs[i], pc[i]) then multiset{RecordOf(txs[i])} else multiset{}
  {
    SentBagMore(txs, pc, i, p);
    var before, after := SentBag(txs, pc), SentBag(txs, pc[i := p]);
    var was, now := Sent(txs[i], pc[i]), Sent(txs[i], p);
    assert after == (after + was) - was && (before + now) - was == before + (now - was);
  }

  /** Without what the transaction had sent, and with what it has sent now. */
  lemma {:induction false} SentBagMore(txs: seq<BanknoteTx>, pc: seq<Pc>, i: nat, p: Pc)
    requires |txs| == |pc| && i < |pc|
    ensures SentBag(txs, pc[i := p]) + Sent(txs[i], pc[i]) == SentBag(txs, pc) + Sent(txs[i], p)
  {
    var n := |pc| - 1;
    var front, last := SentBag(txs[..n], pc[..n]), Sent(txs[n], pc[n]);
    SentBagLast(txs, pc);
    SentBagLast(txs, pc[i := p]);
    if i == n {
      assert pc[i := p][..n] == pc[..n];
      assert (front + Sent(txs[i], p)) + last == (front + last) + Sent(txs[i], p);
    } else {
      assert pc[i := p][..n] == pc[..n][i := p];
      SentBagMore(txs[..n], pc[..n], i, p);
      hide Sent, SentBag;
      Exchange(SentBag(txs[..n], pc[..n][i := p]), front, last, Sent(txs[i], pc[i]), Sent(txs[i], p));
    }
  }

  lemma SentBagLast(txs: seq<BanknoteTx>, pc: seq<Pc>)
    requires |txs| == |pc| > 0
    ensures SentBag(txs, pc) == SentBag(txs[..|txs| - 1], pc[..|pc| - 1]) + Sent(txs[|txs| - 1], pc[|pc| - 1])
  {
  }

  lemma Exchange(a: multiset<Record>, b: multiset<Record>, z: multiset<Record>, x: multiset<Record>, y: multiset<Record>)
    requires a + x == b + y
    ensures (a + z) + x == (b + z) + y
  {
    assert (a + z) + x == (a + x) + z && (b + z) + y == (b + y) + z;
  }

  lemma {:induction false} SentBagStart(txs: seq<BanknoteTx>, pc: seq<Pc>)
    requires |txs| == |pc| && forall i :: 0 <= i < |pc| ==> pc[i].Waiting?
    ensures SentBag(txs, pc) == multiset{}
  {
    if txs != [] { SentBagStart(txs[..|txs| - 1], pc[..|pc| - 1]); }
  }

  lemma {:induction false} SentBagComplete(txs: seq<BanknoteTx>, pc: seq<Pc>)
    requires |txs| == |pc| && forall i :: 0 <= i < |pc| ==> pc[i].Finished?
    ensures SentBag(txs, pc) == multiset(BatchRecords(txs))
  {
    if txs != [] { SentBagComplete(txs[..|txs| - 1], pc[..|pc| - 1]); }
  }

  ghost predicate RecordInv(c: Config, st0: StateTrie, s: Local)
    requires |s.pc| == |c.txs|
  {
    && multiset(s.got) + multiset(s.acct) == SentBag(c.txs, s.pc)
    && s.net == Net(s.got)
    && s.st == (if s.trie.Collecting? then st0 else ApplyNet(st0, s.net, c.initBalance))
  }

  lemma StartRecords(c: Config, st0: StateTrie)
    ensures RecordInv(c, st0, Start(c, st0))
  {
    SentBagStart(c.txs, Start(c, st0).pc);
  }

  lemma StepRecords(c: Config, m: Mem, s: Local, a: Action, st0: StateTrie)
    requires Grounded(c, m, s) && Enabled(c, m, s, a) && RecordInv(c, st0, s)
    requires var q := s.queues.Of(StageKind(s.stage)); q != [] ==> s.pc[q[0]].Waiting?
    requires s.trie.Returned? <==> s.stage.DoneStage?
    ensures var s' := Next(c, m, s, a).1; |s'.pc| == |c.txs| && RecordInv(c, st0, s')
  {
    match a
    case Trie => TrieRecords(c, s, st0);
    case Work(w) => if s.workers[w].Busy? { BusyRecords(c, m, s, w, st0); } else { ReceiveRecords(c, m, s, w, st0); }
    case Advance => AdvanceRecords(c, m, s, st0);
    case Dispatch =>
    case Close =>
  }

  lemma TrieRecords(c: Config, s: Local, st0: StateTrie)
    requires |s.pc| == |c.txs| && s.trie.Collecting? && RecordInv(c, st0, s)
    ensures RecordInv(c, st0, TrieStep(c, s))
  {
    hide SentBag, ApplyNet, AddRecord;
    if s.acct != [] {
      MoveRecord(s.got, s.acct);
      hide Net;
    }
  }

  /** One record goes from the channel into the map. */
  lemma MoveRecord(got: seq<Record>, acct: seq<Record>)
    requires acct != []
    ensures multiset(got + [acct[0]]) + multiset(acct[1..]) == multiset(got) + multiset(acct)
    ensures Net(got + [acct[0]]) == AddRecord(Net(got), acct[0])
  {
    assert acct == [acct[0]] + acct[1..];
    assert (got + [acct[0]])[..|got|] == got;
  }

  lemma ReceiveRecords(c: Config, m: Mem, s: Local, w: nat, st0: StateTrie)
    requires Grounded(c, m, s) && Enabled(c, m, s, Work(w)) && !s.workers[w].Busy? && RecordInv(c, st0, s)
    requires var q := s.queues.Of(StageKind(s.stage)); q != [] ==> s.pc[q[0]].Waiting?
    ensures var s' := WorkStep(c, m, s, w).1; |s'.pc| == |c.txs| && RecordInv(c, st0, s')
  {
    var q := s.queues.Of(StageKind(s.stage));
    if q != [] { SentBagUpdate(c.txs, s.pc, q[0], Received); }
  }

  lemma BusyRecords(c: Config, m: Mem, s: Local, w: nat, st0: StateTrie)
    requires Grounded(c, m, s) && Enabled(c, m, s, Work(w)) && s.workers[w].Busy? && RecordInv(c, st0, s)
    ensures var s' := WorkStep(c, m, s, w).1; |s'.pc| == |c.txs| && RecordInv(c, st0, s')
  {
    var i := s.workers[w].i;
    var o := TxStep(c.txs[i], s.pc[i], m);
    var s' := WorkStep(c, m, s, w).1;
    assert s'.pc == s.pc[i := o.pc];
    SentShape(c.txs[i], s.pc[i], m);
    SentBagUpdate(c.txs, s.pc, i, o.pc);
    assert multiset(s'.acct) == multiset(s.acct) + if o.out.Send? then multiset{o.out.rec} else multiset{};
  }

  lemma SentShape(t: BanknoteTx, p: Pc, m: Mem)
    requires Active(p) && PcFits(t.kind, p) && RefOk(p, m)
    ensures var o := TxStep(t, p, m);
      && (SentAt(t, p) ==> SentAt(t, o.pc))
      && (o.out.Send? <==> SentAt(t, o.pc) && !SentAt(t, p)) && (o.out.Send? ==> o.out.rec == RecordOf(t))
  {
  }

  lemma AdvanceSame(c: Config, m: Mem, s: Local)
    requires Grounded(c, m, s) && Enabled(c, m, s, Advance)
    ensures var s' := AdvanceStep(c, m, s).1;
      && |s'.pc| == |c.txs| && s'.pc == s.pc && s'.got == s.got && s'.acct == s.acct && s'.net == s.net && s'.st == s.st
      && (s'.trie.Collecting? <==> s.trie.Collecting?)
  {
  }

  lemma AdvanceRecords(c: Config, m: Mem, s: Local, st0: StateTrie)
    requires Grounded(c, m, s) && Enabled(c, m, s, Advance) && RecordInv(c, st0, s)
    ensures var s' := AdvanceStep(c, m, s).1; |s'.pc| == |c.txs| && RecordInv(c, st0, s')
  {
    hide AdvanceStep, SentBag, Net, ApplyNet, Enabled, Grounded;
    AdvanceSame(c, m, s);
  }

  /** When the ledger is done, its state trie is the old one with the batch's records netted into it. */
  lemma RecordsOutcome(c: Config, st0: StateTrie, s: Local)
    requires |s.pc| == |c.txs| && RecordInv(c, st0, s) && s.acct == [] && !s.trie.Collecting?
    requires forall i :: 0 <= i < |s.pc| ==> s.pc[i].Finished?
    ensures s.st == ApplyNet(st0, Net(BatchRecords(c.txs)), c.initBalance)
  {
    SentBagComplete(c.txs, s.pc);
    NetOrderFree(s.got, BatchRecords(c.txs));
  }
}
