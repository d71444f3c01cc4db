/** The log of the simulator read as banknote transactions: it respects the life cycle of its notes, and
    replaying it in order gives exactly the active notes that appear in it. */
module SimulatorLog {
  import opened BanknoteTypes
  import opened Lifecycle
  import opened Simulator

  function KindOf(kind: int): TxType {
    if kind == 2 then BT else if kind == 3 then BS else if kind == 4 then BR else BG
  }

  /** A log line as the reader decodes it; `digest` gives the transaction hash. */
  function TxOf(digest: Row -> Hash, r: Row): BanknoteTx {
    BanknoteTx(digest(r), KindOf(r.kind), r.sender, r.recipient, r.hash, r.value, r.new1Hash, r.new1Value, r.new2Hash, r.new2Value)
  }

  function Batch(digest: Row -> Hash, log: seq<Row>): (txs: seq<BanknoteTx>)
    ensures |txs| == |log|
  {
    if log == [] then [] else Batch(digest, log[..|log| - 1]) + [TxOf(digest, log[|log| - 1])]
  }

  lemma BatchSnoc(digest: Row -> Hash, log: seq<Row>, r: Row)
    ensures Batch(digest, log + [r]) == Batch(digest, log) + [TxOf(digest, r)]
  {
    assert (log + [r])[..|log|] == log;
  }

  /** The pool after the log is replayed one transaction at a time from an empty pool. */
  function Replayed(txs: seq<BanknoteTx>): View { RunLog(map[], txs) }

  /** `h` is the second note that a split made, and has not been transferred since. */
  ghost predicate LooseSecond(txs: seq<BanknoteTx>, h: Hash) {
    (exists t :: t in txs && t.kind.BS? && t.new2 == h) && forall t :: t in txs ==> !Transfers(t, h)
  }

  /** The owner that the log gives the note: its owner, except that the split line names the payer as recipient of
      the second note too, which counts until that note is transferred. */
  ghost predicate OwnerShown(txs: seq<BanknoteTx>, n: SimNote, owner: Address) {
    if LooseSecond(txs, n.hash) then forall t :: t in txs && t.kind.BS? && t.new2 == n.hash ==> owner == t.from
    else owner == n.owner
  }

  /** What the log says of a held note: it is in the replayed pool at its value, or it is an untouched grant. */
  ghost predicate Mirrored(txs: seq<BanknoteTx>, n: SimNote) {
    if TouchedBy(txs, n.hash) then
      && n.hash in Replayed(txs) && Replayed(txs)[n.hash].value == n.denomination
      && OwnerShown(txs, n, Replayed(txs)[n.hash].owner)
    else n.hash !in Replayed(txs) && n.denomination == INIT_NOTE_VALUE
  }

  ghost predicate HeldHash(s: Sim, h: Hash) { exists n :: Held(s, n) && n.hash == h }

  /** The log and the lists tell the same story. */
  ghost predicate Current(s: Sim, txs: seq<BanknoteTx>) {
    && LifecycleRespecting(map[], txs)
    && (forall t, h: Hash :: t in txs && Touches(t, h) ==> h < s.nextHash)
    && (forall t, n :: t in txs && Held(s, n) ==> !Consumes(t, n.hash))
    && (forall n :: Held(s, n) ==> Mirrored(txs, n))
    && (forall h: Hash :: h in Replayed(txs) ==> HeldHash(s, h))
  }

  // One more log line

  /** A line may be appended when its outputs are new hashes and its source is held. */
  ghost predicate Follows(s: Sim, t: BanknoteTx) {
    && (forall h: Hash :: Produces(t, h) ==> s.nextHash <= h)
    && (t.kind.BS? ==> t.new1 != t.new2)
    && (forall h: Hash :: Uses(t, h) ==> HeldHash(s, h) && h < s.nextHash)
  }

  lemma AppendRespects(s: Sim, txs: seq<BanknoteTx>, t: BanknoteTx)
    requires Current(s, txs) && Follows(s, t)
    ensures LifecycleRespecting(map[], txs + [t])
  {
    forall u | u in txs ensures Related(u, t) { FollowsRelated(s, txs, t, u); }
    var all := txs + [t];
    forall i, j | 0 <= i < j < |all| ensures Related(all[i], all[j]) {
      if j < |txs| { assert Related(txs[i], txs[j]); } else { assert all[i] in txs; }
    }
    forall h: Hash | Produces(t, h) ensures !Consumes(t, h) { assert !Uses(t, h); }
    assert Sound(map[], t);
  }

  lemma FollowsRelated(s: Sim, txs: seq<BanknoteTx>, t: BanknoteTx, u: BanknoteTx)
    requires Current(s, txs) && Follows(s, t) && u in txs
    ensures Related(u, t)
  {
    forall h: Hash | Produces(t, h) ensures !Produces(u, h) && !Uses(u, h) {
      assert Touches(u, h) ==> h < s.nextHash;
    }
    forall h: Hash | HeldHash(s, h) ensures !Consumes(u, h) {
      var n :| Held(s, n) && n.hash == h;
      assert !Consumes(u, n.hash);
    }
    forall h: Hash | Consumes(u, h) ensures !Uses(t, h) {
      assert Uses(t, h) ==> HeldHash(s, h);
    }
  }

  lemma TouchedSnoc(txs: seq<BanknoteTx>, t: BanknoteTx, h: Hash)
    ensures TouchedBy(txs + [t], h) <==> TouchedBy(txs, h) || Touches(t, h)
  {
    assert forall u :: u in txs + [t] <==> u in txs || u == t;
  }

  lemma ReplayedSnoc(txs: seq<BanknoteTx>, t: BanknoteTx)
    ensures Replayed(txs + [t]) == ApplyTx(Replayed(txs), t)
  {
    assert (txs + [t])[..|txs|] == txs;
  }

  /** A transaction changes nothing about a note it does not touch. */
  lemma MirrorKept(txs: seq<BanknoteTx>, t: BanknoteTx, n: SimNote)
    requires Mirrored(txs, n) && !Touches(t, n.hash)
    ensures Mirrored(txs + [t], n)
  {
    TouchedSnoc(txs, t, n.hash);
    ReplayedSnoc(txs, t);
    assert LooseSecond(txs + [t], n.hash) <==> LooseSecond(txs, n.hash) by { LooseSnoc(txs, t, n.hash); }
  }

  lemma LooseSnoc(txs: seq<BanknoteTx>, t: BanknoteTx, h: Hash)
    ensures LooseSecond(txs + [t], h) <==>
      ((t.kind.BS? && t.new2 == h) || exists u :: u in txs && u.kind.BS? && u.new2 == h) &&
      !Transfers(t, h) && forall u :: u in txs ==> !Transfers(u, h)
  {
    assert forall u :: u in txs + [t] <==> u in txs || u == t;
  }

  /** A transferred note is in the replayed pool at its value: it was there, or it is an untouched grant
      that the transfer creates at the initial value. It belongs to the recipient. */
  lemma MirrorTransferred(txs: seq<BanknoteTx>, t: BanknoteTx, n: SimNote, n': SimNote)
    requires Mirrored(txs, n) && Transfers(t, n.hash) && t.amount == n.denomination
    requires n'.hash == n.hash && n'.denomination == n.denomination && n'.owner == t.to
    ensures Mirrored(txs + [t], n')
  {
    TouchedSnoc(txs, t, n.hash);
    ReplayedSnoc(txs, t);
    LooseSnoc(txs, t, n.hash);
  }

  /** A new note that a transaction produces is in the replayed pool at its value, and belongs to the sender. */
  lemma MirrorProduced(txs: seq<BanknoteTx>, t: BanknoteTx, n: SimNote)
    requires Produces(t, n.hash) && Product(t, n.hash).value == n.denomination && (t.kind.BS? ==> t.new1 != t.new2 && t.note != n.hash)
    requires !TouchedBy(txs, n.hash) && if t.kind.BS? && t.new2 == n.hash then t.from == t.to else t.from == n.owner
    ensures Mirrored(txs + [t], n)
  {
    TouchedSnoc(txs, t, n.hash);
    ReplayedSnoc(txs, t);
    LooseSnoc(txs, t, n.hash);
    assert forall u :: u in txs ==> !Touches(u, n.hash);
    assert forall u :: u in txs + [t] <==> u in txs || u == t;
  }

  /** The notes of the replayed pool after one more transaction. */
  lemma ReplayedKeys(txs: seq<BanknoteTx>, t: BanknoteTx, h: Hash)
    requires h in Replayed(txs + [t])
    ensures Touches(t, h) || h in Replayed(txs)
    ensures Consumes(t, h) ==> Produces(t, h)
  {
    ReplayedSnoc(txs, t);
  }

  /** The log goes on telling the story when the state changes the notes that the line touches and no others. */
  lemma Append(s: Sim, txs: seq<BanknoteTx>, t: BanknoteTx, s': Sim)
    requires Current(s, txs) && Follows(s, t) && s'.nextHash >= s.nextHash
    requires forall h: Hash :: Touches(t, h) ==> h < s'.nextHash
    requires forall n :: Held(s', n) && !Touches(t, n.hash) ==> Held(s, n)
    requires forall n :: Held(s, n) && !Touches(t, n.hash) ==> Held(s', n)
    requires forall n :: Held(s', n) && Touches(t, n.hash) ==>
      !Consumes(t, n.hash) && (Produces(t, n.hash) || exists m :: Held(s, m) && m.hash == n.hash) && Mirrored(txs + [t], n)
    requires forall h: Hash :: Touches(t, h) && !Consumes(t, h) ==> HeldHash(s', h)
    ensures Current(s', txs + [t])
  {
    AppendRespects(s, txs, t);
    forall n | Held(s', n) ensures Mirrored(txs + [t], n) {
      if !Touches(t, n.hash) { MirrorKept(txs, t, n); }
    }
    forall u, n | u in txs + [t] && Held(s', n) ensures !Consumes(u, n.hash) {
      NotConsumed(s, txs, t, u, n);
    }
    forall h: Hash | h in Replayed(txs + [t]) ensures HeldHash(s', h) {
      ReplayedKeys(txs, t, h);
      if !Touches(t, h) {
        var n :| Held(s, n) && n.hash == h;
        assert Held(s', n);
      } else if Consumes(t, h) {
        assert Uses(t, h) && Produces(t, h);
      }
    }
  }

  lemma NotConsumed(s: Sim, txs: seq<BanknoteTx>, t: BanknoteTx, u: BanknoteTx, n: SimNote)
    requires Current(s, txs) && u in txs + [t]
    requires !Touches(t, n.hash) ==> Held(s, n)
    requires Touches(t, n.hash) ==> !Consumes(t, n.hash)
    requires Touches(t, n.hash) ==> (Produces(t, n.hash) && n.hash >= s.nextHash) || exists m :: Held(s, m) && m.hash == n.hash
    ensures !Consumes(u, n.hash)
  {
    if u in txs {
      assert Touches(u, n.hash) ==> n.hash < s.nextHash;
      if m :| Held(s, m) && m.hash == n.hash { assert !Consumes(u, m.hash); }
    }
  }

  // The events

  /** Counters, the block number and a larger hash supply do not matter. */
  lemma CurrentSame(s: Sim, s': Sim, txs: seq<BanknoteTx>)
    requires Current(s, txs) && s'.active == s.active && s'.nextHash >= s.nextHash
    ensures Current(s', txs)
  {
    assert forall n :: Held(s', n) <==> Held(s, n);
    forall h: Hash | h in Replayed(txs) ensures HeldHash(s', h) {
      var n :| Held(s, n) && n.hash == h;
      assert Held(s', n);
    }
  }

  /** A granted note is untouched: its hash is new to the log. */
  lemma CurrentGrant(c: Setup, s: Sim, a: Address, shard: nat, txs: seq<BanknoteTx>)
    requires Tidy(c, s) && a in s.active && shard < c.shards && Current(s, txs)
    ensures Current(AddNote(s, GrantNote(s, a, shard)).(nextHash := s.nextHash + 1), txs)
  {
    hide Tidy;
    var s' := AddNote(s, GrantNote(s, a, shard)).(nextHash := s.nextHash + 1);
    GrantTidy(c, s, a, shard);
    hide AddNote, Held;
    NewHashUnseen(s, txs, s.nextHash);
    forall h: Hash | h in Replayed(txs) ensures HeldHash(s', h) {
      var n :| Held(s, n) && n.hash == h;
      assert Held(s', n);
    }
    forall t, n | t in txs && Held(s', n) ensures !Consumes(t, n.hash) {
      assert Touches(t, n.hash) ==> TouchedBy(txs, n.hash);
    }
  }

  lemma NewHashUnseen(s: Sim, txs: seq<BanknoteTx>, h: Hash)
    requires Current(s, txs) && h >= s.nextHash
    ensures !TouchedBy(txs, h) && h !in Replayed(txs)
  {
    LogSettled(map[], txs);
    assert Settled(map[], txs, Replayed(txs));
    assert Survives(map[], txs, h) ==> TouchedBy(txs, h);
  }

  lemma CurrentStart(c: Setup, s: Sim, a: Address, txs: seq<BanknoteTx>)
    requires Tidy(c, s) && a !in s.active && Current(s, txs)
    ensures Current(Grants(s, a, 0), txs)
  {
    hide Tidy;
    StartGrants(c, s, a);
    hide Grants, Held;
    var s' := Grants(s, a, 0);
    HeldSame(s, s', txs);
    assert s'.nextHash == s.nextHash by { StartHash(s, a); }
  }

  lemma StartHash(s: Sim, a: Address)
    ensures Grants(s, a, 0).nextHash == s.nextHash
  {
  }

  lemma HeldSame(s: Sim, s': Sim, txs: seq<BanknoteTx>)
    requires Current(s, txs) && forall n :: Held(s', n) <==> Held(s, n)
    ensures forall h: Hash :: h in Replayed(txs) ==> HeldHash(s', h)
  {
    forall h: Hash | h in Replayed(txs) ensures HeldHash(s', h) {
      var n :| Held(s, n) && n.hash == h;
      assert Held(s', n);
    }
  }

  lemma {:induction false} CurrentGrants(c: Setup, s: Sim, a: Address, k: nat, txs: seq<BanknoteTx>)
    requires Tidy(c, s) && a !in s.active && k <= c.shards && Current(s, txs)
    ensures Current(Grants(s, a, k), txs)
  {
    hide Current, Tidy;
    if k == 0 {
      CurrentStart(c, s, a, txs);
    } else {
      CurrentGrants(c, s, a, k - 1, txs);
      GrantsTidy(c, s, a, k - 1);
      CurrentGrant(c, Grants(s, a, k - 1), a, k - 1, txs);
    }
  }

  lemma HeldFacts(c: Setup, s: Sim, n: SimNote)
    requires Tidy(c, s) && Held(s, n)
    ensures n.hash < s.nextHash && HeldHash(s, n.hash) && forall m :: Held(s, m) && m.hash == n.hash ==> m == n
  {
    assert Sane(c, s, n) && UniqueHash(s, n);
  }

  /** A transfer line: the held note `n` becomes `n'`, of the same hash and value. */
  lemma AppendTransfer(c: Setup, s: Sim, txs: seq<BanknoteTx>, t: BanknoteTx, s': Sim, n: SimNote, n': SimNote)
    requires Tidy(c, s) && Held(s, n) && Current(s, txs) && s'.nextHash == s.nextHash
    requires t.kind.BT? && t.note == n.hash && t.amount == n.denomination
    requires n'.hash == n.hash && n'.denomination == n.denomination && n'.owner == t.to
    requires forall m :: Held(s', m) <==> (Held(s, m) && m != n) || m == n'
    ensures Current(s', txs + [t])
  {
    HeldFacts(c, s, n);
    hide Held, Tidy;
    assert Mirrored(txs, n);
    assert Transfers(t, n.hash);
    MirrorTransferred(txs, t, n, n');
    assert Held(s', n');
    hide Current, Mirrored, Replayed;
    Append(s, txs, t, s');
  }

  /** A recycling line: the held note `n` is gone. */
  lemma AppendRecycle(c: Setup, s: Sim, txs: seq<BanknoteTx>, t: BanknoteTx, s': Sim, n: SimNote)
    requires Tidy(c, s) && Held(s, n) && Current(s, txs) && s'.nextHash == s.nextHash
    requires t.kind.BR? && t.note == n.hash
    requires forall m :: Held(s', m) <==> Held(s, m) && m != n
    ensures Current(s', txs + [t])
  {
    HeldFacts(c, s, n);
    hide Held, Tidy, Current, Mirrored, Replayed;
    Append(s, txs, t, s');
  }

  /** A mint line: the note `n`, of a new hash, is added. */
  lemma AppendNew(c: Setup, s: Sim, txs: seq<BanknoteTx>, t: BanknoteTx, s': Sim, n: SimNote)
    requires Tidy(c, s) && Current(s, txs) && s.nextHash == n.hash < s'.nextHash
    requires t.kind.BG? && t.note == n.hash && t.amount == n.denomination && t.from == n.owner
    requires forall m :: Held(s', m) <==> Held(s, m) || m == n
    ensures Current(s', txs + [t])
  {
    NextHashTidy(c, s, 0);
    hide Held, Tidy;
    assert Produces(t, n.hash);
    NewHashUnseen(s, txs, n.hash);
    MirrorProduced(txs, t, n);
    assert Held(s', n);
    hide Current, Mirrored, Replayed;
    Append(s, txs, t, s');
  }

  /** A split line: the held note `n` is replaced by `n1` and `n2`, of new hashes. */
  lemma AppendSplit(c: Setup, s: Sim, txs: seq<BanknoteTx>, t: BanknoteTx, s': Sim, n: SimNote, n1: SimNote, n2: SimNote)
    requires Tidy(c, s) && Held(s, n) && Current(s, txs)
    requires s.nextHash <= n1.hash < s'.nextHash && s.nextHash <= n2.hash < s'.nextHash && n1.hash != n2.hash
    requires t.kind.BS? && t.note == n.hash && t.new1 == n1.hash && t.new2 == n2.hash
    requires t.amount1 == n1.denomination && t.amount2 == n2.denomination && t.from == n1.owner == t.to
    requires forall m :: Held(s', m) <==> (Held(s, m) && m != n) || m == n1 || m == n2
    ensures Current(s', txs + [t])
  {
    HeldFacts(c, s, n);
    NextHashTidy(c, s, 0);
    hide Held, Tidy, Current, Mirrored, Replayed, TouchedBy, Product;
    MirrorPieces(s, txs, t, n1, n2);
    SplitFollows(s, t, n, n1, n2);
    hide Follows, Produces, Uses, Touches, Consumes;
    assert Held(s', n1) && Held(s', n2);
    Append(s, txs, t, s');
  }

  lemma SplitFollows(s: Sim, t: BanknoteTx, n: SimNote, n1: SimNote, n2: SimNote)
    requires t.kind.BS? && t.note == n.hash && t.new1 == n1.hash && t.new2 == n2.hash && n1.hash != n2.hash
    requires s.nextHash <= n1.hash && s.nextHash <= n2.hash && n.hash < s.nextHash && HeldHash(s, n.hash)
    ensures Follows(s, t) && Produces(t, n1.hash) && Produces(t, n2.hash)
    ensures forall h: Hash :: Touches(t, h) <==> h == n.hash || h == n1.hash || h == n2.hash
    ensures forall h: Hash :: Consumes(t, h) <==> h == n.hash
  {
    hide HeldHash;
  }

  lemma MirrorPieces(s: Sim, txs: seq<BanknoteTx>, t: BanknoteTx, n1: SimNote, n2: SimNote)
    requires Current(s, txs) && s.nextHash <= n1.hash && s.nextHash <= n2.hash && n1.hash != n2.hash
    requires t.kind.BS? && t.note != n1.hash && t.note != n2.hash && t.new1 == n1.hash && t.new2 == n2.hash
    requires t.amount1 == n1.denomination && t.amount2 == n2.denomination && t.from == n1.owner == t.to
    ensures Mirrored(txs + [t], n1) && Mirrored(txs + [t], n2)
  {
    NewHashUnseen(s, txs, n1.hash);
    NewHashUnseen(s, txs, n2.hash);
    hide Current, Mirrored, TouchedBy;
    MirrorProduced(txs, t, n1);
    MirrorProduced(txs, t, n2);
  }

  function TransferRow(n: SimNote, b: Address): Row {
    Row(ZERO_ADDRESS, b, 2, n.hash, n.denomination, n.shard, n.turnover + 1, n.creator, 0, 0, 0, 0)
  }

  lemma TransferEntry(c: Setup, s: Sim, n: SimNote, b: Address)
    requires Tidy(c, s) && Held(s, n)
    ensures var s' := BanknoteTransfer(s, n, b);
      s'.log == s.log + [TransferRow(n, b)] && s'.nextHash == s.nextHash
  {
    RemoveHeld(c, s, n);
  }

  lemma CurrentTransfer(c: Setup, s: Sim, n: SimNote, b: Address, digest: Row -> Hash)
    requires Tidy(c, s) && Held(s, n) && Current(s, Batch(digest, s.log))
    ensures var s' := BanknoteTransfer(s, n, b); Current(s', Batch(digest, s'.log))
  {
    hide BanknoteTransfer, Held, Tidy, Current, Batch;
    var s' := BanknoteTransfer(s, n, b);
    TransferTidy(c, s, n, b);
    TransferEntry(c, s, n, b);
    BatchSnoc(digest, s.log, TransferRow(n, b));
    AppendTransfer(c, s, Batch(digest, s.log), TxOf(digest, TransferRow(n, b)), s', n, Moved(s, n, b));
  }

  lemma CurrentRecycle(c: Setup, s: Sim, n: SimNote, digest: Row -> Hash)
    requires Tidy(c, s) && Held(s, n) && Current(s, Batch(digest, s.log))
    ensures var s' := BanknoteRecycle(s, n); Current(s', Batch(digest, s'.log))
  {
    var s' := BanknoteRecycle(s, n);
    RecycleTidy(c, s, n);
    RemoveHeld(c, s, n);
    var r := Row(n.owner, n.owner, 4, n.hash, n.denomination, n.shard, n.turnover, n.creator, 0, 0, 0, 0);
    BatchSnoc(digest, s.log, r);
    hide Held, Tidy, Current, Batch;
    AppendRecycle(c, s, Batch(digest, s.log), TxOf(digest, r), s', n);
  }

  lemma CurrentNew(c: Setup, s: Sim, owner: Address, creator: Address, amount: int, digest: Row -> Hash)
    requires ValidSetup(c) && Tidy(c, s) && amount > 0 && Current(s, Batch(digest, s.log))
    ensures var s' := BanknoteNew(c, s, owner, creator, amount); Current(s', Batch(digest, s'.log))
  {
    var n, s' := MintNote(c, s, owner, creator, amount), BanknoteNew(c, s, owner, creator, amount);
    NewTidy(c, s, owner, creator, amount);
    var r := Row(owner, ZERO_ADDRESS, 1, n.hash, amount, n.shard, 0, creator, 0, 0, 0, 0);
    BatchSnoc(digest, s.log, r);
    hide Held, Tidy, Current, Batch;
    AppendNew(c, s, Batch(digest, s.log), TxOf(digest, r), s', n);
  }

  lemma CurrentSplit(c: Setup, s: Sim, n: SimNote, a: Address, b: Address, amountA: int, amountB: int, digest: Row -> Hash)
    requires Tidy(c, s) && Held(s, n) && n.owner == a && amountA > 0 && amountB > 0 && Current(s, Batch(digest, s.log))
    ensures var s' := BanknoteSplit(s, n, a, b, amountA, amountB); Current(s', Batch(digest, s'.log))
  {
    var s' := BanknoteSplit(s, n, a, b, amountA, amountB);
    var n1, n2 := Piece1(s, n, a, amountA), Piece2(s, n, b, amountB);
    SplitTidy(c, s, n, a, b, amountA, amountB);
    RemoveHeld(c, s, n);
    var r := Row(n.owner, n.owner, 3, n.hash, n.denomination, n.shard, n.turnover, n.creator, n1.hash, amountA, n2.hash, amountB);
    BatchSnoc(digest, s.log, r);
    hide Held, Tidy, Current, Batch;
    AppendSplit(c, s, Batch(digest, s.log), TxOf(digest, r), s', n, n1, n2);
  }

  // Whole transfers and blocks

  lemma {:induction false} GrantsLog(s: Sim, a: Address, k: nat)
    ensures Grants(s, a, k).log == s.log
  {
    if k > 0 { GrantsLog(s, a, k - 1); }
  }

  lemma CurrentInitialize(c: Setup, s: Sim, a: Address, digest: Row -> Hash)
    requires ValidSetup(c) && Tidy(c, s) && Current(s, Batch(digest, s.log))
    ensures var s' := InitializeAddress(c, s, a); Current(s', Batch(digest, s'.log))
  {
    hide Current, Batch;
    if a !in s.active {
      CurrentGrants(c, s, a, c.shards, Batch(digest, s.log));
      GrantsLog(s, a, c.shards);
    }
  }

  lemma OwnerListed(c: Setup, s: Sim, a: Address, i: nat)
    requires Tidy(c, s) && a in s.active && i < |s.active[a]|
    ensures s.active[a][i].owner == a
  {
  }

  lemma {:induction false} CurrentSpend(c: Setup, s: Sim, a: Address, b: Address, x: int, i: nat, accum: int, digest: Row -> Hash)
    requires Tidy(c, s) && a in s.active && b in s.active && Current(s, Batch(digest, s.log))
    ensures var s' := Spend(c, s, a, b, x, i, accum).0; Current(s', Batch(digest, s'.log))
    decreases |ListOf(s, a)| - i
  {
    hide Tidy, Current, Batch, BanknoteTransfer, BanknoteSplit;
    if i < |s.active[a]| && accum < x {
      var n := s.active[a][i];
      TransferTurn(c, s, a, i, b);
      OwnerListed(c, s, a, i);
      if accum + n.denomination <= x {
        CurrentTransfer(c, s, n, b, digest);
        if accum + n.denomination < x {
          CurrentSpend(c, BanknoteTransfer(s, n, b), a, b, x, i + 1, accum + n.denomination, digest);
        }
      } else {
        CurrentSplit(c, s, n, a, b, accum + n.denomination - x, x - accum, digest);
      }
    }
  }

  lemma CurrentPay(c: Setup, s: Sim, a: Address, b: Address, x: int, digest: Row -> Hash)
    requires ValidSetup(c) && Tidy(c, s) && a in s.active && b in s.active && Current(s, Batch(digest, s.log))
    ensures var s' := Pay(c, s, a, b, x); Current(s', Batch(digest, s'.log))
  {
    hide Tidy, Current, Batch, BanknoteTransfer, BanknoteNew, Spend;
    FindExactFirst(s.active[a], x);
    match FindExact(s.active[a], x)
    case Some(k) =>
      TransferTurn(c, s, a, k, b);
      CurrentTransfer(c, s, s.active[a][k], b, digest);
    case None =>
      CurrentSpend(c, s, a, b, x, 0, 0, digest);
      var (s1, accum) := Spend(c, s, a, b, x, 0, 0);
      if accum < x { CurrentNew(c, s1, b, a, x - accum, digest); }
  }

  lemma {:induction false} CurrentSweepOwner(c: Setup, s: Sim, a: Address, i: nat, digest: Row -> Hash)
    requires Tidy(c, s) && a in s.active && Current(s, Batch(digest, s.log))
    ensures var s' := SweepOwner(c, s, a, i); Current(s', Batch(digest, s'.log))
    decreases |ListOf(s, a)| - i
  {
    hide Tidy, Current, Batch, BanknoteRecycle;
    if i < |s.active[a]| {
      var n := s.active[a][i];
      if StaleAt(c, s.block, n) {
        RecycleTurn(c, s, a, i);
        CurrentRecycle(c, s, n, digest);
        CurrentSweepOwner(c, BanknoteRecycle(s, n), a, i + 1, digest);
      } else {
        CurrentSweepOwner(c, s, a, i + 1, digest);
      }
    }
  }

  lemma {:induction false} CurrentSweepFrom(c: Setup, s: Sim, k: nat, digest: Row -> Hash)
    requires Tidy(c, s) && Current(s, Batch(digest, s.log))
    ensures var s' := SweepFrom(c, s, k); Current(s', Batch(digest, s'.log))
    decreases |s.owners| - k
  {
    hide Current, Batch, SweepOwner;
    if k < |s.owners| {
      CurrentSweepOwner(c, s, s.owners[k], 0, digest);
      CurrentSweepFrom(c, SweepOwner(c, s, s.owners[k], 0), k + 1, digest);
    }
  }

  lemma CurrentStep(c: Setup, s: Sim, e: Event, digest: Row -> Hash)
    requires ValidSetup(c) && Tidy(c, s) && Current(s, Batch(digest, s.log))
    ensures var s' := Step(c, s, e); Current(s', Batch(digest, s'.log))
  {
    hide Tidy, Current, Batch, Pay, SweepFrom, InitializeAddress;
    match e
    case Transfer(a, b, x) =>
      CurrentInitialize(c, s, a, digest);
      InitializeTidy(c, s, a);
      CurrentInitialize(c, InitializeAddress(c, s, a), b, digest);
      CurrentPay(c, Seen(c, s, a, b), a, b, x, digest);
    case EndBlock =>
      CurrentSweepFrom(c, s, 0, digest);
      var s1 := if s.block % RECYCLE_INTERVAL == 0 then SweepFrom(c, s, 0) else s;
      CurrentSame(s1, s1.(block := s1.block + 1), Batch(digest, s1.log));
  }

  /** After every event of every run, the log respects the life cycle of its notes and mirrors the lists. */
  lemma {:induction false} CurrentRun(c: Setup, events: seq<Event>, digest: Row -> Hash)
    requires ValidSetup(c)
    ensures var s := Run(c, events); Current(s, Batch(digest, s.log))
  {
    hide Current, Tidy, Step;
    if events == [] {
      NothingLogged(digest);
    } else {
      CurrentRun(c, events[..|events| - 1], digest);
      CurrentStep(c, Run(c, events[..|events| - 1]), events[|events| - 1], digest);
    }
  }

  lemma NothingLogged(digest: Row -> Hash)
    ensures Current(EMPTY_SIM, Batch(digest, EMPTY_SIM.log))
  {
  }

  /** The active notes that appear in the log, as a replay of it must leave them. */
  ghost predicate ActiveInLog(s: Sim, txs: seq<BanknoteTx>, v: View) {
    && (forall h :: h in v ==> exists n :: Held(s, n) && n.hash == h && v[h].value == n.denomination)
    && (forall n :: Held(s, n) ==> (n.hash in v <==> TouchedBy(txs, n.hash)))
    && (forall n :: Held(s, n) && n.hash !in v ==> n.denomination == DEFAULT_BALANCE)
  }

  /** Forward simulation: after every event, replaying the log in order from an empty pool yields exactly the
      active notes that appear in it, at equal values; the others are untouched grants of the default balance. */
  lemma ForwardSimulation(c: Setup, events: seq<Event>, digest: Row -> Hash)
    requires ValidSetup(c)
    ensures var s := Run(c, events);
      var txs := Batch(digest, s.log);
      LifecycleRespecting(map[], txs) && ActiveInLog(s, txs, RunLog(map[], txs))
  {
    hide Run, Current;
    CurrentRun(c, events, digest);
    CurrentMeans(Run(c, events), Batch(digest, Run(c, events).log));
  }

  lemma CurrentMeans(s: Sim, txs: seq<BanknoteTx>)
    requires Current(s, txs)
    ensures LifecycleRespecting(map[], txs) && ActiveInLog(s, txs, RunLog(map[], txs))
  {
    hide Held, LifecycleRespecting, TouchedBy, RunLog;
    forall h: Hash | h in RunLog(map[], txs)
      ensures exists n :: Held(s, n) && n.hash == h && RunLog(map[], txs)[h].value == n.denomination
    {
      assert h in Replayed(txs) && HeldHash(s, h);
      var n :| Held(s, n) && n.hash == h;
      assert Mirrored(txs, n);
    }
    forall n | Held(s, n)
      ensures n.hash in RunLog(map[], txs) <==> TouchedBy(txs, n.hash)
      ensures n.hash !in RunLog(map[], txs) ==> n.denomination == DEFAULT_BALANCE
    {
      assert Mirrored(txs, n);
    }
  }

  /** The log tells the owners too: after every event, a held note that the replay leaves belongs there to its owner;
      only the second note of a split belongs to the payer until it is transferred. */
  lemma ForwardOwners(c: Setup, events: seq<Event>, digest: Row -> Hash, n: SimNote)
    requires ValidSetup(c) && Held(Run(c, events), n)
    ensures var txs := Batch(digest, Run(c, events).log);
      var v := RunLog(map[], txs);
      n.hash in v ==>
        if (exists t :: t in txs && t.kind.BS? && t.new2 == n.hash) && (forall t :: t in txs ==> !(t.kind.BT? && t.note == n.hash))
        then forall t :: t in txs && t.kind.BS? && t.new2 == n.hash ==> v[n.hash].owner == t.from
        else v[n.hash].owner == n.owner
  {
    hide Run, Current;
    var s := Run(c, events);
    var txs := Batch(digest, s.log);
    CurrentRun(c, events, digest);
    if n.hash in RunLog(map[], txs) { CurrentOwner(s, txs, n); }
    assert forall t: BanknoteTx :: Transfers(t, n.hash) <==> t.kind.BT? && t.note == n.hash;
    hide Held, Replayed, RunLog;
  }

  lemma CurrentOwner(s: Sim, txs: seq<BanknoteTx>, n: SimNote)
    requires Current(s, txs) && Held(s, n) && n.hash in RunLog(map[], txs)
    ensures OwnerShown(txs, n, RunLog(map[], txs)[n.hash].owner)
  {
    assert n.hash in Replayed(txs) && Mirrored(txs, n);
    hide OwnerShown, LooseSecond, RunLog;
  }
}
