/** The body of a block: how a batch is split by type and ledger, sorted, digested and counted, and how a
    peer gets a batch back from it. */
module BlockBody {
  import opened BanknoteTypes
  import opened Sequences

  // Partition

  predicate IsNormal(t: BanknoteTx) { t.kind.NT? }

  /** The transactions a ledger executes. */
  predicate RunsIn(ledgers: nat, l: nat, t: BanknoteTx)
    requires ledgers > 0
  {
    !t.kind.NT? && GetLedgerHashByID(ledgers, t.txHash) == l
  }

  /** The transactions of a ledger that enter the block: all but the recyclings. */
  predicate EntersIn(ledgers: nat, l: nat, t: BanknoteTx)
    requires ledgers > 0
  {
    RunsIn(ledgers, l, t) && !t.kind.BR?
  }

  predicate Enters(t: BanknoteTx) { !t.kind.NT? && !t.kind.BR? }

  function NormalTxs(batch: seq<BanknoteTx>): seq<BanknoteTx> { Filter(IsNormal, batch) }

  function ActionTxs(ledgers: nat, batch: seq<BanknoteTx>, l: nat): seq<BanknoteTx>
    requires ledgers > 0
  {
    Filter((t: BanknoteTx) => RunsIn(ledgers, l, t), batch)
  }

  function BlockTxs(ledgers: nat, batch: seq<BanknoteTx>, l: nat): seq<BanknoteTx>
    requires ledgers > 0
  {
    Filter((t: BanknoteTx) => EntersIn(ledgers, l, t), batch)
  }

  /** Splits the batch in one pass. */
  method Partition(ledgers: nat, batch: seq<BanknoteTx>)
    returns (normal: seq<BanknoteTx>, actions: seq<seq<BanknoteTx>>, entering: seq<seq<BanknoteTx>>)
    requires ledgers > 0
    ensures normal == NormalTxs(batch)
    ensures |actions| == ledgers && forall l :: 0 <= l < ledgers ==> actions[l] == ActionTxs(ledgers, batch, l)
    ensures |entering| == ledgers && forall l :: 0 <= l < ledgers ==> entering[l] == BlockTxs(ledgers, batch, l)
  {
    normal := [];
    actions := seq(ledgers, _ => []);
    entering := seq(ledgers, _ => []);
    for i := 0 to |batch|
      invariant normal == NormalTxs(batch[..i])
      invariant |actions| == ledgers && |entering| == ledgers
      invariant forall l :: 0 <= l < ledgers ==> actions[l] == ActionTxs(ledgers, batch[..i], l)
      invariant forall l :: 0 <= l < ledgers ==> entering[l] == BlockTxs(ledgers, batch[..i], l)
    {
      var tx := batch[i];
      assert batch[..i + 1][..i] == batch[..i];
      if tx.kind == NT {
        normal := normal + [tx];
      } else {
        var id := GetLedgerHashByID(ledgers, tx.txHash);
        actions := actions[id := actions[id] + [tx]];
        if tx.kind != BR {
          entering := entering[id := entering[id] + [tx]];
        }
      }
    }
    assert batch[..|batch|] == batch;
  }

  /** Each list of the partition holds exactly its transactions, each as often as the batch does: the NT
      transactions, those routed to a ledger that are not NT, and those of them that are not BR. */
  lemma PartitionCounts(ledgers: nat, batch: seq<BanknoteTx>, l: nat, t: BanknoteTx)
    requires ledgers > 0
    ensures multiset(NormalTxs(batch))[t] == if t.kind == NT then multiset(batch)[t] else 0
    ensures var here := GetLedgerHashByID(ledgers, t.txHash) == l;
      && multiset(ActionTxs(ledgers, batch, l))[t] == (if t.kind != NT && here then multiset(batch)[t] else 0)
      && multiset(BlockTxs(ledgers, batch, l))[t] == (if t.kind != NT && t.kind != BR && here then multiset(batch)[t] else 0)
  {
    FilterCount(IsNormal, batch, t);
    FilterCount((u: BanknoteTx) => RunsIn(ledgers, l, u), batch, t);
    FilterCount((u: BanknoteTx) => EntersIn(ledgers, l, u), batch, t);
  }

  // Sorting

  /** In descending order of transaction hash. */
  ghost predicate Sorted(txs: seq<BanknoteTx>) {
    forall i, j :: 0 <= i < j < |txs| ==> txs[i].txHash >= txs[j].txHash
  }

  ghost predicate IsSortOf(txs: seq<BanknoteTx>, sorted: seq<BanknoteTx>) {
    Sorted(sorted) && multiset(sorted) == multiset(txs)
  }

  /** Transactions with the same hash are the same transaction. */
  ghost predicate HashesTell(txs: seq<BanknoteTx>) {
    forall t, u :: t in txs && u in txs && t.txHash == u.txHash ==> t == u
  }

  predicate Less(txs: array<BanknoteTx>, i: nat, j: nat)
    requires i < txs.Length && j < txs.Length
    reads txs
  {
    txs[i].txHash > txs[j].txHash
  }

  method Swap(txs: array<BanknoteTx>, i: nat, j: nat)
    requires i < txs.Length && j < txs.Length
    modifies txs
    ensures txs[..] == old(txs[..])[i := old(txs[j])][j := old(txs[i])]
  {
    txs[i], txs[j] := txs[j], txs[i];
  }

  lemma SwapBag(s: seq<BanknoteTx>, i: nat, j: nat)
    requires i < j < |s|
    ensures multiset(s[i := s[j]][j := s[i]]) == multiset(s)
  {
    var t := s[i := s[j]];
    assert multiset(t) == multiset(s) - multiset{s[i]} + multiset{s[j]};
    assert multiset(t[j := s[i]]) == multiset(t) - multiset{t[j]} + multiset{s[i]};
  }

  /** Sorted up to `n`, but for the element at `j` that is moving forward. */
  ghost predicate SortedBut(s: seq<BanknoteTx>, n: nat, j: nat)
    requires j < n <= |s|
  {
    forall k, l :: 0 <= k < l < n && l != j ==> s[k].txHash >= s[l].txHash
  }

  /** One step of an element towards its place. */
  lemma SinkStep(s: seq<BanknoteTx>, n: nat, j: nat)
    requires 0 < j < n <= |s| && SortedBut(s, n, j) && s[j].txHash > s[j - 1].txHash
    ensures SortedBut(s[j - 1 := s[j]][j := s[j - 1]], n, j - 1)
  {
  }

  /** A new element joins the sorted ones at the end. */
  lemma StartSink(s: seq<BanknoteTx>, n: nat)
    requires n < |s| && Sorted(s[..n])
    ensures SortedBut(s, n + 1, n)
  {
    assert forall k :: 0 <= k < n ==> s[k] == s[..n][k];
  }

  /** One swap takes the element at `j` a step forward and only rearranges. */
  lemma SwapStep(before: seq<BanknoteTx>, after: seq<BanknoteTx>, n: nat, j: nat)
    requires 0 < j < n <= |before| && SortedBut(before, n, j) && before[j].txHash > before[j - 1].txHash
    requires after == before[j - 1 := before[j]][j := before[j - 1]]
    ensures SortedBut(after, n, j - 1) && SameBag(after, before)
  {
    SinkStep(before, n, j);
    SwapBag(before, j - 1, j);
  }

  ghost predicate SameBag(s: seq<BanknoteTx>, t: seq<BanknoteTx>) { |s| == |t| && multiset(s) == multiset(t) }

  /** Moves the element at `n` to its place among the sorted ones before it. */
  method Sink(txs: array<BanknoteTx>, n: nat)
    requires n < txs.Length && Sorted(txs[..n])
    modifies txs
    ensures Sorted(txs[..n + 1]) && SameBag(txs[..], old(txs[..]))
  {
    hide Sorted, SortedBut, SameBag;
    ghost var start := txs[..];
    var j := n;
    assert txs[..n] == start[..n];
    StartSink(start, n);
    SameBagRefl(start);
    while j > 0 && Less(txs, j, j - 1)
      invariant 0 <= j <= n
      invariant SortedBut(txs[..], n + 1, j) && SameBag(txs[..], start)
      decreases j
    {
      ghost var before := txs[..];
      Swap(txs, j - 1, j);
      SwapStep(before, txs[..], n + 1, j);
      SameBagTrans(txs[..], before, start);
      j := j - 1;
    }
    Settle(txs[..], n + 1, j);
    assert txs[..n + 1] == txs[..][..n + 1];
  }

  lemma SameBagRefl(s: seq<BanknoteTx>)
    ensures SameBag(s, s)
  {
  }

  lemma SameBagTrans(s: seq<BanknoteTx>, t: seq<BanknoteTx>, u: seq<BanknoteTx>)
    requires SameBag(s, t) && SameBag(t, u)
    ensures SameBag(s, u)
  {
  }

  /** Sorts in place by swapping neighbours that are out of order. */
  method SortBanknoteTxs(txs: array<BanknoteTx>)
    modifies txs
    ensures IsSortOf(old(txs[..]), txs[..])
    ensures forall i, j :: 0 <= i < j < txs.Length ==> txs[i].txHash >= txs[j].txHash
    ensures multiset(txs[..]) == multiset(old(txs[..]))
  {
    var n := 0;
    while n < txs.Length
      invariant 0 <= n <= txs.Length
      invariant Sorted(txs[..n])
      invariant multiset(txs[..]) == multiset(old(txs[..]))
    {
      Sink(txs, n);
      n := n + 1;
    }
    assert txs[..n] == txs[..];
  }

  lemma Settle(s: seq<BanknoteTx>, n: nat, j: nat)
    requires j < n <= |s| && SortedBut(s, n, j) && (j > 0 ==> s[j - 1].txHash >= s[j].txHash)
    ensures Sorted(s[..n])
  {
    forall k, l | 0 <= k < l < n ensures s[k].txHash >= s[l].txHash {
      if l == j && k < j - 1 { assert s[k].txHash >= s[j - 1].txHash; }
    }
  }

  lemma SortedHead(x: seq<BanknoteTx>, y: seq<BanknoteTx>)
    requires x != [] && y != [] && Sorted(x) && Sorted(y) && HashesTell(x)
    requires x[0] in y && y[0] in x
    ensures x[0] == y[0]
  {
    var i :| 0 <= i < |y| && y[i] == x[0];
    var j :| 0 <= j < |x| && x[j] == y[0];
    assert x[0].txHash >= x[j].txHash && y[0].txHash >= y[i].txHash;
  }

  lemma SortedTail(x: seq<BanknoteTx>)
    requires x != [] && Sorted(x)
    ensures Sorted(x[1..])
  {
  }

  lemma TellTail(x: seq<BanknoteTx>)
    requires x != [] && HashesTell(x)
    ensures HashesTell(x[1..])
  {
    assert forall t :: t in x[1..] ==> t in x;
  }

  lemma TailBag(x: seq<BanknoteTx>)
    requires x != []
    ensures multiset(x[1..]) == multiset(x) - multiset{x[0]}
  {
    assert x == [x[0]] + x[1..];
  }

  /** A multiset of transactions that their hashes tell apart has only one sorted order. */
  lemma {:induction false} SortUnique(x: seq<BanknoteTx>, y: seq<BanknoteTx>)
    requires multiset(x) == multiset(y) && Sorted(x) && Sorted(y) && HashesTell(x)
    ensures x == y
    decreases |x|
  {
    assert |multiset(x)| == |multiset(y)|;
    if x != [] {
      assert x[0] == y[0] by {
        assert x[0] in multiset(y) && y[0] in multiset(x);
        SortedHead(x, y);
      }
      assert multiset(x[1..]) == multiset(y[1..]) by {
        TailBag(x);
        TailBag(y);
      }
      SortedTail(x);
      SortedTail(y);
      TellTail(x);
      SortUnique(x[1..], y[1..]);
      assert x == [x[0]] + x[1..] && y == [y[0]] + y[1..];
    }
  }

  // The digest

  /** Bitwise exclusive or. */
  function Xor(a: nat, b: nat): nat
    decreases a
  {
    if a == 0 then b else if b == 0 then a else 2 * Xor(a / 2, b / 2) + (a % 2 + b % 2) % 2
  }

  lemma {:induction false} XorBits(a: nat, b: nat)
    ensures Xor(a, b) / 2 == Xor(a / 2, b / 2) && Xor(a, b) % 2 == (a % 2 + b % 2) % 2
  {
  }

  lemma {:induction false} XorCommutes(a: nat, b: nat)
    ensures Xor(a, b) == Xor(b, a)
    decreases a
  {
    if a != 0 && b != 0 { XorCommutes(a / 2, b / 2); }
  }

  lemma {:induction false} XorAssociates(a: nat, b: nat, c: nat)
    ensures Xor(Xor(a, b), c) == Xor(a, Xor(b, c))
    decreases a
  {
    if a != 0 {
      hide Xor;
      XorAssociates(a / 2, b / 2, c / 2);
      HighBits(a, b, c);
      LowBits(a, b, c);
      SameBits(Xor(Xor(a, b), c), Xor(a, Xor(b, c)));
    }
  }

  lemma HighBits(a: nat, b: nat, c: nat)
    ensures Xor(Xor(a, b), c) / 2 == Xor(Xor(a / 2, b / 2), c / 2) && Xor(a, Xor(b, c)) / 2 == Xor(a / 2, Xor(b / 2, c / 2))
  {
    hide Xor;
    XorBits(a, b);
    XorBits(b, c);
    XorBits(Xor(a, b), c);
    XorBits(a, Xor(b, c));
  }

  lemma LowBits(a: nat, b: nat, c: nat)
    ensures Xor(Xor(a, b), c) % 2 == Xor(a, Xor(b, c)) % 2
  {
    hide Xor;
    XorBits(a, b);
    XorBits(b, c);
    XorBits(Xor(a, b), c);
    XorBits(a, Xor(b, c));
    ParityAssociates(a % 2, b % 2, c % 2);
  }

  lemma ParityAssociates(x: nat, y: nat, z: nat)
    requires x < 2 && y < 2 && z < 2
    ensures ((x + y) % 2 + z) % 2 == (x + (y + z) % 2) % 2
  {
  }

  lemma SameBits(u: nat, v: nat)
    requires u / 2 == v / 2 && u % 2 == v % 2
    ensures u == v
  {
  }

  /** The exclusive or of the transaction hashes. */
  function XorAll(txs: seq<BanknoteTx>): nat {
    if txs == [] then 0 else Xor(XorAll(txs[..|txs| - 1]), txs[|txs| - 1].txHash)
  }

  lemma {:induction false} XorAllAppend(s: seq<BanknoteTx>, t: seq<BanknoteTx>)
    ensures XorAll(s + t) == Xor(XorAll(s), XorAll(t))
  {
    if t == [] {
      assert s + t == s;
      XorCommutes(XorAll(s), 0);
    } else {
      assert (s + t)[..|s + t| - 1] == s + t[..|t| - 1];
      XorAllAppend(s, t[..|t| - 1]);
      XorAssociates(XorAll(s), XorAll(t[..|t| - 1]), t[|t| - 1].txHash);
    }
  }

  lemma {:induction false} XorAllBag(s: seq<BanknoteTx>, t: seq<BanknoteTx>)
    requires multiset(s) == multiset(t)
    ensures XorAll(s) == XorAll(t)
    decreases |s|
  {
    if s == [] {
      assert |multiset(t)| == 0;
    } else {
      var front, last := s[..|s| - 1], s[|s| - 1];
      var i := TakeLast(s, t);
      var a, b := t[..i], t[i + 1..];
      XorAllBag(front, a + b);
      XorAllWithout(a, last, b);
    }
  }

  lemma XorAllWithout(a: seq<BanknoteTx>, t: BanknoteTx, b: seq<BanknoteTx>)
    ensures XorAll(a + [t] + b) == Xor(XorAll(a + b), t.txHash)
  {
    XorAllOne(t);
    hide XorAll, Xor;
    XorAllAppend(a, b);
    XorAllAppend(a + [t], b);
    XorAllAppend(a, [t]);
    XorAssociates(XorAll(a), XorAll(b), t.txHash);
    XorAssociates(XorAll(a), t.txHash, XorAll(b));
    XorCommutes(XorAll(b), t.txHash);
  }

  lemma XorAllOne(t: BanknoteTx)
    ensures XorAll([t]) == t.txHash
  {
    assert [t][..0] == [];
    XorCommutes(0, t.txHash);
  }

  /** The digest input: the exclusive or over the ledgers of the exclusive or of each ledger's hashes. */
  function DigestInput(parts: seq<seq<BanknoteTx>>): nat {
    if parts == [] then 0 else Xor(DigestInput(parts[..|parts| - 1]), XorAll(parts[|parts| - 1]))
  }

  method XorDigest(parts: seq<seq<BanknoteTx>>) returns (sum: nat)
    ensures sum == DigestInput(parts)
  {
    sum := 0;
    for l := 0 to |parts|
      invariant sum == DigestInput(parts[..l])
    {
      var part := 0;
      for i := 0 to |parts[l]|
        invariant part == XorAll(parts[l][..i])
      {
        assert parts[l][..i + 1][..i] == parts[l][..i];
        part := Xor(part, parts[l][i].txHash);
      }
      assert parts[l][..|parts[l]|] == parts[l];
      assert parts[..l + 1][..l] == parts[..l];
      sum := Xor(sum, part);
    }
    assert parts[..|parts|] == parts;
  }

  /** Bit number `k` of a hash. */
  predicate Bit(x: nat, k: nat)
    decreases k
  {
    if k == 0 then x % 2 == 1 else Bit(x / 2, k - 1)
  }

  lemma {:induction false} XorBit(a: nat, b: nat, k: nat)
    ensures Bit(Xor(a, b), k) <==> Bit(a, k) != Bit(b, k)
    decreases k
  {
    hide Xor;
    XorBits(a, b);
    if k > 0 { XorBit(a / 2, b / 2, k - 1); }
  }

  /** Bit for bit: a bit of the digest input is set exactly when an odd number of the transaction hashes in the
      block have it set. */
  lemma DigestBit(parts: seq<seq<BanknoteTx>>, k: nat)
    ensures Bit(DigestInput(parts), k) <==> SumBy((t: BanknoteTx) => if Bit(t.txHash, k) then 1 else 0, Concat(parts)) % 2 == 1
  {
    DigestConcat(parts);
    XorAllBit(Concat(parts), k);
  }

  lemma {:induction false} XorAllBit(txs: seq<BanknoteTx>, k: nat)
    ensures Bit(XorAll(txs), k) <==> SumBy((t: BanknoteTx) => if Bit(t.txHash, k) then 1 else 0, txs) % 2 == 1
  {
    hide Xor, Bit;
    if txs == [] {
      NoBit(k);
    } else {
      var front, t := txs[..|txs| - 1], txs[|txs| - 1];
      XorAllBit(front, k);
      XorBit(XorAll(front), t.txHash, k);
    }
  }

  lemma {:induction false} NoBit(k: nat)
    ensures !Bit(0, k)
    decreases k
  {
    if k > 0 { NoBit(k - 1); }
  }

  // The block and the batch a peer rebuilds from it

  function Concat(parts: seq<seq<BanknoteTx>>): seq<BanknoteTx> {
    if parts == [] then [] else Concat(parts[..|parts| - 1]) + parts[|parts| - 1]
  }

  datatype BlockBody = BlockBody(cLedger: seq<BanknoteTx>, pLedgers: seq<seq<BanknoteTx>>)

  /** A block body for a batch: the normal transactions in batch order, and each ledger's transactions sorted. */
  ghost predicate IsBodyOf(ledgers: nat, batch: seq<BanknoteTx>, body: BlockBody)
    requires ledgers > 0
  {
    && body.cLedger == NormalTxs(batch)
    && |body.pLedgers| == ledgers
    && forall l :: 0 <= l < ledgers ==> IsSortOf(BlockTxs(ledgers, batch, l), body.pLedgers[l])
  }

  /** The batch a peer replays. */
  function PeerBatch(body: BlockBody): seq<BanknoteTx> { body.cLedger + Concat(body.pLedgers) }

  method RebuildBatch(body: BlockBody) returns (batch: seq<BanknoteTx>)
    ensures batch == PeerBatch(body)
  {
    batch := [];
    for i := 0 to |body.cLedger|
      invariant batch == body.cLedger[..i]
    {
      batch := batch + [body.cLedger[i]];
    }
    for l := 0 to |body.pLedgers|
      invariant batch == body.cLedger + Concat(body.pLedgers[..l])
    {
      assert body.pLedgers[..l + 1][..l] == body.pLedgers[..l];
      batch := batch + body.pLedgers[l];
    }
    assert body.pLedgers[..|body.pLedgers|] == body.pLedgers;
  }

  /** Where the transactions of a block stand in the rebuilt batch: the normal ones first, then ledger by ledger. */
  lemma {:induction false} PeerOrder(body: BlockBody, l: nat, i: nat)
    requires l < |body.pLedgers| && i < |body.pLedgers[l]|
    ensures var before := |body.cLedger| + SumBy((part: seq<BanknoteTx>) => |part|, body.pLedgers[..l]);
      && 0 <= before + i < |PeerBatch(body)| && PeerBatch(body)[before + i] == body.pLedgers[l][i]
      && PeerBatch(body)[..|body.cLedger|] == body.cLedger
  {
    ConcatAt(body.pLedgers, |body.pLedgers|, l, i);
    assert body.pLedgers[..|body.pLedgers|] == body.pLedgers;
  }

  lemma {:induction false} ConcatAt(parts: seq<seq<BanknoteTx>>, n: nat, l: nat, i: nat)
    requires l < n <= |parts| && i < |parts[l]|
    ensures |Concat(parts[..l])| == SumBy((part: seq<BanknoteTx>) => |part|, parts[..l])
    ensures |Concat(parts[..l])| + i < |Concat(parts[..n])| && Concat(parts[..n])[|Concat(parts[..l])| + i] == parts[l][i]
  {
    ConcatLength(parts[..l]);
    ConcatLast(parts, n);
    if l < n - 1 { ConcatAt(parts, n - 1, l, i); }
  }

  lemma {:induction false} ConcatLength(parts: seq<seq<BanknoteTx>>)
    ensures |Concat(parts)| == SumBy((part: seq<BanknoteTx>) => |part|, parts)
  {
    if parts != [] { ConcatLength(parts[..|parts| - 1]); }
  }

  /** BanknoteTxCount, accumulated ledger by ledger. */
  method CountTxs(body: BlockBody) returns (count: nat)
    ensures count == |PeerBatch(body)|
  {
    count := |body.cLedger|;
    for l := 0 to |body.pLedgers|
      invariant count == |body.cLedger| + |Concat(body.pLedgers[..l])|
    {
      assert body.pLedgers[..l + 1][..l] == body.pLedgers[..l];
      count := count + |body.pLedgers[l]|;
    }
    assert body.pLedgers[..|body.pLedgers|] == body.pLedgers;
  }

  /** How often a transaction occurs in the first `k` ledgers of a body. */
  lemma {:induction false} ConcatCount(ledgers: nat, batch: seq<BanknoteTx>, body: BlockBody, k: nat, t: BanknoteTx)
    requires ledgers > 0 && IsBodyOf(ledgers, batch, body) && k <= ledgers
    ensures multiset(Concat(body.pLedgers[..k]))[t] ==
            if Enters(t) && GetLedgerHashByID(ledgers, t.txHash) < k then multiset(batch)[t] else 0
  {
    if k > 0 {
      ConcatCount(ledgers, batch, body, k - 1, t);
      assert body.pLedgers[..k][..k - 1] == body.pLedgers[..k - 1];
      assert IsSortOf(BlockTxs(ledgers, batch, k - 1), body.pLedgers[k - 1]);
      FilterCount((u: BanknoteTx) => EntersIn(ledgers, k - 1, u), batch, t);
    }
  }

  /** The body holds each entering transaction of the batch as often as the batch does, and nothing else. */
  lemma BodyBag(ledgers: nat, batch: seq<BanknoteTx>, body: BlockBody)
    requires ledgers > 0 && IsBodyOf(ledgers, batch, body)
    ensures multiset(Concat(body.pLedgers)) == multiset(Filter(Enters, batch))
  {
    assert body.pLedgers[..ledgers] == body.pLedgers;
    forall t ensures multiset(Concat(body.pLedgers))[t] == multiset(Filter(Enters, batch))[t] {
      ConcatCount(ledgers, batch, body, ledgers, t);
      FilterCount(Enters, batch, t);
    }
  }

  /** The digest input is the exclusive or over the whole body. */
  lemma {:induction false} DigestConcat(parts: seq<seq<BanknoteTx>>)
    ensures DigestInput(parts) == XorAll(Concat(parts))
  {
    if parts != [] {
      DigestConcat(parts[..|parts| - 1]);
      XorAllAppend(Concat(parts[..|parts| - 1]), parts[|parts| - 1]);
    }
  }

  /** The body is canonical: batches with the same entering transactions, in whatever order, get the same
      ledger parts and the same digest input. */
  lemma BodyCanonical(ledgers: nat, batch1: seq<BanknoteTx>, batch2: seq<BanknoteTx>, body1: BlockBody, body2: BlockBody)
    requires ledgers > 0 && IsBodyOf(ledgers, batch1, body1) && IsBodyOf(ledgers, batch2, body2)
    requires multiset(Filter(Enters, batch1)) == multiset(Filter(Enters, batch2))
    requires HashesTell(Filter(Enters, batch1))
    ensures body1.pLedgers == body2.pLedgers
    ensures DigestInput(body1.pLedgers) == DigestInput(body2.pLedgers)
  {
    forall l | 0 <= l < ledgers ensures body1.pLedgers[l] == body2.pLedgers[l] {
      var p := (t: BanknoteTx) => EntersIn(ledgers, l, t);
      forall t ensures multiset(body1.pLedgers[l])[t] == multiset(body2.pLedgers[l])[t] {
        FilterCount(p, batch1, t);
        FilterCount(p, batch2, t);
        FilterCount(Enters, batch1, t);
        FilterCount(Enters, batch2, t);
      }
      assert multiset(body1.pLedgers[l]) == multiset(body2.pLedgers[l]);
      PartMembers(ledgers, batch1, body1, l);
      SortUnique(body1.pLedgers[l], body2.pLedgers[l]);
    }
  }

  /** All transactions of one part of a body enter the block and belong to that part's ledger. */
  lemma PartMembers(ledgers: nat, batch: seq<BanknoteTx>, body: BlockBody, l: nat)
    requires ledgers > 0 && IsBodyOf(ledgers, batch, body) && l < ledgers
    ensures forall t :: t in body.pLedgers[l] ==> t in Filter(Enters, batch) && GetLedgerHashByID(ledgers, t.txHash) == l
  {
    assert IsSortOf(BlockTxs(ledgers, batch, l), body.pLedgers[l]);
    SameMembers(BlockTxs(ledgers, batch, l), body.pLedgers[l]);
  }

  /** The transactions of ledger `l` in the concatenation of the parts of a body. */
  lemma ConcatPart(ledgers: nat, batch: seq<BanknoteTx>, body: BlockBody, l: nat, p: BanknoteTx -> bool)
    requires ledgers > 0 && IsBodyOf(ledgers, batch, body) && l < ledgers
    requires forall t :: Enters(t) ==> (p(t) <==> GetLedgerHashByID(ledgers, t.txHash) == l)
    ensures Filter(p, Concat(body.pLedgers)) == body.pLedgers[l]
  {
    forall k | 0 <= k < ledgers ensures Filter(p, body.pLedgers[k]) == if k == l then body.pLedgers[k] else [] {
      FilteredPart(ledgers, batch, body, k, l, p);
    }
    PickPart(body.pLedgers, ledgers, l, p);
    assert body.pLedgers[..ledgers] == body.pLedgers;
  }

  /** A predicate that keeps one part and drops the others picks that part out of their concatenation. */
  lemma {:induction false} PickPart(parts: seq<seq<BanknoteTx>>, n: nat, l: nat, p: BanknoteTx -> bool)
    requires n <= |parts| && l < |parts|
    requires forall k :: 0 <= k < |parts| ==> Filter(p, parts[k]) == if k == l then parts[k] else []
    ensures Filter(p, Concat(parts[..n])) == if l < n then parts[l] else []
  {
    if n == 0 {
      assert parts[..0] == [];
    } else {
      PickPart(parts, n - 1, l, p);
      ConcatLast(parts, n);
      PickNext(p, Concat(parts[..n - 1]), parts[n - 1], if l < n - 1 then parts[l] else [], l == n - 1);
    }
  }

  lemma PickNext(p: BanknoteTx -> bool, front: seq<BanknoteTx>, part: seq<BanknoteTx>, picked: seq<BanknoteTx>, here: bool)
    requires Filter(p, front) == picked && Filter(p, part) == if here then part else []
    ensures Filter(p, front + part) == picked + if here then part else []
  {
    FilterAppend(p, front, part);
  }

  lemma ConcatLast(parts: seq<seq<BanknoteTx>>, n: nat)
    requires 0 < n <= |parts|
    ensures Concat(parts[..n]) == Concat(parts[..n - 1]) + parts[n - 1]
  {
    assert parts[..n][..n - 1] == parts[..n - 1];
  }

  lemma FilteredPart(ledgers: nat, batch: seq<BanknoteTx>, body: BlockBody, k: nat, l: nat, p: BanknoteTx -> bool)
    requires ledgers > 0 && IsBodyOf(ledgers, batch, body) && k < ledgers
    requires forall t :: Enters(t) ==> (p(t) <==> GetLedgerHashByID(ledgers, t.txHash) == l)
    ensures Filter(p, body.pLedgers[k]) == if k == l then body.pLedgers[k] else []
  {
    PartMembers(ledgers, batch, body, k);
    if k == l { FilterAll(p, body.pLedgers[k]); } else { FilterNone(p, body.pLedgers[k]); }
  }

  /** Partitioning the rebuilt batch gives back the body, part by part and in the body's order. */
  lemma PeerPartition(ledgers: nat, batch: seq<BanknoteTx>, body: BlockBody, l: nat)
    requires ledgers > 0 && IsBodyOf(ledgers, batch, body) && l < ledgers
    ensures NormalTxs(PeerBatch(body)) == body.cLedger
    ensures ActionTxs(ledgers, PeerBatch(body), l) == body.pLedgers[l]
    ensures BlockTxs(ledgers, PeerBatch(body), l) == body.pLedgers[l]
  {
    var rest := Concat(body.pLedgers);
    assert body.pLedgers[..ledgers] == body.pLedgers;
    BodyBag(ledgers, batch, body);
    SameMembers(rest, Filter(Enters, batch));
    FilterAppend(IsNormal, body.cLedger, rest);
    FilterAll(IsNormal, body.cLedger);
    FilterNone(IsNormal, rest);
    var p := (t: BanknoteTx) => RunsIn(ledgers, l, t);
    FilterAppend(p, body.cLedger, rest);
    FilterNone(p, body.cLedger);
    ConcatPart(ledgers, batch, body, l, p);
    var q := (t: BanknoteTx) => EntersIn(ledgers, l, t);
    FilterAppend(q, body.cLedger, rest);
    FilterNone(q, body.cLedger);
    ConcatPart(ledgers, batch, body, l, q);
  }

  /** The body reproduces itself: a peer that partitions and sorts the rebuilt batch gets the same body, and
      the same digest input. */
  lemma BodyReproduced(ledgers: nat, batch: seq<BanknoteTx>, body: BlockBody, again: BlockBody)
    requires ledgers > 0 && IsBodyOf(ledgers, batch, body) && HashesTell(Filter(Enters, batch))
    requires IsBodyOf(ledgers, PeerBatch(body), again)
    ensures again == body && DigestInput(again.pLedgers) == DigestInput(body.pLedgers)
  {
    PeerPartition(ledgers, batch, body, 0);
    forall l | 0 <= l < ledgers ensures again.pLedgers[l] == body.pLedgers[l] {
      PeerPartition(ledgers, batch, body, l);
      assert IsSortOf(BlockTxs(ledgers, batch, l), body.pLedgers[l]);
      PartMembers(ledgers, batch, body, l);
      assert IsSortOf(BlockTxs(ledgers, PeerBatch(body), l), again.pLedgers[l]);
      SortUnique(body.pLedgers[l], again.pLedgers[l]);
    }
  }

  /** BanknoteTxCount and the recyclings that are left out of the block make up the batch. */
  lemma CountPlusRecycled(ledgers: nat, batch: seq<BanknoteTx>, body: BlockBody)
    requires ledgers > 0 && IsBodyOf(ledgers, batch, body)
    ensures |PeerBatch(body)| + |Filter((t: BanknoteTx) => t.kind.BR?, batch)| == |batch|
  {
    BodyBag(ledgers, batch, body);
    assert |multiset(Concat(body.pLedgers))| == |multiset(Filter(Enters, batch))|;
    ThreeKinds(batch);
  }

  lemma {:induction false} ThreeKinds(batch: seq<BanknoteTx>)
    ensures |Filter(IsNormal, batch)| + |Filter(Enters, batch)| + |Filter((t: BanknoteTx) => t.kind.BR?, batch)| == |batch|
  {
    if batch != [] { ThreeKinds(batch[..|batch| - 1]); }
  }
}
