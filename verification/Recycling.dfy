/** The recycle sweep: what it removes from each owner's list, and how many sweeps clear the stale notes. */
module Recycling {
  import opened BanknoteTypes
  import opened Arithmetic
  import opened Simulator

  /** What a sweep leaves of a list: each removal lets the next note escape. */
  function Swept(stale: SimNote -> bool, list: seq<SimNote>): seq<SimNote> {
    if list == [] then []
    else if !stale(list[0]) then [list[0]] + Swept(stale, list[1..])
    else if |list| == 1 then []
    else [list[1]] + Swept(stale, list[2..])
  }

  function Count(p: SimNote -> bool, list: seq<SimNote>): nat {
    if list == [] then 0 else (if p(list[0]) then 1 else 0) + Count(p, list[1..])
  }

  lemma {:induction false} CountCons(p: SimNote -> bool, list: seq<SimNote>)
    requires |list| > 1
    ensures Count(p, list) == (if p(list[0]) then 1 else 0) + (if p(list[1]) then 1 else 0) + Count(p, list[2..])
  {
    assert list[1..][0] == list[1] && list[1..][1..] == list[2..];
  }

  /** A sweep removes only stale notes, and leaves at most as many stale notes as it removes. */
  lemma {:induction false} SweptHalves(stale: SimNote -> bool, list: seq<SimNote>)
    ensures var left := Swept(stale, list);
      && Count(stale, left) <= Count(stale, list) - Count(stale, left)
      && |list| - |left| == Count(stale, list) - Count(stale, left)
      && (forall n :: n in left ==> n in list)
      && (forall n :: n in list && !stale(n) ==> n in left)
    decreases |list|
  {
    if list == [] {
    } else if !stale(list[0]) {
      SweptHalves(stale, list[1..]);
      assert list == [list[0]] + list[1..];
      CountHead(stale, list[0], Swept(stale, list[1..]));
    } else if |list| > 1 {
      SweptHalves(stale, list[2..]);
      CountCons(stale, list);
      assert list == [list[0], list[1]] + list[2..];
      CountHead(stale, list[1], Swept(stale, list[2..]));
    }
  }

  lemma CountHead(p: SimNote -> bool, n: SimNote, list: seq<SimNote>)
    ensures Count(p, [n] + list) == (if p(n) then 1 else 0) + Count(p, list)
  {
    assert ([n] + list)[1..] == list;
  }

  /** Of a list that is stale throughout, exactly half stays, rounded down. */
  lemma {:induction false} SweptAllStale(stale: SimNote -> bool, list: seq<SimNote>)
    requires forall n :: n in list ==> stale(n)
    ensures |Swept(stale, list)| == |list| / 2
    decreases |list|
  {
    if |list| > 1 {
      assert list[0] in list;
      assert forall n :: n in list[2..] ==> n in list;
      SweptAllStale(stale, list[2..]);
    } else if |list| == 1 {
      assert list[0] in list;
    }
  }

  function StaleTest(c: Setup, block: int): SimNote -> bool { n => StaleAt(c, block, n) }

  /** The index loop over the changing list leaves what `Swept` says, and touches no other list. */
  lemma {:induction false} SweepOwnerSwept(c: Setup, s: Sim, a: Address, kept: seq<SimNote>, rest: seq<SimNote>, i: nat)
    requires Tidy(c, s) && a in s.active && s.active[a] == kept + rest
    requires |kept| <= i && (rest != [] ==> i == |kept|)
    ensures SweepOwner(c, s, a, i).active == s.active[a := kept + Swept(StaleTest(c, s.block), rest)]
    decreases |rest|
  {
    hide Tidy, BanknoteRecycle;
    var stale := StaleTest(c, s.block);
    if rest == [] {
      assert kept + Swept(stale, rest) == s.active[a];
    } else {
      var n := s.active[a][i];
      assert n == rest[0];
      if StaleAt(c, s.block, n) {
        RecycleTurn(c, s, a, i);
        RecycleLists(c, s, a, i);
        var s1 := BanknoteRecycle(s, n);
        var kept1, rest1 := if |rest| == 1 then kept else kept + [rest[1]], if |rest| == 1 then [] else rest[2..];
        assert s.active[a][..i] + s.active[a][i + 1..] == kept1 + rest1;
        SweepOwnerSwept(c, s1, a, kept1, rest1, i + 1);
        assert kept1 + Swept(stale, rest1) == kept + Swept(stale, rest);
      } else {
        assert kept + rest == (kept + [rest[0]]) + rest[1..];
        SweepOwnerSwept(c, s, a, kept + [rest[0]], rest[1..], i + 1);
        assert (kept + [rest[0]]) + Swept(stale, rest[1..]) == kept + Swept(stale, rest);
      }
    }
  }

  /** A sweep of the owners from position `k` on leaves what `Swept` says of the list of each of them. */
  lemma {:induction false} SweepFromSwept(c: Setup, s: Sim, k: nat, j: nat)
    requires Tidy(c, s) && j < |s.owners| && s.owners[j] in s.active
    ensures var s' := SweepFrom(c, s, k);
      && s'.active.Keys == s.active.Keys
      && s'.active[s.owners[j]] == if j < k then s.active[s.owners[j]] else Swept(StaleTest(c, s.block), s.active[s.owners[j]])
    decreases |s.owners| - k
  {
    hide SweepOwner, Swept, Tidy;
    if k < |s.owners| {
      var a, stale := s.owners[k], StaleTest(c, s.block);
      OwnersListed(c, s, k, j);
      assert [] + s.active[a] == s.active[a];
      SweepOwnerSwept(c, s, a, [], s.active[a], 0);
      assert [] + Swept(stale, s.active[a]) == Swept(stale, s.active[a]);
      SweepFromSwept(c, SweepOwner(c, s, a, 0), k + 1, j);
    }
  }

  lemma OwnersListed(c: Setup, s: Sim, k: nat, j: nat)
    requires Tidy(c, s) && k < |s.owners| && j < |s.owners|
    ensures s.owners[k] in s.active && (s.owners[k] == s.owners[j] ==> k == j)
  {
  }

  lemma SweepFromNobody(c: Setup, s: Sim)
    requires Tidy(c, s) && s.owners == []
    ensures SweepFrom(c, s, 0).active == s.active
  {
  }

  /** At the end of a block whose number is a multiple of the interval every list is swept; at any other the
      lists stay as they are. */
  lemma FinalizeSweeps(c: Setup, s: Sim, a: Address)
    requires Tidy(c, s)
    ensures var s' := FinalizeBlock(c, s);
      && s'.block == s.block + 1 && s'.active.Keys == s.active.Keys
      && (a in s.active ==>
            s'.active[a] == (if s.block % RECYCLE_INTERVAL == 0 then Swept(StaleTest(c, s.block), s.active[a]) else s.active[a]))
  {
    hide SweepFrom;
    if s.owners == [] {
      SweepFromNobody(c, s);
    } else {
      assert s.owners[0] in s.active;
      SweepFromSwept(c, s, 0, 0);
    }
    if a in s.active {
      assert a in s.owners;
      var j :| 0 <= j < |s.owners| && s.owners[j] == a;
      SweepFromSwept(c, s, 0, j);
    }
  }

  // The sweep by positions

  /** The note at `i` goes when it has been idle for longer than the threshold and the one before it does not go. */
  predicate Goes(c: Setup, block: int, list: seq<SimNote>, i: nat)
    requires i < |list|
    decreases i
  {
    block - list[i].lastSeen > c.recycleLength && (i == 0 || !Goes(c, block, list, i - 1))
  }

  /** The notes before position `k` that do not go, in their order. */
  function Kept(c: Setup, block: int, list: seq<SimNote>, k: nat): (r: seq<SimNote>)
    requires k <= |list|
    ensures forall n :: n in r <==> exists i :: 0 <= i < k && list[i] == n && !Goes(c, block, list, i)
  {
    if k == 0 then []
    else Kept(c, block, list, k - 1) + if Goes(c, block, list, k - 1) then [] else [list[k - 1]]
  }

  /** A sweep of the rest of a list, from a position before which nothing has just gone. */
  lemma {:induction false} SweptByPosition(c: Setup, block: int, list: seq<SimNote>, k: nat)
    requires k <= |list| && (k == 0 || k == |list| || !Goes(c, block, list, k - 1))
    ensures Kept(c, block, list, k) + Swept(StaleTest(c, block), list[k..]) == Kept(c, block, list, |list|)
    decreases |list| - k
  {
    if k == |list| {
      assert Kept(c, block, list, k) + [] == Kept(c, block, list, k);
    } else {
      var piece, next := SweptTurn(c, block, list, k);
      hide *;
      SweptByPosition(c, block, list, next);
      Regroup(Kept(c, block, list, k), piece, Swept(StaleTest(c, block), list[next..]));
    }
  }

  lemma Regroup(x: seq<SimNote>, y: seq<SimNote>, z: seq<SimNote>)
    ensures x + (y + z) == (x + y) + z
  {
  }

  /** One turn of the sweep: the notes it keeps, and where it goes on. */
  lemma SweptTurn(c: Setup, block: int, list: seq<SimNote>, k: nat) returns (piece: seq<SimNote>, next: nat)
    requires k < |list| && (k == 0 || !Goes(c, block, list, k - 1))
    ensures k < next <= |list| && (next == |list| || !Goes(c, block, list, next - 1))
    ensures Swept(StaleTest(c, block), list[k..]) == piece + Swept(StaleTest(c, block), list[next..])
    ensures Kept(c, block, list, next) == Kept(c, block, list, k) + piece
  {
    var rest := list[k..];
    assert rest[0] == list[k] && rest[1..] == list[k + 1..];
    if !StaleTest(c, block)(list[k]) {
      piece, next := [list[k]], k + 1;
    } else if k + 1 == |list| {
      piece, next := [], k + 1;
    } else {
      assert rest[2..] == list[k + 2..] && rest[1] == list[k + 1];
      KeptTwo(c, block, list, k);
      piece, next := [list[k + 1]], k + 2;
    }
  }

  lemma KeptTwo(c: Setup, block: int, list: seq<SimNote>, k: nat)
    requires k + 1 < |list| && Goes(c, block, list, k)
    ensures !Goes(c, block, list, k + 1) && Kept(c, block, list, k + 2) == Kept(c, block, list, k) + [list[k + 1]]
  {
    assert Kept(c, block, list, k + 1) == Kept(c, block, list, k);
  }

  /** The end of a block, note by note: when the block number is a multiple of 1000, exactly the notes go that have
      been idle for longer than the threshold and stand at the front or after a note that stays; otherwise none. */
  lemma FinalizeExactly(c: Setup, s: Sim, a: Address)
    requires Tidy(c, s) && a in s.active
    ensures var list, s' := s.active[a], FinalizeBlock(c, s);
      && a in s'.active && s'.block == s.block + 1
      && s'.active[a] == (if s.block % 1000 == 0 then Kept(c, s.block, list, |list|) else list)
      && forall i :: 0 <= i < |list| ==> (list[i] in s'.active[a] <==> s.block % 1000 != 0 || !Goes(c, s.block, list, i))
  {
    var list := s.active[a];
    FinalizeSweeps(c, s, a);
    SweptByPosition(c, s.block, list, 0);
    assert list[0..] == list && Kept(c, s.block, list, 0) == [];
    forall i, j | 0 <= i < |list| && 0 <= j < |list| && list[i] == list[j] ensures i == j { OncePerList(c, s, a, i, j); }
  }

  lemma OncePerList(c: Setup, s: Sim, a: Address, i: nat, j: nat)
    requires Tidy(c, s) && a in s.active && i < |s.active[a]| && j < |s.active[a]| && s.active[a][i] == s.active[a][j]
    ensures i == j
  {
    assert NoDup(s.active[a]);
  }

  /** So a note last seen no more than the threshold ago stays, and one at the front of its list that has been idle
      for longer goes at a block whose number is a multiple of 1000. */
  lemma FreshStays(c: Setup, s: Sim, a: Address, i: nat)
    requires Tidy(c, s) && a in s.active && i < |s.active[a]|
    ensures var n, s' := s.active[a][i], FinalizeBlock(c, s);
      && a in s'.active
      && (s.block - n.lastSeen <= c.recycleLength ==> n in s'.active[a])
      && (i == 0 && s.block % 1000 == 0 && s.block - n.lastSeen > c.recycleLength ==> n !in s'.active[a])
  {
    FinalizeExactly(c, s, a);
  }

  // Sweeps with no other activity

  /** The simulator after `n` blocks without transfers. */
  function QuietBlocks(c: Setup, s: Sim, n: nat): (s': Sim)
    requires Tidy(c, s)
    ensures Tidy(c, s')
  {
    if n == 0 then s else FinalizeBlock(c, QuietBlocks(c, s, n - 1))
  }

  /** A note outlasts every block until it has been idle for longer than the threshold. */
  lemma {:induction false} QuietKeeps(c: Setup, s: Sim, k: nat, n: SimNote)
    requires Tidy(c, s) && Held(s, n) && (k > 0 ==> s.block + (k - 1) - n.lastSeen <= c.recycleLength)
    ensures var s' := QuietBlocks(c, s, k); s'.block == s.block + k && Held(s', n)
  {
    if k > 0 {
      hide FinalizeBlock, Tidy;
      QuietKeeps(c, s, k - 1, n);
      var s1 := QuietBlocks(c, s, k - 1);
      var i :| 0 <= i < |s1.active[n.owner]| && s1.active[n.owner][i] == n;
      FreshStays(c, s1, n.owner, i);
      FinalizeSweeps(c, s1, n.owner);
    }
  }

  /** One round sweeps each list once. */
  lemma {:induction false} QuietRound(c: Setup, s: Sim, n: nat, a: Address)
    requires Tidy(c, s) && s.block % RECYCLE_INTERVAL == 0 && 1 <= n <= RECYCLE_INTERVAL
    ensures var s' := QuietBlocks(c, s, n);
      && s'.block == s.block + n && s'.active.Keys == s.active.Keys
      && (a in s.active ==> s'.active[a] == Swept(StaleTest(c, s.block), s.active[a]))
  {
    hide FinalizeBlock, Tidy;
    if n > 1 { QuietRound(c, s, n - 1, a); }
    FinalizeSweeps(c, QuietBlocks(c, s, n - 1), a);
  }

  function QuietRounds(c: Setup, s: Sim, k: nat): (s': Sim)
    requires Tidy(c, s)
    ensures Tidy(c, s')
  {
    if k == 0 then s else QuietBlocks(c, QuietRounds(c, s, k - 1), RECYCLE_INTERVAL)
  }

  function Pow2(k: nat): (p: nat)
    ensures p > 0
  {
    if k == 0 then 1 else 2 * Pow2(k - 1)
  }

  lemma {:induction false} SweptSame(p: SimNote -> bool, q: SimNote -> bool, list: seq<SimNote>)
    requires forall n :: n in list ==> (p(n) <==> q(n))
    ensures Swept(p, list) == Swept(q, list)
    decreases |list|
  {
    if list != [] {
      assert list[0] in list;
      if p(list[0]) && |list| > 1 { SweptSame(p, q, list[2..]); } else { SweptSame(p, q, list[1..]); }
    }
  }

  lemma {:induction false} NoneLeft(p: SimNote -> bool, list: seq<SimNote>)
    requires Count(p, list) == 0
    ensures forall n :: n in list ==> !p(n)
  {
    if list != [] {
      NoneLeft(p, list[1..]);
      assert list == [list[0]] + list[1..];
    }
  }

  lemma Doubled(m: nat, k: nat)
    requires k > 0
    ensures m * Pow2(k) == (2 * m) * Pow2(k - 1)
  {
  }

  /** `k` rounds divide the stale notes of an owner by 2 to the `k`, and keep every other note, while no
      further note becomes stale. */
  lemma {:induction false} RoundsHalve(c: Setup, s: Sim, k: nat, a: Address, m: nat)
    requires Tidy(c, s) && s.block % RECYCLE_INTERVAL == 0 && a in s.active
    requires Count(StaleTest(c, s.block), s.active[a]) < m * Pow2(k)
    requires forall n :: n in s.active[a] && k > 0 && StaleAt(c, s.block + RECYCLE_INTERVAL * (k - 1), n) ==> StaleAt(c, s.block, n)
    ensures var s' := QuietRounds(c, s, k);
      && s'.block == s.block + RECYCLE_INTERVAL * k && a in s'.active
      && Count(StaleTest(c, s.block), s'.active[a]) < m
      && (forall n :: n in s'.active[a] ==> n in s.active[a])
      && (forall n :: n in s.active[a] && !StaleAt(c, s.block, n) ==> n in s'.active[a])
  {
    if k > 0 {
      hide Tidy, QuietBlocks, Count, Swept;
      Doubled(m, k);
      hide Pow2;
      RoundsHalve(c, s, k - 1, a, 2 * m);
      var s1 := QuietRounds(c, s, k - 1);
      var first, now := StaleTest(c, s.block), StaleTest(c, s1.block);
      QuietRound(c, s1, RECYCLE_INTERVAL, a);
      forall n | n in s1.active[a] ensures now(n) <==> first(n) { assert n in s.active[a]; }
      SweptSame(now, first, s1.active[a]);
      SweptHalves(first, s1.active[a]);
    }
  }

  /** So `k` rounds clear an owner's list of fewer than 2 to the `k` stale notes: for n of them that is the
      integer part of the binary logarithm of n, plus one. */
  lemma RoundsClear(c: Setup, s: Sim, k: nat, a: Address)
    requires Tidy(c, s) && s.block % RECYCLE_INTERVAL == 0 && a in s.active
    requires Count(StaleTest(c, s.block), s.active[a]) < Pow2(k)
    requires forall n :: n in s.active[a] && k > 0 && StaleAt(c, s.block + RECYCLE_INTERVAL * (k - 1), n) ==> StaleAt(c, s.block, n)
    ensures var s' := QuietRounds(c, s, k);
      && a in s'.active
      && forall n :: n in s'.active[a] <==> n in s.active[a] && !StaleAt(c, s.block, n)
  {
    hide QuietRounds;
    RoundsHalve(c, s, k, a, 1);
    NoneLeft(StaleTest(c, s.block), QuietRounds(c, s, k).active[a]);
    assert forall n :: StaleTest(c, s.block)(n) <==> StaleAt(c, s.block, n);
  }

  function Sweeps(stale: SimNote -> bool, list: seq<SimNote>, k: nat): seq<SimNote>
    decreases k
  {
    if k == 0 then list else Sweeps(stale, Swept(stale, list), k - 1)
  }

  /** The bound is reached: of a list that is stale throughout, `k` sweeps leave its length divided by 2 to the `k`. */
  lemma {:induction false} SweepsAllStale(stale: SimNote -> bool, list: seq<SimNote>, k: nat)
    requires forall n :: n in list ==> stale(n)
    ensures |Sweeps(stale, list, k)| == |list| / Pow2(k)
    decreases k
  {
    if k > 0 {
      SweptAllStale(stale, list);
      SweptHalves(stale, list);
      SweepsAllStale(stale, Swept(stale, list), k - 1);
      DivideTwice(|list|, Pow2(k - 1));
    }
  }

  lemma DivideTwice(n: nat, p: nat)
    requires p > 0
    ensures n / 2 / p == n / (2 * p)
  {
    var q := n / 2 / p;
    var r := n / 2 - q * p;
    assert 0 <= r < p;
    assert 2 * (q * p) == q * (2 * p);
    assert n == q * (2 * p) + (2 * r + n % 2);
    Quotient(n, 2 * p, q, 2 * r + n % 2);
  }
}
