/** The circulation simulator: owner lists of notes, the events that change them, and the log of those events.
    A note is a value here; a list position is an index into the list as it is at that moment. */
module Simulator {
  import opened BanknoteTypes

  const DEFAULT_BALANCE: int := 100000000

  const RECYCLE_INTERVAL: int := 1000

  datatype SimNote = SimNote(
    denomination: int, owner: Address, hash: Hash, shard: int, lastSeen: int, turnover: int, creator: Address)

  /** One line of the transaction log; a blank address is the zero address, a blank hash or value is 0. */
  datatype Row = Row(
    sender: Address, recipient: Address, kind: int, hash: Hash, value: int, shard: int, turnover: int, creator: Address,
    new1Hash: Hash, new1Value: int, new2Hash: Hash, new2Value: int)

  /** The command-line settings, and the shard drawn at random for each minted note. */
  datatype Setup = Setup(shards: int, recycleLength: int, pick: Hash -> int)

  ghost predicate ValidSetup(c: Setup) { c.shards > 0 && forall h :: 0 <= c.pick(h) < c.shards }

  /** The global state. `owners` is the insertion order of the keys of `active`; `errors` counts the
      complaints of a removal that did not find its note; `nextHash` is the next random hash. */
  datatype Sim = Sim(
    owners: seq<Address>, active: map<Address, seq<SimNote>>, count: int, block: int,
    news: int, transfers: int, splits: int, recycles: int, errors: int, log: seq<Row>, nextHash: Hash)

  const EMPTY_SIM := Sim([], map[], 0, 0, 0, 0, 0, 0, 0, [], 0)

  function ListOf(s: Sim, a: Address): seq<SimNote> { if a in s.active then s.active[a] else [] }

  // Owner lists

  function RemoveFirst<T(==)>(list: seq<T>, x: T): seq<T> {
    if list == [] then [] else if list[0] == x then list[1..] else [list[0]] + RemoveFirst(list[1..], x)
  }

  function RemoveNote(s: Sim, n: SimNote): Sim {
    if n.owner !in s.active then s
    else
      var s1 := if s.active[n.owner] == [] then
                  s.(active := s.active - {n.owner}, owners := RemoveFirst(s.owners, n.owner))
                else s;
      if n.owner in s1.active && n in s1.active[n.owner] then
        s1.(active := s1.active[n.owner := RemoveFirst(s1.active[n.owner], n)], count := s1.count - 1)
      else
        s1.(errors := s1.errors + 1)
  }

  function AddNote(s: Sim, n: SimNote): Sim {
    s.(owners := if n.owner in s.active then s.owners else s.owners + [n.owner],
       active := s.active[n.owner := ListOf(s, n.owner) + [n]],
       count := s.count + 1)
  }

  // Events of one note

  /** The note that `a` is granted for `shard` when it is first seen. */
  function GrantNote(s: Sim, a: Address, shard: int): SimNote {
    SimNote(DEFAULT_BALANCE, a, s.nextHash, shard, s.block, 0, a)
  }

  function Grants(s: Sim, a: Address, k: nat): Sim
    decreases k
  {
    if k == 0 then s.(owners := s.owners + [a], active := s.active[a := []])
    else
      var s1 := Grants(s, a, k - 1);
      AddNote(s1, GrantNote(s1, a, k - 1)).(nextHash := s1.nextHash + 1)
  }

  function InitializeAddress(c: Setup, s: Sim, a: Address): Sim {
    if a in s.active then s else Grants(s, a, if c.shards > 0 then c.shards else 0)
  }

  function MintNote(c: Setup, s: Sim, owner: Address, creator: Address, amount: int): SimNote {
    SimNote(amount, owner, s.nextHash, c.pick(s.nextHash), s.block, 0, creator)
  }

  function BanknoteNew(c: Setup, s: Sim, owner: Address, creator: Address, amount: int): Sim {
    var n := MintNote(c, s, owner, creator, amount);
    var s1 := AddNote(s, n);
    s1.(news := s1.news + 1, nextHash := s1.nextHash + 1,
        log := s1.log + [Row(owner, ZERO_ADDRESS, 1, n.hash, amount, n.shard, 0, creator, 0, 0, 0, 0)])
  }

  function Moved(s: Sim, n: SimNote, newOwner: Address): SimNote {
    n.(owner := newOwner, turnover := n.turnover + 1, lastSeen := s.block)
  }

  function BanknoteTransfer(s: Sim, n: SimNote, newOwner: Address): Sim {
    var s1 := AddNote(RemoveNote(s, n), Moved(s, n, newOwner));
    s1.(transfers := s1.transfers + 1,
        log := s1.log + [Row(ZERO_ADDRESS, newOwner, 2, n.hash, n.denomination, n.shard, n.turnover + 1, n.creator, 0, 0, 0, 0)])
  }

  function BanknoteRecycle(s: Sim, n: SimNote): Sim {
    var s1 := RemoveNote(s, n);
    s1.(recycles := s1.recycles + 1,
        log := s1.log + [Row(n.owner, n.owner, 4, n.hash, n.denomination, n.shard, n.turnover, n.creator, 0, 0, 0, 0)])
  }

  /** The two notes a split makes, the one for `a` first. */
  function Piece1(s: Sim, n: SimNote, a: Address, amountA: int): SimNote {
    SimNote(amountA, a, s.nextHash, n.shard, s.block, n.turnover, n.creator)
  }

  function Piece2(s: Sim, n: SimNote, b: Address, amountB: int): SimNote {
    SimNote(amountB, b, s.nextHash + 1, n.shard, s.block, n.turnover, n.creator)
  }

  function BanknoteSplit(s: Sim, n: SimNote, a: Address, b: Address, amountA: int, amountB: int): Sim {
    var bn1, bn2 := Piece1(s, n, a, amountA), Piece2(s, n, b, amountB);
    var s1 := AddNote(AddNote(RemoveNote(s, n), bn1), bn2);
    s1.(splits := s1.splits + 1, nextHash := s1.nextHash + 2,
        log := s1.log + [Row(n.owner, n.owner, 3, n.hash, n.denomination, n.shard, n.turnover, n.creator,
                             bn1.hash, amountA, bn2.hash, amountB)])
  }

  // What every reachable state satisfies

  predicate NoDup<T(==)>(list: seq<T>) { forall i, j :: 0 <= i < j < |list| ==> list[i] != list[j] }

  /** `n` sits in the list of its owner. */
  predicate Held(s: Sim, n: SimNote) { n.owner in s.active && n in s.active[n.owner] }

  predicate Sane(c: Setup, s: Sim, n: SimNote) {
    n.denomination > 0 && 0 <= n.shard < c.shards && n.hash < s.nextHash && n.lastSeen <= s.block
  }

  ghost predicate UniqueHash(s: Sim, n: SimNote) { forall m :: Held(s, m) && m.hash == n.hash ==> m == n }

  predicate OwnLists(s: Sim) {
    forall a :: a in s.active ==> NoDup(s.active[a]) && forall n :: n in s.active[a] ==> n.owner == a
  }

  ghost predicate Tidy(c: Setup, s: Sim) {
    && (forall a :: a in s.owners <==> a in s.active) && NoDup(s.owners)
    && OwnLists(s)
    && (forall n :: Held(s, n) ==> Sane(c, s, n) && UniqueHash(s, n))
    && s.errors == 0 && s.block >= 0
  }

  lemma {:induction false} RemoveFirstAt<T>(list: seq<T>, k: nat)
    requires NoDup(list) && k < |list|
    ensures RemoveFirst(list, list[k]) == list[..k] + list[k + 1..]
  {
    if k > 0 {
      assert list[0] != list[k];
      RemoveFirstAt(list[1..], k - 1);
    }
  }

  lemma RemoveFirstMembers<T>(list: seq<T>, x: T)
    requires NoDup(list) && x in list
    ensures var r := RemoveFirst(list, x);
      NoDup(r) && |r| == |list| - 1 && forall y :: y in r <==> y in list && y != x
  {
    var k :| 0 <= k < |list| && list[k] == x;
    RemoveFirstAt(list, k);
    var r := list[..k] + list[k + 1..];
    forall y | y in list && y != x ensures y in r {
      var j :| 0 <= j < |list| && list[j] == y;
      assert y == r[if j < k then j else j - 1];
    }
  }

  /** Removing a held note takes it, and only it, out of its owner's list. */
  lemma RemoveHeld(c: Setup, s: Sim, n: SimNote)
    requires Tidy(c, s) && Held(s, n)
    ensures var s' := RemoveNote(s, n);
      && s' == s.(active := s.active[n.owner := RemoveFirst(s.active[n.owner], n)], count := s.count - 1)
      && Tidy(c, s') && (forall m :: Held(s', m) <==> Held(s, m) && m != n)
  {
    RemoveFirstMembers(s.active[n.owner], n);
    var s' := RemoveNote(s, n);
    forall m | Held(s', m) ensures Sane(c, s', m) && UniqueHash(s', m) {
      assert Sane(c, s, m) && UniqueHash(s, m);
    }
  }

  /** Adding a note whose hash nobody holds appends it to its owner's list. */
  lemma AddFresh(c: Setup, s: Sim, n: SimNote)
    requires Tidy(c, s) && Sane(c, s, n) && forall m :: Held(s, m) ==> m.hash != n.hash
    ensures var s' := AddNote(s, n);
      Tidy(c, s') && forall m :: Held(s', m) <==> Held(s, m) || m == n
  {
    var s' := AddNote(s, n);
    assert !Held(s, n);
    AddHeld(s, n);
    AddLists(c, s, n);
    hide Held, AddNote, OwnLists;
    forall m | Held(s', m) ensures Sane(c, s', m) && UniqueHash(s', m) {
      if m != n { assert Sane(c, s, m) && UniqueHash(s, m); }
    }
  }

  lemma AddHeld(s: Sim, n: SimNote)
    ensures forall m :: Held(AddNote(s, n), m) <==> Held(s, m) || m == n
    ensures AddNote(s, n).nextHash == s.nextHash && AddNote(s, n).block == s.block && AddNote(s, n).errors == s.errors
  {
  }

  lemma AddLists(c: Setup, s: Sim, n: SimNote)
    requires Tidy(c, s) && !Held(s, n)
    ensures var s' := AddNote(s, n); (forall a :: a in s'.owners <==> a in s'.active) && NoDup(s'.owners) && OwnLists(s')
  {
  }

  /** A larger hash supply, other counters and another log keep the lists tidy. */
  lemma SameLists(c: Setup, s: Sim, s': Sim)
    requires Tidy(c, s) && s'.active == s.active && s'.owners == s.owners && s'.errors == s.errors
    requires s'.nextHash >= s.nextHash && s'.block >= s.block
    ensures Tidy(c, s') && forall n :: Held(s', n) <==> Held(s, n)
  {
    forall n | Held(s', n) ensures Sane(c, s', n) && UniqueHash(s', n) {
      assert Held(s, n) && Sane(c, s, n) && UniqueHash(s, n);
    }
  }

  // The events keep the lists tidy

  lemma StartGrants(c: Setup, s: Sim, a: Address)
    requires Tidy(c, s) && a !in s.active
    ensures var s' := Grants(s, a, 0); Tidy(c, s') && forall n :: Held(s', n) <==> Held(s, n)
  {
    var s' := Grants(s, a, 0);
    assert forall n :: Held(s', n) <==> Held(s, n);
    forall n | Held(s', n) ensures Sane(c, s', n) && UniqueHash(s', n) {
      assert Sane(c, s, n) && UniqueHash(s, n);
    }
  }

  lemma {:induction false} GrantsTidy(c: Setup, s: Sim, a: Address, k: nat)
    requires Tidy(c, s) && a !in s.active && k <= c.shards
    ensures Tidy(c, Grants(s, a, k)) && Grants(s, a, k).owners == s.owners + [a] && a in Grants(s, a, k).active
    ensures forall b :: b != a ==> ListOf(Grants(s, a, k), b) == ListOf(s, b)
  {
    hide Tidy;
    if k == 0 {
      StartGrants(c, s, a);
    } else {
      hide Held;
      GrantsTidy(c, s, a, k - 1);
      var s1 := Grants(s, a, k - 1);
      GrantTidy(c, s1, a, k - 1);
    }
  }

  lemma GrantTidy(c: Setup, s: Sim, a: Address, shard: nat)
    requires Tidy(c, s) && a in s.active && shard < c.shards
    ensures var s' := AddNote(s, GrantNote(s, a, shard)).(nextHash := s.nextHash + 1);
      Tidy(c, s') && forall m :: Held(s', m) <==> Held(s, m) || m == GrantNote(s, a, shard)
  {
    NextHashTidy(c, s, 1);
    AddFresh(c, s.(nextHash := s.nextHash + 1), GrantNote(s, a, shard));
  }

  /** Hashes drawn from the supply are held by nobody. */
  lemma NextHashTidy(c: Setup, s: Sim, k: nat)
    requires Tidy(c, s)
    ensures Tidy(c, s.(nextHash := s.nextHash + k))
    ensures forall m :: Held(s, m) <==> Held(s.(nextHash := s.nextHash + k), m)
    ensures forall m :: Held(s, m) ==> m.hash < s.nextHash
  {
    SameLists(c, s, s.(nextHash := s.nextHash + k));
  }

  lemma InitializeTidy(c: Setup, s: Sim, a: Address)
    requires ValidSetup(c) && Tidy(c, s)
    ensures var s' := InitializeAddress(c, s, a);
      Tidy(c, s') && a in s'.active && forall b :: b in s.active ==> b in s'.active && s'.active[b] == s.active[b]
  {
    if a !in s.active {
      GrantsTidy(c, s, a, c.shards);
      var s' := InitializeAddress(c, s, a);
      forall b | b in s.active ensures b in s'.active && s'.active[b] == s.active[b] {
        assert b in s.owners && b in s'.owners;
        assert ListOf(s', b) == ListOf(s, b);
      }
    }
  }

  lemma NewTidy(c: Setup, s: Sim, owner: Address, creator: Address, amount: int)
    requires ValidSetup(c) && Tidy(c, s) && amount > 0
    ensures var s' := BanknoteNew(c, s, owner, creator, amount);
      Tidy(c, s') && forall m :: Held(s', m) <==> Held(s, m) || m == MintNote(c, s, owner, creator, amount)
  {
    var n := MintNote(c, s, owner, creator, amount);
    NextHashTidy(c, s, 1);
    AddFresh(c, s.(nextHash := s.nextHash + 1), n);
    SameLists(c, AddNote(s.(nextHash := s.nextHash + 1), n), BanknoteNew(c, s, owner, creator, amount));
  }

  lemma TransferTidy(c: Setup, s: Sim, n: SimNote, newOwner: Address)
    requires Tidy(c, s) && Held(s, n)
    ensures var s' := BanknoteTransfer(s, n, newOwner);
      && Tidy(c, s') && (forall m :: Held(s', m) <==> (Held(s, m) && m != n) || m == Moved(s, n, newOwner))
  {
    RemoveHeld(c, s, n);
    assert Sane(c, s, n) && UniqueHash(s, n);
    AddFresh(c, RemoveNote(s, n), Moved(s, n, newOwner));
    SameLists(c, AddNote(RemoveNote(s, n), Moved(s, n, newOwner)), BanknoteTransfer(s, n, newOwner));
  }

  lemma RecycleTidy(c: Setup, s: Sim, n: SimNote)
    requires Tidy(c, s) && Held(s, n)
    ensures var s' := BanknoteRecycle(s, n);
      Tidy(c, s') && forall m :: Held(s', m) <==> Held(s, m) && m != n
  {
    RemoveHeld(c, s, n);
    SameLists(c, RemoveNote(s, n), BanknoteRecycle(s, n));
  }

  lemma SplitTidy(c: Setup, s: Sim, n: SimNote, a: Address, b: Address, amountA: int, amountB: int)
    requires Tidy(c, s) && Held(s, n) && amountA > 0 && amountB > 0
    ensures var s' := BanknoteSplit(s, n, a, b, amountA, amountB);
      && Tidy(c, s')
      && (forall m :: Held(s', m) <==>
            (Held(s, m) && m != n) || m == Piece1(s, n, a, amountA) || m == Piece2(s, n, b, amountB))
  {
    RemoveHeld(c, s, n);
    assert Sane(c, s, n);
    var s0 := RemoveNote(s, n);
    NextHashTidy(c, s0, 2);
    AddPair(c, s0.(nextHash := s0.nextHash + 2), Piece1(s, n, a, amountA), Piece2(s, n, b, amountB));
    SplitIsPair(s, n, a, b, amountA, amountB);
    SameLists(c, AddNote(AddNote(s0.(nextHash := s0.nextHash + 2), Piece1(s, n, a, amountA)), Piece2(s, n, b, amountB)),
              BanknoteSplit(s, n, a, b, amountA, amountB));
  }

  lemma AddPair(c: Setup, s: Sim, n1: SimNote, n2: SimNote)
    requires Tidy(c, s) && Sane(c, s, n1) && Sane(c, s, n2) && n1.hash != n2.hash
    requires forall m :: Held(s, m) ==> m.hash != n1.hash && m.hash != n2.hash
    ensures var s' := AddNote(AddNote(s, n1), n2);
      Tidy(c, s') && forall m :: Held(s', m) <==> Held(s, m) || m == n1 || m == n2
  {
    AddFresh(c, s, n1);
    AddFresh(c, AddNote(s, n1), n2);
  }

  lemma SplitIsPair(s: Sim, n: SimNote, a: Address, b: Address, amountA: int, amountB: int)
    ensures var s0 := RemoveNote(s, n);
      var pair := AddNote(AddNote(s0.(nextHash := s0.nextHash + 2), Piece1(s, n, a, amountA)), Piece2(s, n, b, amountB));
      var s' := BanknoteSplit(s, n, a, b, amountA, amountB);
      && s'.active == pair.active && s'.owners == pair.owners && s'.errors == pair.errors
      && s'.nextHash == pair.nextHash && s'.block == pair.block && s0.nextHash == s.nextHash
  {
  }

  // Spending

  /** The lists that a transfer of the note at `i` of `a`'s list leaves. */
  lemma TransferLists(c: Setup, s: Sim, a: Address, i: nat, newOwner: Address)
    requires Tidy(c, s) && a in s.active && i < |s.active[a]|
    ensures var list := s.active[a];
      var s' := BanknoteTransfer(s, list[i], newOwner);
      var n' := Moved(s, list[i], newOwner);
      && Held(s, list[i])
      && s'.active == (if a == newOwner then s.active[a := list[..i] + list[i + 1..] + [n']]
                       else s.active[a := list[..i] + list[i + 1..]][newOwner := ListOf(s, newOwner) + [n']])
      && (newOwner in s.active ==> s'.owners == s.owners)
  {
    RemoveHeld(c, s, s.active[a][i]);
    RemoveFirstAt(s.active[a], i);
  }

  /** The lists that a split of the note at `i` of `a`'s list leaves. */
  lemma SplitLists(c: Setup, s: Sim, a: Address, i: nat, b: Address, amountA: int, amountB: int)
    requires Tidy(c, s) && a in s.active && b in s.active && i < |s.active[a]|
    ensures var list := s.active[a];
      var left, n1, n2 := list[..i] + list[i + 1..], Piece1(s, list[i], a, amountA), Piece2(s, list[i], b, amountB);
      BanknoteSplit(s, list[i], a, b, amountA, amountB).active ==
        if a == b then s.active[a := left + [n1] + [n2]] else s.active[a := left + [n1]][b := s.active[b] + [n2]]
  {
    RemoveHeld(c, s, s.active[a][i]);
    RemoveFirstAt(s.active[a], i);
    assert s.active[a][i].owner == a;
    hide Tidy, RemoveFirst;
  }

  /** A turn of the loop that transfers a note brings the index closer to the end of the list, also when
      the note goes to the end of the same list. */
  lemma TransferTurn(c: Setup, s: Sim, a: Address, i: nat, b: Address)
    requires Tidy(c, s) && a in s.active && b in s.active && i < |s.active[a]|
    ensures var s' := BanknoteTransfer(s, s.active[a][i], b);
      && Tidy(c, s') && a in s'.active && b in s'.active && s'.owners == s.owners
      && |s'.active[a]| - (i + 1) < |s.active[a]| - i
      && Held(s, s.active[a][i]) && s.active[a][i].denomination > 0
  {
    TransferLists(c, s, a, i, b);
    TransferTidy(c, s, s.active[a][i], b);
    assert Sane(c, s, s.active[a][i]);
  }

  /** The loop of a transfer of `x` from `a` to `b` that walks by index through the list of `a` as it is
      at each turn: the state it leaves and the amount it has paid. */
  function Spend(c: Setup, s: Sim, a: Address, b: Address, x: int, i: nat, accum: int): (r: (Sim, int))
    requires Tidy(c, s) && a in s.active && b in s.active
    ensures Tidy(c, r.0) && a in r.0.active && b in r.0.active
    decreases |ListOf(s, a)| - i
  {
    if i >= |s.active[a]| || accum >= x then (s, accum)
    else
      var n := s.active[a][i];
      if accum + n.denomination < x then
        TransferTurn(c, s, a, i, b);
        Spend(c, BanknoteTransfer(s, n, b), a, b, x, i + 1, accum + n.denomination)
      else if accum + n.denomination == x then
        TransferTidy(c, s, n, b);
        (BanknoteTransfer(s, n, b), accum + n.denomination)
      else
        SplitTidy(c, s, n, a, b, accum + n.denomination - x, x - accum);
        (BanknoteSplit(s, n, a, b, accum + n.denomination - x, x - accum), accum + (x - accum))
  }

  /** The first note of the list with this denomination. */
  function FindExact(list: seq<SimNote>, x: int): Option<nat> {
    if list == [] then None
    else if list[0].denomination == x then Some(0)
    else match FindExact(list[1..], x) case None => None case Some(k) => Some(k + 1)
  }

  lemma {:induction false} FindExactFirst(list: seq<SimNote>, x: int)
    ensures match FindExact(list, x)
      case None => forall n :: n in list ==> n.denomination != x
      case Some(k) => k < |list| && list[k].denomination == x && forall j :: 0 <= j < k ==> list[j].denomination != x
  {
    if list != [] && list[0].denomination != x { FindExactFirst(list[1..], x); }
  }

  function Pay(c: Setup, s: Sim, a: Address, b: Address, x: int): (s': Sim)
    requires ValidSetup(c) && Tidy(c, s) && a in s.active && b in s.active
    ensures Tidy(c, s')
  {
    FindExactFirst(s.active[a], x);
    match FindExact(s.active[a], x)
    case Some(k) =>
      TransferTidy(c, s, s.active[a][k], b);
      BanknoteTransfer(s, s.active[a][k], b)
    case None =>
      var (s1, accum) := Spend(c, s, a, b, x, 0, 0);
      if accum < x then
        NewTidy(c, s1, b, a, x - accum);
        BanknoteNew(c, s1, b, a, x - accum)
      else s1
  }

  /** Both addresses with their grants. */
  function Seen(c: Setup, s: Sim, a: Address, b: Address): (s': Sim)
    requires ValidSetup(c) && Tidy(c, s)
    ensures Tidy(c, s') && a in s'.active && b in s'.active
  {
    InitializeTidy(c, s, a);
    InitializeTidy(c, InitializeAddress(c, s, a), b);
    InitializeAddress(c, InitializeAddress(c, s, a), b)
  }

  function ProcessTransfer(c: Setup, s: Sim, a: Address, b: Address, x: int): (s': Sim)
    requires ValidSetup(c) && Tidy(c, s)
    ensures Tidy(c, s')
  {
    Pay(c, Seen(c, s, a, b), a, b, x)
  }

  // Recycling

  /** A note is stale at `block` when it has been idle for longer than the threshold. */
  predicate StaleAt(c: Setup, block: int, n: SimNote) { block - n.lastSeen > c.recycleLength }

  lemma RecycleLists(c: Setup, s: Sim, a: Address, i: nat)
    requires Tidy(c, s) && a in s.active && i < |s.active[a]|
    ensures var list := s.active[a];
      var s' := BanknoteRecycle(s, list[i]);
      && Held(s, list[i])
      && s'.active == s.active[a := list[..i] + list[i + 1..]] && s'.owners == s.owners && s'.block == s.block
  {
    RemoveHeld(c, s, s.active[a][i]);
    RemoveFirstAt(s.active[a], i);
  }

  lemma RecycleTurn(c: Setup, s: Sim, a: Address, i: nat)
    requires Tidy(c, s) && a in s.active && i < |s.active[a]|
    ensures var s' := BanknoteRecycle(s, s.active[a][i]);
      && Tidy(c, s') && a in s'.active && s'.owners == s.owners && s'.block == s.block
      && |s'.active[a]| - (i + 1) < |s.active[a]| - i
      && Held(s, s.active[a][i])
  {
    RecycleLists(c, s, a, i);
    RecycleTidy(c, s, s.active[a][i]);
  }

  /** The sweep of one list by index, over the list as it is at each turn. */
  function SweepOwner(c: Setup, s: Sim, a: Address, i: nat): (s': Sim)
    requires Tidy(c, s) && a in s.active
    ensures Tidy(c, s') && s'.owners == s.owners && s'.block == s.block
    decreases |ListOf(s, a)| - i
  {
    if i >= |s.active[a]| then s
    else if StaleAt(c, s.block, s.active[a][i]) then
      RecycleTurn(c, s, a, i);
      SweepOwner(c, BanknoteRecycle(s, s.active[a][i]), a, i + 1)
    else SweepOwner(c, s, a, i + 1)
  }

  /** The sweep of the owners from position `k` in insertion order. */
  function SweepFrom(c: Setup, s: Sim, k: nat): (s': Sim)
    requires Tidy(c, s)
    ensures Tidy(c, s') && s'.owners == s.owners && s'.block == s.block
    decreases |s.owners| - k
  {
    if k >= |s.owners| then s else SweepFrom(c, SweepOwner(c, s, s.owners[k], 0), k + 1)
  }

  function FinalizeBlock(c: Setup, s: Sim): (s': Sim)
    requires Tidy(c, s)
    ensures Tidy(c, s')
  {
    var s1 := if s.block % RECYCLE_INTERVAL == 0 then SweepFrom(c, s, 0) else s;
    SameLists(c, s1, s1.(block := s1.block + 1));
    s1.(block := s1.block + 1)
  }

  // Runs

  datatype Event = Transfer(from: Address, to: Address, value: int) | EndBlock

  function Step(c: Setup, s: Sim, e: Event): (s': Sim)
    requires ValidSetup(c) && Tidy(c, s)
    ensures Tidy(c, s')
  {
    match e
    case Transfer(a, b, x) => ProcessTransfer(c, s, a, b, x)
    case EndBlock => FinalizeBlock(c, s)
  }

  function Run(c: Setup, events: seq<Event>): (s: Sim)
    requires ValidSetup(c)
    ensures Tidy(c, s)
  {
    if events == [] then EMPTY_SIM else Step(c, Run(c, events[..|events| - 1]), events[|events| - 1])
  }
}
