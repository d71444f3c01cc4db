/** What each event of the simulator does, field by field: the lists, the notes it makes, the counters, the supply
    of hashes and the log line, and that nothing else changes. */
module SimulatorEffects {
  import opened BanknoteTypes
  import opened Simulator

  /** All lists but those of `a` and `b` are the same. */
  ghost predicate OtherLists(s: Sim, s': Sim, a: Address, b: Address) {
    forall o :: o != a && o != b ==> (o in s'.active <==> o in s.active) && (o in s.active ==> s'.active[o] == s.active[o])
  }

  // Grants

  lemma {:induction false} GrantsEffect(s: Sim, a: Address, k: nat)
    requires a !in s.active
    ensures var s' := Grants(s, a, k);
      && s'.owners == s.owners + [a] && s'.active.Keys == s.active.Keys + {a} && |s'.active[a]| == k
      && (forall j :: 0 <= j < k ==> s'.active[a][j] == SimNote(100000000, a, s.nextHash + j, j, s.block, 0, a))
      && (forall o :: o in s.active ==> s'.active[o] == s.active[o])
      && s'.nextHash == s.nextHash + k && s'.count == s.count + k
      && s' == s.(owners := s'.owners, active := s'.active, nextHash := s'.nextHash, count := s'.count)
  {
    if k > 0 { GrantsEffect(s, a, k - 1); }
  }

  /** An address that is seen for the first time gets one note of 100000000 for each shard in order, last seen in
      the current block and created by itself; one that has been seen gets nothing. */
  lemma GrantEffect(c: Setup, s: Sim, a: Address)
    requires ValidSetup(c)
    ensures var s' := InitializeAddress(c, s, a);
      && (a in s.active ==> s' == s)
      && (a !in s.active ==>
            && s'.owners == s.owners + [a] && s'.active.Keys == s.active.Keys + {a} && |s'.active[a]| == c.shards
            && (forall j :: 0 <= j < c.shards ==>
                  var n := s'.active[a][j];
                  && n.denomination == 100000000 && n.owner == a && n.hash == s.nextHash + j && n.shard == j
                  && n.lastSeen == s.block && n.turnover == 0 && n.creator == a)
            && (forall o :: o in s.active ==> s'.active[o] == s.active[o])
            && s'.nextHash == s.nextHash + c.shards && s'.count == s.count + c.shards
            && s' == s.(owners := s'.owners, active := s'.active, nextHash := s'.nextHash, count := s'.count))
  {
    if a !in s.active { GrantsEffect(s, a, c.shards); }
  }

  /** The payer is granted before the payee. */
  lemma SeenEffect(c: Setup, s: Sim, a: Address, b: Address)
    requires ValidSetup(c) && Tidy(c, s) && a !in s.active && b !in s.active && a != b
    ensures var s' := Seen(c, s, a, b);
      && s'.owners == s.owners + [a, b] && s'.log == s.log && s'.nextHash == s.nextHash + 2 * c.shards
      && |s'.active[a]| == c.shards == |s'.active[b]|
      && forall j :: 0 <= j < c.shards ==>
           s'.active[a][j].hash == s.nextHash + j && s'.active[b][j].hash == s.nextHash + c.shards + j
  {
    hide Tidy, InitializeAddress;
    GrantEffect(c, s, a);
    GrantEffect(c, InitializeAddress(c, s, a), b);
    assert s.owners + [a] + [b] == s.owners + [a, b];
  }

  // Removal

  lemma {:induction false} RemoveFirstIs<T>(list: seq<T>, k: nat)
    requires k < |list| && list[k] !in list[..k]
    ensures RemoveFirst(list, list[k]) == list[..k] + list[k + 1..]
  {
    if k > 0 {
      assert list[0] in list[..k] && list[1..][..k - 1] == list[1..k];
      assert forall x :: x in list[1..k] ==> x in list[..k];
      RemoveFirstIs(list[1..], k - 1);
    }
  }

  /** A removal in any state: of an owner without a list, of one with an empty list, of a note that is not in its
      owner's list, and of one whose first occurrence there is at `k`. */
  lemma RemoveEffect(s: Sim, n: SimNote, k: nat)
    ensures var s' := RemoveNote(s, n);
      && (n.owner !in s.active ==> s' == s)
      && (n.owner in s.active && s.active[n.owner] == [] ==>
            s' == s.(active := s.active - {n.owner}, owners := RemoveFirst(s.owners, n.owner), errors := s.errors + 1))
      && (n.owner in s.active && s.active[n.owner] != [] && n !in s.active[n.owner] ==> s' == s.(errors := s.errors + 1))
      && (n.owner in s.active && k < |s.active[n.owner]| && s.active[n.owner][k] == n && n !in s.active[n.owner][..k] ==>
            s' == s.(active := s.active[n.owner := s.active[n.owner][..k] + s.active[n.owner][k + 1..]], count := s.count - 1))
  {
    if n.owner in s.active && k < |s.active[n.owner]| && s.active[n.owner][k] == n && n !in s.active[n.owner][..k] {
      RemoveFirstIs(s.active[n.owner], k);
    }
  }

  // One note

  /** A mint appends a note of a new hash to its owner's list, which it opens if need be, last seen now, and logs a
      line of kind 1 from the owner. */
  lemma MintEffect(c: Setup, s: Sim, owner: Address, creator: Address, amount: int)
    ensures var s' := BanknoteNew(c, s, owner, creator, amount);
      var before := if owner in s.active then s.active[owner] else [];
      && s'.owners == (if owner in s.active then s.owners else s.owners + [owner])
      && owner in s'.active && |s'.active[owner]| == |before| + 1 && |s'.log| == |s.log| + 1
      && s'.active[owner][..|before|] == before && s'.log[..|s.log|] == s.log
      && var n, r := s'.active[owner][|before|], s'.log[|s.log|];
      && n.denomination == amount && n.owner == owner && n.hash == s.nextHash && n.shard == c.pick(s.nextHash)
      && n.lastSeen == s.block && n.turnover == 0 && n.creator == creator
      && r.kind == 1 && r.sender == owner && r.recipient == 0 && r.hash == s.nextHash && r.value == amount
      && r.shard == c.pick(s.nextHash) && r.turnover == 0 && r.creator == creator
      && r.new1Hash == 0 && r.new1Value == 0 && r.new2Hash == 0 && r.new2Value == 0
      && OtherLists(s, s', owner, owner)
      && s' == s.(owners := s'.owners, active := s'.active, log := s'.log, nextHash := s.nextHash + 1, count := s.count + 1, news := s.news + 1)
  {
  }

  /** A transfer takes the note out of its place and appends it to the list of the new owner, with its hash, value,
      shard and creator, one turnover more, and last seen now. It logs a line of kind 2 to the new owner. */
  lemma TransferEffect(c: Setup, s: Sim, a: Address, i: nat, b: Address)
    requires Tidy(c, s) && a in s.active && b in s.active && i < |s.active[a]|
    ensures var list := s.active[a];
      var n, s' := list[i], BanknoteTransfer(s, list[i], b);
      var left := list[..i] + list[i + 1..];
      var before := if a == b then left else s.active[b];
      && b in s'.active && |s'.active[b]| == |before| + 1 && |s'.log| == |s.log| + 1
      && s'.active[b][..|before|] == before && s'.log[..|s.log|] == s.log
      && (a != b ==> a in s'.active && s'.active[a] == left)
      && var m, r := s'.active[b][|before|], s'.log[|s.log|];
      && m.hash == n.hash && m.denomination == n.denomination && m.shard == n.shard && m.creator == n.creator
      && m.owner == b && m.turnover == n.turnover + 1 && m.lastSeen == s.block
      && r.kind == 2 && r.sender == 0 && r.recipient == b && r.hash == n.hash && r.value == n.denomination
      && r.shard == n.shard && r.turnover == n.turnover + 1 && r.creator == n.creator
      && r.new1Hash == 0 && r.new1Value == 0 && r.new2Hash == 0 && r.new2Value == 0
      && OtherLists(s, s', a, b)
      && s' == s.(active := s'.active, log := s'.log, transfers := s.transfers + 1)
  {
    TransferLists(c, s, a, i, b);
    TransferFrame(c, s, s.active[a][i], b);
    hide Tidy, BanknoteTransfer, Held;
  }

  lemma TransferFrame(c: Setup, s: Sim, n: SimNote, b: Address)
    requires Tidy(c, s) && Held(s, n) && b in s.active
    ensures var s' := BanknoteTransfer(s, n, b);
      s' == s.(active := s'.active, transfers := s.transfers + 1,
               log := s.log + [Row(0, b, 2, n.hash, n.denomination, n.shard, n.turnover + 1, n.creator, 0, 0, 0, 0)])
  {
    RemoveHeld(c, s, n);
    hide Tidy, RemoveFirst;
  }

  /** A recycling takes the note out of its place and logs a line of kind 4 from and to its owner. */
  lemma RecycleEffect(c: Setup, s: Sim, a: Address, i: nat)
    requires Tidy(c, s) && a in s.active && i < |s.active[a]|
    ensures var list := s.active[a];
      var n, s' := list[i], BanknoteRecycle(s, list[i]);
      && a in s'.active && s'.active[a] == list[..i] + list[i + 1..]
      && |s'.log| == |s.log| + 1 && s'.log[..|s.log|] == s.log
      && var r := s'.log[|s.log|];
      && r.kind == 4 && r.sender == a && r.recipient == a && r.hash == n.hash && r.value == n.denomination
      && r.shard == n.shard && r.turnover == n.turnover && r.creator == n.creator
      && r.new1Hash == 0 && r.new1Value == 0 && r.new2Hash == 0 && r.new2Value == 0
      && OtherLists(s, s', a, a)
      && s' == s.(active := s'.active, log := s'.log, count := s.count - 1, recycles := s.recycles + 1)
  {
    RecycleLists(c, s, a, i);
    RemoveHeld(c, s, s.active[a][i]);
    assert s.active[a][i].owner == a;
  }

  /** A split takes the note out of its place and appends two notes of the next two hashes, to the list of `a` and
      then to that of `b`, which inherit its shard, turnover and creator and are last seen now. It logs a line of
      kind 3 from and to the owner of the note that was split. */
  lemma SplitEffect(c: Setup, s: Sim, a: Address, i: nat, b: Address, amountA: int, amountB: int)
    requires Tidy(c, s) && a in s.active && b in s.active && i < |s.active[a]|
    ensures var list := s.active[a];
      var n, s' := list[i], BanknoteSplit(s, list[i], a, b, amountA, amountB);
      var left := list[..i] + list[i + 1..];
      && a in s'.active && b in s'.active && |s'.log| == |s.log| + 1 && s'.log[..|s.log|] == s.log
      && |left| < |s'.active[a]| == |left| + (if a == b then 2 else 1) && s'.active[a][..|left|] == left
      && var before := if a == b then left + [s'.active[a][|left|]] else s.active[b];
      && |s'.active[b]| == |before| + 1 && s'.active[b][..|before|] == before
      && var n1, n2, r := s'.active[a][|left|], s'.active[b][|before|], s'.log[|s.log|];
      && n1.denomination == amountA && n1.owner == a && n1.hash == s.nextHash
      && n1.shard == n.shard && n1.turnover == n.turnover && n1.creator == n.creator && n1.lastSeen == s.block
      && n2.denomination == amountB && n2.owner == b && n2.hash == s.nextHash + 1
      && n2.shard == n.shard && n2.turnover == n.turnover && n2.creator == n.creator && n2.lastSeen == s.block
      && r.kind == 3 && r.sender == a && r.recipient == a && r.hash == n.hash && r.value == n.denomination
      && r.shard == n.shard && r.turnover == n.turnover && r.creator == n.creator
      && r.new1Hash == s.nextHash && r.new1Value == amountA && r.new2Hash == s.nextHash + 1 && r.new2Value == amountB
      && OtherLists(s, s', a, b)
      && s' == s.(active := s'.active, log := s'.log, nextHash := s.nextHash + 2, count := s.count + 1, splits := s.splits + 1)
  {
    var n := s.active[a][i];
    assert n.owner == a && Held(s, n);
    SplitLists(c, s, a, i, b, amountA, amountB);
    SplitFrame(c, s, n, a, b, amountA, amountB);
    hide Tidy, BanknoteSplit, Held;
  }

  lemma SplitFrame(c: Setup, s: Sim, n: SimNote, a: Address, b: Address, amountA: int, amountB: int)
    requires Tidy(c, s) && Held(s, n) && a in s.active && b in s.active
    ensures var s' := BanknoteSplit(s, n, a, b, amountA, amountB);
      s' == s.(active := s'.active, nextHash := s.nextHash + 2, count := s.count + 1, splits := s.splits + 1,
               log := s.log + [Row(n.owner, n.owner, 3, n.hash, n.denomination, n.shard, n.turnover, n.creator,
                                   s.nextHash, amountA, s.nextHash + 1, amountB)])
  {
    RemoveHeld(c, s, n);
    hide Tidy, RemoveFirst;
  }
}
