/** The pool of active notes: one map per ledger, which together behave as a single map from hash to note. */
module BanknotePool {
  import opened BanknoteTypes

  /** A note object. A transfer overwrites its owner in place. */
  class Banknote {
    const banknoteHash: Hash
    const value: int
    const ledgerID: nat
    var owner: Address
    var turnOverCount: nat

    constructor (banknoteHash: Hash, value: int, owner: Address, pLedgerNumber: nat)
      requires pLedgerNumber > 0
      ensures this.banknoteHash == banknoteHash && this.value == value && this.owner == owner
      ensures ledgerID == GetLedgerHashByID(pLedgerNumber, banknoteHash) && turnOverCount == 0
    {
      this.banknoteHash := banknoteHash;
      this.value := value;
      this.ledgerID := GetLedgerHashByID(pLedgerNumber, banknoteHash);
      this.owner := owner;
      this.turnOverCount := 0;
    }
  }

  class ActiveBanknotePool {
    const banknotesMaps: array<map<Hash, Banknote>>

    function Shard(h: Hash): (id: nat)
      requires banknotesMaps.Length > 0
      ensures id < banknotesMaps.Length
    {
      GetLedgerHashByID(banknotesMaps.Length, h)
    }

    /** Every note is in the map of the ledger its hash is routed to, under its own hash. */
    ghost predicate Valid()
      reads this, banknotesMaps
    {
      && banknotesMaps.Length > 0
      && forall i, h :: 0 <= i < banknotesMaps.Length && h in banknotesMaps[i] ==>
           Shard(h) == i && banknotesMaps[i][h].banknoteHash == h
    }

    ghost function Hashes(): set<Hash>
      reads this, banknotesMaps
    {
      set i, h | 0 <= i < banknotesMaps.Length && h in banknotesMaps[i] :: h
    }

    /** The pool as one map. */
    ghost function Flat(): map<Hash, Banknote>
      requires Valid()
      reads this, banknotesMaps
    {
      map h | h in Hashes() :: banknotesMaps[Shard(h)][h]
    }

    constructor (pLedgerNumber: nat)
      requires pLedgerNumber > 0
      ensures Valid() && fresh(banknotesMaps) && banknotesMaps.Length == pLedgerNumber && Flat() == map[]
    {
      banknotesMaps := new map<Hash, Banknote>[pLedgerNumber](_ => map[]);
      new;
      assert Hashes() == {};
    }

    /** A hash is in the pool exactly when it is in the map it is routed to. */
    lemma InShard()
      requires Valid()
      ensures forall h :: h in Flat() <==> h in banknotesMaps[Shard(h)]
      ensures forall h :: h in Flat() ==> Flat()[h] == banknotesMaps[Shard(h)][h]
    {
      forall h ensures h in Hashes() <==> h in banknotesMaps[Shard(h)] {}
    }

    /** A map that agrees with every map on its own hashes is the pool. */
    lemma FlatIs(m: map<Hash, Banknote>)
      requires Valid()
      requires forall h :: (h in m <==> h in banknotesMaps[Shard(h)]) && (h in m ==> m[h] == banknotesMaps[Shard(h)][h])
      ensures Flat() == m
    {
      InShard();
      hide Flat;
      assert Flat().Keys == m.Keys;
    }

    method AddBanknote(banknote: Banknote)
      requires Valid()
      modifies banknotesMaps
      ensures Valid() && Flat() == old(Flat())[banknote.banknoteHash := banknote]
    {
      InShard();
      hide Flat, Hashes;
      var id := Shard(banknote.banknoteHash);
      ghost var flat := Flat()[banknote.banknoteHash := banknote];
      banknotesMaps[id] := banknotesMaps[id][banknote.banknoteHash := banknote];
      assert Valid();
      FlatIs(flat);
    }

    method SetBanknote(banknote: Banknote)
      requires Valid()
      modifies banknotesMaps
      ensures Valid() && Flat() == old(Flat())[banknote.banknoteHash := banknote]
    {
      InShard();
      hide Flat, Hashes;
      var id := Shard(banknote.banknoteHash);
      ghost var flat := Flat()[banknote.banknoteHash := banknote];
      banknotesMaps[id] := banknotesMaps[id][banknote.banknoteHash := banknote];
      assert Valid();
      FlatIs(flat);
    }

    method RemoveBanknote(banknoteHash: Hash)
      requires Valid()
      modifies banknotesMaps
      ensures Valid() && Flat() == old(Flat()) - {banknoteHash}
    {
      InShard();
      hide Flat, Hashes;
      var id := Shard(banknoteHash);
      ghost var flat := Flat() - {banknoteHash};
      banknotesMaps[id] := banknotesMaps[id] - {banknoteHash};
      assert Valid();
      FlatIs(flat);
    }

    method GetBanknote(banknoteHash: Hash) returns (banknote: Banknote?)
      requires Valid()
      ensures banknote == if banknoteHash in Flat() then Flat()[banknoteHash] else null
    {
      InShard();
      var id := Shard(banknoteHash);
      if banknoteHash in banknotesMaps[id] {
        banknote := banknotesMaps[id][banknoteHash];
      } else {
        banknote := null;
      }
    }
  }
}
