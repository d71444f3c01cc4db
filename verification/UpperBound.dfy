/** The upper bound of a key prefix: the least key above every key with the prefix. */
module UpperBound {
  import opened BanknoteTypes

  type Byte = b: nat | b < 256

  type Key = seq<Byte>

  /** Lexicographic order. */
  predicate Less(a: Key, b: Key) {
    if b == [] then false
    else if a == [] then true
    else a[0] < b[0] || (a[0] == b[0] && Less(a[1..], b[1..]))
  }

  /** A nil limit is the empty slice here: the loop makes no other empty slice. */
  method Compute(prefix: Key) returns (limit: Option<Key>)
    ensures limit == Bound(prefix)
  {
    limit := None;
    assert prefix[..|prefix|] == prefix;
    var i := |prefix| - 1;
    while i >= 0
      invariant -1 <= i < |prefix| && Bound(prefix) == Bound(prefix[..i + 1]) && limit.None?
    {
      var c := prefix[i];
      assert prefix[..i + 1][..i] == prefix[..i];
      if c != 0xff {
        var buffer := new Byte[i + 1](k requires 0 <= k <= i => prefix[k]);
        buffer[i] := c + 1;
        assert buffer[..] == prefix[..i] + [c + 1];
        return Some(buffer[..]);
      }
      i := i - 1;
    }
  }

  /** Drop the trailing 0xff bytes and raise the last byte left. */
  function Bound(prefix: Key): Option<Key> {
    if prefix == [] then None
    else if prefix[|prefix| - 1] == 0xff then Bound(prefix[..|prefix| - 1])
    else Some(prefix[..|prefix| - 1] + [prefix[|prefix| - 1] + 1])
  }

  predicate HasPrefix(prefix: Key, key: Key) { prefix <= key }

  /** The same bound, computed from the front. */
  lemma {:induction false} BoundCons(b: Byte, rest: Key)
    ensures Bound([b] + rest) == match Bound(rest)
      case Some(limit) => Some([b] + limit)
      case None => if b == 0xff then None else Some([b + 1])
  {
    if rest == [] {
      assert [b] + rest == [b];
      assert [b][..0] == [];
      if b != 0xff { assert [b][..0] + [b + 1] == [b + 1]; }
    } else {
      var front := rest[..|rest| - 1];
      assert ([b] + rest)[..|rest|] == [b] + front;
      if rest[|rest| - 1] == 0xff {
        BoundCons(b, front);
      } else {
        assert ([b] + front) + [rest[|rest| - 1] + 1] == [b] + (front + [rest[|rest| - 1] + 1]);
      }
    }
  }

  /** There is no bound exactly for the prefixes that hold only 0xff bytes, the empty one included. */
  lemma {:induction false} NoBoundIff(prefix: Key)
    ensures Bound(prefix).None? <==> forall i :: 0 <= i < |prefix| ==> prefix[i] == 0xff
  {
    if prefix != [] && prefix[|prefix| - 1] == 0xff {
      NoBoundIff(prefix[..|prefix| - 1]);
    }
  }

  /** A key has the prefix exactly when it is at least the prefix and below the bound, if there is one. */
  lemma {:induction false} PrefixIffInRange(prefix: Key, key: Key)
    ensures HasPrefix(prefix, key) <==>
      !Less(key, prefix) && match Bound(prefix) case None => true case Some(limit) => Less(key, limit)
    decreases |prefix|
  {
    if prefix == [] {
    } else {
      var b, rest := prefix[0], prefix[1..];
      assert prefix == [b] + rest;
      BoundCons(b, rest);
      if key != [] {
        assert HasPrefix(prefix, key) <==> key[0] == b && HasPrefix(rest, key[1..]) by {
          assert key == [key[0]] + key[1..];
        }
        if key[0] == b { PrefixIffInRange(rest, key[1..]); }
        if Bound(rest).Some? {
          assert ([b] + Bound(rest).value)[1..] == Bound(rest).value;
        }
      }
    }
  }

  /** The bound is the least key above every key with the prefix. */
  lemma {:induction false} BoundIsLeast(prefix: Key, limit: Key)
    requires Bound(prefix).Some? && forall key :: HasPrefix(prefix, key) ==> Less(key, limit)
    ensures !Less(limit, Bound(prefix).value)
  {
    var least := Bound(prefix).value;
    PrefixIffInRange(prefix, limit);
    if HasPrefix(prefix, limit) {
      LessIrreflexive(limit);
    } else if Less(limit, least) {
      assert Less(limit, prefix);
      assert HasPrefix(prefix, prefix);
      LessAsymmetric(prefix, limit);
    }
  }

  lemma {:induction false} LessIrreflexive(a: Key)
    ensures !Less(a, a)
  {
    if a != [] { LessIrreflexive(a[1..]); }
  }

  lemma {:induction false} LessAsymmetric(a: Key, b: Key)
    requires Less(a, b)
    ensures !Less(b, a)
  {
    if a != [] && a[0] == b[0] { LessAsymmetric(a[1..], b[1..]); }
  }
}
