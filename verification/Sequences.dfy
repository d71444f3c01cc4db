/** Facts about sequences and finite maps that the other modules share. */
module Sequences {

  /** `p` holds of every two elements, the earlier one first. */
  ghost predicate Pairwise<T(!new)>(p: (T, T) -> bool, s: seq<T>) {
    forall i, j :: 0 <= i < j < |s| ==> p(s[i], s[j])
  }

  function Filter<T(!new)>(p: T -> bool, s: seq<T>): (r: seq<T>)
    ensures forall x :: x in r <==> x in s && p(x)
    ensures |r| <= |s|
  {
    if s == [] then []
    else Filter(p, s[..|s| - 1]) + if p(s[|s| - 1]) then [s[|s| - 1]] else []
  }

  lemma {:induction false} FilterAppend<T(!new)>(p: T -> bool, s: seq<T>, t: seq<T>)
    ensures Filter(p, s + t) == Filter(p, s) + Filter(p, t)
  {
    if t == [] {
      assert s + t == s;
    } else {
      assert (s + t)[..|s + t| - 1] == s + t[..|t| - 1];
      FilterAppend(p, s, t[..|t| - 1]);
    }
  }

  lemma {:induction false} FilterAll<T(!new)>(p: T -> bool, s: seq<T>)
    requires forall x :: x in s ==> p(x)
    ensures Filter(p, s) == s
  {
    if s != [] {
      var front, last := s[..|s| - 1], s[|s| - 1];
      assert s == front + [last];
      FilterAll(p, front);
      FilterSnoc(p, front, last);
    }
  }

  lemma {:induction false} FilterNone<T(!new)>(p: T -> bool, s: seq<T>)
    requires forall x :: x in s ==> !p(x)
    ensures Filter(p, s) == []
  {
    if s != [] {
      FilterNone(p, s[..|s| - 1]);
    }
  }

  lemma {:induction false} FilterPairwise<T(!new)>(p: T -> bool, r: (T, T) -> bool, s: seq<T>)
    requires Pairwise(r, s)
    ensures Pairwise(r, Filter(p, s))
  {
    if s != [] {
      var front, last := s[..|s| - 1], s[|s| - 1];
      FilterPairwise(p, r, front);
      forall x | x in Filter(p, front) ensures r(x, last) {
        var i :| 0 <= i < |front| && front[i] == x;
        assert s[i] == x;
      }
    }
  }

  lemma {:induction false} FilterCount<T(!new)>(p: T -> bool, s: seq<T>, x: T)
    ensures multiset(Filter(p, s))[x] == if p(x) then multiset(s)[x] else 0
  {
    if s != [] {
      var front, last := s[..|s| - 1], s[|s| - 1];
      FilterCount(p, front, x);
      assert s == front + [last];
      FilterSnoc(p, front, last);
      hide Filter;
    }
  }

  lemma SameMembers<T(!new)>(s: seq<T>, t: seq<T>)
    requires multiset(s) == multiset(t)
    ensures forall x :: x in s <==> x in t
  {
    forall x ensures x in s <==> x in t {
      assert x in multiset(s) <==> x in multiset(t);
    }
  }

  lemma TwoOccurrences<T(!new)>(s: seq<T>, x: T) returns (i: nat, j: nat)
    requires multiset(s)[x] >= 2
    ensures i < j < |s| && s[i] == x && s[j] == x
  {
    assert x in multiset(s);
    i :| 0 <= i < |s| && s[i] == x;
    assert s == s[..i] + [x] + s[i + 1..];
    if x in s[..i] {
      var k :| 0 <= k < i && s[..i][k] == x;
      i, j := k, i;
    } else {
      assert multiset(s[..i])[x] == 0;
      assert x in multiset(s[i + 1..]);
      var k :| 0 <= k < |s[i + 1..]| && s[i + 1..][k] == x;
      j := i + 1 + k;
    }
  }

  lemma CountTwo<T(!new)>(s: seq<T>, i: nat, j: nat)
    requires i < j < |s| && s[i] == s[j]
    ensures multiset(s)[s[i]] >= 2
  {
    assert s == s[..i] + [s[i]] + s[i + 1..];
    assert s[j] == s[i + 1..][j - i - 1];
    assert s[j] in multiset(s[i + 1..]);
  }

  /** A symmetric relation that holds pairwise holds pairwise of every rearrangement. */
  lemma PairwisePermutation<T(!new)>(r: (T, T) -> bool, s: seq<T>, t: seq<T>)
    requires multiset(s) == multiset(t)
    requires forall x, y :: r(x, y) <==> r(y, x)
    requires Pairwise(r, s)
    ensures Pairwise(r, t)
  {
    SameMembers(s, t);
    forall i, j | 0 <= i < j < |t|
      ensures r(t[i], t[j])
    {
      if t[i] == t[j] {
        CountTwo(t, i, j);
        var k, l := TwoOccurrences(s, t[i]);
        assert r(s[k], s[l]);
      } else {
        assert t[i] in s && t[j] in s;
        var k :| 0 <= k < |s| && s[k] == t[i];
        var l :| 0 <= l < |s| && s[l] == t[j];
        assert k != l;
        if k < l { assert r(s[k], s[l]); } else { assert r(s[l], s[k]); }
      }
    }
  }

  function SumBy<T(!new)>(f: T -> int, s: seq<T>): int {
    if s == [] then 0 else SumBy(f, s[..|s| - 1]) + f(s[|s| - 1])
  }

  lemma {:induction false} SumByAppend<T(!new)>(f: T -> int, s: seq<T>, t: seq<T>)
    ensures SumBy(f, s + t) == SumBy(f, s) + SumBy(f, t)
  {
    if t == [] {
      assert s + t == s;
    } else {
      assert (s + t)[..|s + t| - 1] == s + t[..|t| - 1];
      SumByAppend(f, s, t[..|t| - 1]);
    }
  }

  lemma {:induction false} SumBySame<T(!new)>(f: T -> int, g: T -> int, s: seq<T>)
    requires forall x :: x in s ==> f(x) == g(x)
    ensures SumBy(f, s) == SumBy(g, s)
  {
    if s != [] { SumBySame(f, g, s[..|s| - 1]); }
  }

  lemma {:induction false} SumByFilter<T(!new)>(p: T -> bool, f: T -> int, g: T -> int, s: seq<T>)
    requires forall x :: g(x) == if p(x) then f(x) else 0
    ensures SumBy(f, Filter(p, s)) == SumBy(g, s)
  {
    if s != [] {
      var front, last := s[..|s| - 1], s[|s| - 1];
      SumByFilter(p, f, g, front);
      assert s == front + [last];
      FilterSnoc(p, front, last);
      if p(last) { SumBySnoc(f, Filter(p, front), last); }
      hide Filter;
    }
  }

  lemma {:induction false} SumByMinus<T(!new)>(f: T -> int, g: T -> int, h: T -> int, s: seq<T>)
    requires forall x :: h(x) == f(x) - g(x)
    ensures SumBy(h, s) == SumBy(f, s) - SumBy(g, s)
  {
    if s != [] { SumByMinus(f, g, h, s[..|s| - 1]); }
  }

  lemma SumByOne<T(!new)>(f: T -> int, x: T)
    ensures SumBy(f, [x]) == f(x)
  {
    assert [x][..0] == [];
    assert SumBy(f, [x][..0]) == 0;
  }

  lemma SumBySnoc<T(!new)>(f: T -> int, s: seq<T>, x: T)
    ensures SumBy(f, s + [x]) == SumBy(f, s) + f(x)
  {
    assert (s + [x])[..|s|] == s;
  }

  lemma SumByUpdate<T(!new)>(f: T -> int, s: seq<T>, i: nat, x: T)
    requires i < |s|
    ensures SumBy(f, s[i := x]) == SumBy(f, s) - f(s[i]) + f(x)
  {
    assert s == s[..i] + [s[i]] + s[i + 1..];
    assert s[i := x] == s[..i] + [x] + s[i + 1..];
    SumByAppend(f, s[..i] + [s[i]], s[i + 1..]);
    SumByAppend(f, s[..i] + [x], s[i + 1..]);
    SumBySnoc(f, s[..i], s[i]);
    SumBySnoc(f, s[..i], x);
  }

  lemma {:induction false} SumByNonnegative<T(!new)>(f: T -> int, s: seq<T>)
    requires forall x :: x in s ==> f(x) >= 0
    ensures SumBy(f, s) >= 0
  {
    if s != [] {
      SumByNonnegative(f, s[..|s| - 1]);
      assert s[|s| - 1] in s;
    }
  }

  lemma FilterSnoc<T(!new)>(p: T -> bool, s: seq<T>, x: T)
    ensures Filter(p, s + [x]) == if p(x) then Filter(p, s) + [x] else Filter(p, s)
  {
    assert (s + [x])[..|s|] == s;
  }

  /** Where the last element of a sequence stands in a rearrangement of it, and what remains of both without it. */
  lemma TakeLast<T(!new)>(s: seq<T>, t: seq<T>) returns (i: nat)
    requires s != [] && multiset(s) == multiset(t)
    ensures i < |t| && t == t[..i] + [s[|s| - 1]] + t[i + 1..]
    ensures multiset(s[..|s| - 1]) == multiset(t[..i] + t[i + 1..])
  {
    var front, last := s[..|s| - 1], s[|s| - 1];
    assert s == front + [last];
    assert last in multiset(t);
    i :| 0 <= i < |t| && t[i] == last;
    assert t == t[..i] + [last] + t[i + 1..];
    assert multiset(front) == multiset(s) - multiset{last};
    assert multiset(t[..i] + t[i + 1..]) == multiset(t) - multiset{last};
  }

  /** A sum does not depend on the order of its terms. */
  lemma {:induction false} SumByBag<T(!new)>(f: T -> int, s: seq<T>, t: seq<T>)
    requires multiset(s) == multiset(t)
    ensures SumBy(f, s) == SumBy(f, t)
    decreases |s|
  {
    if s == [] {
      assert |multiset(t)| == 0;
      assert t == [];
    } else {
      var front, last := s[..|s| - 1], s[|s| - 1];
      var i := TakeLast(s, t);
      SumByBag(f, front, t[..i] + t[i + 1..]);
      SumByAppend(f, t[..i], t[i + 1..]);
      SumByAppend(f, t[..i] + [last], t[i + 1..]);
      SumByAppend(f, t[..i], [last]);
      SumByOne(f, last);
    }
  }
}
