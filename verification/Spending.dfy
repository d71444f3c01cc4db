/** What a transfer between two different addresses does: the loop that removes from the list it walks
    through takes every other note from the first, and the receiver gets exactly the amount. */
module Spending {
  import opened BanknoteTypes
  import opened Sequences
  import opened Simulator
  import opened SimulatorTotals

  /** Every other note of the list, from the first. */
  function EveryOther(list: seq<SimNote>): (r: seq<SimNote>)
    ensures |r| == (|list| + 1) / 2
    ensures forall i :: 0 <= i < |r| ==> r[i] == list[2 * i]
  {
    if |list| <= 1 then list else [list[0]] + EveryOther(list[2..])
  }

  /** What is left of the list when the first `k` of every other note are taken out. */
  function Left(list: seq<SimNote>, k: nat): seq<SimNote> {
    if k == 0 then list
    else if |list| <= 1 then []
    else [list[1]] + Left(list[2..], k - 1)
  }

  function Value(notes: seq<SimNote>): int { SumBy(Denomination, notes) }

  /** How many notes from the front can be paid whole out of `x`. */
  function Whole(notes: seq<SimNote>, x: int): (k: nat)
    ensures k <= |notes|
  {
    if notes == [] || notes[0].denomination > x then 0 else 1 + Whole(notes[1..], x - notes[0].denomination)
  }

  /** It is the longest prefix whose value is at most `x`. */
  lemma {:induction false} WholeIsLongest(notes: seq<SimNote>, x: int, k: nat)
    requires k <= |notes| && x >= 0 && forall n :: n in notes ==> n.denomination > 0
    ensures k <= Whole(notes, x) <==> Value(notes[..k]) <= x
    ensures Value(notes[..k]) >= 0
  {
    if k > 0 {
      ValueCons(notes[..k]);
      assert notes[..k][1..] == notes[1..][..k - 1];
      if notes[0].denomination <= x {
        WholeIsLongest(notes[1..], x - notes[0].denomination, k - 1);
      } else {
        WholeIsLongest(notes[1..], 0, k - 1);
      }
    }
  }

  lemma {:induction false} ValueCons(notes: seq<SimNote>)
    requires notes != []
    ensures Value(notes) == notes[0].denomination + Value(notes[1..])
  {
    assert notes == [notes[0]] + notes[1..];
    SumByAppend(Denomination, [notes[0]], notes[1..]);
    SumByOne(Denomination, notes[0]);
  }

  function MovedAll(s: Sim, notes: seq<SimNote>, b: Address): seq<SimNote> {
    seq(|notes|, i requires 0 <= i < |notes| => Moved(s, notes[i], b))
  }

  /** The split of the loop: the next note is worth more than what is due. */
  predicate MustSplit(every: seq<SimNote>, x: int) {
    Whole(every, x) < |every| && x - Value(every[..Whole(every, x)]) > 0
  }

  /** What is due once the notes that fit have been paid whole. */
  function Due(every: seq<SimNote>, x: int): int { x - Value(every[..Whole(every, x)]) }

  /** The list of the sender after paying `x` out of `rest`. */
  function SenderList(s: Sim, rest: seq<SimNote>, a: Address, x: int): seq<SimNote> {
    var every := EveryOther(rest);
    var k := Whole(every, x);
    if MustSplit(every, x) then Left(rest, k + 1) + [Piece1(s, every[k], a, every[k].denomination - Due(every, x))]
    else Left(rest, k)
  }

  /** What the receiver is given out of `rest`. */
  function Received(s: Sim, rest: seq<SimNote>, b: Address, x: int): seq<SimNote> {
    var every := EveryOther(rest);
    var k := Whole(every, x);
    MovedAll(s, every[..k], b) + if MustSplit(every, x) then [Piece2(s, every[k], b, Due(every, x))] else []
  }

  function Rest2(rest: seq<SimNote>): seq<SimNote> { if |rest| <= 1 then [] else rest[2..] }

  function Skipped(rest: seq<SimNote>): seq<SimNote> { if |rest| <= 1 then [] else [rest[1]] }

  lemma EveryCons(rest: seq<SimNote>)
    requires rest != []
    ensures EveryOther(rest) == [rest[0]] + EveryOther(Rest2(rest))
  {
    if |rest| == 1 { assert EveryOther(Rest2(rest)) == []; }
  }

  /** Paying the first note whole leaves the same payment out of the rest after the next. */
  lemma PayFirst(rest: seq<SimNote>, y: int)
    requires rest != [] && rest[0].denomination <= y
    ensures var z, rest2 := y - rest[0].denomination, Rest2(rest);
      && EveryOther(rest) == [rest[0]] + EveryOther(rest2)
      && Whole(EveryOther(rest), y) == 1 + Whole(EveryOther(rest2), z)
      && Due(EveryOther(rest), y) == Due(EveryOther(rest2), z)
      && (MustSplit(EveryOther(rest), y) <==> MustSplit(EveryOther(rest2), z))
      && Value(EveryOther(rest)) == rest[0].denomination + Value(EveryOther(rest2))
  {
    hide EveryOther, Whole, MustSplit, Due, Value;
    EveryCons(rest);
    WholeCons(rest[0], EveryOther(Rest2(rest)), y);
  }

  /** Paying the first of some notes leaves the same payment out of the others. */
  lemma WholeCons(n: SimNote, others: seq<SimNote>, y: int)
    requires n.denomination <= y
    ensures var notes, z := [n] + others, y - n.denomination;
      && Whole(notes, y) == 1 + Whole(others, z)
      && Due(notes, y) == Due(others, z)
      && (MustSplit(notes, y) <==> MustSplit(others, z))
      && Value(notes) == n.denomination + Value(others)
  {
    var notes, k := [n] + others, Whole(others, y - n.denomination);
    assert notes[1..] == others;
    assert Whole(notes, y) == 1 + k;
    hide Whole, Value;
    ValueCons(notes);
    assert notes[..k + 1] == [n] + others[..k] && notes[..k + 1][1..] == others[..k];
    ValueCons(notes[..k + 1]);
  }

  lemma PayFirstLists(s: Sim, rest: seq<SimNote>, a: Address, b: Address, y: int)
    requires rest != [] && rest[0].denomination <= y
    ensures var z, rest2 := y - rest[0].denomination, Rest2(rest);
      && SenderList(s, rest, a, y) == Skipped(rest) + SenderList(s, rest2, a, z)
      && Received(s, rest, b, y) == [Moved(s, rest[0], b)] + Received(s, rest2, b, z)
  {
    hide EveryOther, Value, Whole, MustSplit, Due, Left, Moved;
    PayFirst(rest, y);
    var every, every2 := EveryOther(rest), EveryOther(Rest2(rest));
    var k := Whole(every2, y - rest[0].denomination);
    LeftCons(rest, k);
    LeftCons(rest, k + 1);
    MovedCons(s, every, k, b);
    if MustSplit(every, y) { assert every[k + 1] == every2[k] by { MustSplitInside(every2, y - rest[0].denomination); } }
  }

  lemma MustSplitInside(every: seq<SimNote>, y: int)
    requires MustSplit(every, y)
    ensures Whole(every, y) < |every|
  {
  }

  lemma LeftCons(rest: seq<SimNote>, k: nat)
    requires rest != []
    ensures Left(rest, k + 1) == Skipped(rest) + Left(Rest2(rest), k)
  {
  }

  lemma MovedCons(s: Sim, every: seq<SimNote>, k: nat, b: Address)
    requires k < |every|
    ensures MovedAll(s, every[..k + 1], b) == [Moved(s, every[0], b)] + MovedAll(s, every[1..][..k], b)
  {
  }

  lemma FirstTwo(list: seq<SimNote>)
    requires list != []
    ensures Value(list) == Value([list[0]]) + Value(Skipped(list)) + Value(Rest2(list))
  {
    assert list == ([list[0]] + Skipped(list)) + Rest2(list);
    SumByAppend(Denomination, [list[0]] + Skipped(list), Rest2(list));
    SumByAppend(Denomination, [list[0]], Skipped(list));
  }

  lemma LeftStep(list: seq<SimNote>, k: nat)
    requires list != [] && k > 0
    ensures Value(Left(list, k)) == Value(Skipped(list)) + Value(Left(Rest2(list), k - 1))
  {
    LeftCons(list, k - 1);
    SumByAppend(Denomination, Skipped(list), Left(Rest2(list), k - 1));
  }

  lemma EveryStep(list: seq<SimNote>, k: nat)
    requires list != [] && 0 < k <= |EveryOther(list)|
    ensures k - 1 <= |EveryOther(Rest2(list))|
    ensures Value(EveryOther(list)[..k]) == Value([list[0]]) + Value(EveryOther(Rest2(list))[..k - 1])
  {
    EveryCons(list);
    assert EveryOther(list)[..k] == [list[0]] + EveryOther(Rest2(list))[..k - 1];
    SumByAppend(Denomination, [list[0]], EveryOther(Rest2(list))[..k - 1]);
  }

  /** Taking the first `k` of every other note takes their value. */
  lemma {:induction false} ValueLeft(list: seq<SimNote>, k: nat)
    requires k <= |EveryOther(list)|
    ensures Value(Left(list, k)) == Value(list) - Value(EveryOther(list)[..k])
    decreases |list|
  {
    if k > 0 {
      hide Left, Skipped;
      EveryStep(list, k);
      LeftStep(list, k);
      FirstTwo(list);
      ValueLeft(Rest2(list), k - 1);
    } else {
      assert EveryOther(list)[..0] == [];
    }
  }

  /** Paying nothing changes nothing. */
  lemma PayNothing(s: Sim, rest: seq<SimNote>, a: Address, b: Address)
    requires forall n :: n in rest ==> n.denomination > 0
    ensures Whole(EveryOther(rest), 0) == 0 && !MustSplit(EveryOther(rest), 0)
    ensures SenderList(s, rest, a, 0) == rest && Received(s, rest, b, 0) == []
  {
    assert EveryOther(rest) != [] ==> EveryOther(rest)[0] == rest[0];
  }

  /** A first note worth more than is due is split. */
  lemma PaySplit(s: Sim, rest: seq<SimNote>, a: Address, b: Address, y: int)
    requires rest != [] && rest[0].denomination > y > 0
    ensures Whole(EveryOther(rest), y) == 0 && MustSplit(EveryOther(rest), y)
    ensures SenderList(s, rest, a, y) == rest[1..] + [Piece1(s, rest[0], a, rest[0].denomination - y)]
    ensures Received(s, rest, b, y) == [Piece2(s, rest[0], b, y)]
  {
    assert EveryOther(rest)[0] == rest[0];
    if |rest| > 1 { assert [rest[1]] + Left(rest[2..], 0) == rest[1..]; }
  }

  ghost predicate Positive(list: seq<SimNote>) { forall n :: n in list ==> n.denomination > 0 }

  lemma ListPositive(c: Setup, s: Sim, a: Address)
    requires Tidy(c, s) && a in s.active
    ensures Positive(s.active[a])
  {
    forall n | n in s.active[a] ensures n.denomination > 0 { assert Held(s, n) && Sane(c, s, n); }
  }

  /** What the loop has done when it has paid `y` out of `rest`. */
  ghost predicate Paid(s: Sim, a: Address, b: Address, kept: seq<SimNote>, rest: seq<SimNote>, y: int, s': Sim, paid: int)
    requires b in s.active
  {
    var every := EveryOther(rest);
    && s'.active == s.active[a := kept + SenderList(s, rest, a, y)][b := s.active[b] + Received(s, rest, b, y)]
    && paid == (if Whole(every, y) == |every| then Value(every) else y)
    && s'.transfers == s.transfers + Whole(every, y)
    && s'.splits == s.splits + (if MustSplit(every, y) then 1 else 0)
    && s'.news == s.news && s'.block == s.block
  }

  /** A loop that stops has paid what was due, or had nothing left to pay with. */
  lemma SpendStops(s: Sim, a: Address, b: Address, kept: seq<SimNote>, rest: seq<SimNote>, y: int)
    requires a != b && a in s.active && b in s.active && s.active[a] == kept + rest && Positive(rest)
    requires rest == [] || y == 0
    requires y >= 0
    ensures Paid(s, a, b, kept, rest, y, s, 0)
  {
    if rest == [] {
      assert EveryOther(rest) == [];
      assert Left(rest, 0) == [];
    } else {
      PayNothing(s, rest, a, b);
      assert |EveryOther(rest)| > 0;
    }
    assert Received(s, rest, b, y) == [] && SenderList(s, rest, a, y) == rest;
    assert kept + SenderList(s, rest, a, y) == s.active[a] && s.active[b] + Received(s, rest, b, y) == s.active[b];
    assert s.active[a := s.active[a]][b := s.active[b]] == s.active;
  }

  /** The state after a note is paid whole, and what the rest of the loop then adds to it. */
  lemma SpendWhole(c: Setup, s: Sim, a: Address, b: Address, kept: seq<SimNote>, rest: seq<SimNote>)
    requires Tidy(c, s) && a != b && a in s.active && b in s.active && s.active[a] == kept + rest && rest != []
    ensures var s1 := BanknoteTransfer(s, rest[0], b);
      && Tidy(c, s1)
      && s1.active == s.active[a := kept + Skipped(rest) + Rest2(rest)][b := s.active[b] + [Moved(s, rest[0], b)]]
      && s1.transfers == s.transfers + 1 && s1.splits == s.splits && s1.news == s.news
      && s1.block == s.block && s1.nextHash == s.nextHash
  {
    hide Tidy, BanknoteTransfer, Moved;
    assert s.active[a][|kept|] == rest[0];
    TransferTurn(c, s, a, |kept|, b);
    TransferLists(c, s, a, |kept|, b);
    assert s.active[a][..|kept|] + s.active[a][|kept| + 1..] == kept + Skipped(rest) + Rest2(rest);
    TransferCounts(c, s, rest[0], b);
  }

  lemma TransferCounts(c: Setup, s: Sim, n: SimNote, b: Address)
    requires Tidy(c, s) && Held(s, n)
    ensures var s1 := BanknoteTransfer(s, n, b);
      && s1.transfers == s.transfers + 1 && s1.splits == s.splits && s1.news == s.news
      && s1.block == s.block && s1.nextHash == s.nextHash
  {
    hide Tidy;
    RemoveHeld(c, s, n);
  }

  lemma PaidAfterWhole(s: Sim, s1: Sim, a: Address, b: Address, kept: seq<SimNote>, rest: seq<SimNote>, y: int, s': Sim, paid: int)
    requires a != b && a in s.active && b in s.active && rest != [] && rest[0].denomination <= y
    requires s1.active == s.active[a := kept + Skipped(rest) + Rest2(rest)][b := s.active[b] + [Moved(s, rest[0], b)]]
    requires s1.transfers == s.transfers + 1 && s1.splits == s.splits && s1.news == s.news
    requires s1.block == s.block && s1.nextHash == s.nextHash
    requires Paid(s1, a, b, kept + Skipped(rest), Rest2(rest), y - rest[0].denomination, s', paid)
    ensures Paid(s, a, b, kept, rest, y, s', paid + rest[0].denomination)
  {
    hide SenderList, Received, MustSplit, Whole, EveryOther, Moved, Due, Value;
    PayFirst(rest, y);
    PayFirstLists(s, rest, a, b, y);
    var z, rest2 := y - rest[0].denomination, Rest2(rest);
    SamePieces(s, s1, rest2, a, b, z);
    assert (kept + Skipped(rest)) + SenderList(s, rest2, a, z) == kept + SenderList(s, rest, a, y);
    assert (s.active[b] + [Moved(s, rest[0], b)]) + Received(s, rest2, b, z) == s.active[b] + Received(s, rest, b, y);
  }

  lemma SamePieces(s: Sim, s1: Sim, rest: seq<SimNote>, a: Address, b: Address, y: int)
    requires s1.block == s.block && s1.nextHash == s.nextHash
    ensures SenderList(s1, rest, a, y) == SenderList(s, rest, a, y) && Received(s1, rest, b, y) == Received(s, rest, b, y)
  {
    var every := EveryOther(rest);
    assert MovedAll(s1, every[..Whole(every, y)], b) == MovedAll(s, every[..Whole(every, y)], b);
  }

  lemma PaidBySplit(c: Setup, s: Sim, a: Address, b: Address, kept: seq<SimNote>, rest: seq<SimNote>, y: int)
    requires Tidy(c, s) && a != b && a in s.active && b in s.active && s.active[a] == kept + rest
    requires rest != [] && rest[0].denomination > y > 0
    ensures Paid(s, a, b, kept, rest, y, BanknoteSplit(s, rest[0], a, b, rest[0].denomination - y, y), y)
  {
    var i := |kept|;
    assert s.active[a][i] == rest[0];
    SplitLists(c, s, a, i, b, rest[0].denomination - y, y);
    PaySplit(s, rest, a, b, y);
    assert s.active[a][..i] + s.active[a][i + 1..] + [Piece1(s, rest[0], a, rest[0].denomination - y)] ==
      kept + SenderList(s, rest, a, y);
    assert Held(s, rest[0]);
    RemoveHeld(c, s, rest[0]);
  }

  /** The loop, at the index after the notes it has kept, pays what is due out of every other note of the rest. */
  lemma {:induction false} SpendTakesEveryOther(c: Setup, s: Sim, a: Address, b: Address, x: int,
                                                kept: seq<SimNote>, rest: seq<SimNote>, i: nat, accum: int)
    requires Tidy(c, s) && a != b && a in s.active && b in s.active && s.active[a] == kept + rest
    requires |kept| <= i && (rest != [] ==> i == |kept|) && accum <= x
    ensures var (s', paid) := Spend(c, s, a, b, x, i, accum); Paid(s, a, b, kept, rest, x - accum, s', paid - accum)
    decreases |rest|
  {
    hide Tidy, BanknoteTransfer, BanknoteSplit, Paid;
    ListPositive(c, s, a);
    assert forall n :: n in rest ==> n in s.active[a];
    if rest == [] || accum >= x {
      SpendStops(s, a, b, kept, rest, x - accum);
    } else {
      var n := s.active[a][i];
      assert n == rest[0];
      var s1 := BanknoteTransfer(s, n, b);
      var (s', paid) := Spend(c, s, a, b, x, i, accum);
      if accum + n.denomination <= x {
        SpendWhole(c, s, a, b, kept, rest);
        if accum + n.denomination < x {
          SpendTakesEveryOther(c, s1, a, b, x, kept + Skipped(rest), Rest2(rest), i + 1, accum + n.denomination);
        } else {
          SpendStops(s1, a, b, kept + Skipped(rest), Rest2(rest), 0);
        }
        PaidAfterWhole(s, s1, a, b, kept, rest, x - accum, s', paid - accum - n.denomination);
      } else {
        PaidBySplit(c, s, a, b, kept, rest, x - accum);
      }
    }
  }

  // The value that changes hands

  lemma {:induction false} ValueMoved(s: Sim, notes: seq<SimNote>, b: Address)
    ensures Value(MovedAll(s, notes, b)) == Value(notes)
  {
    if notes != [] {
      var front := notes[..|notes| - 1];
      ValueMoved(s, front, b);
      assert MovedAll(s, notes, b) == MovedAll(s, front, b) + [Moved(s, notes[|notes| - 1], b)];
      SumBySnoc(Denomination, MovedAll(s, front, b), Moved(s, notes[|notes| - 1], b));
    }
  }

  /** What can be paid of `y` out of every other note. */
  function Payable(every: seq<SimNote>, y: int): int { if Value(every) < y then Value(every) else y }

  lemma WholeCases(every: seq<SimNote>, y: int)
    requires Positive(every) && y >= 0
    ensures Due(every, y) >= 0 && (Value(every) < y ==> Whole(every, y) == |every|)
    ensures Whole(every, y) == |every| ==> Value(every) <= y
    ensures MustSplit(every, y) ==> Due(every, y) < every[Whole(every, y)].denomination
    ensures Value(every[..Whole(every, y)]) + (if MustSplit(every, y) then Due(every, y) else 0) == Payable(every, y)
  {
    var k := Whole(every, y);
    WholeIsLongest(every, y, k);
    WholeIsLongest(every, y, |every|);
    assert every[..|every|] == every;
    if k < |every| {
      WholeIsLongest(every, y, k + 1);
      assert every[..k + 1] == every[..k] + [every[k]];
      SumBySnoc(Denomination, every[..k], every[k]);
    }
  }

  lemma EveryPositive(rest: seq<SimNote>)
    requires Positive(rest)
    ensures Positive(EveryOther(rest))
  {
  }

  lemma ReceivedValue(s: Sim, rest: seq<SimNote>, b: Address, y: int)
    requires Positive(rest) && y >= 0
    ensures Value(Received(s, rest, b, y)) == Payable(EveryOther(rest), y)
  {
    hide EveryOther, Whole, Left, Moved;
    EveryPositive(rest);
    var every := EveryOther(rest);
    var k := Whole(every, y);
    WholeCases(every, y);
    ValueMoved(s, every[..k], b);
    if MustSplit(every, y) {
      SumBySnoc(Denomination, MovedAll(s, every[..k], b), Piece2(s, every[k], b, Due(every, y)));
    } else {
      assert Received(s, rest, b, y) == MovedAll(s, every[..k], b);
    }
  }

  lemma SenderValue(s: Sim, rest: seq<SimNote>, a: Address, y: int)
    requires Positive(rest) && y >= 0
    ensures Value(SenderList(s, rest, a, y)) == Value(rest) - Payable(EveryOther(rest), y)
  {
    hide EveryOther, Whole, Left, Moved;
    EveryPositive(rest);
    var every := EveryOther(rest);
    var k := Whole(every, y);
    WholeCases(every, y);
    if MustSplit(every, y) {
      ValueLeft(rest, k + 1);
      assert every[..k + 1] == every[..k] + [every[k]];
      SumBySnoc(Denomination, every[..k], every[k]);
      SumBySnoc(Denomination, Left(rest, k + 1), Piece1(s, every[k], a, every[k].denomination - Due(every, y)));
    } else {
      ValueLeft(rest, k);
    }
  }

  // The whole transfer

  /** With a note of exactly the amount, the first such note changes hands and nothing else. */
  lemma PayExact(c: Setup, s: Sim, a: Address, b: Address, x: int, k: nat)
    requires ValidSetup(c) && Tidy(c, s) && a != b && a in s.active && b in s.active
    requires k < |s.active[a]| && s.active[a][k].denomination == x && forall j :: 0 <= j < k ==> s.active[a][j].denomination != x
    ensures var list := s.active[a];
      var s' := Pay(c, s, a, b, x);
      && s'.active == s.active[a := list[..k] + list[k + 1..]][b := s.active[b] + [Moved(s, list[k], b)]]
      && s'.transfers == s.transfers + 1 && s'.splits == s.splits && s'.news == s.news
  {
    FindExactFirst(s.active[a], x);
    assert FindExact(s.active[a], x) == Some(k);
    TransferLists(c, s, a, k, b);
    RemoveHeld(c, s, s.active[a][k]);
  }

  /** A loop that pays less than the amount has drawn no hash. */
  lemma {:induction false} NoSplitKeepsHashes(c: Setup, s: Sim, a: Address, b: Address, x: int, i: nat, accum: int)
    requires Tidy(c, s) && a in s.active && b in s.active
    ensures var (s', paid) := Spend(c, s, a, b, x, i, accum); paid < x ==> s'.nextHash == s.nextHash && s'.block == s.block
    decreases |ListOf(s, a)| - i
  {
    hide Tidy;
    if i < |s.active[a]| && accum < x {
      var n := s.active[a][i];
      TransferTurn(c, s, a, i, b);
      if accum + n.denomination < x {
        NoSplitKeepsHashes(c, BanknoteTransfer(s, n, b), a, b, x, i + 1, accum + n.denomination);
        RemoveHeld(c, s, n);
      }
    }
  }

  /** Otherwise the transfer takes every other note of the list from the first, as many as fit whole, splits
      the next one if something is still due, and mints exactly when every other note together is too little. */
  lemma PayEveryOther(c: Setup, s: Sim, a: Address, b: Address, x: int)
    requires ValidSetup(c) && Tidy(c, s) && a != b && a in s.active && b in s.active && x > 0
    requires forall n :: n in s.active[a] ==> n.denomination != x
    ensures var list := s.active[a];
      var every, s' := EveryOther(list), Pay(c, s, a, b, x);
      && s'.active == s.active[a := SenderList(s, list, a, x)][b := s.active[b] + Received(s, list, b, x) + MintedNotes(c, s, a, b, x)]
      && s'.news == s.news + (if Value(every) < x then 1 else 0)
      && s'.splits == s.splits + (if MustSplit(every, x) then 1 else 0)
      && (MustSplit(every, x) ==> Value(every) >= x)
      && s'.transfers == s.transfers + Whole(every, x) && Whole(every, x) <= (|list| + 1) / 2
      && Minted(c, s, a, b, x) == (if Value(every) < x then x - Value(every) else 0)
  {
    hide Tidy, SenderList, Received, MustSplit, Whole, Value, Spend;
    var list := s.active[a];
    FindExactFirst(list, x);
    SpendAll(c, s, a, b, x);
    var (s1, paid) := Spend(c, s, a, b, x, 0, 0);
    var got := s.active[b] + Received(s, list, b, x);
    assert got + [] == got;
    if paid < x {
      var after := got + [MintNote(c, s, b, a, x - paid)];
      assert s1.active[b := after] == s.active[a := SenderList(s, list, a, x)][b := after];
    }
  }

  lemma SpendAll(c: Setup, s: Sim, a: Address, b: Address, x: int)
    requires ValidSetup(c) && Tidy(c, s) && a != b && a in s.active && b in s.active && x > 0
    ensures var list := s.active[a];
      var (s1, paid) := Spend(c, s, a, b, x, 0, 0);
      var every := EveryOther(list);
      && s1.active == s.active[a := SenderList(s, list, a, x)][b := s.active[b] + Received(s, list, b, x)]
      && paid == Payable(every, x) && s1.news == s.news
      && s1.splits == s.splits + (if MustSplit(every, x) then 1 else 0)
      && (MustSplit(every, x) ==> Value(every) >= x)
      && s1.transfers == s.transfers + Whole(every, x) && Whole(every, x) <= |every|
      && (paid < x ==> s1.nextHash == s.nextHash && s1.block == s.block)
  {
    hide Tidy, SenderList, Received, Whole, Value, Spend, EveryOther;
    var list := s.active[a];
    var every := EveryOther(list);
    ListPositive(c, s, a);
    EveryPositive(list);
    assert [] + list == list;
    SpendTakesEveryOther(c, s, a, b, x, [], list, 0, 0);
    assert [] + SenderList(s, list, a, x) == SenderList(s, list, a, x);
    WholeCases(every, x);
    NoSplitKeepsHashes(c, s, a, b, x, 0, 0);
  }

  /** The note that a transfer mints, if any. */
  function MintedNotes(c: Setup, s: Sim, a: Address, b: Address, x: int): seq<SimNote>
    requires a in s.active
  {
    var paid := Value(EveryOther(s.active[a]));
    if paid < x then [MintNote(c, s, b, a, x - paid)] else []
  }

  /** Exact delivery: the receiver gains exactly the amount, the sender loses at most that, the other lists
      stay as they are, and the total value rises by exactly what the sender fell short of. */
  lemma ExactDelivery(c: Setup, s: Sim, a: Address, b: Address, x: int)
    requires ValidSetup(c) && Tidy(c, s) && a != b && a in s.active && b in s.active && x > 0
    ensures var s' := Pay(c, s, a, b, x);
      && a in s'.active && b in s'.active
      && Value(s'.active[b]) == Value(s.active[b]) + x
      && 0 <= Value(s.active[a]) - Value(s'.active[a]) <= x
      && s'.active.Keys == s.active.Keys && (forall o :: o in s.active && o != a && o != b ==> s'.active[o] == s.active[o])
      && TotalValue(s') == TotalValue(s) + x - (Value(s.active[a]) - Value(s'.active[a]))
  {
    hide Tidy, Pay, Value, TotalValue, Minted;
    FindExactFirst(s.active[a], x);
    PayKeeps(c, s, a, b, x);
    match FindExact(s.active[a], x)
    case Some(k) => DeliverExact(c, s, a, b, x, k);
    case None => DeliverEveryOther(c, s, a, b, x);
  }

  lemma DeliverExact(c: Setup, s: Sim, a: Address, b: Address, x: int, k: nat)
    requires ValidSetup(c) && Tidy(c, s) && a != b && a in s.active && b in s.active && x > 0
    requires FindExact(s.active[a], x) == Some(k)
    ensures var s' := Pay(c, s, a, b, x);
      && s'.active.Keys == s.active.Keys && (forall o :: o in s.active && o != a && o != b ==> s'.active[o] == s.active[o])
      && Value(s'.active[b]) == Value(s.active[b]) + x && Value(s'.active[a]) == Value(s.active[a]) - x
      && Minted(c, s, a, b, x) == 0
  {
    hide Pay, Spend;
    var list := s.active[a];
    FindExactFirst(list, x);
    PayExact(c, s, a, b, x, k);
    RemoveFirstAt(list, k);
    SumByRemoveFirst(Denomination, list, list[k]);
    SumBySnoc(Denomination, s.active[b], Moved(s, list[k], b));
  }

  lemma DeliverEveryOther(c: Setup, s: Sim, a: Address, b: Address, x: int)
    requires ValidSetup(c) && Tidy(c, s) && a != b && a in s.active && b in s.active && x > 0
    requires FindExact(s.active[a], x).None?
    ensures var s' := Pay(c, s, a, b, x);
      && s'.active.Keys == s.active.Keys && (forall o :: o in s.active && o != a && o != b ==> s'.active[o] == s.active[o])
      && Value(s'.active[b]) == Value(s.active[b]) + x
      && Value(s'.active[a]) == Value(s.active[a]) - (x - Minted(c, s, a, b, x))
      && 0 <= Minted(c, s, a, b, x) <= x
  {
    hide Tidy, Pay, Spend, SenderList, Received, Minted, EveryOther;
    var list := s.active[a];
    FindExactFirst(list, x);
    ListPositive(c, s, a);
    EveryPositive(list);
    PayEveryOther(c, s, a, b, x);
    SenderValue(s, list, a, x);
    ReceivedValue(s, list, b, x);
    ValueNonnegative(EveryOther(list));
    SumByAppend(Denomination, s.active[b], Received(s, list, b, x));
    SumByAppend(Denomination, s.active[b] + Received(s, list, b, x), MintedNotes(c, s, a, b, x));
    MintedValue(c, s, a, b, x);
  }

  lemma ValueNonnegative(notes: seq<SimNote>)
    requires Positive(notes)
    ensures Value(notes) >= 0
  {
    WholeIsLongest(notes, 0, |notes|);
    assert notes[..|notes|] == notes;
  }

  lemma MintedValue(c: Setup, s: Sim, a: Address, b: Address, x: int)
    requires a in s.active
    ensures var paid := Value(EveryOther(s.active[a])); Value(MintedNotes(c, s, a, b, x)) == if paid < x then x - paid else 0
  {
    var paid := Value(EveryOther(s.active[a]));
    if paid < x { SumByOne(Denomination, MintNote(c, s, b, a, x - paid)); }
  }

  /** The same for a whole transfer, whose addresses may first be granted their initial notes. */
  lemma TransferDelivers(c: Setup, s: Sim, a: Address, b: Address, x: int)
    requires ValidSetup(c) && Tidy(c, s) && a != b && x > 0
    ensures var s0, s' := Seen(c, s, a, b), ProcessTransfer(c, s, a, b, x);
      && a in s'.active && b in s'.active
      && Value(s'.active[b]) == Value(s0.active[b]) + x
      && 0 <= Value(s0.active[a]) - Value(s'.active[a]) <= x
      && TotalValue(s') == TotalValue(s) + DEFAULT_BALANCE * (c.shards * NewAddresses(s, a, b))
                             + x - (Value(s0.active[a]) - Value(s'.active[a]))
  {
    hide Tidy, Pay, Seen, Value, TotalValue;
    SeenKeeps(c, s, a, b);
    ExactDelivery(c, Seen(c, s, a, b), a, b, x);
  }

  // Paying oneself

  function Denominations(list: seq<SimNote>): seq<int> {
    seq(|list|, i requires 0 <= i < |list| => list[i].denomination)
  }

  /** What the loop pays at most when the paid notes go to the end of the list it walks: it pays the first,
      which goes to the end, passes over the next, and so on around, until it has passed over every note. */
  function CircleValue(values: seq<int>): int
    decreases |values|
  {
    if values == [] then 0
    else if |values| == 1 then values[0]
    else values[0] + CircleValue(values[2..] + [values[0]])
  }

  lemma {:induction false} CircleNonnegative(values: seq<int>)
    requires forall i :: 0 <= i < |values| ==> values[i] > 0
    ensures CircleValue(values) >= 0 && (values != [] ==> CircleValue(values) >= values[0])
    decreases |values|
  {
    if |values| > 1 { CircleNonnegative(values[2..] + [values[0]]); }
  }

  /** The state after a note is paid to oneself: it is at the end, and the next note is passed over. */
  lemma CircleTurn(c: Setup, s: Sim, a: Address, kept: seq<SimNote>, rest: seq<SimNote>) returns (kept': seq<SimNote>, rest': seq<SimNote>)
    requires Tidy(c, s) && a in s.active && s.active[a] == kept + rest && rest != []
    ensures var s1 := BanknoteTransfer(s, rest[0], a);
      Tidy(c, s1) && a in s1.active && s1.active[a] == kept' + rest' && |kept'| == |kept| + 1 && |rest'| == |rest| - 1
    ensures CircleValue(Denominations(rest)) == rest[0].denomination + CircleValue(Denominations(rest'))
  {
    var i, moved := |kept|, Moved(s, rest[0], a);
    assert s.active[a][i] == rest[0];
    TransferTurn(c, s, a, i, a);
    TransferLists(c, s, a, i, a);
    hide Tidy, BanknoteTransfer;
    var live := rest[1..] + [moved];
    assert s.active[a][..i] + s.active[a][i + 1..] + [moved] == kept + live;
    kept', rest' := kept + [live[0]], live[1..];
    assert kept + live == kept' + rest';
    if |rest| > 1 { assert Denominations(rest') == Denominations(rest)[2..] + [Denominations(rest)[0]]; }
  }

  lemma {:induction false} SelfSpend(c: Setup, s: Sim, a: Address, x: int, kept: seq<SimNote>, rest: seq<SimNote>, i: nat, accum: int)
    requires Tidy(c, s) && a in s.active && s.active[a] == kept + rest
    requires |kept| <= i && (rest != [] ==> i == |kept|) && accum <= x
    ensures var payable := accum + CircleValue(Denominations(rest)); Spend(c, s, a, a, x, i, accum).1 == if payable < x then payable else x
    decreases |rest|
  {
    hide *;
    ListPositive(c, s, a);
    RestCircle(kept, rest);
    SpendTurn(c, s, a, x, i, accum);
    if rest == [] {
      NoCircle(rest);
    } else if accum < x {
      assert s.active[a][i] == rest[0];
      if accum + rest[0].denomination < x {
        var kept', rest' := CircleTurn(c, s, a, kept, rest);
        SelfSpend(c, BanknoteTransfer(s, rest[0], a), a, x, kept', rest', i + 1, accum + rest[0].denomination);
      }
    }
  }

  /** One turn of the loop. */
  lemma SpendTurn(c: Setup, s: Sim, a: Address, x: int, i: nat, accum: int)
    requires Tidy(c, s) && a in s.active && accum <= x
    ensures var list, paid := s.active[a], Spend(c, s, a, a, x, i, accum).1;
      && (i >= |list| || accum == x ==> paid == accum)
      && (i < |list| && accum < x && accum + list[i].denomination >= x ==> paid == x)
      && (i < |list| && accum < x && accum + list[i].denomination < x ==>
            var s1 := BanknoteTransfer(s, list[i], a);
            Tidy(c, s1) && a in s1.active && paid == Spend(c, s1, a, a, x, i + 1, accum + list[i].denomination).1)
  {
    hide Tidy, BanknoteTransfer, BanknoteSplit;
    if i < |s.active[a]| { TransferTurn(c, s, a, i, a); }
  }

  lemma NoCircle(rest: seq<SimNote>)
    requires rest == []
    ensures CircleValue(Denominations(rest)) == 0
  {
  }

  lemma RestCircle(kept: seq<SimNote>, rest: seq<SimNote>)
    requires Positive(kept + rest)
    ensures CircleValue(Denominations(rest)) >= 0 && (rest != [] ==> CircleValue(Denominations(rest)) >= rest[0].denomination)
  {
    forall i | 0 <= i < |rest| ensures rest[i].denomination > 0 { assert rest[i] in kept + rest; }
    CircleNonnegative(Denominations(rest));
  }

  /** A transfer to oneself ends too, and creates exactly what the walk around the list falls short of, unless
      a note equals the amount. */
  lemma SelfTransfer(c: Setup, s: Sim, a: Address, x: int)
    requires ValidSetup(c) && Tidy(c, s) && x > 0
    ensures var s0, s' := Seen(c, s, a, a), ProcessTransfer(c, s, a, a, x);
      var payable := CircleValue(Denominations(s0.active[a]));
      TotalValue(s') == TotalValue(s) + DEFAULT_BALANCE * (c.shards * NewAddresses(s, a, a))
                          + if payable >= x || exists n :: n in s0.active[a] && n.denomination == x then 0 else x - payable
  {
    hide Tidy, Pay, Seen, TotalValue, Minted, CircleValue;
    SeenKeeps(c, s, a, a);
    PayKeeps(c, Seen(c, s, a, a), a, a, x);
    SelfMinted(c, Seen(c, s, a, a), a, x);
  }

  lemma SelfMinted(c: Setup, s: Sim, a: Address, x: int)
    requires Tidy(c, s) && a in s.active && x > 0
    ensures var payable := CircleValue(Denominations(s.active[a]));
      Minted(c, s, a, a, x) == if payable >= x || exists n :: n in s.active[a] && n.denomination == x then 0 else x - payable
  {
    hide Tidy, Spend, CircleValue;
    FindExactFirst(s.active[a], x);
    assert [] + s.active[a] == s.active[a];
    SelfSpend(c, s, a, x, [], s.active[a], 0, 0);
  }

  /** Every note is paid once around when all are worth the same. */
  lemma {:induction false} CircleOfEqual(values: seq<int>, d: int)
    requires forall i :: 0 <= i < |values| ==> values[i] == d
    ensures CircleValue(values) == |values| * d
    decreases |values|
  {
    if |values| > 1 {
      CircleOfEqual(values[2..] + [values[0]], d);
      OneMore(d, |values| - 1);
    }
  }
}
