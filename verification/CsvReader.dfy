/** The reader that cuts the data file into groups of lines separated by lines that begin with "~".
    A group is its list of lines; what its fields mean is not modelled. */
module CsvReader {
  import opened BanknoteTypes

  /** Up to and including the next newline, or everything that is left when there is none. */
  function LineEnd(s: string): (n: nat)
    ensures n <= |s| && forall i :: 0 <= i < n - 1 ==> s[i] != '\n'
  {
    if s == [] then 0 else if s[0] == '\n' then 1 else 1 + LineEnd(s[1..])
  }

  predicate Terminated(s: string) { s != [] && s[LineEnd(s) - 1] == '\n' }

  predicate Separator(line: string) { line != [] && line[0] == '~' }

  datatype ReaderState = ReaderState(unread: string, isEOF: bool, countLine: nat)

  /** The loop of one read, with the lines gathered so far. */
  function Scan(st: ReaderState, batch: seq<string>): (Option<seq<string>>, ReaderState)
    decreases |st.unread|
  {
    var n := LineEnd(st.unread);
    var line := st.unread[..n];
    var st1 := ReaderState(st.unread[n..], st.isEOF, st.countLine + 1);
    if !Terminated(st.unread) then (if batch != [] then Some(batch) else None, st1.(isEOF := true))
    else if Separator(line) then (if batch != [] then (Some(batch), st1) else Scan(st1, batch))
    else Scan(st1, batch + [line])
  }

  function Next(st: ReaderState): (Option<seq<string>>, ReaderState) { if st.isEOF then (None, st) else Scan(st, []) }

  class BanknoteDatasetBatchReader {
    var unread: string
    var isEOF: bool
    var countLine: nat

    function State(): ReaderState
      reads this
    {
      ReaderState(unread, isEOF, countLine)
    }

    /** Opens the file and drops its first line. */
    constructor (file: string)
      ensures State() == ReaderState(file[LineEnd(file)..], false, 0)
    {
      unread, isEOF, countLine := file[LineEnd(file)..], false, 0;
    }

    /** Reads a line; `eof` when the input ends before a newline. */
    method ReadString() returns (line: string, eof: bool)
      modifies this`unread
      ensures line == old(unread)[..LineEnd(old(unread))] && unread == old(unread)[LineEnd(old(unread))..]
      ensures eof <==> !Terminated(old(unread))
    {
      var n := LineEnd(unread);
      line, eof := unread[..n], !Terminated(unread);
      unread := unread[n..];
    }

    method ReadBatch() returns (batch: Option<seq<string>>)
      modifies this
      ensures (batch, State()) == Next(old(State()))
    {
      if isEOF {
        return None;
      }
      var batchData: seq<string> := [];
      while true
        invariant !isEOF && Scan(State(), batchData) == Scan(old(State()), [])
        decreases |unread|
      {
        var line, eof := ReadString();
        countLine := countLine + 1;
        if eof {
          isEOF := true;
          if |batchData| > 0 {
            break;
          } else {
            return None;
          }
        }
        if Separator(line) {
          if |batchData| > 0 {
            break;
          }
          continue;
        }
        batchData := batchData + [line];
      }
      return if |batchData| == 0 then None else Some(batchData);
    }
  }

  // The lines of the input and their groups

  /** The newline-terminated lines of the input; an unterminated end is not a line. */
  function Lines(s: string): seq<string>
    decreases |s|
  {
    if !Terminated(s) then [] else [s[..LineEnd(s)]] + Lines(s[LineEnd(s)..])
  }

  /** The length of the group that the lines begin with. */
  function GroupLength(lines: seq<string>): (n: nat)
    ensures n <= |lines| && (n < |lines| ==> Separator(lines[n]))
    ensures forall i :: 0 <= i < n ==> !Separator(lines[i])
  {
    if lines == [] || Separator(lines[0]) then 0 else 1 + GroupLength(lines[1..])
  }

  /** The maximal runs of lines that are not separators. */
  function Groups(lines: seq<string>): seq<seq<string>>
    decreases |lines|
  {
    if lines == [] then []
    else if Separator(lines[0]) then Groups(lines[1..])
    else [lines[..GroupLength(lines)]] + Groups(lines[GroupLength(lines)..])
  }

  /** The groups that are still to be read. */
  function Remaining(st: ReaderState): seq<seq<string>> { if st.isEOF then [] else Groups(Lines(st.unread)) }

  lemma NoGroups()
    ensures Groups([]) == [] && GroupLength([]) == 0
  {
  }

  lemma GroupsSkip(lines: seq<string>)
    requires lines != [] && Separator(lines[0])
    ensures Groups(lines) == Groups(lines[1..]) && GroupLength(lines) == 0
  {
  }

  lemma GroupsTake(lines: seq<string>)
    requires lines != [] && !Separator(lines[0])
    ensures Groups(lines) == [lines[..GroupLength(lines)]] + Groups(lines[GroupLength(lines)..])
    ensures GroupLength(lines) == 1 + GroupLength(lines[1..])
  {
  }

  lemma {:induction false} ScanGathers(st: ReaderState, batch: seq<string>)
    requires !st.isEOF && batch != []
    ensures var lines := Lines(st.unread);
      var (got, st') := Scan(st, batch);
      got == Some(batch + lines[..GroupLength(lines)]) && Remaining(st') == Groups(lines[GroupLength(lines)..])
    decreases |st.unread|
  {
    hide Groups, LineEnd, GroupLength;
    var lines := Lines(st.unread);
    if Terminated(st.unread) {
      var n := LineEnd(st.unread);
      var st1 := ReaderState(st.unread[n..], st.isEOF, st.countLine + 1);
      assert lines[1..] == Lines(st1.unread);
      if !Separator(lines[0]) {
        GroupsTake(lines);
        ScanGathers(st1, batch + [lines[0]]);
        var k := GroupLength(lines[1..]);
        assert (batch + [lines[0]]) + lines[1..][..k] == batch + lines[..k + 1];
        assert lines[1..][k..] == lines[k + 1..];
      } else {
        GroupsSkip(lines);
        assert lines[0..] == lines;
        assert batch + lines[..0] == batch;
      }
    } else {
      NoGroups();
      assert batch + lines[..0] == batch && lines[0..] == [];
    }
  }

  /** One read returns the next group and leaves the groups after it; with none left it returns nil. */
  lemma {:induction false} NextGroup(st: ReaderState)
    ensures var (got, st') := Next(st);
      if Remaining(st) == [] then got == None && Remaining(st') == []
      else got == Some(Remaining(st)[0]) && Remaining(st') == Remaining(st)[1..]
    decreases |st.unread|
  {
    if !st.isEOF && Terminated(st.unread) {
      var n := LineEnd(st.unread);
      var lines := Lines(st.unread);
      var st1 := ReaderState(st.unread[n..], st.isEOF, st.countLine + 1);
      assert lines[1..] == Lines(st1.unread);
      if Separator(lines[0]) {
        NextGroup(st1);
      } else {
        ScanGathers(st1, [lines[0]]);
        var k := GroupLength(lines[1..]);
        assert [] + [lines[0]] == [lines[0]];
        assert [lines[0]] + lines[1..][..k] == lines[..k + 1];
        assert lines[1..][k..] == lines[k + 1..];
      }
    }
  }

  /** The state after `k` reads, and what read number `k` returns. */
  function After(st: ReaderState, k: nat): ReaderState { if k == 0 then st else Next(After(st, k - 1)).1 }

  function Read(st: ReaderState, k: nat): Option<seq<string>> { Next(After(st, k)).0 }

  lemma {:induction false} RemainingAfter(st: ReaderState, k: nat)
    ensures Remaining(After(st, k)) == if k <= |Remaining(st)| then Remaining(st)[k..] else []
  {
    if k > 0 {
      RemainingAfter(st, k - 1);
      NextGroup(After(st, k - 1));
    }
  }

  /** Repeated reads return exactly the groups of the terminated lines, in order, and then nil forever. */
  lemma ReadsGroups(input: string, k: nat)
    ensures var st, groups := ReaderState(input, false, 0), Groups(Lines(input));
      Read(st, k) == if k < |groups| then Some(groups[k]) else None
  {
    RemainingAfter(ReaderState(input, false, 0), k);
    NextGroup(After(ReaderState(input, false, 0), k));
  }

  // Counting lines

  /** What a read adds to the line number: the lines it consumes, and one more when it runs into the end. */
  lemma {:induction false} ScanCounts(st: ReaderState, batch: seq<string>)
    requires !st.isEOF
    ensures var st' := Scan(st, batch).1;
      st'.countLine - st.countLine == |Lines(st.unread)| - |Lines(st'.unread)| + if st'.isEOF then 1 else 0
    decreases |st.unread|
  {
    var n := LineEnd(st.unread);
    var line := st.unread[..n];
    var st1 := ReaderState(st.unread[n..], st.isEOF, st.countLine + 1);
    assert Terminated(st.unread) ==> n > 0;
    hide LineEnd;
    if !Terminated(st.unread) {
      NothingAfter(st.unread);
    } else if !Separator(line) {
      ScanCounts(st1, batch + [line]);
    } else if batch == [] {
      ScanCounts(st1, batch);
    }
  }

  lemma {:induction false} NothingAfter(s: string)
    requires !Terminated(s)
    ensures LineEnd(s) == |s| && Lines(s[LineEnd(s)..]) == []
  {
    if s != [] && s[0] != '\n' && s[1..] != [] {
      assert s[1..][LineEnd(s[1..]) - 1] == s[LineEnd(s) - 1];
      NothingAfter(s[1..]);
    }
  }

  /** After any number of reads the line number is the number of lines read, and one more from the end on. */
  lemma {:induction false} LinesCounted(input: string, k: nat)
    ensures var st := After(ReaderState(input, false, 0), k);
      st.countLine == |Lines(input)| - |Lines(st.unread)| + if st.isEOF then 1 else 0
  {
    if k > 0 {
      LinesCounted(input, k - 1);
      var st := After(ReaderState(input, false, 0), k - 1);
      hide Scan, Lines;
      if !st.isEOF { ScanCounts(st, []); }
    }
  }

  // Round trip

  /** A line as it is written: its text without newlines, then a newline. */
  predicate IsLine(line: string) { line != [] && line[|line| - 1] == '\n' && forall i :: 0 <= i < |line| - 1 ==> line[i] != '\n' }

  function Text(lines: seq<string>): string { if lines == [] then [] else lines[0] + Text(lines[1..]) }

  lemma {:induction false} LineEndIs(line: string, rest: string)
    requires IsLine(line)
    ensures LineEnd(line + rest) == |line|
  {
    if |line| > 1 {
      LineEndIs(line[1..], rest);
      assert (line + rest)[1..] == line[1..] + rest;
    }
  }

  /** Writing lines and splitting the text gives the lines back; an unterminated last line is lost. */
  lemma {:induction false} LinesOfText(lines: seq<string>, tail: string)
    requires (forall line :: line in lines ==> IsLine(line)) && '\n' !in tail
    ensures Lines(Text(lines) + tail) == lines
  {
    if lines == [] {
      assert Text(lines) + tail == tail;
    } else {
      var rest := Text(lines[1..]) + tail;
      assert Text(lines) + tail == lines[0] + rest;
      LineEndIs(lines[0], rest);
      LinesOfText(lines[1..], tail);
      assert (lines[0] + rest)[..|lines[0]|] == lines[0] && (lines[0] + rest)[|lines[0]|..] == rest;
    }
  }

  /** A group that can be read back: not empty, and without lines that begin with "~". */
  predicate IsGroup(group: seq<string>) { group != [] && forall line :: line in group ==> IsLine(line) && line[0] != '~' }

  /** The groups as they are written, a separator line after each. */
  function Written(groups: seq<seq<string>>, sep: string): seq<string> {
    if groups == [] then [] else groups[0] + [sep] + Written(groups[1..], sep)
  }

  lemma {:induction false} GroupLengthIs(group: seq<string>, sep: string, rest: seq<string>)
    requires (forall line :: line in group ==> !Separator(line)) && Separator(sep)
    ensures GroupLength(group + [sep] + rest) == |group|
  {
    var all := group + [sep] + rest;
    if group != [] {
      GroupLengthIs(group[1..], sep, rest);
      assert all[1..] == group[1..] + [sep] + rest;
      assert group[0] in group;
    }
  }

  lemma {:induction false} GroupsOfWritten(groups: seq<seq<string>>, sep: string)
    requires (forall g :: g in groups ==> IsGroup(g)) && IsLine(sep) && Separator(sep)
    ensures Groups(Written(groups, sep)) == groups
    ensures forall line :: line in Written(groups, sep) ==> IsLine(line)
  {
    if groups != [] {
      var g, rest := groups[0], Written(groups[1..], sep);
      var all := g + [sep] + rest;
      assert IsGroup(g);
      GroupsOfWritten(groups[1..], sep);
      GroupLengthIs(g, sep, rest);
      assert all[0] == g[0] && g[0] in g;
      assert all[..|g|] == g;
      assert all[|g|..] == [sep] + rest && ([sep] + rest)[1..] == rest;
    }
  }

  /** Round trip: groups written with separator lines between them are read back in order, then nil forever,
      whatever unterminated text follows. */
  lemma RoundTrip(groups: seq<seq<string>>, sep: string, tail: string, k: nat)
    requires (forall g :: g in groups ==> IsGroup(g)) && IsLine(sep) && sep[0] == '~' && '\n' !in tail
    ensures Read(ReaderState(Text(Written(groups, sep)) + tail, false, 0), k) == if k < |groups| then Some(groups[k]) else None
  {
    GroupsOfWritten(groups, sep);
    LinesOfText(Written(groups, sep), tail);
    ReadsGroups(Text(Written(groups, sep)) + tail, k);
  }

  /** A separator at the beginning, or next to another separator, changes nothing. */
  lemma {:induction false} ExtraSeparator(front: seq<string>, back: seq<string>, sep: string)
    requires Separator(sep) && (front == [] || Separator(front[|front| - 1]) || back == [] || Separator(back[0]))
    ensures Groups(front + [sep] + back) == Groups(front + back)
    decreases |front|
  {
    hide Groups, GroupLength;
    var all, plain := front + [sep] + back, front + back;
    if front == [] {
      GroupsSkip(all);
      assert all[1..] == back == plain;
    } else if Separator(front[0]) {
      GroupsSkip(all);
      GroupsSkip(plain);
      assert all[1..] == front[1..] + [sep] + back && plain[1..] == front[1..] + back;
      if |front| > 1 { ExtraSeparator(front[1..], back, sep); } else { SepBefore(back, sep); }
    } else {
      var n := GroupLength(front);
      GroupsTake(front);
      if n < |front| {
        ExtraSeparator(front[n..], back, sep);
      } else {
        assert front[n..] == [];
        SepBefore(back, sep);
      }
      ExtraInGroup(front, back, sep);
      assert all == front + ([sep] + back) && front[n..] + [sep] + back == front[n..] + ([sep] + back);
      TakeFirst(front, [sep] + back);
      TakeFirst(front, back);
    }
  }

  /** A tail that does not lengthen the first group leaves it as it is. */
  lemma TakeFirst(front: seq<string>, tail: seq<string>)
    requires front != [] && !Separator(front[0]) && GroupLength(front + tail) == GroupLength(front)
    ensures var n := GroupLength(front); Groups(front + tail) == [front[..n]] + Groups(front[n..] + tail)
  {
    var n := GroupLength(front);
    hide Groups, GroupLength;
    GroupsTake(front + tail);
    assert (front + tail)[..n] == front[..n] && (front + tail)[n..] == front[n..] + tail;
  }

  lemma SepBefore(back: seq<string>, sep: string)
    requires Separator(sep)
    ensures Groups([] + [sep] + back) == Groups([] + back)
  {
    assert ([] + [sep] + back)[1..] == back == [] + back;
  }

  lemma {:induction false} ExtraInGroup(front: seq<string>, back: seq<string>, sep: string)
    requires Separator(sep) && (front == [] || Separator(front[|front| - 1]) || back == [] || Separator(back[0]))
    ensures GroupLength(front + [sep] + back) == GroupLength(front)
    ensures front != [] ==> GroupLength(front + back) == GroupLength(front)
  {
    if front != [] && !Separator(front[0]) {
      assert (front + [sep] + back)[1..] == front[1..] + [sep] + back;
      assert (front + back)[1..] == front[1..] + back;
      ExtraInGroup(front[1..], back, sep);
      if |front| == 1 { assert front[1..] + back == back; }
    }
  }
}
