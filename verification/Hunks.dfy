// Update hunks: a block of lines that must stand at exactly one place is replaced by another.
module Hunks {
  import opened Common
  import opened ByteStrings
  import opened Sequences

  type Lines = seq<Bytes>

  datatype LineKind = CONTEXT | REMOVE | ADD
  datatype PatchLine = PatchLine(kind: LineKind, text: Bytes)
  type Hunk = seq<PatchLine>

  const LF: Byte := 10
  const CR: Byte := 13

  // ----- lines of a file

  // Length of the first line with its terminator: LF, CR LF or CR alone.
  function FirstLine(content: Bytes): (n: nat)
    requires content != []
    ensures 1 <= n <= |content|
  {
    if content[0] == LF then 1
    else if content[0] == CR then if |content| > 1 && content[1] == LF then 2 else 1
    else if |content| == 1 then 1
    else 1 + FirstLine(content[1..])
  }

  function SplitLines(content: Bytes): Lines {
    if content == [] then []
    else [content[..FirstLine(content)]] + SplitLines(content[FirstLine(content)..])
  }

  function JoinLines(lines: Lines): Bytes {
    if lines == [] then [] else lines[0] + JoinLines(lines[1..])
  }

  lemma {:induction false} JoinAfterSplit(content: Bytes)
    ensures JoinLines(SplitLines(content)) == content
  {
    hide FirstLine;
    if content != [] {
      var n := FirstLine(content);
      JoinAfterSplit(content[n..]);
      JoinCons(content[..n], SplitLines(content[n..]));
    }
  }

  lemma JoinCons(line: Bytes, lines: Lines)
    ensures JoinLines([line] + lines) == line + JoinLines(lines)
  {
    assert ([line] + lines)[1..] == lines;
  }

  // One line and no more, and whether its end is marked.
  predicate OneLine(line: Bytes) {
    line != [] && FirstLine(line) == |line|
  }

  predicate Ended(line: Bytes) {
    line != [] && (line[|line| - 1] == LF || line[|line| - 1] == CR)
  }

  // What follows a line does not join it: its end is marked, and a carriage return is not completed by a line feed.
  predicate Apart(line: Bytes, rest: Bytes) {
    rest == [] || (Ended(line) && !(line[|line| - 1] == CR && rest[0] == LF))
  }

  lemma {:induction false} FirstLineExactly(line: Bytes, rest: Bytes)
    requires line != []
    ensures FirstLine(line + rest) == |line| <==> OneLine(line) && Apart(line, rest)
    decreases |line|
  {
    var content := line + rest;
    if |line| == 1 {
      assert rest != [] ==> content[1..] == rest;
    } else if line[0] != LF && line[0] != CR {
      assert content[1..] == line[1..] + rest;
      FirstLineExactly(line[1..], rest);
    }
  }

  predicate Separate(lines: Lines)
    decreases |lines|
  {
    lines == [] || (OneLine(lines[0]) && Apart(lines[0], JoinLines(lines[1..])) && Separate(lines[1..]))
  }

  // Joined lines are split into the same lines exactly when each is one line and none runs into the next.
  lemma {:induction false} SplitAfterJoinExactly(lines: Lines)
    ensures SplitLines(JoinLines(lines)) == lines <==> Separate(lines)
    decreases |lines|
  {
    hide FirstLine, Apart;
    if lines != [] {
      var line, rest := lines[0], JoinLines(lines[1..]);
      var content := JoinLines(lines);
      assert content == line + rest;
      SplitAfterJoinExactly(lines[1..]);
      if content == [] {
        assert SplitLines(content) != lines;
      } else {
        var n := FirstLine(content);
        if line != [] { FirstLineExactly(line, rest); }
        assert SplitLines(content) == [content[..n]] + SplitLines(content[n..]);
        assert n == |line| ==> content[..n] == line && content[n..] == rest;
        assert [line] + lines[1..] == lines;
        if SplitLines(content) == lines {
          assert content[..n] == line && SplitLines(content[n..]) == lines[1..];
        }
      }
    }
  }

  // ----- matching

  function OldSide(h: Hunk): Lines {
    if h == [] then [] else (if h[0].kind == ADD then [] else [h[0].text]) + OldSide(h[1..])
  }

  function NewSide(h: Hunk): Lines {
    if h == [] then [] else (if h[0].kind == REMOVE then [] else [h[0].text]) + NewSide(h[1..])
  }

  function Locate(haystack: Lines, needle: Lines): Option<nat> {
    if needle == [] then if haystack == [] then Some(0) else None
    else
      var first := NextMatch(haystack, needle, 0);
      if first.None? || NextMatch(haystack, needle, first.value + 1).Some? then None else first
  }

  method FindUnique(haystack: Lines, needle: Lines) returns (r: Option<nat>)
    ensures r == Locate(haystack, needle)
  {
    if needle == [] {
      return if haystack == [] then Some(0) else None;
    }
    hide NextMatch, MatchesAt, Locate;
    var matches: seq<nat> := [];
    var i := 0;
    assert MatchesBefore(haystack, needle, 0, matches);
    while i + |needle| <= |haystack|
      invariant MatchesBefore(haystack, needle, i, matches)
      decreases |haystack| - i
    {
      MatchesStep(haystack, needle, i, matches);
      if haystack[i..i + |needle|] == needle {
        matches := matches + [i];
      }
      i := i + 1;
    }
    LocateFromMatches(haystack, needle, i, matches);
    return if |matches| == 1 then Some(matches[0]) else None;
  }

  // All matches below i, in order.
  ghost predicate MatchesBefore(haystack: Lines, needle: Lines, i: nat, matches: seq<nat>) {
    && (forall k :: 0 <= k < |matches| ==> matches[k] < i && MatchesAt(haystack, needle, matches[k]))
    && (forall k, l :: 0 <= k < l < |matches| ==> matches[k] < matches[l])
    && (forall j: nat :: j < i && MatchesAt(haystack, needle, j) ==> j in matches)
  }

  lemma MatchesStep(haystack: Lines, needle: Lines, i: nat, matches: seq<nat>)
    requires MatchesBefore(haystack, needle, i, matches) && i + |needle| <= |haystack|
    ensures haystack[i..i + |needle|] == needle ==> MatchesBefore(haystack, needle, i + 1, matches + [i])
    ensures haystack[i..i + |needle|] != needle ==> MatchesBefore(haystack, needle, i + 1, matches)
  {
  }

  lemma LocateFromMatches(haystack: Lines, needle: Lines, i: nat, matches: seq<nat>)
    requires needle != [] && i + |needle| > |haystack| && MatchesBefore(haystack, needle, i, matches)
    ensures Locate(haystack, needle) == if |matches| == 1 then Some(matches[0]) else None
  {
    assert forall j: nat :: MatchesAt(haystack, needle, j) ==> j < i && j in matches;
    if |matches| > 1 {
      assert MatchesAt(haystack, needle, matches[0]) && MatchesAt(haystack, needle, matches[1]);
    }
  }

  function ApplyHunk(lines: Lines, h: Hunk): Option<Lines> {
    var pos := Locate(lines, OldSide(h));
    if pos.None? then None else Some(lines[..pos.value] + NewSide(h) + lines[pos.value + |OldSide(h)|..])
  }

  function ApplyHunksToLines(lines: Lines, hunks: seq<Hunk>): Option<Lines>
    decreases |hunks|
  {
    if hunks == [] then Some(lines)
    else if ApplyHunk(lines, hunks[0]).None? then None
    else ApplyHunksToLines(ApplyHunk(lines, hunks[0]).value, hunks[1..])
  }

  function PatchedContent(content: Bytes, hunks: seq<Hunk>): Option<Bytes> {
    var lines := ApplyHunksToLines(SplitLines(content), hunks);
    if lines.None? then None else Some(JoinLines(lines.value))
  }

  lemma SidesStep(h: Hunk, i: nat)
    requires i < |h|
    ensures OldSide(h[i..]) == (if h[i].kind == ADD then [] else [h[i].text]) + OldSide(h[i + 1..])
    ensures NewSide(h[i..]) == (if h[i].kind == REMOVE then [] else [h[i].text]) + NewSide(h[i + 1..])
  {
    assert h[i..][1..] == h[i + 1..];
  }

  lemma NoSides()
    ensures OldSide([]) == [] && NewSide([]) == []
  {
  }

  method Sides(h: Hunk) returns (oldLines: Lines, newLines: Lines)
    ensures oldLines == OldSide(h) && newLines == NewSide(h)
  {
    hide OldSide, NewSide;
    oldLines, newLines := [], [];
    var i := 0;
    assert h[0..] == h;
    while i < |h|
      invariant i <= |h|
      invariant oldLines + OldSide(h[i..]) == OldSide(h) && newLines + NewSide(h[i..]) == NewSide(h)
    {
      SidesStep(h, i);
      if h[i].kind != ADD {
        oldLines := oldLines + [h[i].text];
      }
      if h[i].kind != REMOVE {
        newLines := newLines + [h[i].text];
      }
      i := i + 1;
    }
    assert h[i..] == [];
    NoSides();
  }

  method ApplyHunks(content: Bytes, hunks: seq<Hunk>) returns (r: Option<Bytes>)
    ensures r == PatchedContent(content, hunks)
  {
    hide Locate, SplitLines, JoinLines;
    var lines := SplitLines(content);
    var i := 0;
    assert hunks[0..] == hunks;
    while i < |hunks|
      invariant i <= |hunks| && ApplyHunksToLines(lines, hunks[i..]) == ApplyHunksToLines(SplitLines(content), hunks)
    {
      assert hunks[i..][1..] == hunks[i + 1..];
      var oldLines, newLines := Sides(hunks[i]);
      var pos := FindUnique(lines, oldLines);
      if pos.None? {
        return None;
      }
      LocatedBlockFits(lines, oldLines);
      lines := lines[..pos.value] + newLines + lines[pos.value + |oldLines|..];
      i := i + 1;
    }
    return Some(JoinLines(lines));
  }

  lemma LocatedBlockFits(lines: Lines, needle: Lines)
    ensures Locate(lines, needle).Some? ==> MatchesAt(lines, needle, Locate(lines, needle).value)
  {
  }

  // ----- what an update means

  // A hunk with an old side applies exactly when that block of lines occurs once, and replaces that block.
  lemma HunkReplacesTheOnlyBlock(before: Lines, h: Hunk, after: Lines)
    requires OldSide(h) != []
    ensures ApplyHunk(before + OldSide(h) + after, h) == Some(before + NewSide(h) + after) ||
            ApplyHunk(before + OldSide(h) + after, h) == None
    ensures ApplyHunk(before + OldSide(h) + after, h).Some? <==>
            forall j: nat :: MatchesAt(before + OldSide(h) + after, OldSide(h), j) ==> j == |before|
  {
    var lines, block := before + OldSide(h) + after, OldSide(h);
    assert MatchesAt(lines, block, |before|);
    assert lines[..|before|] == before && lines[|before| + |block|..] == after;
    var first := NextMatch(lines, block, 0).value;
    var second := NextMatch(lines, block, first + 1);
    if second.Some? {
      assert MatchesAt(lines, block, first) && MatchesAt(lines, block, second.value);
    }
  }

  function Reversed(h: Hunk): Hunk {
    if h == [] then []
    else
      var kind := match h[0].kind case CONTEXT => CONTEXT case REMOVE => ADD case ADD => REMOVE;
      [PatchLine(kind, h[0].text)] + Reversed(h[1..])
  }

  lemma {:induction false} ReversedSwapsSides(h: Hunk)
    ensures OldSide(Reversed(h)) == NewSide(h) && NewSide(Reversed(h)) == OldSide(h)
  {
    if h != [] {
      ReversedSwapsSides(h[1..]);
      assert Reversed(h)[1..] == Reversed(h[1..]);
    }
  }

  // The hunk with additions and removals exchanged takes a change back, exactly when the new block occurs once.
  lemma ReversedHunkTakesBack(lines: Lines, h: Hunk)
    requires OldSide(h) != [] && NewSide(h) != [] && ApplyHunk(lines, h).Some?
    ensures var out := ApplyHunk(lines, h).value;
            && (ApplyHunk(out, Reversed(h)) == Some(lines) || ApplyHunk(out, Reversed(h)) == None)
            && (ApplyHunk(out, Reversed(h)).Some? <==>
                forall i: nat, j: nat :: MatchesAt(out, NewSide(h), i) && MatchesAt(out, NewSide(h), j) ==> i == j)
  {
    hide Locate;
    var pos := Locate(lines, OldSide(h)).value;
    LocatedBlockFits(lines, OldSide(h));
    var before, after := lines[..pos], lines[pos + |OldSide(h)|..];
    assert before + OldSide(h) + after == lines;
    ReversedSwapsSides(h);
    HunkReplacesTheOnlyBlock(before, Reversed(h), after);
    var out := before + NewSide(h) + after;
    assert MatchesAt(out, NewSide(h), |before|);
  }

  // ----- what hunks are made of

  // Lines of one kind.
  function AllOf(kind: LineKind, texts: Lines): (h: Hunk)
    ensures |h| == |texts|
  {
    seq(|texts|, i requires 0 <= i < |texts| => PatchLine(kind, texts[i]))
  }

  lemma {:induction false} SidesConcat(a: Hunk, b: Hunk)
    ensures OldSide(a + b) == OldSide(a) + OldSide(b) && NewSide(a + b) == NewSide(a) + NewSide(b)
    decreases |a|
  {
    if a == [] {
      assert a + b == b;
    } else {
      assert (a + b)[0] == a[0] && (a + b)[1..] == a[1..] + b;
      SidesConcat(a[1..], b);
    }
  }

  lemma {:induction false} SidesOfOneKind(kind: LineKind, texts: Lines)
    ensures OldSide(AllOf(kind, texts)) == if kind == ADD then [] else texts
    ensures NewSide(AllOf(kind, texts)) == if kind == REMOVE then [] else texts
  {
    if texts != [] {
      SidesOfOneKind(kind, texts[1..]);
      assert AllOf(kind, texts)[1..] == AllOf(kind, texts[1..]);
      assert texts == [texts[0]] + texts[1..];
    }
  }

  // A hunk that removes some lines and adds others between two runs of context replaces the ones by the others there.
  lemma ContextSurroundsChange(above: Lines, removed: Lines, added: Lines, below: Lines)
    ensures var h := AllOf(CONTEXT, above) + AllOf(REMOVE, removed) + AllOf(ADD, added) + AllOf(CONTEXT, below);
            OldSide(h) == above + removed + below && NewSide(h) == above + added + below
  {
    var change := AllOf(CONTEXT, above) + AllOf(REMOVE, removed);
    SidesConcat(change + AllOf(ADD, added), AllOf(CONTEXT, below));
    SidesConcat(change, AllOf(ADD, added));
    SidesConcat(AllOf(CONTEXT, above), AllOf(REMOVE, removed));
    SidesOfOneKind(CONTEXT, above);
    SidesOfOneKind(REMOVE, removed);
    SidesOfOneKind(ADD, added);
    SidesOfOneKind(CONTEXT, below);
    hide OldSide, NewSide;
    assert above + removed + [] + below == above + removed + below;
    assert above + [] + added + below == above + added + below;
  }

  // A hunk that only adds applies to an empty file alone.
  lemma AddingNeedsEmptyFile(lines: Lines, h: Hunk)
    requires OldSide(h) == []
    ensures ApplyHunk(lines, h) == if lines == [] then Some(NewSide(h)) else None
  {
    assert lines == [] ==> lines[..0] + NewSide(h) + lines[0..] == NewSide(h);
  }

  // Hunks apply one after the other, each to what the ones before it have made of the file; no hunks change nothing.
  lemma {:induction false} HunksInOrder(lines: Lines, hunks: seq<Hunk>, h: Hunk)
    ensures ApplyHunksToLines(lines, []) == Some(lines)
    ensures var before := ApplyHunksToLines(lines, hunks);
            ApplyHunksToLines(lines, hunks + [h]) == if before.None? then None else ApplyHunk(before.value, h)
    decreases |hunks|
  {
    hide ApplyHunk;
    if hunks == [] {
      assert (hunks + [h])[1..] == [];
    } else if ApplyHunk(lines, hunks[0]).Some? {
      assert (hunks + [h])[1..] == hunks[1..] + [h];
      HunksInOrder(ApplyHunk(lines, hunks[0]).value, hunks[1..], h);
    }
  }

  // A whole update of a file by one hunk: the only block of lines like its old side gives way to its new side.
  lemma UpdateReplacesTheOnlyBlock(content: Bytes, before: Lines, h: Hunk, after: Lines)
    requires OldSide(h) != [] && SplitLines(content) == before + OldSide(h) + after
    ensures PatchedContent(content, []) == Some(content)
    ensures PatchedContent(content, [h]) ==
            if forall j: nat :: MatchesAt(before + OldSide(h) + after, OldSide(h), j) ==> j == |before|
            then Some(JoinLines(before + NewSide(h) + after)) else None
  {
    var lines := SplitLines(content);
    JoinAfterSplit(content);
    HunkReplacesTheOnlyBlock(before, h, after);
    HunksInOrder(lines, [], h);
    assert [] + [h] == [h];
    hide ApplyHunk, SplitLines, JoinLines, MatchesAt;
  }
}
