// Which texts are patches: the parser accepts exactly the lines that spell operations out, sentinels around them.
module PatchGrammar {
  import opened Common
  import opened ByteStrings
  import opened Hunks
  import opened Trees
  import opened Planning
  import opened PatchParser

  // One operation as it is spelled: the lines of its header, of its new name and of its hunk headers, which may end in
  // any way and name paths in any way.
  datatype Spelling = Spelling(op: PatchOp, head: Bytes, move: Bytes, marks: Lines)

  predicate Names(line: Bytes, marker: Bytes, path: Path) {
    StartsWith(StripEol(line), marker) && PathOf(StripEol(line)[|marker|..]) == Some(path)
  }

  function SpelledHunks(marks: Lines, hunks: seq<Hunk>): Lines
    requires |marks| == |hunks|
  {
    if hunks == [] then [] else [marks[0]] + PrintHunkLines(hunks[0]) + SpelledHunks(marks[1..], hunks[1..])
  }

  predicate HunksOk(marks: Lines, hunks: seq<Hunk>) {
    && |marks| == |hunks|
    && (forall i :: 0 <= i < |marks| ==> StripEol(marks[i]) == HUNK)
    && (forall i :: 0 <= i < |hunks| ==> hunks[i] != [])
  }

  // An update has a new name or a hunk, and no hunk is empty.
  predicate SpellingOk(s: Spelling) {
    match s.op
    case AddFile(path, _) => Names(s.head, ADD_FILE, path)
    case RemoveFile(path) => Names(s.head, DELETE_FILE, path)
    case UpdateFile(path, moveTo, hunks) =>
      && Names(s.head, UPDATE_FILE, path) && (moveTo.Some? ==> Names(s.move, MOVE_TO, moveTo.value))
      && (moveTo.None? ==> hunks != []) && HunksOk(s.marks, hunks)
  }

  function Body(s: Spelling): Lines
    requires SpellingOk(s)
  {
    match s.op
    case AddFile(_, lines) => Prefixed(PLUS, lines)
    case RemoveFile(_) => []
    case UpdateFile(_, moveTo, hunks) => (if moveTo.Some? then [s.move] else []) + SpelledHunks(s.marks, hunks)
  }

  predicate AllOk(ss: seq<Spelling>) {
    forall i :: 0 <= i < |ss| ==> SpellingOk(ss[i])
  }

  function Spelled(ss: seq<Spelling>): Lines
    requires AllOk(ss)
  {
    if ss == [] then [] else [ss[0].head] + Body(ss[0]) + Spelled(ss[1..])
  }

  function OpsOf(ss: seq<Spelling>): (ops: seq<PatchOp>)
    ensures |ops| == |ss|
  {
    seq(|ss|, i requires 0 <= i < |ss| => ss[i].op)
  }

  predicate NoComments(lines: Lines) {
    forall i :: 0 <= i < |lines| ==> !IsComment(lines[i])
  }

  // The lines spell the operations out, between the two sentinels and with nothing after them.
  ghost predicate Spells(lines: Lines, ops: seq<PatchOp>) {
    exists begin, ss, end ::
      && AllOk(ss) && OpsOf(ss) == ops && lines == [begin] + Spelled(ss) + [end]
      && StripEol(begin) == BEGIN && StripEol(end) == END
  }

  // ----- what is parsed is spelled

  lemma ParseFirst(s: State, lines: Lines)
    requires lines != [] && Parse(s, lines).Some?
    ensures Step(s, lines[0]).Some? && Parse(s, lines) == Parse(Step(s, lines[0]).value, lines[1..])
  {
    hide Step;
  }

  lemma NoneLeftOver(s: State)
    ensures Parse(s, []).Some? <==> s.mode.After?
  {
  }

  // A line that closes an operation reads as it does at the top.
  lemma ClosingLine(s: State, ops: seq<PatchOp>, lines: Lines)
    requires lines != [] && Parse(s, lines).Some? && Step(s, lines[0]) == Step(State(Top, ops), lines[0])
    ensures Parse(s, lines) == Parse(State(Top, ops), lines)
  {
    hide Step;
  }

  lemma {:induction false} AddingIsSpelled(ops: seq<PatchOp>, path: Path, done: Lines, lines: Lines)
    returns (more: Lines, rest: Lines)
    requires NoComments(lines) && Parse(State(Adding(path, done), ops), lines).Some?
    ensures lines == Prefixed(PLUS, more) + rest
    ensures Parse(State(Adding(path, done), ops), lines) == Parse(State(Top, ops + [AddFile(path, done + more)]), rest)
    decreases |lines|
  {
    hide Parse, IsBoundary, IsComment, StripEol, TopLine;
    var s := State(Adding(path, done), ops);
    if lines == [] {
      NoneLeftOver(s);
      assert false;
    }
    ParseFirst(s, lines);
    assert !IsComment(lines[0]);
    if IsBoundary(lines[0]) {
      more, rest := [], lines;
      assert done + [] == done && [] + rest == rest;
      ClosingLine(s, ops + [AddFile(path, done)], lines);
    } else {
      var line := lines[0];
      more, rest := AddingIsSpelled(ops, path, done + [line[1..]], lines[1..]);
      assert line == [PLUS] + line[1..];
      assert done + [line[1..]] + more == done + ([line[1..]] + more);
      more := [line[1..]] + more;
      assert more[1..] == Tail(more);
      assert lines == [line] + lines[1..];
    }
  }

  function Tail(lines: Lines): Lines
    requires lines != []
  {
    lines[1..]
  }

  lemma HunkLineIsMarked(line: Bytes)
    requires HunkLine(line).Some?
    ensures line == [MarkOf(HunkLine(line).value.kind)] + HunkLine(line).value.text
  {
  }

  lemma {:induction false} HunkIsSpelled(
    ops: seq<PatchOp>, path: Path, moveTo: Option<Path>, hunks: seq<Hunk>, done: Hunk, lines: Lines)
    returns (more: Hunk, rest: Lines)
    requires NoComments(lines) && Parse(State(InHunk(path, moveTo, hunks, done), ops), lines).Some?
    ensures lines == PrintHunkLines(more) + rest && done + more != []
    ensures Parse(State(InHunk(path, moveTo, hunks, done), ops), lines) ==
            Parse(State(Updating(path, moveTo, hunks + [done + more], false), ops), rest)
    decreases |lines|
  {
    hide Parse, IsBoundary, IsComment, StripEol, TopLine, HunkLine, UpdateLine;
    var s := State(InHunk(path, moveTo, hunks, done), ops);
    if lines == [] {
      NoneLeftOver(s);
      assert false;
    }
    ParseFirst(s, lines);
    var line := lines[0];
    assert !IsComment(line);
    if StripEol(line) == HUNK || IsBoundary(line) {
      more, rest := [], lines;
      assert done + [] == done && [] + rest == rest;
      var closed := State(Updating(path, moveTo, hunks + [done], false), ops);
      assert lines == [line] + lines[1..];
      ParseCons(closed, line, lines[1..]);
    } else {
      var l := HunkLine(line).value;
      HunkLineIsMarked(line);
      more, rest := HunkIsSpelled(ops, path, moveTo, hunks, done + [l], lines[1..]);
      assert done + [l] + more == done + ([l] + more);
      assert ([l] + more)[1..] == more;
      more := [l] + more;
      assert lines == [line] + lines[1..];
    }
  }

  lemma {:induction false} HunksAreSpelled(
    ops: seq<PatchOp>, path: Path, moveTo: Option<Path>, done: seq<Hunk>, lines: Lines)
    returns (marks: Lines, more: seq<Hunk>, rest: Lines)
    requires NoComments(lines) && Parse(State(Updating(path, moveTo, done, false), ops), lines).Some?
    ensures HunksOk(marks, more) && lines == SpelledHunks(marks, more) + rest && (done + more != [] || moveTo.Some?)
    ensures Parse(State(Updating(path, moveTo, done, false), ops), lines) ==
            Parse(State(Top, ops + [UpdateFile(path, moveTo, done + more)]), rest)
    decreases |lines|
  {
    hide Parse, IsBoundary, IsComment, StripEol, TopLine;
    var s := State(Updating(path, moveTo, done, false), ops);
    if lines == [] {
      NoneLeftOver(s);
      assert false;
    }
    ParseFirst(s, lines);
    var line := lines[0];
    assert !IsComment(line);
    if IsBoundary(line) {
      marks, more, rest := [], [], lines;
      assert done + [] == done && [] + rest == rest;
      ClosingLine(s, ops + [UpdateFile(path, moveTo, done)], lines);
    } else {
      var h, tail := HunkIsSpelled(ops, path, moveTo, done, [], lines[1..]);
      assert [] + h == h;
      assert forall i :: 0 <= i < |tail| ==> tail[i] == lines[|lines| - |tail| + i];
      var marks', more';
      marks', more', rest := HunksAreSpelled(ops, path, moveTo, done + [h], tail);
      assert done + [h] + more' == done + ([h] + more');
      marks, more := [line] + marks', [h] + more';
      assert marks[1..] == marks' && more[1..] == more';
      assert lines == [line] + lines[1..];
    }
  }

  // An update, its header line already taken.
  lemma UpdateIsSpelled(ops: seq<PatchOp>, path: Path, head: Bytes, lines: Lines) returns (s: Spelling, rest: Lines)
    requires NoComments(lines) && Parse(State(Updating(path, None, [], true), ops), lines).Some?
    requires Names(head, UPDATE_FILE, path)
    ensures SpellingOk(s) && s.head == head && lines == Body(s) + rest
    ensures Parse(State(Updating(path, None, [], true), ops), lines) == Parse(State(Top, ops + [s.op]), rest)
  {
    hide Parse, IsBoundary, IsComment, StripEol, TopLine, PathOf;
    var u := State(Updating(path, None, [], true), ops);
    if lines == [] {
      NoneLeftOver(u);
      assert false;
    }
    ParseFirst(u, lines);
    var line := lines[0];
    assert !IsComment(line);
    var none: seq<Hunk> := [];
    if StartsWith(StripEol(line), MOVE_TO) {
      var moveTo := PathOf(StripEol(line)[|MOVE_TO|..]);
      var marks, more, tail := HunksAreSpelled(ops, path, moveTo, [], lines[1..]);
      assert none + more == more;
      s, rest := Spelling(UpdateFile(path, moveTo, more), head, line, marks), tail;
      assert lines == [line] + lines[1..];
    } else {
      var same := State(Updating(path, None, [], false), ops);
      assert lines == [line] + lines[1..];
      ParseCons(same, line, lines[1..]);
      var marks, more, tail := HunksAreSpelled(ops, path, None, [], lines);
      assert none + more == more;
      s, rest := Spelling(UpdateFile(path, None, more), head, line, marks), tail;
      assert [] + SpelledHunks(marks, more) == SpelledHunks(marks, more);
    }
  }

  // Operations from the top on, up to the end sentinel.
  lemma {:induction false} TopIsSpelled(ops: seq<PatchOp>, lines: Lines) returns (ss: seq<Spelling>, end: Bytes)
    requires NoComments(lines) && Parse(State(Top, ops), lines).Some?
    ensures AllOk(ss) && lines == Spelled(ss) + [end] && StripEol(end) == END
    ensures Parse(State(Top, ops), lines) == Some(ops + OpsOf(ss))
    decreases |lines|
  {
    hide Parse, IsBoundary, IsComment, StripEol, PathOf, StartsWith, Body, SpellingOk;
    var top := State(Top, ops);
    if lines == [] {
      NoneLeftOver(top);
      assert false;
    }
    ParseFirst(top, lines);
    var line := lines[0];
    assert !IsComment(line) && lines == [line] + lines[1..];
    if StripEol(line) == END {
      ss, end := [], line;
      NothingAfterEnd(ops, lines[1..]);
      assert ops + OpsOf([]) == ops;
    } else {
      var s, rest := OpIsSpelled(ops, lines);
      assert forall i :: 0 <= i < |rest| ==> rest[i] == lines[|lines| - |rest| + i];
      var ss';
      ss', end := TopIsSpelled(ops + [s.op], rest);
      ss := [s] + ss';
      assert ss[1..] == ss';
      assert ops + [s.op] + OpsOf(ss') == ops + OpsOf(ss);
    }
  }

  lemma NothingAfterEnd(ops: seq<PatchOp>, lines: Lines)
    requires NoComments(lines) && Parse(State(After, ops), lines).Some?
    ensures lines == [] && Parse(State(After, ops), lines) == Some(ops)
  {
  }

  lemma OpIsSpelled(ops: seq<PatchOp>, lines: Lines) returns (s: Spelling, rest: Lines)
    requires lines != [] && NoComments(lines) && Parse(State(Top, ops), lines).Some? && StripEol(lines[0]) != END
    ensures SpellingOk(s) && s.head == lines[0] && lines == [s.head] + Body(s) + rest
    ensures Parse(State(Top, ops), lines) == Parse(State(Top, ops + [s.op]), rest)
  {
    hide Parse, IsBoundary, IsComment, StripEol, PathOf;
    ParseFirst(State(Top, ops), lines);
    var line, tail := lines[0], lines[1..];
    var marker := StripEol(line);
    assert !IsComment(line) && lines == [line] + tail;
    if StartsWith(marker, ADD_FILE) {
      var path := PathOf(marker[|ADD_FILE|..]).value;
      var more, after := AddingIsSpelled(ops, path, [], tail);
      assert [] + more == more;
      s, rest := Spelling(AddFile(path, more), line, line, []), after;
    } else if StartsWith(marker, DELETE_FILE) {
      var path := PathOf(marker[|DELETE_FILE|..]).value;
      s, rest := Spelling(RemoveFile(path), line, line, []), tail;
      assert [line] + [] + tail == [line] + tail;
    } else {
      var path := PathOf(marker[|UPDATE_FILE|..]).value;
      s, rest := UpdateIsSpelled(ops, path, line, tail);
    }
  }

  // ----- what is spelled is parsed

  lemma {:induction false} HunksAreParsed(
    ops: seq<PatchOp>, path: Path, moveTo: Option<Path>, mayMove: bool, done: seq<Hunk>, marks: Lines,
    hunks: seq<Hunk>, tail: Lines)
    requires AtBoundary(tail) && (done + hunks != [] || moveTo.Some?) && (mayMove ==> hunks != [])
    requires HunksOk(marks, hunks)
    ensures Parse(State(Updating(path, moveTo, done, mayMove), ops), SpelledHunks(marks, hunks) + tail) ==
            Parse(State(Top, ops + [UpdateFile(path, moveTo, done + hunks)]), tail)
    decreases |hunks|
  {
    hide Parse, IsBoundary, IsComment, StripEol, TopLine, PrintHunkLines;
    var s := State(Updating(path, moveTo, done, mayMove), ops);
    if hunks == [] {
      assert [] + tail == tail && done + hunks == done;
      assert [tail[0]] + tail[1..] == tail;
      ParseCons(s, tail[0], tail[1..]);
      ParseCons(State(Top, ops + [UpdateFile(path, moveTo, done)]), tail[0], tail[1..]);
    } else {
      var after := SpelledHunks(marks[1..], hunks[1..]) + tail;
      var rest := PrintHunkLines(hunks[0]) + after;
      assert SpelledHunks(marks, hunks) + tail == [marks[0]] + rest;
      MarkIsNoBoundary(marks[0]);
      MarkersDiffer();
      ParseCons(s, marks[0], rest);
      HunksEnd(marks[1..], hunks[1..], tail);
      assert [] + hunks[0] == hunks[0];
      HunkReadsBack(ops, path, moveTo, done, [], hunks[0], after);
      HunksAreParsed(ops, path, moveTo, false, done + [hunks[0]], marks[1..], hunks[1..], tail);
      assert done + [hunks[0]] + hunks[1..] == done + hunks;
    }
  }

  lemma StrippedBegins(line: Bytes)
    ensures StripEol(line) <= line
  {
  }

  lemma MarkIsNoBoundary(line: Bytes)
    requires StripEol(line) == HUNK
    ensures !IsComment(line) && !IsBoundary(line)
  {
    MarkersDiffer();
    StrippedBegins(line);
    hide StripEol;
    assert line[0] == StripEol(line)[0];
  }

  lemma HunksEnd(marks: Lines, hunks: seq<Hunk>, tail: Lines)
    requires AtBoundary(tail) && HunksOk(marks, hunks)
    ensures AtHunkEnd(SpelledHunks(marks, hunks) + tail)
  {
    if hunks == [] {
      assert SpelledHunks(marks, hunks) + tail == tail;
    } else {
      MarkIsNoBoundary(marks[0]);
    }
  }

  // A header line in its place.
  lemma HeadIsRead(line: Bytes, marker: Bytes, path: Path)
    requires Names(line, marker, path) && |marker| > 4 && marker[0] == 0x2A
    ensures !IsComment(line) && StripEol(line)[..5] == marker[..5]
  {
    StrippedBegins(line);
    hide StripEol, PathOf;
    var m := StripEol(line);
    assert m[..|marker|] == marker && m[..5] == marker[..5];
    assert line[0] == m[0] == marker[0];
  }

  lemma {:induction false} OpIsParsed(ops: seq<PatchOp>, s: Spelling, tail: Lines)
    requires SpellingOk(s) && AtBoundary(tail)
    ensures Parse(State(Top, ops), [s.head] + Body(s) + tail) == Parse(State(Top, ops + [s.op]), tail)
    ensures AtBoundary([s.head] + Body(s) + tail)
  {
    hide Parse, IsComment, StripEol, PathOf, Prefixed;
    MarkersDiffer();
    assert [s.head] + Body(s) + tail == [s.head] + (Body(s) + tail);
    ParseCons(State(Top, ops), s.head, Body(s) + tail);
    match s.op
    case AddFile(path, lines) =>
      HeadIsRead(s.head, ADD_FILE, path);
      PayloadReadsBack(ops, path, [], lines, tail);
      assert [] + lines == lines;
    case RemoveFile(path) =>
      HeadIsRead(s.head, DELETE_FILE, path);
      assert DELETE_FILE[..5][4] != ADD_FILE[..5][4];
      assert [] + tail == tail;
    case UpdateFile(path, moveTo, hunks) =>
      HeadIsRead(s.head, UPDATE_FILE, path);
      assert UPDATE_FILE[..5][4] != ADD_FILE[..5][4] && UPDATE_FILE[..5][4] != DELETE_FILE[..5][4];
      UpdateIsParsed(ops, s, tail);
  }

  lemma UpdateIsParsed(ops: seq<PatchOp>, s: Spelling, tail: Lines)
    requires SpellingOk(s) && s.op.UpdateFile? && AtBoundary(tail)
    ensures Parse(State(Updating(s.op.path, None, [], true), ops), Body(s) + tail) ==
            Parse(State(Top, ops + [s.op]), tail)
  {
    hide Parse, IsComment, StripEol, PathOf, IsBoundary;
    var path, moveTo, hunks := s.op.path, s.op.moveTo, s.op.hunks;
    var none: seq<Hunk> := [];
    assert none + hunks == hunks;
    var rest := SpelledHunks(s.marks, hunks) + tail;
    if moveTo.None? {
      assert Body(s) + tail == rest;
      HunksAreParsed(ops, path, None, true, [], s.marks, hunks, tail);
    } else {
      assert Body(s) + tail == [s.move] + rest;
      MarkersDiffer();
      HeadIsRead(s.move, MOVE_TO, moveTo.value);
      ParseCons(State(Updating(path, None, [], true), ops), s.move, rest);
      HunksAreParsed(ops, path, moveTo, false, [], s.marks, hunks, tail);
    }
  }

  lemma {:induction false} SpelledIsParsed(done: seq<PatchOp>, ss: seq<Spelling>, end: Bytes)
    requires AllOk(ss) && StripEol(end) == END
    ensures Parse(State(Top, done), Spelled(ss) + [end]) == Some(done + OpsOf(ss))
    ensures AtBoundary(Spelled(ss) + [end])
    decreases |ss|
  {
    hide Step, IsBoundary, IsComment, Body, SpellingOk, StripEol;
    if ss == [] {
      EndLine(done, end);
      ParseCons(State(Top, done), end, []);
      assert [] + [end] == [end] + [] && done + OpsOf(ss) == done;
    } else {
      var tail := Spelled(ss[1..]) + [end];
      assert Spelled(ss) + [end] == [ss[0].head] + Body(ss[0]) + tail;
      SpelledIsParsed(done + [ss[0].op], ss[1..], end);
      OpIsParsed(done, ss[0], tail);
      assert done + [ss[0].op] + OpsOf(ss[1..]) == done + OpsOf(ss);
    }
  }

  lemma EndLine(ops: seq<PatchOp>, end: Bytes)
    requires StripEol(end) == END
    ensures Step(State(Top, ops), end) == Some(State(After, ops)) && IsBoundary(end) && !IsComment(end)
  {
    MarkersDiffer();
    StrippedBegins(end);
    hide StripEol;
    assert end[0] == END[0];
  }

  // A patch is read exactly when its lines, comments aside, spell operations out between the sentinels; and then those
  // operations are what is read.
  lemma {:induction false} ParsedExactly(lines: Lines, ops: seq<PatchOp>)
    ensures ParseLines(lines) == Some(ops) <==> Spells(WithoutComments(lines), ops)
  {
    hide Parse, IsComment, StripEol, Spells;
    CommentsAreIgnored(State(Before, []), lines);
    NoneAreComments(lines);
    UncommentedExactly(WithoutComments(lines), ops);
  }

  lemma {:induction false} NoneAreComments(lines: Lines)
    ensures NoComments(WithoutComments(lines))
  {
    hide IsComment;
    if lines != [] {
      NoneAreComments(lines[1..]);
    }
  }

  lemma UncommentedExactly(lines: Lines, ops: seq<PatchOp>)
    requires NoComments(lines)
    ensures ParseLines(lines) == Some(ops) <==> Spells(lines, ops)
  {
    hide Parse, StripEol, Spelled, Body, SpellingOk;
    var start := State(Before, []);
    if ParseLines(lines) == Some(ops) {
      NoneLeftOver(start);
      ParseFirst(start, lines);
      assert !IsComment(lines[0]);
      var ss, end := TopIsSpelled([], lines[1..]);
      assert [] + OpsOf(ss) == OpsOf(ss);
      assert lines == [lines[0]] + lines[1..];
      assert lines == [lines[0]] + Spelled(ss) + [end];
    }
    if begin, ss, end :|
        AllOk(ss) && OpsOf(ss) == ops && lines == [begin] + Spelled(ss) + [end]
        && StripEol(begin) == BEGIN && StripEol(end) == END {
      assert lines[0] == begin && !IsComment(begin);
      assert lines == [begin] + (Spelled(ss) + [end]);
      ParseCons(start, begin, Spelled(ss) + [end]);
      SpelledIsParsed([], ss, end);
      assert [] + OpsOf(ss) == OpsOf(ss);
    }
  }

  // ----- line ends and comments

  // A line feed at the end of a line is no part of what it says, nor is a carriage return before it.
  lemma LineEndsAreStripped(b: Bytes)
    ensures StripEol(b + [CR, LF]) == b
    ensures (b == [] || b[|b| - 1] != CR) ==> StripEol(b + [LF]) == b
    ensures (b == [] || b[|b| - 1] != LF) ==> StripEol(b) == b
  {
    StripBoth(b);
    if b == [] || b[|b| - 1] != CR { StripLineFeed(b); }
    if b == [] || b[|b| - 1] != LF { StripNothing(b); }
    hide StripEol;
  }

  lemma StripBoth(b: Bytes)
    ensures StripEol(b + [CR, LF]) == b
  {
    var line := b + [CR, LF];
    assert line[|line| - 2..] == [CR, LF] && line[..|line| - 2] == b;
  }

  lemma StripLineFeed(b: Bytes)
    requires b == [] || b[|b| - 1] != CR
    ensures StripEol(b + [LF]) == b
  {
    var line := b + [LF];
    assert line[..|line| - 1] == b;
    if b != [] {
      assert line[|line| - 2..][0] == b[|b| - 1];
    }
  }

  lemma StripNothing(b: Bytes)
    requires b == [] || b[|b| - 1] != LF
    ensures StripEol(b) == b
  {
    if |b| >= 2 {
      assert b[|b| - 2..][1] == b[|b| - 1];
    }
  }

  lemma {:induction false} WithoutConcat(a: Lines, b: Lines)
    ensures WithoutComments(a + b) == WithoutComments(a) + WithoutComments(b)
    decreases |a|
  {
    hide IsComment;
    if a == [] {
      assert a + b == b;
    } else {
      assert (a + b)[0] == a[0] && (a + b)[1..] == a[1..] + b;
      WithoutConcat(a[1..], b);
    }
  }

  // A line that begins with "#" may stand anywhere in a patch, and changes nothing.
  lemma HashLineIsSkipped(before: Lines, text: Bytes, after: Lines)
    ensures ParseLines(before + [[0x23] + text] + after) == ParseLines(before + after)
  {
    var line: Lines := [[0x23] + text];
    assert line[1..] == [] && IsComment(line[0]);
    assert WithoutComments(line) == [];
    hide Parse, WithoutComments;
    CommentsAreIgnored(State(Before, []), before + line + after);
    CommentsAreIgnored(State(Before, []), before + after);
    WithoutConcat(before + line, after);
    WithoutConcat(before, line);
    WithoutConcat(before, after);
    assert WithoutComments(before) + [] == WithoutComments(before);
  }
}
