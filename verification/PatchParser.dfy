// The patch parser: nested loops over the lines of a patch, specified line by line.
module PatchParser {
  import opened Common
  import opened ByteStrings
  import opened SafePaths
  import opened Hunks
  import opened Trees
  import opened Planning

  function Ascii(s: string): (b: Bytes)
    requires forall i :: 0 <= i < |s| ==> s[i] < 128 as char
    ensures |b| == |s|
  {
    seq(|s|, i requires 0 <= i < |s| => s[i] as int)
  }

  const BEGIN: Bytes := Ascii("*** Begin Patch")
  const END: Bytes := Ascii("*** End Patch")
  const ADD_FILE: Bytes := Ascii("*** Add File: ")
  const DELETE_FILE: Bytes := Ascii("*** Delete File: ")
  const UPDATE_FILE: Bytes := Ascii("*** Update File: ")
  const MOVE_TO: Bytes := Ascii("*** Move to: ")
  const AT: Byte := 0x40
  const HUNK: Bytes := [AT, AT]
  const HASH: Byte := 0x23
  const PLUS: Byte := 0x2B
  const MINUS: Byte := 0x2D
  const SPACE: Byte := 0x20

  function StripEol(line: Bytes): Bytes {
    if |line| >= 2 && line[|line| - 2..] == [CR, LF] then line[..|line| - 2]
    else if |line| >= 1 && line[|line| - 1] == LF then line[..|line| - 1]
    else line
  }

  predicate StartsWith(line: Bytes, prefix: Bytes) {
    prefix <= line
  }

  predicate IsComment(line: Bytes) {
    line != [] && line[0] == HASH
  }

  predicate IsBoundary(line: Bytes) {
    var marker := StripEol(line);
    marker == END || StartsWith(marker, ADD_FILE) || StartsWith(marker, DELETE_FILE) || StartsWith(marker, UPDATE_FILE)
  }

  function PathOf(b: Bytes): Option<Path> {
    var p := SafePath(b);
    if p.None? then None else Some(Components(p.value))
  }

  // ----- the grammar, line by line

  datatype Mode =
    | Before
    | Top
    | Adding(path: Path, lines: Lines)
    | Updating(path: Path, moveTo: Option<Path>, hunks: seq<Hunk>, mayMove: bool)
    | InHunk(path: Path, moveTo: Option<Path>, hunks: seq<Hunk>, hunk: Hunk)
    | After

  datatype State = State(mode: Mode, ops: seq<PatchOp>)

  function TopLine(ops: seq<PatchOp>, marker: Bytes): Option<State> {
    if marker == END then Some(State(After, ops))
    else if StartsWith(marker, ADD_FILE) then
      var p := PathOf(marker[|ADD_FILE|..]);
      if p.None? then None else Some(State(Adding(p.value, []), ops))
    else if StartsWith(marker, DELETE_FILE) then
      var p := PathOf(marker[|DELETE_FILE|..]);
      if p.None? then None else Some(State(Top, ops + [RemoveFile(p.value)]))
    else if StartsWith(marker, UPDATE_FILE) then
      var p := PathOf(marker[|UPDATE_FILE|..]);
      if p.None? then None else Some(State(Updating(p.value, None, [], true), ops))
    else None
  }

  function HunkLine(line: Bytes): Option<PatchLine> {
    if line == [] then None
    else if line[0] == SPACE then Some(PatchLine(CONTEXT, line[1..]))
    else if line[0] == MINUS then Some(PatchLine(REMOVE, line[1..]))
    else if line[0] == PLUS then Some(PatchLine(ADD, line[1..]))
    else None
  }

  // An update needs a hunk or a new name.
  function CloseUpdate(ops: seq<PatchOp>, path: Path, moveTo: Option<Path>, hunks: seq<Hunk>): Option<seq<PatchOp>> {
    if hunks == [] && moveTo.None? then None else Some(ops + [UpdateFile(path, moveTo, hunks)])
  }

  function UpdateLine(ops: seq<PatchOp>, path: Path, moveTo: Option<Path>, hunks: seq<Hunk>,
      line: Bytes): Option<State> {
    if IsBoundary(line) then
      var closed := CloseUpdate(ops, path, moveTo, hunks);
      if closed.None? then None else TopLine(closed.value, StripEol(line))
    else if StripEol(line) == HUNK then Some(State(InHunk(path, moveTo, hunks, []), ops))
    else None
  }

  function Step(s: State, line: Bytes): Option<State> {
    if IsComment(line) && !s.mode.After? then Some(s)
    else
      match s.mode
      case Before => if StripEol(line) == BEGIN then Some(State(Top, s.ops)) else None
      case Top => TopLine(s.ops, StripEol(line))
      case Adding(path, lines) =>
        if IsBoundary(line) then TopLine(s.ops + [AddFile(path, lines)], StripEol(line))
        else if StartsWith(line, [PLUS]) then Some(State(Adding(path, lines + [line[1..]]), s.ops))
        else None
      case Updating(path, moveTo, hunks, mayMove) =>
        if mayMove && StartsWith(StripEol(line), MOVE_TO) then
          var p := PathOf(StripEol(line)[|MOVE_TO|..]);
          if p.None? then None else Some(State(Updating(path, p, hunks, false), s.ops))
        else UpdateLine(s.ops, path, moveTo, hunks, line)
      case InHunk(path, moveTo, hunks, hunk) =>
        if StripEol(line) == HUNK || IsBoundary(line) then
          if hunk == [] then None else UpdateLine(s.ops, path, moveTo, hunks + [hunk], line)
        else if HunkLine(line).None? then None
        else Some(State(InHunk(path, moveTo, hunks, hunk + [HunkLine(line).value]), s.ops))
      case After => if IsComment(line) then Some(s) else None
  }

  function Parse(s: State, lines: Lines): Option<seq<PatchOp>>
    decreases |lines|
  {
    if lines == [] then if s.mode.After? then Some(s.ops) else None
    else
      var next := Step(s, lines[0]);
      if next.None? then None else Parse(next.value, lines[1..])
  }

  function ParseLines(lines: Lines): Option<seq<PatchOp>> {
    Parse(State(Before, []), lines)
  }

  // ----- the loops

  lemma ParseStep(s: State, lines: Lines, i: nat)
    requires i <= |lines|
    ensures i < |lines| ==>
              Parse(s, lines[i..]) ==
              var next := Step(s, lines[i]); if next.None? then None else Parse(next.value, lines[i + 1..])
    ensures i == |lines| ==> Parse(s, lines[i..]) == if s.mode.After? then Some(s.ops) else None
  {
    hide Step;
    if i < |lines| {
      assert lines[i..][1..] == lines[i + 1..];
    }
  }

  method SkipComments(s: State, lines: Lines, start: nat) returns (i: nat)
    requires start <= |lines|
    ensures start <= i <= |lines| && Parse(s, lines[i..]) == Parse(s, lines[start..])
    ensures i < |lines| ==> !IsComment(lines[i])
  {
    hide Parse, IsComment;
    i := start;
    while i < |lines| && IsComment(lines[i])
      invariant start <= i <= |lines| && Parse(s, lines[i..]) == Parse(s, lines[start..])
    {
      ParseStep(s, lines, i);
      CommentStep(s, lines[i]);
      i := i + 1;
    }
  }

  lemma CommentStep(s: State, line: Bytes)
    requires IsComment(line)
    ensures Step(s, line) == Some(s)
  {
  }

  // The payload of an added file.
  method ParseAdd(ops: seq<PatchOp>, path: Path, lines: Lines, start: nat) returns (r: Option<Lines>, i: nat)
    requires start <= |lines|
    ensures start <= i <= |lines|
    ensures Parse(State(Adding(path, []), ops), lines[start..]) ==
            if r.None? then None else Parse(State(Top, ops + [AddFile(path, r.value)]), lines[i..])
  {
    hide Parse, IsComment, IsBoundary, TopLine, StripEol;
    var added: Lines := [];
    i := start;
    while i < |lines|
      invariant start <= i <= |lines|
      invariant Parse(State(Adding(path, []), ops), lines[start..])
                == Parse(State(Adding(path, added), ops), lines[i..])
    {
      ParseStep(State(Adding(path, added), ops), lines, i);
      ParseStep(State(Top, ops + [AddFile(path, added)]), lines, i);
      if IsComment(lines[i]) {
        i := i + 1;
        continue;
      }
      if IsBoundary(lines[i]) {
        return Some(added), i;
      }
      if !StartsWith(lines[i], [PLUS]) {
        return None, i;
      }
      added := added + [lines[i][1..]];
      i := i + 1;
    }
    ParseStep(State(Adding(path, added), ops), lines, i);
    ParseStep(State(Top, ops + [AddFile(path, added)]), lines, i);
    return Some(added), i;
  }

  // The lines of one hunk, up to the next hunk header or operation.
  method ParseHunk(ops: seq<PatchOp>, path: Path, moveTo: Option<Path>, hunks: seq<Hunk>, lines: Lines, start: nat)
    returns (r: Option<Hunk>, i: nat)
    requires start <= |lines|
    ensures start <= i <= |lines|
    ensures Parse(State(InHunk(path, moveTo, hunks, []), ops), lines[start..]) ==
            if r.None? then None else Parse(State(Updating(path, moveTo, hunks + [r.value], false), ops), lines[i..])
  {
    hide Parse, IsComment, IsBoundary, UpdateLine, StripEol, HunkLine;
    var hunk: Hunk := [];
    i := start;
    while i < |lines|
      invariant start <= i <= |lines|
      invariant Parse(State(InHunk(path, moveTo, hunks, []), ops), lines[start..]) ==
                Parse(State(InHunk(path, moveTo, hunks, hunk), ops), lines[i..])
    {
      ParseStep(State(InHunk(path, moveTo, hunks, hunk), ops), lines, i);
      ParseStep(State(Updating(path, moveTo, hunks + [hunk], false), ops), lines, i);
      if IsComment(lines[i]) {
        i := i + 1;
        continue;
      }
      if StripEol(lines[i]) == HUNK || IsBoundary(lines[i]) {
        return if hunk == [] then None else Some(hunk), i;
      }
      var line := HunkLine(lines[i]);
      if line.None? {
        return None, i;
      }
      hunk := hunk + [line.value];
      i := i + 1;
    }
    ParseStep(State(InHunk(path, moveTo, hunks, hunk), ops), lines, i);
    ParseStep(State(Updating(path, moveTo, hunks + [hunk], false), ops), lines, i);
    return if hunk == [] then None else Some(hunk), i;
  }

  method ParseHunks(ops: seq<PatchOp>, path: Path, moveTo: Option<Path>, lines: Lines, start: nat)
    returns (r: Option<seq<Hunk>>, i: nat)
    requires start <= |lines|
    ensures start <= i <= |lines|
    ensures Parse(State(Updating(path, moveTo, [], false), ops), lines[start..]) ==
            if r.None? || CloseUpdate(ops, path, moveTo, r.value).None? then None
            else Parse(State(Top, CloseUpdate(ops, path, moveTo, r.value).value), lines[i..])
  {
    hide Parse, IsComment, IsBoundary, TopLine, StripEol, CloseUpdate;
    var hunks: seq<Hunk> := [];
    i := start;
    while i < |lines|
      invariant start <= i <= |lines|
      invariant Parse(State(Updating(path, moveTo, [], false), ops), lines[start..]) ==
                Parse(State(Updating(path, moveTo, hunks, false), ops), lines[i..])
    {
      ParseStep(State(Updating(path, moveTo, hunks, false), ops), lines, i);
      if IsComment(lines[i]) {
        i := i + 1;
        continue;
      }
      if IsBoundary(lines[i]) {
        if CloseUpdate(ops, path, moveTo, hunks).Some? {
          ParseStep(State(Top, CloseUpdate(ops, path, moveTo, hunks).value), lines, i);
        }
        return Some(hunks), i;
      }
      if StripEol(lines[i]) != HUNK {
        return None, i;
      }
      var hunk, next := ParseHunk(ops, path, moveTo, hunks, lines, i + 1);
      i := next;
      if hunk.None? {
        return None, i;
      }
      hunks := hunks + [hunk.value];
    }
    ParseStep(State(Updating(path, moveTo, hunks, false), ops), lines, i);
    if CloseUpdate(ops, path, moveTo, hunks).Some? {
      ParseStep(State(Top, CloseUpdate(ops, path, moveTo, hunks).value), lines, i);
    }
    return Some(hunks), i;
  }

  // A new name may stand right under the header, comments aside; then come the hunks.
  method ParseUpdate(ops: seq<PatchOp>, path: Path, lines: Lines, start: nat) returns (r: Option<PatchOp>, i: nat)
    requires start <= |lines|
    ensures start <= i <= |lines|
    ensures Parse(State(Updating(path, None, [], true), ops), lines[start..]) ==
            if r.None? then None else Parse(State(Top, ops + [r.value]), lines[i..])
  {
    hide Parse, IsComment, IsBoundary, UpdateLine, StripEol, StartsWith;
    var s := State(Updating(path, None, [], true), ops);
    i := SkipComments(s, lines, start);
    ParseStep(s, lines, i);
    ParseStep(State(Updating(path, None, [], false), ops), lines, i);
    var moveTo: Option<Path> := None;
    if i < |lines| && StartsWith(StripEol(lines[i]), MOVE_TO) {
      moveTo := ReadMoveTo(StripEol(lines[i]));
      i := i + 1;
      if moveTo.None? {
        return None, i;
      }
    }
    var hunks, next := ParseHunks(ops, path, moveTo, lines, i);
    i := next;
    if hunks.None? || (hunks.value == [] && moveTo.None?) {
      return None, i;
    }
    return Some(UpdateFile(path, moveTo, hunks.value)), i;
  }

  method ReadMoveTo(marker: Bytes) returns (p: Option<Path>)
    requires StartsWith(marker, MOVE_TO)
    ensures p == PathOf(marker[|MOVE_TO|..])
  {
    p := ReadPath(marker[|MOVE_TO|..]);
  }

  method ReadPath(b: Bytes) returns (p: Option<Path>)
    ensures p == PathOf(b)
  {
    var path := Normalize(b);
    p := if path.None? then None else Some(Components(path.value));
  }

  method ParsePatch(data: Bytes) returns (r: Option<seq<PatchOp>>)
    ensures r == ParseLines(SplitLines(data))
  {
    hide Parse, IsComment, StripEol, SplitLines;
    var lines := SplitLines(data);
    var start := State(Before, []);
    assert lines[0..] == lines;
    var i := SkipComments(start, lines, 0);
    ParseStep(start, lines, i);
    if i == |lines| || StripEol(lines[i]) != BEGIN {
      return None;
    }
    i := i + 1;
    r := ParseOps(lines, i);
  }

  method ParseOps(lines: Lines, start: nat) returns (r: Option<seq<PatchOp>>)
    requires start <= |lines|
    ensures r == Parse(State(Top, []), lines[start..])
  {
    hide Parse, IsComment, StripEol, StartsWith, PathOf;
    var ops: seq<PatchOp> := [];
    var i := start;
    while i < |lines|
      invariant start <= i <= |lines|
      invariant Parse(State(Top, []), lines[start..]) == Parse(State(Top, ops), lines[i..])
      decreases |lines| - i
    {
      ParseStep(State(Top, ops), lines, i);
      if IsComment(lines[i]) {
        i := i + 1;
        continue;
      }
      var line := StripEol(lines[i]);
      if line == END {
        r := ParseEnd(ops, lines, i + 1);
        return;
      }
      var op, next := ParseOp(ops, line, lines, i + 1);
      i := next;
      if op.None? {
        return None;
      }
      ops := ops + [op.value];
    }
    ParseStep(State(Top, ops), lines, i);
    return None;
  }

  method ParseEnd(ops: seq<PatchOp>, lines: Lines, start: nat) returns (r: Option<seq<PatchOp>>)
    requires start <= |lines|
    ensures r == Parse(State(After, ops), lines[start..])
  {
    hide Parse, IsComment;
    var i := SkipComments(State(After, ops), lines, start);
    ParseStep(State(After, ops), lines, i);
    return if i == |lines| then Some(ops) else None;
  }

  // One operation, its header line already taken.
  method ParseOp(ops: seq<PatchOp>, line: Bytes, lines: Lines, start: nat) returns (r: Option<PatchOp>, i: nat)
    requires start <= |lines| && line != END
    ensures start <= i <= |lines|
    ensures (if TopLine(ops, line).None? then None else Parse(TopLine(ops, line).value, lines[start..])) ==
            if r.None? then None else Parse(State(Top, ops + [r.value]), lines[i..])
  {
    hide Parse, PathOf;
    i := start;
    if StartsWith(line, ADD_FILE) {
      var path := ReadPath(line[|ADD_FILE|..]);
      if path.None? {
        return None, i;
      }
      var added, next := ParseAdd(ops, path.value, lines, i);
      return if added.None? then None else Some(AddFile(path.value, added.value)), next;
    }
    if StartsWith(line, DELETE_FILE) {
      var path := ReadPath(line[|DELETE_FILE|..]);
      return if path.None? then None else Some(RemoveFile(path.value)), i;
    }
    if StartsWith(line, UPDATE_FILE) {
      var path := ReadPath(line[|UPDATE_FILE|..]);
      if path.None? {
        return None, i;
      }
      r, i := ParseUpdate(ops, path.value, lines, i);
      return;
    }
    return None, i;
  }

  // ----- comments

  function WithoutComments(lines: Lines): Lines {
    if lines == [] then [] else (if IsComment(lines[0]) then [] else [lines[0]]) + WithoutComments(lines[1..])
  }

  // Comment lines are ignored wherever they stand.
  lemma {:induction false} CommentsAreIgnored(s: State, lines: Lines)
    ensures Parse(s, lines) == Parse(s, WithoutComments(lines))
    decreases |lines|
  {
    hide Step, IsComment;
    if lines != [] {
      var rest := WithoutComments(lines[1..]);
      if IsComment(lines[0]) {
        CommentStep(s, lines[0]);
        CommentsAreIgnored(s, lines[1..]);
        assert [] + rest == rest;
      } else {
        assert ([lines[0]] + rest)[1..] == rest;
        if Step(s, lines[0]).Some? {
          CommentsAreIgnored(Step(s, lines[0]).value, lines[1..]);
        }
      }
    }
  }

  // ----- printing

  function Eol(b: Bytes): Bytes {
    b + [LF]
  }

  function Prefixed(mark: Byte, lines: Lines): Lines {
    if lines == [] then [] else [[mark] + lines[0]] + Prefixed(mark, lines[1..])
  }

  function MarkOf(kind: LineKind): Byte {
    match kind case CONTEXT => SPACE case REMOVE => MINUS case ADD => PLUS
  }

  function PrintHunkLines(h: Hunk): Lines {
    if h == [] then [] else [[MarkOf(h[0].kind)] + h[0].text] + PrintHunkLines(h[1..])
  }

  function PrintHunks(hunks: seq<Hunk>): Lines {
    if hunks == [] then [] else [Eol(HUNK)] + PrintHunkLines(hunks[0]) + PrintHunks(hunks[1..])
  }

  function PrintOp(op: PatchOp): Lines {
    match op
    case AddFile(path, lines) => [Eol(ADD_FILE + JoinPath(path))] + Prefixed(PLUS, lines)
    case RemoveFile(path) => [Eol(DELETE_FILE + JoinPath(path))]
    case UpdateFile(path, moveTo, hunks) =>
      [Eol(UPDATE_FILE + JoinPath(path))] +
      (if moveTo.None? then [] else [Eol(MOVE_TO + JoinPath(moveTo.value))]) + PrintHunks(hunks)
  }

  function PrintOps(ops: seq<PatchOp>): Lines {
    if ops == [] then [] else PrintOp(ops[0]) + PrintOps(ops[1..])
  }

  function PrintPatch(ops: seq<PatchOp>): Lines {
    [Eol(BEGIN)] + PrintOps(ops) + [Eol(END)]
  }

  // Normal paths whose last byte is not a carriage return, which would merge with the line end.
  ghost predicate PrintablePath(p: Path) {
    && Normal(JoinPath(p)) && Components(JoinPath(p)) == p
    && (JoinPath(p) != [] ==> JoinPath(p)[|JoinPath(p)| - 1] != CR)
  }

  ghost predicate PrintableOp(op: PatchOp) {
    && PrintablePath(op.path)
    && (op.UpdateFile? ==>
          && (op.moveTo.Some? ==> PrintablePath(op.moveTo.value))
          && (op.moveTo.Some? || op.hunks != [])
          && (forall i :: 0 <= i < |op.hunks| ==> op.hunks[i] != []))
  }

  // ----- single lines

  lemma StripAfterEol(b: Bytes)
    ensures (b != [] ==> b[|b| - 1] != CR) ==> StripEol(Eol(b)) == b
  {
    var line := Eol(b);
    if b != [] {
      assert line[|line| - 2..] == [b[|b| - 1], LF];
    }
  }

  lemma StripKeepsFirst(line: Bytes)
    requires line != [] && line[0] != LF && line[0] != CR
    ensures StripEol(line) != [] && StripEol(line)[0] == line[0]
  {
    if |line| >= 2 {
      assert line[|line| - 2..][0] == line[|line| - 2];
    }
  }

  lemma PathAfterPrint(p: Path)
    requires PrintablePath(p)
    ensures PathOf(JoinPath(p)) == Some(p)
  {
    hide Components, SafePath, Normal;
    NormalIsFixed(JoinPath(p));
  }

  // The markers tell themselves apart by their fifth character.
  lemma MarkersDiffer()
    ensures BEGIN[0] == END[0] == ADD_FILE[0] == DELETE_FILE[0] == UPDATE_FILE[0] == MOVE_TO[0] == 0x2A
    ensures END[4] == 0x45 && ADD_FILE[4] == 0x41 && DELETE_FILE[4] == 0x44 && UPDATE_FILE[4] == 0x55
            && MOVE_TO[4] == 0x4D
    ensures |BEGIN| > 4 && BEGIN[|BEGIN| - 1] != CR && |END| > 4 && END[|END| - 1] != CR
    ensures |ADD_FILE| > 4 && |DELETE_FILE| > 4 && |UPDATE_FILE| > 4 && |MOVE_TO| > 4
  {
  }

  lemma HeaderLine(marker: Bytes, p: Path)
    requires PrintablePath(p) && |marker| > 4 && marker[0] == 0x2A
    ensures var line := Eol(marker + JoinPath(p));
            && !IsComment(line) && StripEol(line) == marker + JoinPath(p) && StripEol(line)[..5] == marker[..5]
            && StartsWith(StripEol(line), marker) && StripEol(line)[|marker|..] == JoinPath(p)
  {
    var b := marker + JoinPath(p);
    GoodEnd(p);
    assert b[|b| - 1] == JoinPath(p)[|JoinPath(p)| - 1];
    StripAfterEol(b);
    assert Eol(b)[0] == marker[0];
  }

  lemma GoodEnd(p: Path)
    requires PrintablePath(p)
    ensures JoinPath(p) != []
  {
    hide Components;
    assert GoodPart(Components(JoinPath(p))[0]);
    if JoinPath(p) == [] {
      EmptyPathHasEmptyPart();
      assert false;
    }
  }

  lemma EmptyPathHasEmptyPart()
    ensures Components([]) == [[]]
  {
  }

  lemma AddStarts(ops: seq<PatchOp>, p: Path)
    requires PrintablePath(p)
    ensures Step(State(Top, ops), Eol(ADD_FILE + JoinPath(p))) == Some(State(Adding(p, []), ops))
    ensures IsBoundary(Eol(ADD_FILE + JoinPath(p))) && !IsComment(Eol(ADD_FILE + JoinPath(p)))
  {
    hide PathOf, PrintablePath, StripEol, JoinPath;
    MarkersDiffer();
    HeaderLine(ADD_FILE, p);
    PathAfterPrint(p);
  }

  lemma DeleteStarts(ops: seq<PatchOp>, p: Path)
    requires PrintablePath(p)
    ensures Step(State(Top, ops), Eol(DELETE_FILE + JoinPath(p))) == Some(State(Top, ops + [RemoveFile(p)]))
    ensures IsBoundary(Eol(DELETE_FILE + JoinPath(p))) && !IsComment(Eol(DELETE_FILE + JoinPath(p)))
  {
    hide PathOf, PrintablePath, StripEol, JoinPath;
    MarkersDiffer();
    HeaderLine(DELETE_FILE, p);
    PathAfterPrint(p);
    assert DELETE_FILE[..5][4] != ADD_FILE[..5][4];
  }

  lemma UpdateStarts(ops: seq<PatchOp>, p: Path)
    requires PrintablePath(p)
    ensures Step(State(Top, ops), Eol(UPDATE_FILE + JoinPath(p))) == Some(State(Updating(p, None, [], true), ops))
    ensures IsBoundary(Eol(UPDATE_FILE + JoinPath(p))) && !IsComment(Eol(UPDATE_FILE + JoinPath(p)))
  {
    hide PathOf, PrintablePath, StripEol, JoinPath;
    MarkersDiffer();
    HeaderLine(UPDATE_FILE, p);
    PathAfterPrint(p);
    assert UPDATE_FILE[..5][4] != ADD_FILE[..5][4] && UPDATE_FILE[..5][4] != DELETE_FILE[..5][4];
  }

  lemma MoveIsTaken(ops: seq<PatchOp>, path: Path, p: Path)
    requires PrintablePath(p)
    ensures Step(State(Updating(path, None, [], true), ops), Eol(MOVE_TO + JoinPath(p))) ==
            Some(State(Updating(path, Some(p), [], false), ops))
  {
    hide PathOf, PrintablePath, StripEol, JoinPath;
    MarkersDiffer();
    HeaderLine(MOVE_TO, p);
    PathAfterPrint(p);
  }

  lemma EndIsTaken(ops: seq<PatchOp>)
    ensures Step(State(Top, ops), Eol(END)) == Some(State(After, ops))
    ensures IsBoundary(Eol(END)) && !IsComment(Eol(END))
  {
    MarkersDiffer();
    StripAfterEol(END);
  }

  // Payload lines are neither comments nor boundaries nor hunk headers, whatever they hold.
  lemma PayloadLine(mark: Byte, text: Bytes)
    requires mark == SPACE || mark == MINUS || mark == PLUS
    ensures var line := [mark] + text; !IsComment(line) && !IsBoundary(line) && StripEol(line) != HUNK
  {
    MarkersDiffer();
    var line := [mark] + text;
    StripKeepsFirst(line);
    hide StripEol;
  }

  lemma HunkHeaderLine()
    ensures StripEol(Eol(HUNK)) == HUNK && !IsComment(Eol(HUNK)) && !IsBoundary(Eol(HUNK))
  {
    MarkersDiffer();
    StripAfterEol(HUNK);
  }

  // ----- reading a printed patch back

  predicate AtBoundary(tail: Lines) {
    tail != [] && IsBoundary(tail[0]) && !IsComment(tail[0])
  }

  // A hunk ends at a boundary or at the next hunk header.
  predicate AtHunkEnd(tail: Lines) {
    tail != [] && !IsComment(tail[0]) && (IsBoundary(tail[0]) || StripEol(tail[0]) == HUNK)
  }

  lemma ParseCons(s: State, line: Bytes, tail: Lines)
    ensures Parse(s, [line] + tail) == var next := Step(s, line); if next.None? then None else Parse(next.value, tail)
  {
    assert ([line] + tail)[1..] == tail;
  }

  lemma {:induction false} PayloadReadsBack(ops: seq<PatchOp>, path: Path, done: Lines, lines: Lines, tail: Lines)
    requires AtBoundary(tail)
    ensures Parse(State(Adding(path, done), ops), Prefixed(PLUS, lines) + tail) ==
            Parse(State(Top, ops + [AddFile(path, done + lines)]), tail)
    decreases |lines|
  {
    hide Parse, IsBoundary, IsComment, StripEol, TopLine;
    var s := State(Adding(path, done), ops);
    if lines == [] {
      assert [] + tail == tail && done + lines == done;
      assert [tail[0]] + tail[1..] == tail;
      ParseCons(s, tail[0], tail[1..]);
      ParseCons(State(Top, ops + [AddFile(path, done)]), tail[0], tail[1..]);
    } else {
      var line := [PLUS] + lines[0];
      var rest := Prefixed(PLUS, lines[1..]) + tail;
      assert Prefixed(PLUS, lines) + tail == [line] + rest;
      assert line[1..] == lines[0] && done + [lines[0]] + lines[1..] == done + lines;
      PayloadLine(PLUS, lines[0]);
      ParseCons(s, line, rest);
      PayloadReadsBack(ops, path, done + [lines[0]], lines[1..], tail);
    }
  }

  lemma HunkLineIsRead(l: PatchLine)
    ensures HunkLine([MarkOf(l.kind)] + l.text) == Some(l)
  {
    assert ([MarkOf(l.kind)] + l.text)[1..] == l.text;
  }

  lemma {:induction false} HunkReadsBack(
    ops: seq<PatchOp>, path: Path, moveTo: Option<Path>, hunks: seq<Hunk>, done: Hunk, h: Hunk, tail: Lines)
    requires AtHunkEnd(tail) && done + h != []
    ensures Parse(State(InHunk(path, moveTo, hunks, done), ops), PrintHunkLines(h) + tail) ==
            Parse(State(Updating(path, moveTo, hunks + [done + h], false), ops), tail)
    decreases |h|
  {
    hide Parse, IsBoundary, IsComment, StripEol, UpdateLine, HunkLine;
    var s := State(InHunk(path, moveTo, hunks, done), ops);
    if h == [] {
      assert [] + tail == tail && done + h == done;
      assert [tail[0]] + tail[1..] == tail;
      ParseCons(s, tail[0], tail[1..]);
      ParseCons(State(Updating(path, moveTo, hunks + [done], false), ops), tail[0], tail[1..]);
    } else {
      var line := [MarkOf(h[0].kind)] + h[0].text;
      var rest := PrintHunkLines(h[1..]) + tail;
      assert PrintHunkLines(h) + tail == [line] + rest;
      assert done + [h[0]] + h[1..] == done + h;
      PayloadLine(MarkOf(h[0].kind), h[0].text);
      HunkLineIsRead(h[0]);
      ParseCons(s, line, rest);
      HunkReadsBack(ops, path, moveTo, hunks, done + [h[0]], h[1..], tail);
    }
  }

  lemma HunksEndHunk(hunks: seq<Hunk>, tail: Lines)
    requires AtBoundary(tail)
    ensures AtHunkEnd(PrintHunks(hunks) + tail)
  {
    HunkHeaderLine();
    assert hunks == [] ==> PrintHunks(hunks) + tail == tail;
  }

  lemma {:induction false} HunksReadBack(
    ops: seq<PatchOp>, path: Path, moveTo: Option<Path>, mayMove: bool, done: seq<Hunk>, hunks: seq<Hunk>, tail: Lines)
    requires AtBoundary(tail) && (done + hunks != [] || moveTo.Some?) && (mayMove ==> hunks != [])
    requires forall i :: 0 <= i < |hunks| ==> hunks[i] != []
    ensures Parse(State(Updating(path, moveTo, done, mayMove), ops), PrintHunks(hunks) + tail) ==
            Parse(State(Top, ops + [UpdateFile(path, moveTo, done + hunks)]), tail)
    decreases |hunks|
  {
    hide Parse, IsBoundary, IsComment, StripEol, TopLine, PrintHunkLines;
    var s := State(Updating(path, moveTo, done, mayMove), ops);
    if hunks == [] {
      assert [] + tail == tail && done + hunks == done;
      assert [tail[0]] + tail[1..] == tail;
      ParseCons(s, tail[0], tail[1..]);
      ParseCons(State(Top, ops + [UpdateFile(path, moveTo, done)]), tail[0], tail[1..]);
    } else {
      var after := PrintHunks(hunks[1..]) + tail;
      var rest := PrintHunkLines(hunks[0]) + after;
      assert PrintHunks(hunks) + tail == [Eol(HUNK)] + rest;
      HunkHeaderLine();
      MarkersDiffer();
      ParseCons(s, Eol(HUNK), rest);
      HunksEndHunk(hunks[1..], tail);
      assert [] + hunks[0] == hunks[0];
      HunkReadsBack(ops, path, moveTo, done, [], hunks[0], after);
      HunksReadBack(ops, path, moveTo, false, done + [hunks[0]], hunks[1..], tail);
      assert done + [hunks[0]] + hunks[1..] == done + hunks;
    }
  }

  lemma OpReadsBack(ops: seq<PatchOp>, op: PatchOp, tail: Lines)
    requires PrintableOp(op) && AtBoundary(tail)
    ensures Parse(State(Top, ops), PrintOp(op) + tail) == Parse(State(Top, ops + [op]), tail)
    ensures AtBoundary(PrintOp(op) + tail)
  {
    hide Parse, IsBoundary, IsComment, Step, PrintHunks, Prefixed, JoinPath, PrintablePath;
    match op
    case AddFile(path, lines) =>
      var head := Eol(ADD_FILE + JoinPath(path));
      assert PrintOp(op) + tail == [head] + (Prefixed(PLUS, lines) + tail);
      AddStarts(ops, path);
      ParseCons(State(Top, ops), head, Prefixed(PLUS, lines) + tail);
      PayloadReadsBack(ops, path, [], lines, tail);
      assert [] + lines == lines;
    case RemoveFile(path) =>
      DeleteStarts(ops, path);
      ParseCons(State(Top, ops), Eol(DELETE_FILE + JoinPath(path)), tail);
    case UpdateFile(path, moveTo, hunks) =>
      var head := Eol(UPDATE_FILE + JoinPath(path));
      UpdateStarts(ops, path);
      assert [] + hunks == hunks;
      if moveTo.None? {
        assert PrintOp(op) + tail == [head] + (PrintHunks(hunks) + tail);
        ParseCons(State(Top, ops), head, PrintHunks(hunks) + tail);
        HunksReadBack(ops, path, None, true, [], hunks, tail);
      } else {
        var second := Eol(MOVE_TO + JoinPath(moveTo.value));
        var rest := PrintHunks(hunks) + tail;
        assert PrintOp(op) + tail == [head] + ([second] + rest);
        ParseCons(State(Top, ops), head, [second] + rest);
        MoveIsTaken(ops, path, moveTo.value);
        ParseCons(State(Updating(path, None, [], true), ops), second, rest);
        HunksReadBack(ops, path, moveTo, false, [], hunks, tail);
      }
  }

  lemma {:induction false} OpsReadBack(done: seq<PatchOp>, ops: seq<PatchOp>)
    requires forall i :: 0 <= i < |ops| ==> PrintableOp(ops[i])
    ensures Parse(State(Top, done), PrintOps(ops) + [Eol(END)]) == Some(done + ops)
    ensures AtBoundary(PrintOps(ops) + [Eol(END)])
    decreases |ops|
  {
    hide Step, IsBoundary, IsComment, PrintOp, PrintableOp;
    if ops == [] {
      EndIsTaken(done);
      ParseCons(State(Top, done), Eol(END), []);
      assert [] + [Eol(END)] == [Eol(END)] + [] && done + ops == done;
    } else {
      var tail := PrintOps(ops[1..]) + [Eol(END)];
      assert PrintOps(ops) + [Eol(END)] == PrintOp(ops[0]) + tail;
      OpsReadBack(done + [ops[0]], ops[1..]);
      OpReadsBack(done, ops[0], tail);
      assert done + [ops[0]] + ops[1..] == done + ops;
    }
  }

  // A printed patch parses to the operations it was printed from.
  lemma PatchReadsBack(ops: seq<PatchOp>)
    requires forall i :: 0 <= i < |ops| ==> PrintableOp(ops[i])
    ensures ParseLines(PrintPatch(ops)) == Some(ops)
  {
    hide Parse, PrintOps, PrintableOp;
    var start, rest := State(Before, []), PrintOps(ops) + [Eol(END)];
    MarkersDiffer();
    StripAfterEol(BEGIN);
    assert Eol(BEGIN)[0] == BEGIN[0];
    assert PrintPatch(ops) == [Eol(BEGIN)] + rest;
    ParseCons(start, Eol(BEGIN), rest);
    OpsReadBack([], ops);
    assert [] + ops == ops;
  }

  // The same through the bytes of the file, when every printed line is one line.
  lemma PatchFileReadsBack(ops: seq<PatchOp>)
    requires forall i :: 0 <= i < |ops| ==> PrintableOp(ops[i])
    requires Separate(PrintPatch(ops))
    ensures ParseLines(SplitLines(JoinLines(PrintPatch(ops)))) == Some(ops)
  {
    hide PrintPatch, PrintableOp, Separate, ParseLines;
    SplitAfterJoinExactly(PrintPatch(ops));
    PatchReadsBack(ops);
  }
}
