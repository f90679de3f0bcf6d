// The binary rollback record: what serialising writes, deserialising reads back.
module RollbackCodec {
  import opened Common
  import opened ByteStrings
  import opened SafePaths

  const SPAN: int := 0x1_0000_0000_0000_0000      // 2^64

  // "POSTLINE_PATCH_ROLLBACK_V1\\n"
  const MAGIC: Bytes :=
    [0x50, 0x4F, 0x53, 0x54, 0x4C, 0x49, 0x4E, 0x45, 0x5F, 0x50, 0x41, 0x54, 0x43, 0x48, 0x5F,
     0x52, 0x4F, 0x4C, 0x4C, 0x42, 0x41, 0x43, 0x4B, 0x5F, 0x56, 0x31, 0x0A]

  datatype Kind = CREATE_DIRECTORIES | CREATE_FILE | DELETE_FILE | REPLACE_FILE | MOVE_FILE

  // One struct for all kinds; unused strings are empty.
  datatype Action = Action(
    kind: Kind, paths: seq<Bytes>, path: Bytes, src: Bytes, dst: Bytes, expected: Bytes, content: Bytes)

  datatype Record = Record(root: Bytes, appliedCount: nat, actions: seq<Action>)

  function KindCode(kind: Kind): nat {
    match kind
    case CREATE_DIRECTORIES => 1
    case CREATE_FILE => 2
    case DELETE_FILE => 3
    case REPLACE_FILE => 4
    case MOVE_FILE => 5
  }

  function KindFromCode(code: nat): Option<Kind> {
    if code == 1 then Some(CREATE_DIRECTORIES)
    else if code == 2 then Some(CREATE_FILE)
    else if code == 3 then Some(DELETE_FILE)
    else if code == 4 then Some(REPLACE_FILE)
    else if code == 5 then Some(MOVE_FILE)
    else None
  }

  // ----- writing

  function PutText(s: Bytes): Bytes {
    PutInt(|s|, 8) + s
  }

  function PutTexts(ss: seq<Bytes>): Bytes {
    if ss == [] then [] else PutTexts(ss[..|ss| - 1]) + PutText(ss[|ss| - 1])
  }

  function PutAction(a: Action): Bytes {
    PutInt(KindCode(a.kind), 8) + (PutInt(|a.paths|, 8) + (PutTexts(a.paths) + PutStrings(a)))
  }

  function PutStrings(a: Action): Bytes {
    PutText(a.path) + (PutText(a.src) + (PutText(a.dst) + (PutText(a.expected) + PutText(a.content))))
  }

  function PutActions(acts: seq<Action>): Bytes {
    if acts == [] then [] else PutActions(acts[..|acts| - 1]) + PutAction(acts[|acts| - 1])
  }

  function Serialize(r: Record): Bytes {
    MAGIC + (PutText(r.root) + (PutInt(r.appliedCount, 8) + (PutInt(|r.actions|, 8) + PutActions(r.actions))))
  }

  class Buffer {
    var data: Bytes

    constructor ()
      ensures data == []
    {
      data := [];
    }

    method PutU64(value: nat)
      modifies this
      ensures data == old(data) + PutInt(value, 8)
    {
      var i := 0;
      while i < 8
        invariant 0 <= i <= 8 && data == old(data) + PutInt(value, 8)[..i]
      {
        data := data + [Shift(value, i) % 0x100];
        i := i + 1;
      }
    }

    method PutString(value: Bytes)
      modifies this
      ensures data == old(data) + PutText(value)
    {
      PutU64(|value|);
      data := data + value;
    }

    method WriteAction(a: Action)
      modifies this
      ensures data == old(data) + PutAction(a)
    {
      hide PutText, PutStrings;
      PutU64(KindCode(a.kind));
      PutU64(|a.paths|);
      ghost var before := data;
      var i := 0;
      while i < |a.paths|
        invariant i <= |a.paths| && data == before + PutTexts(a.paths[..i])
      {
        assert a.paths[..i + 1][..i] == a.paths[..i];
        PutString(a.paths[i]);
        i := i + 1;
      }
      assert a.paths[..i] == a.paths;
      WriteStrings(a);
    }

    method WriteStrings(a: Action)
      modifies this
      ensures data == old(data) + PutStrings(a)
    {
      hide PutText;
      PutString(a.path);
      PutString(a.src);
      PutString(a.dst);
      PutString(a.expected);
      PutString(a.content);
    }

    method WriteRecord(r: Record)
      modifies this
      ensures data == Serialize(r)
    {
      hide PutText, PutAction;
      data := MAGIC;
      PutString(r.root);
      PutU64(r.appliedCount);
      PutU64(|r.actions|);
      ghost var before := data;
      var i := 0;
      while i < |r.actions|
        invariant i <= |r.actions| && data == before + PutActions(r.actions[..i])
      {
        assert r.actions[..i + 1][..i] == r.actions[..i];
        WriteAction(r.actions[i]);
        i := i + 1;
      }
      assert r.actions[..i] == r.actions;
      assert before == MAGIC + PutText(r.root) + PutInt(r.appliedCount, 8) + PutInt(|r.actions|, 8);
    }
  }

  // ----- reading: the value and the next offset, or None where the original throws

  function GetU64(s: Bytes, o: nat): Option<(nat, nat)> {
    if o + 8 > |s| then None else Some((GetInt(s[o..o + 8]), o + 8))
  }

  function GetText(s: Bytes, o: nat): (r: Option<(Bytes, nat)>)
    ensures r.Some? ==> o < r.value.1 <= |s|
  {
    var size := GetU64(s, o);
    if size.None? || size.value.0 > |s| - size.value.1 then None
    else Some((s[size.value.1..size.value.1 + size.value.0], size.value.1 + size.value.0))
  }

  // A listed path must be safe; elsewhere an empty string stands for no path.
  function Cleaned(p: Bytes, listed: bool): Option<Bytes> {
    if p == [] && !listed then Some([]) else SafePath(p)
  }

  function GetPath(s: Bytes, o: nat, listed: bool): (r: Option<(Bytes, nat)>)
    ensures r.Some? ==> o < r.value.1 <= |s|
  {
    var t := GetText(s, o);
    if t.None? || Cleaned(t.value.0, listed).None? then None
    else Some((Cleaned(t.value.0, listed).value, t.value.1))
  }

  function GetPaths(s: Bytes, o: nat, n: nat): (r: Option<(seq<Bytes>, nat)>) {
    if n == 0 then Some(([], o))
    else
      var front := GetPaths(s, o, n - 1);
      if front.None? then None
      else
        var last := GetPath(s, front.value.1, true);
        if last.None? then None else Some((front.value.0 + [last.value.0], last.value.1))
  }

  function GetStrings(s: Bytes, o: nat, kind: Kind, paths: seq<Bytes>): Option<(Action, nat)> {
    var path := GetPath(s, o, false);
    if path.None? then None
    else
      var src := GetPath(s, path.value.1, false);
      if src.None? then None
      else
        var dst := GetPath(s, src.value.1, false);
        if dst.None? then None
        else
          var expected := GetText(s, dst.value.1);
          if expected.None? then None
          else
            var content := GetText(s, expected.value.1);
            if content.None? then None
            else Some((Action(kind, paths, path.value.0, src.value.0, dst.value.0, expected.value.0, content.value.0),
                       content.value.1))
  }

  function GetAction(s: Bytes, o: nat): Option<(Action, nat)> {
    var code := GetU64(s, o);
    if code.None? || KindFromCode(code.value.0).None? then None
    else
      var count := GetU64(s, code.value.1);
      if count.None? then None
      else
        var paths := GetPaths(s, count.value.1, count.value.0);
        if paths.None? then None
        else GetStrings(s, paths.value.1, KindFromCode(code.value.0).value, paths.value.0)
  }

  function GetActions(s: Bytes, o: nat, n: nat): Option<(seq<Action>, nat)> {
    if n == 0 then Some(([], o))
    else
      var front := GetActions(s, o, n - 1);
      if front.None? then None
      else
        var last := GetAction(s, front.value.1);
        if last.None? then None else Some((front.value.0 + [last.value.0], last.value.1))
  }

  function Deserialize(s: Bytes): Option<Record> {
    if !At(s, 0, MAGIC) then None
    else
      var root := GetText(s, |MAGIC|);
      if root.None? then None
      else
        var applied := GetU64(s, root.value.1);
        if applied.None? then None
        else
          var count := GetU64(s, applied.value.1);
          if count.None? then None
          else
            var actions := GetActions(s, count.value.1, count.value.0);
            if actions.None? || actions.value.1 != |s| || applied.value.0 > |actions.value.0| then None
            else Some(Record(root.value.0, applied.value.0, actions.value.0))
  }

  // ----- the reader object; a read that throws leaves the offset wherever it is

  class Reader {
    const input: Bytes
    var offset: nat

    constructor (input: Bytes)
      ensures this.input == input && offset == 0
    {
      this.input := input;
      offset := 0;
    }

    method ReadU64() returns (r: Option<nat>)
      requires offset <= |input|
      modifies this
      ensures r.Some? <==> GetU64(input, old(offset)).Some?
      ensures r.Some? ==> (r.value, offset) == GetU64(input, old(offset)).value && offset <= |input|
    {
      if offset + 8 > |input| {
        return None;
      }
      var bytes := input[offset..offset + 8];
      var value: nat := 0;
      var i := 0;
      assert bytes[0..] == bytes;
      while i < 8
        invariant 0 <= i <= 8 && offset == old(offset)
        invariant value + Power(i) * GetInt(bytes[i..]) == GetInt(bytes)
      {
        assert bytes[i..][1..] == bytes[i + 1..];
        TakeByte(value, Power(i), bytes[i], GetInt(bytes[i + 1..]));
        value := value + Power(i) * bytes[i];
        i := i + 1;
      }
      offset := offset + 8;
      return Some(value);
    }

    method ReadString() returns (r: Option<Bytes>)
      requires offset <= |input|
      modifies this
      ensures r.Some? <==> GetText(input, old(offset)).Some?
      ensures r.Some? ==> (r.value, offset) == GetText(input, old(offset)).value && offset <= |input|
    {
      hide GetU64;
      var size := ReadU64();
      if size.None? || size.value > |input| - offset {
        return None;
      }
      r := Some(input[offset..offset + size.value]);
      offset := offset + size.value;
    }

    method ReadPath(listed: bool) returns (r: Option<Bytes>)
      requires offset <= |input|
      modifies this
      ensures r.Some? <==> GetPath(input, old(offset), listed).Some?
      ensures r.Some? ==> (r.value, offset) == GetPath(input, old(offset), listed).value && offset <= |input|
    {
      hide GetText, SafePath;
      var text := ReadString();
      if text.None? || (text.value == [] && !listed) {
        return text;
      }
      r := Normalize(text.value);
    }

    method ReadPaths(n: nat) returns (r: Option<seq<Bytes>>)
      requires offset <= |input|
      modifies this
      ensures r.Some? <==> GetPaths(input, old(offset), n).Some?
      ensures r.Some? ==> (r.value, offset) == GetPaths(input, old(offset), n).value && offset <= |input|
    {
      hide GetPath;
      var paths: seq<Bytes> := [];
      var j := 0;
      while j < n
        invariant 0 <= j <= n && offset <= |input|
        invariant GetPaths(input, old(offset), j) == Some((paths, offset))
      {
        var path := ReadPath(true);
        if path.None? {
          PathsFail(input, old(offset), j + 1, n);
          return None;
        }
        paths := paths + [path.value];
        j := j + 1;
      }
      return Some(paths);
    }

    method ReadStrings(kind: Kind, paths: seq<Bytes>) returns (r: Option<Action>)
      requires offset <= |input|
      modifies this
      ensures r.Some? <==> GetStrings(input, old(offset), kind, paths).Some?
      ensures r.Some? ==> (r.value, offset) == GetStrings(input, old(offset), kind, paths).value && offset <= |input|
    {
      hide GetPath, GetText;
      var path := ReadPath(false);
      if path.None? { return None; }
      var src := ReadPath(false);
      if src.None? { return None; }
      var dst := ReadPath(false);
      if dst.None? { return None; }
      var expected := ReadString();
      if expected.None? { return None; }
      var content := ReadString();
      if content.None? { return None; }
      return Some(Action(kind, paths, path.value, src.value, dst.value, expected.value, content.value));
    }

    method ReadAction() returns (r: Option<Action>)
      requires offset <= |input|
      modifies this
      ensures r.Some? <==> GetAction(input, old(offset)).Some?
      ensures r.Some? ==> (r.value, offset) == GetAction(input, old(offset)).value && offset <= |input|
    {
      hide GetU64, GetPaths, GetStrings;
      var code := ReadU64();
      if code.None? || KindFromCode(code.value).None? {
        return None;
      }
      var count := ReadU64();
      if count.None? {
        return None;
      }
      var paths := ReadPaths(count.value);
      if paths.None? {
        return None;
      }
      r := ReadStrings(KindFromCode(code.value).value, paths.value);
    }

    method ReadActions(n: nat) returns (r: Option<seq<Action>>)
      requires offset <= |input|
      modifies this
      ensures r.Some? <==> GetActions(input, old(offset), n).Some?
      ensures r.Some? ==> (r.value, offset) == GetActions(input, old(offset), n).value && offset <= |input|
    {
      hide GetAction;
      var actions: seq<Action> := [];
      var i := 0;
      while i < n
        invariant 0 <= i <= n && offset <= |input|
        invariant GetActions(input, old(offset), i) == Some((actions, offset))
      {
        var action := ReadAction();
        if action.None? {
          ActionsFail(input, old(offset), i + 1, n);
          return None;
        }
        actions := actions + [action.value];
        i := i + 1;
      }
      return Some(actions);
    }

    method ReadRecord() returns (r: Option<Record>)
      requires offset == 0
      modifies this
      ensures r == Deserialize(input)
    {
      hide GetU64, GetText, GetActions;
      if !At(input, 0, MAGIC) {
        return None;
      }
      offset := |MAGIC|;
      var root := ReadString();
      if root.None? { return None; }
      var applied := ReadU64();
      if applied.None? { return None; }
      var count := ReadU64();
      if count.None? { return None; }
      var actions := ReadActions(count.value);
      if actions.None? || offset != |input| || applied.value > |actions.value| {
        return None;
      }
      return Some(Record(root.value, applied.value, actions.value));
    }
  }

  lemma TakeByte(value: nat, power: nat, byte: nat, rest: nat)
    ensures value + power * (byte + 0x100 * rest) == value + power * byte + 0x100 * power * rest
  {
  }

  lemma {:induction false} PathsFail(s: Bytes, o: nat, k: nat, n: nat)
    requires k <= n && GetPaths(s, o, k).None?
    ensures GetPaths(s, o, n).None?
  {
    hide GetPath;
    if k < n {
      PathsFail(s, o, k, n - 1);
    }
  }

  lemma {:induction false} ActionsFail(s: Bytes, o: nat, k: nat, n: nat)
    requires k <= n && GetActions(s, o, k).None?
    ensures GetActions(s, o, n).None?
  {
    hide GetAction;
    if k < n {
      ActionsFail(s, o, k, n - 1);
    }
  }

  // ----- reading back what was written

  // Lengths that a size_t holds.
  predicate Sized(a: Action) {
    && |a.paths| < SPAN && (forall i :: 0 <= i < |a.paths| ==> |a.paths[i]| < SPAN)
    && |a.path| < SPAN && |a.src| < SPAN && |a.dst| < SPAN && |a.expected| < SPAN && |a.content| < SPAN
  }

  predicate SizedRecord(r: Record) {
    && |r.root| < SPAN && r.appliedCount < SPAN && |r.actions| < SPAN
    && forall i :: 0 <= i < |r.actions| ==> Sized(r.actions[i])
  }

  function CleanedPaths(ps: seq<Bytes>): Option<seq<Bytes>> {
    if ps == [] then Some([])
    else
      var front, last := CleanedPaths(ps[..|ps| - 1]), Cleaned(ps[|ps| - 1], true);
      if front.None? || last.None? then None else Some(front.value + [last.value])
  }

  function CleanedAction(a: Action): Option<Action> {
    var paths, path, src, dst := CleanedPaths(a.paths), Cleaned(a.path, false), Cleaned(a.src, false),
        Cleaned(a.dst, false);
    if paths.None? || path.None? || src.None? || dst.None? then None
    else Some(a.(paths := paths.value, path := path.value, src := src.value, dst := dst.value))
  }

  function CleanedActions(acts: seq<Action>): Option<seq<Action>> {
    if acts == [] then Some([])
    else
      var front, last := CleanedActions(acts[..|acts| - 1]), CleanedAction(acts[|acts| - 1]);
      if front.None? || last.None? then None else Some(front.value + [last.value])
  }

  lemma U64ReadsBack(s: Bytes, o: nat, value: nat)
    requires value < SPAN && At(s, o, PutInt(value, 8))
    ensures GetU64(s, o) == Some((value, o + 8))
  {
    FitsEightBytes(value);
    GetAfterPut(value, 8);
  }

  lemma TextReadsBack(s: Bytes, o: nat, t: Bytes)
    requires |t| < SPAN && At(s, o, PutText(t))
    ensures GetText(s, o) == Some((t, o + |PutText(t)|))
  {
    hide GetU64;
    AtConcat(s, o, PutInt(|t|, 8), t);
    U64ReadsBack(s, o, |t|);
  }

  lemma PathReadsBack(s: Bytes, o: nat, t: Bytes, listed: bool)
    requires |t| < SPAN && At(s, o, PutText(t))
    ensures GetPath(s, o, listed) ==
            if Cleaned(t, listed).None? then None else Some((Cleaned(t, listed).value, o + |PutText(t)|))
  {
    hide GetText, PutText, Cleaned;
    TextReadsBack(s, o, t);
  }

  lemma {:induction false} PathsReadBack(s: Bytes, o: nat, ps: seq<Bytes>)
    requires At(s, o, PutTexts(ps)) && forall i :: 0 <= i < |ps| ==> |ps[i]| < SPAN
    ensures GetPaths(s, o, |ps|) ==
            if CleanedPaths(ps).None? then None else Some((CleanedPaths(ps).value, o + |PutTexts(ps)|))
  {
    hide GetPath, PutText, Cleaned, At;
    if ps != [] {
      var front, last := ps[..|ps| - 1], ps[|ps| - 1];
      AtConcat(s, o, PutTexts(front), PutText(last));
      PathsReadBack(s, o, front);
      PathReadsBack(s, o + |PutTexts(front)|, last, true);
    }
  }

  lemma StringsReadBack(s: Bytes, o: nat, a: Action, paths: seq<Bytes>)
    requires Sized(a) && At(s, o, PutStrings(a)) && CleanedPaths(a.paths) == Some(paths)
    ensures GetStrings(s, o, a.kind, paths) ==
            if CleanedAction(a).None? then None else Some((CleanedAction(a).value, o + |PutStrings(a)|))
  {
    hide GetPath, GetText, PutText, Cleaned, At, CleanedPaths;
    var o1, o2 := o + |PutText(a.path)|, o + |PutText(a.path)| + |PutText(a.src)|;
    var o3 := o2 + |PutText(a.dst)|;
    AtConcat(s, o, PutText(a.path), PutText(a.src) + (PutText(a.dst) + (PutText(a.expected) + PutText(a.content))));
    AtConcat(s, o1, PutText(a.src), PutText(a.dst) + (PutText(a.expected) + PutText(a.content)));
    AtConcat(s, o2, PutText(a.dst), PutText(a.expected) + PutText(a.content));
    AtConcat(s, o3, PutText(a.expected), PutText(a.content));
    PathReadsBack(s, o, a.path, false);
    PathReadsBack(s, o1, a.src, false);
    PathReadsBack(s, o2, a.dst, false);
    TextReadsBack(s, o3, a.expected);
    TextReadsBack(s, o3 + |PutText(a.expected)|, a.content);
  }

  lemma ActionReadsBack(s: Bytes, o: nat, a: Action)
    requires Sized(a) && At(s, o, PutAction(a))
    ensures GetAction(s, o) ==
            if CleanedAction(a).None? then None else Some((CleanedAction(a).value, o + |PutAction(a)|))
  {
    hide GetU64, GetPaths, GetStrings, PutTexts, PutStrings, At, Cleaned, CleanedPaths;
    var code, count := PutInt(KindCode(a.kind), 8), PutInt(|a.paths|, 8);
    AtConcat(s, o, code, count + (PutTexts(a.paths) + PutStrings(a)));
    AtConcat(s, o + 8, count, PutTexts(a.paths) + PutStrings(a));
    AtConcat(s, o + 16, PutTexts(a.paths), PutStrings(a));
    U64ReadsBack(s, o, KindCode(a.kind));
    U64ReadsBack(s, o + 8, |a.paths|);
    PathsReadBack(s, o + 16, a.paths);
    if CleanedPaths(a.paths).Some? {
      StringsReadBack(s, o + 16 + |PutTexts(a.paths)|, a, CleanedPaths(a.paths).value);
    }
  }

  lemma {:induction false} ActionsReadBack(s: Bytes, o: nat, acts: seq<Action>)
    requires At(s, o, PutActions(acts)) && forall i :: 0 <= i < |acts| ==> Sized(acts[i])
    ensures GetActions(s, o, |acts|) ==
            if CleanedActions(acts).None? then None else Some((CleanedActions(acts).value, o + |PutActions(acts)|))
  {
    hide GetAction, PutAction, CleanedAction, Sized, At;
    if acts != [] {
      var front, last := acts[..|acts| - 1], acts[|acts| - 1];
      AtConcat(s, o, PutActions(front), PutAction(last));
      ActionsReadBack(s, o, front);
      ActionReadsBack(s, o + |PutActions(front)|, last);
    }
  }

  // Reading a written record cleans its paths, and refuses it when one is unsafe or the count too large.
  lemma DeserializeAfterSerialize(r: Record)
    requires SizedRecord(r)
    ensures Deserialize(Serialize(r)) ==
            if CleanedActions(r.actions).None? || r.appliedCount > |r.actions| then None
            else Some(r.(actions := CleanedActions(r.actions).value))
  {
    hide GetText, GetU64, GetActions, PutText, PutActions, At, CleanedActions, Sized;
    var s := Serialize(r);
    var applied, count := PutInt(r.appliedCount, 8), PutInt(|r.actions|, 8);
    var o1 := |MAGIC| + |PutText(r.root)|;
    WholeIsAt(s);
    AtConcat(s, 0, MAGIC, PutText(r.root) + (applied + (count + PutActions(r.actions))));
    AtConcat(s, |MAGIC|, PutText(r.root), applied + (count + PutActions(r.actions)));
    AtConcat(s, o1, applied, count + PutActions(r.actions));
    AtConcat(s, o1 + 8, count, PutActions(r.actions));
    TextReadsBack(s, |MAGIC|, r.root);
    U64ReadsBack(s, o1, r.appliedCount);
    U64ReadsBack(s, o1 + 8, |r.actions|);
    ActionsReadBack(s, o1 + 16, r.actions);
    CleaningKeepsCount(r.actions);
  }

  lemma WholeIsAt(s: Bytes)
    ensures At(s, 0, s)
  {
  }

  lemma {:induction false} CleaningKeepsCount(acts: seq<Action>)
    ensures CleanedActions(acts).Some? ==> |CleanedActions(acts).value| == |acts|
  {
    if acts != [] {
      CleaningKeepsCount(acts[..|acts| - 1]);
    }
  }

  // ----- which records round-trip

  ghost predicate NormalAction(a: Action) {
    && (forall i :: 0 <= i < |a.paths| ==> Normal(a.paths[i]))
    && (a.path != [] ==> Normal(a.path)) && (a.src != [] ==> Normal(a.src)) && (a.dst != [] ==> Normal(a.dst))
  }

  lemma {:induction false} CleanPathsExactly(ps: seq<Bytes>)
    ensures CleanedPaths(ps) == Some(ps) <==> forall i :: 0 <= i < |ps| ==> Normal(ps[i])
    ensures CleanedPaths(ps).Some? ==> |CleanedPaths(ps).value| == |ps|
  {
    hide SafePath, Normal;
    if ps != [] {
      var front, last := ps[..|ps| - 1], ps[|ps| - 1];
      CleanPathsExactly(front);
      SafePathIsANormalForm(last);
      assert ps == front + [last];
      if CleanedPaths(ps).Some? {
        AppendIsInjective(CleanedPaths(front).value, Cleaned(last, true).value, front, last);
      }
    }
  }

  lemma AppendIsInjective<T>(a: seq<T>, x: T, b: seq<T>, y: T)
    ensures a + [x] == b + [y] <==> a == b && x == y
  {
    if a + [x] == b + [y] {
      assert |a| == |b|;
      assert (a + [x])[..|a|] == a && (b + [y])[..|b|] == b;
      assert (a + [x])[|a|] == x && (b + [y])[|b|] == y;
    }
  }

  lemma CleanActionExactly(a: Action)
    ensures CleanedAction(a) == Some(a) <==> NormalAction(a)
  {
    hide SafePath, Normal, CleanedPaths;
    CleanPathsExactly(a.paths);
    SafePathIsANormalForm(a.path);
    SafePathIsANormalForm(a.src);
    SafePathIsANormalForm(a.dst);
  }

  lemma {:induction false} CleanActionsExactly(acts: seq<Action>)
    ensures CleanedActions(acts) == Some(acts) <==> forall i :: 0 <= i < |acts| ==> NormalAction(acts[i])
  {
    hide CleanedAction, NormalAction;
    if acts != [] {
      var front, last := acts[..|acts| - 1], acts[|acts| - 1];
      CleanActionsExactly(front);
      CleanActionExactly(last);
      assert acts == front + [last];
      if CleanedActions(acts).Some? {
        AppendIsInjective(CleanedActions(front).value, CleanedAction(last).value, front, last);
      }
    }
  }

  // A record survives the file exactly when its paths are normal and its count is in range.
  lemma RoundTripExactly(r: Record)
    requires SizedRecord(r)
    ensures Deserialize(Serialize(r)) == Some(r) <==>
            r.appliedCount <= |r.actions| && forall i :: 0 <= i < |r.actions| ==> NormalAction(r.actions[i])
  {
    hide Deserialize, Serialize, CleanedActions, NormalAction;
    DeserializeAfterSerialize(r);
    CleanActionsExactly(r.actions);
  }

  // ----- every file that is read was written so

  lemma U64IsWritten(s: Bytes, o: nat)
    requires GetU64(s, o).Some?
    ensures var (value, next) := GetU64(s, o).value;
            value < SPAN && next == o + 8 && At(s, o, PutInt(value, 8))
  {
    PutAfterGet(s[o..o + 8]);
    EightBytesAreSmall(s[o..o + 8]);
  }

  lemma EightBytesAreSmall(s: Bytes)
    requires |s| == 8
    ensures GetInt(s) < SPAN
  {
    assert GetInt(s[7..]) < 0x100 by { assert s[7..][1..] == []; }
    assert s[6..][1..] == s[7..] && GetInt(s[6..]) < 0x1_0000;
    assert s[5..][1..] == s[6..] && GetInt(s[5..]) < 0x100_0000;
    assert s[4..][1..] == s[5..] && GetInt(s[4..]) < 0x1_0000_0000;
    assert s[3..][1..] == s[4..] && GetInt(s[3..]) < 0x100_0000_0000;
    assert s[2..][1..] == s[3..] && GetInt(s[2..]) < 0x1_0000_0000_0000;
    assert s[1..][1..] == s[2..] && GetInt(s[1..]) < 0x100_0000_0000_0000;
  }

  lemma TextIsWritten(s: Bytes, o: nat)
    requires GetText(s, o).Some?
    ensures var (text, next) := GetText(s, o).value;
            |text| < SPAN && next == o + |PutText(text)| && At(s, o, PutText(text))
  {
    U64IsWritten(s, o);
    var text := GetText(s, o).value.0;
    AtConcat(s, o, PutInt(|text|, 8), text);
  }

  lemma PathIsWritten(s: Bytes, o: nat, listed: bool) returns (text: Bytes)
    requires GetPath(s, o, listed).Some?
    ensures |text| < SPAN && At(s, o, PutText(text)) && Cleaned(text, listed).Some?
    ensures GetPath(s, o, listed) == Some((Cleaned(text, listed).value, o + |PutText(text)|))
  {
    hide GetText, Cleaned, PutText;
    text := GetText(s, o).value.0;
    TextIsWritten(s, o);
  }

  lemma {:induction false} PathsAreWritten(s: Bytes, o: nat, n: nat) returns (texts: seq<Bytes>)
    requires GetPaths(s, o, n).Some? && o <= |s|
    ensures |texts| == n && (forall i :: 0 <= i < n ==> |texts[i]| < SPAN)
    ensures At(s, o, PutTexts(texts)) && CleanedPaths(texts).Some?
    ensures GetPaths(s, o, n) == Some((CleanedPaths(texts).value, o + |PutTexts(texts)|))
  {
    hide GetPath, PutText, Cleaned, At;
    if n == 0 {
      texts := [];
      assert At(s, o, PutTexts([])) by { NothingIsAt(s, o); }
    } else {
      var front := PathsAreWritten(s, o, n - 1);
      var last := PathIsWritten(s, o + |PutTexts(front)|, true);
      texts := front + [last];
      assert texts[..n - 1] == front;
      AtConcat(s, o, PutTexts(front), PutText(last));
    }
  }

  lemma NothingIsAt(s: Bytes, o: nat)
    requires o <= |s|
    ensures At(s, o, [])
  {
  }

  lemma StringsAreWritten(s: Bytes, o: nat, kind: Kind, paths: seq<Bytes>, raw: seq<Bytes>) returns (a: Action)
    requires GetStrings(s, o, kind, paths).Some? && CleanedPaths(raw) == Some(paths)
    requires |raw| < SPAN && forall i :: 0 <= i < |raw| ==> |raw[i]| < SPAN
    ensures Sized(a) && a.kind == kind && a.paths == raw && At(s, o, PutStrings(a)) && CleanedAction(a).Some?
    ensures GetStrings(s, o, kind, paths) == Some((CleanedAction(a).value, o + |PutStrings(a)|))
  {
    hide GetPath, GetText, PutText, Cleaned, At, CleanedPaths;
    var path := PathIsWritten(s, o, false);
    var o1 := o + |PutText(path)|;
    var src := PathIsWritten(s, o1, false);
    var o2 := o1 + |PutText(src)|;
    var dst := PathIsWritten(s, o2, false);
    var o3 := o2 + |PutText(dst)|;
    TextIsWritten(s, o3);
    var expected := GetText(s, o3).value.0;
    var o4 := o3 + |PutText(expected)|;
    TextIsWritten(s, o4);
    var content := GetText(s, o4).value.0;
    a := Action(kind, raw, path, src, dst, expected, content);
    AtConcat(s, o3, PutText(expected), PutText(content));
    AtConcat(s, o2, PutText(dst), PutText(expected) + PutText(content));
    AtConcat(s, o1, PutText(src), PutText(dst) + (PutText(expected) + PutText(content)));
    AtConcat(s, o, PutText(path), PutText(src) + (PutText(dst) + (PutText(expected) + PutText(content))));
  }

  lemma ActionIsWritten(s: Bytes, o: nat) returns (a: Action)
    requires GetAction(s, o).Some?
    ensures Sized(a) && At(s, o, PutAction(a)) && CleanedAction(a).Some?
    ensures GetAction(s, o) == Some((CleanedAction(a).value, o + |PutAction(a)|))
  {
    hide GetPaths, GetStrings, PutTexts, PutStrings, At, Cleaned, CleanedPaths;
    U64IsWritten(s, o);
    U64IsWritten(s, o + 8);
    var code, count := GetU64(s, o).value.0, GetU64(s, o + 8).value.0;
    hide GetU64, CleanedAction;
    var raw := PathsAreWritten(s, o + 16, count);
    var kind := KindFromCode(code).value;
    assert KindCode(kind) == code;
    var o' := o + 16 + |PutTexts(raw)|;
    a := StringsAreWritten(s, o', kind, CleanedPaths(raw).value, raw);
    AtConcat(s, o + 16, PutTexts(raw), PutStrings(a));
    AtConcat(s, o + 8, PutInt(count, 8), PutTexts(raw) + PutStrings(a));
    AtConcat(s, o, PutInt(code, 8), PutInt(count, 8) + (PutTexts(raw) + PutStrings(a)));
  }

  lemma {:induction false} ActionsAreWritten(s: Bytes, o: nat, n: nat) returns (acts: seq<Action>)
    requires GetActions(s, o, n).Some? && o <= |s|
    ensures |acts| == n && (forall i :: 0 <= i < n ==> Sized(acts[i]))
    ensures At(s, o, PutActions(acts)) && CleanedActions(acts).Some?
    ensures GetActions(s, o, n) == Some((CleanedActions(acts).value, o + |PutActions(acts)|))
  {
    hide GetAction, PutAction, CleanedAction, Sized, At;
    if n == 0 {
      acts := [];
      NothingIsAt(s, o);
    } else {
      var front := ActionsAreWritten(s, o, n - 1);
      var last := ActionIsWritten(s, o + |PutActions(front)|);
      acts := front + [last];
      assert acts[..n - 1] == front;
      AtConcat(s, o, PutActions(front), PutAction(last));
    }
  }

  // A file is read exactly when it is what some record is written as, whose paths are safe and whose count is in
  // range; what is read is that record with its paths cleaned. No other bytes are accepted, and none are left over.
  lemma {:induction false} FileIsReadExactly(s: Bytes, out: Record)
    ensures Deserialize(s) == Some(out) <==>
            exists r :: SizedRecord(r) && Serialize(r) == s && r.appliedCount <= |r.actions|
                        && CleanedActions(r.actions) == Some(out.actions)
                        && out == r.(actions := out.actions)
  {
    hide Deserialize, Serialize, CleanedActions, SizedRecord;
    if Deserialize(s) == Some(out) {
      var r := RecordIsWritten(s);
      assert out == r.(actions := out.actions);
    }
    if r :| SizedRecord(r) && Serialize(r) == s && r.appliedCount <= |r.actions|
            && CleanedActions(r.actions) == Some(out.actions) && out == r.(actions := out.actions) {
      DeserializeAfterSerialize(r);
    }
  }

  lemma RecordIsWritten(s: Bytes) returns (r: Record)
    requires Deserialize(s).Some?
    ensures SizedRecord(r) && Serialize(r) == s && r.appliedCount <= |r.actions| && CleanedActions(r.actions).Some?
    ensures Deserialize(s) == Some(r.(actions := CleanedActions(r.actions).value))
  {
    hide GetText, GetU64, GetActions, PutText, PutActions, At, CleanedActions, Sized;
    TextIsWritten(s, |MAGIC|);
    var root := GetText(s, |MAGIC|).value.0;
    var o1 := |MAGIC| + |PutText(root)|;
    U64IsWritten(s, o1);
    U64IsWritten(s, o1 + 8);
    var applied, count := GetU64(s, o1).value.0, GetU64(s, o1 + 8).value.0;
    AtFits(s, o1 + 8, PutInt(count, 8));
    var acts := ActionsAreWritten(s, o1 + 16, count);
    r := Record(root, applied, acts);
    CleaningKeepsCount(acts);
    AtConcat(s, o1 + 8, PutInt(count, 8), PutActions(acts));
    AtConcat(s, o1, PutInt(applied, 8), PutInt(count, 8) + PutActions(acts));
    AtConcat(s, |MAGIC|, PutText(root), PutInt(applied, 8) + (PutInt(count, 8) + PutActions(acts)));
    AtConcat(s, 0, MAGIC, PutText(root) + (PutInt(applied, 8) + (PutInt(count, 8) + PutActions(acts))));
    AllOfIt(s, Serialize(r));
  }

  lemma AtFits(s: Bytes, o: nat, part: Bytes)
    requires At(s, o, part)
    ensures o + |part| <= |s|
  {
  }

  lemma AllOfIt(s: Bytes, part: Bytes)
    requires At(s, 0, part) && |part| == |s|
    ensures s == part
  {
    assert s[0..|s|] == s;
  }

  // ----- the format itself

  // A file begins with its name and version, and an action with the number of its kind.
  lemma {:induction false} FormatIsFixed(r: Record, a: Action)
    ensures var name := "POSTLINE_PATCH_ROLLBACK_V1\n";
            |MAGIC| == |name| && MAGIC <= Serialize(r) && forall i :: 0 <= i < |name| ==> MAGIC[i] == name[i] as int
    ensures var first := PutAction(a)[0];
            && (first == 1 <==> a.kind == CREATE_DIRECTORIES) && (first == 2 <==> a.kind == CREATE_FILE)
            && (first == 3 <==> a.kind == DELETE_FILE) && (first == 4 <==> a.kind == REPLACE_FILE)
            && (first == 5 <==> a.kind == MOVE_FILE)
  {
    hide PutTexts, PutStrings, PutText, PutActions;
    assert PutAction(a)[0] == PutInt(KindCode(a.kind), 8)[0] == Shift(KindCode(a.kind), 0) % 0x100;
    assert MAGIC <= Serialize(r);
  }
}
