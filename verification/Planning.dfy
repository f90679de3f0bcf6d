// The planner: it works through the operations of a patch on an overlay of the tree and lists the actions to take.
module Planning {
  import opened Common
  import opened ByteStrings
  import opened Hunks
  import opened Trees

  datatype PatchOp =
    | AddFile(path: Path, lines: Lines)
    | RemoveFile(path: Path)
    | UpdateFile(path: Path, moveTo: Option<Path>, hunks: seq<Hunk>)

  // files: what each touched path holds, None once deleted; dirs: directories to be made.
  datatype Plan = Plan(files: map<Path, Option<Bytes>>, dirs: set<Path>, edits: seq<Edit>)

  datatype Reading = Refused | Absent | Present(content: Bytes)

  const EMPTY_PLAN: Plan := Plan(map[], {}, [])

  predicate PlannedFile(s: Plan, p: Path) {
    p in s.files && s.files[p].Some?
  }

  function ReadPlanned(t: Tree, s: Plan, p: Path): Reading {
    if p in s.files then
      if s.files[p].Some? then Present(s.files[p].value) else Absent
    else if IsFile(t, p) then Present(t[p].content)
    else if p in t then Refused
    else Absent
  }

  // None where the original raises.
  function DirExists(t: Tree, s: Plan, p: Path): Option<bool> {
    if PlannedFile(s, p) then Some(false)
    else if p in s.dirs || IsDir(t, p) then Some(true)
    else if p in t then None
    else Some(false)
  }

  // The directories to make among the first k ancestors, outermost first.
  function Missing(t: Tree, s: Plan, p: Path, k: nat): Option<seq<Path>>
    requires k < |p|
  {
    if k == 0 then Some([])
    else
      var outer := Missing(t, s, p, k - 1);
      var found := DirExists(t, s, p[..k]);
      if outer.None? || found.None? then None
      else Some(outer.value + if found.value then [] else [p[..k]])
  }

  function Elements(paths: seq<Path>): set<Path> {
    set p | p in paths
  }

  function EnsureParents(t: Tree, s: Plan, p: Path): Option<Plan> {
    var missing := Missing(t, s, p, |p| - 1);
    if missing.None? then None
    else if missing.value == [] then Some(s)
    else Some(Plan(s.files, s.dirs + Elements(missing.value), s.edits + [CreateDirectories(missing.value)]))
  }

  function Update(s: Plan, p: Path, content: Option<Bytes>, edits: seq<Edit>): Plan {
    Plan(s.files[p := content], s.dirs, s.edits + edits)
  }

  // None where planning is refused.
  function AddOp(t: Tree, s: Plan, op: PatchOp): Option<Plan> {
    match op
    case AddFile(path, lines) =>
      var u := EnsureParents(t, s, path);
      if ReadPlanned(t, s, path) != Absent || u.None? then None
      else Some(Update(u.value, path, Some(JoinLines(lines)), [CreateFile(path, JoinLines(lines))]))
    case RemoveFile(path) =>
      var expected := ReadPlanned(t, s, path);
      if !expected.Present? then None
      else Some(Update(s, path, None, [DeleteFile(path, expected.content)]))
    case UpdateFile(path, moveTo, hunks) =>
      var expected := ReadPlanned(t, s, path);
      if !expected.Present? then None
      else
        var content := PatchedContent(expected.content, hunks);
        if content.None? then None
        else if moveTo.None? then
          Some(Update(s, path, content, [ReplaceFile(path, expected.content, content.value)]))
        else
          var u := EnsureParents(t, s, moveTo.value);
          if ReadPlanned(t, s, moveTo.value) != Absent || u.None? then None
          else if content.value == expected.content then
            Some(Update(Update(u.value, path, None, []), moveTo.value, content,
                        [MoveFile(path, moveTo.value, expected.content)]))
          else
            Some(Update(Update(u.value, path, None, []), moveTo.value, content,
                        [DeleteFile(path, expected.content), CreateFile(moveTo.value, content.value)]))
  }

  function PlanFrom(t: Tree, s: Plan, ops: seq<PatchOp>): Option<Plan>
    decreases |ops|
  {
    if ops == [] then Some(s)
    else if AddOp(t, s, ops[0]).None? then None
    else PlanFrom(t, AddOp(t, s, ops[0]).value, ops[1..])
  }

  // ----- the tree a plan stands for: the original with created directories and planned files laid over it

  function NodeAt(t: Tree, s: Plan, p: Path): Option<Node> {
    if PlannedFile(s, p) then Some(File(s.files[p].value))
    else if p in s.dirs then Some(Directory)
    else if p in s.files || p !in t then None
    else Some(t[p])
  }

  function Overlay(t: Tree, s: Plan): (o: Tree)
    ensures forall p :: p in o <==> NodeAt(t, s, p).Some?
    ensures forall p :: p in o ==> o[p] == NodeAt(t, s, p).value
  {
    map p | p in t.Keys + s.dirs + s.files.Keys && NodeAt(t, s, p).Some? :: NodeAt(t, s, p).value
  }

  // ----- when the planned actions will not go through

  // The destination is a directory the plan makes, or lies below a file the plan writes.
  predicate Clash(s: Plan, p: Path) {
    p in s.dirs || exists k :: 0 < k < |p| && PlannedFile(s, p[..k])
  }

  predicate OpClash(s: Plan, op: PatchOp) {
    match op
    case AddFile(path, _) => Clash(s, path)
    case RemoveFile(_) => false
    case UpdateFile(_, moveTo, _) => moveTo.Some? && Clash(s, moveTo.value)
  }

  predicate ClashFree(t: Tree, s: Plan, ops: seq<PatchOp>)
    requires PlanFrom(t, s, ops).Some?
    decreases |ops|
  {
    ops == [] || (!OpClash(s, ops[0]) && ClashFree(t, AddOp(t, s, ops[0]).value, ops[1..]))
  }

  // ----- the invariant of planning while no clash has come up

  ghost predicate NoOverlap(t: Tree, s: Plan) {
    && (forall p :: p in s.dirs ==> p !in t && !PlannedFile(s, p))
    && (forall p :: p in s.files ==> !IsDir(t, p))
  }

  ghost predicate Consistent(t: Tree, s: Plan) {
    NoOverlap(t, s) && WellFormed(Overlay(t, s))
  }

  ghost predicate GoesThrough(t: Tree, s: Plan) {
    Consistent(t, s) && ApplyAll(t, s.edits) == Run(|s.edits|, Overlay(t, s))
  }

  lemma {:induction false} ApplyAllConcat(t: Tree, a: seq<Edit>, b: seq<Edit>)
    ensures var r := ApplyAll(t, a);
            && r.applied <= |a|
            && (r.applied < |a| ==> ApplyAll(t, a + b) == r)
            && (r.applied == |a| ==>
                  ApplyAll(t, a + b) == Run(|a| + ApplyAll(r.tree, b).applied, ApplyAll(r.tree, b).tree))
    decreases |a|
  {
    hide Apply;
    if a == [] {
      assert a + b == b;
    } else {
      assert (a + b)[1..] == a[1..] + b;
      ApplyAllConcat(Apply(t, a[0]).tree, a[1..], b);
    }
  }

  lemma {:induction false} MkdirAllConcat(t: Tree, a: seq<Path>, b: seq<Path>)
    requires MkdirAll(t, a).ok
    ensures MkdirAll(t, a + b) == MkdirAll(MkdirAll(t, a).tree, b)
    decreases |a|
  {
    if a == [] {
      assert a + b == b;
    } else {
      assert (a + b)[1..] == a[1..] + b;
      MkdirAllConcat(Mkdir(t, a[0]).tree, a[1..], b);
    }
  }

  lemma {:induction false} MkdirAllMakesNewOnly(t: Tree, paths: seq<Path>, p: Path)
    requires p in paths && p in t
    ensures !MkdirAll(t, paths).ok
    decreases |paths|
  {
    if p != paths[0] && Mkdir(t, paths[0]).ok {
      assert p in paths[1..];
      MkdirAllMakesNewOnly(Mkdir(t, paths[0]).tree, paths[1..], p);
    }
  }

  function WithDirs(s: Plan, paths: seq<Path>): Plan {
    Plan(s.files, s.dirs + Elements(paths), s.edits)
  }

  lemma OneMoreDirectory(t: Tree, s: Plan, made: seq<Path>, q: Path)
    requires q !in t && !PlannedFile(s, q) && q !in s.dirs && q !in made
    requires IsDir(Overlay(t, WithDirs(s, made)), Parent(q))
    ensures Mkdir(Overlay(t, WithDirs(s, made)), q) == Outcome(true, Overlay(t, WithDirs(s, made + [q])))
  {
    var mid, end := Overlay(t, WithDirs(s, made)), Overlay(t, WithDirs(s, made + [q]));
    forall p: Path
      ensures p in mid[q := Directory] <==> p in end
      ensures p in end ==> mid[q := Directory][p] == end[p]
    {
      assert p in made + [q] <==> p in made || p == q;
    }
    assert mid[q := Directory] == end;
  }

  lemma ExistingDirectoryShows(t: Tree, s: Plan, made: seq<Path>, q: Path)
    requires Consistent(t, s) && DirExists(t, s, q) == Some(true)
    ensures IsDir(Overlay(t, WithDirs(s, made)), q)
  {
  }

  // With no planned file above the destination the missing directories can be made, and make up its parents.
  lemma {:induction false} MissingCanBeMade(t: Tree, s: Plan, p: Path, k: nat)
    requires Consistent(t, s) && k < |p| && Missing(t, s, p, k).Some?
    requires forall j :: 0 < j < |p| ==> !PlannedFile(s, p[..j])
    ensures var missing := Missing(t, s, p, k).value;
            && MkdirAll(Overlay(t, s), missing) == Outcome(true, Overlay(t, WithDirs(s, missing)))
            && IsDir(Overlay(t, WithDirs(s, missing)), p[..k])
            && (forall q :: q in missing ==> q !in t && !PlannedFile(s, q) && |q| <= k)
  {
    hide Overlay, Consistent, IsDir, Mkdir, MkdirAll, DirExists, PlannedFile;
    if k == 0 {
      NoMoreDirectories(t, s);
    } else {
      MissingCanBeMade(t, s, p, k - 1);
      var outer := Missing(t, s, p, k - 1).value;
      var mid := Overlay(t, WithDirs(s, outer));
      var q: Path := p[..k];
      assert Parent(q) == p[..k - 1];
      if DirExists(t, s, q).value {
        ExistingDirectoryShows(t, s, outer, q);
        assert outer + [] == outer;
      } else {
        NotExistingIsAbsent(t, s, q);
        OneMoreDirectory(t, s, outer, q);
        MkdirAllConcat(Overlay(t, s), outer, [q]);
        assert MkdirAll(mid, [q]) == Mkdir(mid, q) by { MkdirOne(mid, q); }
        MadeDirectoryShows(mid, q);
      }
    }
  }

  lemma NoMoreDirectories(t: Tree, s: Plan)
    ensures WithDirs(s, []) == s && IsDir(Overlay(t, s), [])
    ensures MkdirAll(Overlay(t, s), []) == Outcome(true, Overlay(t, s))
  {
    assert s.dirs + Elements([]) == s.dirs;
  }

  lemma NotExistingIsAbsent(t: Tree, s: Plan, q: Path)
    requires DirExists(t, s, q) == Some(false) && !PlannedFile(s, q)
    ensures q !in t && q !in s.dirs
  {
  }

  lemma MkdirOne(t: Tree, q: Path)
    ensures MkdirAll(t, [q]) == Mkdir(t, q)
  {
    assert [q][1..] == [];
  }

  lemma MadeDirectoryShows(t: Tree, q: Path)
    ensures Mkdir(t, q).ok ==> IsDir(Mkdir(t, q).tree, q)
  {
  }

  // ----- adding actions to a plan that goes through

  lemma EditGoesThrough(t: Tree, s: Plan, v: Plan, e: Edit)
    requires GoesThrough(t, s) && v.edits == s.edits + [e] && NoOverlap(t, v)
    requires Apply(Overlay(t, s), e) == Outcome(true, Overlay(t, v))
    ensures GoesThrough(t, v)
  {
    hide Overlay, WellFormed, Apply, NoOverlap;
    ApplyAllConcat(t, s.edits, [e]);
    assert [e][1..] == [];
    assert ApplyAll(Overlay(t, s), [e]) == Run(1, Overlay(t, v));
    UndoInvertsApply(Overlay(t, s), e);
  }

  lemma EditFails(t: Tree, s: Plan, edits: seq<Edit>, e: Edit)
    requires GoesThrough(t, s) && s.edits + [e] <= edits && !Apply(Overlay(t, s), e).ok
    ensures ApplyAll(t, edits).applied < |edits|
  {
    hide Overlay, WellFormed, Apply, NoOverlap;
    ApplyAllConcat(t, s.edits, [e]);
    assert ApplyAll(Overlay(t, s), [e]).applied == 0;
    ApplyAllConcat(t, s.edits + [e], edits[|s.edits| + 1..]);
    assert s.edits + [e] + edits[|s.edits| + 1..] == edits;
  }

  lemma ParentsGoThrough(t: Tree, s: Plan, p: Path)
    requires GoesThrough(t, s) && EnsureParents(t, s, p).Some?
    requires forall j :: 0 < j < |p| ==> !PlannedFile(s, p[..j])
    ensures var u := EnsureParents(t, s, p).value;
            && GoesThrough(t, u) && IsDir(Overlay(t, u), Parent(p)) && u.files == s.files
            && (forall q :: q in u.dirs && |q| >= |p| ==> q in s.dirs) && s.dirs <= u.dirs
  {
    hide Overlay, WellFormed, MkdirAll, Missing, IsDir;
    var missing := Missing(t, s, p, |p| - 1).value;
    var u := EnsureParents(t, s, p).value;
    MissingCanBeMade(t, s, p, |p| - 1);
    assert p[..|p| - 1] == Parent(p);
    if missing == [] {
      NoMoreDirectories(t, s);
    } else {
      assert Overlay(t, u) == Overlay(t, WithDirs(s, missing)) by { EditsDoNotShow(t, u, WithDirs(s, missing)); }
      EditGoesThrough(t, s, u, CreateDirectories(missing));
    }
  }

  lemma EditsDoNotShow(t: Tree, a: Plan, b: Plan)
    requires a.files == b.files && a.dirs == b.dirs
    ensures Overlay(t, a) == Overlay(t, b)
  {
  }

  lemma {:induction false} PlannedFileIsMissing(t: Tree, s: Plan, p: Path, k: nat, j: nat)
    requires 0 < j <= k < |p| && PlannedFile(s, p[..j]) && Missing(t, s, p, k).Some?
    ensures p[..j] in Missing(t, s, p, k).value
  {
    if j < k {
      PlannedFileIsMissing(t, s, p, k - 1, j);
    }
  }

  lemma ParentsFail(t: Tree, s: Plan, p: Path, j: nat, edits: seq<Edit>)
    requires GoesThrough(t, s) && EnsureParents(t, s, p).Some? && 0 < j < |p| && PlannedFile(s, p[..j])
    requires EnsureParents(t, s, p).value.edits <= edits
    ensures ApplyAll(t, edits).applied < |edits|
  {
    hide GoesThrough;
    var missing := Missing(t, s, p, |p| - 1).value;
    PlannedFileIsMissing(t, s, p, |p| - 1, j);
    MkdirAllMakesNewOnly(Overlay(t, s), missing, p[..j]);
    EditFails(t, s, edits, CreateDirectories(missing));
  }

  // ----- one operation

  lemma ReadPlannedSeesOverlay(t: Tree, s: Plan, p: Path)
    requires Consistent(t, s)
    ensures ReadPlanned(t, s, p).Present? ==>
              Holds(Overlay(t, s), p, ReadPlanned(t, s, p).content) && p !in s.dirs && !IsDir(t, p)
    ensures ReadPlanned(t, s, p) == Absent ==> (p !in Overlay(t, s) <==> p !in s.dirs) && !IsDir(t, p)
    ensures ReadPlanned(t, s, p) == Absent && p in s.dirs ==> IsDir(Overlay(t, s), p)
  {
  }

  lemma ParentShows(t: Tree, s: Plan, p: Path)
    requires Consistent(t, s) && p in Overlay(t, s)
    ensures IsDir(Overlay(t, s), Parent(p))
  {
  }

  // Writing, replacing and deleting one file in the overlay.
  lemma UpdateShows(t: Tree, s: Plan, p: Path, content: Option<Bytes>, edits: seq<Edit>)
    requires NoOverlap(t, s) && p !in s.dirs && !IsDir(t, p)
    ensures var v := Update(s, p, content, edits);
            && NoOverlap(t, v)
            && Overlay(t, v) == if content.Some? then Overlay(t, s)[p := File(content.value)] else Overlay(t, s) - {p}
  {
    var v := Update(s, p, content, edits);
    assert forall q :: q != p ==> NodeAt(t, v, q) == NodeAt(t, s, q);
    var expected := if content.Some? then Overlay(t, s)[p := File(content.value)] else Overlay(t, s) - {p};
    assert forall q :: q in Overlay(t, v) <==> q in expected;
  }

  lemma AddStep(t: Tree, s: Plan, op: PatchOp)
    requires op.AddFile? && GoesThrough(t, s) && AddOp(t, s, op).Some? && !OpClash(s, op)
    ensures GoesThrough(t, AddOp(t, s, op).value)
  {
    hide GoesThrough, Overlay, EnsureParents, NoOverlap;
    var p := op.path;
    var u := EnsureParents(t, s, p).value;
    ParentsGoThrough(t, s, p);
    assert Consistent(t, s) && Consistent(t, u) by { ThroughIsConsistent(t, s); ThroughIsConsistent(t, u); }
    assert p !in u.dirs;
    assert ReadPlanned(t, u, p) == Absent;
    ReadPlannedSeesOverlay(t, u, p);
    UpdateShows(t, u, p, Some(JoinLines(op.lines)), [CreateFile(p, JoinLines(op.lines))]);
    EditGoesThrough(t, u, AddOp(t, s, op).value, CreateFile(p, JoinLines(op.lines)));
  }

  lemma RemoveStep(t: Tree, s: Plan, op: PatchOp)
    requires op.RemoveFile? && GoesThrough(t, s) && AddOp(t, s, op).Some?
    ensures GoesThrough(t, AddOp(t, s, op).value)
  {
    hide GoesThrough, Overlay, NoOverlap;
    var p := op.path;
    var expected := ReadPlanned(t, s, p).content;
    ThroughIsConsistent(t, s);
    ReadPlannedSeesOverlay(t, s, p);
    UpdateShows(t, s, p, None, [DeleteFile(p, expected)]);
    EditGoesThrough(t, s, AddOp(t, s, op).value, DeleteFile(p, expected));
  }

  lemma ReplaceStep(t: Tree, s: Plan, op: PatchOp)
    requires op.UpdateFile? && op.moveTo.None? && GoesThrough(t, s) && AddOp(t, s, op).Some?
    ensures GoesThrough(t, AddOp(t, s, op).value)
  {
    hide GoesThrough, Overlay, NoOverlap, PatchedContent, WellFormed;
    var p := op.path;
    var expected := ReadPlanned(t, s, p).content;
    var content := PatchedContent(expected, op.hunks);
    var e := ReplaceFile(p, expected, content.value);
    ThroughIsConsistent(t, s);
    ReadPlannedSeesOverlay(t, s, p);
    ParentShows(t, s, p);
    UpdateShows(t, s, p, content, [e]);
    EditGoesThrough(t, s, AddOp(t, s, op).value, e);
  }

  // What is known once the parents of a move's destination are in place.
  ghost predicate ReadyToMove(t: Tree, u: Plan, src: Path, dst: Path, expected: Bytes) {
    && GoesThrough(t, u) && Consistent(t, u) && src != dst
    && Holds(Overlay(t, u), src, expected) && src !in u.dirs && !IsDir(t, src)
    && dst !in Overlay(t, u) && dst !in u.dirs && !IsDir(t, dst) && IsDir(Overlay(t, u), Parent(dst))
  }

  lemma MoveIsReady(t: Tree, s: Plan, op: PatchOp)
    requires op.UpdateFile? && op.moveTo.Some? && GoesThrough(t, s) && AddOp(t, s, op).Some? && !OpClash(s, op)
    ensures ReadyToMove(t, EnsureParents(t, s, op.moveTo.value).value, op.path, op.moveTo.value,
              ReadPlanned(t, s, op.path).content)
  {
    hide GoesThrough, Overlay, NoOverlap, PatchedContent, Missing, IsDir, WellFormed;
    var src, dst := op.path, op.moveTo.value;
    var u := EnsureParents(t, s, dst).value;
    ParentsGoThrough(t, s, dst);
    ThroughIsConsistent(t, s);
    ThroughIsConsistent(t, u);
    ReadPlannedSeesOverlay(t, u, dst);
    ReadPlannedSeesOverlay(t, u, src);
  }

  lemma MoveStep(t: Tree, s: Plan, op: PatchOp)
    requires op.UpdateFile? && op.moveTo.Some? && GoesThrough(t, s) && AddOp(t, s, op).Some? && !OpClash(s, op)
    ensures GoesThrough(t, AddOp(t, s, op).value)
  {
    hide GoesThrough, Overlay, NoOverlap, PatchedContent, EnsureParents, ReadPlanned, Consistent, IsDir;
    var src, dst := op.path, op.moveTo.value;
    var expected := ReadPlanned(t, s, src).content;
    var content := PatchedContent(expected, op.hunks).value;
    var u := EnsureParents(t, s, dst).value;
    MoveIsReady(t, s, op);
    if content == expected {
      RenameGoesThrough(t, u, src, dst, content);
    } else {
      RewriteGoesThrough(t, u, src, dst, expected, content);
    }
  }

  lemma RenameGoesThrough(t: Tree, u: Plan, src: Path, dst: Path, content: Bytes)
    requires ReadyToMove(t, u, src, dst, content)
    ensures GoesThrough(t, Update(Update(u, src, None, []), dst, Some(content), [MoveFile(src, dst, content)]))
  {
    hide GoesThrough, Overlay, NoOverlap, IsDir;
    var e := MoveFile(src, dst, content);
    var mid := Update(u, src, None, []);
    UpdateShows(t, u, src, None, []);
    UpdateShows(t, mid, dst, Some(content), [e]);
    assert u.edits + [] + [e] == u.edits + [e];
    ParentIsOther(dst);
    DirectoryIsNoEntry(Overlay(t, u), dst);
    EditGoesThrough(t, u, Update(mid, dst, Some(content), [e]), e);
  }

  lemma ParentIsOther(p: Path)
    ensures Parent(p) != p
  {
  }

  lemma DirectoryIsNoEntry(t: Tree, p: Path)
    requires p !in t
    ensures !IsDir(t, p)
  {
  }

  lemma RewriteGoesThrough(t: Tree, u: Plan, src: Path, dst: Path, expected: Bytes, content: Bytes)
    requires ReadyToMove(t, u, src, dst, expected)
    ensures GoesThrough(t,
              Update(Update(u, src, None, []), dst, Some(content),
                  [DeleteFile(src, expected), CreateFile(dst, content)]))
  {
    hide GoesThrough, Overlay, NoOverlap;
    var mid := Update(u, src, None, [DeleteFile(src, expected)]);
    var end := Update(mid, dst, Some(content), [CreateFile(dst, content)]);
    UpdateShows(t, u, src, None, [DeleteFile(src, expected)]);
    EditGoesThrough(t, u, mid, DeleteFile(src, expected));
    UpdateShows(t, mid, dst, Some(content), [CreateFile(dst, content)]);
    EditGoesThrough(t, mid, end, CreateFile(dst, content));
    assert u.edits + [] + [DeleteFile(src, expected), CreateFile(dst, content)] ==
           u.edits + [DeleteFile(src, expected)] + [CreateFile(dst, content)];
  }

  lemma StepGoesThrough(t: Tree, s: Plan, op: PatchOp)
    requires GoesThrough(t, s) && AddOp(t, s, op).Some? && !OpClash(s, op)
    ensures GoesThrough(t, AddOp(t, s, op).value)
  {
    hide GoesThrough, AddOp, OpClash;
    match op
    case AddFile(_, _) => AddStep(t, s, op);
    case RemoveFile(_) => RemoveStep(t, s, op);
    case UpdateFile(_, moveTo, _) =>
      if moveTo.Some? {
        MoveStep(t, s, op);
      } else {
        ReplaceStep(t, s, op);
      }
  }

  // A destination that is a directory by the time it is written.
  lemma DestinationFails(t: Tree, s: Plan, dst: Path, edits: seq<Edit>, e: Edit)
    requires GoesThrough(t, s) && EnsureParents(t, s, dst).Some? && dst in s.dirs
    requires forall j :: 0 < j < |dst| ==> !PlannedFile(s, dst[..j])
    requires EnsureParents(t, s, dst).value.edits + [e] <= edits
    requires (e.CreateFile? && e.path == dst) || (e.MoveFile? && e.dst == dst)
    ensures ApplyAll(t, edits).applied < |edits|
  {
    hide GoesThrough, Overlay, NoOverlap, EnsureParents;
    var u := EnsureParents(t, s, dst).value;
    ParentsGoThrough(t, s, dst);
    ThroughIsConsistent(t, u);
    DirectoryShows(t, u, dst);
    EditFails(t, u, edits, e);
  }

  lemma DirectoryShows(t: Tree, s: Plan, p: Path)
    requires Consistent(t, s) && p in s.dirs
    ensures p in Overlay(t, s)
  {
  }

  lemma ClashFails(t: Tree, s: Plan, op: PatchOp)
    requires GoesThrough(t, s) && AddOp(t, s, op).Some? && OpClash(s, op)
    ensures var v := AddOp(t, s, op).value; ApplyAll(t, v.edits).applied < |v.edits|
  {
    hide GoesThrough, EnsureParents, PatchedContent;
    var dst := if op.AddFile? then op.path else op.moveTo.value;
    var v := AddOp(t, s, op).value;
    var u := EnsureParents(t, s, dst).value;
    if j :| 0 < j < |dst| && PlannedFile(s, dst[..j]) {
      ParentsFail(t, s, dst, j, v.edits);
    } else if op.AddFile? {
      DestinationFails(t, s, dst, v.edits, CreateFile(dst, JoinLines(op.lines)));
    } else {
      var expected := ReadPlanned(t, s, op.path).content;
      var content := PatchedContent(expected, op.hunks).value;
      assert u.edits + [] == u.edits;
      if content == expected {
        DestinationFails(t, s, dst, v.edits, MoveFile(op.path, dst, expected));
      } else {
        RewriteFails(t, s, op.path, dst, expected, content);
      }
    }
  }

  lemma RewriteFails(t: Tree, s: Plan, src: Path, dst: Path, expected: Bytes, content: Bytes)
    requires GoesThrough(t, s) && EnsureParents(t, s, dst).Some? && dst in s.dirs
    requires forall j :: 0 < j < |dst| ==> !PlannedFile(s, dst[..j])
    requires ReadPlanned(t, s, src) == Present(expected)
    ensures var edits := EnsureParents(t, s, dst).value.edits + [DeleteFile(src, expected), CreateFile(dst, content)];
            ApplyAll(t, edits).applied < |edits|
  {
    hide GoesThrough, Overlay, NoOverlap, EnsureParents;
    var u := EnsureParents(t, s, dst).value;
    var mid := Update(u, src, None, [DeleteFile(src, expected)]);
    ParentsGoThrough(t, s, dst);
    ThroughIsConsistent(t, s);
    ThroughIsConsistent(t, u);
    ReadPlannedSeesOverlay(t, u, src);
    ReadPlannedSeesOverlay(t, s, src);
    UpdateShows(t, u, src, None, [DeleteFile(src, expected)]);
    EditGoesThrough(t, u, mid, DeleteFile(src, expected));
    ThroughIsConsistent(t, mid);
    DirectoryShows(t, mid, dst);
    EditFails(t, mid, u.edits + [DeleteFile(src, expected), CreateFile(dst, content)], CreateFile(dst, content));
  }

  lemma ThroughIsConsistent(t: Tree, s: Plan)
    requires GoesThrough(t, s)
    ensures Consistent(t, s)
  {
  }

  // ----- whole patches

  lemma {:induction false} PlanGrows(t: Tree, s: Plan, ops: seq<PatchOp>)
    requires PlanFrom(t, s, ops).Some?
    ensures s.edits <= PlanFrom(t, s, ops).value.edits
    decreases |ops|
  {
    hide PatchedContent, Missing;
    if ops != [] {
      PlanGrows(t, AddOp(t, s, ops[0]).value, ops[1..]);
    }
  }

  lemma {:induction false} PlanGoesThrough(t: Tree, s: Plan, ops: seq<PatchOp>)
    requires GoesThrough(t, s) && PlanFrom(t, s, ops).Some?
    ensures var v := PlanFrom(t, s, ops).value;
            if ClashFree(t, s, ops) then GoesThrough(t, v) else ApplyAll(t, v.edits).applied < |v.edits|
    decreases |ops|
  {
    hide GoesThrough, AddOp, OpClash;
    if ops != [] {
      var u := AddOp(t, s, ops[0]).value;
      if OpClash(s, ops[0]) {
        ClashFails(t, s, ops[0]);
        PlanGrows(t, u, ops[1..]);
        var v := PlanFrom(t, s, ops).value;
        ApplyAllConcat(t, u.edits, v.edits[|u.edits|..]);
        assert u.edits + v.edits[|u.edits|..] == v.edits;
      } else {
        StepGoesThrough(t, s, ops[0]);
        PlanGoesThrough(t, u, ops[1..]);
      }
    }
  }

  // On the tree it was planned against a patch goes through exactly when no destination clashes with the plan
  // so far, and then leaves the original files overlaid with the planned ones and the directories it made.
  lemma PlannedActionsSucceedExactly(t: Tree, ops: seq<PatchOp>)
    requires WellFormed(t) && PlanFrom(t, EMPTY_PLAN, ops).Some?
    ensures var v := PlanFrom(t, EMPTY_PLAN, ops).value;
            var r := ApplyAll(t, v.edits);
            && (r.applied == |v.edits| <==> ClashFree(t, EMPTY_PLAN, ops))
            && (r.applied == |v.edits| ==> r.tree == Overlay(t, v) && WellFormed(r.tree))
  {
    assert Overlay(t, EMPTY_PLAN) == t;
    PlanGoesThrough(t, EMPTY_PLAN, ops);
  }

  // ----- a condition on the operations alone

  function PathsOf(op: PatchOp): set<Path> {
    {op.path} + if op.UpdateFile? && op.moveTo.Some? then {op.moveTo.value} else {}
  }

  predicate Above(p: Path, q: Path) {
    |p| < |q| && q[..|p|] == p
  }

  // Every planned file is one of the paths, every directory to be made lies above one.
  ghost predicate Covered(s: Plan, paths: set<Path>) {
    && s.files.Keys <= paths
    && forall d :: d in s.dirs ==> exists q :: q in paths && Above(d, q)
  }

  ghost predicate NoneAbove(paths: set<Path>) {
    forall p, q :: p in paths && q in paths ==> !Above(p, q)
  }

  lemma {:induction false} MissingLiesAbove(t: Tree, s: Plan, p: Path, k: nat)
    requires k < |p| && Missing(t, s, p, k).Some?
    ensures forall q :: q in Missing(t, s, p, k).value ==> Above(q, p)
  {
    if k > 0 {
      MissingLiesAbove(t, s, p, k - 1);
      var outer := Missing(t, s, p, k - 1).value;
      forall q | q in Missing(t, s, p, k).value
        ensures Above(q, p)
      {
        assert q in outer || q == p[..k];
      }
    }
  }

  lemma ParentsAreCovered(t: Tree, s: Plan, p: Path, paths: set<Path>)
    requires Covered(s, paths) && p in paths && EnsureParents(t, s, p).Some?
    ensures Covered(EnsureParents(t, s, p).value, paths)
  {
    MissingLiesAbove(t, s, p, |p| - 1);
  }

  lemma StepIsCovered(t: Tree, s: Plan, op: PatchOp, paths: set<Path>)
    requires Covered(s, paths) && PathsOf(op) <= paths && AddOp(t, s, op).Some?
    ensures Covered(AddOp(t, s, op).value, paths)
  {
    hide EnsureParents, PatchedContent;
    assert op.path in PathsOf(op);
    if op.AddFile? {
      ParentsAreCovered(t, s, op.path, paths);
    } else if op.UpdateFile? && op.moveTo.Some? {
      assert op.moveTo.value in PathsOf(op);
      ParentsAreCovered(t, s, op.moveTo.value, paths);
    }
  }

  lemma CoveredHasNoClash(s: Plan, p: Path, paths: set<Path>)
    requires Covered(s, paths) && NoneAbove(paths) && p in paths
    ensures !Clash(s, p)
  {
    if k :| 0 < k < |p| && PlannedFile(s, p[..k]) {
      assert Above(p[..k], p);
    }
  }

  lemma {:induction false} UnnestedPathsDoNotClash(t: Tree, s: Plan, ops: seq<PatchOp>, paths: set<Path>)
    requires Covered(s, paths) && NoneAbove(paths) && PlanFrom(t, s, ops).Some?
    requires forall i :: 0 <= i < |ops| ==> PathsOf(ops[i]) <= paths
    ensures ClashFree(t, s, ops)
    decreases |ops|
  {
    hide AddOp, Clash, Covered, NoneAbove;
    if ops != [] {
      var op := ops[0];
      assert op.path in PathsOf(op) && (op.UpdateFile? && op.moveTo.Some? ==> op.moveTo.value in PathsOf(op));
      CoveredHasNoClash(s, op.path, paths);
      if op.UpdateFile? && op.moveTo.Some? {
        CoveredHasNoClash(s, op.moveTo.value, paths);
      }
      StepIsCovered(t, s, op, paths);
      UnnestedPathsDoNotClash(t, AddOp(t, s, op).value, ops[1..], paths);
    }
  }

  // A patch that can be planned always goes through when none of its paths lies below another.
  lemma UnnestedPatchGoesThrough(t: Tree, ops: seq<PatchOp>, paths: set<Path>)
    requires WellFormed(t) && PlanFrom(t, EMPTY_PLAN, ops).Some? && NoneAbove(paths)
    requires forall i :: 0 <= i < |ops| ==> PathsOf(ops[i]) <= paths
    ensures var v := PlanFrom(t, EMPTY_PLAN, ops).value;
            ApplyAll(t, v.edits) == Run(|v.edits|, Overlay(t, v))
  {
    hide GoesThrough, ClashFree, Overlay;
    UnnestedPathsDoNotClash(t, EMPTY_PLAN, ops, paths);
    PlannedActionsSucceedExactly(t, ops);
    RunThroughPrefix(t, PlanFrom(t, EMPTY_PLAN, ops).value.edits, 0);
  }

  const A: Bytes := [0x61]
  const B: Bytes := [0x62]

  // Nested paths may be planned and then fail: adding a/b and then a.
  lemma NestedPathsCanFail(lines: Lines)
    ensures var ops := [AddFile([A, B], lines), AddFile([A], lines)];
            var v := PlanFrom(map[], EMPTY_PLAN, ops);
            v.Some? && ApplyAll(map[], v.value.edits).applied < |v.value.edits|
  {
    var t: Tree, a: Path, ab: Path := map[], [A], [A, B];
    var first, second := AddFile(ab, lines), AddFile(a, lines);
    assert Missing(t, EMPTY_PLAN, ab, 0) == Some([]);
    assert ab[..1] == a;
    assert DirExists(t, EMPTY_PLAN, ab[..1]) == Some(false) && [] + [ab[..1]] == [a];
    assert Missing(t, EMPTY_PLAN, ab, 1) == Some([a]);
    var s := AddOp(t, EMPTY_PLAN, first).value;
    assert a in Elements([a]);
    assert a != ab && a !in s.files && a in s.dirs;
    assert Missing(t, s, a, 0) == Some([]);
    var u := AddOp(t, s, second).value;
    assert [second][1..] == [];
    assert PlanFrom(t, s, [second]) == Some(u);
    assert [first, second][1..] == [second];
    assert PlanFrom(t, EMPTY_PLAN, [first, second]) == Some(u);
    assert OpClash(s, second);
    assert !ClashFree(t, s, [second]) && !ClashFree(t, EMPTY_PLAN, [first, second]);
    RunThroughPrefix(t, u.edits, 0);
    PlannedActionsSucceedExactly(t, [first, second]);
  }

  // And they may go through: adding a, deleting it, and adding a/b.
  lemma NestedPathsCanSucceed(lines: Lines)
    ensures var ops := [AddFile([A], lines), RemoveFile([A]), AddFile([A, B], lines)];
            var v := PlanFrom(map[], EMPTY_PLAN, ops);
            v.Some? && ApplyAll(map[], v.value.edits).applied == |v.value.edits|
  {
    var t: Tree, a: Path, ab: Path := map[], [A], [A, B];
    var first, second, third := AddFile(a, lines), RemoveFile(a), AddFile(ab, lines);
    assert Missing(t, EMPTY_PLAN, a, 0) == Some([]);
    var s := AddOp(t, EMPTY_PLAN, first).value;
    var u := AddOp(t, s, second).value;
    assert a != ab && ab[..1] == a;
    assert Missing(t, u, ab, 0) == Some([]);
    assert DirExists(t, u, ab[..1]) == Some(false) && [] + [ab[..1]] == [a];
    assert Missing(t, u, ab, 1) == Some([a]);
    var v := AddOp(t, u, third).value;
    assert [third][1..] == [] && PlanFrom(t, u, [third]) == Some(v);
    assert [second, third][1..] == [third] && PlanFrom(t, s, [second, third]) == Some(v);
    assert [first, second, third][1..] == [second, third];
    assert PlanFrom(t, EMPTY_PLAN, [first, second, third]) == Some(v);
    assert u.dirs == {} && u.files == map[a := None];
    assert !Clash(u, ab);
    assert ClashFree(t, u, [third]) && ClashFree(t, s, [second, third]);
    PlannedActionsSucceedExactly(t, [first, second, third]);
  }
}
