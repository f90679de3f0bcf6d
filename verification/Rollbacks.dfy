// What the planner lists can always be taken back: wherever a run of planned actions stops, and on whatever tree, the
// action that failed has changed nothing, so undoing what is on record restores the tree.
module Rollbacks {
  import opened Common
  import opened ByteStrings
  import opened Hunks
  import opened Trees
  import opened Planning
  import opened SafePaths
  import PatchParser

  // ----- runs whose failing action leaves nothing behind

  predicate NeverHalfWay(t: Tree, edits: seq<Edit>) {
    var k := ApplyAll(t, edits).applied;
    k < |edits| ==> !StopsHalfWay(ApplyAll(t, edits[..k]).tree, edits[k])
  }

  lemma NeverHalfWayIsUndone(t: Tree, edits: seq<Edit>)
    requires WellFormed(t) && NeverHalfWay(t, edits)
    ensures var r := ApplyAll(t, edits);
            r.applied <= |edits| && UndoAll(r.tree, edits[..r.applied]) == Outcome(true, t)
  {
    hide WellFormed, Apply, StopsHalfWay;
    RunThroughPrefix(t, edits, 0);
    if ApplyAll(t, edits).applied == |edits| {
      UndoAllInvertsApplyAll(t, edits);
      assert edits[..|edits|] == edits;
    } else {
      FailedRunIsUndoneExactly(t, edits);
    }
  }

  // The run so far: it has not stopped half-way, and if it is complete, everything planned to be a file exists.
  ghost predicate RunOk(t: Tree, edits: seq<Edit>, files: map<Path, Option<Bytes>>) {
    var r := ApplyAll(t, edits);
    && NeverHalfWay(t, edits)
    && (r.applied == |edits| ==>
          WellFormed(r.tree) && forall p :: p in files && files[p].Some? ==> p in r.tree)
  }

  function FilesAfter(files: map<Path, Option<Bytes>>, e: Edit): map<Path, Option<Bytes>> {
    match e
    case CreateDirectories(_) => files
    case CreateFile(path, content) => files[path := Some(content)]
    case DeleteFile(path, _) => files[path := None]
    case ReplaceFile(path, _, content) => files[path := Some(content)]
    case MoveFile(src, dst, content) => files[src := None][dst := Some(content)]
  }

  lemma {:induction false} MkdirAllKeepsEntries(t: Tree, paths: seq<Path>, p: Path)
    requires p in t
    ensures p in MkdirAll(t, paths).tree
    decreases |paths|
  {
    if paths != [] {
      MkdirAllKeepsEntries(Mkdir(t, paths[0]).tree, paths[1..], p);
    }
  }

  lemma ApplyKeepsPlanned(t: Tree, e: Edit, files: map<Path, Option<Bytes>>, p: Path)
    requires Apply(t, e).ok && forall q :: q in files && files[q].Some? ==> q in t
    requires p in FilesAfter(files, e) && FilesAfter(files, e)[p].Some?
    ensures p in Apply(t, e).tree
  {
    if e.CreateDirectories? {
      MkdirAllKeepsEntries(t, e.paths, p);
    }
  }

  lemma RunGrows(t: Tree, edits: seq<Edit>, e: Edit, files: map<Path, Option<Bytes>>)
    requires WellFormed(t) && RunOk(t, edits, files)
    requires var r := ApplyAll(t, edits);
             r.applied == |edits| && !Apply(r.tree, e).ok ==> !StopsHalfWay(r.tree, e)
    ensures RunOk(t, edits + [e], FilesAfter(files, e))
  {
    hide Apply, StopsHalfWay, WellFormed, FilesAfter;
    var r := ApplyAll(t, edits);
    var more := edits + [e];
    ApplyAllConcat(t, edits, [e]);
    assert [e][1..] == [] && more[..|edits|] == edits;
    if r.applied < |edits| {
      assert more[..r.applied] == edits[..r.applied];
    } else if Apply(r.tree, e).ok {
      UndoInvertsApply(r.tree, e);
      assert ApplyAll(Apply(r.tree, e).tree, []) == Run(0, Apply(r.tree, e).tree);
      assert ApplyAll(r.tree, [e]) == Run(1, Apply(r.tree, e).tree);
      forall p | p in FilesAfter(files, e) && FilesAfter(files, e)[p].Some?
        ensures p in Apply(r.tree, e).tree
      {
        ApplyKeepsPlanned(r.tree, e, files, p);
      }
    }
  }

  // ----- the directories of a plan

  // Ancestors of planned files, and parents of planned directories, are directories of the tree or of the plan.
  predicate Based(t: Tree, s: Plan, p: seq<Bytes>) {
    p == [] || p in s.dirs || IsDir(t, p)
  }

  ghost predicate Grounded(t: Tree, s: Plan) {
    && (forall p, k :: PlannedFile(s, p) && 0 < k < |p| ==> Based(t, s, p[..k]))
    && (forall d :: d in s.dirs ==> Based(t, s, Parent(d)))
  }

  lemma {:induction false} DirectoriesAbove(t: Tree, p: Path, k: nat)
    requires WellFormed(t) && p in t && k < |p|
    ensures IsDir(t, p[..k])
    decreases |p|
  {
    assert IsDir(t, Parent(p));
    if k < |p| - 1 {
      assert p[..k] == Parent(p)[..k];
      DirectoriesAbove(t, Parent(p), k);
    }
  }

  lemma {:induction false} NothingMissingBelow(t: Tree, s: Plan, p: Path, j: nat)
    requires j < |p| && forall i :: 0 < i <= j ==> DirExists(t, s, p[..i]) == Some(true)
    ensures Missing(t, s, p, j) == Some([])
  {
    if j > 0 {
      NothingMissingBelow(t, s, p, j - 1);
      var outer := Missing(t, s, p, j - 1);
      assert outer.value + [] == outer.value;
    }
  }

  // Below ancestors that all exist, the first one missing is the planned file.
  lemma {:induction false} FirstMissing(t: Tree, s: Plan, p: Path, k: nat, j: nat)
    requires 0 < j <= k < |p| && PlannedFile(s, p[..j]) && Missing(t, s, p, k).Some?
    requires forall i :: 0 < i < j ==> DirExists(t, s, p[..i]) == Some(true)
    ensures Missing(t, s, p, k).value != [] && Missing(t, s, p, k).value[0] == p[..j]
  {
    if j == k {
      NothingMissingBelow(t, s, p, j - 1);
    } else {
      FirstMissing(t, s, p, k - 1, j);
    }
  }

  // With no planned file among the ancestors, the missing ones are the innermost ones, one below the other.
  lemma {:induction false} MissingIsAChain(t: Tree, s: Plan, p: Path, k: nat)
    requires WellFormed(t) && Grounded(t, s) && k < |p| && Missing(t, s, p, k).Some?
    requires forall j :: 0 < j < |p| ==> !PlannedFile(s, p[..j])
    ensures var missing := Missing(t, s, p, k).value;
            && |missing| <= k
            && (forall i :: 0 <= i < |missing| ==> missing[i] == p[..k - |missing| + 1 + i])
            && (missing != [] ==> !Based(t, s, p[..k]))
  {
    if k > 0 {
      MissingIsAChain(t, s, p, k - 1);
      var q: Path := p[..k];
      assert Parent(q) == p[..k - 1];
      if Missing(t, s, p, k - 1).value != [] && Based(t, s, q) {
        ParentsAreBased(t, s, q);
      }
    }
  }

  lemma ParentsAreBased(t: Tree, s: Plan, q: Path)
    requires WellFormed(t) && Grounded(t, s) && Based(t, s, q)
    ensures Based(t, s, Parent(q))
  {
  }

  // A chain of directories can be made whole once its first one can.
  lemma {:induction false} ChainIsMade(t: Tree, paths: seq<Path>)
    requires WellFormed(t) && paths != [] && Mkdir(t, paths[0]).ok
    requires forall i :: 0 < i < |paths| ==> |paths[i]| > 1 && Parent(paths[i]) == paths[i - 1]
    ensures MkdirAll(t, paths).ok
    decreases |paths|
  {
    MkdirIsUndone(t, paths[0]);
    if |paths| > 1 {
      assert Parent(paths[1]) == paths[0];
      ChainIsMade(Mkdir(t, paths[0]).tree, paths[1..]);
    }
  }

  // Making the missing directories does it whole or not at all.
  lemma MissingIsAllOrNothing(t: Tree, s: Plan, p: Path, u: Tree)
    requires WellFormed(t) && WellFormed(u) && Grounded(t, s) && Missing(t, s, p, |p| - 1).Some?
    requires forall q :: PlannedFile(s, q) ==> q in u
    ensures var e := CreateDirectories(Missing(t, s, p, |p| - 1).value); Apply(u, e).ok || !StopsHalfWay(u, e)
  {
    hide WellFormed, Missing, Grounded;
    if j :| 0 < j < |p| && PlannedFile(s, p[..j]) {
      FirstIsTaken(t, s, p, j, u);
    } else {
      MissingIsMade(t, s, p, u);
    }
  }

  lemma MissingIsMade(t: Tree, s: Plan, p: Path, u: Tree)
    requires WellFormed(t) && WellFormed(u) && Grounded(t, s) && Missing(t, s, p, |p| - 1).Some?
    requires forall j :: 0 < j < |p| ==> !PlannedFile(s, p[..j])
    ensures var missing := Missing(t, s, p, |p| - 1).value;
            missing != [] && Mkdir(u, missing[0]).ok ==> MkdirAll(u, missing).ok
  {
    hide WellFormed, Missing, Grounded, PlannedFile, Based, Mkdir, MkdirAll;
    MissingIsAChain(t, s, p, |p| - 1);
    var missing := Missing(t, s, p, |p| - 1).value;
    if missing != [] && Mkdir(u, missing[0]).ok {
      forall i | 0 < i < |missing|
        ensures |missing[i]| > 1 && Parent(missing[i]) == missing[i - 1]
      {
        assert missing[i - 1] == p[..|p| - |missing| + i - 1];
        assert missing[i] == p[..|p| - |missing| + i];
      }
      ChainIsMade(u, missing);
    }
  }

  lemma FirstIsTaken(t: Tree, s: Plan, p: Path, j: nat, u: Tree)
    requires Grounded(t, s) && Missing(t, s, p, |p| - 1).Some? && 0 < j < |p| && PlannedFile(s, p[..j])
    requires forall q :: PlannedFile(s, q) ==> q in u
    ensures var missing := Missing(t, s, p, |p| - 1).value; missing != [] && !Mkdir(u, missing[0]).ok
  {
    hide Missing;
    var first := Shallowest(s, p, j);
    forall i | 0 < i < first
      ensures DirExists(t, s, p[..i]) == Some(true)
    {
      assert p[..first][..i] == p[..i];
      assert Based(t, s, p[..i]);
    }
    FirstMissing(t, s, p, |p| - 1, first);
  }

  lemma {:induction false} Shallowest(s: Plan, p: Path, j: nat) returns (first: nat)
    requires 0 < j < |p| && PlannedFile(s, p[..j])
    ensures 0 < first < |p| && PlannedFile(s, p[..first]) && forall i :: 0 < i < first ==> !PlannedFile(s, p[..i])
    decreases j
  {
    if i :| 0 < i < j && PlannedFile(s, p[..i]) {
      first := Shallowest(s, p, i);
    } else {
      first := j;
    }
  }

  // ----- planning keeps all this

  // A plan made on t, carried out on u.
  ghost predicate Safe(t: Tree, s: Plan, u: Tree) {
    Grounded(t, s) && RunOk(u, s.edits, s.files)
  }

  lemma {:induction false} MissingCovers(t: Tree, s: Plan, p: Path, k: nat, j: nat)
    requires 0 < j <= k < |p| && Missing(t, s, p, k).Some?
    ensures p[..j] in Missing(t, s, p, k).value || DirExists(t, s, p[..j]) == Some(true)
  {
    if j < k {
      MissingCovers(t, s, p, k - 1, j);
    }
  }

  lemma ParentsAreGrounded(t: Tree, s: Plan, p: Path)
    requires Grounded(t, s) && EnsureParents(t, s, p).Some?
    ensures var v := EnsureParents(t, s, p).value;
            Grounded(t, v) && v.files == s.files && forall k :: 0 < k < |p| ==> Based(t, v, p[..k])
  {
    hide Missing;
    var v := EnsureParents(t, s, p).value;
    var missing := Missing(t, s, p, |p| - 1).value;
    forall k | 0 < k < |p|
      ensures Based(t, v, p[..k])
    {
      MissingCovers(t, s, p, |p| - 1, k);
    }
    MissingLiesAbove(t, s, p, |p| - 1);
    forall d | d in v.dirs
      ensures Based(t, v, Parent(d))
    {
      if d in s.dirs {
        assert Based(t, s, Parent(d));
      } else {
        assert Above(d, p) && Parent(d) == p[..|d| - 1];
      }
    }
    assert forall q, k :: PlannedFile(v, q) && 0 < k < |q| ==> Based(t, s, q[..k]);
  }

  lemma ParentsAreSafe(t: Tree, s: Plan, p: Path, u: Tree)
    requires WellFormed(t) && WellFormed(u) && Safe(t, s, u) && EnsureParents(t, s, p).Some?
    ensures var v := EnsureParents(t, s, p).value;
            Safe(t, v, u) && v.files == s.files && forall k :: 0 < k < |p| ==> Based(t, v, p[..k])
  {
    hide Grounded, RunOk, StopsHalfWay, WellFormed, Apply;
    ParentsAreGrounded(t, s, p);
    var missing := Missing(t, s, p, |p| - 1).value;
    if missing != [] {
      var r := ApplyAll(u, s.edits);
      if r.applied == |s.edits| {
        RunIs(u, s);
        MissingIsAllOrNothing(t, s, p, r.tree);
      }
      RunGrows(u, s.edits, CreateDirectories(missing), s.files);
    }
  }

  lemma RunIs(u: Tree, s: Plan)
    requires RunOk(u, s.edits, s.files) && ApplyAll(u, s.edits).applied == |s.edits|
    ensures WellFormed(ApplyAll(u, s.edits).tree) && forall q :: PlannedFile(s, q) ==> q in ApplyAll(u, s.edits).tree
  {
  }

  // One action on files more, for a path below directories if it is written.
  lemma EditIsSafe(t: Tree, s: Plan, v: Plan, e: Edit, u: Tree)
    requires WellFormed(u) && Safe(t, s, u) && !e.CreateDirectories?
    requires v.dirs == s.dirs && v.edits == s.edits + [e] && v.files == FilesAfter(s.files, e)
    requires e.CreateFile? || e.ReplaceFile? ==> forall k :: 0 < k < |e.path| ==> Based(t, s, e.path[..k])
    requires e.MoveFile? ==> forall k :: 0 < k < |e.dst| ==> Based(t, s, e.dst[..k])
    ensures Safe(t, v, u)
  {
    hide RunOk, ApplyAll, Apply;
    RunGrows(u, s.edits, e, s.files);
    forall p, k | PlannedFile(v, p) && 0 < k < |p|
      ensures Based(t, v, p[..k])
    {
      assert Based(t, s, p[..k]);
    }
    forall d | d in v.dirs
      ensures Based(t, v, Parent(d))
    {
      assert Based(t, s, Parent(d));
    }
  }

  lemma PresentIsBased(t: Tree, s: Plan, p: Path, k: nat)
    requires WellFormed(t) && Grounded(t, s) && ReadPlanned(t, s, p).Present? && 0 < k < |p|
    ensures Based(t, s, p[..k])
  {
    if !PlannedFile(s, p) {
      DirectoriesAbove(t, p, k);
    }
  }

  lemma MoveIsSafe(t: Tree, s: Plan, op: PatchOp, u: Tree)
    requires WellFormed(t) && WellFormed(u) && Safe(t, s, u) && AddOp(t, s, op).Some? && op.UpdateFile?
             && op.moveTo.Some?
    ensures Safe(t, AddOp(t, s, op).value, u)
  {
    hide Safe, EnsureParents, PatchedContent, WellFormed, Based;
    var src, dst := op.path, op.moveTo.value;
    var v := EnsureParents(t, s, dst).value;
    ParentsAreSafe(t, s, dst, u);
    var expected := ReadPlanned(t, s, src).content;
    var content := PatchedContent(expected, op.hunks).value;
    var end := AddOp(t, s, op).value;
    assert v.edits + [] == v.edits;
    if content == expected {
      EditIsSafe(t, v, end, MoveFile(src, dst, expected), u);
    } else {
      var mid := Update(v, src, None, [DeleteFile(src, expected)]);
      EditIsSafe(t, v, mid, DeleteFile(src, expected), u);
      assert end.edits == mid.edits + [CreateFile(dst, content)];
      BasedDependsOnDirs(t, v, mid, dst);
      EditIsSafe(t, mid, end, CreateFile(dst, content), u);
    }
  }

  lemma BasedDependsOnDirs(t: Tree, s: Plan, v: Plan, p: Path)
    requires v.dirs == s.dirs && forall k :: 0 < k < |p| ==> Based(t, s, p[..k])
    ensures forall k :: 0 < k < |p| ==> Based(t, v, p[..k])
  {
    forall k | 0 < k < |p|
      ensures Based(t, v, p[..k])
    {
      assert Based(t, s, p[..k]);
    }
  }

  lemma StepIsSafe(t: Tree, s: Plan, op: PatchOp, u: Tree)
    requires WellFormed(t) && WellFormed(u) && Safe(t, s, u) && AddOp(t, s, op).Some?
    ensures Safe(t, AddOp(t, s, op).value, u)
  {
    hide EnsureParents, PatchedContent, WellFormed, Based, RunOk, Grounded;
    var v := AddOp(t, s, op).value;
    match op
    case AddFile(path, lines) =>
      ParentsAreSafe(t, s, path, u);
      EditIsSafe(t, EnsureParents(t, s, path).value, v, CreateFile(path, JoinLines(lines)), u);
    case RemoveFile(path) =>
      EditIsSafe(t, s, v, DeleteFile(path, ReadPlanned(t, s, path).content), u);
    case UpdateFile(path, moveTo, hunks) =>
      if moveTo.Some? {
        MoveIsSafe(t, s, op, u);
      } else {
        var expected := ReadPlanned(t, s, path).content;
        forall k | 0 < k < |path|
          ensures Based(t, s, path[..k])
        {
          PresentIsBased(t, s, path, k);
        }
        EditIsSafe(t, s, v, ReplaceFile(path, expected, PatchedContent(expected, hunks).value), u);
      }
  }

  lemma {:induction false} PlanIsSafe(t: Tree, s: Plan, ops: seq<PatchOp>, u: Tree)
    requires WellFormed(t) && WellFormed(u) && Safe(t, s, u) && PlanFrom(t, s, ops).Some?
    ensures Safe(t, PlanFrom(t, s, ops).value, u)
    decreases |ops|
  {
    hide Safe, AddOp, WellFormed;
    if ops != [] {
      StepIsSafe(t, s, ops[0], u);
      PlanIsSafe(t, AddOp(t, s, ops[0]).value, ops[1..], u);
    }
  }

  // Whatever patch was planned on one tree and is carried out on any other, wherever the run ends, undoing what is on
  // record restores the tree it was carried out on.
  lemma PlannedRunIsUndone(t: Tree, ops: seq<PatchOp>, u: Tree)
    requires WellFormed(t) && WellFormed(u) && PlanFrom(t, EMPTY_PLAN, ops).Some?
    ensures var edits := PlanFrom(t, EMPTY_PLAN, ops).value.edits;
            var r := ApplyAll(u, edits);
            r.applied <= |edits| && UndoAll(r.tree, edits[..r.applied]) == Outcome(true, u)
  {
    assert Safe(t, EMPTY_PLAN, u);
    PlanIsSafe(t, EMPTY_PLAN, ops, u);
    hide PlanFrom, WellFormed, Grounded;
    NeverHalfWayIsUndone(u, PlanFrom(t, EMPTY_PLAN, ops).value.edits);
  }

  // ----- the record is read back

  // Paths of a record are normalised again when it is loaded; None where the original rejects one.
  function LoadPath(p: Path): Option<Path> {
    PatchParser.PathOf(JoinPath(p))
  }

  function LoadPaths(paths: seq<Path>): Option<seq<Path>> {
    if paths == [] then Some([])
    else
      var first, rest := LoadPath(paths[0]), LoadPaths(paths[1..]);
      if first.None? || rest.None? then None else Some([first.value] + rest.value)
  }

  function LoadEdit(e: Edit): Option<Edit> {
    match e
    case CreateDirectories(paths) =>
      var loaded := LoadPaths(paths);
      if loaded.None? then None else Some(CreateDirectories(loaded.value))
    case CreateFile(path, content) =>
      var loaded := LoadPath(path);
      if loaded.None? then None else Some(CreateFile(loaded.value, content))
    case DeleteFile(path, expected) =>
      var loaded := LoadPath(path);
      if loaded.None? then None else Some(DeleteFile(loaded.value, expected))
    case ReplaceFile(path, expected, content) =>
      var loaded := LoadPath(path);
      if loaded.None? then None else Some(ReplaceFile(loaded.value, expected, content))
    case MoveFile(src, dst, expected) =>
      var from, to := LoadPath(src), LoadPath(dst);
      if from.None? || to.None? then None else Some(MoveFile(from.value, to.value, expected))
  }

  function LoadAll(edits: seq<Edit>): Option<seq<Edit>> {
    if edits == [] then Some([])
    else
      var first, rest := LoadEdit(edits[0]), LoadAll(edits[1..]);
      if first.None? || rest.None? then None else Some([first.value] + rest.value)
  }

  // What a parsed path consists of.
  ghost predicate Clean(p: seq<Bytes>) {
    forall i :: 0 <= i < |p| ==> GoodPart(p[i]) && TamePart(p[i])
  }

  lemma ParsedPathIsClean(b: Bytes)
    requires PatchParser.PathOf(b).Some?
    ensures Clean(PatchParser.PathOf(b).value)
  {
    hide SafePath, Components, GoodPart, TamePart, Tame;
    ResultIsNormal(b);
    var p := SafePath(b).value;
    forall i | 0 <= i < |Components(p)|
      ensures TamePart(Components(p)[i])
    {
      TameComponents(p, i);
    }
  }

  lemma CleanPathLoads(p: Path)
    requires Clean(p)
    ensures LoadPath(p) == Some(p)
  {
    hide Components, GoodPart, Tame, JoinPath, SafePath;
    TameJoin(p);
    ComponentsAfterJoin(p);
    NormalIsFixed(JoinPath(p));
  }

  ghost predicate CleanOp(op: PatchOp) {
    Clean(op.path) && (op.UpdateFile? && op.moveTo.Some? ==> Clean(op.moveTo.value))
  }

  ghost predicate CleanEdit(e: Edit) {
    match e
    case CreateDirectories(paths) => forall i :: 0 <= i < |paths| ==> Clean(paths[i])
    case MoveFile(src, dst, _) => Clean(src) && Clean(dst)
    case _ => Clean(e.path)
  }

  lemma {:induction false} CleanPathsLoad(paths: seq<Path>)
    requires forall i :: 0 <= i < |paths| ==> Clean(paths[i])
    ensures LoadPaths(paths) == Some(paths)
  {
    hide LoadPath, Clean;
    if paths != [] {
      CleanPathLoads(paths[0]);
      CleanPathsLoad(paths[1..]);
      assert [paths[0]] + paths[1..] == paths;
    }
  }

  lemma CleanEditLoads(e: Edit)
    requires CleanEdit(e)
    ensures LoadEdit(e) == Some(e)
  {
    hide LoadPath, LoadPaths, Clean;
    match e
    case CreateDirectories(paths) => CleanPathsLoad(paths);
    case MoveFile(src, dst, _) => CleanPathLoads(src); CleanPathLoads(dst);
    case _ => CleanPathLoads(e.path);
  }

  lemma {:induction false} CleanEditsLoad(edits: seq<Edit>)
    requires forall i :: 0 <= i < |edits| ==> CleanEdit(edits[i])
    ensures LoadAll(edits) == Some(edits)
  {
    hide LoadEdit, CleanEdit;
    if edits != [] {
      CleanEditLoads(edits[0]);
      CleanEditsLoad(edits[1..]);
      assert [edits[0]] + edits[1..] == edits;
    }
  }

  lemma LoadedPathIsClean(p: Path)
    requires LoadPath(p).Some?
    ensures Clean(LoadPath(p).value)
  {
    ParsedPathIsClean(JoinPath(p));
  }

  lemma {:induction false} LoadedPathsAreClean(paths: seq<Path>)
    requires LoadPaths(paths).Some?
    ensures forall i :: 0 <= i < |LoadPaths(paths).value| ==> Clean(LoadPaths(paths).value[i])
  {
    hide LoadPath, Clean;
    if paths != [] {
      LoadedPathIsClean(paths[0]);
      LoadedPathsAreClean(paths[1..]);
    }
  }

  lemma LoadedEditIsClean(e: Edit)
    requires LoadEdit(e).Some?
    ensures CleanEdit(LoadEdit(e).value)
  {
    hide LoadPath, LoadPaths, Clean;
    match e
    case CreateDirectories(paths) => LoadedPathsAreClean(paths);
    case MoveFile(src, dst, _) => LoadedPathIsClean(src); LoadedPathIsClean(dst);
    case _ => LoadedPathIsClean(e.path);
  }

  // Whatever a record holds, only actions on safe paths are loaded from it; and they are loaded as they were written
  // exactly when all its paths are safe and normal.
  lemma {:induction false} LoadedExactly(edits: seq<Edit>)
    ensures LoadAll(edits).Some? ==>
              |LoadAll(edits).value| == |edits| && forall i :: 0 <= i < |edits| ==> CleanEdit(LoadAll(edits).value[i])
    ensures LoadAll(edits) == Some(edits) <==> forall i :: 0 <= i < |edits| ==> CleanEdit(edits[i])
    decreases |edits|
  {
    hide LoadEdit, CleanEdit;
    if edits != [] {
      LoadedExactly(edits[1..]);
      if LoadEdit(edits[0]).Some? {
        LoadedEditIsClean(edits[0]);
      }
    }
    if forall i :: 0 <= i < |edits| ==> CleanEdit(edits[i]) {
      CleanEditsLoad(edits);
    }
  }

  // Planning clean operations asks for clean directories: they are prefixes of the operations' paths.
  lemma PlannedEditsAreClean(t: Tree, s: Plan, op: PatchOp)
    requires CleanOp(op) && AddOp(t, s, op).Some? && forall i :: 0 <= i < |s.edits| ==> CleanEdit(s.edits[i])
    ensures var v := AddOp(t, s, op).value; forall i :: 0 <= i < |v.edits| ==> CleanEdit(v.edits[i])
  {
    hide Missing, PatchedContent, Clean;
    if op.AddFile? {
      ParentsAreClean(t, s, op.path);
    } else if op.UpdateFile? && op.moveTo.Some? {
      ParentsAreClean(t, s, op.moveTo.value);
    }
  }

  lemma ParentsAreClean(t: Tree, s: Plan, p: Path)
    requires Clean(p) && EnsureParents(t, s, p).Some? && forall i :: 0 <= i < |s.edits| ==> CleanEdit(s.edits[i])
    ensures var v := EnsureParents(t, s, p).value; forall i :: 0 <= i < |v.edits| ==> CleanEdit(v.edits[i])
  {
    MissingLiesAbove(t, s, p, |p| - 1);
    hide Missing, GoodPart, TamePart;
    var missing := Missing(t, s, p, |p| - 1).value;
    forall i | 0 <= i < |missing|
      ensures Clean(missing[i])
    {
      assert missing[i] in missing && Above(missing[i], p);
    }
  }

  lemma {:induction false} PlanIsClean(t: Tree, s: Plan, ops: seq<PatchOp>)
    requires PlanFrom(t, s, ops).Some? && forall i :: 0 <= i < |ops| ==> CleanOp(ops[i])
    requires forall i :: 0 <= i < |s.edits| ==> CleanEdit(s.edits[i])
    ensures var edits := PlanFrom(t, s, ops).value.edits; forall i :: 0 <= i < |edits| ==> CleanEdit(edits[i])
    decreases |ops|
  {
    hide AddOp, CleanOp, CleanEdit;
    if ops != [] {
      PlannedEditsAreClean(t, s, ops[0]);
      PlanIsClean(t, AddOp(t, s, ops[0]).value, ops[1..]);
    }
  }

  // ----- the parser only yields such operations

  ghost predicate CleanState(s: PatchParser.State) {
    && (forall i :: 0 <= i < |s.ops| ==> CleanOp(s.ops[i]))
    && (s.mode.Adding? || s.mode.Updating? || s.mode.InHunk? ==> Clean(s.mode.path))
    && (s.mode.Updating? || s.mode.InHunk? ==> s.mode.moveTo.Some? ==> Clean(s.mode.moveTo.value))
  }

  lemma MarkedPathIsClean(marker: Bytes, prefix: Bytes)
    ensures PatchParser.StartsWith(marker, prefix) ==>
              var p := PatchParser.PathOf(marker[|prefix|..]); p.Some? ==> Clean(p.value)
  {
    hide PatchParser.PathOf, Clean;
    if PatchParser.StartsWith(marker, prefix) && PatchParser.PathOf(marker[|prefix|..]).Some? {
      ParsedPathIsClean(marker[|prefix|..]);
    }
  }

  lemma TopLineIsClean(ops: seq<PatchOp>, marker: Bytes)
    requires forall i :: 0 <= i < |ops| ==> CleanOp(ops[i])
    ensures PatchParser.TopLine(ops, marker).Some? ==> CleanState(PatchParser.TopLine(ops, marker).value)
  {
    hide PatchParser.PathOf, Clean, PatchParser.StartsWith;
    MarkedPathIsClean(marker, PatchParser.ADD_FILE);
    MarkedPathIsClean(marker, PatchParser.DELETE_FILE);
    MarkedPathIsClean(marker, PatchParser.UPDATE_FILE);
  }

  lemma StepIsClean(s: PatchParser.State, line: Bytes)
    requires CleanState(s) && PatchParser.Step(s, line).Some?
    ensures CleanState(PatchParser.Step(s, line).value)
  {
    hide PatchParser.PathOf, Clean, PatchParser.TopLine, PatchParser.StripEol;
    var marker := PatchParser.StripEol(line);
    match s.mode
    case Before =>
    case Top => TopLineIsClean(s.ops, marker);
    case Adding(path, lines) => TopLineIsClean(s.ops + [AddFile(path, lines)], marker);
    case Updating(path, moveTo, hunks, _) =>
      TopLineIsClean(s.ops + [UpdateFile(path, moveTo, hunks)], marker);
      MarkedPathIsClean(marker, PatchParser.MOVE_TO);
    case InHunk(path, moveTo, hunks, hunk) =>
      TopLineIsClean(s.ops + [UpdateFile(path, moveTo, hunks + [hunk])], marker);
    case After =>
  }

  lemma {:induction false} ParsedOpsAreClean(s: PatchParser.State, lines: Lines)
    requires CleanState(s) && PatchParser.Parse(s, lines).Some?
    ensures var ops := PatchParser.Parse(s, lines).value; forall i :: 0 <= i < |ops| ==> CleanOp(ops[i])
    decreases |lines|
  {
    hide PatchParser.Step, CleanOp;
    if lines != [] {
      StepIsClean(s, lines[0]);
      ParsedOpsAreClean(PatchParser.Step(s, lines[0]).value, lines[1..]);
    }
  }

  // From the lines of a patch to its rollback: the record of a parsed and planned patch loads as it was written, and
  // taking it back restores the tree the patch was carried out on, wherever it stopped.
  lemma PatchIsTakenBack(lines: Lines, t: Tree, u: Tree)
    requires WellFormed(t) && WellFormed(u) && PatchParser.ParseLines(lines).Some?
    requires PlanFrom(t, EMPTY_PLAN, PatchParser.ParseLines(lines).value).Some?
    ensures var edits := PlanFrom(t, EMPTY_PLAN, PatchParser.ParseLines(lines).value).value.edits;
            var r := ApplyAll(u, edits);
            && LoadAll(edits) == Some(edits)
            && r.applied <= |edits| && UndoAll(r.tree, edits[..r.applied]) == Outcome(true, u)
  {
    hide WellFormed, CleanOp, CleanEdit, ApplyAll, UndoAll, LoadAll;
    var ops := PatchParser.ParseLines(lines).value;
    ParsedOpsAreClean(PatchParser.State(PatchParser.Before, []), lines);
    PlanIsClean(t, EMPTY_PLAN, ops);
    CleanEditsLoad(PlanFrom(t, EMPTY_PLAN, ops).value.edits);
    PlannedRunIsUndone(t, ops, u);
  }
}
