// The objects behind the patch tool: a planner that only reads the tree, and the tree that actions change.
module Patching {
  import opened Common
  import opened ByteStrings
  import opened Hunks
  import opened Trees
  import opened Planning
  import opened Rollbacks
  import PatchParser

  class Planner {
    const root: Tree
    var files: map<Path, Option<Bytes>>
    var createdDirs: set<Path>
    var actions: seq<Edit>

    function State(): Plan
      reads this
    {
      Plan(files, createdDirs, actions)
    }

    constructor (root: Tree)
      ensures this.root == root && State() == EMPTY_PLAN
    {
      this.root := root;
      files, createdDirs, actions := map[], {}, [];
    }

    // Makes a CreateDirectories action for the ancestors that neither the tree nor the plan has.
    method EnsureParentDirs(path: Path) returns (ok: bool)
      modifies this`createdDirs, this`actions
      ensures ok <==> EnsureParents(root, old(State()), path).Some?
      ensures ok ==> State() == EnsureParents(root, old(State()), path).value
    {
      hide DirExists, Elements, Missing;
      ghost var s := State();
      NothingMissing(root, s, path);
      var missing: seq<Path> := [];
      var i := 1;
      while i < |path|
        invariant 1 <= i <= |path|
        invariant Missing(root, s, path, i - 1) == Some(missing)
        invariant createdDirs == s.dirs + Elements(missing) && actions == s.edits
        invariant forall q :: q in missing ==> |q| < i
      {
        var current: Path := path[..i];
        var found := DirExists(root, State(), current);
        MissingStep(root, s, path, i, missing, State());
        if found.None? {
          MissingFails(root, s, path, i, |path| - 1);
          return false;
        }
        if !found.value {
          missing := missing + [current];
          createdDirs := createdDirs + {current};
        }
        i := i + 1;
      }
      if missing != [] {
        actions := actions + [CreateDirectories(missing)];
      }
      return true;
    }

    method PlanAdd(path: Path, lines: Lines) returns (ok: bool)
      modifies this
      ensures ok <==> AddOp(root, old(State()), AddFile(path, lines)).Some?
      ensures ok ==> State() == AddOp(root, old(State()), AddFile(path, lines)).value
    {
      hide Missing, JoinLines;
      if ReadPlanned(root, State(), path) != Absent {
        return false;
      }
      var content := JoinLines(lines);
      ok := EnsureParentDirs(path);
      if ok {
        actions := actions + [CreateFile(path, content)];
        files := files[path := Some(content)];
      }
    }

    method PlanUpdate(path: Path, moveTo: Option<Path>, hunks: seq<Hunk>) returns (ok: bool)
      modifies this
      ensures ok <==> AddOp(root, old(State()), UpdateFile(path, moveTo, hunks)).Some?
      ensures ok ==> State() == AddOp(root, old(State()), UpdateFile(path, moveTo, hunks)).value
    {
      hide Missing, PatchedContent;
      ghost var s := State();
      var expected := ReadPlanned(root, State(), path);
      if !expected.Present? {
        return false;
      }
      var content := ApplyHunks(expected.content, hunks);
      if content.None? {
        return false;
      }
      if moveTo.None? {
        actions := actions + [ReplaceFile(path, expected.content, content.value)];
        files := files[path := content];
        return true;
      }
      var dst := moveTo.value;
      if ReadPlanned(root, State(), dst) != Absent {
        return false;
      }
      ok := EnsureParentDirs(dst);
      if ok {
        assert actions + [] == actions;
        if content.value == expected.content {
          actions := actions + [MoveFile(path, dst, expected.content)];
        } else {
          assert actions + [DeleteFile(path, expected.content), CreateFile(dst, content.value)] ==
                 actions + [DeleteFile(path, expected.content)] + [CreateFile(dst, content.value)];
          actions := actions + [DeleteFile(path, expected.content)];
          actions := actions + [CreateFile(dst, content.value)];
        }
        files := files[path := None];
        files := files[dst := content];
      }
    }

    method PlanOp(op: PatchOp) returns (ok: bool)
      modifies this
      ensures ok <==> AddOp(root, old(State()), op).Some?
      ensures ok ==> State() == AddOp(root, old(State()), op).value
    {
      hide EnsureParents, PatchedContent;
      match op
      case AddFile(path, lines) =>
        ok := PlanAdd(path, lines);
      case RemoveFile(path) =>
        var expected := ReadPlanned(root, State(), path);
        if !expected.Present? {
          return false;
        }
        actions := actions + [DeleteFile(path, expected.content)];
        files := files[path := None];
        return true;
      case UpdateFile(path, moveTo, hunks) =>
        ok := PlanUpdate(path, moveTo, hunks);
    }
  }

  lemma NothingMissing(t: Tree, s: Plan, p: Path)
    ensures Missing(t, s, p, 0) == Some([]) && s.dirs + Elements([]) == s.dirs
  {
  }

  // One turn of the loop: the directories just added are other ancestors, and do not change what is found.
  lemma MissingStep(t: Tree, s: Plan, p: Path, i: nat, missing: seq<Path>, now: Plan)
    requires 0 < i < |p| && Missing(t, s, p, i - 1) == Some(missing) && forall q :: q in missing ==> |q| < i
    requires now.files == s.files && now.dirs == s.dirs + Elements(missing)
    ensures DirExists(t, now, p[..i]) == DirExists(t, s, p[..i])
    ensures DirExists(t, s, p[..i]) == Some(true) ==> Missing(t, s, p, i) == Some(missing)
    ensures DirExists(t, s, p[..i]) == Some(false) ==> Missing(t, s, p, i) == Some(missing + [p[..i]])
    ensures s.dirs + Elements(missing + [p[..i]]) == now.dirs + {p[..i]}
  {
    assert p[..i] !in missing;
    assert missing + [] == missing;
  }

  lemma {:induction false} MissingFails(t: Tree, s: Plan, p: Path, k: nat, n: nat)
    requires 0 < k <= n < |p| && DirExists(t, s, p[..k]).None?
    ensures Missing(t, s, p, n).None?
  {
    if k < n {
      MissingFails(t, s, p, k, n - 1);
    }
  }

  method PlanActions(root: Tree, ops: seq<PatchOp>) returns (r: Option<seq<Edit>>)
    ensures r.Some? <==> PlanFrom(root, EMPTY_PLAN, ops).Some?
    ensures r.Some? ==> r.value == PlanFrom(root, EMPTY_PLAN, ops).value.edits
  {
    hide AddOp;
    var planner := new Planner(root);
    var i := 0;
    assert ops[0..] == ops;
    while i < |ops|
      invariant i <= |ops|
      invariant PlanFrom(root, planner.State(), ops[i..]) == PlanFrom(root, EMPTY_PLAN, ops)
    {
      assert ops[i..][1..] == ops[i + 1..];
      var ok := planner.PlanOp(ops[i]);
      if !ok {
        return None;
      }
      i := i + 1;
    }
    return Some(planner.actions);
  }

  const VERSION: int := 1

  // What the rollback file holds between two steps.
  datatype RollbackRecord = RollbackRecord(version: int, actions: seq<Edit>, appliedCount: int)

  // A record is refused, and nothing is touched, unless its version is known, its paths are safe and its count fits.
  predicate Usable(record: RollbackRecord) {
    record.version == VERSION && LoadAll(record.actions).Some? && 0 <= record.appliedCount <= |record.actions|
  }

  lemma {:induction false} LoadedIsAsLong(edits: seq<Edit>)
    ensures LoadAll(edits).Some? ==> |LoadAll(edits).value| == |edits|
  {
    if edits != [] {
      LoadedIsAsLong(edits[1..]);
    }
  }

  // What rolling back makes of a tree.
  function Restored(t: Tree, record: RollbackRecord): Outcome {
    LoadedIsAsLong(record.actions);
    if !Usable(record) then Outcome(false, t)
    else UndoAll(t, LoadAll(record.actions).value[..record.appliedCount])
  }

  // A rollback that stops has taken back the last actions, the record says how many are left, and the next of them is
  // the one that failed.
  predicate Stopped(t: Tree, actions: seq<Edit>, record: RollbackRecord, ok: bool, left: RollbackRecord, t': Tree) {
    && 0 <= left.appliedCount <= record.appliedCount <= |actions|
    && left == record.(appliedCount := left.appliedCount)
    && var k := left.appliedCount;
       var taken := UndoAll(t, actions[k..record.appliedCount]);
       && taken.ok
       && if ok then k == 0 && t' == taken.tree else k > 0 && Undo(taken.tree, actions[k - 1]) == Outcome(false, t')
  }

  // A tree is restored from a record exactly when the record has the right version, loads, counts no more actions than
  // it has, and those actions lead to the tree from some other; which is then the one restored.
  lemma {:induction false} RestoredExactly(t: Tree, record: RollbackRecord)
    requires WellFormed(t)
    ensures var loaded := LoadAll(record.actions);
            Restored(t, record).ok <==>
            && record.version == 1 && loaded.Some? && 0 <= record.appliedCount <= |loaded.value|
            && exists u: Tree :: WellFormed(u) &&
                 ApplyAll(u, loaded.value[..record.appliedCount]) == Run(record.appliedCount, t)
    ensures Restored(t, record).ok ==>
              WellFormed(Restored(t, record).tree) &&
              ApplyAll(Restored(t, record).tree, LoadAll(record.actions).value[..record.appliedCount])
              == Run(record.appliedCount, t)
  {
    hide LoadAll, UndoAll, ApplyAll, WellFormed;
    LoadedIsAsLong(record.actions);
    if Usable(record) {
      var done := LoadAll(record.actions).value[..record.appliedCount];
      TakenBackExactly(t, done);
      if UndoAll(t, done).ok {
        RedoAllInvertsUndoAll(t, done);
      }
    }
  }

  class Workspace {
    var tree: Tree

    constructor (tree: Tree)
      ensures this.tree == tree
    {
      this.tree := tree;
    }

    method MakeDirectories(paths: seq<Path>) returns (ok: bool)
      modifies this
      ensures Outcome(ok, tree) == MkdirAll(old(tree), paths)
    {
      hide Mkdir;
      var i := 0;
      assert paths[0..] == paths;
      while i < |paths|
        invariant i <= |paths| && MkdirAll(tree, paths[i..]) == MkdirAll(old(tree), paths)
      {
        assert paths[i..][1..] == paths[i + 1..];
        var made := Mkdir(tree, paths[i]);
        if !made.ok {
          MkdirLeavesTree(tree, paths[i]);
          return false;
        }
        tree := made.tree;
        i := i + 1;
      }
      return true;
    }

    method RemoveDirectories(paths: seq<Path>) returns (ok: bool)
      modifies this
      ensures Outcome(ok, tree) == RmdirAll(old(tree), paths)
    {
      hide Rmdir;
      var i := |paths|;
      assert paths[..i] == paths;
      while i > 0
        invariant 0 <= i <= |paths| && RmdirAll(tree, paths[..i]) == RmdirAll(old(tree), paths)
      {
        assert paths[..i][..i - 1] == paths[..i - 1];
        var removed := Rmdir(tree, paths[i - 1]);
        if !removed.ok {
          MkdirLeavesTree(tree, paths[i - 1]);
          return false;
        }
        tree := removed.tree;
        i := i - 1;
      }
      return true;
    }

    method ApplyOne(e: Edit) returns (ok: bool)
      modifies this
      ensures Outcome(ok, tree) == Apply(old(tree), e)
    {
      hide MkdirAll;
      if e.CreateDirectories? {
        ok := MakeDirectories(e.paths);
      } else {
        var done := Apply(tree, e);
        ok, tree := done.ok, done.tree;
      }
    }

    method UndoOne(e: Edit) returns (ok: bool)
      modifies this
      ensures Outcome(ok, tree) == Undo(old(tree), e)
    {
      hide RmdirAll;
      if e.CreateDirectories? {
        ok := RemoveDirectories(e.paths);
      } else {
        var done := Undo(tree, e);
        ok, tree := done.ok, done.tree;
      }
    }

    // The record is kept up to date after every action, so it is right wherever the run stops.
    method ApplyActions(actions: seq<Edit>) returns (record: RollbackRecord)
      requires WellFormed(tree)
      modifies this
      ensures record == RollbackRecord(VERSION, actions, ApplyAll(old(tree), actions).applied)
      ensures tree == ApplyAll(old(tree), actions).tree && record.appliedCount <= |actions|
    {
      hide Apply, WellFormed;
      record := RollbackRecord(VERSION, actions, 0);
      var i := 0;
      ghost var t := tree;
      assert actions[0..] == actions;
      while i < |actions|
        invariant i <= |actions| && record == RollbackRecord(VERSION, actions, i)
        invariant ApplyAll(t, actions)
                  == Run(i + ApplyAll(tree, actions[i..]).applied, ApplyAll(tree, actions[i..]).tree)
      {
        assert actions[i..][1..] == actions[i + 1..];
        var ok := ApplyOne(actions[i]);
        if !ok {
          return;
        }
        i := i + 1;
        record := record.(appliedCount := i);
      }
    }

    // Takes back what is on record, last action first; the record shrinks with it.
    method Rollback(record: RollbackRecord) returns (ok: bool, left: RollbackRecord)
      modifies this
      ensures Outcome(ok, tree) == Restored(old(tree), record)
      ensures ok ==> left == record.(appliedCount := 0)
      ensures !Usable(record) ==> left == record
      ensures Usable(record) ==> Stopped(old(tree), LoadAll(record.actions).value, record, ok, left, tree)
    {
      hide Undo, LoadEdit;
      LoadedIsAsLong(record.actions);
      left := record;
      var actions := LoadAll(record.actions);
      if record.version != VERSION || actions.None? || !(0 <= record.appliedCount <= |actions.value|) {
        return false, left;
      }
      ok := true;
      ghost var done := actions.value[..record.appliedCount];
      assert done[..|done|] == done && done[|done|..] == [];
      while left.appliedCount > 0
        invariant left == record.(appliedCount := left.appliedCount) && 0 <= left.appliedCount <= |done| && ok
        invariant UndoAll(tree, done[..left.appliedCount]) == UndoAll(old(tree), done)
        invariant UndoAll(old(tree), done[left.appliedCount..]) == Outcome(true, tree)
        decreases left.appliedCount
      {
        var k := left.appliedCount;
        assert done[..k][..k - 1] == done[..k - 1];
        assert done[k - 1..][1..] == done[k..];
        UndoAllEndsWithFirst(old(tree), done[k - 1..]);
        ok := UndoOne(actions.value[k - 1]);
        if !ok {
          return;
        }
        left := left.(appliedCount := k - 1);
      }
    }
  }

  // The record that ApplyActions leaves for a parsed and planned patch always rolls back, wherever the run stopped and
  // whatever tree it ran on.
  lemma RecordRestores(lines: Lines, planned: Tree, t: Tree)
    requires WellFormed(planned) && WellFormed(t) && PatchParser.ParseLines(lines).Some?
    requires PlanFrom(planned, EMPTY_PLAN, PatchParser.ParseLines(lines).value).Some?
    ensures var actions := PlanFrom(planned, EMPTY_PLAN, PatchParser.ParseLines(lines).value).value.edits;
            var r := ApplyAll(t, actions);
            Restored(r.tree, RollbackRecord(VERSION, actions, r.applied)) == Outcome(true, t)
  {
    hide LoadAll, UndoAll, ApplyAll, WellFormed, PlanFrom;
    PatchIsTakenBack(lines, planned, t);
  }

  lemma MkdirLeavesTree(t: Tree, p: Path)
    ensures !Mkdir(t, p).ok ==> Mkdir(t, p).tree == t
    ensures !Rmdir(t, p).ok ==> Rmdir(t, p).tree == t
  {
  }
}
