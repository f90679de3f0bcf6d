// The file tree a patch works on, and the five actions that change it and take the change back.
module Trees {
  import opened ByteStrings

  // Components below the root directory.
  type Path = p: seq<Bytes> | |p| > 0 witness [[0x61]]
  datatype Node = File(content: Bytes) | Directory
  type Tree = map<Path, Node>

  // ok is false where the original raises; the tree is what is left behind either way.
  datatype Outcome = Outcome(ok: bool, tree: Tree)

  datatype Edit =
    | CreateDirectories(paths: seq<Path>)
    | CreateFile(path: Path, content: Bytes)
    | DeleteFile(path: Path, expected: Bytes)
    | ReplaceFile(path: Path, expected: Bytes, content: Bytes)
    | MoveFile(src: Path, dst: Path, expected: Bytes)

  function Parent(p: Path): seq<Bytes> {
    p[..|p| - 1]
  }

  predicate IsFile(t: Tree, p: Path) {
    p in t && t[p].File?
  }

  predicate IsDir(t: Tree, p: seq<Bytes>) {
    p == [] || (p in t && t[p].Directory?)
  }

  // Everything lies in a directory.
  predicate WellFormed(t: Tree) {
    forall p :: p in t ==> IsDir(t, Parent(p))
  }

  predicate Holds(t: Tree, p: Path, content: Bytes) {
    p in t && t[p] == File(content)
  }

  predicate IsEmptyDir(t: Tree, p: Path) {
    p in t && t[p].Directory? && forall q :: q in t ==> Parent(q) != p
  }

  // ----- what the operating system does

  function Write(t: Tree, p: Path, content: Bytes): Outcome {
    if IsDir(t, Parent(p)) && !IsDir(t, p) then Outcome(true, t[p := File(content)]) else Outcome(false, t)
  }

  function Unlink(t: Tree, p: Path): Tree {
    t - {p}
  }

  function Rename(t: Tree, src: Path, dst: Path): Outcome
    requires IsFile(t, src)
  {
    if IsDir(t, Parent(dst)) && !IsDir(t, dst) then Outcome(true, (t - {src})[dst := t[src]]) else Outcome(false, t)
  }

  function Mkdir(t: Tree, p: Path): Outcome {
    if p !in t && IsDir(t, Parent(p)) then Outcome(true, t[p := Directory]) else Outcome(false, t)
  }

  function Rmdir(t: Tree, p: Path): Outcome {
    if IsEmptyDir(t, p) then Outcome(true, t - {p}) else Outcome(false, t)
  }

  // Stops at the first directory that cannot be made, and leaves the earlier ones.
  function MkdirAll(t: Tree, paths: seq<Path>): Outcome
    decreases |paths|
  {
    if paths == [] then Outcome(true, t)
    else
      var first := Mkdir(t, paths[0]);
      if first.ok then MkdirAll(first.tree, paths[1..]) else first
  }

  // Last path first.
  function RmdirAll(t: Tree, paths: seq<Path>): Outcome
    decreases |paths|
  {
    if paths == [] then Outcome(true, t)
    else
      var last := Rmdir(t, paths[|paths| - 1]);
      if last.ok then RmdirAll(last.tree, paths[..|paths| - 1]) else last
  }

  // ----- the actions

  function Apply(t: Tree, e: Edit): Outcome {
    match e
    case CreateDirectories(paths) => MkdirAll(t, paths)
    case CreateFile(path, content) =>
      if path in t then Outcome(false, t) else Write(t, path, content)
    case DeleteFile(path, expected) =>
      if Holds(t, path, expected) then Outcome(true, Unlink(t, path)) else Outcome(false, t)
    case ReplaceFile(path, expected, content) =>
      if Holds(t, path, expected) then Write(t, path, content) else Outcome(false, t)
    case MoveFile(src, dst, expected) =>
      if Holds(t, src, expected) && dst !in t then Rename(t, src, dst) else Outcome(false, t)
  }

  function Undo(t: Tree, e: Edit): Outcome {
    match e
    case CreateDirectories(paths) => RmdirAll(t, paths)
    case CreateFile(path, content) =>
      if Holds(t, path, content) then Outcome(true, Unlink(t, path)) else Outcome(false, t)
    case DeleteFile(path, expected) =>
      if path in t then Outcome(false, t) else Write(t, path, expected)
    case ReplaceFile(path, expected, content) =>
      if Holds(t, path, content) then Write(t, path, expected) else Outcome(false, t)
    case MoveFile(src, dst, expected) =>
      if Holds(t, dst, expected) && src !in t then Rename(t, dst, src) else Outcome(false, t)
  }

  // The rollback record of a run: how many actions are on record as done.
  datatype Run = Run(applied: nat, tree: Tree)

  // Stops at the first action that fails; what that action left behind is not on record.
  function ApplyAll(t: Tree, edits: seq<Edit>): Run
    decreases |edits|
  {
    if edits == [] then Run(0, t)
    else
      var first := Apply(t, edits[0]);
      if first.ok then
        var rest := ApplyAll(first.tree, edits[1..]);
        Run(rest.applied + 1, rest.tree)
      else Run(0, first.tree)
  }

  // Last action first.
  function UndoAll(t: Tree, edits: seq<Edit>): Outcome
    decreases |edits|
  {
    if edits == [] then Outcome(true, t)
    else
      var last := Undo(t, edits[|edits| - 1]);
      if last.ok then UndoAll(last.tree, edits[..|edits| - 1]) else last
  }

  // ----- one action is undone exactly

  lemma MkdirIsUndone(t: Tree, p: Path)
    requires WellFormed(t) && Mkdir(t, p).ok
    ensures WellFormed(Mkdir(t, p).tree) && Rmdir(Mkdir(t, p).tree, p) == Outcome(true, t)
  {
    var u := Mkdir(t, p).tree;
    forall q | q in u
      ensures IsDir(u, Parent(q)) && Parent(q) != p
    {
      if q in t {
        assert IsDir(t, Parent(q));
      }
    }
    assert u - {p} == t;
  }

  lemma {:induction false} MkdirAllIsUndone(t: Tree, paths: seq<Path>)
    requires WellFormed(t) && MkdirAll(t, paths).ok
    ensures WellFormed(MkdirAll(t, paths).tree) && RmdirAll(MkdirAll(t, paths).tree, paths) == Outcome(true, t)
    decreases |paths|
  {
    hide WellFormed, Mkdir, Rmdir;
    if paths != [] {
      MkdirIsUndone(t, paths[0]);
      MkdirAllIsUndone(Mkdir(t, paths[0]).tree, paths[1..]);
      RmdirAllEndsWithFirst(MkdirAll(t, paths).tree, paths);
    }
  }

  lemma {:induction false} RmdirAllEndsWithFirst(t: Tree, paths: seq<Path>)
    requires paths != []
    ensures var rest := RmdirAll(t, paths[1..]);
            RmdirAll(t, paths) == if rest.ok then Rmdir(rest.tree, paths[0]) else rest
    decreases |paths|
  {
    if |paths| > 1 {
      var last := Rmdir(t, paths[|paths| - 1]);
      assert paths[1..][..|paths| - 2] == paths[..|paths| - 1][1..];
      if last.ok {
        RmdirAllEndsWithFirst(last.tree, paths[..|paths| - 1]);
      }
    }
  }

  lemma FileActionKeepsWellFormed(t: Tree, e: Edit)
    requires WellFormed(t) && !e.CreateDirectories? && Apply(t, e).ok
    ensures WellFormed(Apply(t, e).tree)
  {
    var u := Apply(t, e).tree;
    forall p | p in u
      ensures IsDir(u, Parent(p))
    {
      if p in t {
        assert IsDir(t, Parent(p));
      }
    }
  }

  lemma MoveIsUndone(t: Tree, src: Path, dst: Path)
    requires IsFile(t, src) && dst !in t && IsDir(t, Parent(src)) && Rename(t, src, dst).ok
    ensures Rename(Rename(t, src, dst).tree, dst, src) == Outcome(true, t)
  {
    var node := t[src];
    var u := (t - {src})[dst := node];
    assert Parent(src) != src && Parent(src) != dst;
    assert IsDir(u, Parent(src));
    assert u - {dst} == t - {src};
    assert (t - {src})[src := node] == t;
  }

  lemma UndoInvertsFileAction(t: Tree, e: Edit)
    requires WellFormed(t) && !e.CreateDirectories? && Apply(t, e).ok
    ensures Undo(Apply(t, e).tree, e) == Outcome(true, t)
  {
    var u := Apply(t, e).tree;
    match e
    case CreateFile(path, content) =>
      assert Unlink(u, path) == t;
    case DeleteFile(path, expected) =>
      assert IsDir(t, Parent(path));
      assert u[path := File(expected)] == t;
    case ReplaceFile(path, expected, content) =>
      assert IsDir(t, Parent(path));
      assert u[path := File(expected)] == t;
    case MoveFile(src, dst, expected) =>
      assert IsDir(t, Parent(src));
      MoveIsUndone(t, src, dst);
  }

  lemma UndoInvertsApply(t: Tree, e: Edit)
    requires WellFormed(t) && Apply(t, e).ok
    ensures WellFormed(Apply(t, e).tree) && Undo(Apply(t, e).tree, e) == Outcome(true, t)
  {
    hide WellFormed, MkdirAll, RmdirAll;
    if e.CreateDirectories? {
      MkdirAllIsUndone(t, e.paths);
    } else {
      FileActionKeepsWellFormed(t, e);
      UndoInvertsFileAction(t, e);
    }
  }

  // ----- a whole run is undone exactly

  lemma {:induction false} UndoAllEndsWithFirst(t: Tree, edits: seq<Edit>)
    requires edits != []
    ensures var rest := UndoAll(t, edits[1..]);
            UndoAll(t, edits) == if rest.ok then Undo(rest.tree, edits[0]) else rest
    decreases |edits|
  {
    hide Undo;
    if |edits| > 1 {
      var last := Undo(t, edits[|edits| - 1]);
      assert edits[1..][..|edits| - 2] == edits[..|edits| - 1][1..];
      if last.ok {
        UndoAllEndsWithFirst(last.tree, edits[..|edits| - 1]);
      }
    }
  }

  lemma {:induction false} UndoAllInvertsApplyAll(t: Tree, edits: seq<Edit>)
    requires WellFormed(t) && ApplyAll(t, edits).applied == |edits|
    ensures UndoAll(ApplyAll(t, edits).tree, edits) == Outcome(true, t)
    decreases |edits|
  {
    hide WellFormed, Apply, Undo;
    if edits != [] {
      var first := Apply(t, edits[0]);
      UndoInvertsApply(t, edits[0]);
      UndoAllInvertsApplyAll(first.tree, edits[1..]);
      UndoAllEndsWithFirst(ApplyAll(t, edits).tree, edits);
    }
  }

  lemma {:induction false} RunThroughPrefix(t: Tree, edits: seq<Edit>, k: nat)
    requires k <= |edits|
    ensures var r := ApplyAll(t, edits);
            && r.applied <= |edits|
            && (k <= r.applied ==> ApplyAll(t, edits[..k]).applied == k)
            && (k == r.applied < |edits| ==>
                  !Apply(ApplyAll(t, edits[..k]).tree, edits[k]).ok
                    && r.tree == Apply(ApplyAll(t, edits[..k]).tree, edits[k]).tree)
    decreases |edits|
  {
    hide Apply;
    if edits != [] {
      var first := Apply(t, edits[0]);
      if first.ok {
        if k > 0 {
          assert edits[..k][1..] == edits[1..][..k - 1];
          RunThroughPrefix(first.tree, edits[1..], k - 1);
        } else {
          RunThroughPrefix(first.tree, edits[1..], 0);
        }
      }
    }
  }

  // At every point of a run, rolling back what is on record restores the original tree.
  lemma RollbackAtEveryPrefix(t: Tree, edits: seq<Edit>, k: nat)
    requires WellFormed(t) && k <= ApplyAll(t, edits).applied
    ensures k <= |edits| && UndoAll(ApplyAll(t, edits[..k]).tree, edits[..k]) == Outcome(true, t)
  {
    hide WellFormed, Apply, Undo, UndoAll;
    RunThroughPrefix(t, edits, 0);
    RunThroughPrefix(t, edits, k);
    UndoAllInvertsApplyAll(t, edits[..k]);
  }

  // ----- what has been undone can be done again

  lemma RmdirIsRedone(t: Tree, p: Path)
    requires WellFormed(t) && Rmdir(t, p).ok
    ensures WellFormed(Rmdir(t, p).tree) && Mkdir(Rmdir(t, p).tree, p) == Outcome(true, t)
  {
    var u := Rmdir(t, p).tree;
    forall q | q in u
      ensures IsDir(u, Parent(q))
    {
      assert q in t && IsDir(t, Parent(q)) && Parent(q) != p;
    }
    assert IsDir(t, Parent(p)) && Parent(p) != p;
    assert u[p := Directory] == t;
  }

  lemma {:induction false} MkdirAllEndsWithLast(t: Tree, paths: seq<Path>)
    requires paths != []
    ensures var front := MkdirAll(t, paths[..|paths| - 1]);
            MkdirAll(t, paths) == if front.ok then Mkdir(front.tree, paths[|paths| - 1]) else front
    decreases |paths|
  {
    if |paths| == 1 {
      assert paths[1..] == [] && paths[..0] == [];
    } else {
      var first := Mkdir(t, paths[0]);
      assert paths[1..][..|paths| - 2] == paths[..|paths| - 1][1..];
      if first.ok {
        MkdirAllEndsWithLast(first.tree, paths[1..]);
      }
    }
  }

  lemma {:induction false} RmdirAllIsRedone(t: Tree, paths: seq<Path>)
    requires WellFormed(t) && RmdirAll(t, paths).ok
    ensures WellFormed(RmdirAll(t, paths).tree) && MkdirAll(RmdirAll(t, paths).tree, paths) == Outcome(true, t)
    decreases |paths|
  {
    hide WellFormed, Mkdir, Rmdir;
    if paths != [] {
      var last := paths[|paths| - 1];
      RmdirIsRedone(t, last);
      RmdirAllIsRedone(Rmdir(t, last).tree, paths[..|paths| - 1]);
      MkdirAllEndsWithLast(RmdirAll(t, paths).tree, paths);
    }
  }

  lemma RedoInvertsFileAction(t: Tree, e: Edit)
    requires WellFormed(t) && !e.CreateDirectories? && Undo(t, e).ok
    ensures WellFormed(Undo(t, e).tree) && Apply(Undo(t, e).tree, e) == Outcome(true, t)
  {
    var u := Undo(t, e).tree;
    forall p | p in u
      ensures IsDir(u, Parent(p))
    {
      if p in t {
        assert IsDir(t, Parent(p));
      }
    }
    match e
    case CreateFile(path, content) =>
      assert IsDir(t, Parent(path)) && u[path := File(content)] == t;
    case DeleteFile(path, expected) =>
      assert Unlink(u, path) == t;
    case ReplaceFile(path, expected, content) =>
      assert IsDir(t, Parent(path)) && u[path := File(content)] == t;
    case MoveFile(src, dst, expected) =>
      assert IsDir(t, Parent(dst));
      MoveIsUndone(t, dst, src);
  }

  // Undoing is exactly the reverse: it succeeds only where doing the action again gives back what was found.
  lemma RedoInvertsUndo(t: Tree, e: Edit)
    requires WellFormed(t) && Undo(t, e).ok
    ensures WellFormed(Undo(t, e).tree) && Apply(Undo(t, e).tree, e) == Outcome(true, t)
  {
    hide WellFormed, MkdirAll, RmdirAll;
    if e.CreateDirectories? {
      RmdirAllIsRedone(t, e.paths);
    } else {
      RedoInvertsFileAction(t, e);
    }
  }

  lemma {:induction false} ApplyAllEndsWithLast(t: Tree, edits: seq<Edit>)
    requires edits != [] && ApplyAll(t, edits[..|edits| - 1]).applied == |edits| - 1
    ensures var last := Apply(ApplyAll(t, edits[..|edits| - 1]).tree, edits[|edits| - 1]);
            last.ok ==> ApplyAll(t, edits) == Run(|edits|, last.tree)
    decreases |edits|
  {
    hide Apply;
    if |edits| == 1 {
      assert edits[1..] == [] && edits[..0] == [];
    } else {
      assert edits[1..][..|edits| - 2] == edits[..|edits| - 1][1..];
      ApplyAllEndsWithLast(Apply(t, edits[0]).tree, edits[1..]);
    }
  }

  // A rollback that succeeds has left a tree on which the same actions lead to what it found, so it takes back those
  // actions and nothing else.
  lemma {:induction false} RedoAllInvertsUndoAll(t: Tree, edits: seq<Edit>)
    requires WellFormed(t) && UndoAll(t, edits).ok
    ensures WellFormed(UndoAll(t, edits).tree) && ApplyAll(UndoAll(t, edits).tree, edits) == Run(|edits|, t)
    decreases |edits|
  {
    hide WellFormed, Apply, Undo;
    if edits != [] {
      var last := edits[|edits| - 1];
      RedoInvertsUndo(t, last);
      RedoAllInvertsUndoAll(Undo(t, last).tree, edits[..|edits| - 1]);
      ApplyAllEndsWithLast(UndoAll(t, edits).tree, edits);
    }
  }

  // Actions can be taken back from a tree exactly when it is what they leave of some tree; and then that is the tree
  // they are taken back to.
  lemma {:induction false} TakenBackExactly(t: Tree, edits: seq<Edit>)
    requires WellFormed(t)
    ensures UndoAll(t, edits).ok <==> exists u: Tree :: WellFormed(u) && ApplyAll(u, edits) == Run(|edits|, t)
    ensures forall u: Tree :: WellFormed(u) && ApplyAll(u, edits) == Run(|edits|, t) ==> UndoAll(t, edits).tree == u
  {
    hide WellFormed, ApplyAll, UndoAll;
    if UndoAll(t, edits).ok {
      RedoAllInvertsUndoAll(t, edits);
    }
    forall u: Tree | WellFormed(u) && ApplyAll(u, edits) == Run(|edits|, t)
      ensures UndoAll(t, edits) == Outcome(true, u)
    {
      UndoAllInvertsApplyAll(u, edits);
    }
  }

  // ----- a run that fails

  lemma {:induction false} DirectoriesStay(t: Tree, edits: seq<Edit>, p: Path)
    requires IsDir(t, p)
    ensures IsDir(ApplyAll(t, edits).tree, p)
    decreases |edits|
  {
    if edits != [] {
      if edits[0].CreateDirectories? {
        MadeDirectoriesStay(t, edits[0].paths, p);
      }
      DirectoriesStay(Apply(t, edits[0]).tree, edits[1..], p);
    }
  }

  lemma {:induction false} MadeDirectoriesStay(t: Tree, paths: seq<Path>, p: Path)
    ensures IsDir(t, p) ==> IsDir(MkdirAll(t, paths).tree, p)
    ensures MkdirAll(t, paths).ok && p in paths ==> IsDir(MkdirAll(t, paths).tree, p)
    decreases |paths|
  {
    if paths != [] {
      assert p in paths ==> p == paths[0] || p in paths[1..];
      MadeDirectoriesStay(Mkdir(t, paths[0]).tree, paths[1..], p);
    }
  }

  lemma {:induction false} MadeInRun(t: Tree, edits: seq<Edit>, i: nat, p: Path)
    requires ApplyAll(t, edits).applied == |edits| && i < |edits| && edits[i].CreateDirectories? && p in edits[i].paths
    ensures IsDir(ApplyAll(t, edits).tree, p)
    decreases |edits|
  {
    hide MkdirAll;
    var u := Apply(t, edits[0]).tree;
    if i == 0 {
      MadeDirectoriesStay(t, edits[0].paths, p);
      DirectoriesStay(u, edits[1..], p);
    } else {
      MadeInRun(u, edits[1..], i - 1, p);
    }
  }

  lemma {:induction false} RmdirAllKeepsOthers(t: Tree, paths: seq<Path>, p: Path)
    requires IsDir(t, p) && p !in paths
    ensures IsDir(RmdirAll(t, paths).tree, p)
    decreases |paths|
  {
    if paths != [] {
      RmdirAllKeepsOthers(Rmdir(t, paths[|paths| - 1]).tree, paths[..|paths| - 1], p);
    }
  }

  lemma {:induction false} UndoKeepsOthers(t: Tree, edits: seq<Edit>, p: Path)
    requires IsDir(t, p)
    requires forall i :: 0 <= i < |edits| && edits[i].CreateDirectories? ==> p !in edits[i].paths
    ensures IsDir(UndoAll(t, edits).tree, p)
    decreases |edits|
  {
    if edits != [] {
      var last := edits[|edits| - 1];
      if last.CreateDirectories? {
        RmdirAllKeepsOthers(t, last.paths, p);
      }
      UndoKeepsOthers(Undo(t, last).tree, edits[..|edits| - 1], p);
    }
  }

  // A failing action leaves something behind only by making its first directories and not the rest.
  predicate StopsHalfWay(t: Tree, e: Edit) {
    e.CreateDirectories? && e.paths != [] && Mkdir(t, e.paths[0]).ok
  }

  // After a failed run the rollback restores the original tree, unless the action that failed made
  // directories first: those are not on record.
  lemma FailedRunIsUndoneExactly(t: Tree, edits: seq<Edit>)
    requires WellFormed(t) && ApplyAll(t, edits).applied < |edits|
    ensures var r := ApplyAll(t, edits);
            UndoAll(r.tree, edits[..r.applied]) == Outcome(true, t) <==>
            !StopsHalfWay(ApplyAll(t, edits[..r.applied]).tree, edits[r.applied])
  {
    var r := ApplyAll(t, edits);
    var k := r.applied;
    var done := edits[..k];
    var u := ApplyAll(t, done).tree;
    RunThroughPrefix(t, edits, k);
    RollbackAtEveryPrefix(t, edits, k);
    if !StopsHalfWay(u, edits[k]) {
      FailureLeavesTree(u, edits[k]);
    } else {
      var p := edits[k].paths[0];
      MadeDirectoriesStay(Mkdir(u, p).tree, edits[k].paths[1..], p);
      forall i | 0 <= i < |done| && done[i].CreateDirectories?
        ensures p !in done[i].paths
      {
        if p in done[i].paths {
          MadeInRun(t, done, i, p);
        }
      }
      UndoKeepsOthers(r.tree, done, p);
      if IsDir(t, p) {
        DirectoriesStay(t, done, p);
      }
    }
  }

  lemma FailureLeavesTree(t: Tree, e: Edit)
    requires !Apply(t, e).ok && !StopsHalfWay(t, e)
    ensures Apply(t, e).tree == t
  {
  }
}
