// What a patch asks for, told on files alone, and that planning and applying it bring about just that.
module Meanings {
  import opened Common
  import opened ByteStrings
  import opened Hunks
  import opened Trees
  import opened Planning

  type Files = map<Path, Bytes>

  // Files before and after one operation, as a reader of the patch would expect it.
  ghost predicate Does(op: PatchOp, before: Files, after: Files) {
    match op
    case AddFile(path, lines) => path !in before && after == before[path := JoinLines(lines)]
    case RemoveFile(path) => path in before && after == before - {path}
    case UpdateFile(path, None, hunks) =>
      path in before && PatchedContent(before[path], hunks).Some?
      && after == before[path := PatchedContent(before[path], hunks).value]
    case UpdateFile(path, Some(dst), hunks) =>
      path in before && dst !in before && PatchedContent(before[path], hunks).Some?
      && after == (before - {path})[dst := PatchedContent(before[path], hunks).value]
  }

  ghost predicate DoesAll(ops: seq<PatchOp>, before: Files, after: Files)
    decreases |ops|
  {
    if ops == [] then after == before
    else exists mid :: Does(ops[0], before, mid) && DoesAll(ops[1..], mid, after)
  }

  function FilesOf(t: Tree): Files {
    map p | p in t && t[p].File? :: t[p].content
  }

  function DirsOf(t: Tree): set<Path> {
    set p | p in t && t[p].Directory?
  }

  // The files a plan stands for so far.
  function PlannedFiles(t: Tree, s: Plan): (files: Files)
    ensures forall p :: p in files <==> ReadPlanned(t, s, p).Present?
    ensures forall p :: p in files ==> files[p] == ReadPlanned(t, s, p).content
  {
    map p | p in t.Keys + s.files.Keys && ReadPlanned(t, s, p).Present? :: ReadPlanned(t, s, p).content
  }

  lemma ParentsReadSame(t: Tree, s: Plan, dst: Path, p: Path)
    requires EnsureParents(t, s, dst).Some?
    ensures ReadPlanned(t, EnsureParents(t, s, dst).value, p) == ReadPlanned(t, s, p)
  {
    hide Missing;
  }

  // One operation planned reads back as what it asks for, and every other path reads as before.
  lemma {:induction false} StepReads(t: Tree, s: Plan, op: PatchOp, p: Path)
    requires AddOp(t, s, op).Some?
    ensures var before, after := ReadPlanned(t, s, p), ReadPlanned(t, AddOp(t, s, op).value, p);
            match op
            case AddFile(path, lines) =>
              if p == path then before == Absent && after == Present(JoinLines(lines)) else after == before
            case RemoveFile(path) =>
              if p == path then before.Present? && after == Absent else after == before
            case UpdateFile(path, moveTo, hunks) =>
              var old_ := ReadPlanned(t, s, path);
              && old_.Present? && PatchedContent(old_.content, hunks).Some?
              && if moveTo.None? then
                   after == if p == path then Present(PatchedContent(old_.content, hunks).value) else before
                 else if p == moveTo.value then
                   before == Absent && after == Present(PatchedContent(old_.content, hunks).value)
                 else after == if p == path then Absent else before
  {
    hide Missing, PatchedContent, EnsureParents;
    if op.AddFile? {
      ParentsReadSame(t, s, op.path, p);
    } else if op.UpdateFile? && op.moveTo.Some? {
      ParentsReadSame(t, s, op.moveTo.value, p);
    }
  }

  lemma {:induction false} StepDoes(t: Tree, s: Plan, op: PatchOp)
    requires AddOp(t, s, op).Some?
    ensures Does(op, PlannedFiles(t, s), PlannedFiles(t, AddOp(t, s, op).value))
  {
    hide AddOp, PatchedContent, ReadPlanned;
    forall p: Path {
      StepReads(t, s, op, p);
    }
    match op
    case AddFile(path, _) => StepReads(t, s, op, path);
    case RemoveFile(path) => StepReads(t, s, op, path);
    case UpdateFile(path, None, _) => StepReads(t, s, op, path);
    case UpdateFile(path, Some(dst), hunks) =>
      StepReads(t, s, op, path);
      StepReads(t, s, op, dst);
      MoveDoes(PlannedFiles(t, s), PlannedFiles(t, AddOp(t, s, op).value), path, dst, hunks);
  }

  lemma MoveDoes(before: Files, after: Files, path: Path, dst: Path, hunks: seq<Hunk>)
    requires path in before && dst !in before && PatchedContent(before[path], hunks).Some?
    requires forall p: Path :: p in after <==> p == dst || (p in before && p != path)
    requires forall p: Path :: p in after ==>
               after[p] == if p == dst then PatchedContent(before[path], hunks).value else before[p]
    ensures Does(UpdateFile(path, Some(dst), hunks), before, after)
  {
    hide PatchedContent;
  }

  lemma {:induction false} PlanDoes(t: Tree, s: Plan, ops: seq<PatchOp>)
    requires PlanFrom(t, s, ops).Some?
    ensures DoesAll(ops, PlannedFiles(t, s), PlannedFiles(t, PlanFrom(t, s, ops).value))
    decreases |ops|
  {
    hide AddOp, Does, PlannedFiles;
    if ops != [] {
      StepDoes(t, s, ops[0]);
      PlanDoes(t, AddOp(t, s, ops[0]).value, ops[1..]);
    }
  }

  // ----- when an operation can be planned

  // No directory on the way to p is taken by a file of the original tree.
  ghost predicate ParentsReadable(t: Tree, s: Plan, p: Path) {
    forall k :: 0 < k < |p| ==> PlannedFile(s, p[..k]) || p[..k] in s.dirs || !IsFile(t, p[..k])
  }

  lemma {:induction false} MissingExactly(t: Tree, s: Plan, p: Path, k: nat)
    requires k < |p|
    ensures Missing(t, s, p, k).Some? <==> forall j :: 0 < j <= k ==> DirExists(t, s, p[..j]).Some?
    ensures Missing(t, s, p, k).Some? ==>
              forall q: Path :: q in Missing(t, s, p, k).value <==>
                0 < |q| <= k && p[..|q|] == q && DirExists(t, s, q) == Some(false)
  {
    hide DirExists;
    if k > 0 {
      MissingExactly(t, s, p, k - 1);
      var last: Path := p[..k];
      var outer := Missing(t, s, p, k - 1);
      if outer.Some? && DirExists(t, s, last).Some? {
        forall q: Path
          ensures q in Missing(t, s, p, k).value <==>
                  0 < |q| <= k && p[..|q|] == q && DirExists(t, s, q) == Some(false)
        {
          assert q in Missing(t, s, p, k).value <==>
                 q in outer.value || (q == last && DirExists(t, s, last) == Some(false));
        }
      }
    }
  }

  lemma ParentsAreEnsuredExactly(t: Tree, s: Plan, p: Path)
    ensures EnsureParents(t, s, p).Some? <==> ParentsReadable(t, s, p)
  {
    MissingExactly(t, s, p, |p| - 1);
    hide Missing;
    forall k | 0 < k < |p|
      ensures DirExists(t, s, p[..k]).Some? <==>
              PlannedFile(s, p[..k]) || p[..k] in s.dirs || !IsFile(t, p[..k])
    {
    }
  }

  // Planning accepts an operation exactly when what it reads is there, where it writes nothing is, its hunks apply, and
  // no file of the original tree stands in the way of its directories.
  lemma {:induction false} StepIsAcceptedExactly(t: Tree, s: Plan, op: PatchOp)
    ensures AddOp(t, s, op).Some? <==>
            match op
            case AddFile(path, _) => ReadPlanned(t, s, path) == Absent && ParentsReadable(t, s, path)
            case RemoveFile(path) => ReadPlanned(t, s, path).Present?
            case UpdateFile(path, moveTo, hunks) =>
              && ReadPlanned(t, s, path).Present?
              && PatchedContent(ReadPlanned(t, s, path).content, hunks).Some?
              && (moveTo.Some? ==>
                    ReadPlanned(t, s, moveTo.value) == Absent && ParentsReadable(t, s, moveTo.value))
  {
    hide EnsureParents, ParentsReadable, ReadPlanned, PatchedContent;
    if op.AddFile? {
      ParentsAreEnsuredExactly(t, s, op.path);
    } else if op.UpdateFile? && op.moveTo.Some? {
      ParentsAreEnsuredExactly(t, s, op.moveTo.value);
    }
  }

  // ----- directories

  function Destination(op: PatchOp): Option<Path> {
    match op
    case AddFile(path, _) => Some(path)
    case RemoveFile(_) => None
    case UpdateFile(_, moveTo, _) => moveTo
  }

  // p is a directory on the way to where some operation writes a new file.
  ghost predicate OnTheWay(ops: seq<PatchOp>, p: Path) {
    exists op <- ops :: Destination(op).Some? && Above(p, Destination(op).value)
  }

  lemma ParentExistsExactly(t: Tree, s: Plan, p: Path)
    requires DirExists(t, s, p).Some? && !PlannedFile(s, p)
    ensures DirExists(t, s, p) == Some(true) <==> p in s.dirs || IsDir(t, p)
  {
  }

  lemma ParentsMakeDirs(t: Tree, s: Plan, dst: Path, p: Path)
    requires EnsureParents(t, s, dst).Some? && !Clash(s, dst)
    ensures p in EnsureParents(t, s, dst).value.dirs || IsDir(t, p) <==> p in s.dirs || IsDir(t, p) || Above(p, dst)
  {
    hide Missing, IsDir, DirExists;
    MissingExactly(t, s, dst, |dst| - 1);
    var missing := Missing(t, s, dst, |dst| - 1).value;
    assert p in EnsureParents(t, s, dst).value.dirs <==> p in s.dirs || p in missing;
    if Above(p, dst) {
      assert dst[..|p|] == p;
      ParentExistsExactly(t, s, p);
      assert DirExists(t, s, p).value || DirExists(t, s, p) == Some(false);
    } else {
      assert p !in missing;
    }
  }

  lemma {:induction false} StepMakesDirs(t: Tree, s: Plan, op: PatchOp, p: Path)
    requires AddOp(t, s, op).Some? && !OpClash(s, op)
    ensures p in AddOp(t, s, op).value.dirs || IsDir(t, p) <==> p in s.dirs || IsDir(t, p) || OnTheWay([op], p)
  {
    hide EnsureParents, ReadPlanned, PatchedContent, Clash, IsDir;
    assert [op][0] == op;
    if Destination(op).Some? {
      ParentsMakeDirs(t, s, Destination(op).value, p);
    }
  }

  lemma {:induction false} PlanMakesDirs(t: Tree, s: Plan, ops: seq<PatchOp>, p: Path)
    requires PlanFrom(t, s, ops).Some? && ClashFree(t, s, ops)
    ensures p in PlanFrom(t, s, ops).value.dirs || IsDir(t, p) <==> p in s.dirs || IsDir(t, p) || OnTheWay(ops, p)
    decreases |ops|
  {
    hide AddOp, OpClash, IsDir;
    if ops != [] {
      StepMakesDirs(t, s, ops[0], p);
      PlanMakesDirs(t, AddOp(t, s, ops[0]).value, ops[1..], p);
      assert ops == [ops[0]] + ops[1..];
    }
  }

  // ----- the tree a patch leaves

  lemma OverlayIsPlanned(t: Tree, s: Plan)
    requires NoOverlap(t, s)
    ensures FilesOf(Overlay(t, s)) == PlannedFiles(t, s)
    ensures forall p: Path :: p in DirsOf(Overlay(t, s)) <==> p in s.dirs || IsDir(t, p)
  {
  }

  lemma PlanHasNoOverlap(t: Tree, ops: seq<PatchOp>)
    requires WellFormed(t) && PlanFrom(t, EMPTY_PLAN, ops).Some? && ClashFree(t, EMPTY_PLAN, ops)
    ensures NoOverlap(t, PlanFrom(t, EMPTY_PLAN, ops).value)
  {
    assert Overlay(t, EMPTY_PLAN) == t;
    hide PlanFrom, Overlay, WellFormed, NoOverlap, ClashFree;
    assert NoOverlap(t, EMPTY_PLAN) by { NothingOverlaps(t); }
    PlanGoesThrough(t, EMPTY_PLAN, ops);
  }

  lemma NothingOverlaps(t: Tree)
    ensures NoOverlap(t, EMPTY_PLAN)
  {
  }

  // A patch whose actions all go through leaves the files it asks for, and no directories but the old ones and those
  // on the way to a file it adds or moves.
  lemma {:induction false} PatchDoesWhatItSays(t: Tree, ops: seq<PatchOp>)
    requires WellFormed(t) && PlanFrom(t, EMPTY_PLAN, ops).Some?
    requires var v := PlanFrom(t, EMPTY_PLAN, ops).value; ApplyAll(t, v.edits).applied == |v.edits|
    ensures var left := ApplyAll(t, PlanFrom(t, EMPTY_PLAN, ops).value.edits).tree;
            && DoesAll(ops, FilesOf(t), FilesOf(left))
            && forall p: Path :: p in DirsOf(left) <==> p in DirsOf(t) || OnTheWay(ops, p)
  {
    var v := PlanFrom(t, EMPTY_PLAN, ops).value;
    assert Overlay(t, EMPTY_PLAN) == t && PlannedFiles(t, EMPTY_PLAN) == FilesOf(t);
    hide PlanFrom, ApplyAll, Overlay, WellFormed, PlannedFiles, DoesAll, NoOverlap, FilesOf, OnTheWay, ClashFree;
    PlannedActionsSucceedExactly(t, ops);
    PlanHasNoOverlap(t, ops);
    OverlayIsPlanned(t, v);
    PlanDoes(t, EMPTY_PLAN, ops);
    forall p: Path {
      PlanMakesDirs(t, EMPTY_PLAN, ops, p);
    }
  }
}
