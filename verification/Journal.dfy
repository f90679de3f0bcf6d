// The journal: a chain of segment files, each naming the one before it, read as one list of records.
module Journals {
  import opened Common
  import opened AccessIds
  import opened ByteStrings
  import opened Framing

  type Files = map<string, Bytes>

  datatype Entry = Entry(id: Int64, message: Message)

  // ----- what a set of files holds

  function PrevOf(f: Format, files: Files, path: string): Option<string> {
    if path !in files then None
    else
      var first := ReadAt(f, files[path], 0);
      if first.Some? && first.value.0.header.Root? then Some(first.value.0.header.prev) else None
  }

  // The chain that ends at a path, oldest segment first; None where a CHECK of discover_chain fails.
  function Discover(f: Format, files: Files, path: string, seen: set<string>): Option<seq<string>>
    decreases files.Keys - seen
  {
    if path == "" then Some([])
    else if path in seen || PrevOf(f, files, path).None? then None
    else
      var older := Discover(f, files, PrevOf(f, files, path).value, seen + {path});
      if older.None? then None else Some(older.value + [path])
  }

  // The records of a segment from an offset on; the root at offset 0 is not replayed.
  function Scan(f: Format, file: Bytes, segment: nat, offset: nat): Option<seq<Entry>>
    requires segment < SEGMENT_SPAN
    decreases |file| - offset
  {
    if offset >= |file| then Some([])
    else if offset >= OFFSET_SPAN || ReadAt(f, file, offset).None? then None
    else
      var (message, size) := ReadAt(f, file, offset).value;
      var rest := Scan(f, file, segment, offset + size);
      if rest.None? then None
      else Some((if offset > 0 then [Entry(MakeAccessId(segment, offset), message)] else []) + rest.value)
  }

  function ScanAll(f: Format, files: Files, paths: seq<string>): Option<seq<Entry>>
    requires |paths| <= SEGMENT_SPAN
  {
    if paths == [] then Some([])
    else
      var last := |paths| - 1;
      var older := ScanAll(f, files, paths[..last]);
      if older.None? || paths[last] !in files then None
      else
        var own := Scan(f, files[paths[last]], last, 0);
        if own.None? then None else Some(older.value + own.value)
  }

  // Everything replayed from the chain that ends at a path; None where opening it aborts.
  function Recover(f: Format, files: Files, path: string): Option<seq<Entry>> {
    var paths := Discover(f, files, path, {});
    if paths.None? || |paths.value| > SEGMENT_SPAN then None else ScanAll(f, files, paths.value)
  }

  // Random access by id, which ignores the receiving bit.
  function Lookup(f: Format, files: Files, paths: seq<string>, id: Int64): Option<Message>
    requires id != NO_ACCESS_ID
  {
    if SegmentOf(id) >= |paths| || paths[SegmentOf(id)] !in files then None
    else
      var r := ReadAt(f, files[paths[SegmentOf(id)]], OffsetOf(id));
      if r.None? then None else Some(r.value.0)
  }

  // ----- the two ways files change

  function RootRecord(resume: string): Message {
    Message(Root(resume), [])
  }

  function Created(f: Format, files: Files, path: string, resume: string): Files
    requires Writable(f, RootRecord(resume))
  {
    files[path := Frame(f, RootRecord(resume))]
  }

  function Stamp(m: Message, id: Int64): Message
    requires m.header.Fields?
  {
    Message(m.header.(messageId := Some(id)), m.body)
  }

  // A message is journalled as it is but for its id, and what is stamped again keeps only the new id.
  lemma StampMovesIdOnly(m: Message, id: Int64, other: Int64)
    requires m.header.Fields?
    ensures var s := Stamp(m, id);
            && s.header.Fields? && s.header.messageId == Some(id)
            && s.body == m.body && s.header.rest == m.header.rest && Stamp(s, other) == Stamp(m, other)
            && (Stamp(m, id) == m <==> m.header.messageId == Some(id))
  {
  }

  function Appended(f: Format, files: Files, path: string, m: Message): Files
    requires path in files && Writable(f, m)
  {
    files[path := files[path] + Frame(f, m)]
  }

  // Files only ever appear and grow.
  predicate Grown(files: Files, later: Files) {
    forall path :: path in files ==> path in later && files[path] <= later[path]
  }

  // ----- one segment

  lemma {:induction false} ScanAppend(f: Format, file: Bytes, segment: nat, offset: nat, m: Message)
    requires f.Valid() && Writable(f, m) && segment < SEGMENT_SPAN && 0 < |file| < OFFSET_SPAN
    requires offset <= |file| && Scan(f, file, segment, offset).Some?
    ensures Scan(f, file + Frame(f, m), segment, offset) ==
            Some(Scan(f, file, segment, offset).value + [Entry(MakeAccessId(segment, |file|), m)])
    decreases |file| - offset
  {
    hide Frame, ReadAt, MakeAccessId;
    var longer := file + Frame(f, m);
    var entry := Entry(MakeAccessId(segment, |file|), m);
    if offset == |file| {
      assert longer == file + Frame(f, m) + [];
      ReadBack(f, file, m, []);
      assert Scan(f, longer, segment, |longer|) == Some([]);
      assert [entry] + [] == [entry] && [] + [entry] == [entry];
    } else {
      ReadIsStable(f, file, Frame(f, m), offset);
      var (message, size) := ReadAt(f, file, offset).value;
      ScanAppend(f, file, segment, offset + size, m);
      var own := if offset > 0 then [Entry(MakeAccessId(segment, offset), message)] else [];
      var rest := Scan(f, file, segment, offset + size).value;
      assert own + (rest + [entry]) == own + rest + [entry];
    }
  }

  predicate Located(f: Format, file: Bytes, segment: nat, e: Entry) {
    && Issued(e.id) && SegmentOf(e.id) == segment && OffsetOf(e.id) < |file|
    && ReadAt(f, file, OffsetOf(e.id)).Some? && ReadAt(f, file, OffsetOf(e.id)).value.0 == e.message
  }

  // Ids grow along a segment, and each names the place its record can be read from.
  lemma {:induction false} ScanIsIndexed(f: Format, file: Bytes, segment: nat, offset: nat, i: nat)
    requires segment < SEGMENT_SPAN && Scan(f, file, segment, offset).Some?
             && i < |Scan(f, file, segment, offset).value|
    ensures var es := Scan(f, file, segment, offset).value;
            && Located(f, file, segment, es[i]) && offset <= OffsetOf(es[i].id)
            && (i > 0 ==> es[i - 1].id < es[i].id)
    decreases |file| - offset
  {
    hide ReadAt, MakeAccessId, SegmentOf, OffsetOf, Issued;
    var (message, size) := ReadAt(f, file, offset).value;
    var rest := Scan(f, file, segment, offset + size).value;
    SplitAfterMake(segment, offset);
    if offset == 0 {
      ScanIsIndexed(f, file, segment, offset + size, i);
    } else if i > 0 {
      ScanIsIndexed(f, file, segment, offset + size, i - 1);
      if i == 1 {
        FartherIsLarger(segment, offset, rest[0].id);
      }
    }
  }

  lemma FartherIsLarger(segment: nat, offset: nat, id: Int64)
    requires segment < SEGMENT_SPAN && offset < OFFSET_SPAN && Issued(id)
    requires segment < SegmentOf(id) || (segment == SegmentOf(id) && offset < OffsetOf(id))
    ensures MakeAccessId(segment, offset) < id
  {
    MakeAfterSplit(id);
    OrderIsLexicographic(segment, offset, SegmentOf(id), OffsetOf(id));
  }

  // ----- the chain

  // One step back along a chain; no path can come up twice.
  lemma ChainStep(f: Format, files: Files, path: string, seen: set<string>)
    requires path != "" && Discover(f, files, path, seen).Some?
    ensures path !in seen && path in files
    ensures ReadAt(f, files[path], 0).Some? && ReadAt(f, files[path], 0).value.0.header.Root?
    ensures var older := Discover(f, files, ReadAt(f, files[path], 0).value.0.header.prev, seen + {path});
            older.Some? && Discover(f, files, path, seen) == Some(older.value + [path])
  {
    hide ReadAt;
  }

  lemma {:induction false} ChainIsDistinct(f: Format, files: Files, path: string, seen: set<string>)
    requires Discover(f, files, path, seen).Some?
    ensures var ps := Discover(f, files, path, seen).value;
            && (forall i :: 0 <= i < |ps| ==> ps[i] in files && ps[i] != "" && ps[i] !in seen)
            && (forall i, j :: 0 <= i < j < |ps| ==> ps[i] != ps[j])
            && (path != "" ==> |ps| > 0 && ps[|ps| - 1] == path)
    decreases files.Keys - seen
  {
    if path != "" {
      ChainIsDistinct(f, files, PrevOf(f, files, path).value, seen + {path});
    }
  }

  lemma ChainEndsEmpty(f: Format, files: Files)
    ensures forall seen :: Discover(f, files, "", seen) == Some([])
  {
  }

  // Growth of the files, and marking paths outside the chain as seen, leave a chain as it is.
  lemma {:induction false} ChainIsStable(f: Format, files: Files, later: Files, path: string, seen: set<string>,
      more: set<string>)
    requires Discover(f, files, path, seen).Some?
    requires Grown(files, later) && forall p :: p in more ==> p !in Discover(f, files, path, seen).value
    ensures Discover(f, later, path, seen + more) == Discover(f, files, path, seen)
    decreases files.Keys - seen
  {
    hide ReadAt;
    if path != "" {
      var prev := PrevOf(f, files, path).value;
      assert later[path] == files[path] + later[path][|files[path]|..];
      ReadIsStable(f, files[path], later[path][|files[path]|..], 0);
      var older := Discover(f, files, prev, seen + {path}).value;
      assert path in older + [path];
      forall p | p in more
        ensures p !in older
      {
        assert p !in older + [path];
      }
      ChainIsStable(f, files, later, prev, seen + {path}, more);
      assert seen + {path} + more == seen + more + {path};
    }
  }

  lemma {:induction false} ScanAllDependsOnChain(f: Format, files: Files, later: Files, paths: seq<string>)
    requires |paths| <= SEGMENT_SPAN
    requires forall i :: 0 <= i < |paths| ==>
               paths[i] in files && paths[i] in later && later[paths[i]] == files[paths[i]]
    ensures ScanAll(f, later, paths) == ScanAll(f, files, paths)
  {
    if paths != [] {
      ScanAllDependsOnChain(f, files, later, paths[..|paths| - 1]);
    }
  }

  // A new segment that resumes a chain replays the same list.
  lemma CreatedKeepsList(f: Format, files: Files, path: string, resume: string)
    requires f.Valid() && Writable(f, RootRecord(resume)) && path != "" && path !in files
    requires Recover(f, files, resume).Some? && |Discover(f, files, resume, {}).value| < SEGMENT_SPAN
    ensures var later := Created(f, files, path, resume);
            && Recover(f, later, path) == Recover(f, files, resume)
            && Discover(f, later, path, {}) == Some(Discover(f, files, resume, {}).value + [path])
  {
    hide ReadAt, Frame;
    var later := Created(f, files, path, resume);
    var root := RootRecord(resume);
    var paths := Discover(f, files, resume, {}).value;
    assert [] + Frame(f, root) + [] == Frame(f, root);
    ReadBack(f, [], root, []);
    ChainIsDistinct(f, files, resume, {});
    ChainIsStable(f, files, later, resume, {}, {path});
    assert {} + {path} == {path};
    assert PrevOf(f, later, path) == Some(resume);
    assert Discover(f, later, path, {}) == Some(paths + [path]);
    ScanAllDependsOnChain(f, files, later, paths);
    assert (paths + [path])[..|paths|] == paths;
    assert Scan(f, later[path], |paths|, |later[path]|) == Some([]);
    assert ReadAt(f, later[path], 0) == Some((root, |later[path]|));
    var none: seq<Entry> := [];
    assert none + none == none;
    assert Scan(f, later[path], |paths|, 0) == Some(none);
    var es := Recover(f, files, resume).value;
    assert es + none == es;
  }

  // An append adds one record at the end, under the id of the place it was written to.
  lemma AppendedExtendsList(f: Format, files: Files, path: string, m: Message)
    requires f.Valid() && Writable(f, m) && path != "" && Recover(f, files, path).Some?
    requires path in files && 0 < |files[path]| < OFFSET_SPAN
    ensures var later := Appended(f, files, path, m);
            var paths := Discover(f, files, path, {}).value;
            && |paths| > 0 && Discover(f, later, path, {}) == Some(paths)
            && Recover(f, later, path) ==
               Some(Recover(f, files, path).value + [Entry(MakeAccessId(|paths| - 1, |files[path]|), m)])
  {
    hide ReadAt, Frame, MakeAccessId, Scan;
    var later := Appended(f, files, path, m);
    var paths := Discover(f, files, path, {}).value;
    ChainIsDistinct(f, files, path, {});
    var none: set<string> := {};
    ChainIsStable(f, files, later, path, none, none);
    assert none + none == none;
    var last := |paths| - 1;
    ScanAllDependsOnChain(f, files, later, paths[..last]);
    ScanAppend(f, files[path], last, 0, m);
    var older, own := ScanAll(f, files, paths[..last]).value, Scan(f, files[path], last, 0).value;
    var entry := Entry(MakeAccessId(last, |files[path]|), m);
    assert older + (own + [entry]) == older + own + [entry];
  }

  // ----- the list as an index

  ghost predicate InOrder(es: seq<Entry>) {
    forall i, j :: 0 <= i < j < |es| ==> es[i].id < es[j].id
  }

  // Every id, with or without the receiving bit, reads back its own record.
  ghost predicate Indexes(f: Format, files: Files, paths: seq<string>, es: seq<Entry>) {
    forall i :: 0 <= i < |es| ==>
      && Issued(es[i].id) && SegmentOf(es[i].id) < |paths|
      && MarkReceiving(es[i].id) != NO_ACCESS_ID
      && Lookup(f, files, paths, es[i].id) == Some(es[i].message)
      && Lookup(f, files, paths, MarkReceiving(es[i].id)) == Some(es[i].message)
  }

  predicate Placed(f: Format, files: Files, paths: seq<string>, e: Entry) {
    && Issued(e.id) && SegmentOf(e.id) < |paths| && paths[SegmentOf(e.id)] in files
    && Located(f, files[paths[SegmentOf(e.id)]], SegmentOf(e.id), e)
  }

  lemma {:induction false} EntryIsPlaced(f: Format, files: Files, paths: seq<string>, i: nat)
    requires |paths| <= SEGMENT_SPAN && ScanAll(f, files, paths).Some? && i < |ScanAll(f, files, paths).value|
    ensures var es := ScanAll(f, files, paths).value;
            Placed(f, files, paths, es[i]) && (i > 0 ==> es[i - 1].id < es[i].id)
  {
    hide Scan, SegmentOf, OffsetOf, MakeAccessId;
    var last := |paths| - 1;
    var older, own := ScanAll(f, files, paths[..last]).value, Scan(f, files[paths[last]], last, 0).value;
    if i < |older| {
      EntryIsPlaced(f, files, paths[..last], i);
    } else {
      ScanIsIndexed(f, files[paths[last]], last, 0, i - |older|);
      if i == |older| > 0 {
        EntryIsPlaced(f, files, paths[..last], i - 1);
        EarlierSegmentIsSmaller(older[i - 1].id, own[0].id);
      }
    }
  }

  lemma EarlierSegmentIsSmaller(id: Int64, later: Int64)
    requires Issued(id) && Issued(later) && SegmentOf(id) < SegmentOf(later)
    ensures id < later
  {
    MakeAfterSplit(id);
    FartherIsLarger(SegmentOf(id), OffsetOf(id), later);
  }

  lemma {:induction false} AdjacentOrderIsOrder(es: seq<Entry>, i: nat, j: nat)
    requires i < j < |es| && forall k :: 0 < k < |es| ==> es[k - 1].id < es[k].id
    ensures es[i].id < es[j].id
  {
    if i < j - 1 {
      AdjacentOrderIsOrder(es, i, j - 1);
    }
  }

  lemma PlacedReadsBack(f: Format, files: Files, paths: seq<string>, e: Entry)
    requires Placed(f, files, paths, e)
    ensures MarkReceiving(e.id) != NO_ACCESS_ID
    ensures Lookup(f, files, paths, e.id) == Some(e.message) == Lookup(f, files, paths, MarkReceiving(e.id))
  {
    hide ReadAt;
    MakeAfterSplit(e.id);
    SplitAfterMake(SegmentOf(e.id), OffsetOf(e.id));
  }

  // The list a chain replays is strictly ordered by id, and is what random access sees.
  lemma ListIsIndexed(f: Format, files: Files, path: string)
    requires Recover(f, files, path).Some?
    ensures InOrder(Recover(f, files, path).value)
    ensures Indexes(f, files, Discover(f, files, path, {}).value, Recover(f, files, path).value)
  {
    hide Placed, ScanAll, Lookup, SegmentOf, MarkReceiving;
    var paths := Discover(f, files, path, {}).value;
    var es := Recover(f, files, path).value;
    forall i | 0 <= i < |es|
      ensures Placed(f, files, paths, es[i]) && (i > 0 ==> es[i - 1].id < es[i].id)
    {
      EntryIsPlaced(f, files, paths, i);
    }
    forall i, j | 0 <= i < j < |es|
      ensures es[i].id < es[j].id
    {
      AdjacentOrderIsOrder(es, i, j);
    }
    PlacedListIndexes(f, files, paths, es);
  }

  lemma PlacedListIndexes(f: Format, files: Files, paths: seq<string>, es: seq<Entry>)
    requires forall i :: 0 <= i < |es| ==> Placed(f, files, paths, es[i])
    ensures Indexes(f, files, paths, es)
  {
    hide Lookup, Located, SegmentOf, MarkReceiving;
    forall i | 0 <= i < |es|
      ensures MarkReceiving(es[i].id) != NO_ACCESS_ID
      ensures Lookup(f, files, paths, es[i].id) == Some(es[i].message)
              == Lookup(f, files, paths, MarkReceiving(es[i].id))
    {
      PlacedReadsBack(f, files, paths, es[i]);
    }
  }

  // Whatever is appended anywhere and whatever chains branch off, a chain keeps its segments in place
  // and every id it ever replayed keeps its record.
  lemma IdsOutliveGrowth(f: Format, files: Files, later: Files, path: string)
    requires Recover(f, files, path).Some? && Grown(files, later)
    ensures Discover(f, later, path, {}) == Discover(f, files, path, {})
    ensures Indexes(f, later, Discover(f, later, path, {}).value, Recover(f, files, path).value)
  {
    hide Placed, ScanAll;
    var none: set<string> := {};
    var paths := Discover(f, files, path, none).value;
    var es := Recover(f, files, path).value;
    ChainIsStable(f, files, later, path, none, none);
    assert none + none == none;
    forall i | 0 <= i < |es|
      ensures Placed(f, later, paths, es[i])
    {
      EntryIsPlaced(f, files, paths, i);
      PlaceIsStable(f, files, later, paths, es[i]);
    }
    PlacedListIndexes(f, later, paths, es);
  }

  lemma PlaceIsStable(f: Format, files: Files, later: Files, paths: seq<string>, e: Entry)
    requires Placed(f, files, paths, e) && Grown(files, later)
    ensures Placed(f, later, paths, e)
  {
    hide ReadAt, SegmentOf, OffsetOf;
    var path := paths[SegmentOf(e.id)];
    assert later[path] == files[path] + later[path][|files[path]|..];
    ReadIsStable(f, files[path], later[path][|files[path]|..], OffsetOf(e.id));
  }

  // ----- runs over any number of restarts

  // The files, the segment being written, and every id handed out or replayed so far with its record.
  datatype Store = Store(files: Files, path: string, list: seq<Entry>)

  datatype Event = Restart(path: string) | Append(message: Message)

  function NextId(f: Format, s: Store): Int64
    requires s.path in s.files && |s.files[s.path]| < OFFSET_SPAN
    requires Discover(f, s.files, s.path, {}).Some? && 0 < |Discover(f, s.files, s.path, {}).value| <= SEGMENT_SPAN
  {
    MakeAccessId(|Discover(f, s.files, s.path, {}).value| - 1, |s.files[s.path]|)
  }

  // The CHECKs of the constructor and of append: a fresh file name, and room in the id for segment and offset.
  predicate Possible(f: Format, s: Store, e: Event) {
    match e
    case Restart(path) =>
      && path != "" && path !in s.files && Writable(f, RootRecord(s.path))
      && Discover(f, s.files, s.path, {}).Some? && |Discover(f, s.files, s.path, {}).value| < SEGMENT_SPAN
    case Append(m) =>
      && s.path != "" && s.path in s.files && 0 < |s.files[s.path]| < OFFSET_SPAN && m.header.Fields?
      && Discover(f, s.files, s.path, {}).Some? && 0 < |Discover(f, s.files, s.path, {}).value| <= SEGMENT_SPAN
      && Writable(f, Stamp(m, NextId(f, s)))
  }

  function Next(f: Format, s: Store, e: Event): Store
    requires Possible(f, s, e)
  {
    match e
    case Restart(path) => Store(Created(f, s.files, path, s.path), path, s.list)
    case Append(m) =>
      var id := NextId(f, s);
      Store(Appended(f, s.files, s.path, Stamp(m, id)), s.path, s.list + [Entry(id, Stamp(m, id))])
  }

  predicate Playable(f: Format, s: Store, events: seq<Event>)
    decreases |events|
  {
    events == [] || (Possible(f, s, events[0]) && Playable(f, Next(f, s, events[0]), events[1..]))
  }

  function Play(f: Format, s: Store, events: seq<Event>): Store
    requires Playable(f, s, events)
    decreases |events|
  {
    if events == [] then s else Play(f, Next(f, s, events[0]), events[1..])
  }

  // The messages handed to append over a run.
  function Appends(events: seq<Event>): seq<Message> {
    if events == [] then [] else (if events[0].Append? then [events[0].message] else []) + Appends(events[1..])
  }

  // The same messages, in the same order, each carrying the id it was given.
  ghost predicate Stamped(es: seq<Entry>, ms: seq<Message>) {
    |es| == |ms| &&
    forall i :: 0 <= i < |es| ==> ms[i].header.Fields? && es[i].message == Stamp(ms[i], es[i].id)
  }

  lemma StepKeepsList(f: Format, s: Store, e: Event)
    requires f.Valid() && Possible(f, s, e) && Recover(f, s.files, s.path) == Some(s.list)
    ensures var t := Next(f, s, e);
            Recover(f, t.files, t.path) == Some(t.list) && s.list <= t.list && Grown(s.files, t.files)
  {
    hide Recover, Writable, MakeAccessId, Frame;
    match e
    case Restart(path) => CreatedKeepsList(f, s.files, path, s.path);
    case Append(m) => AppendedExtendsList(f, s.files, s.path, Stamp(m, NextId(f, s)));
  }

  // After any appends over any restarts, opening the last segment replays exactly the records the first
  // chain held followed by all that were appended, in order.
  lemma {:induction false} RunsKeepList(f: Format, s: Store, events: seq<Event>)
    requires f.Valid() && Playable(f, s, events) && Recover(f, s.files, s.path) == Some(s.list)
    ensures var t := Play(f, s, events);
            && Recover(f, t.files, t.path) == Some(t.list) && Grown(s.files, t.files)
            && s.list <= t.list && Stamped(t.list[|s.list|..], Appends(events))
    decreases |events|
  {
    hide Recover, Grown, Possible, Next, Stamped;
    GrownIsOrder(s.files, s.files, s.files);
    if events == [] {
      assert s.list[|s.list|..] == [];
      NothingStamped();
    } else {
      var u := Next(f, s, events[0]);
      StepKeepsList(f, s, events[0]);
      RunsKeepList(f, u, events[1..]);
      var t := Play(f, u, events[1..]);
      GrownIsOrder(s.files, u.files, t.files);
      StampedMore(f, s, events, t.list);
    }
  }

  lemma NothingStamped()
    ensures Stamped([], [])
  {
  }

  lemma StampedMore(f: Format, s: Store, events: seq<Event>, list: seq<Entry>)
    requires events != [] && Possible(f, s, events[0])
    requires var u := Next(f, s, events[0]); u.list <= list && Stamped(list[|u.list|..], Appends(events[1..]))
    ensures s.list <= list && Stamped(list[|s.list|..], Appends(events))
  {
    hide Next, Possible, Stamped;
    NextListIs(f, s, events[0]);
    var u := Next(f, s, events[0]);
    if events[0].Append? {
      assert list[|s.list|] == u.list[|s.list|];
      assert list[|s.list|..] == [list[|s.list|]] + list[|u.list|..];
      StampedCons(list[|s.list|], list[|u.list|..], events[0].message, Appends(events[1..]));
    } else {
      assert [] + Appends(events[1..]) == Appends(events[1..]);
    }
  }

  lemma NextListIs(f: Format, s: Store, e: Event)
    requires Possible(f, s, e)
    ensures e.Restart? ==> Next(f, s, e).list == s.list
    ensures e.Append? ==>
              && e.message.header.Fields?
              && exists id: Int64 :: Next(f, s, e).list == s.list + [Entry(id, Stamp(e.message, id))]
  {
    hide Writable, Frame, Discover, NextId;
  }

  lemma StampedCons(e: Entry, es: seq<Entry>, m: Message, ms: seq<Message>)
    requires Stamped(es, ms) && m.header.Fields? && e.message == Stamp(m, e.id)
    ensures Stamped([e] + es, [m] + ms)
  {
  }

  lemma GrownIsOrder(a: Files, b: Files, c: Files)
    ensures Grown(a, a)
    ensures Grown(a, b) && Grown(b, c) ==> Grown(a, c)
  {
    if Grown(a, b) && Grown(b, c) {
      forall path | path in a
        ensures path in c && a[path] <= c[path]
      {
        assert a[path] <= b[path] <= c[path];
      }
    }
  }

  // Started on any files with no journal to resume, a run ends with an ordered index of all it appended,
  // and what was readable half-way is readable under the same ids at the end.
  lemma JournalIsAList(f: Format, files: Files, events: seq<Event>, more: seq<Event>)
    requires f.Valid() && Playable(f, Store(files, "", []), events)
    requires Playable(f, Play(f, Store(files, "", []), events), more)
    ensures var half := Play(f, Store(files, "", []), events);
            var end := Play(f, half, more);
            && Recover(f, half.files, half.path) == Some(half.list) && Recover(f, end.files, end.path) == Some(end.list)
            && half.list <= end.list && InOrder(end.list)
            && Stamped(half.list, Appends(events)) && Stamped(end.list[|half.list|..], Appends(more))
            && Indexes(f, end.files, Discover(f, end.files, end.path, {}).value, end.list)
            && Indexes(f, end.files, Discover(f, half.files, half.path, {}).value, half.list)
  {
    hide Playable, Play, Discover, Indexes, InOrder, Grown, Stamped, Appends;
    var start := Store(files, "", []);
    assert Recover(f, files, "") == Some([]) by { RecoverNothing(f, files); }
    RunsKeepList(f, start, events);
    var half := Play(f, start, events);
    assert half.list[|start.list|..] == half.list;
    RunsKeepList(f, half, more);
    var end := Play(f, half, more);
    ListIsIndexed(f, end.files, end.path);
    IdsOutliveGrowth(f, half.files, end.files, half.path);
  }

  lemma RecoverNothing(f: Format, files: Files)
    ensures Recover(f, files, "") == Some([])
  {
    var none: seq<string> := [];
    assert ScanAll(f, files, none) == Some([]);
  }

  // ----- the journal object

  class Disk {
    var files: Files

    constructor (files: Files)
      ensures this.files == files
    {
      this.files := files;
    }
  }

  // What the replay callback has been given.
  class Replay {
    var received: seq<Entry>

    constructor ()
      ensures received == []
    {
      received := [];
    }
  }

  lemma {:induction false} ScanAllPrefix(f: Format, files: Files, paths: seq<string>, k: nat)
    requires |paths| <= SEGMENT_SPAN && k <= |paths| && ScanAll(f, files, paths).Some?
    ensures ScanAll(f, files, paths[..k]).Some?
    ensures k < |paths| ==> paths[k] in files && Scan(f, files[paths[k]], k, 0).Some?
  {
    if k == |paths| {
      assert paths[..k] == paths;
    } else {
      assert paths[..|paths| - 1][..k] == paths[..k];
      ScanAllPrefix(f, files, paths[..|paths| - 1], k);
    }
  }

  // A descriptor keeps naming the file it was opened on, so it is modelled by the path.
  class Journal {
    const format: Format
    const disk: Disk
    var fds: seq<string>
    var lastSegment: nat
    var offset: nat
    var readOnly: bool

    ghost predicate Valid()
      reads this, disk
    {
      && |fds| > 0 && lastSegment == |fds| - 1 && fds[lastSegment] in disk.files
      && Discover(format, disk.files, fds[lastSegment], {}) == Some(fds)
      && Recover(format, disk.files, fds[lastSegment]).Some?
      && (!readOnly ==> offset == |disk.files[fds[lastSegment]]| > 0)
    }

    // Everything in the journal, oldest first.
    ghost function List(): seq<Entry>
      requires Valid()
      reads this, disk
    {
      Recover(format, disk.files, fds[lastSegment]).value
    }

    constructor (format: Format, disk: Disk, journalPath: string, resumePath: string, replay: Replay)
      requires format.Valid() && Recover(format, disk.files, resumePath).Some?
      requires journalPath == "" ==> resumePath != ""
      requires journalPath != "" ==> Possible(format, Store(disk.files, resumePath, []), Restart(journalPath))
      modifies disk, replay
      ensures Valid() && this.disk == disk && this.format == format && readOnly == (journalPath == "")
      ensures disk.files == if readOnly then old(disk.files)
              else Created(format, old(disk.files), journalPath, resumePath)
      ensures fds[lastSegment] == if readOnly then resumePath else journalPath
      ensures List() == Recover(format, old(disk.files), resumePath).value
      ensures replay.received == old(replay.received) + List()
    {
      this.format, this.disk := format, disk;
      readOnly := journalPath == "";
      fds, lastSegment, offset := [], 0, 0;
      new;
      hide *;
      if journalPath != "" {
        StartSegment(journalPath, resumePath);
        Open(journalPath, replay);
      } else {
        Open(resumePath, replay);
      }
    }

    method StartSegment(journalPath: string, resumePath: string)
      requires format.Valid() && journalPath != "" && Recover(format, disk.files, resumePath).Some?
      requires Possible(format, Store(disk.files, resumePath, []), Restart(journalPath))
      modifies disk
      ensures Writable(format, RootRecord(resumePath))
              && disk.files == Created(format, old(disk.files), journalPath, resumePath)
      ensures Recover(format, disk.files, journalPath) == Recover(format, old(disk.files), resumePath)
      ensures journalPath in disk.files && |disk.files[journalPath]| > 0
    {
      hide ReadAt, ScanAll, Scan, Discover, Frame, MakeAccessId, Writable;
      CreatedKeepsList(format, disk.files, journalPath, resumePath);
      CreateNewSegment(journalPath, resumePath);
    }

    method Open(path: string, replay: Replay)
      requires path != "" && Recover(format, disk.files, path).Some?
      requires !readOnly ==> path in disk.files && |disk.files[path]| > 0
      modifies this`fds, this`lastSegment, this`offset, replay
      ensures Valid() && fds[lastSegment] == path
      ensures replay.received == old(replay.received) + List()
    {
      hide PrevOf, ScanAll;
      ChainIsDistinct(format, disk.files, path, {});
      DiscoverChain(path);
      ReplayChain(path, replay);
      lastSegment := |fds| - 1;
      if !readOnly {
        offset := |disk.files[path]|;
      }
    }

    method CreateNewSegment(journalPath: string, resumePath: string)
      requires journalPath !in disk.files && Writable(format, RootRecord(resumePath))
      modifies disk
      ensures disk.files == Created(format, old(disk.files), journalPath, resumePath)
    {
      disk.files := disk.files[journalPath := Frame(format, RootRecord(resumePath))];
    }

    // Follows the roots backwards; the check that no path is seen twice holds on every chain that opens.
    method DiscoverChain(resumePath: string)
      requires Discover(format, disk.files, resumePath, {}).Some?
      modifies this`fds
      ensures fds == Discover(format, disk.files, resumePath, {}).value
    {
      hide ReadAt, Discover;
      var files, path, seen, found := disk.files, resumePath, {}, [];
      ghost var whole := Discover(format, files, resumePath, {}).value;
      assert whole + found == whole;
      ChainEndsEmpty(format, files);
      while path != ""
        invariant Discover(format, files, path, seen).Some?
        invariant Discover(format, files, path, seen).value + found == whole
        decreases files.Keys - seen
      {
        ChainStep(format, files, path, seen);
        assert path !in seen;
        var root := ReadAt(format, files[path], 0).value.0;
        ghost var older := Discover(format, files, root.header.prev, seen + {path}).value;
        assert older + [path] + found == older + ([path] + found);
        seen := seen + {path};
        found := [path] + found;
        path := root.header.prev;
      }
      fds := found;
    }

    method ReplayChain(ghost path: string, replay: Replay)
      requires Discover(format, disk.files, path, {}) == Some(fds) && Recover(format, disk.files, path).Some?
      modifies replay
      ensures replay.received == old(replay.received) + Recover(format, disk.files, path).value
    {
      hide Discover, ReadAt, MakeAccessId;
      var segment := 0;
      while segment < |fds|
        invariant segment <= |fds| && ScanAll(format, disk.files, fds[..segment]).Some?
        invariant replay.received == old(replay.received) + ScanAll(format, disk.files, fds[..segment]).value
      {
        ScanAllPrefix(format, disk.files, fds, segment);
        ReplaySegment(segment, replay);
        assert fds[..segment + 1][..segment] == fds[..segment];
        segment := segment + 1;
      }
      assert fds[..segment] == fds;
    }

    method ReplaySegment(segment: nat, replay: Replay)
      requires segment < |fds| && segment < SEGMENT_SPAN && fds[segment] in disk.files
      requires Scan(format, disk.files[fds[segment]], segment, 0).Some?
      modifies replay
      ensures replay.received == old(replay.received) + Scan(format, disk.files[fds[segment]], segment, 0).value
    {
      hide ReadAt, MakeAccessId;
      var file := disk.files[fds[segment]];
      var off := 0;
      while off < |file|
        invariant off <= |file| && Scan(format, file, segment, off).Some?
        invariant replay.received + Scan(format, file, segment, off).value ==
                  old(replay.received) + Scan(format, file, segment, 0).value
        decreases |file| - off
      {
        var (message, readSize) := ReadAt(format, file, off).value;
        if off > 0 {
          replay.received := replay.received + [Entry(MakeAccessId(segment, off), message)];
        }
        off := off + readSize;
      }
    }

    // Read-only journals drop the record; others stamp it with its id and write it at the end.
    method Append(m: Message) returns (id: Int64, stamped: Message)
      requires Valid() && format.Valid() && m.header.Fields?
      requires !readOnly ==>
                 && lastSegment < SEGMENT_SPAN && offset < OFFSET_SPAN
                 && Writable(format, Stamp(m, MakeAccessId(lastSegment, offset)))
      modifies this`offset, disk
      ensures Valid()
      ensures readOnly ==> id == NO_ACCESS_ID && stamped == m && disk.files == old(disk.files)
      ensures !readOnly ==> id == MakeAccessId(lastSegment, old(offset)) && stamped == Stamp(m, id)
      ensures !readOnly ==> List() == old(List()) + [Entry(id, stamped)]
      ensures !readOnly ==> forall e :: e in old(List()) ==> e.id < id
      ensures !readOnly ==> disk.files == Appended(format, old(disk.files), fds[lastSegment], stamped)
    {
      hide ReadAt, Discover, Recover;
      if readOnly {
        return NO_ACCESS_ID, m;
      }
      id := MakeAccessId(lastSegment, offset);
      stamped := Stamp(m, id);
      ghost var before := disk.files;
      ghost var path := fds[lastSegment];
      assert path != "" by { ChainEnds(format, before, path, fds); }
      AppendedExtendsList(format, before, path, stamped);
      disk.files := disk.files[fds[lastSegment] := disk.files[fds[lastSegment]] + Frame(format, stamped)];
      offset := offset + |Frame(format, stamped)|;
      ListIsIndexed(format, disk.files, path);
      LastIsLargest(old(List()), Entry(id, stamped));
    }

    method Read(id: Int64) returns (m: Message)
      requires Valid() && id != NO_ACCESS_ID && Lookup(format, disk.files, fds, id).Some?
      ensures Some(m) == Lookup(format, disk.files, fds, id)
      ensures forall e :: e in List() && (id == e.id || id == MarkReceiving(e.id)) ==> m == e.message
    {
      var segment, off := SegmentOf(id), OffsetOf(id);
      var (message, size) := ReadAt(format, disk.files[fds[segment]], off).value;
      m := message;
      ListIsIndexed(format, disk.files, fds[lastSegment]);
    }
  }

  lemma ChainEnds(f: Format, files: Files, path: string, paths: seq<string>)
    requires Discover(f, files, path, {}) == Some(paths) && |paths| > 0
    ensures path != ""
  {
  }

  lemma LastIsLargest(es: seq<Entry>, e: Entry)
    requires InOrder(es + [e])
    ensures forall x :: x in es ==> x.id < e.id
  {
    forall x | x in es
      ensures x.id < e.id
    {
      var i :| 0 <= i < |es| && es[i] == x;
      assert (es + [e])[i] == x && (es + [e])[|es|] == e;
    }
  }
}
