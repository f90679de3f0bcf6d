// An agent's history: what its ancestors remembered up to each fork, followed by its own memory.
// A fork starts with exactly its source's history and never sees anything later.
module History {
  import opened AccessIds
  import opened World

  // Entries up to an anchor, ignoring receiving bits.
  function Cut(memory: seq<Int64>, anchor: int): seq<Int64> {
    if memory == [] then []
    else
      var last := memory[|memory| - 1];
      Cut(memory[..|memory| - 1], anchor) + (if UnmarkReceiving(last) <= anchor then [last] else [])
  }

  predicate Lineage(w: World) {
    forall a :: 0 <= a < |w.agents| ==> NOT_AN_AGENT <= w.agents[a].params.link.parent < a
  }

  // What a fork with this link starts from.
  function HistoryAt(w: World, link: AgentLink): seq<Int64>
    requires Lineage(w) && NOT_AN_AGENT <= link.parent < |w.agents|
    decreases link.parent
  {
    if link.parent == NOT_AN_AGENT then []
    else HistoryAt(w, w.agents[link.parent].params.link) + Cut(w.agents[link.parent].memory, link.anchor)
  }

  function Inherited(w: World, a: AgentId): seq<Int64>
    requires Lineage(w) && w.IsAgent(a)
  {
    HistoryAt(w, w.agents[a].params.link)
  }

  function HistoryOf(w: World, a: AgentId): seq<Int64>
    requires Lineage(w) && w.IsAgent(a)
  {
    Inherited(w, a) + w.agents[a].memory
  }

  // ----- the order of ids

  predicate Ordered(memory: seq<Int64>) {
    forall i, j :: 0 <= i < j < |memory| ==> UnmarkReceiving(memory[i]) <= UnmarkReceiving(memory[j])
  }

  predicate Within(memory: seq<Int64>, low: int, bound: int) {
    forall i :: 0 <= i < |memory| ==>
      low < UnmarkReceiving(memory[i]) < bound && Issued(UnmarkReceiving(memory[i]))
  }

  // An anchor points at something already journalled, or nowhere.
  predicate AnchorOk(anchor: int, bound: int) {
    anchor == NO_ACCESS_ID || (Issued(anchor) && anchor < bound)
  }

  predicate LinkOk(w: World, link: AgentLink, bound: int) {
    NOT_AN_AGENT <= link.parent < |w.agents| && AnchorOk(link.anchor, bound)
  }

  // The latest anchor along a line of descent.
  function Floor(w: World, link: AgentLink): int
    requires Lineage(w) && NOT_AN_AGENT <= link.parent < |w.agents|
    decreases link.parent
  {
    if link.parent == NOT_AN_AGENT then link.anchor
    else
      var older := Floor(w, w.agents[link.parent].params.link);
      if older < link.anchor then link.anchor else older
  }

  // A memory is ordered, younger than every anchor of its agent's descent, and older than the next id to be issued.
  predicate AgentMemoryOk(w: World, a: AgentId, bound: int)
    requires Lineage(w) && w.IsAgent(a)
  {
    && LinkOk(w, w.agents[a].params.link, bound)
    && Ordered(w.agents[a].memory)
    && Within(w.agents[a].memory, Floor(w, w.agents[a].params.link), bound)
  }

  predicate SnapshotLinksOk(w: World, s: Snapshot, bound: int) {
    forall i :: 0 <= i < |s.members| ==> LinkOk(w, s.members[i].link, bound) && w.IsAgent(s.members[i].link.parent)
  }

  predicate MemoryOk(w: World, bound: int) {
    && Lineage(w)
    && (forall a :: 0 <= a < |w.agents| ==> AgentMemoryOk(w, a, bound))
    && (forall name <- w.snapshots :: SnapshotLinksOk(w, w.snapshots[name], bound))
  }

  lemma CutAll(memory: seq<Int64>, anchor: int)
    requires forall i :: 0 <= i < |memory| ==> UnmarkReceiving(memory[i]) <= anchor
    ensures Cut(memory, anchor) == memory
  {
    if memory != [] {
      CutAll(memory[..|memory| - 1], anchor);
    }
  }

  lemma CutNone(memory: seq<Int64>, anchor: int)
    requires forall i :: 0 <= i < |memory| ==> UnmarkReceiving(memory[i]) > anchor
    ensures Cut(memory, anchor) == []
  {
    if memory != [] {
      CutNone(memory[..|memory| - 1], anchor);
    }
  }

  lemma CutConcat(s: seq<Int64>, t: seq<Int64>, anchor: int)
    ensures Cut(s + t, anchor) == Cut(s, anchor) + Cut(t, anchor)
  {
    if t == [] {
      assert s + t == s;
    } else {
      assert (s + t)[..|s + t| - 1] == s + t[..|t| - 1];
      CutConcat(s, t[..|t| - 1], anchor);
    }
  }

  // A fork of agent a made now starts with exactly a's history, also when a has no memory of its own.
  lemma {:induction false} ForkStartsWithHistory(w: World, a: AgentId, bound: int)
    requires MemoryOk(w, bound) && w.IsAgent(a) && w.agents[a].id == a
    ensures HistoryAt(w, w.agents[a].Snapshot("").link) == HistoryOf(w, a)
    ensures LinkOk(w, w.agents[a].Snapshot("").link, bound)
  {
    var agent := w.agents[a];
    assert AgentMemoryOk(w, a, bound);
    if agent.memory != [] {
      forall i | 0 <= i < |agent.memory|
        ensures UnmarkReceiving(agent.memory[i]) <= agent.Anchor()
      {
        assert Ordered(agent.memory);
      }
      CutAll(agent.memory, agent.Anchor());
    }
  }

  // Memories of w' are those of w followed by ids at or above bound; links are kept.
  predicate Later(w: World, w': World, bound: int) {
    && |w.agents| <= |w'.agents|
    && (forall a :: 0 <= a < |w.agents| ==>
          && w'.agents[a].params.link == w.agents[a].params.link
          && |w.agents[a].memory| <= |w'.agents[a].memory|
          && w'.agents[a].memory[..|w.agents[a].memory|] == w.agents[a].memory
          && (forall i :: |w.agents[a].memory| <= i < |w'.agents[a].memory| ==>
               bound <= UnmarkReceiving(w'.agents[a].memory[i])))
  }

  // Nothing journalled after the fork ever enters the inherited part of its history.
  lemma {:induction false} ForkIsFrozen(w: World, w': World, link: AgentLink, bound: int)
    requires MemoryOk(w, bound) && LinkOk(w, link, bound) && Lineage(w') && Later(w, w', bound) && bound >= 0
    ensures HistoryAt(w', link) == HistoryAt(w, link)
    decreases link.parent
  {
    if link.parent != NOT_AN_AGENT {
      var p, p' := w.agents[link.parent], w'.agents[link.parent];
      assert AgentMemoryOk(w, link.parent, bound);
      ForkIsFrozen(w, w', p.params.link, bound);
      var extra := p'.memory[|p.memory|..];
      assert p'.memory == p.memory + extra;
      CutConcat(p.memory, extra, link.anchor);
      CutNone(extra, link.anchor);
    }
  }

  // create_agents also accepts a link written by hand. Its history is frozen exactly when its anchor lies
  // before the next id: otherwise a message its parent receives under that id is inherited too.
  lemma {:induction false} HandWrittenAnchorLeaks(w: World, w': World, link: AgentLink, id: Int64)
    requires Lineage(w) && 0 <= link.parent < |w.agents| && Issued(id)
    requires w' == w.(agents := w.agents[link.parent :=
               w.agents[link.parent].(memory := w.agents[link.parent].memory + [id])])
    ensures Lineage(w')
    ensures HistoryAt(w', link) == HistoryAt(w, link) <==> link.anchor < id
  {
    var p := w.agents[link.parent];
    CutConcat(p.memory, [id], link.anchor);
    assert [id][..0] == [];
    assert Cut([id], link.anchor) == if id <= link.anchor then [id] else [];
    SameBelow(w, w', p.params.link, link.parent);
  }

  // History through a link depends only on agents older than the one changed.
  lemma {:induction false} SameBelow(w: World, w': World, link: AgentLink, a: AgentId)
    requires Lineage(w) && Lineage(w') && NOT_AN_AGENT <= link.parent < a <= |w.agents| && |w.agents| <= |w'.agents|
    requires forall b :: 0 <= b < a ==>
               w'.agents[b].params.link == w.agents[b].params.link && w'.agents[b].memory == w.agents[b].memory
    ensures HistoryAt(w', link) == HistoryAt(w, link)
    decreases link.parent
  {
    if link.parent != NOT_AN_AGENT {
      SameBelow(w, w', w.agents[link.parent].params.link, a);
    }
  }

  lemma {:induction false} HistoryIsOrdered(w: World, link: AgentLink, bound: int)
    requires MemoryOk(w, bound) && LinkOk(w, link, bound)
    ensures Ordered(HistoryAt(w, link))
    ensures forall i :: 0 <= i < |HistoryAt(w, link)| ==>
              UnmarkReceiving(HistoryAt(w, link)[i]) <= Floor(w, link)
    decreases link.parent
  {
    if link.parent != NOT_AN_AGENT {
      var p := w.agents[link.parent];
      assert AgentMemoryOk(w, link.parent, bound);
      HistoryIsOrdered(w, p.params.link, bound);
      CutIsOrdered(p.memory, Floor(w, p.params.link), link.anchor);
    }
  }

  lemma CutIsOrdered(memory: seq<Int64>, low: int, anchor: int)
    requires Ordered(memory) && forall i :: 0 <= i < |memory| ==> low < UnmarkReceiving(memory[i])
    ensures Ordered(Cut(memory, anchor))
    ensures forall x <- Cut(memory, anchor) :: x in memory && low < UnmarkReceiving(x) <= anchor
  {
    if memory != [] {
      CutIsOrdered(memory[..|memory| - 1], low, anchor);
    }
  }
}
