// Replaying an agent's history to a freshly started adapter.
module Recall {
  import opened AccessIds
  import opened World
  import opened History

  datatype Sent = BeginMemory | Recalled(id: Int64, receiving: bool) | EndMemory

  // The part of a history that was journalled before end, in order, as an adapter receives it.
  function RecalledBefore(history: seq<Int64>, end: int): seq<Sent> {
    if history == [] then []
    else
      var last := history[|history| - 1];
      RecalledBefore(history[..|history| - 1], end)
      + (if UnmarkReceiving(last) < end then [Recalled(UnmarkReceiving(last), IsReceiving(last))] else [])
  }

  lemma RecallConcat(s: seq<Int64>, t: seq<Int64>, end: int)
    ensures RecalledBefore(s + t, end) == RecalledBefore(s, end) + RecalledBefore(t, end)
  {
    if t == [] {
      assert s + t == s;
    } else {
      assert (s + t)[..|s + t| - 1] == s + t[..|t| - 1];
      RecallConcat(s, t[..|t| - 1], end);
    }
  }

  predicate InOrder(sent: seq<Sent>, end: int, top: int) {
    && (forall i :: 0 <= i < |sent| ==> sent[i].Recalled? && sent[i].id < end && sent[i].id <= top)
    && (forall i, j :: 0 <= i < j < |sent| ==> sent[i].id <= sent[j].id)
  }

  // What is recalled comes out in non-decreasing id order, all of it before end.
  lemma {:induction false} RecallIsOrdered(history: seq<Int64>, end: int, top: int)
    requires Ordered(history)
    requires forall i :: 0 <= i < |history| ==> UnmarkReceiving(history[i]) <= top
    ensures InOrder(RecalledBefore(history, end), end, top)
    decreases |history|
  {
    if history != [] {
      var last := UnmarkReceiving(history[|history| - 1]);
      RecallIsOrdered(history[..|history| - 1], end, last);
    }
  }

  // The memory entry that a recalled message stands for.
  function EntryOf(sent: Sent): Int64
    requires sent.Recalled?
  {
    if sent.receiving then MarkReceiving(sent.id) else sent.id
  }

  lemma EntryIsSplit(entry: Int64)
    ensures EntryOf(Recalled(UnmarkReceiving(entry), IsReceiving(entry))) == entry
  {
  }

  // What is recalled is the history itself, message by message and with its direction, up to the first entry that was
  // journalled at end or later.
  lemma {:induction false} RecallIsHistory(history: seq<Int64>, end: int)
    requires Ordered(history)
    ensures var sent, n := RecalledBefore(history, end), |RecalledBefore(history, end)|;
            && n <= |history|
            && (forall i :: 0 <= i < n ==> sent[i].Recalled? && EntryOf(sent[i]) == history[i])
            && (forall i :: 0 <= i < n ==> UnmarkReceiving(history[i]) < end)
            && (forall i :: n <= i < |history| ==> UnmarkReceiving(history[i]) >= end)
    decreases |history|
  {
    hide UnmarkReceiving, IsReceiving, EntryOf;
    if history != [] {
      RecallIsHistory(history[..|history| - 1], end);
      EntryIsSplit(history[|history| - 1]);
    }
  }

  // An entry is recalled exactly when it was journalled before end.
  lemma {:induction false} RecalledExactly(history: seq<Int64>, end: int, entry: Int64)
    ensures entry in history && UnmarkReceiving(entry) < end <==>
            exists sent <- RecalledBefore(history, end) :: sent.Recalled? && sent.id < end && EntryOf(sent) == entry
    decreases |history|
  {
    hide UnmarkReceiving, IsReceiving, EntryOf;
    if history != [] {
      var older, last := history[..|history| - 1], history[|history| - 1];
      RecalledExactly(older, end, entry);
      EntryIsSplit(last);
      assert history == older + [last];
      assert UnmarkReceiving(last) < end ==>
          Recalled(UnmarkReceiving(last), IsReceiving(last)) in RecalledBefore(history, end);
    }
  }

  lemma {:induction false} WholeHistoryIsOrdered(w: World, a: AgentId, bound: int)
    requires MemoryOk(w, bound) && w.IsAgent(a)
    ensures Ordered(HistoryOf(w, a))
  {
    assert AgentMemoryOk(w, a, bound);
    HistoryIsOrdered(w, w.agents[a].params.link, bound);
  }

  predicate LinksInRange(w: World, links: seq<AgentLink>) {
    forall i :: 0 <= i < |links| ==> w.IsAgent(links[i].parent)
  }

  // The cut memories along links, last link first.
  function Segments(w: World, links: seq<AgentLink>): seq<Int64>
    requires LinksInRange(w, links)
  {
    if links == [] then []
    else
      var last := links[|links| - 1];
      Cut(w.agents[last.parent].memory, last.anchor) + Segments(w, links[..|links| - 1])
  }

  lemma CutStops(memory: seq<Int64>, j: nat, anchor: int)
    requires Ordered(memory) && j < |memory| && UnmarkReceiving(memory[j]) > anchor
    ensures Cut(memory, anchor) == Cut(memory[..j], anchor)
  {
    hide Cut;
    CutNone(memory[j..], anchor);
    CutConcat(memory[..j], memory[j..], anchor);
    assert memory == memory[..j] + memory[j..];
  }

  // One memory, sent up to its anchor: the early exit skips nothing because the memory is ordered.
  method SendSegment(memory: seq<Int64>, anchor: int, end: int) returns (sent: seq<Sent>)
    requires Ordered(memory)
    ensures sent == RecalledBefore(Cut(memory, anchor), end)
  {
    sent := [];
    var j := 0;
    while j < |memory|
      invariant 0 <= j <= |memory|
      invariant sent == RecalledBefore(Cut(memory[..j], anchor), end)
    {
      var messageId := UnmarkReceiving(memory[j]);
      if messageId > anchor {
        CutStops(memory, j, anchor);
        return;
      }
      assert memory[..j + 1][..j] == memory[..j];
      RecallConcat(Cut(memory[..j], anchor), [memory[j]], end);
      assert [memory[j]][..0] == [];
      assert RecalledBefore([memory[j]], end) ==
             if messageId < end then [Recalled(messageId, IsReceiving(memory[j]))] else [];
      if messageId < end {
        sent := sent + [Recalled(messageId, IsReceiving(memory[j]))];
      }
      j := j + 1;
    }
    assert memory[..j] == memory;
  }

  lemma LinkAdded(w: World, links: seq<AgentLink>, link: AgentLink)
    requires Lineage(w) && LinksInRange(w, links) && w.IsAgent(link.parent)
    ensures LinksInRange(w, links + [link])
    ensures HistoryAt(w, link) + Segments(w, links) ==
            HistoryAt(w, w.agents[link.parent].params.link) + Segments(w, links + [link])
  {
    assert (links + [link])[..|links|] == links;
  }

  lemma SegmentTaken(w: World, links: seq<AgentLink>, i: nat, end: int)
    requires LinksInRange(w, links) && i < |links|
    ensures RecalledBefore(Segments(w, links[..i + 1]), end) ==
            RecalledBefore(Cut(w.agents[links[i].parent].memory, links[i].anchor), end)
            + RecalledBefore(Segments(w, links[..i]), end)
  {
    assert links[..i + 1][..i] == links[..i];
    RecallConcat(Cut(w.agents[links[i].parent].memory, links[i].anchor), Segments(w, links[..i]), end);
  }

  // The CHECK on the anchors an agent's history is sent up to, its own latest id first.
  predicate DescentReadable(w: World, a: AgentId)
    requires Lineage(w) && w.IsAgent(a)
    decreases a
  {
    var link := w.agents[a].params.link;
    link.parent != NOT_AN_AGENT ==> !IsReceiving(link.anchor) && DescentReadable(w, link.parent)
  }

  predicate AnchorsReadable(w: World, a: AgentId)
    requires Lineage(w) && w.IsAgent(a)
  {
    !IsReceiving(w.agents[a].Anchor()) && DescentReadable(w, a)
  }

  // Up to its own anchor an agent's memory is cut to the whole of it.
  lemma OwnMemoryFirst(w: World, a: AgentId)
    requires Lineage(w) && w.IsAgent(a) && w.agents[a].id == a && Ordered(w.agents[a].memory)
    ensures var links := [AgentLink(w.agents[a].id, w.agents[a].Anchor())];
            && LinksInRange(w, links)
            && HistoryOf(w, a) == HistoryAt(w, w.agents[a].params.link) + Segments(w, links)
  {
    var memory := w.agents[a].memory;
    var links := [AgentLink(w.agents[a].id, w.agents[a].Anchor())];
    if memory != [] {
      CutAll(memory, UnmarkReceiving(memory[|memory| - 1]));
    }
    assert links[..0] == [] && Segments(w, links[..0]) == [];
    assert Segments(w, links) == memory + [];
  }

  // The links from an agent to its oldest ancestor.
  method CollectLinks(w: World, a: AgentId) returns (links: seq<AgentLink>)
    requires Lineage(w) && w.IsAgent(a) && w.agents[a].id == a && Ordered(w.agents[a].memory) && AnchorsReadable(w, a)
    ensures forall i :: 0 <= i < |links| ==> !IsReceiving(links[i].anchor)
    ensures LinksInRange(w, links) && Segments(w, links) == HistoryOf(w, a)
  {
    hide HistoryOf, HistoryAt, Segments, IsReceiving, Ordered;
    links := [AgentLink(w.agents[a].id, w.agents[a].Anchor())];
    var cur := a;
    OwnMemoryFirst(w, a);
    while w.agents[cur].params.link.parent != NOT_AN_AGENT
      invariant w.IsAgent(cur) && LinksInRange(w, links) && DescentReadable(w, cur)
      invariant forall i :: 0 <= i < |links| ==> !IsReceiving(links[i].anchor)
      invariant HistoryOf(w, a) == HistoryAt(w, w.agents[cur].params.link) + Segments(w, links)
      decreases cur
    {
      var link := w.agents[cur].params.link;
      LinkAdded(w, links, link);
      links := links + [link];
      cur := link.parent;
    }
    NoLinkNoHistory(w, w.agents[cur].params.link);
  }

  lemma NoLinkNoHistory(w: World, link: AgentLink)
    requires Lineage(w) && link.parent == NOT_AN_AGENT
    ensures HistoryAt(w, link) == []
  {
  }

  // The memories along the links, last link first.
  method SendLinks(w: World, links: seq<AgentLink>, end: int) returns (recalled: seq<Sent>)
    requires Lineage(w) && LinksInRange(w, links)
    requires forall a :: 0 <= a < |w.agents| ==> Ordered(w.agents[a].memory)
    requires forall i :: 0 <= i < |links| ==> !IsReceiving(links[i].anchor)
    ensures recalled == RecalledBefore(Segments(w, links), end)
  {
    recalled := [];
    var i := |links|;
    assert links[..i] == links;
    assert RecalledBefore(Segments(w, links[..0]), end) == [];
    hide Segments, RecalledBefore, Cut, Ordered, Lineage, IsReceiving;
    while i > 0
      invariant 0 <= i <= |links|
      invariant RecalledBefore(Segments(w, links), end) == recalled + RecalledBefore(Segments(w, links[..i]), end)
    {
      i := i - 1;
      var link := links[i];
      assert !IsReceiving(link.anchor);   // the CHECK of the loop
      var segment := SendSegment(w.agents[link.parent].memory, link.anchor, end);
      SegmentTaken(w, links, i, end);
      recalled := recalled + segment;
    }
  }

  // Sends the whole history before end, oldest ancestor first.
  method UpdateMemory(w: World, a: AgentId, end: int) returns (sent: seq<Sent>)
    requires Lineage(w) && w.IsAgent(a) && w.agents[a].id == a
    requires forall b :: 0 <= b < |w.agents| ==> Ordered(w.agents[b].memory)
    requires w.HasFlag(a, Memory) ==> AnchorsReadable(w, a)
    ensures !w.HasFlag(a, Memory) ==> sent == []
    ensures w.HasFlag(a, Memory) ==>
              sent == [BeginMemory] + RecalledBefore(HistoryOf(w, a), end) + [EndMemory]
  {
    if Memory !in w.agents[a].params.flags {
      return [];
    }
    var links := CollectLinks(w, a);
    var recalled := SendLinks(w, links, end);
    sent := [BeginMemory] + recalled + [EndMemory];
  }

  // In every such state an adapter is told its agent's history, as far as it goes before end.
  lemma {:induction false} AgentRecallsHistory(w: World, a: AgentId, bound: int, end: int)
    requires MemoryOk(w, bound) && w.IsAgent(a)
    ensures var history, sent := HistoryOf(w, a), RecalledBefore(HistoryOf(w, a), end);
            && |sent| <= |history|
            && (forall i :: 0 <= i < |sent| ==> sent[i].Recalled? && EntryOf(sent[i]) == history[i])
            && (forall i :: 0 <= i < |history| ==> (i < |sent| <==> UnmarkReceiving(history[i]) < end))
  {
    hide RecalledBefore, HistoryOf, UnmarkReceiving, EntryOf;
    WholeHistoryIsOrdered(w, a, bound);
    RecallIsHistory(HistoryOf(w, a), end);
  }

  // In every state whose links all point back, the CHECK passes and memories are in order.
  lemma {:induction false} MemoryIsRecallable(w: World, a: AgentId, bound: int)
    requires MemoryOk(w, bound) && w.IsAgent(a)
    ensures AnchorsReadable(w, a) && Ordered(w.agents[a].memory)
    decreases a
  {
    assert AgentMemoryOk(w, a, bound);
    if w.agents[a].params.link.parent != NOT_AN_AGENT {
      MemoryIsRecallable(w, w.agents[a].params.link.parent, bound);
    }
  }
}
