// Records keep memories ordered and only ever append to them.
module Memories {
  import opened AccessIds
  import opened World
  import opened Transition
  import opened Soundness
  import opened Growth
  import opened History

  lemma {:induction false} FloorSame(w: World, w': World, link: AgentLink)
    requires Lineage(w) && Lineage(w') && NOT_AN_AGENT <= link.parent < |w.agents| <= |w'.agents|
    requires forall a :: 0 <= a < |w.agents| ==> w'.agents[a].params.link == w.agents[a].params.link
    ensures Floor(w', link) == Floor(w, link)
    decreases link.parent
  {
    if link.parent != NOT_AN_AGENT {
      FloorSame(w, w', w.agents[link.parent].params.link);
    }
  }

  lemma {:induction false} FloorBelow(w: World, link: AgentLink, bound: int)
    requires MemoryOk(w, bound) && LinkOk(w, link, bound) && bound >= 0
    ensures Floor(w, link) < bound
    decreases link.parent
  {
    if link.parent != NOT_AN_AGENT {
      assert AgentMemoryOk(w, link.parent, bound);
      FloorBelow(w, w.agents[link.parent].params.link, bound);
    }
  }

  lemma AppendRemembered(memory: seq<Int64>, extra: seq<Int64>, low: int, id: Int64, bound: int)
    requires Ordered(memory) && Within(memory, low, bound) && Issued(id) && low < bound <= id
    requires forall i :: 0 <= i < |extra| ==> extra[i] == id || extra[i] == MarkReceiving(id)
    ensures Ordered(memory + extra) && Within(memory + extra, low, id + 1)
    ensures forall i :: |memory| <= i < |memory + extra| ==> UnmarkReceiving((memory + extra)[i]) == id
  {
    ReceivingLaws(id, id);
  }

  lemma {:induction false} ApplyKeepsMemory(w: World, id: Int64, tags: set<string>, ctx: Context, bound: int)
    requires MemoryOk(w, bound) && Applicable(w, ctx) && 0 <= bound <= id && Issued(id)
    ensures var w' := ApplyMessage(w, id, tags, ctx);
            MemoryOk(w', id + 1) && Later(w, w', bound)
  {
    var w' := ApplyMessage(w, id, tags, ctx);
    forall a | 0 <= a < |w'.agents|
      ensures AgentMemoryOk(w', a, id + 1)
      ensures |w.agents[a].memory| <= |w'.agents[a].memory|
      ensures w'.agents[a].memory[..|w.agents[a].memory|] == w.agents[a].memory
      ensures forall i :: |w.agents[a].memory| <= i < |w'.agents[a].memory| ==>
                bound <= UnmarkReceiving(w'.agents[a].memory[i])
    {
      var link := w.agents[a].params.link;
      assert AgentMemoryOk(w, a, bound);
      FloorSame(w, w', link);
      FloorBelow(w, link, bound);
      var extra := if ctx.action == DATA then (if a == ctx.from.agent then [id] else [])
                   else Remembered(a, id, ctx.from.agent, Recipient(w, ctx));
      assert w'.agents[a].memory == w.agents[a].memory + extra;
      AppendRemembered(w.agents[a].memory, extra, Floor(w, link), id, bound);
    }
    forall name | name in w'.snapshots
      ensures SnapshotLinksOk(w', w'.snapshots[name], id + 1)
    {
      assert SnapshotLinksOk(w, w.snapshots[name], bound);
    }
  }

  // Growing the tables: old agents as they were, new ones without memory.
  lemma KeepsMemory(w: World, w': World, bound: int)
    requires MemoryOk(w, bound) && Lineage(w')
    requires |w.agents| <= |w'.agents| && w'.agents[..|w.agents|] == w.agents
    requires forall a :: |w.agents| <= a < |w'.agents| ==>
               LinkOk(w', w'.agents[a].params.link, bound) && w'.agents[a].memory == []
    requires forall name <- w'.snapshots :: (name in w.snapshots && w'.snapshots[name] == w.snapshots[name])
               || SnapshotLinksOk(w', w'.snapshots[name], bound)
    ensures MemoryOk(w', bound) && Later(w, w', bound)
  {
    assert forall a :: 0 <= a < |w.agents| ==> w'.agents[a] == w'.agents[..|w.agents|][a];
    forall a | 0 <= a < |w'.agents|
      ensures AgentMemoryOk(w', a, bound)
    {
      if a < |w.agents| {
        assert AgentMemoryOk(w, a, bound);
        FloorSame(w, w', w.agents[a].params.link);
      }
    }
    forall name | name in w'.snapshots
      ensures SnapshotLinksOk(w', w'.snapshots[name], bound)
    {
      assert name in w.snapshots ==> SnapshotLinksOk(w, w.snapshots[name], bound);
    }
  }

  // A hand-written link must not point past what has been journalled.
  predicate Timely(op: Op, bound: int) {
    op.CreateAgent? ==> AnchorOk(op.params.link.anchor, bound)
  }

  lemma NewAgentsKeepMemory(w: World, params: seq<AgentParams>, d: DomainId, bound: int)
    requires MemoryOk(w, bound) && w.IsDomain(d)
    requires forall i :: 0 <= i < |params| ==> LinkOk(w, params[i].link, bound) && w.IsAgent(params[i].link.parent)
    ensures MemoryOk(AddAgents(w, params, d), bound) && Later(w, AddAgents(w, params, d), bound)
  {
    var w' := AddAgents(w, params, d);
    forall a | 0 <= a < |w'.agents|
      ensures w'.agents[a].params.link.parent < a && LinkOk(w', w'.agents[a].params.link, bound)
    {
      assert a < |w.agents| ==> AgentMemoryOk(w, a, bound);
    }
    KeepsMemory(w, w', bound);
  }

  lemma SnapshotKeepsMemory(w: World, name: string, d: DomainId, bound: int)
    requires MemoryOk(w, bound) && Sound(w) && DomainReadable(w, d)
    ensures MemoryOk(w.(snapshots := w.snapshots[name := SnapshotOf(w, d, name)]), bound)
  {
    var w' := w.(snapshots := w.snapshots[name := SnapshotOf(w, d, name)]);
    var members := w.domains[d].members;
    forall i | 0 <= i < |members|
      ensures LinkOk(w', SnapshotOf(w, d, name).members[i].link, bound)
    {
      ForkStartsWithHistory(w, members[i].1, bound);
    }
    KeepsMemory(w, w', bound);
  }

  lemma InstanceKeepsMemory(w: World, p: DomainId, s: Snapshot, bound: int)
    requires MemoryOk(w, bound) && w.IsDomain(p) && Instantiable(s) && SnapshotLinksOk(w, s, bound)
    ensures MemoryOk(AddSnapshotDomain(w, s, p), bound) && Later(w, AddSnapshotDomain(w, s, p), bound)
  {
    var w1 := AddDomain(w, DefaultDomainName(w), p);
    KeepsMemory(w, w1, bound);
    NewAgentsKeepMemory(w1, s.members, |w.domains|, bound);
    KeepsMemory(AddAgents(w1, s.members, |w.domains|), AddSnapshotDomain(w, s, p), bound);
  }

  lemma {:induction false} CommitKeepsMemory(w: World, op: Op, bound: int)
    requires MemoryOk(w, bound) && Sound(w) && Issuable(w, op) && Timely(op, bound)
    ensures MemoryOk(CommitOp(w, op), bound) && Later(w, CommitOp(w, op), bound)
  {
    var w' := CommitOp(w, op);
    match op
    case CreateAgent(params, d) => NewAgentsKeepMemory(w, [params], d, bound);
    case CreateDomainFromSnapshot(p, name) =>
      InstanceKeepsMemory(w, p, w.snapshots[name], bound);
    case CreateSnapshot(name, d) => SnapshotKeepsMemory(w, name, d, bound);
    case _ => KeepsMemory(w, w', bound);
  }

}
