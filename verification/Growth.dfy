// Structural operations: which of them the runtime issues, and what they keep.
module Growth {
  import opened World
  import opened Transition
  import opened Soundness

  // No call acts in domain d.
  predicate Unused(w: World, d: int) {
    forall t, i :: 0 <= t < |w.threads| && 0 <= i < |w.threads[t].stack| ==> w.threads[t].stack[i].to.domain != d
  }

  // The guards under which the runtime journals each operation: new agents descend from an existing one,
  // and a thread is only given to a domain just created with the default entry.
  predicate Issuable(w: World, op: Op) {
    && CommitOk(w, op)
    && match op
       case CreateAgent(params, _) => w.IsAgent(params.link.parent)
       case CreateThread(d) =>
         w.domains[d].entry == Entry(USER, RUNTIME) && w.domains[d].children == map[] && Unused(w, d)
       case _ => true
  }

  // w' has everything w has, unchanged where call stacks and endpoints look.
  predicate Extends(w: World, w': World) {
    && |w.agents| <= |w'.agents| && |w.domains| <= |w'.domains| && |w.threads| <= |w'.threads|
    && w'.agents[..|w.agents|] == w.agents
    && w'.threads[..|w.threads|] == w.threads
    && (forall d :: 0 <= d < |w.domains| ==>
          && w'.domains[d].entry == w.domains[d].entry && w'.domains[d].name == w.domains[d].name
          && w'.domains[d].parent == w.domains[d].parent)
  }

  lemma InScopeStays(w: World, w': World, e: Endpoint)
    requires Extends(w, w') && InScope(w, e)
    ensures InScope(w', e)
  {
    assert w'.agents[e.agent] == w.agents[e.agent];
  }

  lemma StacksStay(w: World, w': World)
    requires Sound(w) && Extends(w, w') && Roots(w')
    requires forall t :: |w.threads| <= t < |w'.threads| ==> w'.threads[t].stack == []
    ensures forall t :: 0 <= t < |w'.threads| ==> StackOk(w', t)
  {
    forall t | 0 <= t < |w'.threads|
      ensures StackOk(w', t)
    {
      if t < |w.threads| {
        assert w'.threads[t] == w.threads[t];
        assert StackOk(w, t);
        var stack := w.threads[t].stack;
        forall i | 0 <= i < |stack|
          ensures InScope(w', stack[i].from) && InScope(w', stack[i].to)
        {
          InScopeStays(w, w', stack[i].from);
          InScopeStays(w, w', stack[i].to);
        }
      }
    }
  }

  // ----- agents

  predicate Joinable(w: World, params: seq<AgentParams>, d: DomainId) {
    && w.IsDomain(d) && DistinctNames(params)
    && forall i :: 0 <= i < |params| ==> FindMember(w.domains[d].members, params[i].name).None?
  }

  lemma AddAgentsExtends(w: World, params: seq<AgentParams>, d: DomainId)
    requires w.IsDomain(d)
    ensures Extends(w, AddAgents(w, params, d))
  {
  }

  lemma JoinedMembersOk(w: World, params: seq<AgentParams>, d: DomainId)
    requires Joinable(w, params, d) && MembersOk(w, d)
    ensures MembersOk(AddAgents(w, params, d), d)
  {
    var w' := AddAgents(w, params, d);
    var members, n := w.domains[d].members, |w.domains[d].members|;
    var members' := w'.domains[d].members;
    forall i, j | 0 <= i < j < |members'|
      ensures members'[i].0 != members'[j].0
    {
      if i < n <= j {
        assert FindMember(members, params[j - n].name).None?;
        assert members[i] in members;
      }
    }
  }

  lemma AddAgentsKeepsTree(w: World, params: seq<AgentParams>, d: DomainId)
    requires Tree(w) && Joinable(w, params, d)
    ensures Tree(AddAgents(w, params, d))
  {
    var w' := AddAgents(w, params, d);
    AddAgentsExtends(w, params, d);
    forall x | 0 <= x < |w'.domains|
      ensures MembersOk(w', x)
    {
      assert MembersOk(w, x);
      if x == d {
        JoinedMembersOk(w, params, d);
      }
    }
    forall x | 0 <= x < |w'.domains|
      ensures ChildrenOk(w', x) && ParentOk(w', x) && EntryOk(w', x)
    {
      assert ChildrenOk(w, x) && ParentOk(w, x) && EntryOk(w, x);
      InScopeStays(w, w', Endpoint(w.domains[x].entry.from, x));
      InScopeStays(w, w', Endpoint(w.domains[x].entry.to, x));
    }
  }

  lemma AddAgentsKeepsSound(w: World, params: seq<AgentParams>, d: DomainId)
    requires Sound(w) && Joinable(w, params, d)
    ensures Extends(w, AddAgents(w, params, d)) && Sound(AddAgents(w, params, d))
  {
    AddAgentsExtends(w, params, d);
    AddAgentsKeepsTree(w, params, d);
    StacksStay(w, AddAgents(w, params, d));
  }

  // ----- domains and threads

  lemma AddDomainKeepsTree(w: World, name: string, p: DomainId)
    requires Tree(w) && Roots(w) && w.IsDomain(p) && name !in w.domains[p].children
    requires |w.agents| > USER && w.agents[USER].domain == GLOBAL && w.agents[RUNTIME].domain == GLOBAL
    ensures Tree(AddDomain(w, name, p))
  {
    var w' := AddDomain(w, name, p);
    assert ParentOk(w, p);
    forall x | 0 <= x < |w'.domains|
      ensures MembersOk(w', x) && ChildrenOk(w', x) && EntryOk(w', x)
    {
      if x < |w.domains| {
        assert MembersOk(w, x) && ChildrenOk(w, x) && EntryOk(w, x);
      }
    }
    forall x | 0 <= x < |w'.domains|
      ensures ParentOk(w', x)
    {
      ParentStaysOk(w, name, p, x);
    }
  }

  lemma ParentStaysOk(w: World, name: string, p: DomainId, x: DomainId)
    requires Tree(w) && Roots(w) && w.IsDomain(p) && name !in w.domains[p].children && x <= |w.domains|
    ensures var w' := AddDomain(w, name, p); w'.IsDomain(x) && ParentOk(w', x)
  {
    assert ParentOk(w, p);
    if x < |w.domains| {
      assert ParentOk(w, x);
    }
  }

  lemma AddDomainKeepsSound(w: World, name: string, p: DomainId)
    requires Sound(w) && w.IsDomain(p) && name !in w.domains[p].children
    ensures Extends(w, AddDomain(w, name, p)) && Sound(AddDomain(w, name, p))
  {
    AddDomainKeepsTree(w, name, p);
    assert w.agents[..|w.agents|] == w.agents && w.threads[..|w.threads|] == w.threads;
    hide Tree;
    StacksStay(w, AddDomain(w, name, p));
  }

  function WithEntry(w: World, d: DomainId, entry: Entry): World
    requires w.IsDomain(d)
  {
    w.(domains := w.domains[d := w.domains[d].(entry := entry)])
  }

  lemma SetEntryKeepsTree(w: World, d: DomainId, entry: Entry)
    requires Tree(w) && w.IsDomain(d)
    requires InScope(w, Endpoint(entry.from, d)) && InScope(w, Endpoint(entry.to, d))
    ensures Tree(WithEntry(w, d, entry))
  {
    var w' := WithEntry(w, d, entry);
    forall x | 0 <= x < |w'.domains|
      ensures MembersOk(w', x) && ChildrenOk(w', x) && ParentOk(w', x) && EntryOk(w', x)
    {
      assert MembersOk(w, x) && ChildrenOk(w, x) && ParentOk(w, x) && EntryOk(w, x);
    }
  }

  lemma SetEntryKeepsSound(w: World, d: DomainId, entry: Entry)
    requires Sound(w) && w.IsDomain(d) && !w.domains[d].detached
    requires InScope(w, Endpoint(entry.from, d)) && InScope(w, Endpoint(entry.to, d))
    ensures Sound(WithEntry(w, d, entry))
  {
    var w' := WithEntry(w, d, entry);
    SetEntryKeepsTree(w, d, entry);
    forall t | 0 <= t < |w.threads|
      ensures w.threads[t].root != d
    {
      assert ParentOk(w, w.threads[t].root);
    }
    hide Tree;
    forall t | 0 <= t < |w'.threads|
      ensures StackOk(w', t)
    {
      assert StackOk(w, t);
      var stack := w.threads[t].stack;
      assert forall i :: 0 <= i < |stack| ==> InScope(w, stack[i].from) && InScope(w, stack[i].to);
    }
  }

  lemma AddThreadKeepsTree(w: World, d: DomainId)
    requires Sound(w) && Issuable(w, CreateThread(d))
    ensures Tree(CommitOp(w, CreateThread(d)))
  {
    var w' := CommitOp(w, CreateThread(d));
    forall x | 0 <= x < |w'.domains|
      ensures MembersOk(w', x) && ChildrenOk(w', x) && ParentOk(w', x) && EntryOk(w', x)
    {
      assert MembersOk(w, x) && ChildrenOk(w, x) && ParentOk(w, x) && EntryOk(w, x);
      // d lists no children, so no attached domain has it as its parent
      assert x != GLOBAL ==> w.domains[x].parent.value != d;
    }
  }

  lemma AddThreadKeepsSound(w: World, d: DomainId)
    requires Sound(w) && Issuable(w, CreateThread(d))
    ensures Extends(w, CommitOp(w, CreateThread(d))) && Sound(CommitOp(w, CreateThread(d)))
  {
    var w' := CommitOp(w, CreateThread(d));
    AddThreadKeepsTree(w, d);
    forall t | 0 <= t < |w.threads|
      ensures w.threads[t].root != d
    {
      assert ParentOk(w, w.threads[t].root);
    }
    hide Tree;
    assert w'.agents[..|w.agents|] == w.agents;
    StacksStay(w, w');
  }

  lemma AddSnapshotDomainExtends(w: World, s: Snapshot, p: DomainId)
    requires w.IsDomain(p) && Instantiable(s)
    ensures Extends(w, AddSnapshotDomain(w, s, p))
  {
    var w1 := AddDomain(w, DefaultDomainName(w), p);
    assert w1.agents == w.agents && w1.threads == w.threads;
    var w2 := AddAgents(w1, s.members, |w.domains|);
    assert w2.agents[..|w.agents|] == w.agents;
  }

  // The steps of an instance: the new domain, its members joining, and its entry, which is then in scope.
  lemma InstanceSteps(w: World, s: Snapshot, p: DomainId) returns (w1: World, w2: World, entry: Entry)
    requires w.IsDomain(p) && Instantiable(s)
    ensures w1 == AddDomain(w, DefaultDomainName(w), p) && Joinable(w1, s.members, |w.domains|)
    ensures w2 == AddAgents(w1, s.members, |w.domains|) && w2.IsDomain(|w.domains|) && !w2.domains[|w.domains|].detached
    ensures InScope(w2, Endpoint(entry.from, |w.domains|)) && InScope(w2, Endpoint(entry.to, |w.domains|))
    ensures AddSnapshotDomain(w, s, p) == WithEntry(w2, |w.domains|, entry)
  {
    hide IndexOfName;
    w1 := AddDomain(w, DefaultDomainName(w), p);
    w2 := AddAgents(w1, s.members, |w.domains|);
    entry := Entry(|w.agents| + IndexOfName(s.members, s.entryFrom), |w.agents| + IndexOfName(s.members, s.entryTo));
    assert w1.domains[|w.domains|].members == [] && w1.agents == w.agents;
  }

  lemma AddSnapshotDomainKeepsSound(w: World, s: Snapshot, p: DomainId)
    requires Sound(w) && w.IsDomain(p) && DefaultDomainName(w) !in w.domains[p].children && Instantiable(s)
    ensures Sound(AddSnapshotDomain(w, s, p))
  {
    hide *;
    var w1, w2, entry := InstanceSteps(w, s, p);
    AddDomainKeepsSound(w, DefaultDomainName(w), p);
    AddAgentsKeepsSound(w1, s.members, |w.domains|);
    SetEntryKeepsSound(w2, |w.domains|, entry);
  }

  lemma {:induction false} CommitKeepsSound(w: World, op: Op)
    requires Sound(w) && Issuable(w, op)
    ensures Extends(w, CommitOp(w, op)) && Sound(CommitOp(w, op))
  {
    match op
    case CreateAgent(params, d) => AddAgentsKeepsSound(w, [params], d);
    case CreateDomain(name, p) => AddDomainKeepsSound(w, name, p);
    case CreateDomainFromSnapshot(p, name) =>
      AddSnapshotDomainExtends(w, w.snapshots[name], p);
      AddSnapshotDomainKeepsSound(w, w.snapshots[name], p);
    case CreateThread(d) => AddThreadKeepsSound(w, d);
    case CreateSnapshot(name, d) =>
      var w' := CommitOp(w, op);
      forall x | 0 <= x < |w'.domains|
        ensures MembersOk(w', x) && ChildrenOk(w', x) && ParentOk(w', x) && EntryOk(w', x)
      {
        assert MembersOk(w, x) && ChildrenOk(w, x) && ParentOk(w, x) && EntryOk(w, x);
      }
      StacksStay(w, w');
  }

  // create_domain with detach: the domain just created may be given a thread.
  lemma {:induction false} FreshDomainMayDetach(w: World, name: string, p: DomainId)
    requires Sound(w) && Issuable(w, CreateDomain(name, p))
    ensures Issuable(CommitOp(w, CreateDomain(name, p)), CreateThread(|w.domains|))
  {
    var w' := CommitOp(w, CreateDomain(name, p));
    forall t, i | 0 <= t < |w'.threads| && 0 <= i < |w'.threads[t].stack|
      ensures w'.threads[t].stack[i].to.domain != |w.domains|
    {
      assert StackOk(w, t) && InScope(w, w.threads[t].stack[i].to);
    }
  }
}
