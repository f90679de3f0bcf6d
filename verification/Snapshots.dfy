// When a snapshot can be called: createDomain looks its entry up among its members, and names the instance after the
// number of domains.
module Snapshots {
  import opened Common
  import opened World
  import opened Transition
  import opened Routing
  import opened Soundness
  import opened Growth
  import opened Preprocess
  import opened Runs

  // The instance of a snapshot can be built exactly when the domain it was taken from lists, among its own members,
  // agents with the names of its two entry agents.
  lemma {:induction false} InstantiableExactly(w: World, d: DomainId, name: string)
    requires Sound(w) && w.IsDomain(d)
    ensures DomainReadable(w, d)
    ensures var entry := w.domains[d].entry;
            Instantiable(SnapshotOf(w, d, name)) <==>
            && FindMember(w.domains[d].members, w.agents[entry.from].params.name).Some?
            && FindMember(w.domains[d].members, w.agents[entry.to].params.name).Some?
  {
    assert MembersOk(w, d) && EntryOk(w, d);
    var entry := w.domains[d].entry;
    var s := SnapshotOf(w, d, name);
    assert forall i :: 0 <= i < |s.members| ==> s.members[i].name == w.domains[d].members[i].0;
    hide Sound, SnapshotOf;
    SameNames(w.domains[d].members, s.members, w.agents[entry.from].params.name);
    SameNames(w.domains[d].members, s.members, w.agents[entry.to].params.name);
  }

  lemma SameNames(members: seq<(string, AgentId)>, params: seq<AgentParams>, name: string)
    requires |members| == |params| && forall i :: 0 <= i < |params| ==> params[i].name == members[i].0
    ensures IndexOfName(params, name) < |params| <==> FindMember(members, name).Some?
  {
    if IndexOfName(params, name) < |params| {
      assert members[IndexOfName(params, name)] in members;
    }
    if FindMember(members, name).Some? {
      var i :| 0 <= i < |members| && members[i] == (name, FindMember(members, name).value);
      assert params[i] in params;
    }
  }

  // The name of the next instance is foreseeable, and nothing reserves it: whoever creates a domain of that name first
  // makes the next call of any snapshot from the same domain fail the CHECK in createDomain, whatever its members.
  lemma {:induction false} TakenNameBlocksInstance(w: World, t: ThreadId, address: string)
    requires Sound(w) && w.IsThread(t) && Readable(w, t)
    requires "domain-" + Decimal(|w.domains| + 1) !in w.domains[w.Expected(t).domain].children
    ensures var p := w.Expected(t).domain;
            var op := CreateDomain("domain-" + Decimal(|w.domains| + 1), p);
            && Issuable(w, op)
            && var w' := CommitOp(w, op);
            && Sound(w') && Readable(w', t) && w'.Expected(t) == w.Expected(t)
            && (Resolve(w', address, p).target.ToSnapshot? ==> !CommitAllOk(w', RouteCall(w', t, address).ops))
  {
    var p := w.Expected(t).domain;
    var op := CreateDomain("domain-" + Decimal(|w.domains| + 1), p);
    CommitKeepsSound(w, op);
    var w' := CommitOp(w, op);
    TurnUnaffected(w, w', t);
    ExpectedInScope(w', t);
    assert DefaultDomainName(w') in w'.domains[p].children;
    hide Sound, Resolve, CommitOp, Decimal, Instantiable;
    CallCommitsExactly(w', t, address);
    hide CommitAllOk;
  }

  lemma SnapshotIsFound(w: World, name: string, d: DomainId)
    requires w.IsDomain(d) && w.IsDomain(GLOBAL) && name != "" && name[0] != '&' && name[0] != '*'
             && name in w.snapshots
    requires FindMember(w.domains[d].members, name).None? && FindMember(w.domains[GLOBAL].members, name).None?
    requires name !in w.domains[d].children
    ensures Resolve(w, name, d) == Resolved(ToSnapshot(name), false, false)
  {
    hide FindMember;
  }

  // The world with a domain "d" made by create_domain, and then with a snapshot "s" of it.
  function WithPlainDomain(): World {
    AddDomain(InitialWorld(), "d", GLOBAL)
  }

  lemma PlainDomainIsSound()
    ensures Issuable(InitialWorld(), CreateDomain("d", GLOBAL))
            && WithPlainDomain() == CommitOp(InitialWorld(), CreateDomain("d", GLOBAL))
    ensures Sound(WithPlainDomain()) && Issuable(WithPlainDomain(), CreateSnapshot("s", 1))
    ensures Sound(CommitOp(WithPlainDomain(), CreateSnapshot("s", 1)))
  {
    StartIsSound();
    CommitKeepsSound(InitialWorld(), CreateDomain("d", GLOBAL));
    assert EntryOk(WithPlainDomain(), 1) && MembersOk(WithPlainDomain(), 1);
    CommitKeepsSound(WithPlainDomain(), CreateSnapshot("s", 1));
  }

  lemma PlainSnapshotIs(w: World)
    requires Issuable(WithPlainDomain(), CreateSnapshot("s", 1))
             && w == CommitOp(WithPlainDomain(), CreateSnapshot("s", 1))
    ensures "s" in w.snapshots && w.snapshots["s"].members == [] && w.IsDomain(GLOBAL)
    ensures w.domains[GLOBAL].members == [("zero", ZERO), ("runtime", RUNTIME), ("user", USER)]
    ensures FindMember(w.domains[GLOBAL].members, "s").None?
    ensures "s" !in w.domains[GLOBAL].children && w.IsThread(0) && w.Expected(0) == Endpoint(USER, GLOBAL)
  {
    assert "s" != "d" && "s" != "zero" && "s" != "runtime" && "s" != "user";
  }

  // A domain made by create_domain enters at the user and the runtime agent, which are not among its members: its
  // snapshot resolves as an address, but calling it fails the CHECK on the entry.
  lemma PlainSnapshotCannotBeCalled()
    ensures var w1 := CommitOp(InitialWorld(), CreateDomain("d", GLOBAL));
            && Issuable(InitialWorld(), CreateDomain("d", GLOBAL)) && Sound(w1) && Issuable(w1, CreateSnapshot("s", 1))
            && var w2 := CommitOp(w1, CreateSnapshot("s", 1));
            && Sound(w2) && Readable(w2, 0)
            && RouteCall(w2, 0, "s").ops == [CreateDomainFromSnapshot(GLOBAL, "s")]
            && !CommitAllOk(w2, RouteCall(w2, 0, "s").ops)
  {
    PlainDomainIsSound();
    hide *;
    var w2 := CommitOp(WithPlainDomain(), CreateSnapshot("s", 1));
    PlainSnapshotIs(w2);
    ExpectedInScope(w2, 0);
    EmptySnapshotCannotBeCalled(w2, 0, "s");
  }

  lemma EmptySnapshotCannotBeCalled(w: World, t: ThreadId, name: string)
    requires w.IsThread(t) && Readable(w, t) && w.Expected(t).domain == GLOBAL && w.IsDomain(GLOBAL)
    requires name in w.snapshots && w.snapshots[name].members == []
    requires name != "" && name[0] != '&' && name[0] != '*'
    requires FindMember(w.domains[GLOBAL].members, name).None? && name !in w.domains[GLOBAL].children
    ensures RouteCall(w, t, name).ops == [CreateDomainFromSnapshot(GLOBAL, name)]
    ensures !CommitAllOk(w, RouteCall(w, t, name).ops)
  {
    SnapshotIsFound(w, name, GLOBAL);
    hide Resolve, FindMember;
  }
}
