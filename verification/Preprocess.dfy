// What preprocess guarantees: the context it journals speaks for the endpoint whose turn it is and calls only into
// scope, its CHECKs cannot fail for that endpoint, and when the endpoint stays on its own thread.
module Preprocess {
  import opened Common
  import opened AccessIds
  import opened World
  import opened Transition
  import opened Routing
  import opened Soundness
  import opened Growth

  lemma TurnUnaffected(w: World, w': World, t: ThreadId)
    requires Sound(w) && Extends(w, w') && w.IsThread(t)
    ensures w'.Expected(t) == w.Expected(t) && w'.threads[t] == w.threads[t]
  {
    assert w'.threads[t] == w'.threads[..|w.threads|][t];
  }

  // What an address can resolve to from domain d.
  predicate TargetOk(w: World, target: Target, d: DomainId) {
    match target
    case ToAgent(a) => InScope(w, Endpoint(a, d))
    case ToDomain(c) => w.IsDomain(c) && w.domains[c].parent == Some(d)
         && InScope(w, Endpoint(w.domains[c].entry.to, c))
    case ToSnapshot(s) => s in w.snapshots
    case Nowhere => true
  }

  lemma LookupInScope(w: World, name: string, d: DomainId)
    requires Sound(w) && w.IsDomain(d)
    ensures TargetOk(w, Lookup(w, name, d), d)
    ensures Lookup(w, name, d).ToAgent? ==> w.agents[Lookup(w, name, d).agent].params.name == name
  {
    MemberFound(w, d, name);
    MemberFound(w, GLOBAL, name);
    assert ChildrenOk(w, d);
    match Lookup(w, name, d)
    case ToDomain(c) => assert EntryOk(w, c);
    case _ =>
  }

  lemma ResolveInScope(w: World, address: string, d: DomainId)
    requires Sound(w) && w.IsDomain(d)
    ensures TargetOk(w, Resolve(w, address, d).target, d)
  {
    var rest := if "&" <= address then address[1..] else address;
    LookupInScope(w, if "*" <= rest then rest[1..] else rest, d);
    hide Lookup, Sound;
  }

  lemma NewcomerInScope(w: World, params: seq<AgentParams>, d: DomainId, i: nat)
    requires w.IsDomain(d) && i < |params|
    ensures InScope(AddAgents(w, params, d), Endpoint(|w.agents| + i, d))
  {
  }

  lemma InstanceInScope(w: World, s: Snapshot, p: DomainId)
    requires w.IsDomain(p) && Instantiable(s)
    ensures InScope(AddSnapshotDomain(w, s, p), Endpoint(|w.agents| + IndexOfName(s.members, s.entryTo), |w.domains|))
  {
    NewcomerInScope(AddDomain(w, DefaultDomainName(w), p), s.members, |w.domains|, IndexOfName(s.members, s.entryTo));
  }

  lemma CalleeInScope(w: World, t: ThreadId, address: string)
    requires Sound(w) && w.IsThread(t) && Readable(w, t)
    requires RouteCall(w, t, address).context.action == CALL && CommitAllOk(w, RouteCall(w, t, address).ops)
    ensures InScope(CommitAll(w, RouteCall(w, t, address).ops), RouteCall(w, t, address).context.to.value)
  {
    var e := w.Expected(t);
    ExpectedInScope(w, t);
    ResolveInScope(w, address, e.domain);
    hide Resolve, Sound, AddAgents, AddSnapshotDomain;
    match Resolve(w, address, e.domain).target
    case ToAgent(a) =>
      if Resolve(w, address, e.domain).clone {
        NewcomerInScope(w, [CloneParams(w, a)], e.domain, 0);
      }
    case ToSnapshot(s) => InstanceInScope(w, w.snapshots[s], e.domain);
    case _ =>
  }

  lemma RouteCallOps(w: World, t: ThreadId, address: string)
    requires Sound(w) && w.IsThread(t) && Readable(w, t)
    requires CommitAllOk(w, RouteCall(w, t, address).ops)
    ensures var ops := RouteCall(w, t, address).ops;
            ops == [] || (|ops| == 1 && Issuable(w, ops[0]) && CommitAll(w, ops) == CommitOp(w, ops[0]))
  {
    var e := w.Expected(t);
    ExpectedInScope(w, t);
    ResolveInScope(w, address, e.domain);
    hide Resolve, Sound;
  }

  // The CHECKs of createDomain(Snapshot) as a caller sees them before the call: a snapshot is called only when it can
  // be built, and when nobody has taken the name the new domain is given.
  predicate CallCanCommit(w: World, t: ThreadId, address: string)
    requires Readable(w, t)
  {
    var e := w.Expected(t);
    match Resolve(w, address, e.domain).target
    case ToSnapshot(s) =>
      s in w.snapshots && Instantiable(w.snapshots[s]) && DefaultDomainName(w) !in w.domains[e.domain].children
    case _ => true
  }

  // Whatever the address, what routing a call commits goes through exactly then: the agents and domains it names
  // are free by preprocess's own tests.
  lemma {:induction false} CallCommitsExactly(w: World, t: ThreadId, address: string)
    requires Readable(w, t)
    ensures CommitAllOk(w, RouteCall(w, t, address).ops) <==> CallCanCommit(w, t, address)
  {
    var e := w.Expected(t);
    var r := Resolve(w, address, e.domain);
    hide Resolve, Instantiable, Decimal;
    match r.target
    case ToAgent(a) =>
      assert RouteCall(w, t, address).ops != [] ==> CloneParams(w, a).name == CloneName(w, a);
    case ToSnapshot(s) =>
      var op := CreateDomainFromSnapshot(e.domain, s);
      assert RouteCall(w, t, address).ops == [op];
      assert CommitAllOk(w, [op]) <==> CommitOk(w, op);
      assert s in w.snapshots by { SnapshotResolves(w, address, e.domain); }
    case _ =>
  }

  lemma SnapshotResolves(w: World, address: string, d: DomainId)
    requires w.IsDomain(d) && w.IsDomain(GLOBAL)
    ensures var target := Resolve(w, address, d).target; target.ToSnapshot? ==> target.snapshot in w.snapshots
  {
    hide FindMember;
  }

  // A message that preprocess takes for a call: from the sender expected, not a record, and no answer.
  predicate IsCall(w: World, from: AgentId, msg: Message)
    requires w.IsThread(msg.threadId) && Readable(w, msg.threadId)
  {
    var stack := w.threads[msg.threadId].stack;
    && w.Expected(msg.threadId).agent == from && !msg.isData && msg.InReplyTo() == NO_ACCESS_ID
    && (msg.InResponseTo() != NO_ACCESS_ID ==> stack != [] && stack[|stack| - 1].messageId == msg.InResponseTo())
  }

  predicate MessageCanCommit(w: World, from: AgentId, msg: Message)
    requires w.IsThread(msg.threadId) && Readable(w, msg.threadId)
  {
    IsCall(w, from, msg) ==> CallCanCommit(w, msg.threadId, msg.To())
  }

  // The same for any message: nothing but a call commits anything.
  lemma {:induction false} MessageCommitsExactly(w: World, from: AgentId, msg: Message)
    requires w.IsThread(msg.threadId) && Readable(w, msg.threadId)
    ensures CommitAllOk(w, Classify(w, from, msg).ops) <==> MessageCanCommit(w, from, msg)
  {
    hide RouteCall, CallCanCommit;
    if IsCall(w, from, msg) {
      CallCommitsExactly(w, msg.threadId, msg.To());
      assert Classify(w, from, msg) == RouteCall(w, msg.threadId, msg.To());
    } else {
      assert Classify(w, from, msg).ops == [];
    }
  }

  lemma RouteCallContext(w: World, t: ThreadId, address: string)
    requires Readable(w, t)
    ensures var ctx := RouteCall(w, t, address).context;
            ctx.thread == t && ctx.from == w.Expected(t) && (ctx.action == CALL || ctx.action == REWIND)
            && (ctx.to.Some? <==> ctx.action == CALL)
  {
  }

  lemma {:induction false} RouteCallIsFaithful(w: World, t: ThreadId, address: string, w': World)
    requires Sound(w) && w.IsThread(t) && Readable(w, t)
    requires CommitAllOk(w, RouteCall(w, t, address).ops) && w' == CommitAll(w, RouteCall(w, t, address).ops)
    ensures Sound(w') && Extends(w, w') && Faithful(w', RouteCall(w, t, address).context)
  {
    var ops, ctx := RouteCall(w, t, address).ops, RouteCall(w, t, address).context;
    RouteCallOps(w, t, address);
    RouteCallContext(w, t, address);
    if ctx.action == CALL {
      CalleeInScope(w, t, address);
    }
    assert Sound(w') && Extends(w, w') by {
      if ops == [] {
        assert w' == w;
      } else {
        CommitKeepsSound(w, ops[0]);
      }
    }
    TurnUnaffected(w, w', t);
  }

  lemma ClassifyCases(w: World, from: AgentId, msg: Message)
    requires w.IsThread(msg.threadId) && Readable(w, msg.threadId)
    ensures var route := Classify(w, from, msg);
            var ctx := route.context;
            || route == RouteCall(w, msg.threadId, msg.To())
            || (route.ops == [] && ctx.thread == msg.threadId && ctx.from == w.Expected(msg.threadId) && ctx.to == None
                && (ctx.action == RETURN || ctx.action == REWIND || ctx.action == DATA)
                && (ctx.action == RETURN ==> w.threads[msg.threadId].stack != []))
  {
    hide RouteCall;
  }

  // Every context preprocess produces is faithful in the world its own operations lead to.
  lemma {:induction false} ClassifyIsFaithful(w: World, from: AgentId, msg: Message, w': World)
    requires Sound(w) && w.IsThread(msg.threadId) && Readable(w, msg.threadId)
    requires CommitAllOk(w, Classify(w, from, msg).ops) && w' == CommitAll(w, Classify(w, from, msg).ops)
    ensures Sound(w') && Extends(w, w') && Faithful(w', Classify(w, from, msg).context)
    ensures Applicable(w', Classify(w, from, msg).context)
  {
    var route := Classify(w, from, msg);
    ClassifyCases(w, from, msg);
    if route == RouteCall(w, msg.threadId, msg.To()) {
      RouteCallIsFaithful(w, msg.threadId, msg.To(), w');
    } else {
      assert w' == w;
    }
    FaithfulIsApplicable(w', route.context);
  }

  // ----- threads and endpoints

  // Endpoints act on the thread of their domain, except that the runtime agent answers for a detached domain
  // on the thread it was called from.
  predicate OnThread(w: World, t: ThreadId, e: Endpoint) {
    w.IsDomain(e.domain) && (w.domains[e.domain].thread == t || e.agent == RUNTIME)
  }

  predicate ThreadScope(w: World)
    requires Sound(w)
  {
    && (forall t :: 0 <= t < |w.threads| ==>
          forall i :: 0 <= i < |w.threads[t].stack| ==> OnThread(w, t, w.threads[t].stack[i].to))
    && (forall d :: 0 < d < |w.domains| && w.domains[d].detached ==> w.domains[d].entry.to == RUNTIME)
  }

  lemma TurnOnThread(w: World, t: ThreadId)
    requires Sound(w) && ThreadScope(w) && w.IsThread(t)
    ensures OnThread(w, t, w.Expected(t))
  {
    assert Roots(w);
  }

  // The CHECKs on the sender cannot fail for the endpoint whose turn it is.
  lemma {:induction false} HolderMaySend(w: World, t: ThreadId, msg: Message)
    requires Sound(w) && ThreadScope(w) && w.IsThread(t) && msg.threadId == t
    ensures SenderOk(w, w.Expected(t).agent, msg)
  {
    ExpectedInScope(w, t);
    TurnOnThread(w, t);
  }

  // A call by anyone but the runtime agent keeps its callee on the thread, up to the exception above.
  lemma {:induction false} CalleeOnThread(w: World, t: ThreadId, address: string)
    requires Sound(w) && ThreadScope(w) && w.IsThread(t) && Readable(w, t) && w.Expected(t).agent != RUNTIME
    requires CommitAllOk(w, RouteCall(w, t, address).ops)
    ensures var route := RouteCall(w, t, address);
            route.context.action == CALL ==> OnThread(CommitAll(w, route.ops), t, route.context.to.value)
  {
    var e := w.Expected(t);
    var route := RouteCall(w, t, address);
    ExpectedInScope(w, t);
    TurnOnThread(w, t);
    ResolveInScope(w, address, e.domain);
    hide Resolve, Sound;
    if route.ops != [] {
      assert CommitAll(w, route.ops) == CommitOp(w, route.ops[0]);
    }
    match Resolve(w, address, e.domain).target
    case ToDomain(c) => assert ParentOk(w, c);
    case _ =>
  }

  // The design document asks that the endpoint whose turn it is always act in a domain of the thread. A call keeps
  // that exactly when it does not name a detached child domain.
  lemma {:induction false} CallStaysOnThreadExactly(w: World, t: ThreadId, address: string)
    requires Sound(w) && w.IsThread(t) && Readable(w, t) && w.domains[w.Expected(t).domain].thread == t
    requires RouteCall(w, t, address).context.action == CALL && CommitAllOk(w, RouteCall(w, t, address).ops)
    ensures var route := RouteCall(w, t, address);
            var w' := CommitAll(w, route.ops);
            var to := route.context.to.value;
            var target := Resolve(w, address, w.Expected(t).domain).target;
            w'.IsDomain(to.domain) &&
            (w'.domains[to.domain].thread == t <==> !(target.ToDomain? && w.domains[target.domain].detached))
  {
    var e := w.Expected(t);
    var route := RouteCall(w, t, address);
    ExpectedInScope(w, t);
    ResolveInScope(w, address, e.domain);
    hide Resolve, Sound;
    if route.ops != [] {
      assert CommitAll(w, route.ops) == CommitOp(w, route.ops[0]);
    }
    match Resolve(w, address, e.domain).target
    case ToDomain(c) =>
      assert ParentOk(w, c);
      ClimbEndsAtThreadRoot(w, e.domain);   // so the root of t is not below e.domain
    case _ =>
  }
}
