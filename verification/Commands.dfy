// What the runtime agent's handler decides to commit for a request, before it commits anything.
module Commands {
  import opened Common
  import opened World
  import opened Transition
  import opened Routing
  import opened Soundness
  import opened Growth
  import opened Mirror

  datatype AgentRequest = AgentRequest(
    name: string, from: Option<string>, link: Option<AgentLink>,
    comment: Option<string>, service: Option<string>, flags: Option<set<Flag>>)

  datatype Request =
    | CreateAgents(agents: seq<AgentRequest>)
    | CreateDomainNamed(name: Option<string>, detach: bool)
    | CreateSnapshotOf(snapshot: string, domain: string)
    | Other

  function Or<T>(value: Option<T>, default: T): T {
    if value.Some? then value.value else default
  }

  // A request completed from the agent it descends from; None where the original reports an error.
  function Regularized(w: World, d: DomainId, q: AgentRequest): Option<AgentParams>
    requires Sound(w) && w.IsDomain(d)
  {
    if q.from.Some? then
      var r := Resolve(w, q.from.value, d);
      if r.detach || r.clone || !r.target.ToAgent? || !w.IsAgent(r.target.agent) then None
      else
        var source := w.agents[r.target.agent];
        Some(AgentParams(AgentLink(source.id, source.Anchor()), q.name,
          Or(q.comment, source.params.comment), Or(q.service, source.params.service), Or(q.flags, source.params.flags)))
    else if q.link.None? then None
    else Some(AgentParams(q.link.value, q.name, Or(q.comment, ""), Or(q.service, ""), Or(q.flags, {})))
  }

  // Request k can join: well formed, descending from an agent, and under a name free in the domain and in the batch.
  predicate Joins(w: World, d: DomainId, qs: seq<AgentRequest>, k: nat)
    requires Sound(w) && w.IsDomain(d) && k < |qs|
  {
    var p := Regularized(w, d, qs[k]);
    && p.Some? && w.IsAgent(p.value.link.parent)
    && FindMember(w.domains[d].members, p.value.name).None?
    && forall i :: 0 <= i < k ==> qs[i].name != qs[k].name
  }

  predicate AllJoin(w: World, d: DomainId, qs: seq<AgentRequest>)
    requires Sound(w) && w.IsDomain(d)
  {
    forall k :: 0 <= k < |qs| ==> Joins(w, d, qs, k)
  }

  function AgentOps(w: World, d: DomainId, qs: seq<AgentRequest>): seq<Op>
    requires Sound(w) && w.IsDomain(d) && AllJoin(w, d, qs)
  {
    seq(|qs|, k requires 0 <= k < |qs| =>
      assert Joins(w, d, qs, k); CreateAgent(Regularized(w, d, qs[k]).value, d))
  }

  // The operations a request leads to, all decided in the world it arrives in; none when it is refused.
  function RequestOps(w: World, d: DomainId, request: Request): seq<Op>
    requires Sound(w) && w.IsDomain(d)
  {
    match request
    case CreateAgents(qs) => if AllJoin(w, d, qs) then AgentOps(w, d, qs) else []
    case CreateDomainNamed(name, detach) =>
      var chosen := Or(name, DefaultDomainName(w));
      if chosen in w.domains[d].children then []
      else [CreateDomain(chosen, d)] + (if detach then [CreateThread(|w.domains|)] else [])
    case CreateSnapshotOf(name, child) =>
      if name in w.snapshots || child !in w.domains[d].children then []
      else [CreateSnapshot(name, w.domains[d].children[child])]
    case Other => []
  }

  // Every operation is issuable when its turn comes, and stands apart from the call it answers.
  predicate HandlerIssues(w: World, ctx: Context, ops: seq<Op>)
    requires ctx.to.Some?
    decreases |ops|
  {
    ops == [] || (Issuable(w, ops[0]) && Apart(w, ctx, ops[0]) && HandlerIssues(CommitOp(w, ops[0]), ctx, ops[1..]))
  }

  lemma {:induction false} HandlerIssuesIsHandlerOps(w: World, ctx: Context, ops: seq<Op>)
    requires ctx.to.Some? && Sound(w) && HandlerIssues(w, ctx, ops)
    ensures HandlerOps(w, ctx, ops) && CommitAllOk(w, ops) && Sound(CommitAll(w, ops))
    decreases |ops|
  {
    if ops != [] {
      CommitKeepsSound(w, ops[0]);
      HandlerIssuesIsHandlerOps(CommitOp(w, ops[0]), ctx, ops[1..]);
    }
  }

  // The next member of the batch may join: its name is new among the old members and those of the batch so far.
  lemma BatchIssuesNext(w0: World, w: World, d: DomainId, qs: seq<AgentRequest>, k: nat)
    requires Sound(w0) && w0.IsDomain(d) && AllJoin(w0, d, qs) && k < |qs|
    requires Sound(w) && w.IsDomain(d) && |w0.agents| <= |w.agents|
    requires |w.domains[d].members| == |w0.domains[d].members| + k
    requires w.domains[d].members[..|w0.domains[d].members|] == w0.domains[d].members
    requires forall i :: 0 <= i < k ==> w.domains[d].members[|w0.domains[d].members| + i].0 == qs[i].name
    ensures var op := AgentOps(w0, d, qs)[k];
            && Issuable(w, op) && op.CreateAgent? && op.domain == d && op.params.name == qs[k].name
  {
    hide Sound;
    assert Joins(w0, d, qs, k);
    var params := Regularized(w0, d, qs[k]).value;
    var members, n := w.domains[d].members, |w0.domains[d].members|;
    forall m | m in members
      ensures m.0 != params.name
    {
      var i :| 0 <= i < |members| && members[i] == m;
      if i < n {
        assert members[..n][i] in w0.domains[d].members;
      } else {
        assert members[n + (i - n)].0 == qs[i - n].name;
      }
    }
  }

  // The batch joins one by one: the checks made up front stay good while earlier members of the batch join.
  lemma {:induction false} BatchIssues(w0: World, w: World, d: DomainId, qs: seq<AgentRequest>, k: nat, ctx: Context)
    requires Sound(w0) && w0.IsDomain(d) && AllJoin(w0, d, qs) && k <= |qs| && ctx.to.Some?
    requires Sound(w) && w.IsDomain(d) && |w0.agents| <= |w.agents|
    requires |w.domains[d].members| == |w0.domains[d].members| + k
    requires w.domains[d].members[..|w0.domains[d].members|] == w0.domains[d].members
    requires forall i :: 0 <= i < k ==> w.domains[d].members[|w0.domains[d].members| + i].0 == qs[i].name
    ensures HandlerIssues(w, ctx, AgentOps(w0, d, qs)[k..])
    decreases |qs| - k
  {
    var ops := AgentOps(w0, d, qs);
    if k < |qs| {
      BatchIssuesNext(w0, w, d, qs, k);
      hide Sound, Regularized, AgentOps, AllJoin, Issuable;
      CommitKeepsSound(w, ops[k]);
      BatchIssues(w0, CommitOp(w, ops[k]), d, qs, k + 1, ctx);
      assert ops[k..][1..] == ops[k + 1..];
    }
  }

  // Whatever the request, its operations are issuable one after the other and apart from the call.
  lemma {:induction false} RequestIssues(w: World, ctx: Context, request: Request)
    requires Sound(w) && InScope(w, ctx.from) && ctx.to.Some? && ctx.to.value.agent == RUNTIME
    ensures HandlerIssues(w, ctx, RequestOps(w, ctx.from.domain, request))
  {
    var d := ctx.from.domain;
    var ops := RequestOps(w, d, request);
    match request
    case CreateAgents(qs) =>
      if AllJoin(w, d, qs) {
        BatchIssues(w, w, d, qs, 0, ctx);
        assert ops[0..] == ops;
      }
    case CreateDomainNamed(name, detach) =>
      if ops != [] && detach {
        FreshDomainMayDetach(w, ops[0].name, d);
        assert ops[1..] == [CreateThread(|w.domains|)];
      }
    case CreateSnapshotOf(name, child) =>
      if ops != [] {
        assert ChildrenOk(w, d);
        SnapshotStandsApart(w, ctx, w.domains[d].children[child]);
      }
    case Other =>
  }

  // The sender acts in the parent domain, so neither it nor the runtime agent lives in the child.
  lemma SnapshotStandsApart(w: World, ctx: Context, c: DomainId)
    requires Sound(w) && InScope(w, ctx.from) && ctx.to.Some? && ctx.to.value.agent == RUNTIME
    requires w.IsDomain(c) && w.domains[c].parent == Some(ctx.from.domain)
    ensures DomainReadable(w, c) && !IsMember(w, c, ctx.from.agent) && !IsMember(w, c, RUNTIME)
  {
    assert MembersOk(w, c) && ParentOk(w, c) && EntryOk(w, c);
  }
}
