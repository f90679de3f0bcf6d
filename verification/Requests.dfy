// What the runtime agent's answers to requests come to: the agents, domains and snapshots they leave behind.
module Requests {
  import opened Common
  import opened World
  import opened Transition
  import opened Routing
  import opened Soundness
  import opened Growth
  import opened Preprocess
  import opened History
  import opened Commands
  import opened Outcomes

  // The request copies agent a, which it names by a plain address in domain d.
  predicate Copies(w: World, d: DomainId, q: AgentRequest, a: AgentId)
    requires w.IsDomain(d) && w.IsDomain(GLOBAL)
  {
    q.from.Some? && Resolve(w, q.from.value, d) == Resolved(ToAgent(a), false, false)
  }

  // An agent to descend from is given: by address, and failing that by hand.
  predicate HasParent(w: World, d: DomainId, q: AgentRequest)
    requires w.IsDomain(d) && w.IsDomain(GLOBAL)
  {
    if q.from.Some? then
      var r := Resolve(w, q.from.value, d); r.target.ToAgent? && !r.detach && !r.clone
    else q.link.Some? && w.IsAgent(q.link.value.parent)
  }

  // A batch is accepted exactly when every request has a parent and a name that is new in the domain and the batch.
  lemma {:induction false} BatchIsAcceptedExactly(w: World, d: DomainId, qs: seq<AgentRequest>)
    requires Sound(w) && w.IsDomain(d)
    ensures AllJoin(w, d, qs) <==>
            && (forall k :: 0 <= k < |qs| ==> HasParent(w, d, qs[k]))
            && (forall k, m :: 0 <= k < |qs| && m in w.domains[d].members ==> m.0 != qs[k].name)
            && (forall i, k :: 0 <= i < k < |qs| ==> qs[i].name != qs[k].name)
  {
    forall k | 0 <= k < |qs|
      ensures Joins(w, d, qs, k) <==>
              && HasParent(w, d, qs[k])
              && (forall m <- w.domains[d].members :: m.0 != qs[k].name)
              && (forall i :: 0 <= i < k ==> qs[i].name != qs[k].name)
    {
      JoinsExactly(w, d, qs, k);
    }
    hide Sound, Joins, HasParent;
  }

  lemma JoinsExactly(w: World, d: DomainId, qs: seq<AgentRequest>, k: nat)
    requires Sound(w) && w.IsDomain(d) && k < |qs|
    ensures Joins(w, d, qs, k) <==>
            && HasParent(w, d, qs[k])
            && (forall m <- w.domains[d].members :: m.0 != qs[k].name)
            && (forall i :: 0 <= i < k ==> qs[i].name != qs[k].name)
  {
    if qs[k].from.Some? {
      ResolveInScope(w, qs[k].from.value, d);
      var r := Resolve(w, qs[k].from.value, d);
      if r.target.ToAgent? {
        SourceHasId(w, r.target.agent);
      }
    }
    hide Sound, Resolve;
  }

  // The k-th request of a batch as it turns out.
  function Member(w: World, d: DomainId, qs: seq<AgentRequest>, k: nat): AgentParams
    requires Sound(w) && w.IsDomain(d) && AllJoin(w, d, qs) && k < |qs|
  {
    AgentOps(w, d, qs)[k].params
  }

  function Batch(w: World, d: DomainId, qs: seq<AgentRequest>): (r: seq<AgentParams>)
    requires Sound(w) && w.IsDomain(d) && AllJoin(w, d, qs)
    ensures |r| == |qs| && forall k :: 0 <= k < |qs| ==> r[k] == Member(w, d, qs, k)
  {
    seq(|qs|, k requires 0 <= k < |qs| => Member(w, d, qs, k))
  }

  // w' is w with new agents, made from params in this order, in domain d.
  ghost predicate Adds(w: World, w': World, d: DomainId, params: seq<AgentParams>) {
    && w.IsDomain(d) && w'.IsDomain(d) && |w'.agents| == |w.agents| + |params|
    && w'.agents[..|w.agents|] == w.agents && w'.snapshots == w.snapshots && w'.threads == w.threads
    && |w'.domains[d].members| == |w.domains[d].members| + |params|
    && w'.domains[d].members[..|w.domains[d].members|] == w.domains[d].members
    && w'.domains == w.domains[d := w.domains[d].(members := w'.domains[d].members)]
    && forall k :: 0 <= k < |params| ==>
         && w'.agents[|w.agents| + k] == Agent(|w.agents| + k, params[k], d, [], {}, 0)
         && w'.domains[d].members[|w.domains[d].members| + k] == (params[k].name, |w.agents| + k)
  }

  lemma AddedAt(w: World, w': World, d: DomainId, params: seq<AgentParams>, k: nat)
    requires Adds(w, w', d, params) && k < |params|
    ensures Joined(w, w', |w.agents| + k, d) && w'.agents[|w.agents| + k].params == params[k]
  {
    assert w'.agents[|w.agents| + k] == Agent(|w.agents| + k, params[k], d, [], {}, 0);
    assert w'.domains[d].members[|w.domains[d].members| + k] == (params[k].name, |w.agents| + k);
  }

  lemma AddOne(w: World, mid: World, d: DomainId, done: seq<AgentParams>, params: AgentParams)
    requires Adds(w, mid, d, done)
    ensures Adds(w, AddAgents(mid, [params], d), d, done + [params])
  {
    var w' := AddAgents(mid, [params], d);
    assert w'.agents == mid.agents + [NewAgent(|mid.agents|, params, d)];
    assert w'.domains[d].members == mid.domains[d].members + [(params.name, |mid.agents|)];
  }

  lemma {:induction false} CommitsAdd(w: World, mid: World, d: DomainId, done: seq<AgentParams>, ops: seq<Op>)
    requires Adds(w, mid, d, done) && CommitAllOk(mid, ops)
    requires forall k :: 0 <= k < |ops| ==> ops[k].CreateAgent? && ops[k].domain == d
    ensures Adds(w, CommitAll(mid, ops), d, done + seq(|ops|, k requires 0 <= k < |ops| => ops[k].params))
    decreases |ops|
  {
    hide Adds;
    var all := seq(|ops|, k requires 0 <= k < |ops| => ops[k].params);
    if ops == [] {
      assert done + all == done;
    } else {
      var rest := ops[1..];
      AddOne(w, mid, d, done, ops[0].params);
      CommitsAdd(w, AddAgents(mid, [ops[0].params], d), d, done + [ops[0].params], rest);
      assert done + [ops[0].params] + seq(|rest|, k requires 0 <= k < |rest| => rest[k].params) == done + all;
    }
  }

  // An accepted batch goes through, and adds its agents in order.
  lemma {:induction false} BatchAdds(w: World, d: DomainId, qs: seq<AgentRequest>)
    requires Sound(w) && w.IsDomain(d) && AllJoin(w, d, qs)
    ensures var ops := RequestOps(w, d, CreateAgents(qs));
            && CommitAllOk(w, ops)
            && Adds(w, CommitAll(w, ops), d, Batch(w, d, qs))
  {
    var ops := RequestOps(w, d, CreateAgents(qs));
    var ctx := Context(CALL, 0, Endpoint(USER, d), Some(Endpoint(RUNTIME, GLOBAL)), NoError);
    RequestIssues(w, ctx, CreateAgents(qs));
    HandlerIssuesIsHandlerOps(w, ctx, ops);
    assert Adds(w, w, d, []);
    hide Sound, Adds, AllJoin, CommitAll, CommitAllOk, HandlerIssues;
    CommitsAdd(w, w, d, [], ops);
    assert [] + seq(|ops|, k requires 0 <= k < |ops| => ops[k].params) == Batch(w, d, qs);
  }

  predicate GivenOr<T(==)>(asked: Option<T>, got: T, otherwise: T) {
    (asked.Some? ==> got == asked.value) && (asked.None? ==> got == otherwise)
  }

  // What the agent made for request q is: a copy of agent a, or a newcomer.
  predicate CopiedAsAsked(q: AgentRequest, source: AgentParams, got: AgentParams) {
    && got.name == q.name && GivenOr(q.comment, got.comment, source.comment)
    && GivenOr(q.service, got.service, source.service) && GivenOr(q.flags, got.flags, source.flags)
  }

  predicate MadeAsAsked(q: AgentRequest, got: AgentParams) {
    && got.name == q.name && q.link == Some(got.link) && GivenOr(q.comment, got.comment, "")
    && GivenOr(q.service, got.service, "") && GivenOr(q.flags, got.flags, {})
  }

  lemma MemberIsAsAsked(w: World, d: DomainId, qs: seq<AgentRequest>, k: nat)
    requires Sound(w) && w.IsDomain(d) && AllJoin(w, d, qs) && k < |qs|
    ensures var got := Member(w, d, qs, k);
            && w.IsAgent(got.link.parent)
            && (qs[k].from.None? ==> MadeAsAsked(qs[k], got))
            && (qs[k].from.Some? ==>
                  && Copies(w, d, qs[k], got.link.parent)
                  && got.link == w.agents[got.link.parent].Snapshot("").link
                  && CopiedAsAsked(qs[k], w.agents[got.link.parent].params, got))
  {
    assert Joins(w, d, qs, k);
    if qs[k].from.Some? {
      ResolveInScope(w, qs[k].from.value, d);
      SourceHasId(w, Resolve(w, qs[k].from.value, d).target.agent);
    }
    hide Sound, Resolve, AllJoin;
  }

  // Every agent of an accepted batch is there, in its domain, as it was asked for. One made from another agent starts
  // with that agent's history, one made with a link with the history the link stands for.
  lemma {:induction false} BatchIsAsAsked(w: World, d: DomainId, qs: seq<AgentRequest>, k: nat, bound: int)
    requires Sound(w) && MemoryOk(w, bound) && w.IsDomain(d) && AllJoin(w, d, qs) && k < |qs|
    ensures CommitAllOk(w, RequestOps(w, d, CreateAgents(qs)))
    ensures var w' := CommitAll(w, RequestOps(w, d, CreateAgents(qs)));
            var n, q := |w.agents| + k, qs[k];
            && |w'.agents| == |w.agents| + |qs| && w'.agents[..|w.agents|] == w.agents
            && Joined(w, w', n, d) && Lineage(w')
            && (q.from.None? ==>
                  && MadeAsAsked(q, w'.agents[n].params) && w.IsAgent(q.link.value.parent)
                  && HistoryOf(w', n) == HistoryAt(w, q.link.value))
            && (q.from.Some? ==>
                  && HasParent(w, d, q)
                  && var a := Resolve(w, q.from.value, d).target.agent;
                     && w.IsAgent(a) && CopiedAsAsked(q, w.agents[a].params, w'.agents[n].params)
                     && HistoryOf(w', n) == HistoryOf(w, a))
  {
    hide Sound, MemoryOk, Resolve, CommitAll, CommitAllOk, AllJoin, RequestOps, Member, Joined;
    BatchAdds(w, d, qs);
    var w' := CommitAll(w, RequestOps(w, d, CreateAgents(qs)));
    var got := Member(w, d, qs, k);
    AddedAt(w, w', d, Batch(w, d, qs), k);
    MemberIsAsAsked(w, d, qs, k);
    RemembersLinks(w, bound);
    MembersDescend(w, d, qs, w');
    SameBelow(w, w', got.link, |w.agents|);
    if qs[k].from.Some? {
      SourceHasId(w, got.link.parent);
      ForkStartsWithHistory(w, got.link.parent, bound);
    }
  }

  lemma RemembersLinks(w: World, bound: int)
    requires MemoryOk(w, bound)
    ensures Lineage(w)
  {
  }

  lemma MembersDescend(w: World, d: DomainId, qs: seq<AgentRequest>, w': World)
    requires Sound(w) && Lineage(w) && w.IsDomain(d) && AllJoin(w, d, qs)
    requires Adds(w, w', d, Batch(w, d, qs))
    ensures Lineage(w') && forall a :: 0 <= a < |w.agents| ==> w'.agents[a] == w.agents[a]
  {
    hide Sound, AllJoin, Member;
    assert forall a :: 0 <= a < |w.agents| ==> w'.agents[a] == w'.agents[..|w.agents|][a];
    forall a | 0 <= a < |w'.agents|
      ensures NOT_AN_AGENT <= w'.agents[a].params.link.parent < a
    {
      if a >= |w.agents| {
        var k := a - |w.agents|;
        MemberIsAsAsked(w, d, qs, k);
        AddedAt(w, w', d, Batch(w, d, qs), k);
      }
    }
  }

  // ----- domains and snapshots

  // create_domain: an empty child by the chosen name, on a thread of its own exactly when that was asked for.
  lemma {:induction false} DomainIsAsAsked(w: World, d: DomainId, name: Option<string>, detach: bool)
    requires Sound(w) && w.IsDomain(d)
    requires CommitAllOk(w, RequestOps(w, d, CreateDomainNamed(name, detach)))
    ensures var w' := CommitAll(w, RequestOps(w, d, CreateDomainNamed(name, detach)));
            var c := |w.domains|;
            var chosen := if name.Some? then name.value else "domain-" + Decimal(c);
            if chosen in w.domains[d].children then w' == w
            else
              && |w'.domains| == c + 1 && w'.agents == w.agents && w'.snapshots == w.snapshots
              && w'.domains[..c] == w.domains[d := w.domains[d].(children := w.domains[d].children[chosen := c])]
              && w'.domains[c] ==
                 Domain(c, chosen, Some(d), w'.domains[c].thread, detach, Entry(USER, RUNTIME), [], map[])
              && (if detach then
                    && w'.domains[c].thread == |w.threads|
                    && w'.threads == w.threads + [Thread(|w.threads|, c, false, [], [])]
                  else w'.domains[c].thread == w.domains[d].thread && w'.threads == w.threads)
  {
    var ops := RequestOps(w, d, CreateDomainNamed(name, detach));
    if ops != [] {
      var w1 := CommitOp(w, ops[0]);
      assert CommitAll(w, ops) == CommitAll(w1, ops[1..]);
      if detach {
        assert ops[1..] == [CreateThread(|w.domains|)];
        assert CommitAll(w1, ops[1..]) == CommitOp(w1, CreateThread(|w.domains|));
      }
    }
    hide Sound;
  }

  // create_snapshot: of the child named, under a name that is new.
  lemma {:induction false} SnapshotIsAsAsked(w: World, d: DomainId, name: string, child: string)
    requires Sound(w) && w.IsDomain(d) && CommitAllOk(w, RequestOps(w, d, CreateSnapshotOf(name, child)))
    ensures var w' := CommitAll(w, RequestOps(w, d, CreateSnapshotOf(name, child)));
            if name in w.snapshots || child !in w.domains[d].children then w' == w
            else CommitOk(w, CreateSnapshot(name, w.domains[d].children[child]))
                 && w' == CommitOp(w, CreateSnapshot(name, w.domains[d].children[child]))
  {
    hide Sound, CommitOk, CommitOp;
  }
}
