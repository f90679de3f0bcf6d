// The structural invariant of a program: table ids, the domain tree and its threads, and call stacks whose
// frames chain from the thread's entry and never leave their scope.
module Soundness {
  import opened Common
  import opened World
  import opened Transition
  import opened Routing

  predicate Ids(w: World) {
    && |w.agents| > USER && |w.domains| > GLOBAL && |w.threads| > 0
    && (forall a :: 0 <= a < |w.agents| ==> w.agents[a].id == a && w.IsDomain(w.agents[a].domain))
    && (forall d :: 0 <= d < |w.domains| ==> w.domains[d].id == d)
    && (forall t :: 0 <= t < |w.threads| ==> w.threads[t].id == t)
    && w.agents[USER].domain == GLOBAL && w.agents[RUNTIME].domain == GLOBAL && w.agents[ZERO].domain == GLOBAL
    && w.HasFlag(USER, Catch)
  }

  // An endpoint's agent lives in the endpoint's domain or in the global one.
  predicate InScope(w: World, e: Endpoint) {
    && w.IsAgent(e.agent) && w.IsDomain(e.domain)
    && (w.agents[e.agent].domain == e.domain || w.agents[e.agent].domain == GLOBAL)
  }

  predicate MembersOk(w: World, d: DomainId)
    requires w.IsDomain(d)
  {
    var members := w.domains[d].members;
    && (forall i :: 0 <= i < |members| ==>
          && w.IsAgent(members[i].1) && w.agents[members[i].1].domain == d
          && w.agents[members[i].1].params.name == members[i].0)
    && (forall i, j :: 0 <= i < j < |members| ==> members[i].0 != members[j].0)
  }

  predicate ChildrenOk(w: World, d: DomainId)
    requires w.IsDomain(d)
  {
    forall name <- w.domains[d].children ::
      var c := w.domains[d].children[name];
      w.IsDomain(c) && w.domains[c].parent == Some(d) && w.domains[c].name == name
  }

  // Every domain but the global one hangs off an older domain that lists it, and shares its thread
  // unless it is itself the root of its thread.
  predicate ParentOk(w: World, d: DomainId)
    requires w.IsDomain(d)
  {
    var dom := w.domains[d];
    && w.IsThread(dom.thread)
    && (dom.detached <==> w.threads[dom.thread].root == d)
    && (d == GLOBAL ==> dom.detached && dom.parent == None)
    && (d != GLOBAL ==>
          && dom.parent.Some? && dom.parent.value < d
          && dom.name in w.domains[dom.parent.value].children
          && w.domains[dom.parent.value].children[dom.name] == d
          && (dom.detached || w.domains[dom.parent.value].thread == dom.thread))
  }

  predicate EntryOk(w: World, d: DomainId)
    requires w.IsDomain(d)
  {
    var entry := w.domains[d].entry;
    InScope(w, Endpoint(entry.from, d)) && InScope(w, Endpoint(entry.to, d))
  }

  predicate Tree(w: World) {
    && (forall d :: 0 <= d < |w.domains| ==> MembersOk(w, d))
    && (forall d :: 0 <= d < |w.domains| ==> ChildrenOk(w, d))
    && (forall d :: 0 <= d < |w.domains| ==> ParentOk(w, d))
    && (forall d :: 0 <= d < |w.domains| ==> EntryOk(w, d))
  }

  // Threads start at the user, in a root domain that belongs to them.
  predicate Roots(w: World) {
    forall t :: 0 <= t < |w.threads| ==>
      && w.IsDomain(w.threads[t].root)
      && w.domains[w.threads[t].root].thread == t
      && w.domains[w.threads[t].root].entry.from == USER
  }

  // Each frame starts where the previous one ended; the first starts at the entry.
  predicate Chained(entry: Endpoint, stack: seq<Frame>) {
    && (|stack| > 0 ==> stack[0].from == entry)
    && (forall i :: 0 < i < |stack| ==> stack[i].from == stack[i - 1].to)
  }

  function EntryEndpoint(w: World, t: ThreadId): Endpoint
    requires w.IsThread(t) && w.IsDomain(w.threads[t].root)
  {
    Endpoint(w.domains[w.threads[t].root].entry.from, w.threads[t].root)
  }

  predicate StackOk(w: World, t: ThreadId)
    requires w.IsThread(t) && w.IsDomain(w.threads[t].root)
  {
    var stack := w.threads[t].stack;
    && Chained(EntryEndpoint(w, t), stack)
    && (forall i :: 0 <= i < |stack| ==> InScope(w, stack[i].from) && InScope(w, stack[i].to))
  }

  predicate Sound(w: World) {
    && Ids(w) && Tree(w) && Roots(w)
    && (forall t :: 0 <= t < |w.threads| ==> StackOk(w, t))
  }

  // ----- consequences

  lemma ExpectedInScope(w: World, t: ThreadId)
    requires Sound(w) && w.IsThread(t)
    ensures InScope(w, w.Expected(t)) && Readable(w, t)
  {
    var stack := w.threads[t].stack;
    if stack == [] {
      assert EntryOk(w, w.threads[t].root);
    } else {
      assert StackOk(w, t);
    }
    forall d | 0 <= d < |w.domains|
      ensures forall m <- w.domains[d].members :: w.IsAgent(m.1)
      ensures forall name <- w.domains[d].children :: w.IsDomain(w.domains[d].children[name])
    {
      assert MembersOk(w, d) && ChildrenOk(w, d);
    }
  }

  // Parents, followed upward until a detached domain.
  function Climb(w: World, d: DomainId): (root: DomainId)
    requires Tree(w) && w.IsDomain(d)
    ensures root <= d
    decreases d
  {
    assert ParentOk(w, d);
    if w.domains[d].detached then d else Climb(w, w.domains[d].parent.value)
  }

  // Walking parents from any domain stays in the domain's own thread and ends at that thread's root.
  lemma {:induction false} ClimbEndsAtThreadRoot(w: World, d: DomainId)
    requires Tree(w) && w.IsDomain(d)
    ensures w.IsThread(w.domains[d].thread) && Climb(w, d) == w.threads[w.domains[d].thread].root
    decreases d
  {
    assert ParentOk(w, d);
    if !w.domains[d].detached {
      ClimbEndsAtThreadRoot(w, w.domains[d].parent.value);
    }
  }

  // ----- what preprocess produces

  // A routed context speaks for the endpoint whose turn it is, and calls only into scope.
  predicate Faithful(w: World, ctx: Context) {
    && w.IsThread(ctx.thread) && w.IsDomain(w.threads[ctx.thread].root)
    && ctx.from == w.Expected(ctx.thread)
    && ctx.action != YIELD
    && (ctx.to.Some? <==> ctx.action == CALL)
    && (ctx.action == CALL ==> InScope(w, ctx.to.value))
    && (ctx.action == RETURN ==> w.threads[ctx.thread].stack != [])
  }

  lemma FaithfulIsApplicable(w: World, ctx: Context)
    requires Sound(w) && Faithful(w, ctx)
    ensures Applicable(w, ctx)
  {
    ExpectedInScope(w, ctx.thread);
    assert StackOk(w, ctx.thread);
    var stack := w.threads[ctx.thread].stack;
    forall f | f in stack
      ensures FrameInRange(w, f)
    {
      var i :| 0 <= i < |stack| && stack[i] == f;
      assert InScope(w, stack[i].from) && InScope(w, stack[i].to);
    }
  }

  lemma {:induction false} MemberFound(w: World, d: DomainId, name: string)
    requires Sound(w) && w.IsDomain(d)
    ensures var r := FindMember(w.domains[d].members, name);
            r.Some? ==> w.IsAgent(r.value) && w.agents[r.value].domain == d && w.agents[r.value].params.name == name
  {
    assert MembersOk(w, d);
    var r := FindMember(w.domains[d].members, name);
    if r.Some? {
      var i :| 0 <= i < |w.domains[d].members| && w.domains[d].members[i] == (name, r.value);
    }
  }
}
