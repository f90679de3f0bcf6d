// Every record the runtime journals keeps the structural invariant, and passes the turn to whoever receives it.
module Preservation {
  import opened Common
  import opened AccessIds
  import opened World
  import opened Transition
  import opened Routing
  import opened Soundness

  // ----- routed records

  // Same tables up to memory, tags, obligations, stacks, traces and pending flags.
  predicate SameShape(w: World, w': World) {
    && w'.domains == w.domains && |w'.agents| == |w.agents| && |w'.threads| == |w.threads|
    && (forall a :: 0 <= a < |w.agents| ==>
          && w'.agents[a].id == w.agents[a].id && w'.agents[a].params == w.agents[a].params
          && w'.agents[a].domain == w.agents[a].domain)
    && (forall t :: 0 <= t < |w.threads| ==>
          w'.threads[t].id == w.threads[t].id && w'.threads[t].root == w.threads[t].root)
  }

  lemma ShapeKeepsStructure(w: World, w': World)
    requires Ids(w) && Tree(w) && Roots(w) && SameShape(w, w')
    ensures Ids(w') && Tree(w') && Roots(w')
  {
    forall d | 0 <= d < |w'.domains|
      ensures MembersOk(w', d) && ChildrenOk(w', d) && ParentOk(w', d) && EntryOk(w', d)
    {
      assert MembersOk(w, d) && ChildrenOk(w, d) && ParentOk(w, d) && EntryOk(w, d);
    }
  }

  lemma ChainedPrefix(entry: Endpoint, stack: seq<Frame>, k: nat)
    requires Chained(entry, stack) && k <= |stack|
    ensures Chained(entry, stack[..k])
  {
  }

  // The turn after dropping frames is the caller of the lowest dropped frame.
  lemma TurnAfterDrop(w: World, t: ThreadId, k: nat)
    requires w.IsThread(t) && w.IsDomain(w.threads[t].root)
    requires Chained(EntryEndpoint(w, t), w.threads[t].stack) && k < |w.threads[t].stack|
    ensures w.ExpectedAt(t, w.threads[t].stack[..k]) == w.threads[t].stack[k].from
  {
  }

  // Baton passing: whoever receives a routed record is the one agent the next message on the thread
  // is accepted from.
  lemma {:induction false} RecipientHoldsTurn(w: World, id: Int64, tags: set<string>, ctx: Context)
    requires Sound(w) && Faithful(w, ctx) && Applicable(w, ctx)
    ensures var w' := ApplyMessage(w, id, tags, ctx);
            w'.Expected(ctx.thread).agent == Recipient(w, ctx)
  {
    var t := ctx.thread;
    var stack := w.threads[t].stack;
    var w' := ApplyMessage(w, id, tags, ctx);
    assert StackOk(w, t);
    var k := match ctx.action
      case RETURN => |stack| - 1
      case REWIND => Kept(w, stack, ctx.from.agent)
      case _ => |stack|;
    if k < |stack| {
      TurnAfterDrop(w, t, k);
    } else {
      assert stack[..k] == stack;
    }
  }

  lemma ApplyHasSameShape(w: World, id: Int64, tags: set<string>, ctx: Context)
    requires Applicable(w, ctx)
    ensures SameShape(w, ApplyMessage(w, id, tags, ctx))
  {
  }

  lemma StackPrefixOk(w: World, w': World, t: ThreadId, k: nat)
    requires Roots(w) && SameShape(w, w') && w.IsThread(t) && StackOk(w, t)
    requires k <= |w.threads[t].stack| && w'.threads[t].stack == w.threads[t].stack[..k]
    ensures StackOk(w', t)
  {
    var stack := w'.threads[t].stack;
    ChainedPrefix(EntryEndpoint(w, t), w.threads[t].stack, k);
    forall i | 0 <= i < |stack|
      ensures InScope(w', stack[i].from) && InScope(w', stack[i].to)
    {
      assert InScope(w, w.threads[t].stack[i].from) && InScope(w, w.threads[t].stack[i].to);
    }
  }

  lemma StackPushOk(w: World, w': World, t: ThreadId, id: Int64, to: Endpoint)
    requires Sound(w) && SameShape(w, w') && w.IsThread(t) && InScope(w, to)
    requires w'.threads[t].stack == w.threads[t].stack + [Frame(id, w.Expected(t), to)]
    ensures StackOk(w', t)
  {
    ExpectedInScope(w, t);
    assert StackOk(w, t);
    var old_, stack := w.threads[t].stack, w'.threads[t].stack;
    forall i | 0 <= i < |stack|
      ensures InScope(w', stack[i].from) && InScope(w', stack[i].to)
    {
      if i < |old_| {
        assert InScope(w, old_[i].from) && InScope(w, old_[i].to);
      }
    }
  }

  lemma {:induction false} ApplyKeepsSound(w: World, id: Int64, tags: set<string>, ctx: Context)
    requires Sound(w) && Faithful(w, ctx) && Applicable(w, ctx)
    ensures Sound(ApplyMessage(w, id, tags, ctx))
  {
    var w' := ApplyMessage(w, id, tags, ctx);
    ApplyHasSameShape(w, id, tags, ctx);
    ShapeKeepsStructure(w, w');
    forall t | 0 <= t < |w'.threads|
      ensures StackOk(w', t)
    {
      assert StackOk(w, t);
      var stack := w.threads[t].stack;
      if t == ctx.thread && ctx.action == CALL {
        StackPushOk(w, w', t, id, ctx.to.value);
      } else {
        var k := if t != ctx.thread then |stack| else
          match ctx.action
          case RETURN => |stack| - 1
          case REWIND => Kept(w, stack, ctx.from.agent)
          case _ => |stack|;
        assert stack[..|stack|] == stack;
        StackPrefixOk(w, w', t, k);
      }
    }
  }

  // An agent's death unwinds its home thread, whoever's turn it is there.
  lemma {:induction false} DeathKeepsSound(w: World, id: Int64, a: AgentId)
    requires Sound(w) && w.IsAgent(a)
    ensures w.IsDomain(w.agents[a].domain)
    ensures Applicable(w, DeathContext(w, a)) && Sound(ApplyMessage(w, id, {}, DeathContext(w, a)))
  {
    assert ParentOk(w, w.agents[a].domain);
    var ctx := DeathContext(w, a);
    FaithfulIsApplicable(w, Context(REWIND, ctx.thread, w.Expected(ctx.thread), None, AgentDied));
    var w' := ApplyMessage(w, id, {}, ctx);
    ApplyHasSameShape(w, id, {}, ctx);
    ShapeKeepsStructure(w, w');
    hide Ids, Tree, Roots, InScope, Chained, SameShape, Applicable, Faithful;
    forall t | 0 <= t < |w'.threads|
      ensures StackOk(w', t)
    {
      assert StackOk(w, t);
      hide StackOk;
      var stack := w.threads[t].stack;
      var k := if t == ctx.thread then Kept(w, stack, a) else |stack|;
      assert stack[..|stack|] == stack;
      StackPrefixOk(w, w', t, k);
    }
  }
}
