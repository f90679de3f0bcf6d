// Obligation counts, rewinds and pending flags: each is determined by the call stacks.
module Accounting {
  import opened AccessIds
  import opened World
  import opened Transition
  import opened Routing
  import opened Soundness
  import opened Preservation
  import opened Growth

  // ----- obligations

  // Frames over all threads whose callee is a.
  function Owed(threads: seq<Thread>, a: AgentId): nat {
    if threads == [] then 0 else Owed(threads[..|threads| - 1], a) + Callees(threads[|threads| - 1].stack, a)
  }

  // Every agent's obligation count is the number of calls it has not answered.
  predicate ObligationsOk(w: World) {
    forall a :: 0 <= a < |w.agents| ==> w.agents[a].obligations == Owed(w.threads, a)
  }

  lemma {:induction false} CalleesSplit(stack: seq<Frame>, k: nat, a: AgentId)
    requires k <= |stack|
    ensures Callees(stack, a) == Callees(stack[..k], a) + Callees(stack[k..], a)
    decreases |stack|
  {
    if k == |stack| {
      assert stack[..k] == stack && stack[k..] == [];
    } else {
      CalleesSplit(stack[..|stack| - 1], k, a);
      assert stack[..|stack| - 1][..k] == stack[..k];
      assert stack[k..][..|stack[k..]| - 1] == stack[..|stack| - 1][k..];
    }
  }

  lemma {:induction false} NoCallees(stack: seq<Frame>, a: AgentId)
    requires forall i :: 0 <= i < |stack| ==> stack[i].to.agent != a
    ensures Callees(stack, a) == 0
    decreases |stack|
  {
    if stack != [] {
      NoCallees(stack[..|stack| - 1], a);
    }
  }

  lemma {:induction false} OwedUpdate(threads: seq<Thread>, t: ThreadId, thread: Thread, a: AgentId)
    requires t < |threads|
    ensures Owed(threads[t := thread], a) == Owed(threads, a) - Callees(threads[t].stack, a) + Callees(thread.stack, a)
    decreases |threads|
  {
    var n := |threads| - 1;
    if t == n {
      assert threads[t := thread][..n] == threads[..n];
    } else {
      assert threads[t := thread][..n] == threads[..n][t := thread];
      OwedUpdate(threads[..n], t, thread, a);
    }
  }

  lemma {:induction false} NothingOwed(threads: seq<Thread>, a: AgentId)
    requires forall t, i :: 0 <= t < |threads| && 0 <= i < |threads[t].stack| ==> threads[t].stack[i].to.agent != a
    ensures Owed(threads, a) == 0
    decreases |threads|
  {
    if threads != [] {
      NothingOwed(threads[..|threads| - 1], a);
      NoCallees(threads[|threads| - 1].stack, a);
    }
  }

  lemma {:induction false} ApplyKeepsObligations(w: World, id: Int64, tags: set<string>, ctx: Context)
    requires Applicable(w, ctx) && ObligationsOk(w)
    requires ctx.action == RETURN ==>
               var stack := w.threads[ctx.thread].stack; stack[|stack| - 1].to.agent == ctx.from.agent
    ensures ObligationsOk(ApplyMessage(w, id, tags, ctx))
  {
    var w' := ApplyMessage(w, id, tags, ctx);
    var t := ctx.thread;
    var stack := w.threads[t].stack;
    hide Kept, PendingAfter, Remembered;
    forall a | 0 <= a < |w'.agents|
      ensures w'.agents[a].obligations == Owed(w'.threads, a)
    {
      OwedUpdate(w.threads, t, w'.threads[t], a);
      match ctx.action
      case CALL => assert w'.threads[t].stack[..|stack|] == stack;
      case REWIND => CalleesSplit(stack, Kept(w, stack, ctx.from.agent), a);
      case _ =>
    }
  }

  lemma FaithfulReturnAnswersTop(w: World, ctx: Context)
    requires Faithful(w, ctx) && ctx.action == RETURN
    ensures var stack := w.threads[ctx.thread].stack; stack[|stack| - 1].to.agent == ctx.from.agent
  {
  }

  lemma {:induction false} GrowthKeepsObligations(w: World, w': World)
    requires Sound(w) && Extends(w, w') && ObligationsOk(w)
    requires forall t :: |w.threads| <= t < |w'.threads| ==> w'.threads[t].stack == []
    requires forall a :: |w.agents| <= a < |w'.agents| ==> w'.agents[a].obligations == 0
    ensures ObligationsOk(w')
  {
    forall a | 0 <= a < |w'.agents|
      ensures w'.agents[a].obligations == Owed(w'.threads, a)
    {
      OwedOnIdle(w.threads, w'.threads, a);
      if a < |w.agents| {
        assert w'.agents[a] == w'.agents[..|w.agents|][a];
      } else {
        forall t, i | 0 <= t < |w.threads| && 0 <= i < |w.threads[t].stack|
          ensures w.threads[t].stack[i].to.agent != a
        {
          assert StackOk(w, t) && InScope(w, w.threads[t].stack[i].to);
        }
        NothingOwed(w.threads, a);
      }
    }
  }

  lemma {:induction false} OwedOnIdle(threads: seq<Thread>, more: seq<Thread>, a: AgentId)
    requires |threads| <= |more| && more[..|threads|] == threads
    requires forall t :: |threads| <= t < |more| ==> more[t].stack == []
    ensures Owed(more, a) == Owed(threads, a)
    decreases |more|
  {
    if |more| == |threads| {
      assert more == threads;
    } else {
      assert more[..|more| - 1][..|threads|] == threads;
      OwedOnIdle(threads, more[..|more| - 1], a);
    }
  }

  // ----- rewinds

  // Frames are dropped until the caller of the lowest dropped one catches, or none is left.
  lemma {:induction false} KeptStops(w: World, stack: seq<Frame>, to: AgentId)
    requires Kept(w, stack, to) < |stack|
    ensures var k := Kept(w, stack, to);
            && !w.HasFlag(to, Catch) && (k == 0 || w.HasFlag(stack[k].from.agent, Catch))
            && forall j :: k < j < |stack| ==> !w.HasFlag(stack[j].from.agent, Catch)
    decreases |stack|
  {
    var shorter, next := stack[..|stack| - 1], stack[|stack| - 1].from.agent;
    if Kept(w, shorter, next) < |shorter| {
      KeptStops(w, shorter, next);
    }
  }

  // A rewind by the endpoint whose turn it is leaves the longest prefix of the stack whose turn belongs to a
  // catching agent, or the empty stack.
  lemma {:induction false} RewindKeepsLongestCatchingPrefix(w: World, t: ThreadId, stack: seq<Frame>)
    requires w.IsThread(t) && w.IsDomain(w.threads[t].root) && Chained(EntryEndpoint(w, t), stack)
    ensures var k := Kept(w, stack, w.ExpectedAt(t, stack).agent);
            && (k == 0 || w.HasFlag(w.ExpectedAt(t, stack[..k]).agent, Catch))
            && (forall j :: k < j <= |stack| ==> !w.HasFlag(w.ExpectedAt(t, stack[..j]).agent, Catch))
    decreases |stack|
  {
    assert stack[..|stack|] == stack;
    if stack != [] && !w.HasFlag(w.ExpectedAt(t, stack).agent, Catch) {
      var shorter := stack[..|stack| - 1];
      ChainedPrefix(EntryEndpoint(w, t), stack, |stack| - 1);
      assert w.ExpectedAt(t, shorter) == stack[|stack| - 1].from;
      RewindKeepsLongestCatchingPrefix(w, t, shorter);
      var k := Kept(w, shorter, w.ExpectedAt(t, shorter).agent);
      assert shorter[..k] == stack[..k];
      forall j | k < j <= |stack|
        ensures !w.HasFlag(w.ExpectedAt(t, stack[..j]).agent, Catch)
      {
        if j < |stack| {
          assert shorter[..j] == stack[..j];
        }
      }
    }
  }

  // On threads that start at the user, who catches, such a rewind is always delivered to a catching agent.
  lemma {:induction false} RewindReachesCatcher(w: World, ctx: Context)
    requires Sound(w) && Faithful(w, ctx) && Applicable(w, ctx) && ctx.action == REWIND
    ensures w.HasFlag(Recipient(w, ctx), Catch)
  {
    var t := ctx.thread;
    var stack := w.threads[t].stack;
    assert StackOk(w, t);
    RewindKeepsLongestCatchingPrefix(w, t, stack);
    var k := Kept(w, stack, ctx.from.agent);
    assert stack[..|stack|] == stack;
    if k < |stack| {
      TurnAfterDrop(w, t, k);
    }
  }

  // ----- pending flags

  // A thread is pending exactly when it is not the user's turn.
  predicate PendingOk(w: World)
    requires Roots(w)
  {
    forall t :: 0 <= t < |w.threads| ==> (w.threads[t].pending <==> w.Expected(t).agent != USER)
  }

  lemma {:induction false} ApplyKeepsPending(w: World, id: Int64, tags: set<string>, ctx: Context)
    requires Sound(w) && Faithful(w, ctx) && Applicable(w, ctx) && PendingOk(w)
    ensures var w' := ApplyMessage(w, id, tags, ctx); Roots(w') && PendingOk(w')
  {
    var w' := ApplyMessage(w, id, tags, ctx);
    ApplyHasSameShape(w, id, tags, ctx);
    ShapeKeepsStructure(w, w');
    RecipientHoldsTurn(w, id, tags, ctx);
    if ctx.action == REWIND {
      RewindReachesCatcher(w, ctx);
    }
    forall t | 0 <= t < |w'.threads|
      ensures w'.threads[t].pending <==> w'.Expected(t).agent != USER
    {
      if t != ctx.thread {
        assert w'.threads[t] == w.threads[t];
      }
    }
  }

  // Somewhere in the stack the user made a call, and nobody who called later catches: an unwinding ends at the user.
  predicate UnwindsToUser(w: World, stack: seq<Frame>) {
    exists i :: 0 <= i < |stack| && stack[i].from.agent == USER
                && forall j :: i < j < |stack| ==> !w.HasFlag(stack[j].from.agent, Catch)
  }

  lemma {:induction false} UnwindingReachesUserExactly(w: World, stack: seq<Frame>, a: AgentId)
    requires w.HasFlag(USER, Catch) && !w.HasFlag(a, Catch) && stack != [] && stack[0].from.agent == USER
    ensures var k := Kept(w, stack, a);
            k < |stack| && stack[k].from.agent != a && (stack[k].from.agent == USER <==> UnwindsToUser(w, stack))
  {
    KeptDrops(w, stack, a);
    KeptStops(w, stack, a);
  }

  lemma KeptDrops(w: World, stack: seq<Frame>, a: AgentId)
    requires !w.HasFlag(a, Catch) && stack != []
    ensures Kept(w, stack, a) < |stack|
  {
  }

  // An agent's death keeps the flag right exactly when its home thread was not waiting for the user, or the agent
  // catches, or there is nothing to unwind, or the unwinding ends at the user.
  lemma {:induction false} DeathKeepsPendingExactly(w: World, id: Int64, a: AgentId)
    requires Sound(w) && PendingOk(w) && w.IsAgent(a) && a != USER
    ensures Applicable(w, DeathContext(w, a))
    ensures var ctx := DeathContext(w, a);
            var w' := ApplyMessage(w, id, {}, ctx);
            var stack := w.threads[ctx.thread].stack;
            && Roots(w')
            && (PendingOk(w') <==>
                w.Expected(ctx.thread).agent != USER || w.HasFlag(a, Catch) || stack == [] || UnwindsToUser(w, stack))
  {
    DeathKeepsSound(w, id, a);
    var ctx := DeathContext(w, a);
    var stack := w.threads[ctx.thread].stack;
    var k := Kept(w, stack, a);
    assert StackOk(w, ctx.thread);
    if w.HasFlag(a, Catch) || stack == [] {
      assert stack[..k] == stack;
    } else {
      UnwindingReachesUserExactly(w, stack, a);
      TurnAfterDrop(w, ctx.thread, k);
    }
    hide Kept, UnwindsToUser;
    DeathPending(w, id, a);
  }

  // After a death, too, whoever receives the rewind is the one expected next, exactly when frames were dropped or it
  // was the dead agent's turn: one that catches, or dies on an empty stack, is handed its own rewind out of turn.
  lemma {:induction false} DeathPassesTurnExactly(w: World, id: Int64, a: AgentId)
    requires Sound(w) && w.IsAgent(a)
    ensures Applicable(w, DeathContext(w, a))
    ensures var ctx := DeathContext(w, a);
            var w' := ApplyMessage(w, id, {}, ctx);
            && Roots(w')
            && (w'.Expected(ctx.thread).agent == Recipient(w, ctx) <==>
                (w.threads[ctx.thread].stack != [] && !w.HasFlag(a, Catch)) || w.Expected(ctx.thread).agent == a)
  {
    DeathKeepsSound(w, id, a);
    var ctx := DeathContext(w, a);
    var stack := w.threads[ctx.thread].stack;
    var k := Kept(w, stack, a);
    assert StackOk(w, ctx.thread);
    if k < |stack| {
      KeptStops(w, stack, a);
      TurnAfterDrop(w, ctx.thread, k);
    } else {
      assert stack[..k] == stack;
      if stack != [] && !w.HasFlag(a, Catch) { KeptDrops(w, stack, a); }
    }
    hide Kept, Sound;
    assert ApplyMessage(w, id, {}, ctx).Expected(ctx.thread) == w.ExpectedAt(ctx.thread, stack[..k]);
  }

  // The flag after a death, in terms of who ends up with the turn.
  lemma DeathPending(w: World, id: Int64, a: AgentId)
    requires Sound(w) && PendingOk(w) && w.IsAgent(a) && a != USER && Applicable(w, DeathContext(w, a))
    requires Sound(ApplyMessage(w, id, {}, DeathContext(w, a)))
    ensures var ctx := DeathContext(w, a);
            var k := Kept(w, w.threads[ctx.thread].stack, a);
            var turn := w.ExpectedAt(ctx.thread, w.threads[ctx.thread].stack[..k]).agent;
            PendingOk(ApplyMessage(w, id, {}, ctx)) <==>
              (turn != USER <==> PendingAfter(w.threads[ctx.thread].pending, a, Recipient(w, ctx)))
  {
    var ctx := DeathContext(w, a);
    var t := ctx.thread;
    var w' := ApplyMessage(w, id, {}, ctx);
    hide Kept;
    forall x | 0 <= x < |w'.threads| && x != t
      ensures w'.threads[x].pending <==> w'.Expected(x).agent != USER
    {
      assert w'.threads[x] == w.threads[x];
    }
    assert w'.Expected(t) == w.ExpectedAt(t, w.threads[t].stack[..Kept(w, w.threads[t].stack, a)]);
  }
}
