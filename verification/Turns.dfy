// Runs in which agents speak only when it is their turn: pending flags and thread scope are kept, and the CHECKs on
// the sender never fail.
module Turns {
  import opened AccessIds
  import opened World
  import opened Transition
  import opened Routing
  import opened Soundness
  import opened Preservation
  import opened Growth
  import opened Preprocess
  import opened Accounting
  import opened Runs

  predicate Orderly(r: Run) {
    Valid(r) && ThreadScope(r.world) && PendingOk(r.world)
  }

  lemma {:induction false} StartIsOrderly()
    ensures Orderly(Start)
  {
    StartIsValid();
  }

  lemma {:induction false} CommitKeepsOrderly(r: Run, op: Op)
    requires Orderly(r) && Enabled(r, Commits(op))
    ensures Orderly(Step(r, Commits(op)))
  {
    StepKeepsValid(r, Commits(op));
    GrowthKeepsTurns(r.world, op);
  }

  lemma CommitKeepsThreads(w: World, op: Op)
    requires Sound(w) && Issuable(w, op)
    ensures var w' := CommitOp(w, op);
            && (forall t :: |w.threads| <= t < |w'.threads| ==> w'.threads[t].stack == [] && !w'.threads[t].pending)
            && |w.domains| <= |w'.domains|
            && (forall d :: 0 <= d < |w.domains| ==>
                 w'.domains[d].thread == if op == CreateThread(d) then |w.threads| else w.domains[d].thread)
            && (forall d :: 0 <= d < |w'.domains| && w'.domains[d].detached ==>
                 d < |w.domains| && w'.domains[d].entry == w.domains[d].entry
                   && (op == CreateThread(d) || w.domains[d].detached))
  {
  }

  lemma {:induction false} GrowthKeepsTurns(w: World, op: Op)
    requires Sound(w) && ThreadScope(w) && PendingOk(w) && Issuable(w, op)
    ensures var w' := CommitOp(w, op); Sound(w') && ThreadScope(w') && PendingOk(w')
  {
    var w' := CommitOp(w, op);
    CommitKeepsSound(w, op);
    CommitKeepsThreads(w, op);
    hide CommitOp, Sound;
    forall t | 0 <= t < |w'.threads|
      ensures w'.threads[t].pending <==> w'.Expected(t).agent != USER
      ensures forall i :: 0 <= i < |w'.threads[t].stack| ==> OnThread(w', t, w'.threads[t].stack[i].to)
    {
      if t < |w.threads| {
        TurnUnaffected(w, w', t);
        forall i | 0 <= i < |w.threads[t].stack|
          ensures OnThread(w', t, w.threads[t].stack[i].to)
        {
          assert OnThread(w, t, w.threads[t].stack[i].to);
        }
      }
    }
  }

  // Applying a faithful record keeps the turn where the design wants it, if a callee is on the thread.
  lemma {:induction false} ApplyKeepsScope(w: World, id: Int64, tags: set<string>, ctx: Context)
    requires Sound(w) && ThreadScope(w) && Faithful(w, ctx) && Applicable(w, ctx)
    requires ctx.action == CALL ==> OnThread(w, ctx.thread, ctx.to.value)
    ensures var w' := ApplyMessage(w, id, tags, ctx); Sound(w') && ThreadScope(w')
  {
    var w' := ApplyMessage(w, id, tags, ctx);
    ApplyKeepsSound(w, id, tags, ctx);
    ApplyHasSameShape(w, id, tags, ctx);
    hide Sound;
    forall t, i | 0 <= t < |w'.threads| && 0 <= i < |w'.threads[t].stack|
      ensures OnThread(w', t, w'.threads[t].stack[i].to)
    {
      if i < |w.threads[t].stack| {
        assert OnThread(w, t, w.threads[t].stack[i].to);
      }
    }
  }

  // What a speaker may say, as far as its content goes and the snapshots it may call.
  predicate Sayable(r: Run, from: AgentId, msg: Message, id: int) {
    && r.world.IsThread(msg.threadId) && Readable(r.world, msg.threadId)
    && ContentOk(r.world, from, msg) && MessageCanCommit(r.world, from, msg)
    && Issued(id) && r.next <= id
  }

  // The runtime agent only answers.
  predicate OnlyAnswers(r: Run, from: AgentId, msg: Message)
    requires r.world.IsThread(msg.threadId) && Readable(r.world, msg.threadId)
  {
    from == RUNTIME ==> Classify(r.world, from, msg).context.action != CALL
  }

  // The endpoint whose turn it is passes every CHECK of preprocess, commit and apply exactly when what it says is
  // sayable: none of the CHECKs on who it is and where it speaks can fail.
  lemma {:induction false} HolderIsEnabled(r: Run, msg: Message, id: Int64)
    requires Orderly(r) && r.world.IsThread(msg.threadId)
    ensures Enabled(r, Sends(r.world.Expected(msg.threadId).agent, msg, id))
            <==> Sayable(r, r.world.Expected(msg.threadId).agent, msg, id)
  {
    var from := r.world.Expected(msg.threadId).agent;
    HolderMaySend(r.world, msg.threadId, msg);
    MessageCommitsExactly(r.world, from, msg);
    hide MessageCanCommit, Classify;
    if Sayable(r, from, msg, id) {
      var w' := CommitAll(r.world, Classify(r.world, from, msg).ops);
      ClassifyIsFaithful(r.world, from, msg, w');
    }
  }

  // The turn on thread t has gone to the recipient of the latest record; other threads are as they were.
  predicate TurnPassed(w: World, w': World, t: ThreadId, to: AgentId)
    requires Sound(w) && Sound(w')
  {
    && w.IsThread(t) && |w'.threads| == |w.threads|
    && w'.Expected(t).agent == to
    && forall x :: 0 <= x < |w.threads| && x != t ==> w'.Expected(x) == w.Expected(x)
  }

  // One faithful record at the level of the world: everything is kept, and the recipient holds the turn.
  lemma {:induction false} ApplyKeepsTurns(w: World, id: Int64, tags: set<string>, ctx: Context)
    requires Sound(w) && ThreadScope(w) && PendingOk(w) && Faithful(w, ctx) && Applicable(w, ctx)
    requires ctx.action == CALL ==> OnThread(w, ctx.thread, ctx.to.value)
    ensures var w' := ApplyMessage(w, id, tags, ctx);
            && Sound(w') && ThreadScope(w') && PendingOk(w')
            && TurnPassed(w, w', ctx.thread, Recipient(w, ctx))
  {
    ApplyKeepsScope(w, id, tags, ctx);
    ApplyKeepsPending(w, id, tags, ctx);
    RecipientHoldsTurn(w, id, tags, ctx);
    ApplyHasSameShape(w, id, tags, ctx);
    hide Sound, ThreadScope, PendingOk, Faithful, StackAfter, Recipient;
    var w' := ApplyMessage(w, id, tags, ctx);
    assert forall t :: 0 <= t < |w.threads| && t != ctx.thread ==> w'.threads[t] == w.threads[t];
  }

  lemma TurnPassedLater(w: World, p: World, w': World, t: ThreadId, to: AgentId)
    requires Sound(w) && Sound(p) && Sound(w') && |p.threads| == |w.threads|
    requires forall x :: 0 <= x < |w.threads| ==> p.Expected(x) == w.Expected(x)
    requires TurnPassed(p, w', t, to)
    ensures TurnPassed(w, w', t, to)
  {
  }

  // The same for an operation that creates no thread.
  lemma {:induction false} RoutingKeepsTurns(w: World, op: Op)
    requires Sound(w) && ThreadScope(w) && PendingOk(w) && Issuable(w, op) && !op.CreateThread?
    ensures var w' := CommitOp(w, op);
            && Sound(w') && ThreadScope(w') && PendingOk(w') && |w'.threads| == |w.threads|
            && forall t :: 0 <= t < |w.threads| ==> w'.Expected(t) == w.Expected(t)
  {
    var w' := CommitOp(w, op);
    GrowthKeepsTurns(w, op);
    CommitKeepsSound(w, op);
    assert w'.threads == w.threads;
    hide CommitOp, Sound, ThreadScope, PendingOk;
    forall t | 0 <= t < |w.threads|
      ensures w'.Expected(t) == w.Expected(t)
    {
      TurnUnaffected(w, w', t);
    }
  }

  lemma {:induction false} PreparedIsOrderly(r: Run, from: AgentId, msg: Message)
    requires Orderly(r) && r.world.IsThread(msg.threadId) && Readable(r.world, msg.threadId)
    requires CommitAllOk(r.world, Classify(r.world, from, msg).ops)
    ensures var p := Prepared(r, from, msg);
            && Orderly(p) && |p.world.threads| == |r.world.threads|
            && (forall t :: 0 <= t < |r.world.threads| ==> p.world.Expected(t) == r.world.Expected(t))
            && Faithful(p.world, Classify(r.world, from, msg).context)
  {
    PreparedIsValid(r, from, msg);
    ClassifyOps(r.world, from, msg, r.next);
    var ops := Classify(r.world, from, msg).ops;
    hide Valid, ThreadScope, PendingOk, Classify;
    if ops != [] {
      RoutingKeepsTurns(r.world, ops[0]);
    }
  }

  lemma SpokenKeepsOrderly(w: World, p: World, w': World, id: Int64, tags: set<string>, ctx: Context)
    requires Sound(w) && Sound(p) && ThreadScope(p) && PendingOk(p) && |p.threads| == |w.threads|
    requires forall x :: 0 <= x < |w.threads| ==> p.Expected(x) == w.Expected(x)
    requires Faithful(p, ctx) && Applicable(p, ctx) && (ctx.action == CALL ==> OnThread(p, ctx.thread, ctx.to.value))
    requires w' == ApplyMessage(p, id, tags, ctx)
    ensures Sound(w') && ThreadScope(w') && PendingOk(w') && TurnPassed(w, w', ctx.thread, Recipient(p, ctx))
  {
    hide Sound, ThreadScope, PendingOk, ApplyMessage, Faithful, Applicable, Recipient;
    ApplyKeepsTurns(p, id, tags, ctx);
    TurnPassedLater(w, p, w', ctx.thread, Recipient(p, ctx));
  }

  // Speaking in turn keeps everything, and hands the turn to the recipient.
  lemma {:induction false} SpeakingKeepsOrderly(r: Run, from: AgentId, msg: Message, id: Int64, r': Run)
    requires Orderly(r) && Enabled(r, Sends(from, msg, id)) && r' == Step(r, Sends(from, msg, id))
    requires r.world.IsThread(msg.threadId) && from == r.world.Expected(msg.threadId).agent && OnlyAnswers(r, from, msg)
    ensures Orderly(r') && r'.log != []
    ensures TurnPassed(r.world, r'.world, msg.threadId, r'.log[|r'.log| - 1].to)
  {
    hide Step, Enabled, ThreadScope, PendingOk, Classify, ApplyMessage;
    hide Applicable, Sound, Faithful, TurnPassed, Readable, Valid;
    SendsIs(r, from, msg, id);
    var ctx := Classify(r.world, from, msg).context;
    var p := Prepared(r, from, msg);
    StepKeepsValid(r, Sends(from, msg, id));
    PreparedIsOrderly(r, from, msg);
    ClassifyCases(r.world, from, msg);
    ValidIsSound(r);
    ValidIsSound(p);
    if ctx.action == CALL { CalleeOnThread(r.world, msg.threadId, msg.To()); }
    SpokenKeepsOrderly(r.world, p.world, r'.world, id, StampedTags(r.world, from, msg), ctx);
  }

  lemma ValidIsSound(r: Run)
    requires Valid(r)
    ensures Sound(r.world)
  {
  }
}
