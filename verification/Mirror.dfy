// Observers receive a call to the runtime agent after the commits its handler made, though the runtime applied the
// call first. The two orders lead to the same program.
module Mirror {
  import opened AccessIds
  import opened World
  import opened Transition
  import opened Soundness
  import opened History

  predicate IsMember(w: World, d: int, a: AgentId) {
    w.IsDomain(d) && exists i :: 0 <= i < |w.domains[d].members| && w.domains[d].members[i].1 == a
  }

  // A commit that leaves the parties of a call out of the picture: at most it takes a snapshot of a domain that
  // neither belongs to. The handler of the runtime agent issues no other.
  predicate Apart(w: World, ctx: Context, op: Op)
    requires ctx.to.Some?
  {
    && !op.CreateDomainFromSnapshot?
    && (op.CreateSnapshot? ==> !IsMember(w, op.domain, ctx.from.agent) && !IsMember(w, op.domain, ctx.to.value.agent))
  }

  // New rows are appended identically on both sides.
  lemma CallCommutesWithNewAgents(w: World, id: Int64, tags: set<string>, ctx: Context, params: seq<AgentParams>,
      d: DomainId)
    requires Applicable(w, ctx) && ctx.action == CALL && w.IsDomain(d)
    ensures Applicable(AddAgents(w, params, d), ctx)
    ensures AddAgents(ApplyMessage(w, id, tags, ctx), params, d) == ApplyMessage(AddAgents(w, params, d), id, tags, ctx)
  {
    var w', v := AddAgents(w, params, d), ApplyMessage(w, id, tags, ctx);
    assert forall f <- w.threads[ctx.thread].stack :: FrameInRange(w, f) && FrameInRange(w', f);
    var left, right := AddAgents(v, params, d), ApplyMessage(w', id, tags, ctx);
    forall a | |w.agents| <= a < |w'.agents|
      ensures right.agents[a] == w'.agents[a]
    {
      assert Remembered(a, id, ctx.from.agent, ctx.to.value.agent) == [];
    }
    assert left.agents == right.agents;
    assert left.threads == right.threads;
    assert left.domains == right.domains;
  }

  lemma CallCommutesWithDomains(w: World, id: Int64, tags: set<string>, ctx: Context, domains: seq<Domain>,
      threads: seq<Thread>)
    requires Applicable(w, ctx) && ctx.action == CALL && |w.domains| <= |domains|
    ensures var w' := w.(domains := domains, threads := w.threads + threads);
            var v := ApplyMessage(w, id, tags, ctx);
            && Applicable(w', ctx)
            && v.(domains := domains, threads := v.threads + threads) == ApplyMessage(w', id, tags, ctx)
  {
    var w' := w.(domains := domains, threads := w.threads + threads);
    var v := ApplyMessage(w, id, tags, ctx);
    assert forall f <- w.threads[ctx.thread].stack :: FrameInRange(w, f) && FrameInRange(w', f);
    var left, right := v.(domains := domains, threads := v.threads + threads), ApplyMessage(w', id, tags, ctx);
    assert left.agents == right.agents;
    assert left.threads == right.threads;
  }

  lemma CallKeepsSnapshot(w: World, id: Int64, tags: set<string>, ctx: Context, d: DomainId, name: string)
    requires Applicable(w, ctx) && ctx.action == CALL && DomainReadable(w, d)
    requires !IsMember(w, d, ctx.from.agent) && !IsMember(w, d, ctx.to.value.agent)
    ensures DomainReadable(ApplyMessage(w, id, tags, ctx), d)
    ensures SnapshotOf(ApplyMessage(w, id, tags, ctx), d, name) == SnapshotOf(w, d, name)
  {
    var v := ApplyMessage(w, id, tags, ctx);
    var members := w.domains[d].members;
    forall i | 0 <= i < |members|
      ensures v.agents[members[i].1].Snapshot("") == w.agents[members[i].1].Snapshot("")
    {
      assert members[i].1 != ctx.from.agent && members[i].1 != ctx.to.value.agent;
      assert v.agents[members[i].1].memory == w.agents[members[i].1].memory;
    }
    assert MemberParams(v, members) == MemberParams(w, members);
  }

  // One commit of the handler commutes with the call it answers.
  lemma {:induction false} CallCommutes(w: World, id: Int64, tags: set<string>, ctx: Context, op: Op)
    requires Applicable(w, ctx) && ctx.action == CALL && CommitOk(ApplyMessage(w, id, tags, ctx), op)
             && Apart(w, ctx, op)
    ensures CommitOk(w, op) && Applicable(CommitOp(w, op), ctx)
    ensures CommitOp(ApplyMessage(w, id, tags, ctx), op) == ApplyMessage(CommitOp(w, op), id, tags, ctx)
  {
    var v := ApplyMessage(w, id, tags, ctx);
    match op
    case CreateAgent(params, d) => CallCommutesWithNewAgents(w, id, tags, ctx, [params], d);
    case CreateDomain(name, p) =>
      CallCommutesWithDomains(w, id, tags, ctx, AddDomain(w, name, p).domains, []);
      assert w.threads + [] == w.threads && v.threads + [] == v.threads;
    case CreateThread(d) =>
      CallCommutesWithDomains(w, id, tags, ctx, CommitOp(w, op).domains, [Thread(|w.threads|, d, false, [], [])]);
    case CreateSnapshot(name, d) =>
      CallKeepsSnapshot(w, id, tags, ctx, d, name);
      ApplyIgnoresSnapshots(w, id, tags, ctx, w.snapshots[name := SnapshotOf(w, d, name)]);
  }

  lemma ApplyIgnoresSnapshots(w: World, id: Int64, tags: set<string>, ctx: Context, snapshots: map<string, Snapshot>)
    requires Applicable(w, ctx) && ctx.action == CALL
    ensures var w' := w.(snapshots := snapshots);
            Applicable(w', ctx)
              && ApplyMessage(w', id, tags, ctx) == ApplyMessage(w, id, tags, ctx).(snapshots := snapshots)
  {
    var w' := w.(snapshots := snapshots);
    assert forall f <- w.threads[ctx.thread].stack :: FrameInRange(w, f) && FrameInRange(w', f);
    assert ApplyMessage(w', id, tags, ctx).agents == ApplyMessage(w, id, tags, ctx).agents;
  }

  // Taking a snapshot is the one commit that can tell the orders apart, and does so exactly when a party of the call
  // is a member of the domain: its anchor moves with the call.
  lemma {:induction false} SnapshotCommutesExactly(w: World, id: Int64, tags: set<string>, ctx: Context, d: DomainId,
      name: string)
    requires Applicable(w, ctx) && ctx.action == CALL && Sound(w) && MemoryOk(w, id) && Issued(id) && id >= 0
    requires w.IsDomain(d) && CommitOk(w, CreateSnapshot(name, d))
    ensures var op := CreateSnapshot(name, d);
            var v := ApplyMessage(w, id, tags, ctx);
            && CommitOk(v, op) && Applicable(CommitOp(w, op), ctx)
            && (CommitOp(v, op) == ApplyMessage(CommitOp(w, op), id, tags, ctx) <==> Apart(w, ctx, op))
  {
    hide Sound, MemoryOk, MemberParams;
    var v := ApplyMessage(w, id, tags, ctx);
    var op := Op.CreateSnapshot(name, d);
    if Apart(w, ctx, op) {
      CallCommutes(w, id, tags, ctx, op);
    } else {
      ApplyIgnoresSnapshots(w, id, tags, ctx, w.snapshots[name := SnapshotOf(w, d, name)]);
      SnapshotDiffers(w, id, tags, ctx, d, name);
      hide ApplyMessage, SnapshotOf;
      assert CommitOp(v, op).snapshots[name] != ApplyMessage(CommitOp(w, op), id, tags, ctx).snapshots[name];
    }
  }

  lemma SnapshotDiffers(w: World, id: Int64, tags: set<string>, ctx: Context, d: DomainId, name: string)
    requires Applicable(w, ctx) && ctx.action == CALL && MemoryOk(w, id) && Issued(id) && DomainReadable(w, d)
    requires IsMember(w, d, ctx.from.agent) || IsMember(w, d, ctx.to.value.agent)
    ensures DomainReadable(ApplyMessage(w, id, tags, ctx), d)
    ensures SnapshotOf(ApplyMessage(w, id, tags, ctx), d, name) != SnapshotOf(w, d, name)
  {
    var v := ApplyMessage(w, id, tags, ctx);
    var members := w.domains[d].members;
    var i :| 0 <= i < |members| && (members[i].1 == ctx.from.agent || members[i].1 == ctx.to.value.agent);
    AnchorMoves(w, id, tags, ctx, members[i].1);
    assert SnapshotOf(v, d, name).members[i].link.anchor != SnapshotOf(w, d, name).members[i].link.anchor;
  }

  lemma AnchorMoves(w: World, id: Int64, tags: set<string>, ctx: Context, a: AgentId)
    requires Applicable(w, ctx) && ctx.action == CALL && w.IsAgent(a) && MemoryOk(w, id) && Issued(id)
    requires a == ctx.from.agent || a == ctx.to.value.agent
    ensures ApplyMessage(w, id, tags, ctx).agents[a].Anchor() == id && w.agents[a].Anchor() != id
  {
    assert AgentMemoryOk(w, a, id);
    ReceivingLaws(id, id);
    var extra := Remembered(a, id, ctx.from.agent, ctx.to.value.agent);
    assert extra != [] && (extra[|extra| - 1] == id || extra[|extra| - 1] == MarkReceiving(id));
    assert ApplyMessage(w, id, tags, ctx).agents[a].memory == w.agents[a].memory + extra;
  }

  // ----- whole handlers

  predicate HandlerOps(w: World, ctx: Context, ops: seq<Op>)
    requires ctx.to.Some?
    decreases |ops|
  {
    ops == [] || (CommitOk(w, ops[0]) && Apart(w, ctx, ops[0]) && HandlerOps(CommitOp(w, ops[0]), ctx, ops[1..]))
  }

  // The call and all commits of its handler, in the runtime's order and in the observers' order.
  lemma {:induction false} HandlerCommutes(w: World, id: Int64, tags: set<string>, ctx: Context, ops: seq<Op>)
    requires Applicable(w, ctx) && ctx.action == CALL && HandlerOps(ApplyMessage(w, id, tags, ctx), ctx, ops)
    ensures CommitAllOk(w, ops) && CommitAllOk(ApplyMessage(w, id, tags, ctx), ops)
    ensures Applicable(CommitAll(w, ops), ctx)
    ensures CommitAll(ApplyMessage(w, id, tags, ctx), ops) == ApplyMessage(CommitAll(w, ops), id, tags, ctx)
    decreases |ops|
  {
    if ops != [] {
      CallCommutes(w, id, tags, ctx, ops[0]);
      HandlerCommutes(CommitOp(w, ops[0]), id, tags, ctx, ops[1..]);
    }
  }
}
