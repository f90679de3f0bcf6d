// The runtime's main loop: what one round of polling collects is dispatched in order, deaths included, and an adapter
// started on the way is first sent its agent's history, every id of which the journal holds.
module Sessions {
  import opened AccessIds
  import opened World
  import opened Transition
  import opened Routing
  import opened Soundness
  import opened Preservation
  import opened Growth
  import opened Preprocess
  import opened Accounting
  import opened History
  import opened Memories
  import opened Runs
  import opened Records
  import opened Mirror
  import opened Commands
  import opened Recall
  import opened RuntimeState

  // ----- what every request keeps, whatever its links

  predicate SnapshotParents(w: World) {
    forall name <- w.snapshots :: forall i :: 0 <= i < |w.snapshots[name].members| ==>
      w.IsAgent(w.snapshots[name].members[i].link.parent)
  }

  // The invariant of runs without its demand on anchors: memories, traces and obligations agree with the log.
  ghost predicate Accounted(w: World, log: seq<LogEntry>, bound: int) {
    && bound >= 0 && Sound(w) && ObligationsOk(w) && Lineage(w) && SnapshotParents(w)
    && LogOk(log, bound) && Logged(w, log)
  }

  // With it, this is exactly the invariant of runs.
  lemma AccountedWithAnchors(w: World, log: seq<LogEntry>, bound: int)
    ensures Accounted(w, log, bound) && MemoryOk(w, bound) <==> Valid(Run(w, log, bound))
  {
    hide Sound, ObligationsOk, LogOk, Logged, AgentMemoryOk;
    if MemoryOk(w, bound) {
      forall name | name in w.snapshots
        ensures forall i :: 0 <= i < |w.snapshots[name].members| ==> w.IsAgent(w.snapshots[name].members[i].link.parent)
      {
        assert SnapshotLinksOk(w, w.snapshots[name], bound);
      }
    }
  }

  lemma CommitKeepsLineage(w: World, op: Op)
    requires Sound(w) && Issuable(w, op) && Lineage(w) && SnapshotParents(w)
    ensures var w' := CommitOp(w, op); Lineage(w') && SnapshotParents(w')
  {
    SoundIds(w);
    hide Sound, AddAgents, AddSnapshotDomain, SnapshotOf;
    match op
    case CreateAgent(params, d) => JoinersKeepLineage(w, [params], d);
    case CreateDomainFromSnapshot(p, name) => InstanceKeepsLineage(w, w.snapshots[name], p);
    case CreateSnapshot(name, d) => SnapshotHasParents(w, d, name);
    case _ =>
  }

  lemma JoinersKeepLineage(w: World, params: seq<AgentParams>, d: DomainId)
    requires w.IsDomain(d) && Lineage(w) && SnapshotParents(w)
    requires forall i :: 0 <= i < |params| ==> w.IsAgent(params[i].link.parent)
    ensures var w' := AddAgents(w, params, d); Lineage(w') && SnapshotParents(w')
  {
  }

  lemma InstanceKeepsLineage(w: World, s: Snapshot, p: DomainId)
    requires w.IsDomain(p) && Instantiable(s) && Lineage(w) && SnapshotParents(w)
    requires forall i :: 0 <= i < |s.members| ==> w.IsAgent(s.members[i].link.parent)
    ensures var w' := AddSnapshotDomain(w, s, p); Lineage(w') && SnapshotParents(w')
  {
    var w1 := AddDomain(w, DefaultDomainName(w), p);
    assert w1.agents == w.agents && w1.snapshots == w.snapshots;
    hide Instantiable, AddAgents, AddDomain;
    JoinersKeepLineage(w1, s.members, |w.domains|);
  }

  lemma SnapshotHasParents(w: World, d: DomainId, name: string)
    requires DomainReadable(w, d) && forall a :: 0 <= a < |w.agents| ==> w.agents[a].id == a
    ensures forall i :: 0 <= i < |SnapshotOf(w, d, name).members| ==>
              w.IsAgent(SnapshotOf(w, d, name).members[i].link.parent)
  {
  }

  lemma CommitKeepsAccounted(w: World, op: Op, log: seq<LogEntry>, bound: int)
    requires Accounted(w, log, bound) && Issuable(w, op)
    ensures Accounted(CommitOp(w, op), log, bound)
  {
    hide Sound, ObligationsOk, Lineage, SnapshotParents, LogOk, Logged, CommitOp, Issuable;
    CommitKeepsLineage(w, op);
    CommitKeepsSound(w, op);
    IssuableIsOk(w, op);
    CommitAddsIdle(w, op);
    GrowthKeepsObligations(w, CommitOp(w, op));
    GrowthKeepsLogged(w, CommitOp(w, op), log);
  }

  lemma IssuableIsOk(w: World, op: Op)
    requires Issuable(w, op)
    ensures CommitOk(w, op)
  {
  }

  lemma ApplyKeepsAccounted(w: World, id: Int64, tags: set<string>, ctx: Context, log: seq<LogEntry>, bound: int)
    requires Accounted(w, log, bound) && Applicable(w, ctx) && Issued(id) && bound <= id
    requires Sound(ApplyMessage(w, id, tags, ctx))
    requires ctx.action == RETURN ==>
               var stack := w.threads[ctx.thread].stack; stack[|stack| - 1].to.agent == ctx.from.agent
    ensures Accounted(ApplyMessage(w, id, tags, ctx), log + [Runs.Record(w, id, ctx)], id + 1)
  {
    hide Sound, ObligationsOk, LogOk, Logged, ApplyMessage, Applicable;
    ApplyKeepsLineage(w, id, tags, ctx);
    ApplyKeepsObligations(w, id, tags, ctx);
    ApplyKeepsLogged(w, log, id, tags, ctx);
    LogGrows(log, bound, Runs.Record(w, id, ctx));
  }

  lemma ApplyKeepsLineage(w: World, id: Int64, tags: set<string>, ctx: Context)
    requires Applicable(w, ctx) && Lineage(w) && SnapshotParents(w)
    ensures var w' := ApplyMessage(w, id, tags, ctx); Lineage(w') && SnapshotParents(w')
    ensures ctx.action == CALL || ctx.action == RETURN || ctx.action == REWIND || ctx.action == DATA
  {
    ApplyHasSameShape(w, id, tags, ctx);
    assert ApplyMessage(w, id, tags, ctx).snapshots == w.snapshots;
    hide ApplyMessage;
  }

  lemma AccountedLater(w: World, log: seq<LogEntry>, bound: int, later: int)
    requires Accounted(w, log, bound) && bound <= later
    ensures Accounted(w, log, later)
  {
    hide Sound, ObligationsOk, Lineage, SnapshotParents, Logged;
  }

  lemma MemoryOkLater(w: World, bound: int, later: int)
    requires MemoryOk(w, bound) && bound <= later
    ensures MemoryOk(w, later)
  {
    forall a | 0 <= a < |w.agents|
      ensures AgentMemoryOk(w, a, later)
    {
      assert AgentMemoryOk(w, a, bound);
    }
    forall name | name in w.snapshots
      ensures SnapshotLinksOk(w, w.snapshots[name], later)
    {
      assert SnapshotLinksOk(w, w.snapshots[name], bound);
    }
  }

  // ----- commits of the handler

  lemma {:induction false} HandlerKeepsAccounted(w: World, ctx: Context, ops: seq<Op>, log: seq<LogEntry>, bound: int)
    requires Accounted(w, log, bound) && ctx.to.Some? && HandlerIssues(w, ctx, ops)
    ensures CommitAllOk(w, ops) && Accounted(CommitAll(w, ops), log, bound)
    decreases |ops|
  {
    hide Accounted, CommitOp, Issuable, CommitOk, Apart;
    if ops != [] {
      CommitKeepsAccounted(w, ops[0], log, bound);
      IssuableIsOk(w, ops[0]);
      HandlerKeepsAccounted(CommitOp(w, ops[0]), ctx, ops[1..], log, bound);
    }
  }

  lemma {:induction false} HandlerKeepsMemory(w: World, ctx: Context, ops: seq<Op>, bound: int)
    requires Sound(w) && MemoryOk(w, bound) && ctx.to.Some? && HandlerIssues(w, ctx, ops)
    requires forall i :: 0 <= i < |ops| ==> Timely(ops[i], bound)
    ensures CommitAllOk(w, ops) && MemoryOk(CommitAll(w, ops), bound)
    decreases |ops|
  {
    hide Sound, MemoryOk, CommitOp, Issuable, CommitOk, Apart;
    if ops != [] {
      CommitKeepsSound(w, ops[0]);
      CommitKeepsMemory(w, ops[0], bound);
      IssuableIsOk(w, ops[0]);
      HandlerKeepsMemory(CommitOp(w, ops[0]), ctx, ops[1..], bound);
    }
  }

  // The links written by hand in a request point back.
  predicate PointsBack(request: Request, bound: int) {
    request.CreateAgents? ==>
      forall q <- request.agents :: q.from.None? && q.link.Some? ==> AnchorOk(q.link.value.anchor, bound)
  }

  lemma PointsBackLater(request: Request, bound: int, later: int)
    requires PointsBack(request, bound) && bound <= later
    ensures PointsBack(request, later)
  {
  }

  // Anchors the runtime takes itself always do.
  lemma RequestIsTimely(w: World, d: DomainId, request: Request, bound: int)
    requires Sound(w) && MemoryOk(w, bound) && w.IsDomain(d) && PointsBack(request, bound)
    ensures var ops := RequestOps(w, d, request); forall i :: 0 <= i < |ops| ==> Timely(ops[i], bound)
  {
    if request.CreateAgents? && AllJoin(w, d, request.agents) {
      forall i | 0 <= i < |request.agents|
        ensures Timely(AgentOps(w, d, request.agents)[i], bound)
      {
        assert Joins(w, d, request.agents, i);
        JoinerIsTimely(w, d, request.agents[i], bound);
      }
    }
  }

  lemma JoinerIsTimely(w: World, d: DomainId, q: AgentRequest, bound: int)
    requires Sound(w) && MemoryOk(w, bound) && w.IsDomain(d) && Regularized(w, d, q).Some?
    requires q.from.None? && q.link.Some? ==> AnchorOk(q.link.value.anchor, bound)
    ensures AnchorOk(Regularized(w, d, q).value.link.anchor, bound)
  {
    if q.from.Some? {
      var a := Resolve(w, q.from.value, d).target.agent;
      hide Resolve, Sound, MemoryOk;
      SoundIds(w);
      ForkStartsWithHistory(w, a, bound);
    }
  }

  lemma SoundIds(w: World)
    requires Sound(w)
    ensures Ids(w)
  {
  }

  // ----- one message, from the program it arrives in to the program it leaves

  // What preprocess commits.
  lemma PreparedIsAccounted(w: World, from: AgentId, msg: Message, log: seq<LogEntry>, bound: int)
    requires Accounted(w, log, bound) && w.IsThread(msg.threadId) && Readable(w, msg.threadId)
    requires CommitAllOk(w, Classify(w, from, msg).ops)
    ensures Accounted(CommitAll(w, Classify(w, from, msg).ops), log, bound)
  {
    hide Classify, RouteCall, CommitOp, Issuable, Readable, Accounted;
    ClassifyCases(w, from, msg);
    if Classify(w, from, msg).ops != [] {
      assert Sound(w) by { AccountedIsSound(w, log, bound); }
      RouteCallOps(w, msg.threadId, msg.To());
      CommitKeepsAccounted(w, Classify(w, from, msg).ops[0], log, bound);
    }
  }

  lemma AccountedIsSound(w: World, log: seq<LogEntry>, bound: int)
    requires Accounted(w, log, bound)
    ensures Sound(w) && Lineage(w) && bound >= 0
  {
  }

  // The record itself and the handler's answer to it.
  lemma MessageKeepsAccounted(
    w: World, from: AgentId, msg: Message, id: Int64, tags: set<string>, to: EntityRef, request: Request,
    log: seq<LogEntry>, bound: int)
    requires Accounted(w, log, bound) && w.IsThread(msg.threadId) && Readable(w, msg.threadId) && Issued(id)
             && bound <= id
    requires CommitAllOk(w, Classify(w, from, msg).ops)
    requires var p := CommitAll(w, Classify(w, from, msg).ops);
             Applicable(p, Classify(w, from, msg).context) && to == Delivery(p, Classify(w, from, msg).context)
    ensures var p, ctx := CommitAll(w, Classify(w, from, msg).ops), Classify(w, from, msg).context;
            var w' := ApplyMessage(p, id, tags, ctx);
            var ops := Requested(w', ctx, to, request);
            && CommitAllOk(w', ops) && Accounted(CommitAll(w', ops), log + [Runs.Record(p, id, ctx)], id + 1)
  {
    hide Classify, Readable, Accounted, ApplyMessage, Applicable, Sound, Faithful, InScope, HandlerIssues, RequestOps;
    AccountedIsSound(w, log, bound);
    var p, ctx := CommitAll(w, Classify(w, from, msg).ops), Classify(w, from, msg).context;
    PreparedIsAccounted(w, from, msg, log, bound);
    ClassifyIsFaithful(w, from, msg, p);
    ApplyKeepsSound(p, id, tags, ctx);
    if ctx.action == RETURN { FaithfulReturnAnswersTop(p, ctx); }
    ApplyKeepsAccounted(p, id, tags, ctx, log, bound);
    CallerStaysInScope(p, id, tags, ctx);
    AnswerKeepsAccounted(ApplyMessage(p, id, tags, ctx), ctx, to, request, log + [Runs.Record(p, id, ctx)], id + 1);
  }

  lemma AnswerKeepsAccounted(w: World, ctx: Context, to: EntityRef, request: Request, log: seq<LogEntry>, bound: int)
    requires Accounted(w, log, bound) && InScope(w, ctx.from)
    requires to == AgentRef(RUNTIME) && ctx.action == CALL ==> ctx.to.Some? && ctx.to.value.agent == RUNTIME
    ensures var ops := Requested(w, ctx, to, request); CommitAllOk(w, ops) && Accounted(CommitAll(w, ops), log, bound)
  {
    hide Accounted, RequestOps, HandlerIssues, Sound, CommitOk, CommitOp;
    AccountedIsSound(w, log, bound);
    if to == AgentRef(RUNTIME) && ctx.action == CALL {
      RequestIssues(w, ctx, request);
      HandlerKeepsAccounted(w, ctx, RequestOps(w, ctx.from.domain, request), log, bound);
    }
  }

  // The same for anchors, as long as requests point back.
  lemma MessageKeepsMemory(
    w: World, from: AgentId, msg: Message, id: Int64, tags: set<string>, to: EntityRef, request: Request, bound: int)
    requires Sound(w) && MemoryOk(w, bound) && w.IsThread(msg.threadId) && Readable(w, msg.threadId)
    requires Issued(id) && 0 <= bound <= id && PointsBack(request, id + 1)
    requires CommitAllOk(w, Classify(w, from, msg).ops)
    requires var p := CommitAll(w, Classify(w, from, msg).ops);
             Applicable(p, Classify(w, from, msg).context) && to == Delivery(p, Classify(w, from, msg).context)
    ensures var p, ctx := CommitAll(w, Classify(w, from, msg).ops), Classify(w, from, msg).context;
            var w' := ApplyMessage(p, id, tags, ctx);
            var ops := Requested(w', ctx, to, request);
            CommitAllOk(w', ops) && MemoryOk(CommitAll(w', ops), id + 1)
  {
    hide Classify, Readable, MemoryOk, ApplyMessage, Applicable, Sound, Faithful, InScope, HandlerIssues, RequestOps;
    hide CommitOk, CommitOp, Issuable, Timely;
    var p, ctx := CommitAll(w, Classify(w, from, msg).ops), Classify(w, from, msg).context;
    ClassifyOps(w, from, msg, bound);
    var first := Classify(w, from, msg).ops;
    if first != [] { CommitKeepsMemory(w, first[0], bound); }
    ClassifyIsFaithful(w, from, msg, p);
    ApplyKeepsSound(p, id, tags, ctx);
    ApplyKeepsMemory(p, id, tags, ctx, bound);
    CallerStaysInScope(p, id, tags, ctx);
    AnswerKeepsMemory(ApplyMessage(p, id, tags, ctx), ctx, to, request, id + 1);
  }

  lemma AnswerKeepsMemory(w: World, ctx: Context, to: EntityRef, request: Request, bound: int)
    requires Sound(w) && MemoryOk(w, bound) && InScope(w, ctx.from) && PointsBack(request, bound)
    requires to == AgentRef(RUNTIME) && ctx.action == CALL ==> ctx.to.Some? && ctx.to.value.agent == RUNTIME
    ensures var ops := Requested(w, ctx, to, request); CommitAllOk(w, ops) && MemoryOk(CommitAll(w, ops), bound)
  {
    hide MemoryOk, RequestOps, HandlerIssues, Sound, CommitOk, CommitOp, Timely;
    if to == AgentRef(RUNTIME) && ctx.action == CALL {
      RequestIssues(w, ctx, request);
      RequestIsTimely(w, ctx.from.domain, request, bound);
      HandlerKeepsMemory(w, ctx, RequestOps(w, ctx.from.domain, request), bound);
    }
  }

  // A death.
  lemma DeathKeepsAccounted(w: World, a: AgentId, id: Int64, log: seq<LogEntry>, bound: int)
    requires Accounted(w, log, bound) && w.IsAgent(a) && Issued(id) && bound <= id
    ensures w.IsDomain(w.agents[a].domain) && Applicable(w, DeathContext(w, a))
    ensures var ctx := DeathContext(w, a);
            Accounted(ApplyMessage(w, id, {}, ctx), log + [Runs.Record(w, id, ctx)], id + 1)
  {
    hide Accounted, ApplyMessage, Applicable, Sound;
    AccountedIsSound(w, log, bound);
    DeathKeepsSound(w, id, a);
    ApplyKeepsAccounted(w, id, {}, DeathContext(w, a), log, bound);
  }

  lemma DeliveryIsAgent(w: World, ctx: Context)
    requires Applicable(w, ctx)
    ensures Delivery(w, ctx).AgentRef? ==> w.IsAgent(Delivery(w, ctx).agent)
  {
    var stack := w.threads[ctx.thread].stack;
    assert forall i :: 0 <= i < |stack| ==> FrameInRange(w, stack[i]);
  }

  // ----- a rewind made when a death was noticed is still right when its turn comes

  // Agents keep their homes, and domains their threads.
  predicate HomesStay(w: World, w': World) {
    && |w.agents| <= |w'.agents| && |w.domains| <= |w'.domains| && |w.threads| <= |w'.threads|
    && (forall a :: 0 <= a < |w.agents| ==> w'.agents[a].domain == w.agents[a].domain)
    && (forall d :: 0 <= d < |w.domains| ==> w'.domains[d].thread == w.domains[d].thread)
  }

  lemma RewindStays(w: World, w': World, a: AgentId)
    requires Sound(w) && Sound(w') && HomesStay(w, w') && w.IsAgent(a)
    ensures RewindRecord(w', a) == RewindRecord(w, a)
  {
    DeathIsApplicable(w, a);
    DeathIsApplicable(w', a);
    hide Sound, Applicable;
    SoundHasIds(w);
    SoundHasIds(w');
  }

  lemma CommitKeepsHomes(w: World, op: Op)
    requires CommitOk(w, op) && !op.CreateThread?
    ensures HomesStay(w, CommitOp(w, op))
  {
  }

  lemma {:induction false} CommitsKeepHomes(w: World, ops: seq<Op>)
    requires CommitAllOk(w, ops) && forall i :: 0 <= i < |ops| ==> !ops[i].CreateThread?
    ensures HomesStay(w, CommitAll(w, ops))
    decreases |ops|
  {
    hide CommitOp, CommitOk;
    if ops != [] {
      CommitKeepsHomes(w, ops[0]);
      CommitsKeepHomes(CommitOp(w, ops[0]), ops[1..]);
    }
  }

  // Only a domain made by the same request is given a thread.
  lemma RequestKeepsHomes(w: World, d: DomainId, request: Request)
    requires Sound(w) && w.IsDomain(d) && CommitAllOk(w, RequestOps(w, d, request))
    ensures HomesStay(w, CommitAll(w, RequestOps(w, d, request)))
  {
    hide Sound, CommitOk, CommitOp, AllJoin;
    var ops := RequestOps(w, d, request);
    if request.CreateDomainNamed? && request.detach && ops != [] {
      assert ops == [ops[0]] + [CreateThread(|w.domains|)];
      CommitTwo(w, ops[0], CreateThread(|w.domains|));
      DetachKeepsHomes(w, ops[0]);
    } else {
      CommitsKeepHomes(w, ops);
    }
  }

  lemma DetachKeepsHomes(w: World, op: Op)
    requires CommitOk(w, op) && op.CreateDomain? && CommitOk(CommitOp(w, op), CreateThread(|w.domains|))
    ensures HomesStay(w, CommitOp(CommitOp(w, op), CreateThread(|w.domains|)))
  {
  }

  lemma MessageKeepsHomes(
    w: World, from: AgentId, msg: Message, id: Int64, tags: set<string>, to: EntityRef, request: Request)
    requires w.IsThread(msg.threadId) && Readable(w, msg.threadId) && CommitAllOk(w, Classify(w, from, msg).ops)
    requires Applicable(CommitAll(w, Classify(w, from, msg).ops), Classify(w, from, msg).context)
    requires var w' := ApplyMessage(CommitAll(w, Classify(w, from, msg).ops), id, tags, Classify(w, from, msg).context);
             CommitAllOk(w', Requested(w', Classify(w, from, msg).context, to, request))
    ensures var ctx := Classify(w, from, msg).context;
            var w' := ApplyMessage(CommitAll(w, Classify(w, from, msg).ops), id, tags, ctx);
            HomesStay(w, CommitAll(w', Requested(w', ctx, to, request)))
            && |CommitAll(w, Classify(w, from, msg).ops).agents|
               <= |CommitAll(w', Requested(w', ctx, to, request)).agents|
  {
    hide Classify, ApplyMessage, Applicable, Sound, CommitOk, CommitOp, RequestOps, Readable;
    var p, ctx := CommitAll(w, Classify(w, from, msg).ops), Classify(w, from, msg).context;
    NoThreadsRouted(w, from, msg);
    CommitsKeepHomes(w, Classify(w, from, msg).ops);
    ApplyHasSameShape(p, id, tags, ctx);
    var w' := ApplyMessage(p, id, tags, ctx);
    if Requested(w', ctx, to, request) != [] {
      RequestKeepsHomes(w', ctx.from.domain, request);
    }
  }

  lemma NoThreadsRouted(w: World, from: AgentId, msg: Message)
    requires w.IsThread(msg.threadId) && Readable(w, msg.threadId)
    ensures forall op <- Classify(w, from, msg).ops :: !op.CreateThread?
  {
    ClassifyCases(w, from, msg);
  }

  // ----- the journal holds what is remembered

  function Messages(log: seq<Journalled>): seq<Journalled> {
    if log == [] then []
    else Messages(log[..|log| - 1]) + (if log[|log| - 1].record.MessageRecord? then [log[|log| - 1]] else [])
  }

  lemma {:induction false} MessagesConcat(a: seq<Journalled>, b: seq<Journalled>)
    ensures Messages(a + b) == Messages(a) + Messages(b)
    decreases |b|
  {
    if b == [] {
      assert a + b == a;
    } else {
      assert (a + b)[..|a + b| - 1] == a + b[..|b| - 1];
      MessagesConcat(a, b[..|b| - 1]);
    }
  }

  lemma {:induction false} CommitsAreNoMessages(entries: seq<Journalled>, ops: seq<Op>)
    requires AreCommits(entries, ops)
    ensures Messages(entries) == []
    decreases |ops|
  {
    if ops != [] {
      CommitsAreNoMessages(entries[..|entries| - 1], ops[..|ops| - 1]);
    }
  }

  lemma {:induction false} MessagesAreJournalled(log: seq<Journalled>, i: nat)
    requires i < |Messages(log)|
    ensures Messages(log)[i] in log && Messages(log)[i].record.MessageRecord?
    decreases |log|
  {
    if i < |Messages(log[..|log| - 1])| {
      MessagesAreJournalled(log[..|log| - 1], i);
    }
  }

  // The log of routed and data records is the journal without its commits; the observers see the same.
  predicate LogIsJournal(log: seq<LogEntry>, journal: seq<Journalled>, consumed: seq<Journalled>) {
    && Messages(consumed) == Messages(journal) && |Messages(journal)| == |log|
    && forall i :: 0 <= i < |log| ==> Messages(journal)[i].id == log[i].id
  }

  lemma LogFollowsJournal(
    log: seq<LogEntry>, journal: seq<Journalled>, consumed: seq<Journalled>, before: seq<Journalled>, ops: seq<Op>,
    entry: Journalled, after: seq<Journalled>, handled: seq<Op>, e: LogEntry)
    requires LogIsJournal(log, journal, consumed) && AreCommits(before, ops) && AreCommits(after, handled)
    requires entry.record.MessageRecord? && entry.id == e.id
    ensures LogIsJournal(log + [e], journal + before + [entry] + after, consumed + before + after + [entry])
  {
    hide AreCommits, Messages;
    CommitsAreNoMessages(before, ops);
    CommitsAreNoMessages(after, handled);
    MessagesConcat(before, after);
    NoMessages();
    assert Messages(before + after) == [];
    OneMessage(journal, before, entry, after);
    OneMessage(consumed, before + after, entry, []);
    assert consumed + (before + after) + [entry] + [] == consumed + before + after + [entry];
  }

  lemma NoMessages()
    ensures Messages([]) == []
  {
  }

  lemma OneMessage(log: seq<Journalled>, before: seq<Journalled>, entry: Journalled, after: seq<Journalled>)
    requires Messages(before) == [] && Messages(after) == [] && entry.record.MessageRecord?
    ensures Messages(log + before + [entry] + after) == Messages(log) + [entry]
  {
    SingleMessage(entry);
    hide Messages;
    MessagesConcat(log, before);
    MessagesConcat(log + before, [entry]);
    MessagesConcat(log + before + [entry], after);
  }

  lemma SingleMessage(entry: Journalled)
    requires entry.record.MessageRecord?
    ensures Messages([entry]) == [entry]
  {
    assert [entry][..0] == [];
  }

  // ----- what an adapter is sent

  lemma {:induction false} RememberedIsLogged(log: seq<LogEntry>, a: AgentId, x: Int64)
    requires x in MemoryFrom(log, a) && forall i :: 0 <= i < |log| ==> Issued(log[i].id)
    ensures exists i :: 0 <= i < |log| && log[i].id == UnmarkReceiving(x)
    decreases |log|
  {
    var last := log[|log| - 1];
    if x in MemoryFrom(log[..|log| - 1], a) {
      RememberedIsLogged(log[..|log| - 1], a, x);
      var i :| 0 <= i < |log| - 1 && log[..|log| - 1][i].id == UnmarkReceiving(x);
      assert log[i].id == UnmarkReceiving(x);
    } else {
      assert x == last.id || x == MarkReceiving(last.id);
      ReceivingLaws(last.id, last.id);
    }
  }

  lemma {:induction false} CutIsPart(memory: seq<Int64>, anchor: int, x: Int64)
    requires x in Cut(memory, anchor)
    ensures x in memory
    decreases |memory|
  {
    if x in Cut(memory[..|memory| - 1], anchor) {
      CutIsPart(memory[..|memory| - 1], anchor, x);
    }
  }

  lemma {:induction false} HistoryIsLogged(w: World, log: seq<LogEntry>, link: AgentLink, x: Int64)
    requires Lineage(w) && Logged(w, log) && NOT_AN_AGENT <= link.parent < |w.agents| && x in HistoryAt(w, link)
    requires forall i :: 0 <= i < |log| ==> Issued(log[i].id)
    ensures exists i :: 0 <= i < |log| && log[i].id == UnmarkReceiving(x)
    decreases link.parent
  {
    var parent := link.parent;
    if x in HistoryAt(w, w.agents[parent].params.link) {
      HistoryIsLogged(w, log, w.agents[parent].params.link, x);
    } else {
      CutIsPart(w.agents[parent].memory, link.anchor, x);
      RememberedIsLogged(log, parent, x);
    }
  }

  // What is sent is journalled, and older than the record at hand.
  predicate Recallable(sent: seq<Sent>, journal: seq<Journalled>, end: int) {
    forall m <- sent :: m.Recalled? ==>
      m.id < end && exists j :: j in journal && j.id == m.id && j.record.MessageRecord?
  }

  lemma {:induction false} RecalledIsPart(history: seq<Int64>, end: int, m: Sent)
    requires m in RecalledBefore(history, end)
    ensures m.Recalled? && m.id < end && exists x :: x in history && UnmarkReceiving(x) == m.id
    decreases |history|
  {
    var last := history[|history| - 1];
    if m in RecalledBefore(history[..|history| - 1], end) {
      RecalledIsPart(history[..|history| - 1], end, m);
    } else {
      assert last in history;
    }
  }

  lemma HistoryIsRecallable(w: World, log: seq<LogEntry>, journal: seq<Journalled>, consumed: seq<Journalled>,
      a: AgentId, end: int)
    requires Lineage(w) && Logged(w, log) && w.IsAgent(a) && LogIsJournal(log, journal, consumed)
    requires forall i :: 0 <= i < |log| ==> Issued(log[i].id)
    ensures Recallable([BeginMemory] + RecalledBefore(HistoryOf(w, a), end) + [EndMemory], journal, end)
  {
    hide Lineage, Logged, LogIsJournal, HistoryAt;
    forall m | m in RecalledBefore(HistoryOf(w, a), end)
      ensures m.Recalled? && m.id < end && exists j :: j in journal && j.id == m.id && j.record.MessageRecord?
    {
      RecalledIsPart(HistoryOf(w, a), end, m);
      var x :| x in HistoryOf(w, a) && UnmarkReceiving(x) == m.id;
      IdIsJournalled(w, log, journal, consumed, a, x);
    }
  }

  lemma IdIsJournalled(w: World, log: seq<LogEntry>, journal: seq<Journalled>, consumed: seq<Journalled>, a: AgentId,
      x: Int64)
    requires Lineage(w) && Logged(w, log) && w.IsAgent(a) && LogIsJournal(log, journal, consumed)
             && x in HistoryOf(w, a)
    requires forall i :: 0 <= i < |log| ==> Issued(log[i].id)
    ensures exists j :: j in journal && j.id == UnmarkReceiving(x) && j.record.MessageRecord?
  {
    if x in Inherited(w, a) {
      HistoryIsLogged(w, log, w.agents[a].params.link, x);
    } else {
      RememberedIsLogged(log, a, x);
    }
    var i :| 0 <= i < |log| && log[i].id == UnmarkReceiving(x);
    MessagesAreJournalled(journal, i);
  }

  lemma ContributesItsId(e: LogEntry, a: AgentId)
    requires Issued(e.id)
    ensures forall x <- Contribution(e, a) :: UnmarkReceiving(x) == e.id
  {
    ReceivingLaws(e.id, e.id);
  }

  // Memories are in order, so the adapter's early exit skips nothing.
  lemma {:induction false} LoggedIsOrdered(log: seq<LogEntry>, a: AgentId, next: int)
    requires LogOk(log, next)
    ensures Ordered(MemoryFrom(log, a)) && forall x <- MemoryFrom(log, a) :: UnmarkReceiving(x) < next
    decreases |log|
  {
    if log != [] {
      var last := log[|log| - 1];
      assert LogOk(log[..|log| - 1], last.id);
      LoggedIsOrdered(log[..|log| - 1], a, last.id);
      ContributesItsId(last, a);
      hide LogOk, Contribution;
    }
  }

  lemma AccountedIsOrdered(w: World, log: seq<LogEntry>, bound: int)
    requires Accounted(w, log, bound)
    ensures forall a :: 0 <= a < |w.agents| ==> Ordered(w.agents[a].memory)
  {
    hide Sound, ObligationsOk;
    forall a | 0 <= a < |w.agents|
      ensures Ordered(w.agents[a].memory)
    {
      LoggedIsOrdered(log, a, bound);
    }
  }

  // ----- the loop

  // One event of the poller: an adapter has said something, or its process has ended.
  datatype Polled = Received(agent: AgentId, messages: seq<(Message, Request)>) | Crashed(agent: AgentId)

  datatype Todo = Said(from: AgentId, message: Message, request: Request) | Died(agent: AgentId, rewind: Record)

  function SaidBy(a: AgentId, messages: seq<(Message, Request)>): (todos: seq<Todo>)
    ensures forall todo <- todos :: todo.Said?
  {
    seq(|messages|, i requires 0 <= i < |messages| => Said(a, messages[i].0, messages[i].1))
  }

  // The rewind of a dead agent is made when its death is noticed; the user's death only stops the runtime.
  function TodosFrom(w: World, e: Polled): seq<Todo>
    requires Sound(w) && w.IsAgent(e.agent)
  {
    match e
    case Received(a, messages) => SaidBy(a, messages)
    case Crashed(a) => if a == USER then [] else [Died(a, RewindRecord(w, a))]
  }

  function TodosOf(w: World, events: seq<Polled>): seq<Todo>
    requires Sound(w) && forall e <- events :: w.IsAgent(e.agent)
  {
    if events == [] then [] else TodosOf(w, events[..|events| - 1]) + TodosFrom(w, events[|events| - 1])
  }

  function CrashedIn(events: seq<Polled>): (crashed: set<AgentId>)
    ensures forall a :: a in crashed <==> Crashed(a) in events
  {
    if events == [] then {}
    else
      var n := |events| - 1;
      CrashedIn(events[..n]) + if events[n].Crashed? then {events[n].agent} else {}
  }

  lemma NothingPolled(w: World)
    requires Sound(w)
    ensures TodosOf(w, []) == [] && CrashedIn([]) == {}
  {
  }

  lemma TodosGrow(w: World, events: seq<Polled>, i: nat)
    requires Sound(w) && (forall e <- events :: w.IsAgent(e.agent)) && i < |events|
    ensures TodosOf(w, events[..i + 1]) == TodosOf(w, events[..i]) + TodosFrom(w, events[i])
    ensures CrashedIn(events[..i + 1]) == CrashedIn(events[..i]) + if events[i].Crashed? then {events[i].agent} else {}
  {
    hide Sound, RewindRecord;
    assert events[..i + 1][..i] == events[..i];
  }

  // A round's events are answered in order: what an adapter said message by message, a death by one rewind, and the
  // user's death by nothing.
  lemma {:induction false} TodosInOrder(w: World, a: seq<Polled>, b: seq<Polled>)
    requires Sound(w) && (forall e <- a :: w.IsAgent(e.agent)) && (forall e <- b :: w.IsAgent(e.agent))
    ensures TodosOf(w, a + b) == TodosOf(w, a) + TodosOf(w, b)
    decreases |b|
  {
    hide Sound, TodosFrom;
    if b == [] {
      assert a + b == a;
    } else {
      assert (a + b)[..|a + b| - 1] == a + b[..|b| - 1];
      TodosInOrder(w, a, b[..|b| - 1]);
    }
  }

  lemma EventIsAnswered(w: World, e: Polled)
    requires Sound(w) && w.IsAgent(e.agent)
    ensures e.Received? ==>
              && |TodosOf(w, [e])| == |e.messages|
              && forall i :: 0 <= i < |e.messages| ==>
                   TodosOf(w, [e])[i] == Said(e.agent, e.messages[i].0, e.messages[i].1)
    ensures e.Crashed? ==> TodosOf(w, [e]) == if e.agent == USER then [] else [Died(e.agent, RewindRecord(w, e.agent))]
  {
    hide Sound, RewindRecord;
    assert [e][..0] == [];
    assert TodosOf(w, [e]) == [] + TodosFrom(w, e);
  }

  // The CHECKs of preprocess and commit; a rewind passes none.
  predicate TodoOk(w: World, todo: Todo) {
    todo.Said? ==>
      && SenderOk(w, todo.from, todo.message) && ContentOk(w, todo.from, todo.message)
      && MessageCanCommit(w, todo.from, todo.message)
  }

  predicate RewindOk(w: World, todo: Todo)
    requires Sound(w)
  {
    todo.Died? ==> w.IsAgent(todo.agent) && todo.rewind == RewindRecord(w, todo.agent)
  }

  // How many records dispatching may append.
  function Needs(todo: Todo): nat {
    if todo.Said? then 2 + Appends(todo.request) else 1
  }

  predicate TodoPointsBack(todo: Todo, bound: int) {
    todo.Said? ==> PointsBack(todo.request, bound)
  }

  // What taking one item comes to: the record journalled, the agent it is delivered to, and the program left by it and
  // by the handler's answer.
  ghost predicate Dispatched(w: World, todo: Todo, entry: Journalled, to: EntityRef, w': World) {
    match todo
    case Said(from, msg, request) =>
      && w.IsThread(msg.threadId) && Readable(w, msg.threadId) && w.IsAgent(from)
      && var route := Classify(w, from, msg);
         && CommitAllOk(w, route.ops)
         && var p := CommitAll(w, route.ops);
            && Applicable(p, route.context) && to == Delivery(p, route.context)
            && entry.record ==
               MessageRecord(StampedMessage(w, from, msg), StampedTags(w, from, msg), SaveContext(p, route.context))
            && var applied := ApplyMessage(p, entry.id, entry.record.tags, route.context);
               var ops := Requested(applied, route.context, to, request);
               CommitAllOk(applied, ops) && w' == CommitAll(applied, ops)
    case Died(a, rewind) =>
      && entry.record == rewind && w.IsAgent(a) && w.IsDomain(w.agents[a].domain)
      && Applicable(w, DeathContext(w, a)) && to == Delivery(w, DeathContext(w, a))
      && w' == ApplyMessage(w, entry.id, {}, DeathContext(w, a))
  }

  predicate MustStart(drivers: set<AgentId>, to: EntityRef) {
    to.AgentRef? && to.agent !in drivers
  }

  // What the adapter of a recipient is sent ahead of the record with the given id: the history of an agent that has
  // the memory flag and whose adapter was not running, provided its anchors pass the CHECK.
  ghost predicate Greeted(w: World, drivers: set<AgentId>, to: EntityRef, id: Int64, sent: seq<Sent>) {
    && Lineage(w) && (to.AgentRef? ==> w.IsAgent(to.agent))
    && sent == if MustStart(drivers, to) && w.HasFlag(to.agent, Memory) && AnchorsReadable(w, to.agent)
               then [BeginMemory] + RecalledBefore(HistoryOf(w, to.agent), id) + [EndMemory] else []
  }

  predicate GreetingFails(w: World, drivers: set<AgentId>, to: EntityRef)
    requires Lineage(w)
  {
    MustStart(drivers, to) && w.HasFlag(to.agent, Memory) && !AnchorsReadable(w, to.agent)
  }

  function Started(drivers: set<AgentId>, to: EntityRef): set<AgentId> {
    if to.AgentRef? then drivers + {to.agent} else drivers
  }

  // One item served, and what it left.
  datatype Served = Served(entry: Journalled, to: EntityRef, sent: seq<Sent>, world: World, drivers: set<AgentId>)

  function WorldBefore(w: World, served: seq<Served>, i: nat): World
    requires i <= |served|
  {
    if i == 0 then w else served[i - 1].world
  }

  function RunningBefore(drivers: set<AgentId>, served: seq<Served>, i: nat): set<AgentId>
    requires i <= |served|
  {
    if i == 0 then drivers else served[i - 1].drivers
  }

  // The first items of a list served one after the other.
  ghost predicate InTurn(w: World, drivers: set<AgentId>, todos: seq<Todo>, served: seq<Served>) {
    && |served| <= |todos|
    && forall i :: 0 <= i < |served| ==>
         OneServed(WorldBefore(w, served, i), RunningBefore(drivers, served, i), todos[i], served[i])
  }

  ghost predicate OneServed(w: World, drivers: set<AgentId>, todo: Todo, s: Served) {
    && Dispatched(w, todo, s.entry, s.to, s.world) && Greeted(s.world, drivers, s.to, s.entry.id, s.sent)
    && s.drivers == Started(drivers, s.to)
  }

  // Each item served has its record in the journal and in the log, and what was recalled for it is in the journal too.
  predicate Recorded(served: seq<Served>, sent: seq<seq<Sent>>, past: seq<LogEntry>, log: seq<LogEntry>,
      journal: seq<Journalled>, offset: int) {
    && |sent| == |served| && past <= log && |log| == |past| + |served|
    && forall i :: 0 <= i < |served| ==>
         && sent[i] == served[i].sent && served[i].entry in journal && log[|past| + i].id == served[i].entry.id
         && Recallable(sent[i], journal, offset)
  }

  lemma ServeOneMore(w: World, drivers: set<AgentId>, todos: seq<Todo>, served: seq<Served>, s: Served)
    requires InTurn(w, drivers, todos, served) && |served| < |todos|
    requires OneServed(WorldBefore(w, served, |served|), RunningBefore(drivers, served, |served|), todos[|served|], s)
    ensures InTurn(w, drivers, todos, served + [s])
  {
    hide OneServed;
    var more := served + [s];
    forall i | 0 <= i < |more|
      ensures OneServed(WorldBefore(w, more, i), RunningBefore(drivers, more, i), todos[i], more[i])
    {
      assert WorldBefore(w, more, i) == WorldBefore(w, served, i);
      assert RunningBefore(drivers, more, i) == RunningBefore(drivers, served, i);
    }
  }

  lemma {:induction false} RunningExactly(
    w: World, drivers: set<AgentId>, todos: seq<Todo>, served: seq<Served>, i: nat, a: AgentId)
    requires InTurn(w, drivers, todos, served) && i <= |served|
    ensures a in RunningBefore(drivers, served, i) <==>
            a in drivers || exists j :: 0 <= j < i && served[j].to == AgentRef(a)
    decreases i
  {
    hide Dispatched, Greeted, InTurn, WorldBefore;
    BeforeServed(w, drivers, todos, served);
    if i > 0 {
      RunningExactly(w, drivers, todos, served, i - 1, a);
      ServedAt(w, drivers, todos, served, i - 1);
    }
  }

  lemma BeforeServed(w: World, drivers: set<AgentId>, todos: seq<Todo>, served: seq<Served>)
    requires InTurn(w, drivers, todos, served)
    ensures |served| <= |todos|
  {
    hide OneServed;
  }

  // In a round an adapter is told its agent's history exactly once: ahead of the first record for an agent that was not
  // running, if it has the memory flag and its anchors can be read.
  lemma {:induction false} FirstRecordBringsHistory(
    w: World, drivers: set<AgentId>, todos: seq<Todo>, served: seq<Served>, i: nat, a: AgentId)
    requires InTurn(w, drivers, todos, served) && i < |served| && served[i].to == AgentRef(a)
    ensures var w' := served[i].world;
            var first := a !in drivers && forall j :: 0 <= j < i ==> served[j].to != AgentRef(a);
            && Lineage(w') && w'.IsAgent(a)
            && served[i].sent ==
               if first && Memory in w'.agents[a].params.flags && AnchorsReadable(w', a)
               then [BeginMemory] + RecalledBefore(HistoryOf(w', a), served[i].entry.id) + [EndMemory] else []
  {
    RunningExactly(w, drivers, todos, served, i, a);
    hide Dispatched, InTurn, RecalledBefore, HistoryOf, AnchorsReadable, Lineage;
    assert OneServed(WorldBefore(w, served, i), RunningBefore(drivers, served, i), todos[i], served[i]) by {
      ServedAt(w, drivers, todos, served, i);
    }
  }

  lemma ServedAt(w: World, drivers: set<AgentId>, todos: seq<Todo>, served: seq<Served>, i: nat)
    requires InTurn(w, drivers, todos, served) && i < |served|
    ensures OneServed(WorldBefore(w, served, i), RunningBefore(drivers, served, i), todos[i], served[i])
  {
    hide OneServed;
  }

  class Session {
    const runtime: Runtime
    var drivers: set<AgentId>        // adapters that are running
    var stopRequested: bool
    ghost var log: seq<LogEntry>

    function State(): World
      reads runtime, runtime.program
    {
      runtime.program.State()
    }

    ghost predicate Valid()
      reads this, runtime, runtime.program
    {
      && runtime.Valid() && Accounted(State(), log, runtime.offset)
      && LogIsJournal(log, runtime.journal, runtime.consumed)
    }

    // Started on a journal, with the adapters of the runtime agent and the user.
    constructor (size: Records.Record -> Size, past: seq<Journalled>, start: int, ghost log: seq<LogEntry>)
      requires Increasing(past, start) && ReplayOk(InitialWorld(), past) && LogIsJournal(log, past, past)
      requires Accounted(Replay(InitialWorld(), past), log, start)
      ensures Valid() && fresh(runtime) && fresh(runtime.program) && this.log == log
      ensures State() == Replay(InitialWorld(), past) && runtime.journal == past && runtime.offset == start
      ensures drivers == {RUNTIME, USER} && !stopRequested
    {
      AccountedIsSound(Replay(InitialWorld(), past), log, start);
      runtime := new Runtime(size, past, start);
      drivers, stopRequested := {RUNTIME, USER}, false;
      this.log := log;
      new;
      hide *;
    }

    // What a round asks of its adapters, one event after the other.
    method Collect(events: seq<Polled>) returns (todos: seq<Todo>)
      requires Valid() && forall e <- events :: State().IsAgent(e.agent) && (e.Crashed? ==> e.agent != RUNTIME)
      modifies this`drivers, this`stopRequested
      ensures Valid() && todos == TodosOf(State(), events)
      ensures stopRequested <==> old(stopRequested) || Crashed(USER) in events
      ensures drivers == old(drivers) - CrashedIn(events)
    {
      hide Accounted, LogIsJournal, Sound, Rebuilds, Increasing, TodosOf, CrashedIn, SaidBy, RewindRecord;
      NothingPolled(State());
      todos := [];
      var i := 0;
      while i < |events|
        invariant 0 <= i <= |events| && Valid() && todos == TodosOf(State(), events[..i])
        invariant stopRequested <==> old(stopRequested) || USER in CrashedIn(events[..i])
        invariant drivers == old(drivers) - CrashedIn(events[..i])
      {
        TodosGrow(State(), events, i);
        match events[i] {
          case Received(a, messages) => todos := todos + SaidBy(a, messages);
          case Crashed(a) =>
            drivers := drivers - {a};
            if a == USER {
              stopRequested := true;
            } else {
              todos := todos + [Died(a, RewindRecord(State(), a))];
            }
        }
        i := i + 1;
      }
      assert events[..i] == events;
    }

    method DispatchSaid(from: AgentId, msg: Message, request: Request) returns (to: EntityRef, entry: Journalled)
      requires Valid() && TodoOk(State(), Said(from, msg, request)) && runtime.Room(2 + Appends(request))
      modifies this`log, runtime, runtime.program
      ensures Valid() && HomesStay(old(State()), State()) && (to.AgentRef? ==> State().IsAgent(to.agent))
      ensures entry in runtime.journal && entry.record.MessageRecord?
              && old(runtime.offset) <= entry.id < runtime.offset
      ensures old(runtime.journal) <= runtime.journal && old(runtime.consumed) <= runtime.consumed
      ensures old(log) <= log && |log| == |old(log)| + 1 && log[|old(log)|].id == entry.id
      ensures Dispatched(old(State()), Said(from, msg, request), entry, to, State())
      ensures MemoryOk(old(State()), old(runtime.offset)) && PointsBack(request, old(runtime.offset)) ==>
                MemoryOk(State(), runtime.offset)
    {
      hide Accounted, LogIsJournal, Classify, ApplyMessage, Applicable;
      hide Requested, Sound, Readable, MemoryOk, PointsBack;
      hide StampedMessage, StampedTags, SaveContext, MessageCanCommit, ContentOk;
      hide CommitAll, CommitAllOk, AreCommits, Recipient;
      hide Rebuilds, Increasing, HomesStay;
      ghost var w := State();
      ghost var offset := runtime.offset;
      MessageCommitsExactly(w, from, msg);
      AccountedIsSound(w, log, offset);
      ghost var before, after;
      to, before, entry, after := runtime.Dispatch(from, msg, request);
      var id := entry.id;
      ghost var route := Classify(w, from, msg);
      ghost var p := CommitAll(w, route.ops);
      ghost var e := Runs.Record(p, id, route.context);
      ghost var w' := ApplyMessage(p, id, entry.record.tags, route.context);
      MessageKeepsAccounted(w, from, msg, id, entry.record.tags, to, request, log, offset);
      MessageKeepsHomes(w, from, msg, id, entry.record.tags, to, request);
      AccountedLater(State(), log + [e], id + 1, runtime.offset);
      LogFollowsJournal(log, old(runtime.journal), old(runtime.consumed), before, route.ops, entry, after,
                        Requested(w', route.context, to, request), e);
      DeliveryIsAgent(p, route.context);
      if MemoryOk(w, offset) && PointsBack(request, offset) {
        PointsBackLater(request, offset, id + 1);
        MessageKeepsMemory(w, from, msg, id, entry.record.tags, to, request, offset);
        MemoryOkLater(State(), id + 1, runtime.offset);
      }
      log := log + [e];
    }

    method DispatchDied(a: AgentId, rewind: Record) returns (to: EntityRef, entry: Journalled)
      requires Valid() && RewindOk(State(), Died(a, rewind)) && runtime.Room(1)
      modifies this`log, runtime, runtime.program
      ensures Valid() && HomesStay(old(State()), State()) && (to.AgentRef? ==> State().IsAgent(to.agent))
      ensures entry in runtime.journal && entry.record.MessageRecord?
              && old(runtime.offset) <= entry.id < runtime.offset
      ensures old(runtime.journal) <= runtime.journal && old(runtime.consumed) <= runtime.consumed
      ensures old(log) <= log && |log| == |old(log)| + 1 && log[|old(log)|].id == entry.id
      ensures Dispatched(old(State()), Died(a, rewind), entry, to, State())
      ensures MemoryOk(old(State()), old(runtime.offset)) ==> MemoryOk(State(), runtime.offset)
    {
      hide Accounted, LogIsJournal, ApplyMessage, Applicable, Sound;
      hide MemoryOk, SaveContext, Recipient, Rebuilds, Increasing;
      ghost var w := State();
      ghost var offset := runtime.offset;
      AccountedIsSound(w, log, offset);
      RewindIsOk(w, a);
      to, entry := runtime.DispatchDeath(a, rewind);
      var id := entry.id;
      ghost var ctx := DeathContext(w, a);
      ghost var e := Runs.Record(w, id, ctx);
      DeathKeepsAccounted(w, a, id, log, offset);
      AccountedLater(State(), log + [e], id + 1, runtime.offset);
      NothingCommitted();
      LogFollowsJournal(log, old(runtime.journal), old(runtime.consumed), [], [], entry, [], [], e);
      AroundNothing(old(runtime.journal), entry);
      AroundNothing(old(runtime.consumed), entry);
      ApplyHasSameShape(w, id, {}, ctx);
      DeliveryIsAgent(w, ctx);
      if MemoryOk(w, offset) {
        ApplyKeepsMemory(w, id, {}, ctx, offset);
        MemoryOkLater(State(), id + 1, runtime.offset);
      }
      log := log + [e];
    }

    // An adapter just started is sent its agent's history. The runtime agent's adapter always runs, so the handler has
    // committed nothing since the record was applied.
    method Welcome(a: AgentId, end: Int64) returns (ok: bool, sent: seq<Sent>)
      requires Valid() && State().IsAgent(a)
      ensures Lineage(State()) && (ok <==> (State().HasFlag(a, Memory) ==> AnchorsReadable(State(), a)))
      ensures ok ==> Recallable(sent, runtime.journal, end)
      ensures ok ==> sent == if State().HasFlag(a, Memory)
                             then [BeginMemory] + RecalledBefore(HistoryOf(State(), a), end) + [EndMemory] else []
      ensures !ok ==> sent == []
    {
      hide Sound, LogIsJournal, Logged, LogOk, Ordered, HistoryOf, RecalledBefore, Rebuilds, Increasing;
      var w := State();
      SoundIds(w);
      AccountedIsOrdered(w, log, runtime.offset);
      sent := [];
      ok := !w.HasFlag(a, Memory) || AnchorsReadable(w, a);
      if ok {
        sent := UpdateMemory(w, a, end);
        LogIdsIssued(log, runtime.offset);
        HistoryIsRecallable(w, log, runtime.journal, runtime.consumed, a, end);
      }
    }

    // One message or rewind: dispatched, and delivered. An adapter that has to be started first is sent its agent's
    // history up to this record; ok is false when the CHECK on an anchor of that history fails.
    method Take(todo: Todo) returns (ok: bool, sent: seq<Sent>, entry: Journalled, to: EntityRef)
      requires Valid() && TodoOk(State(), todo) && RewindOk(State(), todo) && runtime.Room(Needs(todo))
      modifies this`drivers, this`log, runtime, runtime.program
      ensures Valid() && HomesStay(old(State()), State())
      ensures entry in runtime.journal && entry.record.MessageRecord?
              && old(runtime.offset) <= entry.id < runtime.offset
      ensures old(runtime.journal) <= runtime.journal && old(runtime.consumed) <= runtime.consumed
      ensures old(log) <= log && |log| == |old(log)| + 1 && log[|old(log)|].id == entry.id
      ensures MemoryOk(old(State()), old(runtime.offset)) && TodoPointsBack(todo, old(runtime.offset)) ==>
                MemoryOk(State(), runtime.offset)
      ensures Recallable(sent, runtime.journal, entry.id)
      ensures OneServed(old(State()), old(drivers), todo, Served(entry, to, sent, State(), drivers))
      ensures Lineage(State()) && (ok <==> !GreetingFails(State(), old(drivers), to))
    {
      hide Accounted, LogIsJournal, HomesStay, MemoryOk, PointsBack, Dispatched;
      hide AnchorsReadable, Recallable, Rebuilds, Increasing, Sound;
      match todo {
        case Said(from, msg, request) => to, entry := DispatchSaid(from, msg, request);
        case Died(a, rewind) => to, entry := DispatchDied(a, rewind);
      }
      AccountedIsSound(State(), log, runtime.offset);
      NothingRecalled(runtime.journal, entry.id);
      sent := [];
      ok := true;
      if to.AgentRef? && to.agent !in drivers {
        drivers := drivers + {to.agent};
        ok, sent := Welcome(to.agent, entry.id);
      }
    }

    // The next item fails a CHECK, or the journal has no room for it.
    predicate Stuck(todos: seq<Todo>, next: nat)
      reads runtime, runtime.program
    {
      next < |todos| && !(TodoOk(State(), todos[next]) && runtime.Room(Needs(todos[next])))
    }

    lemma StateIsSound()
      requires Valid()
      ensures Sound(State()) && Lineage(State())
    {
      AccountedIsSound(State(), log, runtime.offset);
    }

    // One round: what the poller reports is collected, and then dispatched in order. The rewinds are made before
    // anything is dispatched, and still describe the dead agents when their turn comes. The round stops early only at
    // a CHECK, or when the journal is full; ok is false then.
    method Round(events: seq<Polled>) returns (ok: bool, done: nat, sent: seq<seq<Sent>>, ghost served: seq<Served>)
      requires Valid() && forall e <- events :: State().IsAgent(e.agent) && (e.Crashed? ==> e.agent != RUNTIME)
      modifies this, runtime, runtime.program
      ensures Valid() && old(runtime.journal) <= runtime.journal && old(runtime.consumed) <= runtime.consumed
      ensures InTurn(old(State()), old(drivers) - CrashedIn(events), TodosOf(old(State()), events), served)
      ensures State() == WorldBefore(old(State()), served, |served|)
      ensures drivers == RunningBefore(old(drivers) - CrashedIn(events), served, |served|)
      ensures |served| == done && Recorded(served, sent, old(log), log, runtime.journal, runtime.offset)
      ensures stopRequested <==> old(stopRequested) || Crashed(USER) in events
      ensures Lineage(State()) && (ok ==> done == |TodosOf(old(State()), events)|)
      ensures !ok ==>
                || (exists a :: State().IsAgent(a) && !AnchorsReadable(State(), a))
                || Stuck(TodosOf(old(State()), events), done)
      ensures MemoryOk(old(State()), old(runtime.offset))
              && (forall todo <- TodosOf(old(State()), events) :: TodoPointsBack(todo, old(runtime.offset)))
              ==> MemoryOk(State(), runtime.offset)
    {
      hide Accounted, LogIsJournal, HomesStay, MemoryOk, PointsBack, InTurn, OneServed, CrashedIn, Recorded;
      hide AnchorsReadable, Recallable, Rebuilds, Increasing, Sound, Valid;
      hide TodosOf, TodoOk, RewindRecord, Lineage, RewindOk, TodoPointsBack;
      StateIsSound();
      var todos := Collect(events);
      ghost var w, running, stop := State(), drivers, stopRequested;
      RewindsAreMade(w, events);
      HomesAreKept(w);
      NoneServed(w, drivers, todos, log, runtime.journal, runtime.offset);
      ok, done, sent, served := true, 0, [], [];
      while done < |todos|
        invariant 0 <= done <= |todos| && ok && Valid() && Lineage(State()) && Sound(w) && HomesStay(w, State())
        invariant old(runtime.journal) <= runtime.journal && old(runtime.consumed) <= runtime.consumed
        invariant old(runtime.offset) <= runtime.offset && stopRequested == stop
        invariant |served| == done && Recorded(served, sent, old(log), log, runtime.journal, runtime.offset)
        invariant InTurn(w, running, todos, served)
        invariant State() == WorldBefore(w, served, done) && drivers == RunningBefore(running, served, done)
        invariant MemoryOk(w, old(runtime.offset))
                  && (forall todo <- todos :: TodoPointsBack(todo, old(runtime.offset))) ==>
                    MemoryOk(State(), runtime.offset)
      {
        StateIsSound();
        if !TodoOk(State(), todos[done]) || !runtime.Room(Needs(todos[done])) {
          return false, done, sent, served;
        }
        RewindsStay(w, State(), todos, done);
        ghost var before, logged, journal, offset := State(), log, runtime.journal, runtime.offset;
        if TodoPointsBack(todos[done], old(runtime.offset)) {
          TodoPointsBackLater(todos[done], old(runtime.offset), offset);
        }
        var more, entry, to;
        ok, more, entry, to := Take(todos[done]);
        HomesStayOn(w, before, State());
        ghost var s := Served(entry, to, more, State(), drivers);
        RecordMore(served, sent, old(log), logged, journal, offset, s, log, runtime.journal, runtime.offset);
        ServeOneMore(w, running, todos, served, s);
        sent, served, done := sent + [more], served + [s], done + 1;
        if !ok {
          return;
        }
      }
    }
  }

  lemma RecordMore(served: seq<Served>, sent: seq<seq<Sent>>, past: seq<LogEntry>, log: seq<LogEntry>,
      journal: seq<Journalled>, offset: int, s: Served, log': seq<LogEntry>, journal': seq<Journalled>, offset': int)
    requires Recorded(served, sent, past, log, journal, offset) && log <= log' && journal <= journal'
    requires |log'| == |log| + 1 && log'[|log|].id == s.entry.id && s.entry in journal'
    requires offset <= s.entry.id < offset' && Recallable(s.sent, journal', s.entry.id)
    ensures Recorded(served + [s], sent + [s.sent], past, log', journal', offset')
  {
    hide Recallable;
    RecallableLater(s.sent, journal', s.entry.id, journal', offset');
    forall i | 0 <= i < |served|
      ensures Recallable(sent[i], journal', offset') && served[i].entry in journal'
    {
      RecallableLater(sent[i], journal, offset, journal', offset');
      var k :| 0 <= k < |journal| && journal[k] == served[i].entry;
      assert journal'[k] == served[i].entry;
    }
  }

  lemma NoneServed(w: World, drivers: set<AgentId>, todos: seq<Todo>, log: seq<LogEntry>, journal: seq<Journalled>,
      offset: int)
    ensures InTurn(w, drivers, todos, []) && Recorded([], [], log, log, journal, offset)
  {
  }

  // The first session starts on an empty journal, and any later one on the journal an earlier one leaves.
  lemma StartIsAccounted()
    ensures Accounted(InitialWorld(), [], 0) && LogIsJournal([], [], []) && Increasing([], 0)
    ensures ReplayOk(InitialWorld(), []) && Replay(InitialWorld(), []) == InitialWorld()
  {
    StartIsValid();
    AccountedWithAnchors(InitialWorld(), [], 0);
    hide Valid, Accounted;
  }

  lemma RestartIsAccounted(s: Session)
    requires s.Valid()
    ensures var past := s.runtime.journal;
            && Increasing(past, s.runtime.offset) && ReplayOk(InitialWorld(), past) && LogIsJournal(s.log, past, past)
            && Replay(InitialWorld(), past) == s.State() && Accounted(s.State(), s.log, s.runtime.offset)
  {
    hide Accounted, Sound, Increasing;
  }

  lemma HomesAreKept(w: World)
    ensures HomesStay(w, w)
  {
  }

  lemma HomesStayOn(w0: World, w1: World, w2: World)
    requires HomesStay(w0, w1) && HomesStay(w1, w2)
    ensures HomesStay(w0, w2)
  {
  }

  lemma {:induction false} RewindsAreMade(w: World, events: seq<Polled>)
    requires Sound(w) && forall e <- events :: w.IsAgent(e.agent)
    ensures forall todo <- TodosOf(w, events) :: RewindOk(w, todo)
    decreases |events|
  {
    hide Sound, RewindRecord;
    if events != [] {
      RewindsAreMade(w, events[..|events| - 1]);
    }
  }

  lemma RewindsStay(w: World, w': World, todos: seq<Todo>, i: nat)
    requires Sound(w) && Sound(w') && HomesStay(w, w') && i < |todos| && forall todo <- todos :: RewindOk(w, todo)
    ensures RewindOk(w', todos[i])
  {
    hide Sound, RewindRecord;
    if todos[i].Died? {
      assert RewindOk(w, todos[i]);
      RewindStays(w, w', todos[i].agent);
    }
  }

  lemma TodoPointsBackLater(todo: Todo, bound: int, later: int)
    requires TodoPointsBack(todo, bound) && bound <= later
    ensures TodoPointsBack(todo, later)
  {
  }

  lemma RecallableLater(sent: seq<Sent>, journal: seq<Journalled>, end: int, more: seq<Journalled>, later: int)
    requires Recallable(sent, journal, end) && journal <= more && end <= later
    ensures Recallable(sent, more, later)
  {
    forall m | m in sent && m.Recalled?
      ensures m.id < later && exists j :: j in more && j.id == m.id && j.record.MessageRecord?
    {
      var j :| j in journal && j.id == m.id && j.record.MessageRecord?;
      var k :| 0 <= k < |journal| && journal[k] == j;
      assert more[k] == j;
    }
  }

  lemma NothingCommitted()
    ensures AreCommits([], [])
  {
  }

  lemma AroundNothing(log: seq<Journalled>, entry: Journalled)
    ensures log + [] + [entry] + [] == log + [entry] && log + [] + [] + [entry] == log + [entry]
  {
  }

  lemma NothingRecalled(journal: seq<Journalled>, end: int)
    ensures Recallable([], journal, end)
  {
  }

  lemma LogIdsIssued(log: seq<LogEntry>, bound: int)
    requires LogOk(log, bound)
    ensures forall i :: 0 <= i < |log| ==> Issued(log[i].id)
  {
  }
}
