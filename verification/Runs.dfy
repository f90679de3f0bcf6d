// Whole runs: from the initial program, through any interleaving of messages, structural commits and agent deaths.
module Runs {
  import opened Common
  import opened AccessIds
  import opened World
  import opened Transition
  import opened Routing
  import opened Soundness
  import opened Preservation
  import opened Growth
  import opened Preprocess
  import opened Accounting
  import opened History
  import opened Memories

  // Program::Program: one thread, the global domain, and the agents zero, runtime and user.
  function InitialWorld(): World {
    var params := AgentParams(AgentLink(NOT_AN_AGENT, NO_ACCESS_ID), "zero", "", "", {});
    var fork := params.(link := AgentLink(ZERO, NO_ACCESS_ID));
    World(
      [Domain(GLOBAL, "global", None, 0, true, Entry(USER, ZERO),
          [("zero", ZERO), ("runtime", RUNTIME), ("user", USER)], map[])],
      [NewAgent(ZERO, params, GLOBAL),
       NewAgent(RUNTIME, fork.(name := "runtime"), GLOBAL),
       NewAgent(USER, fork.(name := "user", flags := {Catch, Threading}), GLOBAL)],
      map[],
      [Thread(0, GLOBAL, false, [], [])])
  }

  // What the journal says about one routed or data record.
  datatype LogEntry = LogEntry(id: Int64, action: Action, thread: ThreadId, from: AgentId, to: AgentId)

  datatype Run = Run(world: World, log: seq<LogEntry>, next: int)

  datatype Event =
    | Sends(from: AgentId, message: Message, id: Int64)
    | Commits(op: Op)
    | Dies(agent: AgentId, id: Int64)

  predicate Enabled(r: Run, ev: Event) {
    var w := r.world;
    match ev
    case Sends(from, msg, id) =>
      && SenderOk(w, from, msg) && ContentOk(w, from, msg)
      && CommitAllOk(w, Classify(w, from, msg).ops)
      && Applicable(CommitAll(w, Classify(w, from, msg).ops), Classify(w, from, msg).context)
      && Issued(id) && r.next <= id
    case Commits(op) => Issuable(w, op) && Timely(op, r.next)
    case Dies(a, id) =>
      && w.IsAgent(a) && a != USER && a != RUNTIME && w.IsDomain(w.agents[a].domain)
      && Applicable(w, DeathContext(w, a)) && Issued(id) && r.next <= id
  }

  function Record(w: World, id: Int64, ctx: Context): LogEntry
    requires Applicable(w, ctx)
  {
    LogEntry(id, ctx.action, ctx.thread, ctx.from.agent, Recipient(w, ctx))
  }

  function Step(r: Run, ev: Event): Run
    requires Enabled(r, ev)
  {
    match ev
    case Sends(from, msg, id) =>
      var route := Classify(r.world, from, msg);
      var w := CommitAll(r.world, route.ops);
      var tags := StampedTags(r.world, from, msg);
      Run(ApplyMessage(w, id, tags, route.context), r.log + [Record(w, id, route.context)], id + 1)
    case Commits(op) => r.(world := CommitOp(r.world, op))
    case Dies(a, id) =>
      var ctx := DeathContext(r.world, a);
      Run(ApplyMessage(r.world, id, {}, ctx), r.log + [Record(r.world, id, ctx)], id + 1)
  }

  // ----- conservation

  // What the log contributes to agent a's memory, and to thread t's trace.
  function Contribution(e: LogEntry, a: AgentId): seq<Int64> {
    if e.action == DATA then (if e.from == a then [e.id] else []) else Remembered(a, e.id, e.from, e.to)
  }

  function MemoryFrom(log: seq<LogEntry>, a: AgentId): seq<Int64> {
    if log == [] then [] else MemoryFrom(log[..|log| - 1], a) + Contribution(log[|log| - 1], a)
  }

  function TraceFrom(log: seq<LogEntry>, t: ThreadId): seq<Int64> {
    if log == [] then []
    else
      var e := log[|log| - 1];
      TraceFrom(log[..|log| - 1], t) + (if e.action != DATA && e.thread == t then [e.id] else [])
  }

  predicate LogOk(log: seq<LogEntry>, next: int) {
    && (forall i :: 0 <= i < |log| ==> Issued(log[i].id) && log[i].id < next)
    && (forall i, j :: 0 <= i < j < |log| ==> log[i].id < log[j].id)
  }

  // Memories and traces hold exactly what the log says, in log order.
  predicate Logged(w: World, log: seq<LogEntry>) {
    && (forall a :: 0 <= a < |w.agents| ==> w.agents[a].memory == MemoryFrom(log, a))
    && (forall t :: 0 <= t < |w.threads| ==> w.threads[t].trace == TraceFrom(log, t))
    && (forall i :: 0 <= i < |log| ==> w.IsAgent(log[i].from) && w.IsAgent(log[i].to) && w.IsThread(log[i].thread))
  }

  predicate Valid(r: Run) {
    && Sound(r.world) && ObligationsOk(r.world) && MemoryOk(r.world, r.next) && r.next >= 0
    && LogOk(r.log, r.next) && Logged(r.world, r.log)
  }

  lemma {:induction false} NobodyRemembers(log: seq<LogEntry>, a: AgentId)
    requires forall i :: 0 <= i < |log| ==> log[i].from != a && log[i].to != a
    ensures MemoryFrom(log, a) == []
    decreases |log|
  {
    if log != [] {
      NobodyRemembers(log[..|log| - 1], a);
    }
  }

  lemma {:induction false} NothingTraced(log: seq<LogEntry>, t: ThreadId)
    requires forall i :: 0 <= i < |log| ==> log[i].thread != t
    ensures TraceFrom(log, t) == []
    decreases |log|
  {
    if log != [] {
      NothingTraced(log[..|log| - 1], t);
    }
  }

  lemma {:induction false} ApplyKeepsLogged(w: World, log: seq<LogEntry>, id: Int64, tags: set<string>, ctx: Context)
    requires Applicable(w, ctx) && Logged(w, log)
    requires ctx.action == CALL || ctx.action == RETURN || ctx.action == REWIND || ctx.action == DATA
    ensures Logged(ApplyMessage(w, id, tags, ctx), log + [Record(w, id, ctx)])
  {
    assert (log + [Record(w, id, ctx)])[..|log|] == log;
    var stack := w.threads[ctx.thread].stack;
    assert forall i :: 0 <= i < |stack| ==> FrameInRange(w, stack[i]);
  }

  lemma {:induction false} GrowthKeepsLogged(w: World, w': World, log: seq<LogEntry>)
    requires Logged(w, log) && Extends(w, w')
    requires forall a :: |w.agents| <= a < |w'.agents| ==> w'.agents[a].memory == []
    requires forall t :: |w.threads| <= t < |w'.threads| ==> w'.threads[t].trace == []
    ensures Logged(w', log)
  {
    forall a | 0 <= a < |w'.agents|
      ensures w'.agents[a].memory == MemoryFrom(log, a)
    {
      if a < |w.agents| {
        assert w'.agents[a] == w'.agents[..|w.agents|][a];
      } else {
        NobodyRemembers(log, a);
      }
    }
    forall t | 0 <= t < |w'.threads|
      ensures w'.threads[t].trace == TraceFrom(log, t)
    {
      if t < |w.threads| {
        assert w'.threads[t] == w'.threads[..|w.threads|][t];
      } else {
        NothingTraced(log, t);
      }
    }
  }

  // ----- steps

  lemma CommitAddsIdle(w: World, op: Op)
    requires CommitOk(w, op)
    ensures var w' := CommitOp(w, op);
            && |w.agents| <= |w'.agents| && |w.threads| <= |w'.threads|
            && (forall a :: |w.agents| <= a < |w'.agents| ==>
                  w'.agents[a].memory == [] && w'.agents[a].obligations == 0)
            && (forall t :: |w.threads| <= t < |w'.threads| ==> w'.threads[t].trace == [] && w'.threads[t].stack == [])
  {
  }

  lemma {:induction false} CommitKeepsValid(r: Run, op: Op)
    requires Valid(r) && Issuable(r.world, op) && Timely(op, r.next)
    ensures Valid(r.(world := CommitOp(r.world, op)))
  {
    CommitKeepsSound(r.world, op);
    CommitAddsIdle(r.world, op);
    GrowthKeepsObligations(r.world, CommitOp(r.world, op));
    CommitKeepsMemory(r.world, op, r.next);
    GrowthKeepsLogged(r.world, CommitOp(r.world, op), r.log);
  }

  lemma {:induction false} ApplyKeepsValid(r: Run, id: Int64, tags: set<string>, ctx: Context)
    requires Valid(r) && Applicable(r.world, ctx) && Issued(id) && r.next <= id
    requires Sound(ApplyMessage(r.world, id, tags, ctx))
    requires ctx.action == RETURN ==>
               var stack := r.world.threads[ctx.thread].stack; stack[|stack| - 1].to.agent == ctx.from.agent
    ensures Valid(Run(ApplyMessage(r.world, id, tags, ctx), r.log + [Record(r.world, id, ctx)], id + 1))
  {
    hide Sound, ObligationsOk, MemoryOk, LogOk, Logged, ApplyMessage;
    var w', log' := ApplyMessage(r.world, id, tags, ctx), r.log + [Record(r.world, id, ctx)];
    assert ObligationsOk(w') by { ApplyKeepsObligations(r.world, id, tags, ctx); }
    assert MemoryOk(w', id + 1) by { ApplyKeepsMemory(r.world, id, tags, ctx, r.next); }
    assert Logged(w', log') by { ApplyKeepsLogged(r.world, r.log, id, tags, ctx); }
    LogGrows(r.log, r.next, Record(r.world, id, ctx));
  }

  lemma LogGrows(log: seq<LogEntry>, next: int, e: LogEntry)
    requires LogOk(log, next) && Issued(e.id) && next <= e.id
    ensures LogOk(log + [e], e.id + 1)
  {
  }

  // The world in which a message is finally applied: after the operations its routing commits.
  function Prepared(r: Run, from: AgentId, msg: Message): Run
    requires r.world.IsThread(msg.threadId) && Readable(r.world, msg.threadId)
    requires CommitAllOk(r.world, Classify(r.world, from, msg).ops)
  {
    r.(world := CommitAll(r.world, Classify(r.world, from, msg).ops))
  }

  lemma ClassifyOps(w: World, from: AgentId, msg: Message, bound: int)
    requires Sound(w) && MemoryOk(w, bound) && w.IsThread(msg.threadId) && Readable(w, msg.threadId)
    requires CommitAllOk(w, Classify(w, from, msg).ops)
    ensures var ops := Classify(w, from, msg).ops;
            || ops == []
            || (&& |ops| == 1 && Issuable(w, ops[0]) && !ops[0].CreateThread? && Timely(ops[0], bound)
                && CommitAll(w, ops) == CommitOp(w, ops[0]))
  {
    ClassifyCases(w, from, msg);
    if Classify(w, from, msg).ops != [] {
      RouteCallOps(w, msg.threadId, msg.To());
      var e := w.Expected(msg.threadId);
      match Resolve(w, msg.To(), e.domain).target
      case ToAgent(a) =>
        if w.IsAgent(a) { ForkStartsWithHistory(w, a, bound); }
      case _ =>
    }
  }

  lemma {:induction false} PreparedIsValid(r: Run, from: AgentId, msg: Message)
    requires Valid(r) && r.world.IsThread(msg.threadId) && Readable(r.world, msg.threadId)
    requires CommitAllOk(r.world, Classify(r.world, from, msg).ops)
    ensures Valid(Prepared(r, from, msg))
    ensures Faithful(Prepared(r, from, msg).world, Classify(r.world, from, msg).context)
  {
    ClassifyOps(r.world, from, msg, r.next);
    var ops := Classify(r.world, from, msg).ops;
    if ops != [] {
      CommitKeepsValid(r, ops[0]);
    }
    ClassifyIsFaithful(r.world, from, msg, Prepared(r, from, msg).world);
  }

  lemma {:induction false} SendKeepsValid(p: Run, id: Int64, tags: set<string>, ctx: Context)
    requires Valid(p) && Faithful(p.world, ctx) && Applicable(p.world, ctx) && Issued(id) && p.next <= id
    ensures Valid(Run(ApplyMessage(p.world, id, tags, ctx), p.log + [Record(p.world, id, ctx)], id + 1))
  {
    assert Sound(ApplyMessage(p.world, id, tags, ctx)) by { ApplyKeepsSound(p.world, id, tags, ctx); }
    if ctx.action == RETURN { FaithfulReturnAnswersTop(p.world, ctx); }
    ApplyKeepsValid(p, id, tags, ctx);
  }

  lemma SendsIs(r: Run, from: AgentId, msg: Message, id: Int64)
    requires Enabled(r, Sends(from, msg, id))
    ensures r.world.IsThread(msg.threadId) && Readable(r.world, msg.threadId) && r.world.IsAgent(from)
    ensures CommitAllOk(r.world, Classify(r.world, from, msg).ops)
    ensures var p := Prepared(r, from, msg);
            var ctx := Classify(r.world, from, msg).context;
            && Applicable(p.world, ctx) && p.next == r.next
            && Step(r, Sends(from, msg, id)) ==
               Run(ApplyMessage(p.world, id, StampedTags(r.world, from, msg), ctx),
                   p.log + [Record(p.world, id, ctx)], id + 1)
  {
  }

  lemma DeathIs(r: Run, a: AgentId, id: Int64)
    requires Enabled(r, Dies(a, id))
    ensures var ctx := DeathContext(r.world, a);
            Step(r, Dies(a, id)) == Run(ApplyMessage(r.world, id, {}, ctx), r.log + [Record(r.world, id, ctx)], id + 1)
  {
  }

  lemma {:induction false} DeathKeepsValid(r: Run, a: AgentId, id: Int64)
    requires Valid(r) && Enabled(r, Dies(a, id))
    ensures Valid(Step(r, Dies(a, id)))
  {
    var ctx := DeathContext(r.world, a);
    assert Sound(ApplyMessage(r.world, id, {}, ctx)) by { DeathKeepsSound(r.world, id, a); }
    DeathIs(r, a, id);
    ApplyKeepsValid(r, id, {}, ctx);
  }

  lemma {:induction false} StepKeepsValid(r: Run, ev: Event)
    requires Valid(r) && Enabled(r, ev)
    ensures Valid(Step(r, ev))
  {
    match ev
    case Sends(from, msg, id) =>
      SendsIs(r, from, msg, id);
      PreparedIsValid(r, from, msg);
      SendKeepsValid(Prepared(r, from, msg), id, StampedTags(r.world, from, msg), Classify(r.world, from, msg).context);
    case Commits(op) => CommitKeepsValid(r, op);
    case Dies(a, id) => DeathKeepsValid(r, a, id);
  }

  predicate AllEnabled(r: Run, events: seq<Event>)
    decreases |events|
  {
    events == [] || (Enabled(r, events[0]) && AllEnabled(Step(r, events[0]), events[1..]))
  }

  function Play(r: Run, events: seq<Event>): Run
    requires AllEnabled(r, events)
    decreases |events|
  {
    if events == [] then r else Play(Step(r, events[0]), events[1..])
  }

  const Start: Run := Run(InitialWorld(), [], 0)

  lemma StartIsSound()
    ensures Sound(InitialWorld())
  {
    var w := InitialWorld();
    assert MembersOk(w, 0) && ChildrenOk(w, 0) && ParentOk(w, 0) && EntryOk(w, 0);
    assert Tree(w) && Roots(w) && Ids(w);
    assert StackOk(w, 0);
  }

  lemma {:induction false} StartIsValid()
    ensures Valid(Start)
  {
    var w := InitialWorld();
    assert Sound(w) by { StartIsSound(); }
    assert ObligationsOk(w) by {
      forall a ensures Owed(w.threads, a) == 0 { NothingOwed(w.threads, a); }
    }
    hide Sound, ObligationsOk;
    assert AgentMemoryOk(w, 0, 0) && AgentMemoryOk(w, 1, 0) && AgentMemoryOk(w, 2, 0);
  }

  // Structure, obligation counts, memory order and conservation hold in every reachable state.
  lemma {:induction false} EveryRunIsValid(r: Run, events: seq<Event>)
    requires Valid(r) && AllEnabled(r, events)
    ensures Valid(Play(r, events))
    decreases |events|
  {
    if events != [] {
      StepKeepsValid(r, events[0]);
      EveryRunIsValid(Step(r, events[0]), events[1..]);
    }
  }

  // ----- reachable states

  // What some run from the initial program leads to.
  ghost predicate Reachable(r: Run) {
    exists events :: AllEnabled(Start, events) && Play(Start, events) == r
  }

  lemma StartIsReachable()
    ensures Reachable(Start)
  {
    assert AllEnabled(Start, []) && Play(Start, []) == Start;
  }

  lemma {:induction false} PlayOneMore(r: Run, events: seq<Event>, ev: Event)
    requires AllEnabled(r, events) && Enabled(Play(r, events), ev)
    ensures AllEnabled(r, events + [ev]) && Play(r, events + [ev]) == Step(Play(r, events), ev)
    decreases |events|
  {
    hide Enabled, Step;
    if events == [] {
      assert (events + [ev])[1..] == [];
    } else {
      assert (events + [ev])[1..] == events[1..] + [ev];
      PlayOneMore(Step(r, events[0]), events[1..], ev);
    }
  }

  lemma StepIsReachable(r: Run, ev: Event)
    requires Reachable(r) && Enabled(r, ev)
    ensures Reachable(Step(r, ev))
  {
    var events :| AllEnabled(Start, events) && Play(Start, events) == r;
    PlayOneMore(Start, events, ev);
  }

  lemma ReachableIsValid(r: Run)
    requires Reachable(r)
    ensures Valid(r)
  {
    var events :| AllEnabled(Start, events) && Play(Start, events) == r;
    StartIsValid();
    EveryRunIsValid(Start, events);
  }
}
