// Short runs from the initial program at which an expected property fails: each shows that the failing half of an
// exact condition proved elsewhere is met.
module Witnesses {
  import opened Common
  import opened AccessIds
  import opened World
  import opened Transition
  import opened Routing
  import opened Soundness
  import opened Preservation
  import opened Growth
  import opened Preprocess
  import opened Accounting
  import opened Runs
  import opened Turns
  import opened Snapshots
  import opened History
  import opened Commands
  import opened Service
  import Gating
  import Ui

  // ----- short runs

  predicate PlainName(name: string) {
    name != "" && name[0] != '&' && name[0] != '*'
  }

  function Named(name: string, flags: set<Flag>): AgentParams {
    AgentParams(AgentLink(ZERO, NO_ACCESS_ID), name, "", "service", flags)
  }

  // A message on thread t addressed to a name, with no other headers.
  function Addressing(t: ThreadId, name: string): Message {
    Message(false, "", None, Some(name), t, None, None, [], "", "")
  }

  // A message on thread t that answers the record with the given id.
  function Answering(t: ThreadId, id: int): Message {
    Message(false, "", None, None, t, Some(id), None, [], "", "")
  }

  // A state that a run of messages in turn and commits leads to.
  ghost predicate Reached(r: Run) {
    Reachable(r) && Orderly(r)
  }

  lemma StartIsReached()
    ensures Reached(Start)
  {
    StartIsReachable();
    StartIsOrderly();
  }

  lemma CommitIsReached(r: Run, op: Op)
    requires Reached(r) && Enabled(r, Commits(op))
    ensures Reached(Step(r, Commits(op))) && Step(r, Commits(op)) == r.(world := CommitOp(r.world, op))
  {
    hide Reachable, Orderly;
    StepIsReachable(r, Commits(op));
    CommitKeepsOrderly(r, op);
  }

  lemma ReachedIsSound(r: Run)
    requires Reached(r)
    ensures Orderly(r) && Sound(r.world) && Roots(r.world) && PendingOk(r.world)
  {
    hide Reachable;
  }

  // An agent descending from "zero" joins a domain under a new name.
  lemma JoinIsReached(r: Run, params: AgentParams, d: DomainId) returns (r': Run)
    requires Reached(r) && r.world.IsDomain(d) && params.link == AgentLink(ZERO, NO_ACCESS_ID)
    requires forall m <- r.world.domains[d].members :: m.0 != params.name
    ensures Reached(r') && r' == r.(world := AddAgents(r.world, [params], d))
  {
    ReachedIsSound(r);
    hide Reached, Tree, Roots, PendingOk, StackOk, AddAgents;
    assert Enabled(r, Commits(CreateAgent(params, d)));
    CommitIsReached(r, CreateAgent(params, d));
    r' := Step(r, Commits(CreateAgent(params, d)));
  }

  // ----- names

  lemma {:induction false} FirstOfItsName(members: seq<(string, AgentId)>, i: nat)
    requires i < |members|
    requires forall j, k :: 0 <= j < k < |members| ==> members[j].0 != members[k].0
    ensures FindMember(members, members[i].0) == Some(members[i].1)
    decreases |members|
  {
    if i > 0 {
      FirstOfItsName(members[1..], i - 1);
    }
  }

  lemma GlobalMemberResolves(w: World, i: nat, d: DomainId)
    requires Sound(w) && w.IsDomain(d) && (d == GLOBAL || w.domains[d].members == []) && i < |w.domains[GLOBAL].members|
    requires PlainName(w.domains[GLOBAL].members[i].0) && !w.HasFlag(w.domains[GLOBAL].members[i].1, Clone)
    ensures var m := w.domains[GLOBAL].members[i]; Resolve(w, m.0, d) == Resolved(ToAgent(m.1), false, false)
  {
    assert MembersOk(w, GLOBAL);
    FirstOfItsName(w.domains[GLOBAL].members, i);
    hide Sound;
  }

  // The holder of the turn, not the runtime agent, makes a call that commits nothing.
  lemma {:induction false} CallIsReached(r: Run, t: ThreadId, name: string, to: Endpoint, id: Int64)
    requires Reached(r) && Readable(r.world, t) && Issued(id) && r.next <= id && r.world.Expected(t).agent != RUNTIME
    requires RouteCall(r.world, t, name) == CallTo(t, r.world.Expected(t), to)
    ensures var e := r.world.Expected(t);
            var ev := Sends(e.agent, Addressing(t, name), id);
            && Enabled(r, ev) && Reached(Step(r, ev)) && Step(r, ev).next == id + 1
            && SameShape(r.world, Step(r, ev).world) && Step(r, ev).world.snapshots == r.world.snapshots
            && Step(r, ev).world.threads[t].stack == r.world.threads[t].stack + [Frame(id, e, to)]
  {
    var w, e, msg := r.world, r.world.Expected(t), Addressing(t, name);
    var ev := Sends(e.agent, msg, id);
    assert Sound(w) by { hide Reachable; }
    ExpectedInScope(w, t);
    hide Sound, Resolve, Reachable, Orderly;
    assert Classify(w, e.agent, msg) == RouteCall(w, t, name);
    assert CommitAll(w, []) == w;
    MessageCommitsExactly(w, e.agent, msg);
    hide MessageCanCommit;
    HolderIsEnabled(r, msg, id);
    SpeakingKeepsOrderly(r, e.agent, msg, id, Step(r, ev));
    StepIsReachable(r, ev);
    ApplyHasSameShape(w, id, StampedTags(w, e.agent, msg), RouteCall(w, t, name).context);
  }

  // The holder of the turn answers the latest call.
  lemma {:induction false} AnswerIsReached(r: Run, t: ThreadId, id: Int64) returns (r': Run)
    requires Reached(r) && r.world.IsThread(t) && Issued(id) && r.next <= id
    requires r.world.threads[t].stack != []
             && Issued(r.world.threads[t].stack[|r.world.threads[t].stack| - 1].messageId)
    ensures Reached(r') && r'.next == id + 1 && SameShape(r.world, r'.world) && r'.world.snapshots == r.world.snapshots
    ensures r'.world.threads[t].stack == r.world.threads[t].stack[..|r.world.threads[t].stack| - 1]
  {
    hide *;
    AnswerIsReady(r, t, id);
    var w, stack := r.world, r.world.threads[t].stack;
    var msg := Answering(t, stack[|stack| - 1].messageId);
    var e := w.Expected(t);
    HolderIsEnabled(r, msg, id);
    SendsIs(r, e.agent, msg, id);
    SayingIsReached(r, e.agent, msg, id);
    r' := Step(r, Sends(e.agent, msg, id));
    PreparedIsSame(r, e.agent, msg);
    ReturnPops(w, id, StampedTags(w, e.agent, msg), Context(RETURN, t, e, None, NoError));
  }

  lemma AnswerIsReady(r: Run, t: ThreadId, id: Int64)
    requires Reached(r) && r.world.IsThread(t) && Issued(id) && r.next <= id
    requires r.world.threads[t].stack != []
             && Issued(r.world.threads[t].stack[|r.world.threads[t].stack| - 1].messageId)
    ensures Orderly(r) && t < |r.world.threads| && r.world.IsDomain(r.world.threads[t].root) && Readable(r.world, t)
    ensures var msg := Answering(t, r.world.threads[t].stack[|r.world.threads[t].stack| - 1].messageId);
            && msg.threadId == t && Sayable(r, r.world.Expected(t).agent, msg, id)
            && OnlyAnswers(r, r.world.Expected(t).agent, msg)
            && Classify(r.world, r.world.Expected(t).agent, msg)
               == Route([], Context(RETURN, t, r.world.Expected(t), None, NoError))
  {
    hide Reachable, Valid, Classify, Sayable, ThreadScope, PendingOk;
    ReachedIsSound(r);
    ExpectedInScope(r.world, t);
    AnswerIsReturn(r.world, t);
    AnswerIsSayable(r, t, id);
  }

  lemma PreparedIsSame(r: Run, from: AgentId, msg: Message)
    requires r.world.IsThread(msg.threadId) && Readable(r.world, msg.threadId)
    requires CommitAllOk(r.world, Classify(r.world, from, msg).ops) && Classify(r.world, from, msg).ops == []
    ensures Prepared(r, from, msg) == r
  {
  }

  lemma AnswerIsReturn(w: World, t: ThreadId)
    requires Readable(w, t) && w.threads[t].stack != []
    requires Issued(w.threads[t].stack[|w.threads[t].stack| - 1].messageId)
    ensures var msg := Answering(t, w.threads[t].stack[|w.threads[t].stack| - 1].messageId);
            && Classify(w, w.Expected(t).agent, msg) == Route([], Context(RETURN, t, w.Expected(t), None, NoError))
            && CommitAll(w, []) == w
  {
    hide RouteCall;
  }

  lemma AnswerIsSayable(r: Run, t: ThreadId, id: int)
    requires Readable(r.world, t) && r.world.threads[t].stack != [] && Issued(id) && r.next <= id
    requires Issued(r.world.threads[t].stack[|r.world.threads[t].stack| - 1].messageId)
    ensures var stack := r.world.threads[t].stack;
            Sayable(r, r.world.Expected(t).agent, Answering(t, stack[|stack| - 1].messageId), id)
            && Answering(t, stack[|stack| - 1].messageId).threadId == t
  {
    hide CallCanCommit;
  }

  lemma ReturnPops(w: World, id: Int64, tags: set<string>, ctx: Context)
    requires Applicable(w, ctx) && ctx.action == RETURN
    ensures var w' := ApplyMessage(w, id, tags, ctx);
            var stack := w.threads[ctx.thread].stack;
            SameShape(w, w') && w'.snapshots == w.snapshots && w'.threads[ctx.thread].stack == stack[..|stack| - 1]
  {
  }

  // Anything sayable that is no call of the runtime agent leads to another such state.
  lemma SayingIsReached(r: Run, from: AgentId, msg: Message, id: Int64)
    requires Reached(r) && Enabled(r, Sends(from, msg, id))
    requires r.world.IsThread(msg.threadId) && Readable(r.world, msg.threadId) && OnlyAnswers(r, from, msg)
    requires from == r.world.Expected(msg.threadId).agent
    ensures Reached(Step(r, Sends(from, msg, id)))
  {
    hide Reachable, Orderly, Enabled, Classify;
    StepIsReachable(r, Sends(from, msg, id));
    SpeakingKeepsOrderly(r, from, msg, id, Step(r, Sends(from, msg, id)));
  }

  // ----- a death that leaves the flag wrong

  const TEAM: seq<(string, AgentId)> := [("zero", ZERO), ("runtime", RUNTIME), ("user", USER), ("a", 3), ("b", 4)]

  // The initial program with agents "a", which catches, and "b", which does not.
  predicate IsTeam(w: World) {
    && |w.agents| == 5 && |w.domains| == 1 && |w.threads| == 1
    && w.domains[GLOBAL] == InitialWorld().domains[GLOBAL].(members := TEAM)
    && w.agents[USER].params.flags == {Catch, Threading} && w.agents[RUNTIME].params.flags == {}
    && w.agents[3].params == Named("a", {Catch}) && w.agents[4].params == Named("b", {}) && w.agents[4].domain == GLOBAL
    && w.threads[0].root == GLOBAL
  }

  lemma TeamIsReached() returns (r: Run)
    ensures Reached(r) && r.next == 0 && IsTeam(r.world) && r.world.threads == Start.world.threads
  {
    hide *;
    StartIsReached();
    FirstMembers();
    var r1 := JoinIsReached(Start, Named("a", {Catch}), GLOBAL);
    MembersGrow(Start.world, Named("a", {Catch}));
    r := JoinIsReached(r1, Named("b", {}), GLOBAL);
    TwoJoined();
  }

  lemma FirstMembers()
    ensures Start.world == InitialWorld() && Start.next == 0 && |Start.world.domains| == 1
    ensures Start.world.IsDomain(GLOBAL) && Start.world.domains[GLOBAL].members == TEAM[..3]
    ensures Named("a", {Catch}).name == "a" && Named("b", {}).name == "b"
    ensures Named("a", {Catch}).link == Named("b", {}).link == AgentLink(ZERO, NO_ACCESS_ID)
    ensures forall m <- TEAM[..3] :: m.0 != "a" && m.0 != "b"
    ensures "a" != "b"
  {
  }

  lemma MembersGrow(w: World, params: AgentParams)
    requires w.IsDomain(GLOBAL)
    ensures var w' := AddAgents(w, [params], GLOBAL);
            && w'.IsDomain(GLOBAL)
               && w'.domains[GLOBAL].members == w.domains[GLOBAL].members + [(params.name, |w.agents|)]
  {
  }

  lemma TwoJoined()
    ensures InitialWorld().IsDomain(GLOBAL) && AddAgents(InitialWorld(), [Named("a", {Catch})], GLOBAL).IsDomain(GLOBAL)
    ensures var w := AddAgents(AddAgents(InitialWorld(), [Named("a", {Catch})], GLOBAL), [Named("b", {})], GLOBAL);
            IsTeam(w) && w.threads == InitialWorld().threads
  {
    var w := AddAgents(AddAgents(InitialWorld(), [Named("a", {Catch})], GLOBAL), [Named("b", {})], GLOBAL);
    assert w.domains[GLOBAL].members == TEAM;
  }

  lemma TeamResolves(w: World, i: nat)
    requires Sound(w) && IsTeam(w) && i < |TEAM| && i > 1
    ensures Resolve(w, TEAM[i].0, GLOBAL) == Resolved(ToAgent(TEAM[i].1), false, false)
  {
    GlobalMemberResolves(w, i, GLOBAL);
  }

  lemma TeamStays(w: World, w': World)
    requires IsTeam(w) && SameShape(w, w')
    ensures IsTeam(w')
  {
  }

  lemma TeamIs(w: World)
    requires IsTeam(w)
    ensures |w.domains| == 1 && |w.threads| == 1 && w.IsDomain(GLOBAL) && w.IsThread(0) && w.threads[0].root == GLOBAL
    ensures w.domains[GLOBAL].entry.from == USER
  {
  }

  // One call within the team.
  lemma TeamCalls(r: Run, i: nat, id: Int64) returns (r': Run)
    requires Reached(r) && IsTeam(r.world) && 1 < i < |TEAM| && Issued(id) && r.next <= id
    requires r.world.Expected(0).agent != RUNTIME && r.world.Expected(0).domain == GLOBAL
    ensures Reached(r') && IsTeam(r'.world) && r'.next == id + 1
    ensures r'.world.threads[0].stack ==
            r.world.threads[0].stack + [Frame(id, r.world.Expected(0), Endpoint(TEAM[i].1, GLOBAL))]
    ensures r'.world.Expected(0) == Endpoint(TEAM[i].1, GLOBAL)
  {
    hide Reached, Sound, Resolve, Enabled, Step, SameShape;
    ReachedIsSound(r);
    TeamIs(r.world);
    TeamResolves(r.world, i);
    hide IsTeam;
    ExpectedInScope(r.world, 0);
    assert RouteCall(r.world, 0, TEAM[i].0) == CallTo(0, r.world.Expected(0), Endpoint(TEAM[i].1, GLOBAL));
    CallIsReached(r, 0, TEAM[i].0, Endpoint(TEAM[i].1, GLOBAL), id);
    r' := Step(r, Sends(r.world.Expected(0).agent, Addressing(0, TEAM[i].0), id));
    TeamStays(r.world, r'.world);
    TeamIs(r'.world);
  }

  // The user calls "b" and gets its answer, then calls "a", which calls back: the user is to speak, "a" is the last
  // caller, and "b" waits idle.
  lemma UserIsCalledBack() returns (r: Run)
    ensures Reached(r) && r.next == 4 && IsTeam(r.world)
    ensures r.world.threads[0].stack ==
            [Frame(2, Endpoint(USER, GLOBAL), Endpoint(3, GLOBAL)),
                Frame(3, Endpoint(3, GLOBAL), Endpoint(USER, GLOBAL))]
  {
    hide Reached, IsTeam, Enabled, Step, SameShape;
    var r0 := TeamIsReached();
    TeamIs(r0.world);
    var r1 := TeamCalls(r0, 4, 0);
    TeamIs(r1.world);
    var r2 := AnswerIsReached(r1, 0, 1);
    TeamStays(r1.world, r2.world);
    TeamIs(r2.world);
    var r3 := TeamCalls(r2, 3, 2);
    r := TeamCalls(r3, 2, 3);
  }

  // The user is to speak, and "b", idle after its answer, dies: the rewind hands the turn to "a", and the thread is
  // not marked pending.
  lemma DeathCanLeaveFlagWrong() returns (r: Run)
    ensures Reachable(r) && Sound(r.world) && PendingOk(r.world) && Enabled(r, Dies(4, 4))
    ensures var w' := Step(r, Dies(4, 4)).world;
            && Roots(w') && w'.IsThread(0) && !w'.threads[0].pending && w'.Expected(0).agent == 3 && !PendingOk(w')
  {
    r := UserIsCalledBack();
    ReachedIsSound(r);
    hide Reached, Sound, Kept;
    DeathKeepsSound(r.world, 4, 4);
    DeathIs(r, 4, 4);
    OneFrameIsKept(r.world);
  }

  lemma OneFrameIsKept(w: World)
    requires IsTeam(w) && w.IsThread(0)
    requires w.threads[0].stack ==
             [Frame(2, Endpoint(USER, GLOBAL), Endpoint(3, GLOBAL)),
                 Frame(3, Endpoint(3, GLOBAL), Endpoint(USER, GLOBAL))]
    ensures Kept(w, w.threads[0].stack, 4) == 1
  {
    assert Kept(w, w.threads[0].stack[..1], 3) == 1;
  }

  // ----- a snapshot whose instance's name is taken

  // The initial program with a domain "d" that has its own "user" and "runtime", and a snapshot "s" of it.
  predicate IsCallable(w: World, s: Snapshot) {
    && Sound(w) && |w.domains| == 2 && w.IsThread(0) && w.Expected(0) == Endpoint(USER, GLOBAL)
    && w.snapshots == map["s" := s] && Instantiable(s)
    && w.domains[GLOBAL].members == TEAM[..3] && w.domains[GLOBAL].children == map["d" := 1]
  }

  lemma JoinIs(w: World, params: AgentParams, d: DomainId)
    requires w.IsDomain(d)
    ensures var w' := AddAgents(w, [params], d);
            && |w'.domains| == |w.domains| && w'.threads == w.threads && w'.snapshots == w.snapshots
            && w'.domains[d] == w.domains[d].(members := w.domains[d].members + [(params.name, |w.agents|)])
            && (forall c :: 0 <= c < |w.domains| && c != d ==> w'.domains[c] == w.domains[c])
            && |w'.agents| == |w.agents| + 1 && w'.agents[|w.agents|].params == params
            && (forall a :: 0 <= a < |w.agents| ==> w'.agents[a] == w.agents[a])
  {
  }

  lemma PlainDomainIs()
    ensures var w := WithPlainDomain();
            && w == CommitOp(InitialWorld(), CreateDomain("d", GLOBAL)) && |w.domains| == 2 && |w.agents| == 3
            && w.domains[1].members == [] && w.domains[1].entry == Entry(USER, RUNTIME) && w.snapshots == map[]
            && w.domains[GLOBAL] == InitialWorld().domains[GLOBAL].(children := map["d" := 1])
            && w.threads == InitialWorld().threads
            && w.agents[USER].params.name == "user" && w.agents[RUNTIME].params.name == "runtime"
    ensures Enabled(Start, Commits(CreateDomain("d", GLOBAL))) && Start.world == InitialWorld() && Start.next == 0
    ensures |InitialWorld().domains| == 1 && |InitialWorld().threads| == 1
  {
    assert WithPlainDomain().domains[GLOBAL].children == map["d" := 1];
  }

  lemma PlainDomainIsReached() returns (r: Run)
    ensures Reached(r) && r.world == WithPlainDomain() && r.next == 0
  {
    hide *;
    StartIsReached();
    PlainDomainIs();
    CommitIsReached(Start, CreateDomain("d", GLOBAL));
    r := Step(Start, Commits(CreateDomain("d", GLOBAL)));
  }

  lemma DomainWithEntryIsReached() returns (r: Run)
    ensures Reached(r) && |r.world.domains| == 2 && |r.world.agents| == 5 && r.world.snapshots == map[]
    ensures r.world.domains[GLOBAL] == InitialWorld().domains[GLOBAL].(children := map["d" := 1])
    ensures r.world.domains[1].members == [("user", 3), ("runtime", 4)]
            && r.world.domains[1].entry == Entry(USER, RUNTIME)
    ensures r.world.agents[USER].params.name == "user" && r.world.agents[RUNTIME].params.name == "runtime"
    ensures r.world.threads == InitialWorld().threads
  {
    hide Reached, AddAgents, WithPlainDomain, InitialWorld;
    var r1 := PlainDomainIsReached();
    PlainDomainIs();
    var r2 := JoinIsReached(r1, Named("user", {}), 1);
    JoinIs(r1.world, Named("user", {}), 1);
    assert "user" != "runtime";
    r := JoinIsReached(r2, Named("runtime", {}), 1);
    JoinIs(r2.world, Named("runtime", {}), 1);
  }

  lemma CallableIsReached() returns (r: Run, s: Snapshot)
    ensures Reached(r) && IsCallable(r.world, s)
  {
    hide Reached, Sound, FindMember, SnapshotOf, Instantiable, DomainReadable;
    var r0 := DomainWithEntryIsReached();
    ReachedIsSound(r0);
    InstantiableExactly(r0.world, 1, "s");
    BothFound(r0.world.domains[1].members);
    var op := CreateSnapshot("s", 1);
    assert Enabled(r0, Commits(op));
    CommitIsReached(r0, op);
    r := Step(r0, Commits(op));
    s := SnapshotOf(r0.world, 1, "s");
    ReachedIsSound(r);
  }

  lemma BothFound(members: seq<(string, AgentId)>)
    requires members == [("user", 3), ("runtime", 4)]
    ensures FindMember(members, "user").Some? && FindMember(members, "runtime").Some?
  {
    assert members[0] in members && members[1] in members;
  }

  // The snapshot can be called; after a domain of the right name has been made it cannot.
  lemma SnapshotNameCanBeTaken() returns (r: Run)
    ensures Reached(r) && Readable(r.world, 0) && CommitAllOk(r.world, RouteCall(r.world, 0, "s").ops)
    ensures var ev := Commits(CreateDomain("domain-3", GLOBAL));
            && Enabled(r, ev) && var r' := Step(r, ev);
            && Reached(r') && Readable(r'.world, 0)
            && RouteCall(r'.world, 0, "s").ops == [CreateDomainFromSnapshot(GLOBAL, "s")]
            && !CommitAllOk(r'.world, RouteCall(r'.world, 0, "s").ops)
  {
    hide Reached, IsCallable, Readable, Resolve, CommitAllOk, RouteCall, Enabled, Step;
    var s;
    r, s := CallableIsReached();
    CallableCanBeCalled(r, s);
    CallableIsSpoiled(r, s);
  }

  lemma CallableCanBeCalled(r: Run, s: Snapshot)
    requires IsCallable(r.world, s)
    ensures Readable(r.world, 0) && CommitAllOk(r.world, RouteCall(r.world, 0, "s").ops)
  {
    CallableResolves(r.world, s);
    ExpectedInScope(r.world, 0);
    hide Sound, Resolve, Instantiable, CommitOp;
    CallCommitsExactly(r.world, 0, "s");
    assert "domain-" + Decimal(3) == "domain-3";
  }

  lemma CallableIs(w: World, s: Snapshot)
    requires IsCallable(w, s)
    ensures Sound(w) && w.IsThread(0) && Readable(w, 0) && w.Expected(0) == Endpoint(USER, GLOBAL)
    ensures |w.domains| == 2 && "domain-3" !in w.domains[GLOBAL].children && "domain-" + Decimal(3) == "domain-3"
  {
    ExpectedInScope(w, 0);
    hide Sound, Readable;
  }

  lemma CallableIsSpoiled(r: Run, s: Snapshot)
    requires Reached(r) && IsCallable(r.world, s)
    ensures var ev := Commits(CreateDomain("domain-3", GLOBAL));
            && Enabled(r, ev) && var r' := Step(r, ev);
            && Reached(r') && Readable(r'.world, 0)
            && RouteCall(r'.world, 0, "s").ops == [CreateDomainFromSnapshot(GLOBAL, "s")]
            && !CommitAllOk(r'.world, RouteCall(r'.world, 0, "s").ops)
  {
    hide IsCallable, Reached, Sound, Resolve, Instantiable, CommitOp, Readable, Decimal;
    CallableIs(r.world, s);
    TakenNameBlocksInstance(r.world, 0, "s");
    CommitIsReached(r, CreateDomain("domain-3", GLOBAL));
    CallableResolvesLater(r.world, s);
  }

  lemma CallableResolvesLater(w: World, s: Snapshot)
    requires IsCallable(w, s)
    ensures var op := CreateDomain("domain-3", GLOBAL);
            CommitOk(w, op) && Resolve(CommitOp(w, op), "s", GLOBAL) == Resolved(ToSnapshot("s"), false, false)
  {
    var w' := CommitOp(w, CreateDomain("domain-3", GLOBAL));
    assert forall m <- w'.domains[GLOBAL].members :: m.0 != "s";
    hide Sound;
    SnapshotIsFound(w', "s", GLOBAL);
  }

  lemma CallableResolves(w: World, s: Snapshot)
    requires IsCallable(w, s)
    ensures Resolve(w, "s", GLOBAL) == Resolved(ToSnapshot("s"), false, false)
  {
    assert forall m <- w.domains[GLOBAL].members :: m.0 != "s";
    SnapshotIsFound(w, "s", GLOBAL);
  }

  // ----- a call that leaves its thread

  lemma DetachedIsReached() returns (r: Run)
    ensures Reached(r) && r.next == 0 && |r.world.domains| == 2 && |r.world.threads| == 2 && r.world.snapshots == map[]
    ensures r.world.domains[GLOBAL] == InitialWorld().domains[GLOBAL].(children := map["d" := 1])
    ensures r.world.domains[1].entry == Entry(USER, RUNTIME) && r.world.domains[1].thread == 1
            && r.world.domains[1].detached
    ensures r.world.threads[0] == InitialWorld().threads[0]
  {
    hide Reached, Sound, WithPlainDomain, InitialWorld, Unused;
    r := PlainDomainIsReached();
    PlainDomainIs();
    StartIsSound();
    PlainDomainIsSound();
    FreshDomainMayDetach(InitialWorld(), "d", GLOBAL);
    CommitIsReached(r, CreateThread(1));
    r := Step(r, Commits(CreateThread(1)));
  }

  lemma ChildResolves(w: World, name: string, d: DomainId)
    requires w.IsDomain(d) && w.IsDomain(GLOBAL) && PlainName(name) && name in w.domains[d].children
    requires FindMember(w.domains[d].members, name).None? && FindMember(w.domains[GLOBAL].members, name).None?
    ensures Resolve(w, name, d) == Resolved(ToDomain(w.domains[d].children[name]), false, false)
  {
    hide FindMember;
  }

  // A domain "d" is detached, and the user calls it by name on thread 0: now the turn on thread 0 belongs to an
  // endpoint whose domain belongs to thread 1.
  lemma DetachedChildCanBeCalled() returns (r: Run)
    ensures Reached(r) && Readable(r.world, 0) && Enabled(r, Sends(USER, Addressing(0, "d"), 0))
    ensures var w' := Step(r, Sends(USER, Addressing(0, "d"), 0)).world;
            && w'.IsThread(0) && w'.IsDomain(w'.threads[0].root) && w'.Expected(0) == Endpoint(RUNTIME, 1)
            && w'.IsDomain(1) && w'.domains[1].detached && w'.domains[1].thread == 1
  {
    hide Reached, Sound, Enabled, Step, FindMember;
    r := DetachedIsReached();
    ReachedIsSound(r);
    ExpectedInScope(r.world, 0);
    assert r.world.Expected(0) == Endpoint(USER, GLOBAL);
    assert forall m <- r.world.domains[GLOBAL].members :: m.0 != "d";
    ChildResolves(r.world, "d", GLOBAL);
    CallIsReached(r, 0, "d", Endpoint(RUNTIME, 1), 0);
  }

  // ----- a record of the user's

  const USER_RECORD: Message := Message(true, "", None, None, 0, None, None, [], "", "")

  lemma UserRecordBlocks()
    ensures Gating.GateOk(Gating.FreshDesk) && Enabled(Start, Sends(USER, USER_RECORD, 0))
    ensures var r := Step(Start, Sends(USER, USER_RECORD, 0));
            var d := Gating.FreshDesk.(run := r, gates := Ui.Raised([], 0, false));
            && Orderly(r) && r.world.IsThread(0) && r.world.IsDomain(r.world.threads[0].root)
            && r.world.Expected(0).agent == USER
            && Ui.IsPending(d.gates, 0) && d.queue == [] && d.owed == map[] && !Gating.GateOk(d)
  {
    Gating.FreshDeskIsExact();
    StartIsReached();
    ReachedIsSound(Start);
    ExpectedInScope(Start.world, 0);
    hide Sound, Reached, Valid, RouteCall, Gating.GateOk;
    assert Sayable(Start, USER, USER_RECORD, 0);
    hide Sayable, Enabled, Step, Readable;
    Gating.UserDataWouldBlock(Gating.FreshDesk, USER_RECORD, 0);
    ReachedIsSound(Start);
  }

  // ----- a link written by hand

  const AHEAD: AgentLink := AgentLink(ZERO, 5)
  const FORK_REQUEST: seq<AgentRequest> := [AgentRequest("fork", None, Some(AHEAD), None, None, None)]

  const FORK: AgentParams := AgentParams(AHEAD, "fork", "", "", {})

  lemma ForkIsIssued()
    ensures Sound(InitialWorld()) && InitialWorld().IsDomain(GLOBAL) && AllJoin(InitialWorld(), GLOBAL, FORK_REQUEST)
    ensures RequestOps(InitialWorld(), GLOBAL, CreateAgents(FORK_REQUEST)) == [CreateAgent(FORK, GLOBAL)]
    ensures Issuable(InitialWorld(), CreateAgent(FORK, GLOBAL))
    ensures CommitOp(InitialWorld(), CreateAgent(FORK, GLOBAL)) == AddAgents(InitialWorld(), [FORK], GLOBAL)
  {
    StartIsSound();
    var w := InitialWorld();
    assert forall m <- w.domains[GLOBAL].members :: m.0 != "fork";
    hide Sound;
    assert Regularized(w, GLOBAL, FORK_REQUEST[0]) == Some(FORK);
    assert Joins(w, GLOBAL, FORK_REQUEST, 0);
    assert AllJoin(w, GLOBAL, FORK_REQUEST);
  }

  lemma ForkIs(w: World)
    requires w == AddAgents(InitialWorld(), [FORK], GLOBAL)
    ensures |w.agents| == 4 && |w.domains| == 1 && |w.threads| == 1 && Lineage(w)
    ensures w.agents[ZERO].params.link.parent == NOT_AN_AGENT && w.agents[ZERO].params.flags == {}
    ensures w.agents[ZERO].memory == w.agents[3].memory == []
    ensures w.agents[3].params == FORK && w.IsDomain(GLOBAL) && |w.domains[GLOBAL].members| == 4
    ensures w.domains[GLOBAL].members[0] == ("zero", ZERO) && w.IsThread(0) && w.threads[0].root == GLOBAL
    ensures w.threads[0].stack == [] && w.domains[GLOBAL].entry.from == USER
  {
  }

  lemma ForkRemembers(w: World, ctx: Context)
    requires w == AddAgents(InitialWorld(), [FORK], GLOBAL) && Applicable(w, ctx)
    requires ctx == Context(CALL, 0, Endpoint(USER, GLOBAL), Some(Endpoint(ZERO, GLOBAL)), NoError)
    ensures var w' := ApplyMessage(w, 0, {}, ctx);
            && Lineage(w') && |w'.agents| == 4 && HistoryOf(w, 3) == [] && HistoryOf(w', 3) == [MarkReceiving(0)]
  {
    ForkIs(w);
    hide AddAgents, InitialWorld, HistoryOf, Cut;
    var w' := ApplyMessage(w, 0, {}, ctx);
    assert w'.agents[ZERO].memory == [MarkReceiving(0)] && w'.agents[3].memory == [];
    assert w'.agents[ZERO].params == w.agents[ZERO].params && w'.agents[3].params == w.agents[3].params;
    assert Lineage(w');
    ForkInherits(w);
    ForkInherits(w');
    CutOfOne();
  }

  // What "zero" remembers, as far as the anchor goes, is all that the fork has.
  lemma ForkInherits(w: World)
    requires Lineage(w) && |w.agents| == 4 && w.agents[3].params == FORK && w.agents[3].memory == []
    requires w.agents[ZERO].params.link.parent == NOT_AN_AGENT
    ensures HistoryOf(w, 3) == Cut(w.agents[ZERO].memory, 5)
  {
    hide Lineage, Cut;
    assert HistoryAt(w, w.agents[ZERO].params.link) == [];
  }

  lemma CutOfOne()
    ensures Cut([], 5) == [] && Cut([MarkReceiving(0)], 5) == [MarkReceiving(0)]
  {
    assert [MarkReceiving(0)][..0] == [];
  }

  // create_agents accepts a link whose anchor lies ahead; a message that "zero" receives only afterwards is then part
  // of what the new agent inherited.
  lemma AnchorAheadLeaks()
    ensures Sound(InitialWorld()) && InitialWorld().IsDomain(GLOBAL)
    ensures RequestOps(InitialWorld(), GLOBAL, CreateAgents(FORK_REQUEST)) == [CreateAgent(FORK, GLOBAL)]
    ensures Issuable(InitialWorld(), CreateAgent(FORK, GLOBAL))
    ensures var w := CommitOp(InitialWorld(), CreateAgent(FORK, GLOBAL));
            var ctx := Context(CALL, 0, Endpoint(USER, GLOBAL), Some(Endpoint(ZERO, GLOBAL)), NoError);
            && Sound(w) && Readable(w, 0) && RouteCall(w, 0, "zero") == Route([], ctx) && Applicable(w, ctx)
            && var w' := ApplyMessage(w, 0, {}, ctx);
            && Lineage(w) && Lineage(w') && |w.agents| == |w'.agents| == 4
            && HistoryOf(w, 3) == [] && HistoryOf(w', 3) == [MarkReceiving(0)]
  {
    hide Sound, InitialWorld, AddAgents, FindMember, Applicable, ApplyMessage;
    hide HistoryOf, CommitOp, Resolve, RequestOps, Issuable, AllJoin;
    ForkIsIssued();
    CommitKeepsSound(InitialWorld(), CreateAgent(FORK, GLOBAL));
    var w := AddAgents(InitialWorld(), [FORK], GLOBAL);
    ForkIs(w);
    ExpectedInScope(w, 0);
    GlobalMemberResolves(w, 0, GLOBAL);
    var ctx := Context(CALL, 0, Endpoint(USER, GLOBAL), Some(Endpoint(ZERO, GLOBAL)), NoError);
    assert RouteCall(w, 0, "zero") == Route([], ctx);
    assert CommitAll(w, []) == w;
    RouteCallIsFaithful(w, 0, "zero", w);
    FaithfulIsApplicable(w, ctx);
    ForkRemembers(w, ctx);
  }

  // ----- an answer that is not recognised

  // What the service of "a" makes of its handler's response to "*zero" while the user's call 0 waits, and what the
  // service of the clone makes of an answer.
  const TO_CLONE: Message := Message(false, "", None, Some("*zero"), NO_ACCESS_ID, None, None, [], "", "")
  const CLONE_CALL: Message := Message(false, "a", None, Some("*zero"), 0, None, Some(0), [], "", "")
  const CLONE_ANSWER: Message := Message(false, "*zero", None, Some("a"), 0, Some(1), None, [], "", "")
  const CALLED: seq<Pending> := [Incoming(0, "a", "user", 0)]

  lemma CloneCallIs()
    ensures RespondOk(CALLED, [TO_CLONE]) && Responses(CALLED, [TO_CLONE]) == [CLONE_CALL]
    ensures Responded(CALLED, [TO_CLONE]) == CALLED + [Outgoing("*zero")]
  {
  }

  // It is the turn of "a", which the user has called.
  lemma CallerIsReached() returns (r: Run)
    ensures Reached(r) && r.next == 1 && IsTeam(r.world) && r.world.agents[ZERO].params.name == "zero"
    ensures r.world.threads[0].stack == [Frame(0, Endpoint(USER, GLOBAL), Endpoint(3, GLOBAL))]
  {
    hide Reached, IsTeam;
    var r0 := TeamIsReached();
    TeamIs(r0.world);
    r := TeamCalls(r0, 3, 0);
    ReachedIsSound(r);
    TeamHasZero(r.world);
  }

  lemma TeamHasZero(w: World)
    requires Sound(w) && IsTeam(w)
    ensures w.agents[ZERO].params.name == "zero"
  {
    assert MembersOk(w, GLOBAL);
    assert w.domains[GLOBAL].members[0] == ("zero", ZERO);
  }

  lemma CloneIsRouted(w: World)
    requires Sound(w) && IsTeam(w) && Readable(w, 0) && w.agents[ZERO].params.name == "zero"
    requires w.threads[0].stack == [Frame(0, Endpoint(USER, GLOBAL), Endpoint(3, GLOBAL))]
    ensures CloneParams(w, ZERO).name == "zero_5"
    ensures RouteCall(w, 0, "*zero") ==
            CallTo(0, Endpoint(3, GLOBAL), Endpoint(5, GLOBAL)).(ops := [CreateAgent(CloneParams(w, ZERO), GLOBAL)])
    ensures Classify(w, 3, CLONE_CALL) == RouteCall(w, 0, "*zero")
  {
    hide Sound, FindMember, Resolve;
    assert Decimal(5) == "5";
    assert forall m <- TEAM :: m.0 != "zero_5";
    StarResolves(w);
  }

  lemma StarStripped(w: World, name: string, d: DomainId)
    requires w.IsDomain(d) && w.IsDomain(GLOBAL) && FindMember(w.domains[d].members, name).Some?
    ensures Resolve(w, "*" + name, d) == Resolved(ToAgent(FindMember(w.domains[d].members, name).value), false, true)
  {
    assert ("*" + name)[0] == '*' && ("*" + name)[1..] == name;
    hide FindMember;
  }

  lemma StarResolves(w: World)
    requires Sound(w) && IsTeam(w)
    ensures Resolve(w, "*zero", GLOBAL) == Resolved(ToAgent(ZERO), false, true)
  {
    assert MembersOk(w, GLOBAL);
    FirstOfItsName(w.domains[GLOBAL].members, 0);
    StarStripped(w, "zero", GLOBAL);
  }

  lemma CloneCallIsSayable(r: Run)
    requires Reached(r) && r.next == 1 && IsTeam(r.world) && r.world.agents[ZERO].params.name == "zero"
    requires r.world.threads[0].stack == [Frame(0, Endpoint(USER, GLOBAL), Endpoint(3, GLOBAL))]
    ensures Readable(r.world, 0) && r.world.Expected(0) == Endpoint(3, GLOBAL) && Orderly(r)
    ensures CommitAllOk(r.world, Classify(r.world, 3, CLONE_CALL).ops)
    ensures Sayable(r, 3, CLONE_CALL, 1) && OnlyAnswers(r, 3, CLONE_CALL)
  {
    ReachedIsSound(r);
    TeamIs(r.world);
    hide Reachable, Sound, Valid, PendingOk, ThreadScope, IsTeam;
    ExpectedInScope(r.world, 0);
    CloneIsRouted(r.world);
    hide Classify, RouteCall, Readable;
    CallCommitsExactly(r.world, 0, "*zero");
    MessageCommitsExactly(r.world, 3, CLONE_CALL);
  }

  // "a" calls "*zero": the clone is made and called.
  lemma CloneIsCalled() returns (r: Run, r': Run)
    ensures |r'.world.threads| == 1 && |r'.world.agents| > 5 && r'.next == 2
            && r'.world.agents[5].params.name == "zero_5"
    ensures r'.world.threads[0].stack ==
            [Frame(0, Endpoint(USER, GLOBAL), Endpoint(3, GLOBAL)), Frame(1, Endpoint(3, GLOBAL), Endpoint(5, GLOBAL))]
    ensures Enabled(r, Sends(3, CLONE_CALL, 1)) && r' == Step(r, Sends(3, CLONE_CALL, 1)) && Reached(r) && Reached(r')
  {
    hide Reached, Reachable, Orderly, Enabled, Step, Classify;
    hide RouteCall, Sayable, OnlyAnswers, Sound, ApplyMessage, Applicable;
    hide CommitAll, CommitAllOk, Prepared, CloneParams, Readable, SameShape, IsTeam;
    r := CallerIsReached();
    CloneCallIsSayable(r);
    ReachedIsSound(r);
    TeamIs(r.world);
    HolderIsEnabled(r, CLONE_CALL, 1);
    SendsIs(r, 3, CLONE_CALL, 1);
    SayingIsReached(r, 3, CLONE_CALL, 1);
    r' := Step(r, Sends(3, CLONE_CALL, 1));
    CloneIsRouted(r.world);
    PreparedClone(r);
    PushedFrame(Prepared(r, 3, CLONE_CALL).world, 1, StampedTags(r.world, 3, CLONE_CALL),
        Classify(r.world, 3, CLONE_CALL).context);
  }

  lemma PreparedClone(r: Run)
    requires Readable(r.world, 0) && IsTeam(r.world) && CommitAllOk(r.world, Classify(r.world, 3, CLONE_CALL).ops)
    requires Classify(r.world, 3, CLONE_CALL).ops == [CreateAgent(CloneParams(r.world, ZERO), GLOBAL)]
    requires CloneParams(r.world, ZERO).name == "zero_5"
    ensures var w := Prepared(r, 3, CLONE_CALL).world;
            |w.agents| == 6 && w.agents[5].params.name == "zero_5" && w.threads == r.world.threads
  {
    hide Classify, CloneParams;
    CommitOne(r.world, CreateAgent(CloneParams(r.world, ZERO), GLOBAL));
  }

  lemma CommitOne(w: World, op: Op)
    requires CommitAllOk(w, [op])
    ensures CommitOk(w, op) && CommitAll(w, [op]) == CommitOp(w, op)
  {
    assert [op][1..] == [];
    hide CommitOp, CommitOk;
  }

  lemma PushedFrame(w: World, id: Int64, tags: set<string>, ctx: Context)
    requires Applicable(w, ctx) && ctx.action == CALL
    ensures var w' := ApplyMessage(w, id, tags, ctx);
            && SameShape(w, w') && |w'.threads| == |w.threads|
            && w'.threads[ctx.thread].stack == w.threads[ctx.thread].stack + [Frame(id, ctx.from, ctx.to.value)]
            && forall a :: 0 <= a < |w.agents| ==> w'.IsAgent(a) && w'.agents[a].params == w.agents[a].params
  {
  }

  // The clone's answer is accepted and routed back to "a", whose service remembers having called "*zero" and fails
  // its CHECK on the name "zero_5".
  lemma CloneAnswerIsRefused() returns (r: Run, r': Run)
    ensures Reached(r) && Enabled(r, Sends(3, CLONE_CALL, 1)) && r' == Step(r, Sends(3, CLONE_CALL, 1))
    ensures Reached(r') && Enabled(r', Sends(5, CLONE_ANSWER, 2)) && Readable(r'.world, 0)
    ensures Classify(r'.world, 5, CLONE_ANSWER).context.action == RETURN && r'.world.threads[0].stack != []
    ensures r'.world.threads[0].stack[|r'.world.threads[0].stack| - 1].from.agent == 3
    ensures RespondOk(CALLED, [TO_CLONE]) && Responses(CALLED, [TO_CLONE]) == [CLONE_CALL]
    ensures StampedMessage(r'.world, 5, CLONE_ANSWER).from == "zero_5"
    ensures !ReceiveOk(Responded(CALLED, [TO_CLONE]), StampedMessage(r'.world, 5, CLONE_ANSWER))
  {
    hide Reached, Sound, Enabled, Step, RouteCall, Orderly;
    r, r' := CloneIsCalled();
    CloneCallIs();
    ReachedIsSound(r');
    ExpectedInScope(r'.world, 0);
    HolderIsEnabled(r', CLONE_ANSWER, 2);
  }
}
