// What one journalled record does to a program: the specification that the Program class is proved against.
// A CHECK of the original aborts the process, so it appears as a precondition.
module Transition {
  import opened Common
  import opened AccessIds
  import opened World

  // ----- structural operations

  function DefaultDomainName(w: World): string {
    "domain-" + Decimal(|w.domains|)
  }

  function NewAgent(id: AgentId, params: AgentParams, domain: DomainId): Agent {
    Agent(id, params, domain, [], {}, 0)
  }

  // Append agents built from params to the agent table and to the members of domain d.
  function AddAgents(w: World, params: seq<AgentParams>, d: DomainId): World
    requires w.IsDomain(d)
  {
    var n := |w.agents|;
    var dom := w.domains[d];
    var joining := seq(|params|, i requires 0 <= i < |params| => (params[i].name, n + i));
    w.(agents := w.agents + seq(|params|, i requires 0 <= i < |params| => NewAgent(n + i, params[i], d)),
       domains := w.domains[d := dom.(members := dom.members + joining)])
  }

  function AddDomain(w: World, name: string, parent: DomainId): World
    requires w.IsDomain(parent)
  {
    var n := |w.domains|;
    var p := w.domains[parent];
    var child := Domain(n, name, Some(parent), p.thread, false, Entry(USER, RUNTIME), [], map[]);
    w.(domains := w.domains[parent := p.(children := p.children[name := n])] + [child])
  }

  predicate DistinctNames(params: seq<AgentParams>) {
    forall i, j :: 0 <= i < j < |params| ==> params[i].name != params[j].name
  }

  // First position of a name among parameters; |params| when absent.
  function IndexOfName(params: seq<AgentParams>, name: string): (k: nat)
    ensures k <= |params|
    ensures k < |params| ==> params[k].name == name
    ensures k == |params| <==> forall p <- params :: p.name != name
  {
    if params == [] then 0
    else if params[0].name == name then 0
    else 1 + IndexOfName(params[1..], name)
  }

  // The CHECKs of createDomain(Snapshot): the instance can be built.
  predicate Instantiable(s: Snapshot) {
    && DistinctNames(s.members)
    && IndexOfName(s.members, s.entryFrom) < |s.members|
    && IndexOfName(s.members, s.entryTo) < |s.members|
  }

  function AddSnapshotDomain(w: World, s: Snapshot, parent: DomainId): World
    requires w.IsDomain(parent) && Instantiable(s)
  {
    var n := |w.domains|;
    var base := |w.agents|;
    var grown := AddAgents(AddDomain(w, DefaultDomainName(w), parent), s.members, n);
    var entry := Entry(base + IndexOfName(s.members, s.entryFrom), base + IndexOfName(s.members, s.entryTo));
    grown.(domains := grown.domains[n := grown.domains[n].(entry := entry)])
  }

  function MemberParams(w: World, members: seq<(string, AgentId)>): seq<AgentParams>
    requires forall i :: 0 <= i < |members| ==> members[i].1 < |w.agents|
  {
    seq(|members|, i requires 0 <= i < |members| => w.agents[members[i].1].Snapshot(""))
  }

  predicate DomainReadable(w: World, d: DomainId) {
    && w.IsDomain(d)
    && w.IsAgent(w.domains[d].entry.from) && w.IsAgent(w.domains[d].entry.to)
    && forall i :: 0 <= i < |w.domains[d].members| ==> w.domains[d].members[i].1 < |w.agents|
  }

  function SnapshotOf(w: World, d: DomainId, name: string): Snapshot
    requires DomainReadable(w, d)
  {
    var dom := w.domains[d];
    Snapshot(name, MemberParams(w, dom.members), w.agents[dom.entry.from].params.name,
        w.agents[dom.entry.to].params.name)
  }

  // The CHECKs of Program::commit and of the create functions it calls.
  predicate CommitOk(w: World, op: Op) {
    match op
    case CreateAgent(params, d) => w.IsDomain(d) && FindMember(w.domains[d].members, params.name).None?
    case CreateDomain(name, p) => w.IsDomain(p) && name !in w.domains[p].children
    case CreateDomainFromSnapshot(p, name) =>
      w.IsDomain(p) && name in w.snapshots && DefaultDomainName(w) !in w.domains[p].children
      && Instantiable(w.snapshots[name])
    case CreateSnapshot(name, d) => w.IsDomain(d) && DomainReadable(w, d) && name !in w.snapshots
    case CreateThread(d) => w.IsDomain(d) && !w.domains[d].detached
  }

  function CommitOp(w: World, op: Op): World
    requires CommitOk(w, op)
  {
    match op
    case CreateAgent(params, d) => AddAgents(w, [params], d)
    case CreateDomain(name, p) => AddDomain(w, name, p)
    case CreateDomainFromSnapshot(p, name) => AddSnapshotDomain(w, w.snapshots[name], p)
    case CreateSnapshot(name, d) => w.(snapshots := w.snapshots[name := SnapshotOf(w, d, name)])
    case CreateThread(d) =>
      var t := |w.threads|;
      w.(threads := w.threads + [Thread(t, d, false, [], [])],
         domains := w.domains[d := w.domains[d].(thread := t, detached := true)])
  }

  predicate CommitAllOk(w: World, ops: seq<Op>)
    decreases |ops|
  {
    ops == [] || (CommitOk(w, ops[0]) && CommitAllOk(CommitOp(w, ops[0]), ops[1..]))
  }

  function CommitAll(w: World, ops: seq<Op>): World
    requires CommitAllOk(w, ops)
    decreases |ops|
  {
    if ops == [] then w else CommitAll(CommitOp(w, ops[0]), ops[1..])
  }

  // ----- routed and data records

  // How many frames a rewind keeps: frames are dropped until the agent waiting can catch.
  function Kept(w: World, stack: seq<Frame>, to: AgentId): (k: nat)
    ensures k <= |stack|
  {
    if w.HasFlag(to, Catch) || stack == [] then |stack|
    else Kept(w, stack[..|stack| - 1], stack[|stack| - 1].from.agent)
  }

  // How many frames have agent a as their callee.
  function Callees(stack: seq<Frame>, a: AgentId): nat {
    if stack == [] then 0
    else Callees(stack[..|stack| - 1], a) + (if stack[|stack| - 1].to.agent == a then 1 else 0)
  }

  function StackAfter(w: World, id: Int64, ctx: Context): seq<Frame>
    requires Applicable(w, ctx)
  {
    var stack := w.threads[ctx.thread].stack;
    match ctx.action
    case CALL => stack + [Frame(id, ctx.from, ctx.to.value)]
    case RETURN => stack[..|stack| - 1]
    case REWIND => stack[..Kept(w, stack, ctx.from.agent)]
    case _ => stack
  }

  function Recipient(w: World, ctx: Context): AgentId
    requires Applicable(w, ctx)
  {
    var stack := w.threads[ctx.thread].stack;
    match ctx.action
    case CALL => ctx.to.value.agent
    case RETURN => stack[|stack| - 1].from.agent
    case REWIND =>
      var k := Kept(w, stack, ctx.from.agent);
      if k == |stack| then ctx.from.agent else stack[k].from.agent
    case _ => ctx.from.agent
  }

  function ObligationChange(w: World, ctx: Context, a: AgentId): int
    requires Applicable(w, ctx)
  {
    var stack := w.threads[ctx.thread].stack;
    match ctx.action
    case CALL => if a == ctx.to.value.agent then 1 else 0
    case RETURN => if a == ctx.from.agent then -1 else 0
    case REWIND => 0 - Callees(stack[Kept(w, stack, ctx.from.agent)..], a)
    case _ => 0
  }

  predicate FrameInRange(w: World, f: Frame) {
    w.IsAgent(f.from.agent) && w.IsAgent(f.to.agent) && w.IsDomain(f.from.domain) && w.IsDomain(f.to.domain)
  }

  // What Program::apply and loadContext demand of a context.
  predicate Applicable(w: World, ctx: Context) {
    && w.IsThread(ctx.thread) && w.IsAgent(ctx.from.agent) && w.IsDomain(ctx.from.domain)
    && (forall f <- w.threads[ctx.thread].stack :: FrameInRange(w, f))
    && ctx.action != YIELD
    && (ctx.to.Some? <==> ToNeeded(ctx.action))
    && (ctx.action == CALL ==> w.IsAgent(ctx.to.value.agent) && w.IsDomain(ctx.to.value.domain))
    && (ctx.action == RETURN ==> w.threads[ctx.thread].stack != [])
  }

  // What one routed record adds to agent a's memory: its id if a sent it, the marked id if a received it.
  function Remembered(a: AgentId, id: Int64, from: AgentId, to: AgentId): seq<Int64> {
    (if a == from then [id] else []) + (if a == to then [MarkReceiving(id)] else [])
  }

  function PendingAfter(pending: bool, from: AgentId, to: AgentId): bool {
    if from == USER && to != USER then true else if to == USER then false else pending
  }

  function AgentAfter(w: World, a: AgentId, id: Int64, tags: set<string>, ctx: Context): Agent
    requires Applicable(w, ctx) && w.IsAgent(a)
  {
    var old_ := w.agents[a];
    if ctx.action == DATA then
      if a == ctx.from.agent then old_.(memory := old_.memory + [id]) else old_
    else
      var to := Recipient(w, ctx);
      var offered := if ctx.action != REWIND && (a == ctx.from.agent || a == to) then tags else {};
      old_.(memory := old_.memory + Remembered(a, id, ctx.from.agent, to),
            tags := old_.tags + offered,
            obligations := old_.obligations + ObligationChange(w, ctx, a))
  }

  function ApplyMessage(w: World, id: Int64, tags: set<string>, ctx: Context): World
    requires Applicable(w, ctx)
  {
    var thread := w.threads[ctx.thread];
    var after :=
      if ctx.action == DATA then thread
      else thread.(stack := StackAfter(w, id, ctx), trace := thread.trace + [id],
                   pending := PendingAfter(thread.pending, ctx.from.agent, Recipient(w, ctx)));
    w.(agents := seq(|w.agents|, a requires 0 <= a < |w.agents| => AgentAfter(w, a, id, tags, ctx)),
       threads := w.threads[ctx.thread := after])
  }

  // The agent the record is delivered to; DATA is delivered to nobody.
  function Delivery(w: World, ctx: Context): EntityRef
    requires Applicable(w, ctx)
  {
    if ctx.action == DATA then Nothing else AgentRef(Recipient(w, ctx))
  }
}
