// The data of a program: tables of domains, agents and threads indexed by id, and named snapshots.
// A pointer of the original is an index into one of the tables.
module World {
  import opened Common
  import opened AccessIds

  type AgentId = nat
  type DomainId = nat
  type ThreadId = nat

  const NOT_AN_AGENT: int := -1
  const GLOBAL: DomainId := 0
  const ZERO: AgentId := 0
  const RUNTIME: AgentId := 1
  const USER: AgentId := 2

  datatype Flag = Memory | Catch | Threading | Clone

  datatype AgentLink = AgentLink(parent: int, anchor: Int64)

  datatype AgentParams = AgentParams(link: AgentLink, name: string, comment: string, service: string, flags: set<Flag>)

  datatype Agent = Agent(
    id: AgentId, params: AgentParams, domain: DomainId,
    memory: seq<Int64>, tags: set<string>, obligations: int)
  {
    function Anchor(): Int64 {
      if memory == [] then params.link.anchor else UnmarkReceiving(memory[|memory| - 1])
    }

    // Parameters of a copy of this agent; an empty name keeps the agent's own.
    function Snapshot(name: string): AgentParams {
      params.(name := if name == "" then params.name else name, link := AgentLink(id, Anchor()))
    }
  }

  datatype Snapshot = Snapshot(name: string, members: seq<AgentParams>, entryFrom: string, entryTo: string)

  datatype Entry = Entry(from: AgentId, to: AgentId)

  // Members are listed in the order they joined, which fixes the enumeration order.
  datatype Domain = Domain(
    id: DomainId, name: string, parent: Option<DomainId>, thread: ThreadId, detached: bool,
    entry: Entry, members: seq<(string, AgentId)>, children: map<string, DomainId>)

  datatype Endpoint = Endpoint(agent: AgentId, domain: DomainId)

  datatype Frame = Frame(messageId: Int64, from: Endpoint, to: Endpoint)

  datatype Thread = Thread(id: ThreadId, root: DomainId, pending: bool, stack: seq<Frame>, trace: seq<Int64>)

  datatype World = World(
    domains: seq<Domain>, agents: seq<Agent>, snapshots: map<string, Snapshot>, threads: seq<Thread>)
  {
    predicate IsAgent(a: int) { 0 <= a < |agents| }
    predicate IsDomain(d: int) { 0 <= d < |domains| }
    predicate IsThread(t: int) { 0 <= t < |threads| }

    predicate HasFlag(a: int, flag: Flag) {
      IsAgent(a) && flag in agents[a].params.flags
    }

    // The endpoint whose turn it is on thread t.
    function Expected(t: ThreadId): Endpoint
      requires IsThread(t) && IsDomain(threads[t].root)
    {
      ExpectedAt(t, threads[t].stack)
    }

    // Whose turn it would be on t if its stack were the given one.
    function ExpectedAt(t: ThreadId, stack: seq<Frame>): Endpoint
      requires IsThread(t) && IsDomain(threads[t].root)
    {
      if stack == [] then Endpoint(domains[threads[t].root].entry.from, threads[t].root)
      else stack[|stack| - 1].to
    }
  }

  function FindMember(members: seq<(string, AgentId)>, name: string): (r: Option<AgentId>)
    ensures r.Some? ==> (name, r.value) in members
    ensures r.None? <==> forall m <- members :: m.0 != name
  {
    if members == [] then None
    else if members[0].0 == name then Some(members[0].1)
    else FindMember(members[1..], name)
  }

  // A message as an adapter hands it over. An id header is None when absent; an unreadable one reads as -1.
  datatype Message = Message(
    isData: bool, from: string, originalFrom: Option<string>, to: Option<string>, threadId: int,
    inReplyTo: Option<int>, inResponseTo: Option<int>, tags: seq<string>, onBehalfOf: string, body: string)
  {
    function To(): string { if to.Some? then to.value else "" }
    function InReplyTo(): int { if inReplyTo.Some? then inReplyTo.value else NO_ACCESS_ID }
    function InResponseTo(): int { if inResponseTo.Some? then inResponseTo.value else NO_ACCESS_ID }
  }

  datatype Action = YIELD | CALL | RETURN | REWIND | DATA

  datatype RoutingError =
    NoError | UnexpectedSender | ReplyToEmptyStack | ReplyMismatch | RespondToEmptyStack | RespondMismatch
    | Unresolved | CannotCreateAgent | NotSupported | AgentDied

  datatype Context = Context(action: Action, thread: ThreadId, from: Endpoint, to: Option<Endpoint>,
      error: RoutingError)

  predicate ToNeeded(action: Action) {
    action == YIELD || action == CALL
  }

  // Structural operations, journalled as runtime:commit records.
  datatype Op =
    | CreateAgent(params: AgentParams, domain: int)
    | CreateDomain(name: string, parent: int)
    | CreateDomainFromSnapshot(parent: int, snapshot: string)
    | CreateSnapshot(name: string, domain: int)
    | CreateThread(domain: int)

  datatype EntityRef = Nothing | AgentRef(agent: AgentId) | DomainRef(domain: DomainId)
    | SnapshotRef(snapshot: string) | ThreadRef(thread: ThreadId)
}
