// How a message from an agent becomes a routed record: address resolution and the choice between
// CALL, RETURN, REWIND and DATA.
module Routing {
  import opened Common
  import opened AccessIds
  import opened World
  import opened Transition

  datatype Target = Nowhere | ToAgent(agent: AgentId) | ToDomain(domain: DomainId) | ToSnapshot(snapshot: string)

  datatype Resolved = Resolved(target: Target, detach: bool, clone: bool)

  // Lookup layers, first hit wins: members of the domain, global members, child domains, snapshots.
  function Lookup(w: World, name: string, d: DomainId): Target
    requires w.IsDomain(d) && w.IsDomain(GLOBAL)
  {
    var local := FindMember(w.domains[d].members, name);
    var outer := FindMember(w.domains[GLOBAL].members, name);
    if local.Some? then ToAgent(local.value)
    else if outer.Some? then ToAgent(outer.value)
    else if name in w.domains[d].children then ToDomain(w.domains[d].children[name])
    else if name in w.snapshots then ToSnapshot(name)
    else Nowhere
  }

  function Resolve(w: World, address: string, d: DomainId): Resolved
    requires w.IsDomain(d) && w.IsDomain(GLOBAL)
  {
    var detach := "&" <= address;
    var rest := if detach then address[1..] else address;
    var star := "*" <= rest;
    var name := if star then rest[1..] else rest;
    var target := Lookup(w, name, d);
    var clone := star || (target.ToAgent? && w.HasFlag(target.agent, Clone));
    var target' := if detach && !target.ToDomain? && !target.ToSnapshot? then Nowhere else target;
    Resolved(if clone && !target'.ToAgent? && !target'.ToDomain? then Nowhere else target', detach, clone)
  }

  // The classification of one message: structural operations to commit first, then the context to journal.
  datatype Route = Route(ops: seq<Op>, context: Context)

  // Endpoint tables are consistent enough to read the sender whose turn it is.
  predicate Readable(w: World, t: ThreadId) {
    && w.IsThread(t) && w.IsDomain(w.threads[t].root) && w.IsDomain(GLOBAL)
    && w.IsAgent(w.Expected(t).agent) && w.IsDomain(w.Expected(t).domain)
    && (forall d :: 0 <= d < |w.domains| ==>
          && (forall m <- w.domains[d].members :: w.IsAgent(m.1))
          && (forall name <- w.domains[d].children :: w.IsDomain(w.domains[d].children[name])))
  }

  function Fail(t: ThreadId, e: Endpoint, error: RoutingError): Route {
    Route([], Context(REWIND, t, e, None, error))
  }

  function CallTo(t: ThreadId, e: Endpoint, to: Endpoint): Route {
    Route([], Context(CALL, t, e, Some(to), NoError))
  }

  function CloneName(w: World, a: AgentId): string
    requires w.IsAgent(a)
  {
    w.agents[a].params.name + "_" + Decimal(|w.agents|)
  }

  function CloneParams(w: World, a: AgentId): AgentParams
    requires w.IsAgent(a)
  {
    var p := w.agents[a].Snapshot(CloneName(w, a));
    p.(flags := p.flags - {Clone})
  }

  function RouteCall(w: World, t: ThreadId, address: string): Route
    requires Readable(w, t)
  {
    var e := w.Expected(t);
    var r := Resolve(w, address, e.domain);
    match r.target
    case Nowhere => Fail(t, e, Unresolved)
    case ToAgent(a) =>
      if !r.clone then CallTo(t, e, Endpoint(a, e.domain))
      else if FindMember(w.domains[e.domain].members, CloneName(w, a)).Some? then Fail(t, e, CannotCreateAgent)
      else CallTo(t, e, Endpoint(|w.agents|, e.domain)).(ops := [CreateAgent(CloneParams(w, a), e.domain)])
    case ToDomain(d) =>
      if r.clone then Fail(t, e, NotSupported)
      else CallTo(t, e, Endpoint(w.domains[d].entry.to, d))
    case ToSnapshot(s) =>
      var instance := w.snapshots[s];
      var entry := |w.agents| + IndexOfName(instance.members, instance.entryTo);
      CallTo(t, e, Endpoint(entry, |w.domains|)).(ops := [CreateDomainFromSnapshot(e.domain, s)])
  }

  function Classify(w: World, from: AgentId, msg: Message): Route
    requires w.IsThread(msg.threadId) && Readable(w, msg.threadId)
  {
    var t := msg.threadId;
    var e := w.Expected(t);
    var stack := w.threads[t].stack;
    if e.agent != from then Fail(t, e, UnexpectedSender)
    else if msg.isData then Route([], Context(DATA, t, e, None, NoError))
    else if msg.InReplyTo() != NO_ACCESS_ID then
      if stack == [] then Fail(t, e, ReplyToEmptyStack)
      else if stack[|stack| - 1].messageId != msg.InReplyTo() then Fail(t, e, ReplyMismatch)
      else Route([], Context(RETURN, t, e, None, NoError))
    else if msg.InResponseTo() != NO_ACCESS_ID && stack == [] then Fail(t, e, RespondToEmptyStack)
    else if msg.InResponseTo() != NO_ACCESS_ID && stack[|stack| - 1].messageId != msg.InResponseTo() then
      Fail(t, e, RespondMismatch)
    else RouteCall(w, t, msg.To())
  }

  // The message's sender and tags are stamped by the runtime.
  function StampedMessage(w: World, from: AgentId, msg: Message): Message
    requires w.IsThread(msg.threadId) && Readable(w, msg.threadId)
  {
    var e := w.Expected(msg.threadId);
    var name := w.agents[e.agent].params.name;
    if e.agent != from then msg
    else msg.(from := name,
              originalFrom :=
                if msg.from != name && !(msg.isData && msg.from == "") then Some(msg.from) else msg.originalFrom,
              tags := if msg.isData then [] else msg.tags)
  }

  function StampedTags(w: World, from: AgentId, msg: Message): set<string>
    requires w.IsThread(msg.threadId) && Readable(w, msg.threadId) && w.IsAgent(from)
  {
    var proposed := set tag | tag in StampedMessage(w, from, msg).tags;
    if Classify(w, from, msg).context.action == REWIND then {}
    else w.agents[from].tags + (if from == USER then proposed else {})
  }

  // ----- the CHECKs of preprocess

  // Those about who sends on which thread: lines 396-407 and 428.
  predicate SenderOk(w: World, from: AgentId, msg: Message) {
    && w.IsAgent(from) && w.IsDomain(w.agents[from].domain) && w.IsThread(msg.threadId)
    && Readable(w, msg.threadId)
    && (w.agents[from].domain != GLOBAL ==> w.domains[w.agents[from].domain].thread == msg.threadId)
    && (w.agents[from].domain != GLOBAL && w.Expected(msg.threadId).agent == from ==>
          w.Expected(msg.threadId).domain == w.agents[from].domain)
  }

  // Those about what the message says.
  predicate ContentOk(w: World, from: AgentId, msg: Message)
    requires w.IsThread(msg.threadId) && Readable(w, msg.threadId)
  {
    var stamped := StampedMessage(w, from, msg);
    && (w.Expected(msg.threadId).agent == from && msg.isData ==>
          msg.to.None? && msg.inReplyTo.None? && msg.inResponseTo.None?)
    && (forall i, j :: 0 <= i < j < |stamped.tags| ==> stamped.tags[i] != stamped.tags[j])
  }

  // The context of an agent's death: a REWIND on the thread of the agent's home domain.
  function DeathContext(w: World, a: AgentId): Context
    requires w.IsAgent(a) && w.IsDomain(w.agents[a].domain)
  {
    var home := w.agents[a].domain;
    Context(REWIND, w.domains[home].thread, Endpoint(a, home), None, AgentDied)
  }
}
