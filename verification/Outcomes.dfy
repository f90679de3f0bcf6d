// What becomes of a message, told from its headers and the state it meets: which action it is routed as, which error
// it is rewound for, and what a call that makes an agent or a domain leaves behind.
module Outcomes {
  import opened Common
  import opened AccessIds
  import opened World
  import opened Transition
  import opened Routing
  import opened Soundness
  import opened Preservation
  import opened Growth
  import opened Preprocess
  import opened History
  import opened Addresses

  // ----- headers

  predicate Given(header: Option<int>) {
    header.Some? && header.value != NO_ACCESS_ID
  }

  // The header names the message that the agent now acting was called with.
  predicate NamesTop(stack: seq<Frame>, header: Option<int>) {
    stack != [] && header == Some(stack[|stack| - 1].messageId)
  }

  predicate Speaks(w: World, from: AgentId, msg: Message)
    requires w.IsThread(msg.threadId) && Readable(w, msg.threadId)
  {
    w.Expected(msg.threadId).agent == from && !msg.isData
  }

  // Neither a reply nor a response to anything but the message it was called with.
  predicate Asks(w: World, from: AgentId, msg: Message)
    requires w.IsThread(msg.threadId) && Readable(w, msg.threadId)
  {
    var stack := w.threads[msg.threadId].stack;
    Speaks(w, from, msg) && !Given(msg.inReplyTo) && (Given(msg.inResponseTo) ==> NamesTop(stack, msg.inResponseTo))
  }

  // A reply returns exactly when its sender is expected and it names the message on top of the stack.
  lemma ReplyReturnsExactly(w: World, from: AgentId, msg: Message)
    requires w.IsThread(msg.threadId) && Readable(w, msg.threadId)
    ensures var ctx := Classify(w, from, msg).context;
            var stack := w.threads[msg.threadId].stack;
            && ctx.thread == msg.threadId && ctx.from == w.Expected(msg.threadId)
            && (ctx.action == RETURN <==>
                  Speaks(w, from, msg) && Given(msg.inReplyTo) && NamesTop(stack, msg.inReplyTo))
            && (ctx.action == DATA <==> ctx.from.agent == from && msg.isData)
            && (ctx.action == CALL ==> Asks(w, from, msg))
            && (ctx.action == REWIND <==> ctx.error != NoError)
            && (ctx.action == CALL <==> ctx.to.Some?)
  {
    hide RouteCall, Readable;
    RouteCallErrors(w, msg.threadId, msg.To());
  }

  // Each error before the address is looked at, and what it is reported for.
  lemma ErrorsExactly(w: World, from: AgentId, msg: Message)
    requires w.IsThread(msg.threadId) && Readable(w, msg.threadId)
    ensures var error := Classify(w, from, msg).context.error;
            var stack := w.threads[msg.threadId].stack;
            var responds := Speaks(w, from, msg) && !Given(msg.inReplyTo) && Given(msg.inResponseTo);
            && (error == UnexpectedSender <==> w.Expected(msg.threadId).agent != from)
            && (error == ReplyToEmptyStack <==> Speaks(w, from, msg) && Given(msg.inReplyTo) && stack == [])
            && (error == ReplyMismatch <==>
                  Speaks(w, from, msg) && Given(msg.inReplyTo) && stack != [] && !NamesTop(stack, msg.inReplyTo))
            && (error == RespondToEmptyStack <==> responds && stack == [])
            && (error == RespondMismatch <==> responds && stack != [] && !NamesTop(stack, msg.inResponseTo))
            && error != AgentDied
            && (Classify(w, from, msg).context.action != CALL ==> Classify(w, from, msg).ops == [])
  {
    hide RouteCall, Readable;
    RouteCallErrors(w, msg.threadId, msg.To());
  }

  lemma RouteCallErrors(w: World, t: ThreadId, address: string)
    requires Readable(w, t)
    ensures var route := RouteCall(w, t, address);
            var ctx := route.context;
            && ctx.thread == t && ctx.from == w.Expected(t)
            && ((ctx.action == CALL && ctx.to.Some? && ctx.error == NoError)
                || (ctx.action == REWIND && ctx.to.None? && route.ops == []
                    && (ctx.error == Unresolved || ctx.error == CannotCreateAgent || ctx.error == NotSupported)))
  {
    hide Resolve;
  }

  // The agent that a clone of a would be called, if its name is free in d.
  predicate CloneTaken(w: World, d: DomainId, a: AgentId)
    requires w.IsDomain(d) && w.IsAgent(a)
  {
    Named(w.domains[d].members, w.agents[a].params.name + "_" + Decimal(|w.agents|))
  }

  // What a message that asks for something comes to, by what its address denotes.
  lemma {:induction false} AskingExactly(
    w: World, from: AgentId, msg: Message, detach: bool, star: bool, name: string, found: Target)
    requires Sound(w) && w.IsThread(msg.threadId) && Readable(w, msg.threadId) && Asks(w, from, msg)
    requires msg.To() == Address(detach, star, name) && Reads(detach, star, name)
    requires Denotes(w, w.Expected(msg.threadId).domain, name, found)
    ensures found.ToAgent? ==> w.IsAgent(found.agent)
    ensures found.ToDomain? ==> w.IsDomain(found.domain)
    ensures found.ToSnapshot? ==> found.snapshot in w.snapshots
    ensures var d := w.Expected(msg.threadId).domain;
            var route := Classify(w, from, msg);
            var error := route.context.error;
            var clones := star || (found.ToAgent? && w.HasFlag(found.agent, Clone));
            && (error == Unresolved <==>
                  found == Nowhere || (detach && found.ToAgent?) || (clones && found.ToSnapshot?))
            && (error == CannotCreateAgent <==>
                  found.ToAgent? && !detach && clones && CloneTaken(w, d, found.agent))
            && (error == NotSupported <==> found.ToDomain? && clones)
            && (error == NoError ==>
                  match found
                  case ToAgent(a) =>
                    if clones then |route.ops| == 1 && route.context.to == Some(Endpoint(|w.agents|, d))
                    else route.ops == [] && route.context.to == Some(Endpoint(a, d))
                  case ToDomain(c) =>
                    route.ops == [] && route.context.to == Some(Endpoint(w.domains[c].entry.to, c))
                  case ToSnapshot(s) => route.ops == [CreateDomainFromSnapshot(d, s)]
                  case Nowhere => false)
  {
    var t := msg.threadId;
    var d := w.Expected(t).domain;
    ResolveExactly(w, d, detach, star, name, found);
    ResolveInScope(w, msg.To(), d);
    LookupExactly(w, d, name, found);
    LookupInScope(w, name, d);
    assert Classify(w, from, msg) == RouteCall(w, t, msg.To()) by { hide RouteCall, Resolve; }
    if found.ToAgent? {
      MemberExactly(w, d, CloneName(w, found.agent), ZERO);
    }
    hide Sound, Resolve, Lookup, Denotes, Classify;
  }

  // ----- whom preprocess lets speak, and what it lets them say; anything else aborts

  // A global agent may speak on any thread, another one only on its domain's, and there only from its domain.
  lemma {:induction false} SpeakerPassesExactly(w: World, from: AgentId, msg: Message)
    requires Sound(w)
    ensures SenderOk(w, from, msg) <==>
            && w.IsAgent(from) && w.IsThread(msg.threadId) && w.IsDomain(w.threads[msg.threadId].root)
            && var home, turn := w.agents[from].domain, w.Expected(msg.threadId);
               home == GLOBAL || (w.IsDomain(home) && w.domains[home].thread == msg.threadId
                                  && (turn.agent == from ==> turn.domain == home))
  {
    if w.IsThread(msg.threadId) {
      ExpectedInScope(w, msg.threadId);
    }
    if w.IsAgent(from) {
      AgentHasHome(w, from);
    }
    hide Sound, Readable;
  }

  lemma AgentHasHome(w: World, a: AgentId)
    requires Sound(w) && w.IsAgent(a)
    ensures w.IsDomain(w.agents[a].domain) && w.IsDomain(GLOBAL)
  {
  }

  // Tags may not be repeated, unless they are an expected record's, which are dropped; such a record has no recipient
  // and answers nothing.
  lemma WordsPassExactly(w: World, from: AgentId, msg: Message)
    requires w.IsThread(msg.threadId) && Readable(w, msg.threadId)
    ensures var turn := w.Expected(msg.threadId).agent == from;
            ContentOk(w, from, msg) <==>
            if turn && msg.isData then msg.to.None? && msg.inReplyTo.None? && msg.inResponseTo.None?
            else forall i, j :: 0 <= i < j < |msg.tags| ==> msg.tags[i] != msg.tags[j]
  {
    var turn := w.Expected(msg.threadId).agent == from;
    assert StampedMessage(w, from, msg).tags == if turn && msg.isData then [] else msg.tags;
    hide StampedMessage;
  }

  // ----- clones

  // A new agent at the end of the table, with nothing of its own yet.
  predicate Joined(w: World, w': World, a: AgentId, d: DomainId) {
    && w'.IsAgent(a) && w.IsDomain(d) && w'.IsDomain(d)
    && w'.agents[a] == Agent(a, w'.agents[a].params, d, [], {}, 0)
    && (w'.agents[a].params.name, a) in w'.domains[d].members
  }

  // An accepted call to a clone leaves a copy of the agent that was asked for: the same service, comment and history,
  // a name of its own, and no Clone flag.
  lemma {:induction false} CloneIsACopy(w: World, from: AgentId, msg: Message, a: AgentId, bound: int)
    requires Sound(w) && MemoryOk(w, bound) && w.IsThread(msg.threadId) && Readable(w, msg.threadId)
    requires var r := Resolve(w, msg.To(), w.Expected(msg.threadId).domain); r.clone && r.target == ToAgent(a)
    requires Classify(w, from, msg).context.action == CALL && CommitAllOk(w, Classify(w, from, msg).ops)
    ensures var w' := CommitAll(w, Classify(w, from, msg).ops);
            var n, d := |w.agents|, w.Expected(msg.threadId).domain;
            && w.IsAgent(a) && Joined(w, w', n, d) && |w'.agents| == n + 1 && w'.agents[..n] == w.agents
            && Classify(w, from, msg).context.to == Some(Endpoint(n, d))
            && var source, copy := w.agents[a].params, w'.agents[n].params;
               && copy.name == source.name + "_" + Decimal(n)
               && copy.service == source.service && copy.comment == source.comment
               && (forall flag :: flag in copy.flags <==> flag in source.flags && flag != Clone)
               && Lineage(w') && HistoryOf(w', n) == HistoryOf(w, a)
  {
    var t, d := msg.threadId, w.Expected(msg.threadId).domain;
    ReplyReturnsExactly(w, from, msg);
    ResolveInScope(w, msg.To(), d);
    assert Classify(w, from, msg) == RouteCall(w, t, msg.To()) by { hide RouteCall, Resolve; }
    hide Classify, Resolve, FindMember;
    var op := CreateAgent(CloneParams(w, a), d);
    RouteCallOps(w, t, msg.To());
    assert Classify(w, from, msg).ops == [op];
    hide RouteCall;
    CopyRemembers(w, a, CloneParams(w, a), d, bound);
    SourceHasId(w, a);
  }

  lemma SourceHasId(w: World, a: AgentId)
    requires Sound(w) && w.IsAgent(a)
    ensures w.agents[a].id == a
  {
  }

  // Whoever joins with the link of a snapshot of agent a starts with the history of a.
  lemma {:induction false} CopyRemembers(w: World, a: AgentId, params: AgentParams, d: DomainId, bound: int)
    requires Sound(w) && MemoryOk(w, bound) && w.IsAgent(a) && w.IsDomain(d)
    requires params.link == w.agents[a].Snapshot("").link
    ensures var w' := AddAgents(w, [params], d);
            && Joined(w, w', |w.agents|, d) && |w'.agents| == |w.agents| + 1 && w'.agents[..|w.agents|] == w.agents
            && w'.agents[|w.agents|].params == params
            && Lineage(w') && HistoryOf(w', |w.agents|) == HistoryOf(w, a)
  {
    var w' := AddAgents(w, [params], d);
    SourceHasId(w, a);
    ForkStartsWithHistory(w, a, bound);
    hide Sound, MemoryOk;
    assert w'.domains[d].members == w.domains[d].members + [(params.name, |w.agents|)];
    SameBelow(w, w', params.link, |w.agents|);
  }

  // From where it was made, a clone is reached by its own name and is not cloned again, unless the name itself begins
  // with one of the prefixes.
  lemma {:induction false} CloneIsReachedExactly(w: World, d: DomainId, a: AgentId)
    requires Sound(w) && w.IsAgent(a) && w.IsDomain(d) && Clone !in w.agents[a].params.flags
    requires (w.agents[a].params.name, a) in w.domains[d].members
    ensures var name := w.agents[a].params.name;
            Resolve(w, name, d) == Resolved(ToAgent(a), false, false) <==> !("&" <= name) && !("*" <= name)
  {
    var name := w.agents[a].params.name;
    var r := Resolve(w, name, d);
    if !("&" <= name) && !("*" <= name) {
      assert Address(false, false, name) == name;
      ResolveExactly(w, d, false, false, name, ToAgent(a));
      hide Sound, Resolve;
    } else {
      assert "&" <= name ==> r.detach;
      assert "*" <= name ==> name[0] == '*' && r.clone;
    }
  }

  // So a later message from there, addressed to the clone by name, reaches it.
  lemma {:induction false} CloneAnswersToItsName(w: World, from: AgentId, msg: Message, a: AgentId, bound: int)
    requires Sound(w) && MemoryOk(w, bound) && w.IsThread(msg.threadId) && Readable(w, msg.threadId)
    requires var r := Resolve(w, msg.To(), w.Expected(msg.threadId).domain); r.clone && r.target == ToAgent(a)
    requires Classify(w, from, msg).context.action == CALL && CommitAllOk(w, Classify(w, from, msg).ops)
    ensures var w' := CommitAll(w, Classify(w, from, msg).ops);
            && w.IsAgent(a) && w'.IsDomain(w.Expected(msg.threadId).domain) && w'.IsDomain(GLOBAL)
            && var name := w.agents[a].params.name + "_" + Decimal(|w.agents|);
               Resolve(w', name, w.Expected(msg.threadId).domain) == Resolved(ToAgent(|w.agents|), false, false)
               <==> !("&" <= name) && !("*" <= name)
  {
    var w' := CommitAll(w, Classify(w, from, msg).ops);
    CloneIsACopy(w, from, msg, a, bound);
    ClassifyIsFaithful(w, from, msg, w');
    hide Classify, Resolve, CommitAll, CommitAllOk, MemoryOk, HistoryOf, Lineage, Faithful, Applicable, Readable;
    CloneIsReachedExactly(w', w.Expected(msg.threadId).domain, |w.agents|);
    hide Sound;
  }

  // ----- instances of snapshots

  // A snapshot keeps what its domain's members are and remember.
  lemma {:induction false} SnapshotFreezes(w: World, d: DomainId, name: string, i: nat, bound: int)
    requires Sound(w) && MemoryOk(w, bound) && CommitOk(w, CreateSnapshot(name, d)) && i < |w.domains[d].members|
    ensures var w' := CommitOp(w, CreateSnapshot(name, d));
            && name in w'.snapshots && w' == w.(snapshots := w'.snapshots)
            && var s := w'.snapshots[name];
               var source := w.agents[w.domains[d].members[i].1];
               && |s.members| == |w.domains[d].members|
               && s.members[i] == source.params.(link := s.members[i].link)
               && NOT_AN_AGENT <= s.members[i].link.parent < |w.agents|
               && HistoryAt(w, s.members[i].link) == HistoryOf(w, source.id)
               && s.entryFrom == w.agents[w.domains[d].entry.from].params.name
               && s.entryTo == w.agents[w.domains[d].entry.to].params.name
  {
    var a := w.domains[d].members[i].1;
    SourceHasId(w, a);
    ForkStartsWithHistory(w, a, bound);
    hide Sound, MemoryOk;
  }

  // An instance is a child of the caller's domain with the members of the snapshot.
  lemma {:induction false} InstanceIsACopy(w: World, p: DomainId, name: string, i: nat)
    requires CommitOk(w, CreateDomainFromSnapshot(p, name)) && i < |w.snapshots[name].members|
    ensures var s := w.snapshots[name];
            var w' := CommitOp(w, CreateDomainFromSnapshot(p, name));
            var c, n := |w.domains|, |w.agents|;
            && w'.IsDomain(c) && |w'.domains| == c + 1 && |w'.agents| == n + |s.members|
            && w'.agents[..n] == w.agents && w'.threads == w.threads && w'.snapshots == w.snapshots
            && w'.domains[c].parent == Some(p) && w'.domains[c].thread == w.domains[p].thread && !w'.domains[c].detached
            && w'.domains[p].children == w.domains[p].children["domain-" + Decimal(c) := c]
            && |w'.domains[c].members| == |s.members| && w'.domains[c].members[i] == (s.members[i].name, n + i)
            && w'.agents[n + i] == Agent(n + i, s.members[i], c, [], {}, 0)
  {
    hide IndexOfName, Decimal, DistinctNames;
  }

  // It is entered and left where the snapshot says.
  lemma {:induction false} InstanceEntry(w: World, p: DomainId, name: string, i: nat)
    requires CommitOk(w, CreateDomainFromSnapshot(p, name)) && i < |w.snapshots[name].members|
    ensures var s := w.snapshots[name];
            var entry := CommitOp(w, CreateDomainFromSnapshot(p, name)).domains[|w.domains|].entry;
            && (entry.to == |w.agents| + i <==> s.members[i].name == s.entryTo)
            && (entry.from == |w.agents| + i <==> s.members[i].name == s.entryFrom)
  {
    hide IndexOfName, Decimal;
    var s := w.snapshots[name];
    assert DistinctNames(s.members);
    assert CommitOp(w, CreateDomainFromSnapshot(p, name)).domains[|w.domains|].entry ==
           Entry(|w.agents| + IndexOfName(s.members, s.entryFrom), |w.agents| + IndexOfName(s.members, s.entryTo));
  }

  // ----- what is stamped on a message

  // Nobody speaks under another's name, and a sender's own words are passed on as they are.
  lemma StampNamesSender(w: World, from: AgentId, msg: Message)
    requires w.IsThread(msg.threadId) && Readable(w, msg.threadId) && w.Expected(msg.threadId).agent == from
    ensures var stamped := StampedMessage(w, from, msg);
            && stamped.from == w.agents[from].params.name
            && (msg.from != "" && msg.from != stamped.from ==> stamped.originalFrom == Some(msg.from))
            && (msg.from == stamped.from ==> stamped.originalFrom == msg.originalFrom)
            && (msg.isData ==> stamped.tags == []) && (!msg.isData ==> stamped.tags == msg.tags)
            && stamped.body == msg.body && stamped.To() == msg.To() && stamped.threadId == msg.threadId
            && stamped.InReplyTo() == msg.InReplyTo() && stamped.InResponseTo() == msg.InResponseTo()
            && stamped.isData == msg.isData && stamped.onBehalfOf == msg.onBehalfOf
  {
  }

  // A death is reported by the dead agent from its home, on the thread found by climbing from there.
  lemma {:induction false} DeathSpeaksFromHome(w: World, a: AgentId)
    requires Sound(w) && w.IsAgent(a)
    ensures var ctx := DeathContext(w, a);
            && ctx.from.agent == a && ctx.from.domain == w.agents[a].domain
            && ctx.action == REWIND && ctx.error == AgentDied && ctx.to.None?
            && w.IsThread(ctx.thread) && w.threads[ctx.thread].root == Climb(w, ctx.from.domain)
  {
    ClimbEndsAtThreadRoot(w, w.agents[a].domain);
  }

  // ----- delivery

  // A routed record is handed to the agent whose turn it then is; a data record to nobody.
  lemma {:induction false} DeliveredToTurn(w: World, id: Int64, tags: set<string>, ctx: Context)
    requires Sound(w) && Faithful(w, ctx) && Applicable(w, ctx)
    ensures var w' := ApplyMessage(w, id, tags, ctx);
            && w'.IsThread(ctx.thread) && w'.IsDomain(w'.threads[ctx.thread].root)
            && Delivery(w, ctx) == if ctx.action == DATA then Nothing else AgentRef(w'.Expected(ctx.thread).agent)
  {
    RecipientHoldsTurn(w, id, tags, ctx);
    hide Recipient, Sound, Applicable, StackAfter;
  }

  // And it is remembered by its sender as sent and by that agent as received; one that is both has sent it first.
  lemma {:induction false} RecordIsRemembered(w: World, id: Int64, tags: set<string>, ctx: Context, a: AgentId)
    requires Sound(w) && Faithful(w, ctx) && Applicable(w, ctx) && w.IsAgent(a)
    ensures var w' := ApplyMessage(w, id, tags, ctx);
            var sends, gets := a == w.Expected(ctx.thread).agent, a == w'.Expected(ctx.thread).agent;
            && w'.IsAgent(a)
            && w'.agents[a].memory == w.agents[a].memory +
               if ctx.action == DATA then (if sends then [id] else [])
               else if sends && gets then [id, MarkReceiving(id)]
               else if sends then [id]
               else if gets then [MarkReceiving(id)] else []
  {
    RecipientHoldsTurn(w, id, tags, ctx);
    hide Recipient, Sound, Applicable, StackAfter, MarkReceiving;
  }
}
