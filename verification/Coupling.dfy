// Local stacks refine the global one: on a thread served by a team of linear services that call each other by plain
// names, each service's stack is the thread's call stack seen from it, so services and runtime never disagree.
module Coupling {
  import opened Common
  import opened AccessIds
  import opened World
  import opened Transition
  import opened Routing
  import opened Soundness
  import opened Preservation
  import opened Preprocess
  import opened Runs
  import opened Turns
  import opened Service

  function NameOf(w: World, a: AgentId): string {
    if w.IsAgent(a) then w.agents[a].params.name else ""
  }

  // One frame as agent a sees it: a call it made, a call it received, or both when it calls itself.
  function Sight(w: World, t: ThreadId, f: Frame, a: AgentId): seq<Pending> {
    (if f.from.agent == a then [Outgoing(NameOf(w, f.to.agent))] else [])
    + (if f.to.agent == a then [Incoming(t, NameOf(w, a), NameOf(w, f.from.agent), f.messageId)] else [])
  }

  function View(w: World, t: ThreadId, stack: seq<Frame>, a: AgentId): seq<Pending> {
    if stack == [] then []
    else View(w, t, stack[..|stack| - 1], a) + Sight(w, t, stack[|stack| - 1], a)
  }

  // The runtime, a thread, the agents that serve it, and the local stack of each. The runtime agent may serve several
  // threads: it answers a delivery before it takes the next, so its stack here is what it owes on this thread.
  datatype Line = Line(run: Run, thread: ThreadId, team: set<AgentId>, locals: map<AgentId, seq<Pending>>)
  {
    // The user takes part in every thread.
    predicate Here(a: AgentId) {
      a == USER || a in team
    }

    function Local(a: AgentId): seq<Pending> {
      if a in locals then locals[a] else []
    }

    function Stack(): seq<Frame> {
      if run.world.IsThread(thread) then run.world.threads[thread].stack else []
    }
  }

  // The caller of the service whose turn it is.
  function Peer(l: Line): string {
    if l.Stack() == [] then "" else NameOf(l.run.world, l.Stack()[|l.Stack()| - 1].from.agent)
  }

  predicate IdsIssued(stack: seq<Frame>) {
    forall i :: 0 <= i < |stack| ==> Issued(stack[i].messageId)
  }

  // Only the team and the user call and are called.
  predicate AmongTeam(l: Line, stack: seq<Frame>) {
    forall i :: 0 <= i < |stack| ==> l.Here(stack[i].from.agent) && l.Here(stack[i].to.agent)
  }

  predicate ViewsMatch(l: Line) {
    forall a <- l.team :: a != USER ==> l.Local(a) == View(l.run.world, l.thread, l.Stack(), a)
  }

  predicate Coupled(l: Line) {
    && Orderly(l.run) && l.run.world.IsThread(l.thread)
    && IdsIssued(l.Stack()) && AmongTeam(l, l.Stack()) && ViewsMatch(l)
  }

  // ----- what participants may do

  // A plain name of an agent that is not cloned on message.
  predicate Plain(w: World, t: ThreadId, address: string)
    requires w.IsThread(t) && Readable(w, t)
  {
    var r := Resolve(w, address, w.Expected(t).domain);
    !("&" <= address) && !("*" <= address) && r.target.ToAgent? && !r.clone
  }

  // A plain name of somebody who takes part in the thread.
  predicate PlainHere(l: Line, address: string)
    requires l.run.world.IsThread(l.thread) && Readable(l.run.world, l.thread)
  {
    && Plain(l.run.world, l.thread, address)
    && l.Here(Resolve(l.run.world, address, l.run.world.Expected(l.thread).domain).target.agent)
  }

  // A handler's routed response: no reply headers, distinct tags, and addressed to nobody in particular, to the
  // caller, or to a plain name. The runtime's own handler never addresses its response.
  predicate HandlerOk(l: Line, a: AgentId, msg: Message)
    requires l.run.world.IsThread(l.thread) && Readable(l.run.world, l.thread)
  {
    && !msg.isData && msg.inReplyTo.None? && msg.inResponseTo.None? && msg.onBehalfOf == ""
    && (forall i, j :: 0 <= i < j < |msg.tags| ==> msg.tags[i] != msg.tags[j])
    && (msg.to.Some? && msg.to.value != Peer(l) ==> a != RUNTIME && PlainHere(l, msg.to.value))
  }

  // A user message: a readable In-Reply-To if any, and if it turns out to be a call, then to a plain name.
  predicate UserOk(l: Line, msg: Message, id: int) {
    && msg.threadId == l.thread && Sayable(l.run, USER, msg, id)
    && msg.inReplyTo != Some(NO_ACCESS_ID) && msg.onBehalfOf == ""
    && (Classify(l.run.world, USER, msg).context.action == CALL ==> PlainHere(l, msg.To()))
  }

  // ----- properties of views

  lemma {:induction false} ViewDependsOnNames(w: World, w': World, t: ThreadId, stack: seq<Frame>, a: AgentId)
    requires forall i :: 0 <= i < |stack| ==> w.IsAgent(stack[i].from.agent) && w.IsAgent(stack[i].to.agent)
    requires |w.agents| <= |w'.agents|
    requires forall b :: 0 <= b < |w.agents| ==> w'.agents[b].params.name == w.agents[b].params.name
    ensures View(w', t, stack, a) == View(w, t, stack, a)
    decreases |stack|
  {
    if stack != [] {
      ViewDependsOnNames(w, w', t, stack[..|stack| - 1], a);
      assert w.IsAgent(stack[|stack| - 1].to.agent);
    }
  }

  lemma {:induction false} StrangersSeeNothing(w: World, t: ThreadId, stack: seq<Frame>, a: AgentId)
    requires forall i :: 0 <= i < |stack| ==> stack[i].from.agent != a && stack[i].to.agent != a
    ensures View(w, t, stack, a) == []
    decreases |stack|
  {
    if stack != [] {
      StrangersSeeNothing(w, t, stack[..|stack| - 1], a);
    }
  }

  lemma OrderlyRun(r: Run)
    requires Orderly(r)
    ensures Sound(r.world) && Valid(r)
  {
  }

  lemma SoundStack(w: World, t: ThreadId)
    requires Sound(w) && w.IsThread(t)
    ensures w.IsDomain(w.threads[t].root) && Readable(w, t)
    ensures forall i :: 0 <= i < |w.threads[t].stack| ==>
              w.IsAgent(w.threads[t].stack[i].from.agent) && w.IsAgent(w.threads[t].stack[i].to.agent)
    ensures w.threads[t].stack == [] ==> w.Expected(t).agent == USER
    ensures w.threads[t].stack != [] ==> w.Expected(t) == w.threads[t].stack[|w.threads[t].stack| - 1].to
  {
    ExpectedInScope(w, t);
    assert StackOk(w, t);
    var stack := w.threads[t].stack;
    forall i | 0 <= i < |stack|
      ensures w.IsAgent(stack[i].from.agent) && w.IsAgent(stack[i].to.agent)
    {
      assert InScope(w, stack[i].from) && InScope(w, stack[i].to);
    }
  }

  // Whose turn it is on the thread, it is somebody who takes part.
  lemma TurnIsHere(l: Line)
    requires Coupled(l)
    ensures Readable(l.run.world, l.thread) && l.Here(l.run.world.Expected(l.thread).agent)
  {
    OrderlyRun(l.run);
    SoundStack(l.run.world, l.thread);
  }

  // The service whose turn it is has an unanswered call on top: the thread's last one.
  lemma {:induction false} TurnSeesItsCall(l: Line)
    requires Coupled(l) && l.run.world.IsDomain(l.run.world.threads[l.thread].root)
    requires l.run.world.Expected(l.thread).agent != USER
    ensures var w := l.run.world;
            var a := w.Expected(l.thread).agent;
            var stack := l.Stack();
            && stack != [] && l.Local(a) != []
            && l.Local(a)[|l.Local(a)| - 1]
               == Incoming(l.thread, NameOf(w, a), NameOf(w, stack[|stack| - 1].from.agent),
                   stack[|stack| - 1].messageId)
  {
    hide Orderly, Sound, AmongTeam, IdsIssued, ViewsMatch, View, NameOf, Readable;
    OrderlyRun(l.run);
    SoundStack(l.run.world, l.thread);
    TurnIsHere(l);
    ViewMatches(l, l.run.world.Expected(l.thread).agent);
    LastCallIsSeen(l.run.world, l.thread, l.Stack());
  }

  lemma LastCallIsSeen(w: World, t: ThreadId, stack: seq<Frame>)
    requires stack != []
    ensures var f := stack[|stack| - 1];
            var view := View(w, t, stack, f.to.agent);
            && view != []
            && view[|view| - 1] == Incoming(t, NameOf(w, f.to.agent), NameOf(w, f.from.agent), f.messageId)
  {
    var f := stack[|stack| - 1];
    assert View(w, t, stack, f.to.agent) == View(w, t, stack[..|stack| - 1], f.to.agent) + Sight(w, t, f, f.to.agent);
  }

  lemma ExpectedIsAgent(w: World, t: ThreadId)
    requires Sound(w) && w.IsThread(t)
    ensures w.IsAgent(w.Expected(t).agent)
  {
    ExpectedInScope(w, t);
  }

  // ----- handing over one routed record

  // What service a's stack must be once the routed message with context ctx has been emitted but not yet delivered.
  function Emitted(w: World, t: ThreadId, stack: seq<Frame>, ctx: Context, a: AgentId): seq<Pending> {
    if ctx.action == CALL && ctx.to.Some? then Caller(w, t, stack, Frame(0, ctx.from, ctx.to.value), a)
    else if ctx.action == RETURN && stack != [] then Caller(w, t, stack[..|stack| - 1], stack[|stack| - 1], a)
    else View(w, t, stack, a)
  }

  // The headers a delivered message shows to its recipient.
  predicate ShowsContext(w: World, ctx: Context, msg: Message) {
    && msg.from == NameOf(w, ctx.from.agent) && msg.onBehalfOf == "" && msg.threadId == ctx.thread
    && (ctx.action == RETURN <==> msg.inReplyTo.Some?)
    && (ctx.action == CALL ==> ctx.to.Some? && msg.To() == NameOf(w, ctx.to.value.agent))
  }

  // The caller's stack once it has emitted the call f, or before it receives the answer to it.
  function Caller(w: World, t: ThreadId, below: seq<Frame>, f: Frame, a: AgentId): seq<Pending> {
    View(w, t, below, a) + (if f.from.agent == a then [Outgoing(NameOf(w, f.to.agent))] else [])
  }

  lemma CallCompletesView(w: World, t: ThreadId, stack: seq<Frame>, f: Frame, msg: Message, a: AgentId)
    requires msg.inReplyTo.None? && msg.from == NameOf(w, f.from.agent) && msg.threadId == t
             && msg.To() == NameOf(w, f.to.agent)
    ensures View(w, t, stack + [f], a) ==
            if a == f.to.agent then Received(Caller(w, t, stack, f, a), msg, f.messageId) else Caller(w, t, stack, f, a)
  {
    assert (stack + [f])[..|stack|] == stack;
    assert View(w, t, stack + [f], a) == View(w, t, stack, a) + Sight(w, t, f, a);
  }

  lemma ReturnCompletesView(w: World, t: ThreadId, below: seq<Frame>, f: Frame, msg: Message, id: int, a: AgentId)
    requires msg.inReplyTo.Some? && msg.from == NameOf(w, f.to.agent) && msg.onBehalfOf == ""
    ensures var local := Caller(w, t, below, f, a);
            if a == f.from.agent then ReceiveOk(local, msg) && View(w, t, below, a) == Received(local, msg, id)
            else View(w, t, below, a) == local
  {
  }

  // Delivery closes the gap: the recipient's CHECKs pass, and every stack is again the view of the call stack.
  lemma {:induction false} DeliveryCompletesView(w: World, t: ThreadId, ctx: Context, msg: Message, id: Int64,
      a: AgentId)
    requires w.IsThread(t) && ctx.thread == t && w.IsDomain(w.threads[t].root) && ctx.from == w.Expected(t)
             && Applicable(w, ctx)
    requires ShowsContext(w, ctx, msg) && (ctx.action == CALL || ctx.action == RETURN)
    ensures var local := Emitted(w, t, w.threads[t].stack, ctx, a);
            && (a == Recipient(w, ctx) ==> ReceiveOk(local, msg))
            && View(w, t, StackAfter(w, id, ctx), a)
               == if a == Recipient(w, ctx) then Received(local, msg, id) else local
  {
    hide View;
    var stack := w.threads[t].stack;
    if ctx.action == CALL {
      CallCompletesView(w, t, stack, Frame(id, ctx.from, ctx.to.value), msg, a);
    } else {
      ReturnCompletesView(w, t, stack[..|stack| - 1], stack[|stack| - 1], msg, id, a);
    }
  }

  // A line in which the message with context ctx has been emitted.
  predicate MidTurn(l: Line, ctx: Context) {
    && l.run.world.IsThread(l.thread) && ctx.thread == l.thread
    && forall a <- l.team :: a != USER ==>
         l.Local(a) == Emitted(l.run.world, l.thread, l.Stack(), ctx, a)
  }

  function Handed(l: Line, to: AgentId, msg: Message, id: int): Line
    requires to != USER ==> ReceiveOk(l.Local(to), msg)
  {
    if to == USER then l else l.(locals := l.locals[to := Received(l.Local(to), msg, id)])
  }

  lemma NewStackIs(w: World, id: Int64, tags: set<string>, ctx: Context)
    requires Applicable(w, ctx)
    ensures var w' := ApplyMessage(w, id, tags, ctx);
            w'.IsThread(ctx.thread) && w'.threads[ctx.thread].stack == StackAfter(w, id, ctx)
  {
  }

  lemma {:induction false} HandoverMatches(l: Line, ctx: Context, msg: Message, id: Int64, tags: set<string>, l': Line)
    requires Sound(l.run.world) && MidTurn(l, ctx)
    requires Faithful(l.run.world, ctx) && Applicable(l.run.world, ctx)
    requires ShowsContext(l.run.world, ctx, msg) && (ctx.action == CALL || ctx.action == RETURN)
    requires Recipient(l.run.world, ctx) != USER ==> ReceiveOk(l.Local(Recipient(l.run.world, ctx)), msg)
    requires l'.run.world == ApplyMessage(l.run.world, id, tags, ctx) && Sound(l'.run.world)
    requires l'.thread == l.thread && l'.team == l.team
    requires l'.locals == Handed(l, Recipient(l.run.world, ctx), msg, id).locals
    ensures ViewsMatch(l')
  {
    hide Sound, Applicable, ApplyMessage, Recipient, Emitted, Received, ReceiveOk, ShowsContext, View;
    var w, w', t := l.run.world, l'.run.world, l.thread;
    ApplyHasSameShape(w, id, tags, ctx);
    SoundStack(w', t);
    NewStackIs(w, id, tags, ctx);
    forall a | a in l.team && a != USER
      ensures l'.Local(a) == View(w', t, l'.Stack(), a)
    {
      hide Sound, Applicable, ApplyMessage, Recipient, Emitted, Received, ReceiveOk, ShowsContext, StackAfter, View;
      DeliveryCompletesView(w, t, ctx, msg, id, a);
      ViewDependsOnNames(w', w, t, l'.Stack(), a);
      assert l.Local(a) == Emitted(w, t, w.threads[t].stack, ctx, a);
    }
  }

  // The record goes from one who takes part to another, and so does every frame left.
  lemma HandoverStaysHere(l: Line, ctx: Context, id: Int64)
    requires Applicable(l.run.world, ctx) && ctx.thread == l.thread && (ctx.action == CALL || ctx.action == RETURN)
    requires IdsIssued(l.Stack()) && AmongTeam(l, l.Stack()) && Issued(id)
    requires l.Here(ctx.from.agent) && (ctx.action == CALL ==> l.Here(ctx.to.value.agent))
    ensures l.Here(Recipient(l.run.world, ctx))
    ensures IdsIssued(StackAfter(l.run.world, id, ctx)) && AmongTeam(l, StackAfter(l.run.world, id, ctx))
  {
  }

  lemma {:induction false} HandoverKeepsCoupling(l: Line, ctx: Context, msg: Message, id: Int64, tags: set<string>,
      r': Run)
    requires Orderly(l.run) && l.run.world.IsThread(l.thread) && ctx.thread == l.thread && MidTurn(l, ctx)
    requires Issued(id) && IdsIssued(l.Stack()) && AmongTeam(l, l.Stack())
    requires l.Here(ctx.from.agent) && (ctx.action == CALL ==> ctx.to.Some? && l.Here(ctx.to.value.agent))
    requires Faithful(l.run.world, ctx) && Applicable(l.run.world, ctx)
    requires ShowsContext(l.run.world, ctx, msg) && (ctx.action == CALL || ctx.action == RETURN)
    requires Orderly(r') && r'.world == ApplyMessage(l.run.world, id, tags, ctx)
    ensures var to := Recipient(l.run.world, ctx);
            && (to != USER ==> ReceiveOk(l.Local(to), msg))
            && Coupled(Handed(l, to, msg, id).(run := r'))
  {
    hide *;
    var to := Recipient(l.run.world, ctx);
    OrderlyRun(l.run);
    OrderlyRun(r');
    HandoverStaysHere(l, ctx, id);
    EmittedIsReceivable(l, ctx, msg, id);
    NewStackIs(l.run.world, id, tags, ctx);
    HandedLater(l, r', to, msg, id);
    var l' := Handed(l, to, msg, id).(run := r');
    HandoverMatches(l, ctx, msg, id, tags, l');
    StackIs(l');
    AmongSameTeam(l, l', l'.Stack());
    IsCoupled(l');
  }

  lemma HandedLater(l: Line, r': Run, to: AgentId, msg: Message, id: int)
    requires to != USER ==> ReceiveOk(l.Local(to), msg)
    ensures to != USER ==> ReceiveOk(l.(run := r').Local(to), msg)
    ensures var l' := Handed(l, to, msg, id).(run := r');
            l' == Handed(l.(run := r'), to, msg, id) && l' == l.(run := r', locals := l'.locals)
  {
    hide ReceiveOk, Received;
  }

  lemma StackIs(l: Line)
    requires l.run.world.IsThread(l.thread)
    ensures l.Stack() == l.run.world.threads[l.thread].stack
  {
  }

  lemma IsCoupled(l: Line)
    requires Orderly(l.run) && l.run.world.IsThread(l.thread)
    requires IdsIssued(l.Stack()) && AmongTeam(l, l.Stack()) && ViewsMatch(l)
    ensures Coupled(l)
  {
    hide Orderly, IdsIssued, AmongTeam, ViewsMatch;
  }

  // The recipient's CHECKs pass.
  lemma EmittedIsReceivable(l: Line, ctx: Context, msg: Message, id: Int64)
    requires MidTurn(l, ctx) && Faithful(l.run.world, ctx) && Applicable(l.run.world, ctx)
    requires ShowsContext(l.run.world, ctx, msg) && (ctx.action == CALL || ctx.action == RETURN)
    requires l.Here(Recipient(l.run.world, ctx))
    ensures Recipient(l.run.world, ctx) != USER ==> ReceiveOk(l.Local(Recipient(l.run.world, ctx)), msg)
  {
    hide Applicable, ShowsContext, Emitted, ReceiveOk, View, Recipient;
    DeliveryCompletesView(l.run.world, l.thread, ctx, msg, id, Recipient(l.run.world, ctx));
  }

  lemma FaithfulFrom(w: World, ctx: Context)
    requires Faithful(w, ctx)
    ensures w.IsThread(ctx.thread) && w.IsDomain(w.threads[ctx.thread].root) && ctx.from == w.Expected(ctx.thread)
  {
  }

  lemma AmongSameTeam(l: Line, l': Line, stack: seq<Frame>)
    requires AmongTeam(l, stack) && l'.team == l.team
    ensures AmongTeam(l', stack)
  {
  }

  // ----- one response

  // What the service emits for a routed response, and its stack afterwards.
  function Routed(l: Line, a: AgentId, msg: Message): Message
    requires RespondOk(l.Local(a), [msg])
  {
    StampRouted(msg, l.Local(a)[|l.Local(a)| - 1])
  }

  function Committed(l: Line, a: AgentId, msg: Message): Line
    requires RespondOk(l.Local(a), [msg])
  {
    l.(locals := l.locals[a := Responded(l.Local(a), [msg])])
  }

  lemma PlainResolves(w: World, t: ThreadId, address: string)
    requires Sound(w) && w.IsThread(t) && Readable(w, t) && Plain(w, t, address)
    ensures var route := RouteCall(w, t, address);
            && route.ops == [] && route.context.action == CALL && route.context.to.Some?
            && NameOf(w, route.context.to.value.agent) == address
            && route.context.to.value.agent == Resolve(w, address, w.Expected(t).domain).target.agent
            && route.context.from == w.Expected(t) && route.context.thread == t
  {
    ExpectedInScope(w, t);
    LookupInScope(w, address, w.Expected(t).domain);
  }

  // Whom the response is for decides how it is routed: to the caller it is a RETURN, to anyone else a CALL.
  predicate RoutedAsSaid(l: Line, a: AgentId, msg: Message, route: Route) {
    var to := if msg.to.None? then Peer(l) else msg.to.value;
    && route.ops == [] && route.context.thread == l.thread && route.context.from.agent == a
    && (if to == Peer(l) then route.context.action == RETURN && route.context.to == None
        else
          && route.context.action == CALL && route.context.to.Some? && l.Here(route.context.to.value.agent)
          && NameOf(l.run.world, route.context.to.value.agent) == to)
  }

  lemma {:induction false} ResponseIsRouted(l: Line, a: AgentId, msg: Message)
    requires Coupled(l) && a != USER && l.run.world.IsDomain(l.run.world.threads[l.thread].root)
    requires l.run.world.Expected(l.thread).agent == a
    requires Readable(l.run.world, l.thread) && HandlerOk(l, a, msg)
    ensures RespondOk(l.Local(a), [msg])
    ensures RoutedAsSaid(l, a, msg, Classify(l.run.world, a, Routed(l, a, msg)))
  {
    hide Sound, Orderly, ViewsMatch, AmongTeam, IdsIssued, Plain, RouteCall, Resolve, View, NameOf;
    var w, t := l.run.world, l.thread;
    OrderlyRun(l.run);
    TurnSeesItsCall(l);
    SoundStack(w, t);
    LastIdIsIssued(l.Stack());
    var e := l.Local(a)[|l.Local(a)| - 1];
    var routed := Routed(l, a, msg);
    if routed.To() != e.peer {
      PlainResolves(w, t, routed.To());
    }
  }

  lemma LastIdIsIssued(stack: seq<Frame>)
    requires IdsIssued(stack) && stack != []
    ensures Issued(stack[|stack| - 1].messageId)
  {
  }

  lemma ViewAboveCaller(w: World, t: ThreadId, stack: seq<Frame>, a: AgentId)
    requires stack != []
    ensures var below, f := stack[..|stack| - 1], stack[|stack| - 1];
            var view := View(w, t, stack, a);
            if a == f.to.agent then view != [] && view[..|view| - 1] == Caller(w, t, below, f, a)
            else view == Caller(w, t, below, f, a)
  {
  }

  lemma RespondedIs(l: Line, a: AgentId, msg: Message, ctx: Context)
    requires RespondOk(l.Local(a), [msg]) && l.Local(a)[|l.Local(a)| - 1].peer == Peer(l)
    requires RoutedAsSaid(l, a, msg, Route([], ctx))
    ensures var local := l.Local(a);
            Responded(local, [msg]) ==
            if ctx.action == RETURN then local[..|local| - 1]
            else local + [Outgoing(NameOf(l.run.world, ctx.to.value.agent))]
  {
  }

  lemma CommittedLocal(l: Line, a: AgentId, msg: Message, b: AgentId)
    requires RespondOk(l.Local(a), [msg])
    ensures Committed(l, a, msg).Local(b) == if b == a then Responded(l.Local(a), [msg]) else l.Local(b)
  {
    hide Responded, RespondOk;
  }

  // The speaker drops the call it answers, or notes the call it makes; nobody else changes.
  lemma EmittedView(w: World, t: ThreadId, stack: seq<Frame>, ctx: Context, a: AgentId, b: AgentId)
    requires stack != [] && stack[|stack| - 1].to.agent == a && ctx.from.agent == a
    requires ctx.action == RETURN || (ctx.action == CALL && ctx.to.Some?)
    ensures var view := View(w, t, stack, b);
            Emitted(w, t, stack, ctx, b) ==
            if b != a then view
            else if ctx.action == CALL then view + [Outgoing(NameOf(w, ctx.to.value.agent))]
            else if view == [] then view else view[..|view| - 1]
    ensures b == a ==> View(w, t, stack, b) != []
  {
    hide View, NameOf;
    ViewAboveCaller(w, t, stack, b);
    assert View(w, t, stack, b) + [] == View(w, t, stack, b);
  }

  lemma EmittedIs(l: Line, a: AgentId, msg: Message, ctx: Context, b: AgentId)
    requires ViewsMatch(l) && l.run.world.IsThread(l.thread) && b in l.team && b != USER && RespondOk(l.Local(a), [msg])
    requires l.Stack() != [] && l.Stack()[|l.Stack()| - 1].to.agent == a
    requires l.Local(a)[|l.Local(a)| - 1].peer == Peer(l) && RoutedAsSaid(l, a, msg, Route([], ctx))
    ensures Committed(l, a, msg).Local(b) == Emitted(l.run.world, l.thread, l.Stack(), ctx, b)
  {
    hide View, Emitted, Responded, RespondOk, ViewsMatch, Peer, NameOf, Committed;
    RespondedIs(l, a, msg, ctx);
    ViewMatches(l, b);
    CommittedLocal(l, a, msg, b);
    EmittedView(l.run.world, l.thread, l.Stack(), ctx, a, b);
  }

  // After emitting, every stack is where delivery expects it.
  lemma {:induction false} ResponseIsMidTurn(l: Line, a: AgentId, msg: Message, ctx: Context)
    requires ViewsMatch(l) && l.run.world.IsThread(l.thread) && a != USER && l.run.world.IsAgent(a)
             && RespondOk(l.Local(a), [msg])
    requires l.Stack() != [] && l.Stack()[|l.Stack()| - 1].to.agent == a
    requires l.Local(a)[|l.Local(a)| - 1].peer == Peer(l)
    requires RoutedAsSaid(l, a, msg, Route([], ctx))
    ensures MidTurn(Committed(l, a, msg), ctx)
  {
    hide View, Responded, RespondOk, ViewsMatch, Emitted, Peer;
    forall b | b in l.team && b != USER
      ensures Committed(l, a, msg).Local(b) == Emitted(l.run.world, l.thread, l.Stack(), ctx, b)
    {
      EmittedIs(l, a, msg, ctx, b);
    }
  }

  lemma ViewMatches(l: Line, a: AgentId)
    requires ViewsMatch(l) && a in l.team && a != USER
    ensures l.Local(a) == View(l.run.world, l.thread, l.Stack(), a)
  {
  }
}
