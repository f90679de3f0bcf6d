// Whole conversations on one thread, whatever is said on the others meanwhile: whatever the user says and the handlers
// answer, no CHECK of a service or of the runtime fails, every response is routed as a call or a return, and the stacks
// stay coupled.
module Conversation {
  import opened Common
  import opened AccessIds
  import opened World
  import opened Transition
  import opened Routing
  import opened Soundness
  import opened Preservation
  import opened Preprocess
  import opened Runs
  import opened Turns
  import opened Service
  import opened Coupling
  import Growth

  datatype Act =
    | UserSays(message: Message, id: Int64)
    | Record(message: Message, id: Int64)       // a data record of the service whose turn it is
    | Respond(message: Message, id: Int64)      // its routed response
    | Grow(op: Op)                              // structural commits, such as those of the runtime's handler
    | Elsewhere(from: AgentId, message: Message, id: Int64)   // a message routed on another thread

  // The acts on the thread itself.
  predicate IsHere(act: Act) {
    act.UserSays? || act.Record? || act.Respond?
  }

  predicate Started(l: Line) {
    l.run.world.IsThread(l.thread) && Readable(l.run.world, l.thread)
  }

  function Turn(l: Line): AgentId
    requires Started(l)
  {
    l.run.world.Expected(l.thread).agent
  }

  // Who may act on other threads without this one's services noticing: everybody but the team, and of the team the
  // runtime agent, which answers a delivery before it takes the next.
  predicate Outside(l: Line, a: AgentId) {
    a !in l.team || a == USER || a == RUNTIME
  }

  // Who receives what is said, once the operations it asks for are committed.
  function Addressee(w: World, from: AgentId, msg: Message): AgentId
    requires w.IsThread(msg.threadId) && Readable(w, msg.threadId)
  {
    var route := Classify(w, from, msg);
    if CommitAllOk(w, route.ops) && Applicable(CommitAll(w, route.ops), route.context)
    then Recipient(CommitAll(w, route.ops), route.context) else from
  }

  // Anything sayable by whoever holds the turn on another thread, between agents that do not serve this one.
  predicate ElsewhereOk(l: Line, from: AgentId, msg: Message, id: Int64) {
    && l.run.world.IsThread(msg.threadId) && Readable(l.run.world, msg.threadId) && msg.threadId != l.thread
    && l.run.world.Expected(msg.threadId).agent == from
    && Sayable(l.run, from, msg, id) && OnlyAnswers(l.run, from, msg)
    && Outside(l, from) && Outside(l, Addressee(l.run.world, from, msg))
  }

  // What participants are assumed to respect.
  predicate Allowed(l: Line, act: Act)
    requires Started(l)
  {
    match act
    case UserSays(msg, id) => Turn(l) == USER && UserOk(l, msg, id)
    case Record(msg, id) =>
      && Turn(l) != USER && Issued(id) && l.run.next <= id && msg.isData
      && msg.to.None? && msg.inReplyTo.None? && msg.inResponseTo.None? && msg.from == "" && msg.threadId == NO_ACCESS_ID
    case Respond(msg, id) =>
      Turn(l) != USER && Issued(id) && l.run.next <= id && HandlerOk(l, Turn(l), msg)
    case Grow(op) => Enabled(l.run, Commits(op))
    case Elsewhere(from, msg, id) => ElsewhereOk(l, from, msg, id)
  }

  // The CHECKs of the service on its own stack and its handler's responses.
  predicate ServicePasses(l: Line, act: Act)
    requires Started(l)
  {
    var local := l.Local(Turn(l));
    match act
    case Record(msg, _) => local != [] && local[|local| - 1].Incoming? && DataOk(msg, local[|local| - 1])
    case Respond(msg, _) => RespondOk(local, [msg])
    case _ => true
  }

  function Emission(l: Line, act: Act): Message
    requires Started(l) && IsHere(act) && ServicePasses(l, act)
  {
    var local := l.Local(Turn(l));
    match act
    case Record(msg, _) => StampData(msg, local[|local| - 1])
    case Respond(msg, _) => Routed(l, Turn(l), msg)
    case _ => act.message
  }

  function Emitting(l: Line, act: Act): Line
    requires Started(l) && ServicePasses(l, act)
  {
    if act.Respond? then Committed(l, Turn(l), act.message) else l
  }

  function ContextOf(l: Line, act: Act): Context
    requires Started(l) && IsHere(act) && ServicePasses(l, act) && Emission(l, act).threadId == l.thread
  {
    Classify(l.run.world, Turn(l), Emission(l, act)).context
  }

  // Nothing fails: the service's CHECKs, the runtime's, and the recipient's; and a response is a CALL or a RETURN.
  predicate Passes(l: Line, act: Act)
    requires Started(l)
  {
    act.Grow? || (act.Elsewhere? && Enabled(l.run, Sends(act.from, act.message, act.id))) ||
    (&& IsHere(act) && ServicePasses(l, act) && Emission(l, act).threadId == l.thread
     && Enabled(l.run, Sends(Turn(l), Emission(l, act), act.id))
     && Applicable(l.run.world, ContextOf(l, act))
     && (act.Respond? ==> ContextOf(l, act).action == CALL || ContextOf(l, act).action == RETURN)
     && (ContextOf(l, act).action == CALL || ContextOf(l, act).action == RETURN ==>
           Recipient(l.run.world, ContextOf(l, act)) != USER ==>
             ReceiveOk(Emitting(l, act).Local(Recipient(l.run.world, ContextOf(l, act))),
                       StampedMessage(l.run.world, Turn(l), Emission(l, act)))))
  }

  function Next(l: Line, act: Act): Line
    requires Started(l) && Allowed(l, act) && Passes(l, act)
  {
    if act.Grow? then l.(run := Step(l.run, Commits(act.op)))
    else if act.Elsewhere? then l.(run := Step(l.run, Sends(act.from, act.message, act.id)))
    else
      var ctx := ContextOf(l, act);
      var msg := Emission(l, act);
      var l' := Emitting(l, act).(run := Step(l.run, Sends(Turn(l), msg, act.id)));
      if ctx.action == CALL || ctx.action == RETURN then
        Handed(l', Recipient(l.run.world, ctx), StampedMessage(l.run.world, Turn(l), msg), act.id)
      else l'
  }

  // ----- one act

  lemma CoupledIsStarted(l: Line)
    requires Coupled(l)
    ensures Started(l) && Sound(l.run.world)
  {
    OrderlyRun(l.run);
    SoundStack(l.run.world, l.thread);
  }

  // A record that leaves the call stack alone leaves every view alone.
  lemma {:induction false} QuietKeepsCoupling(l: Line, l': Line)
    requires Coupled(l) && Orderly(l'.run) && l' == l.(run := l'.run)
    requires l'.run.world.IsThread(l.thread) && l'.Stack() == l.Stack() && |l.run.world.agents| <= |l'.run.world.agents|
    requires forall b :: 0 <= b < |l.run.world.agents| ==>
               l'.run.world.agents[b].params.name == l.run.world.agents[b].params.name
    ensures Coupled(l')
  {
    hide Orderly, Sound, View, IdsIssued, Readable;
    var w, w' := l.run.world, l'.run.world;
    OrderlyRun(l.run);
    SoundStack(w, l.thread);
    AmongSameTeam(l, l', l.Stack());
    forall a | a in l.team && a != USER
      ensures l'.Local(a) == View(w', l.thread, l'.Stack(), a)
    {
      ViewDependsOnNames(w, w', l.thread, l.Stack(), a);
      ViewMatches(l, a);
    }
  }

  // Routing one message that calls or returns, from the moment it has been emitted to its delivery.
  lemma {:induction false} RoutedActKeepsCoupling(l: Line, mid: Line, msg: Message, id: Int64, r': Run)
    requires Coupled(l) && Started(l) && mid == l.(locals := mid.locals) && msg.threadId == l.thread
    requires Sayable(l.run, Turn(l), msg, id) && OnlyAnswers(l.run, Turn(l), msg)
    requires Enabled(l.run, Sends(Turn(l), msg, id)) && r' == Step(l.run, Sends(Turn(l), msg, id))
    requires Classify(l.run.world, Turn(l), msg).ops == []
    requires var ctx := Classify(l.run.world, Turn(l), msg).context;
             && (ctx.action == CALL || ctx.action == RETURN) && MidTurn(mid, ctx)
             && (ctx.action == CALL ==> ctx.to.Some? && l.Here(ctx.to.value.agent))
             && ShowsContext(l.run.world, ctx, StampedMessage(l.run.world, Turn(l), msg))
    ensures var ctx := Classify(l.run.world, Turn(l), msg).context;
            var shown := StampedMessage(l.run.world, Turn(l), msg);
            && Applicable(l.run.world, ctx)
            && (Recipient(l.run.world, ctx) != USER ==> ReceiveOk(mid.Local(Recipient(l.run.world, ctx)), shown))
            && Coupled(Handed(mid.(run := r'), Recipient(l.run.world, ctx), shown, id))
  {
    hide Orderly, Enabled, Sayable, MidTurn, ShowsContext, ViewsMatch;
    hide Step, Sound, ApplyMessage, Applicable, OnlyAnswers;
    var w := l.run.world;
    var ctx := Classify(w, Turn(l), msg).context;
    SendsIs(l.run, Turn(l), msg, id);
    PreparedIsOrderly(l.run, Turn(l), msg);
    ClassifyThread(w, Turn(l), msg);
    assert CommitAll(w, []) == w;
    SpeakingKeepsOrderly(l.run, Turn(l), msg, id, r');
    EnabledIsIssued(l.run, Turn(l), msg, id);
    TurnIsHere(l);
    AmongSameTeam(l, mid, l.Stack());
    ClassifySpeaks(w, Turn(l), msg);
    hide Classify, StampedMessage, Recipient;
    HandoverKeepsCoupling(mid, ctx, StampedMessage(w, Turn(l), msg), id, StampedTags(w, Turn(l), msg), r');
    HandedLater(mid, r', Recipient(w, ctx), StampedMessage(w, Turn(l), msg), id);
  }

  lemma EnabledIsIssued(r: Run, from: AgentId, msg: Message, id: Int64)
    requires Enabled(r, Sends(from, msg, id))
    ensures Issued(id)
  {
  }

  lemma ClassifyThread(w: World, from: AgentId, msg: Message)
    requires w.IsThread(msg.threadId) && Readable(w, msg.threadId)
    ensures Classify(w, from, msg).context.thread == msg.threadId
  {
    ClassifyCases(w, from, msg);
    RouteCallContext(w, msg.threadId, msg.To());
  }

  // Routing a message that leaves the stack alone: a data record, or a failed message of the user.
  lemma {:induction false} QuietActKeepsCoupling(l: Line, msg: Message, id: Int64, r': Run)
    requires Coupled(l) && Started(l) && msg.threadId == l.thread
    requires Enabled(l.run, Sends(Turn(l), msg, id)) && r' == Step(l.run, Sends(Turn(l), msg, id))
    requires Sayable(l.run, Turn(l), msg, id) && OnlyAnswers(l.run, Turn(l), msg)
    requires var route := Classify(l.run.world, Turn(l), msg);
             route.ops == [] && (route.context.action == DATA || (route.context.action == REWIND && Turn(l) == USER))
    ensures Coupled(l.(run := r'))
  {
    hide Orderly, Enabled, Sayable, ViewsMatch, Step, Sound, OnlyAnswers, StampedTags;
    var w := l.run.world;
    var ctx := Classify(w, Turn(l), msg).context;
    SendsIs(l.run, Turn(l), msg, id);
    PreparedIsOrderly(l.run, Turn(l), msg);
    ClassifyThread(w, Turn(l), msg);
    SpeakingKeepsOrderly(l.run, Turn(l), msg, id, r');
    assert CommitAll(w, []) == w;
    var tags := StampedTags(w, Turn(l), msg);
    assert ctx.from.agent == Turn(l) by { hide *; ClassifySpeaks(w, Turn(l), msg); }
    CoupledIsStarted(l);
    assert Ids(w) by { OrderlyRun(l.run); SoundIds(w); }
    assert r'.world.threads[l.thread].stack == w.threads[l.thread].stack by {
      var stack := w.threads[l.thread].stack;
      assert stack[..|stack|] == stack;
    }
    ApplyHasSameShape(w, id, tags, ctx);
    hide Classify, ApplyMessage, Applicable;
    QuietKeepsCoupling(l, l.(run := r'));
  }

  lemma SoundIds(w: World)
    requires Sound(w)
    ensures Ids(w)
  {
  }

  lemma ClassifySpeaks(w: World, from: AgentId, msg: Message)
    requires w.IsThread(msg.threadId) && Readable(w, msg.threadId) && w.Expected(msg.threadId).agent == from
    ensures Classify(w, from, msg).context.from.agent == from
  {
    ClassifyCases(w, from, msg);
    RouteCallContext(w, msg.threadId, msg.To());
  }

  // ----- each act

  lemma {:induction false} RespondingKeepsCoupling(l: Line, msg: Message, id: Int64)
    requires Coupled(l) && Started(l) && Allowed(l, Respond(msg, id))
    ensures Passes(l, Respond(msg, id)) && Coupled(Next(l, Respond(msg, id)))
  {
    hide Orderly, Enabled, Step, Sound, ApplyMessage, Applicable, ViewsMatch, MidTurn, StampRouted, View, Plain;
    CoupledIsStarted(l);
    var w, a, t := l.run.world, Turn(l), l.thread;
    SoundStack(w, t);
    ExpectedIsAgent(w, t);
    TurnSeesItsCall(l);
    ResponseIsRouted(l, a, msg);
    var routed := Routed(l, a, msg);
    RoutedFields(l, a, msg);
    var ctx := Classify(w, a, routed).context;
    ResponseIsMidTurn(l, a, msg, ctx);
    hide Classify, HandlerOk;
    assert Sayable(l.run, a, routed, id) && OnlyAnswers(l.run, a, routed)
           && ShowsContext(w, ctx, StampedMessage(w, a, routed)) by {
      RoutedIsSayable(l, a, msg, id);
    }
    HolderIsEnabled(l.run, routed, id);
    RoutedActKeepsCoupling(l, Committed(l, a, msg), routed, id, Step(l.run, Sends(a, routed, id)));
  }

  lemma RoutedFields(l: Line, a: AgentId, msg: Message)
    requires RespondOk(l.Local(a), [msg])
    ensures Routed(l, a, msg).threadId == l.Local(a)[|l.Local(a)| - 1].threadId
    ensures Routed(l, a, msg).from == l.Local(a)[|l.Local(a)| - 1].myAddress
    ensures Routed(l, a, msg).tags == msg.tags && !Routed(l, a, msg).isData
            && Routed(l, a, msg).onBehalfOf == msg.onBehalfOf
    ensures Routed(l, a, msg).To() == if msg.to.None? then l.Local(a)[|l.Local(a)| - 1].peer else msg.to.value
    ensures msg.inReplyTo.None? ==>
              (Routed(l, a, msg).inReplyTo.Some? <==> Routed(l, a, msg).To() == l.Local(a)[|l.Local(a)| - 1].peer)
  {
  }

  lemma RoutedIsSayable(l: Line, a: AgentId, msg: Message, id: Int64)
    requires Coupled(l) && Started(l) && a == Turn(l) && a != USER && Issued(id) && l.run.next <= id
    requires HandlerOk(l, a, msg) && RespondOk(l.Local(a), [msg])
    requires l.Local(a)[|l.Local(a)| - 1] ==
             Incoming(l.thread, NameOf(l.run.world, a), Peer(l), l.Local(a)[|l.Local(a)| - 1].messageId)
    requires RoutedAsSaid(l, a, msg, Classify(l.run.world, a, Routed(l, a, msg)))
    ensures var routed := Routed(l, a, msg);
            var w := l.run.world;
            && routed.threadId == l.thread && Sayable(l.run, a, routed, id) && OnlyAnswers(l.run, a, routed)
            && ShowsContext(w, Classify(w, a, routed).context, StampedMessage(w, a, routed))
  {
    hide Coupled, Routed, Classify, MessageCanCommit;
    RoutedFields(l, a, msg);
    MessageCommitsExactly(l.run.world, a, Routed(l, a, msg));
  }

  lemma {:induction false} RecordingKeepsCoupling(l: Line, msg: Message, id: Int64)
    requires Coupled(l) && Started(l) && Allowed(l, Record(msg, id))
    ensures Passes(l, Record(msg, id)) && Coupled(Next(l, Record(msg, id)))
  {
    hide Orderly, Enabled, Step, Sound, ApplyMessage, Applicable, ViewsMatch, View;
    CoupledIsStarted(l);
    SoundStack(l.run.world, l.thread);
    TurnSeesItsCall(l);
    var data := Emission(l, Record(msg, id));
    assert Sayable(l.run, Turn(l), data, id);
    HolderIsEnabled(l.run, data, id);
    FaithfulIsApplicable(l.run.world, ContextOf(l, Record(msg, id)));
    QuietActKeepsCoupling(l, data, id, Step(l.run, Sends(Turn(l), data, id)));
  }

  // The user's message calls, answers, records or fails; a failure comes straight back, since the user catches.
  lemma {:induction false} UserKeepsCoupling(l: Line, msg: Message, id: Int64)
    requires Coupled(l) && Started(l) && Allowed(l, UserSays(msg, id))
    ensures Passes(l, UserSays(msg, id)) && Coupled(Next(l, UserSays(msg, id)))
  {
    hide Orderly, Enabled, Step, Sound, ApplyMessage, Applicable, ViewsMatch, MidTurn, View, RouteCall, ShowsContext;
    CoupledIsStarted(l);
    var w, t := l.run.world, l.thread;
    SoundStack(w, t);
    var ctx := Classify(w, USER, msg).context;
    HolderIsEnabled(l.run, msg, id);
    UserRoute(l, msg, id);
    hide Classify, UserOk, Sayable;
    if ctx.action == CALL || ctx.action == RETURN {
      UserIsMidTurn(l, ctx);
      RoutedActKeepsCoupling(l, l, msg, id, Step(l.run, Sends(USER, msg, id)));
    } else {
      FaithfulIsApplicable(w, ctx);
      QuietActKeepsCoupling(l, msg, id, Step(l.run, Sends(USER, msg, id)));
    }
  }

  lemma {:induction false} UserRoute(l: Line, msg: Message, id: Int64)
    requires Coupled(l) && Started(l) && Turn(l) == USER && UserOk(l, msg, id)
    ensures var w := l.run.world;
            var route := Classify(w, USER, msg);
            && Sayable(l.run, USER, msg, id) && msg.threadId == l.thread
            && Sound(w) && Faithful(w, route.context) && (route.context.action == CALL || route.context.action == RETURN
                 || route.context.action == DATA || route.context.action == REWIND)
            && route.ops == [] && route.context.thread == l.thread && route.context.from.agent == USER
            && (route.context.action == CALL ==> route.context.to.Some? && l.Here(route.context.to.value.agent))
            && (route.context.action == CALL || route.context.action == RETURN ==>
                  ShowsContext(w, route.context, StampedMessage(w, USER, msg)))
  {
    hide Orderly, ViewsMatch;
    CoupledIsStarted(l);
    var w := l.run.world;
    var route := Classify(w, USER, msg);
    ClassifyCases(w, USER, msg);
    ClassifySpeaks(w, USER, msg);
    RouteCallContext(w, l.thread, msg.To());
    hide Sound, RouteCall;
    if route.context.action == CALL {
      PlainResolves(w, l.thread, msg.To());
    } else if route == RouteCall(w, l.thread, msg.To()) {
      FailedCallHasNoOps(w, l.thread, msg.To());
    }
    assert CommitAll(w, []) == w;
    ClassifyIsFaithful(w, USER, msg, w);
  }

  lemma FailedCallHasNoOps(w: World, t: ThreadId, address: string)
    requires Readable(w, t) && RouteCall(w, t, address).context.action != CALL
    ensures RouteCall(w, t, address).ops == []
  {
  }

  lemma {:induction false} UserIsMidTurn(l: Line, ctx: Context)
    requires Coupled(l) && Started(l) && ctx.thread == l.thread && ctx.from.agent == USER && Faithful(l.run.world, ctx)
    requires ctx.action == CALL || ctx.action == RETURN
    ensures MidTurn(l, ctx)
  {
    var w, t, stack := l.run.world, l.thread, l.Stack();
    forall a | a in l.team && a != USER
      ensures l.Local(a) == Emitted(w, t, stack, ctx, a)
    {
      ViewMatches(l, a);
      hide View, Coupled;
      if ctx.action == RETURN {
        ViewAboveCaller(w, t, stack, a);
      }
    }
  }

  lemma {:induction false} GrowingKeepsCoupling(l: Line, op: Op)
    requires Coupled(l) && Started(l) && Allowed(l, Grow(op))
    ensures Passes(l, Grow(op)) && Coupled(Next(l, Grow(op)))
  {
    hide Sound, ViewsMatch, CommitOp;
    CoupledIsStarted(l);
    var w := l.run.world;
    CommitKeepsOrderly(l.run, op);
    Growth.CommitKeepsSound(w, op);
    var w' := CommitOp(w, op);
    TurnUnaffected(w, w', l.thread);
    assert forall b :: 0 <= b < |w.agents| ==> w'.agents[b] == w'.agents[..|w.agents|][b];
    QuietKeepsCoupling(l, Next(l, Grow(op)));
  }

  // A message on another thread leaves this thread's stack and everybody's name alone.
  lemma {:induction false} ElsewhereKeepsCoupling(l: Line, from: AgentId, msg: Message, id: Int64)
    requires Coupled(l) && Started(l) && Allowed(l, Elsewhere(from, msg, id))
    ensures Passes(l, Elsewhere(from, msg, id)) && Coupled(Next(l, Elsewhere(from, msg, id)))
  {
    hide Coupled, Outside, Sayable, OnlyAnswers, Enabled, Step;
    hide Orderly, Classify, Addressee, Readable, Applicable, ApplyMessage;
    hide Sound, Faithful, CommitAll, CommitAllOk, StampedTags;
    CoupledIsOrderly(l);
    HolderIsEnabled(l.run, msg, id);
    var r' := Step(l.run, Sends(from, msg, id));
    SpeakingKeepsOrderly(l.run, from, msg, id, r');
    SendsIs(l.run, from, msg, id);
    OrderlyRun(l.run);
    var p := Prepared(l.run, from, msg).world;
    ClassifyIsFaithful(l.run.world, from, msg, p);
    ClassifyThread(l.run.world, from, msg);
    OtherThreadStays(l.run.world, p, id, StampedTags(l.run.world, from, msg),
        Classify(l.run.world, from, msg).context, l.thread);
    QuietKeepsCoupling(l, l.(run := r'));
  }

  lemma CoupledIsOrderly(l: Line)
    requires Coupled(l)
    ensures Orderly(l.run) && l.run.world.IsThread(l.thread)
  {
  }

  lemma OtherThreadStays(w: World, p: World, id: Int64, tags: set<string>, ctx: Context, t: ThreadId)
    requires Growth.Extends(w, p) && Applicable(p, ctx) && w.IsThread(t) && t != ctx.thread
    ensures var w' := ApplyMessage(p, id, tags, ctx);
            && w'.IsThread(t) && w'.threads[t].stack == w.threads[t].stack && |w.agents| <= |w'.agents|
            && forall b :: 0 <= b < |w.agents| ==> w'.agents[b].params.name == w.agents[b].params.name
  {
    ApplyHasSameShape(p, id, tags, ctx);
    assert p.threads[t] == p.threads[..|w.threads|][t];
    assert forall b :: 0 <= b < |w.agents| ==> p.agents[b] == p.agents[..|w.agents|][b];
  }

  // ----- whole conversations

  lemma {:induction false} ActKeepsCoupling(l: Line, act: Act)
    requires Coupled(l) && Started(l) && Allowed(l, act)
    ensures Passes(l, act) && Coupled(Next(l, act)) && Started(Next(l, act))
  {
    hide Coupled, Allowed, Passes, Next;
    match act {
      case UserSays(msg, id) => UserKeepsCoupling(l, msg, id);
      case Record(msg, id) => RecordingKeepsCoupling(l, msg, id);
      case Respond(msg, id) => RespondingKeepsCoupling(l, msg, id);
      case Grow(op) => GrowingKeepsCoupling(l, op);
      case Elsewhere(from, msg, id) => ElsewhereKeepsCoupling(l, from, msg, id);
    }
    CoupledIsStarted(Next(l, act));
  }

  ghost predicate AllAllowed(l: Line, acts: seq<Act>)
    decreases |acts|
  {
    acts == [] ||
    (Started(l) && Allowed(l, acts[0]) && (Passes(l, acts[0]) ==> AllAllowed(Next(l, acts[0]), acts[1..])))
  }

  ghost predicate NothingFails(l: Line, acts: seq<Act>)
    requires AllAllowed(l, acts)
    decreases |acts|
  {
    acts == [] || (Passes(l, acts[0]) && NothingFails(Next(l, acts[0]), acts[1..]))
  }

  ghost function After(l: Line, acts: seq<Act>): Line
    requires AllAllowed(l, acts) && NothingFails(l, acts)
    decreases |acts|
  {
    if acts == [] then l else After(Next(l, acts[0]), acts[1..])
  }

  // Local stacks refine the global stack over every conversation.
  lemma {:induction false} LocalStacksRefineGlobal(l: Line, acts: seq<Act>)
    requires Coupled(l) && AllAllowed(l, acts)
    ensures NothingFails(l, acts) && Coupled(After(l, acts))
    decreases |acts|
  {
    if acts != [] {
      ActKeepsCoupling(l, acts[0]);
      hide Coupled, Allowed, Passes, Next;
      LocalStacksRefineGlobal(Next(l, acts[0]), acts[1..]);
    }
  }

  // Nobody has said anything yet, whoever is to serve the thread.
  lemma {:induction false} FreshLineIsCoupled(team: set<AgentId>)
    ensures Coupled(Line(Start, 0, team, map[]))
  {
    StartIsOrderly();
  }

  // A whole round of a service is its data records followed by its routed response, each stamped as above; the stack
  // moves only with the response.
  lemma {:induction false} RoundIsOneByOne(stack: seq<Pending>, responses: seq<Message>)
    requires RespondOk(stack, responses)
    ensures var n, out := |responses| - 1, Responses(stack, responses);
            && |out| == n + 1 && RespondOk(stack, [responses[n]])
            && (forall i :: 0 <= i < n ==> out[i] == StampData(responses[i], stack[|stack| - 1]))
            && out[n] == StampRouted(responses[n], stack[|stack| - 1])
            && Responded(stack, responses) == Responded(stack, [responses[n]])
  {
  }

  // ----- why plain names

  lemma {:induction false} DecimalIsNotEmpty(n: nat)
    ensures |Decimal(n)| >= 1
  {
  }

  // The address is the name that whoever is called will answer under. An agent that is not cloned on the way answers
  // under its own name; a domain or snapshot answers through its entry agent.
  predicate AnswersUnder(w: World, t: ThreadId, address: string)
    requires w.IsThread(t) && Readable(w, t)
  {
    match Resolve(w, address, w.Expected(t).domain).target
    case Nowhere => false
    case ToAgent(_) => Plain(w, t, address)
    case ToDomain(c) => w.IsDomain(c) && NameOf(w, w.domains[c].entry.to) == address
    case ToSnapshot(s) => s in w.snapshots && w.snapshots[s].entryTo == address
  }

  // Services remember a call by its address and recognise the answer by the callee's name. The two agree exactly as
  // above, whatever the address leads to: a clone always answers under another name than it was called by.
  lemma {:induction false} AnswersMatchExactly(w: World, t: ThreadId, address: string, w': World)
    requires Sound(w) && w.IsThread(t) && Readable(w, t)
    requires RouteCall(w, t, address).context.action == CALL
    requires CommitAllOk(w, RouteCall(w, t, address).ops) && w' == CommitAll(w, RouteCall(w, t, address).ops)
    ensures NameOf(w', RouteCall(w, t, address).context.to.value.agent) == address <==> AnswersUnder(w, t, address)
  {
    ExpectedInScope(w, t);
    var e := w.Expected(t);
    ResolveInScope(w, address, e.domain);
    RouteCallOps(w, t, address);
    CallCommitsExactly(w, t, address);
    var r := Resolve(w, address, e.domain);
    match r.target
    case ToAgent(a) => AgentAnswers(w, t, address, w');
    case ToSnapshot(s) =>
      hide Resolve, Sound, Plain, AddSnapshotDomain;
      InstanceAnswers(w, w.snapshots[s], e.domain);
    case _ => hide Resolve, Sound, Plain;
  }

  lemma InstanceAnswers(w: World, s: Snapshot, p: DomainId)
    requires w.IsDomain(p) && Instantiable(s)
    ensures NameOf(AddSnapshotDomain(w, s, p), |w.agents| + IndexOfName(s.members, s.entryTo)) == s.entryTo
  {
  }

  lemma AgentAnswers(w: World, t: ThreadId, address: string, w': World)
    requires Sound(w) && w.IsThread(t) && Readable(w, t)
    requires Resolve(w, address, w.Expected(t).domain).target.ToAgent?
    requires RouteCall(w, t, address).context.action == CALL
    requires CommitAllOk(w, RouteCall(w, t, address).ops) && w' == CommitAll(w, RouteCall(w, t, address).ops)
    ensures NameOf(w', RouteCall(w, t, address).context.to.value.agent) == address <==> Plain(w, t, address)
  {
    ExpectedInScope(w, t);
    var d := w.Expected(t).domain;
    var rest := if "&" <= address then address[1..] else address;
    var name := if "*" <= rest then rest[1..] else rest;
    LookupInScope(w, name, d);
    DecimalIsNotEmpty(|w.agents|);
    RouteCallOps(w, t, address);
    hide Sound, Lookup;
    var r := Resolve(w, address, d);
    if r.clone {
      assert NameOf(w', |w.agents|) == CloneName(w, r.target.agent);
      assert |CloneName(w, r.target.agent)| >= |name| + 2;
    }
  }
}
