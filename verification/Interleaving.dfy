// Any number of threads at once, each served by a team of its own: the acts of one are acts elsewhere to the others, so
// every service's stack keeps refining the call stack of its thread, in whatever order the threads take turns.
module Interleaving {
  import opened AccessIds
  import opened World
  import opened Transition
  import opened Routing
  import opened Soundness
  import opened Runs
  import opened Turns
  import opened Service
  import opened Coupling
  import opened Conversation

  // Who serves a thread, and the services' stacks.
  datatype Desk = Desk(team: set<AgentId>, locals: map<AgentId, seq<Pending>>)

  datatype Hall = Hall(run: Run, desks: map<ThreadId, Desk>)

  function LineOf(h: Hall, t: ThreadId): Line
    requires t in h.desks
  {
    Line(h.run, t, h.desks[t].team, h.desks[t].locals)
  }

  // Teams share nobody but the user and the runtime agent.
  predicate TeamsApart(one: set<AgentId>, other: set<AgentId>) {
    forall a <- one :: a in other ==> a == USER || a == RUNTIME
  }

  predicate AllCoupled(h: Hall) {
    && Orderly(h.run)
    && (forall t <- h.desks :: Coupled(LineOf(h, t)))
    && (forall t <- h.desks :: forall u <- h.desks :: t != u ==> TeamsApart(h.desks[t].team, h.desks[u].team))
  }

  datatype Move =
    | At(thread: ThreadId, act: Act)            // an act on a thread that a team serves
    | Stray(from: AgentId, message: Message, id: Int64)   // a message on any other thread
    | Commit(op: Op)
    | Open(thread: ThreadId, team: set<AgentId>)          // a team takes over an idle thread

  // No call by or to the agent is open.
  predicate Idle(w: World, a: AgentId) {
    forall t, i :: 0 <= t < |w.threads| && 0 <= i < |w.threads[t].stack| ==>
      w.threads[t].stack[i].from.agent != a && w.threads[t].stack[i].to.agent != a
  }

  predicate MoveOk(h: Hall, m: Move) {
    match m
    case At(t, act) => t in h.desks && Started(LineOf(h, t)) && IsHere(act) && Allowed(LineOf(h, t), act)
    case Stray(from, msg, id) =>
      && h.run.world.IsThread(msg.threadId) && Readable(h.run.world, msg.threadId)
      && h.run.world.Expected(msg.threadId).agent == from
      && Sayable(h.run, from, msg, id) && OnlyAnswers(h.run, from, msg)
      && forall t <- h.desks :: ElsewhereOk(LineOf(h, t), from, msg, id)
    case Commit(op) => Enabled(h.run, Commits(op))
    case Open(t, team) =>
      && h.run.world.IsThread(t) && t !in h.desks && h.run.world.threads[t].stack == []
      && (forall a <- team :: a != USER && a != RUNTIME ==> Idle(h.run.world, a))
      && (forall u <- h.desks :: TeamsApart(team, h.desks[u].team) && TeamsApart(h.desks[u].team, team))
  }

  predicate MovePasses(h: Hall, m: Move)
    requires MoveOk(h, m)
  {
    match m
    case At(t, act) => Passes(LineOf(h, t), act)
    case Stray(from, msg, id) => Enabled(h.run, Sends(from, msg, id))
    case _ => true
  }

  function Moved(h: Hall, m: Move): Hall
    requires MoveOk(h, m) && MovePasses(h, m)
  {
    match m
    case At(t, act) =>
      var l := Next(LineOf(h, t), act);
      Hall(l.run, h.desks[t := Desk(h.desks[t].team, l.locals)])
    case Stray(from, msg, id) => h.(run := Step(h.run, Sends(from, msg, id)))
    case Commit(op) => h.(run := Step(h.run, Commits(op)))
    case Open(t, team) => h.(desks := h.desks[t := Desk(team, map[])])
  }

  // ----- an act on one thread is an act elsewhere to the others

  lemma EmissionIs(l: Line, act: Act)
    requires Started(l) && IsHere(act) && Allowed(l, act) && Passes(l, act)
    ensures var msg := Emission(l, act);
            && msg.threadId == l.thread && Enabled(l.run, Sends(Turn(l), msg, act.id))
            && Next(l, act).run == Step(l.run, Sends(Turn(l), msg, act.id))
            && Next(l, act).thread == l.thread && Next(l, act).team == l.team
  {
    hide Enabled, Step, Allowed, Emission, Emitting, ContextOf, Recipient, Applicable, ReceiveOk;
    NextIs(l, act);
  }

  lemma NextIs(l: Line, act: Act)
    requires Started(l) && IsHere(act) && Allowed(l, act) && Passes(l, act)
    ensures Next(l, act) ==
            l.(run := Step(l.run, Sends(Turn(l), Emission(l, act), act.id)), locals := Next(l, act).locals)
  {
    hide Enabled, Step, Allowed, Recipient, Applicable, ReceiveOk;
    hide Received, Responded, Classify, Sayable, StampedMessage;
  }

  // The runtime agent's acts are records and answers.
  lemma RuntimeOnlyAnswers(l: Line, act: Act)
    requires Coupled(l) && Started(l) && IsHere(act) && Allowed(l, act) && ServicePasses(l, act)
    requires Emission(l, act).threadId == l.thread
    ensures OnlyAnswers(l.run, Turn(l), Emission(l, act))
  {
    hide Orderly, ViewsMatch, Sound, RouteCall, Sayable, PlainHere, Readable, AmongTeam, IdsIssued;
    if act.Respond? && Turn(l) == RUNTIME {
      OrderlyRun(l.run);
      SoundStack(l.run.world, l.thread);
      ResponseIsRouted(l, RUNTIME, act.message);
    }
  }

  // Whoever a message is addressed to has the turn afterwards.
  lemma AddresseeHasTurn(r: Run, from: AgentId, msg: Message, id: Int64)
    requires Orderly(r) && Enabled(r, Sends(from, msg, id)) && r.world.IsThread(msg.threadId)
    requires Readable(r.world, msg.threadId) && r.world.Expected(msg.threadId).agent == from
             && OnlyAnswers(r, from, msg)
    ensures var r' := Step(r, Sends(from, msg, id));
            && Orderly(r') && r'.world.IsThread(msg.threadId) && Readable(r'.world, msg.threadId)
            && Addressee(r.world, from, msg) == r'.world.Expected(msg.threadId).agent
  {
    hide Orderly, Enabled, Step, Readable, OnlyAnswers, Classify;
    hide Applicable, ApplyMessage, Recipient, CommitAll, CommitAllOk;
    hide StampedTags, Sound;
    var r' := Step(r, Sends(from, msg, id));
    SendsIs(r, from, msg, id);
    SpeakingKeepsOrderly(r, from, msg, id, r');
    OrderlyRun(r');
    OrderlyRun(r);
    TurnIsPassed(r.world, r'.world, msg.threadId, r'.log[|r'.log| - 1].to);
    SoundStack(r'.world, msg.threadId);
  }

  lemma TurnIsPassed(w: World, w': World, t: ThreadId, to: AgentId)
    requires Sound(w) && Sound(w') && TurnPassed(w, w', t, to)
    ensures w'.IsThread(t) && w'.IsDomain(w'.threads[t].root) && w'.Expected(t).agent == to
  {
  }

  // An act passes, and whoever speaks and is spoken to takes part in the thread.
  lemma {:induction false} ActStaysInTeam(l: Line, act: Act)
    requires Coupled(l) && Started(l) && IsHere(act) && Allowed(l, act)
    ensures Passes(l, act) && Coupled(Next(l, act))
    ensures var msg := Emission(l, act);
            && msg.threadId == l.thread && Sayable(l.run, Turn(l), msg, act.id) && OnlyAnswers(l.run, Turn(l), msg)
            && Next(l, act) == l.(run := Step(l.run, Sends(Turn(l), msg, act.id)), locals := Next(l, act).locals)
            && l.Here(Turn(l)) && l.Here(Addressee(l.run.world, Turn(l), msg))
  {
    hide Coupled, Sayable, Allowed, Orderly, Enabled, Step, OnlyAnswers;
    hide Classify, Passes, Next, Emission, Addressee, Readable;
    hide ServicePasses;
    ActKeepsCoupling(l, act);
    EmissionIs(l, act);
    NextIs(l, act);
    PassesService(l, act);
    RuntimeOnlyAnswers(l, act);
    CoupledIsOrderly(l);
    HolderIsEnabled(l.run, Emission(l, act), act.id);
    TurnIsHere(l);
    TurnIsHere(Next(l, act));
    AddresseeHasTurn(l.run, Turn(l), Emission(l, act), act.id);
  }

  lemma PassesService(l: Line, act: Act)
    requires Started(l) && IsHere(act) && Passes(l, act)
    ensures ServicePasses(l, act)
  {
    hide ServicePasses, Enabled, Emission, ContextOf, Applicable;
  }

  // Another thread's team is not concerned.
  lemma ActIsElsewhere(h: Hall, t: ThreadId, act: Act, u: ThreadId)
    requires AllCoupled(h) && MoveOk(h, At(t, act)) && u in h.desks && u != t && Started(LineOf(h, u))
    ensures Passes(LineOf(h, t), act)
    ensures Coupled(LineOf(h, u).(run := Next(LineOf(h, t), act).run))
  {
    hide Passes, Next, Sayable, Orderly, Enabled, Step, OnlyAnswers, Classify, Emission, Addressee, Readable;
    var l, other := LineOf(h, t), LineOf(h, u);
    CoupledAt(h, t);
    CoupledAt(h, u);
    hide AllCoupled, Allowed, Coupled;
    ActStaysInTeam(l, act);
    PassesService(l, act);
    var from, msg := Turn(l), Emission(l, act);
    assert TeamsApart(h.desks[t].team, h.desks[u].team);
    MemberIsOutside(h, t, u, from);
    MemberIsOutside(h, t, u, Addressee(l.run.world, from, msg));
    ElsewhereStays(other, from, msg, act.id);
  }

  lemma CoupledAt(h: Hall, t: ThreadId)
    requires AllCoupled(h) && t in h.desks
    ensures Coupled(LineOf(h, t)) && Started(LineOf(h, t))
    ensures forall u <- h.desks :: t != u ==> TeamsApart(h.desks[t].team, h.desks[u].team)
  {
    hide Coupled, Orderly, TeamsApart;
    CoupledIsStarted(LineOf(h, t));
  }

  lemma MemberIsOutside(h: Hall, t: ThreadId, u: ThreadId, a: AgentId)
    requires t in h.desks && u in h.desks && TeamsApart(h.desks[t].team, h.desks[u].team) && LineOf(h, t).Here(a)
    ensures Outside(LineOf(h, u), a)
  {
  }

  lemma ElsewhereStays(l: Line, from: AgentId, msg: Message, id: Int64)
    requires Coupled(l) && Started(l) && ElsewhereOk(l, from, msg, id)
    ensures Enabled(l.run, Sends(from, msg, id)) && Coupled(l.(run := Step(l.run, Sends(from, msg, id))))
  {
    hide Coupled, ElsewhereOk, Enabled, Step;
    ElsewhereKeepsCoupling(l, from, msg, id);
  }

  // ----- each move

  lemma {:induction false} ActKeepsAll(h: Hall, t: ThreadId, act: Act)
    requires AllCoupled(h) && MoveOk(h, At(t, act))
    ensures MovePasses(h, At(t, act)) && AllCoupled(Moved(h, At(t, act)))
  {
    hide Passes, Next, Coupled, Orderly, TeamsApart, Allowed;
    CoupledAt(h, t);
    ActKeepsCoupling(LineOf(h, t), act);
    var l := Next(LineOf(h, t), act);
    var h' := Moved(h, At(t, act));
    NextLine(h, t, act);
    CoupledIsOrderly(l);
    forall u | u in h'.desks
      ensures Coupled(LineOf(h', u))
    {
      if u != t {
        CoupledAt(h, u);
        ActIsElsewhere(h, t, act, u);
      }
    }
  }

  lemma NextLine(h: Hall, t: ThreadId, act: Act)
    requires MoveOk(h, At(t, act)) && Passes(LineOf(h, t), act)
    ensures LineOf(Moved(h, At(t, act)), t) == Next(LineOf(h, t), act)
  {
    hide Passes, Next, Allowed;
    EmissionIs(LineOf(h, t), act);
  }

  lemma {:induction false} StrayKeepsAll(h: Hall, from: AgentId, msg: Message, id: Int64)
    requires AllCoupled(h) && MoveOk(h, Stray(from, msg, id))
    ensures MovePasses(h, Stray(from, msg, id)) && AllCoupled(Moved(h, Stray(from, msg, id)))
  {
    hide Coupled, Orderly, TeamsApart, Enabled, Step, Sayable, OnlyAnswers, Readable, ElsewhereOk;
    HolderIsEnabled(h.run, msg, id);
    SpeakingKeepsOrderly(h.run, from, msg, id, Step(h.run, Sends(from, msg, id)));
    var h' := Moved(h, Stray(from, msg, id));
    forall u | u in h'.desks
      ensures Coupled(LineOf(h', u))
    {
      CoupledAt(h, u);
      ElsewhereStays(LineOf(h, u), from, msg, id);
    }
  }

  lemma {:induction false} CommitKeepsAll(h: Hall, op: Op)
    requires AllCoupled(h) && MoveOk(h, Commit(op))
    ensures MovePasses(h, Commit(op)) && AllCoupled(Moved(h, Commit(op)))
  {
    hide Coupled, Orderly, TeamsApart, Enabled, Step;
    CommitKeepsOrderly(h.run, op);
    var h' := Moved(h, Commit(op));
    forall u | u in h'.desks
      ensures Coupled(LineOf(h', u))
    {
      CoupledAt(h, u);
      GrowingKeepsCoupling(LineOf(h, u), op);
    }
  }

  lemma NewLineIsCoupled(h: Hall, t: ThreadId, team: set<AgentId>)
    requires Orderly(h.run) && MoveOk(h, Open(t, team))
    ensures Coupled(Line(h.run, t, team, map[]))
  {
    hide Orderly, TeamsApart, Idle;
  }

  // A team that takes over an idle thread starts with empty stacks.
  lemma {:induction false} OpenKeepsAll(h: Hall, t: ThreadId, team: set<AgentId>)
    requires AllCoupled(h) && MoveOk(h, Open(t, team))
    ensures MovePasses(h, Open(t, team)) && AllCoupled(Moved(h, Open(t, team)))
  {
    hide Coupled, Orderly, TeamsApart, Idle, Readable, OnlyAnswers, Sayable, ElsewhereOk, Started, Allowed;
    var h' := Moved(h, Open(t, team));
    NewLineIsCoupled(h, t, team);
    forall u | u in h'.desks
      ensures Coupled(LineOf(h', u))
    {
      if u != t {
        CoupledAt(h, u);
      }
    }
  }

  lemma {:induction false} MoveKeepsAll(h: Hall, m: Move)
    requires AllCoupled(h) && MoveOk(h, m)
    ensures MovePasses(h, m) && AllCoupled(Moved(h, m))
  {
    hide AllCoupled, MoveOk, Moved, MovePasses;
    match m
    case At(t, act) => ActKeepsAll(h, t, act);
    case Stray(from, msg, id) => StrayKeepsAll(h, from, msg, id);
    case Commit(op) => CommitKeepsAll(h, op);
    case Open(t, team) => OpenKeepsAll(h, t, team);
  }

  // ----- whole runs

  predicate AllOk(h: Hall, moves: seq<Move>)
    decreases |moves|
  {
    moves == [] || (MoveOk(h, moves[0]) && (MovePasses(h, moves[0]) ==> AllOk(Moved(h, moves[0]), moves[1..])))
  }

  predicate NoneFails(h: Hall, moves: seq<Move>)
    requires AllOk(h, moves)
    decreases |moves|
  {
    moves == [] || (MovePasses(h, moves[0]) && NoneFails(Moved(h, moves[0]), moves[1..]))
  }

  function End(h: Hall, moves: seq<Move>): Hall
    requires AllOk(h, moves) && NoneFails(h, moves)
    decreases |moves|
  {
    if moves == [] then h else End(Moved(h, moves[0]), moves[1..])
  }

  // In whatever order the threads take turns, no CHECK fails and every service's stack refines its thread's.
  lemma {:induction false} EveryStackRefines(h: Hall, moves: seq<Move>)
    requires AllCoupled(h) && AllOk(h, moves)
    ensures NoneFails(h, moves) && AllCoupled(End(h, moves))
    decreases |moves|
  {
    hide AllCoupled, MoveOk, Moved, MovePasses;
    if moves != [] {
      MoveKeepsAll(h, moves[0]);
      EveryStackRefines(Moved(h, moves[0]), moves[1..]);
    }
  }

  // It may start from the beginning, with nobody serving yet.
  lemma {:induction false} EmptyHallIsCoupled()
    ensures AllCoupled(Hall(Start, map[]))
  {
    StartIsOrderly();
  }
}
