// The gate is exact: over any run in which agents speak only when answering a delivery, a thread is shown as pending
// exactly when a user message waits in the queue or someone other than the user holds the turn.
module Gating {
  import opened AccessIds
  import opened World
  import opened Transition
  import opened Routing
  import opened Soundness
  import opened Preprocess
  import opened Runs
  import opened Turns
  import opened Ui
  import Growth

  // The runtime, the user's gates and queue, and the deliveries still to be answered: thread to agent.
  datatype Desk = Desk(run: Run, gates: seq<Gate>, queue: seq<Message>, owed: map<ThreadId, AgentId>)

  const FreshDesk: Desk := Desk(Start, [], [], map[])

  predicate QueuedOn(queue: seq<Message>, t: int) {
    exists i :: 0 <= i < |queue| && queue[i].threadId == t
  }

  datatype Act =
    | UserSends(message: Message, wantsResult: bool)
    | RouteUser(id: Int64)                            // the runtime takes the next user message
    | Answer(thread: ThreadId, message: Message, id: Int64)
    | Grow(op: Op)

  // The agent whose message an act routes.
  function Speaker(d: Desk, act: Act): AgentId {
    if act.Answer? && act.thread in d.owed then d.owed[act.thread] else USER
  }

  function Spoken(d: Desk, act: Act): Message
    requires act.RouteUser? || act.Answer?
    requires act.RouteUser? ==> d.queue != []
  {
    if act.RouteUser? then d.queue[0] else act.message
  }

  // Users send routed messages through the gate; agents answer deliveries, on the thread they came on.
  predicate Possible(d: Desk, act: Act) {
    match act
    case UserSends(msg, _) => d.run.world.IsThread(msg.threadId) && !msg.isData && !IsPending(d.gates, msg.threadId)
    case RouteUser(id) => d.queue != [] && Sayable(d.run, USER, d.queue[0], id)
    case Answer(t, msg, id) =>
      t in d.owed && msg.threadId == t && Sayable(d.run, d.owed[t], msg, id) && OnlyAnswers(d.run, d.owed[t], msg)
    case Grow(op) => Enabled(d.run, Commits(op))
  }

  // Handing the latest record to its recipient: the UI for the user, an adapter otherwise.
  predicate Deliverable(d: Desk, t: ThreadId) {
    d.run.log != [] && (d.run.log[|d.run.log| - 1].to == USER ==> t < |d.gates| && IsPending(d.gates, t))
  }

  function Deliver(d: Desk, t: ThreadId): Desk
    requires Deliverable(d, t)
  {
    var to := d.run.log[|d.run.log| - 1].to;
    if to == USER then d.(gates := Lowered(d.gates, t), owed := d.owed - {t}) else d.(owed := d.owed[t := to])
  }

  // The queue without a message just taken for routing.
  function Taken(d: Desk, act: Act): Desk {
    if act.RouteUser? && d.queue != [] then d.(queue := d.queue[1..]) else d
  }

  // The act does not trip a CHECK: neither in preprocess, nor in the UI when something is delivered to the user.
  predicate Passes(d: Desk, act: Act)
    requires Possible(d, act)
  {
    match act
    case UserSends(_, _) => true
    case Grow(_) => true
    case _ =>
      var ev := Sends(Speaker(d, act), Spoken(d, act), act.id);
      && Enabled(d.run, ev)
      && (!Spoken(d, act).isData ==> Deliverable(Taken(d, act).(run := Step(d.run, ev)), Spoken(d, act).threadId))
  }

  function Next(d: Desk, act: Act): Desk
    requires Possible(d, act) && Passes(d, act)
  {
    match act
    case UserSends(msg, wants) => d.(gates := Raised(d.gates, msg.threadId, wants), queue := d.queue + [msg])
    case Grow(op) => d.(run := Step(d.run, Commits(op)))
    case _ =>
      var msg := Spoken(d, act);
      var d' := Taken(d, act).(run := Step(d.run, Sends(Speaker(d, act), msg, act.id)));
      if msg.isData then d' else Deliver(d', msg.threadId)
  }

  // ----- the invariant

  predicate QueueOk(threads: nat, queue: seq<Message>) {
    && (forall i :: 0 <= i < |queue| ==> 0 <= queue[i].threadId < threads && !queue[i].isData)
    && (forall i, j :: 0 <= i < j < |queue| ==> queue[i].threadId != queue[j].threadId)
  }

  // Thread t's flag, queue entry and outstanding delivery agree with whose turn it is.
  predicate ThreadGateOk(gates: seq<Gate>, queue: seq<Message>, owed: map<ThreadId, AgentId>, t: ThreadId,
      turn: AgentId) {
    && (IsPending(gates, t) <==> QueuedOn(queue, t) || turn != USER)
    && (QueuedOn(queue, t) ==> turn == USER)
    && (turn == USER ==> t !in owed)
    && (turn != USER ==> t in owed && owed[t] == turn)
  }

  predicate GateOk(d: Desk) {
    && Orderly(d.run)
    && QueueOk(|d.run.world.threads|, d.queue)
    && (forall t <- d.owed :: t < |d.run.world.threads|)
    && |d.gates| <= |d.run.world.threads|
    && forall t :: 0 <= t < |d.run.world.threads| ==>
         ThreadGateOk(d.gates, d.queue, d.owed, t, d.run.world.Expected(t).agent)
  }

  lemma OrderlyIsSound(r: Run)
    requires Orderly(r)
    ensures Sound(r.world)
  {
  }

  // The speaker of a possible act holds the turn on its thread, and its thread is marked pending.
  lemma {:induction false} SpeakerHoldsTurn(d: Desk, act: Act)
    requires GateOk(d) && Possible(d, act) && (act.RouteUser? || act.Answer?)
    ensures var t := Spoken(d, act).threadId;
            && d.run.world.IsThread(t) && d.run.world.Expected(t).agent == Speaker(d, act)
            && Sayable(d.run, Speaker(d, act), Spoken(d, act), act.id)
            && IsPending(d.gates, t) && !QueuedOn(Taken(d, act).queue, t)
            && (Spoken(d, act).isData ==> act.Answer?)
            && OnlyAnswers(d.run, Speaker(d, act), Spoken(d, act))
  {
    hide Orderly, Sayable;
    OrderlyIsSound(d.run);
    var t := Spoken(d, act).threadId;
    assert ThreadGateOk(d.gates, d.queue, d.owed, t, d.run.world.Expected(t).agent);
    if act.RouteUser? {
      assert QueuedOn(d.queue, t);
    }
  }

  // A DATA record leaves the turn with its producer.
  lemma {:induction false} DataKeepsTurn(r: Run, from: AgentId, msg: Message, id: Int64)
    requires Enabled(r, Sends(from, msg, id)) && msg.isData && r.world.IsThread(msg.threadId)
    requires from == r.world.Expected(msg.threadId).agent
    ensures var r' := Step(r, Sends(from, msg, id)); r'.log != [] && r'.log[|r'.log| - 1].to == from
  {
    SendsIs(r, from, msg, id);
  }

  // No CHECK fails: user messages are never unexpected, and a delivery to the user always finds the flag raised.
  lemma {:induction false} ActsPass(d: Desk, act: Act)
    requires GateOk(d) && Possible(d, act)
    ensures Passes(d, act)
  {
    if act.RouteUser? || act.Answer? {
      SpeakerHoldsTurn(d, act);
      var msg := Spoken(d, act);
      HolderIsEnabled(d.run, msg, act.id);
      SpeakingKeepsOrderly(d.run, Speaker(d, act), msg, act.id, Step(d.run, Sends(Speaker(d, act), msg, act.id)));
    }
  }

  lemma {:induction false} QueueWithoutHead(queue: seq<Message>, threads: nat, t: int)
    requires QueueOk(threads, queue) && queue != []
    ensures QueueOk(threads, queue[1..])
    ensures QueuedOn(queue, t) <==> t == queue[0].threadId || QueuedOn(queue[1..], t)
    ensures !QueuedOn(queue[1..], queue[0].threadId)
  {
    if QueuedOn(queue, t) && t != queue[0].threadId {
      var i :| 0 <= i < |queue| && queue[i].threadId == t;
      assert queue[1..][i - 1].threadId == t;
    }
    if QueuedOn(queue[1..], t) {
      var i :| 0 <= i < |queue[1..]| && queue[1..][i].threadId == t;
      assert queue[i + 1].threadId == t;
    }
  }

  // The flags after one message on thread t has been routed and the turn has gone to `to`.
  lemma {:induction false} RoutedGates(d: Desk, act: Act, d': Desk, t: ThreadId, to: AgentId, x: ThreadId,
      turn: AgentId)
    requires (act.RouteUser? && d.queue != [] && d.queue[0].threadId == t) || act.Answer?
    requires QueueOk(|d.run.world.threads|, d.queue) && IsPending(d.gates, t) && !QueuedOn(Taken(d, act).queue, t)
    requires d'.queue == Taken(d, act).queue
    requires if to == USER then d'.gates == Lowered(d.gates, t) && d'.owed == d.owed - {t}
             else d'.gates == d.gates && d'.owed == d.owed[t := to]
    requires ThreadGateOk(d.gates, d.queue, d.owed, x, turn)
    ensures ThreadGateOk(d'.gates, d'.queue, d'.owed, x, if x == t then to else turn)
  {
    GateMovesOneFlag(d.gates, t, false, x);
    if act.RouteUser? {
      QueueWithoutHead(d.queue, |d.run.world.threads|, x);
    }
  }

  lemma {:induction false} RoutingKeepsGate(d: Desk, act: Act)
    requires GateOk(d) && Possible(d, act) && Passes(d, act) && (act.RouteUser? || act.Answer?)
    ensures GateOk(Next(d, act))
  {
    hide Orderly, Step, Enabled, Sayable, OnlyAnswers, Classify, QueuedOn, ThreadGateOk, Lowered, Sound;
    var from, msg := Speaker(d, act), Spoken(d, act);
    var t := msg.threadId;
    var r' := Step(d.run, Sends(from, msg, act.id));
    var d' := Next(d, act);
    SpeakerHoldsTurn(d, act);
    SpeakingKeepsOrderly(d.run, from, msg, act.id, r');
    if msg.isData {
      DataKeepsTurn(d.run, from, msg, act.id);
    }
    if act.RouteUser? {
      QueueWithoutHead(d.queue, |d.run.world.threads|, t);
    }
    OrderlyIsSound(d.run);
    OrderlyIsSound(r');
    SoundHasTurns(d.run.world);
    SoundHasTurns(r'.world);
    var to := r'.log[|r'.log| - 1].to;
    forall x | 0 <= x < |r'.world.threads|
      ensures ThreadGateOk(d'.gates, d'.queue, d'.owed, x, r'.world.Expected(x).agent)
    {
      var turn := d.run.world.Expected(x).agent;
      assert ThreadGateOk(d.gates, d.queue, d.owed, x, turn);
      if msg.isData {
        assert d' == d.(run := r');
      } else {
        RoutedGates(d, act, d', t, to, x, turn);
      }
    }
  }

  lemma {:induction false} SendingKeepsGate(d: Desk, msg: Message, wants: bool)
    requires GateOk(d) && Possible(d, UserSends(msg, wants))
    ensures GateOk(Next(d, UserSends(msg, wants)))
  {
    hide Orderly, Sound, ThreadGateOk, Raised;
    var d' := Next(d, UserSends(msg, wants));
    OrderlyIsSound(d.run);
    SoundHasTurns(d.run.world);
    forall x | 0 <= x < |d.run.world.threads|
      ensures ThreadGateOk(d'.gates, d'.queue, d'.owed, x, d.run.world.Expected(x).agent)
    {
      SentGates(d.gates, d.queue, d.owed, msg, wants, x, d.run.world.Expected(x).agent);
    }
    SentGates(d.gates, d.queue, d.owed, msg, wants, msg.threadId, d.run.world.Expected(msg.threadId).agent);
  }

  lemma SoundHasTurns(w: World)
    requires Sound(w)
    ensures forall t :: 0 <= t < |w.threads| ==> w.IsDomain(w.threads[t].root)
  {
  }

  // The flags after a user message has been queued.
  lemma {:induction false} SentGates(gates: seq<Gate>, queue: seq<Message>, owed: map<ThreadId, AgentId>,
                                     msg: Message, wants: bool, x: ThreadId, turn: AgentId)
    requires msg.threadId >= 0 && !IsPending(gates, msg.threadId) && ThreadGateOk(gates, queue, owed, x, turn)
    ensures ThreadGateOk(Raised(gates, msg.threadId, wants), queue + [msg], owed, x, turn)
    ensures x == msg.threadId ==> forall i :: 0 <= i < |queue| ==> queue[i].threadId != x
  {
    GateMovesOneFlag(gates, msg.threadId, wants, x);
    if QueuedOn(queue, x) {
      var i :| 0 <= i < |queue| && queue[i].threadId == x;
      assert (queue + [msg])[i].threadId == x;
    }
    assert (queue + [msg])[|queue|] == msg;
  }

  lemma {:induction false} GrowingKeepsGate(d: Desk, op: Op)
    requires GateOk(d) && Possible(d, Grow(op))
    ensures GateOk(Next(d, Grow(op)))
  {
    CommitKeepsOrderly(d.run, op);
    GrowthKeepsRoots(d.run.world, op);
    hide Orderly, CommitOp, Sound, CommitOk, GateOk;
    GateOnGrownThreads(d, Step(d.run, Commits(op)));
  }

  // Threads that are new have nothing pending and the user's turn; the old ones keep theirs.
  lemma GateOnGrownThreads(d: Desk, r: Run)
    requires GateOk(d) && Orderly(r) && |d.run.world.threads| <= |r.world.threads|
    requires forall t :: 0 <= t < |r.world.threads| ==> r.world.IsDomain(r.world.threads[t].root)
    requires forall t :: 0 <= t < |d.run.world.threads| ==> d.run.world.IsDomain(d.run.world.threads[t].root)
    requires forall t :: 0 <= t < |d.run.world.threads| ==> r.world.Expected(t) == d.run.world.Expected(t)
    requires forall t :: |d.run.world.threads| <= t < |r.world.threads| ==> r.world.Expected(t).agent == USER
    ensures GateOk(d.(run := r))
  {
    hide Orderly, ThreadGateOk;
    forall x | 0 <= x < |r.world.threads|
      ensures ThreadGateOk(d.gates, d.queue, d.owed, x, r.world.Expected(x).agent)
    {
      if x < |d.run.world.threads| {
        OldThreadGate(d, x);
      } else {
        NewThreadGate(d, x);
      }
    }
  }

  lemma OldThreadGate(d: Desk, x: ThreadId)
    requires GateOk(d) && x < |d.run.world.threads|
    ensures ThreadGateOk(d.gates, d.queue, d.owed, x, d.run.world.Expected(x).agent)
  {
    hide Orderly, ThreadGateOk;
  }

  // A thread just created: nothing pending, queued or owed, and the user's turn.
  lemma NewThreadGate(d: Desk, x: ThreadId)
    requires GateOk(d) && x >= |d.run.world.threads|
    ensures ThreadGateOk(d.gates, d.queue, d.owed, x, USER)
  {
    hide Orderly;
  }

  // New threads begin with the user's turn; old ones are as they were.
  lemma GrowthKeepsRoots(w: World, op: Op)
    requires Sound(w) && Growth.Issuable(w, op)
    ensures var w' := CommitOp(w, op);
            && Sound(w') && |w.threads| <= |w'.threads|
            && (forall t :: 0 <= t < |w.threads| ==> w'.Expected(t) == w.Expected(t))
            && (forall t :: |w.threads| <= t < |w'.threads| ==> w'.Expected(t).agent == USER)
  {
    Growth.CommitKeepsSound(w, op);
    CommitKeepsThreads(w, op);
    var w' := CommitOp(w, op);
    hide CommitOp;
    forall t | 0 <= t < |w.threads|
      ensures w'.Expected(t) == w.Expected(t)
    {
      TurnUnaffected(w, w', t);
    }
  }

  predicate AllPossible(d: Desk, acts: seq<Act>)
    decreases |acts|
  {
    acts == [] || (Possible(d, acts[0]) && (Passes(d, acts[0]) ==> AllPossible(Next(d, acts[0]), acts[1..])))
  }

  predicate NeverChecked(d: Desk, acts: seq<Act>)
    requires AllPossible(d, acts)
    decreases |acts|
  {
    acts == [] || (Passes(d, acts[0]) && NeverChecked(Next(d, acts[0]), acts[1..]))
  }

  function After(d: Desk, acts: seq<Act>): Desk
    requires AllPossible(d, acts) && NeverChecked(d, acts)
    decreases |acts|
  {
    if acts == [] then d else After(Next(d, acts[0]), acts[1..])
  }

  // Over whole runs no CHECK fails and the gates stay exact.
  lemma {:induction false} GatesStayExact(d: Desk, acts: seq<Act>)
    requires GateOk(d) && AllPossible(d, acts)
    ensures NeverChecked(d, acts) && GateOk(After(d, acts))
    decreases |acts|
  {
    if acts != [] {
      ActsPass(d, acts[0]);
      match acts[0] {
        case UserSends(msg, wants) => SendingKeepsGate(d, msg, wants);
        case Grow(op) => GrowingKeepsGate(d, op);
        case _ => RoutingKeepsGate(d, acts[0]);
      }
      GatesStayExact(Next(d, acts[0]), acts[1..]);
    }
  }

  lemma {:induction false} FreshDeskIsExact()
    ensures GateOk(FreshDesk)
  {
    StartIsOrderly();
  }

  // Had the user queued a DATA message, nothing would come back: routed at the user's turn it leaves the turn and
  // every flag as they were, so the thread stays marked pending although nothing is queued or owed.
  lemma {:induction false} UserDataWouldBlock(d: Desk, msg: Message, id: Int64)
    requires GateOk(d) && msg.isData && Sayable(d.run, USER, msg, id)
    requires d.run.world.Expected(msg.threadId).agent == USER && !QueuedOn(d.queue, msg.threadId)
    ensures Enabled(d.run, Sends(USER, msg, id))
    ensures var d' := d.(run := Step(d.run, Sends(USER, msg, id)), gates := Raised(d.gates, msg.threadId, false));
            IsPending(d'.gates, msg.threadId) && !QueuedOn(d'.queue, msg.threadId)
            && Orderly(d'.run) && d'.run.world.IsThread(msg.threadId)
            && d'.run.world.Expected(msg.threadId).agent == USER && !GateOk(d')
  {
    var t := msg.threadId;
    HolderIsEnabled(d.run, msg, id);
    SpeakingKeepsOrderly(d.run, USER, msg, id, Step(d.run, Sends(USER, msg, id)));
    DataKeepsTurn(d.run, USER, msg, id);
    GateMovesOneFlag(d.gates, t, false, t);
    var d' := d.(run := Step(d.run, Sends(USER, msg, id)), gates := Raised(d.gates, t, false));
    assert !ThreadGateOk(d'.gates, d'.queue, d'.owed, t, USER);
  }
}
