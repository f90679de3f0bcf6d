// What becomes of tags: they come from the user, travel with calls and returns, stay with whoever has them, and go
// nowhere else.
module Tags {
  import opened AccessIds
  import opened World
  import opened Transition
  import opened Routing
  import opened Soundness
  import opened Preservation
  import opened Growth
  import opened Preprocess
  import opened Runs

  // One record: a call or a return leaves its tags with its sender and its recipient; nothing else moves any.
  lemma {:induction false} RecordMovesTagsExactly(w: World, id: Int64, tags: set<string>, ctx: Context, a: AgentId)
    requires Sound(w) && Faithful(w, ctx) && Applicable(w, ctx) && w.IsAgent(a)
    ensures var w' := ApplyMessage(w, id, tags, ctx);
            && w'.IsAgent(a)
            && w'.agents[a].tags ==
               if (ctx.action == CALL || ctx.action == RETURN)
                  && (a == w.Expected(ctx.thread).agent || a == w'.Expected(ctx.thread).agent)
               then w.agents[a].tags + tags else w.agents[a].tags
  {
    RecipientHoldsTurn(w, id, tags, ctx);
    hide Sound, StackAfter;
  }

  // The rewind of a death moves none.
  lemma DeathMovesNoTags(w: World, id: Int64, dead: AgentId, a: AgentId)
    requires Sound(w) && w.IsAgent(dead) && w.IsAgent(a)
    ensures Applicable(w, DeathContext(w, dead))
    ensures var w' := ApplyMessage(w, id, {}, DeathContext(w, dead));
            w'.IsAgent(a) && w'.agents[a].tags == w.agents[a].tags
  {
    DeathKeepsSound(w, id, dead);
    hide Sound, StackAfter;
  }

  lemma CommitMovesNoTags(w: World, op: Op)
    requires CommitOk(w, op)
    ensures var w' := CommitOp(w, op);
            && |w.agents| <= |w'.agents|
            && (forall a :: 0 <= a < |w.agents| ==> w'.agents[a].tags == w.agents[a].tags)
            && (forall a :: |w.agents| <= a < |w'.agents| ==> w'.agents[a].tags == {})
  {
  }

  // What a message offers: all that its sender holds, and of the tags it asks for those that the user asks for.
  lemma OfferedTags(w: World, from: AgentId, msg: Message)
    requires w.IsThread(msg.threadId) && Readable(w, msg.threadId) && w.IsAgent(from)
    requires Classify(w, from, msg).context.action != REWIND
    ensures forall tag :: tag in StampedTags(w, from, msg) <==>
              tag in w.agents[from].tags || (from == USER && !msg.isData && tag in msg.tags)
  {
    ClassifiedIsExpected(w, from, msg);
    hide Classify;
  }

  lemma ClassifiedIsExpected(w: World, from: AgentId, msg: Message)
    requires w.IsThread(msg.threadId) && Readable(w, msg.threadId)
    ensures Classify(w, from, msg).context.action != REWIND ==> w.Expected(msg.threadId).agent == from
  {
    hide RouteCall;
  }

  // ----- over one event of a run

  // Tags the user proposes with an event.
  function Proposed(ev: Event): set<string> {
    if ev.Sends? && ev.from == USER && !ev.message.isData then set tag | tag in ev.message.tags else {}
  }

  // What a spoken message does to everybody's tags: sender and recipient of a call or a return end up with what was
  // offered, besides what they had; new agents had nothing.
  lemma {:induction false} SpeakingMovesTags(r: Run, from: AgentId, msg: Message, id: Int64, a: AgentId)
    requires Valid(r) && Enabled(r, Sends(from, msg, id)) && Step(r, Sends(from, msg, id)).world.IsAgent(a)
    ensures var r' := Step(r, Sends(from, msg, id));
            var e := r'.log[|r'.log| - 1];
            var before := if r.world.IsAgent(a) then r.world.agents[a].tags else {};
            && r'.log != [] && e.id == id
            && r'.world.agents[a].tags ==
               if (e.action == CALL || e.action == RETURN) && (a == e.from || a == e.to)
               then before + StampedTags(r.world, from, msg) else before
  {
    hide Valid, Enabled, Step, Classify, StampedTags, Readable, CommitAllOk, CommitAll, Recipient, StackAfter;
    SendsIs(r, from, msg, id);
    ValidRunIsSound(r);
    var p := Prepared(r, from, msg).world;
    PreparedTags(r, from, msg);
  }

  lemma ValidRunIsSound(r: Run)
    requires Valid(r)
    ensures Sound(r.world)
  {
  }

  lemma PreparedTags(r: Run, from: AgentId, msg: Message)
    requires Sound(r.world) && r.world.IsThread(msg.threadId) && Readable(r.world, msg.threadId)
    requires CommitAllOk(r.world, Classify(r.world, from, msg).ops)
    ensures var p := Prepared(r, from, msg).world;
            && |r.world.agents| <= |p.agents|
            && (forall a :: 0 <= a < |r.world.agents| ==> p.agents[a].tags == r.world.agents[a].tags)
            && (forall a :: |r.world.agents| <= a < |p.agents| ==> p.agents[a].tags == {})
  {
    hide Classify, RouteCall, CommitOp, Sound, Issuable;
    ClassifyCases(r.world, from, msg);
    var ops := Classify(r.world, from, msg).ops;
    if ops != [] {
      RouteCallOps(r.world, msg.threadId, msg.To());
      assert CommitOk(r.world, ops[0]) by { IssuableCommits(r.world, ops[0]); }
      CommitMovesNoTags(r.world, ops[0]);
    }
  }

  lemma IssuableCommits(w: World, op: Op)
    requires Issuable(w, op)
    ensures CommitOk(w, op)
  {
  }

  // ----- over whole runs

  lemma AgentsStay(r: Run, ev: Event)
    requires Valid(r) && Enabled(r, ev)
    ensures |r.world.agents| <= |Step(r, ev).world.agents|
  {
    hide Valid, Enabled, Step, Classify, StampedTags, Readable, CommitAllOk, CommitAll;
    ValidRunIsSound(r);
    match ev
    case Sends(from, msg, id) =>
      SendsIs(r, from, msg, id);
      PreparedTags(r, from, msg);
    case Commits(op) => CommitIs(r, op);
    case Dies(a, id) => DeathIs(r, a, id);
  }

  lemma CommitIs(r: Run, op: Op)
    requires Enabled(r, Commits(op))
    ensures CommitOk(r.world, op) && Step(r, Commits(op)).world == CommitOp(r.world, op)
    ensures |r.world.agents| <= |CommitOp(r.world, op).agents|
  {
  }

  lemma DeathAddsNobody(r: Run, dead: AgentId, id: Int64)
    requires Enabled(r, Dies(dead, id))
    ensures r.world.IsAgent(dead) && |Step(r, Dies(dead, id)).world.agents| == |r.world.agents|
  {
  }

  // Whatever happens, an agent keeps its tags, and gains only what the user proposes and what the sender holds;
  // an agent that is new has nothing unless a message has just been sent to it.
  lemma {:induction false} StepMovesTags(r: Run, ev: Event, a: AgentId)
    requires Valid(r) && Enabled(r, ev) && Step(r, ev).world.IsAgent(a)
    ensures var before := if r.world.IsAgent(a) then r.world.agents[a].tags else {};
            var after := Step(r, ev).world.agents[a].tags;
            && before <= after
            && (!ev.Sends? ==> after == before)
            && (ev.Sends? ==> r.world.IsAgent(ev.from) && after <= before + r.world.agents[ev.from].tags + Proposed(ev))
  {
    hide Valid, Enabled, Step, Classify, StampedTags, Readable, CommitAllOk, CommitAll, Recipient, StackAfter;
    ValidRunIsSound(r);
    match ev
    case Sends(from, msg, id) =>
      SendsIs(r, from, msg, id);
      SpeakingMovesTags(r, from, msg, id, a);
      OnlyOffered(r.world, from, msg);
    case Commits(op) =>
      CommitIs(r, op);
      CommitMovesNoTags(r.world, op);
    case Dies(dead, id) =>
      DeathIs(r, dead, id);
      DeathAddsNobody(r, dead, id);
      DeathMovesNoTags(r.world, id, dead, a);
  }

  lemma OnlyOffered(w: World, from: AgentId, msg: Message)
    requires w.IsThread(msg.threadId) && Readable(w, msg.threadId) && w.IsAgent(from)
    ensures StampedTags(w, from, msg) <= w.agents[from].tags + Proposed(Sends(from, msg, 0))
  {
    if Classify(w, from, msg).context.action != REWIND {
      OfferedTags(w, from, msg);
    }
  }

  // A call or a return hands on all that its sender holds, and all that the user proposes with it.
  lemma {:induction false} RecipientHoldsOffer(r: Run, from: AgentId, msg: Message, id: Int64)
    requires Valid(r) && Enabled(r, Sends(from, msg, id))
    ensures var r' := Step(r, Sends(from, msg, id));
            && r'.log != [] && r.world.IsAgent(from) && r'.world.IsAgent(from)
            && var e := r'.log[|r'.log| - 1];
               e.action == CALL || e.action == RETURN ==>
                 && r'.world.IsAgent(e.to)
                 && r.world.agents[from].tags + Proposed(Sends(from, msg, id)) <= r'.world.agents[e.to].tags
                 && Proposed(Sends(from, msg, id)) <= r'.world.agents[from].tags
  {
    hide Enabled, Step, Valid, Readable, CommitAllOk, CommitAll, Classify, StampedTags;
    var ev := Sends(from, msg, id);
    SendsIs(r, from, msg, id);
    StepKeepsValid(r, ev);
    AgentsStay(r, ev);
    SpeakersAreLogged(r, from, msg, id);
    var e := Step(r, ev).log[|Step(r, ev).log| - 1];
    SpeakingMovesTags(r, from, msg, id, from);
    SpeakingMovesTags(r, from, msg, id, e.to);
    if e.action == CALL || e.action == RETURN {
      OfferedTags(r.world, from, msg);
    }
  }

  lemma SpeakersAreLogged(r: Run, from: AgentId, msg: Message, id: Int64)
    requires Enabled(r, Sends(from, msg, id)) && Valid(Step(r, Sends(from, msg, id)))
    ensures r.world.IsThread(msg.threadId) && Readable(r.world, msg.threadId)
    ensures var r' := Step(r, Sends(from, msg, id));
            && r'.log != []
            && var e := r'.log[|r'.log| - 1];
               && r'.world.IsAgent(e.to) && e.action == Classify(r.world, from, msg).context.action
               && (e.action != REWIND ==> e.from == from)
  {
    hide Enabled, Step, Valid, Readable, CommitAllOk, CommitAll, Recipient, ApplyMessage, RouteCall, StampedTags;
    SendsIs(r, from, msg, id);
    LastIsLogged(Step(r, Sends(from, msg, id)));
    ClassifiedIsExpected(r.world, from, msg);
    ClassifiedFrom(r.world, from, msg);
  }

  lemma LastIsLogged(r: Run)
    requires Valid(r) && r.log != []
    ensures r.world.IsAgent(r.log[|r.log| - 1].to)
  {
  }

  lemma ClassifiedFrom(w: World, from: AgentId, msg: Message)
    requires w.IsThread(msg.threadId) && Readable(w, msg.threadId)
    ensures Classify(w, from, msg).context.from == w.Expected(msg.threadId)
  {
  }

  // Nobody ever loses a tag.
  lemma {:induction false} TagsNeverShrink(r: Run, events: seq<Event>, a: AgentId)
    requires Valid(r) && AllEnabled(r, events) && r.world.IsAgent(a)
    ensures Play(r, events).world.IsAgent(a)
    ensures r.world.agents[a].tags <= Play(r, events).world.agents[a].tags
    decreases |events|
  {
    hide Valid, Enabled, Step;
    if events != [] {
      AgentsStay(r, events[0]);
      StepMovesTags(r, events[0], a);
      StepKeepsValid(r, events[0]);
      TagsNeverShrink(Step(r, events[0]), events[1..], a);
    }
  }

  function EverProposed(events: seq<Event>): set<string> {
    if events == [] then {} else Proposed(events[0]) + EverProposed(events[1..])
  }

  function HeldBySomebody(w: World): set<string> {
    set a, tag | 0 <= a < |w.agents| && tag in w.agents[a].tags :: tag
  }

  lemma {:induction false} StepInventsNoTags(r: Run, ev: Event)
    requires Valid(r) && Enabled(r, ev)
    ensures HeldBySomebody(Step(r, ev).world) <= HeldBySomebody(r.world) + Proposed(ev)
  {
    hide Valid, Enabled, Step;
    forall a, tag | 0 <= a < |Step(r, ev).world.agents| && tag in Step(r, ev).world.agents[a].tags
      ensures tag in HeldBySomebody(r.world) + Proposed(ev)
    {
      StepMovesTags(r, ev, a);
    }
  }

  // Every tag in a program came from the user.
  lemma {:induction false} TagsComeFromUser(r: Run, events: seq<Event>)
    requires Valid(r) && AllEnabled(r, events)
    ensures HeldBySomebody(Play(r, events).world) <= HeldBySomebody(r.world) + EverProposed(events)
    decreases |events|
  {
    hide Valid, Enabled, Step, HeldBySomebody, Proposed;
    if events != [] {
      StepInventsNoTags(r, events[0]);
      StepKeepsValid(r, events[0]);
      TagsComeFromUser(Step(r, events[0]), events[1..]);
    }
  }

  lemma ReachableTagsComeFromUser(events: seq<Event>, a: AgentId)
    requires AllEnabled(Start, events) && Play(Start, events).world.IsAgent(a)
    ensures Play(Start, events).world.agents[a].tags <= EverProposed(events)
  {
    StartIsValid();
    TagsComeFromUser(Start, events);
    assert HeldBySomebody(Start.world) == {};
    hide Valid, Enabled, AllEnabled, Play;
    var w := Play(Start, events).world;
    forall tag | tag in w.agents[a].tags
      ensures tag in EverProposed(events)
    {
      assert tag in HeldBySomebody(w);
    }
  }
}
