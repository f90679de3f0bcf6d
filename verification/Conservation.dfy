// What follows for whole runs: messages are neither lost nor duplicated, and forks are frozen.
module Conservation {
  import opened Common
  import opened AccessIds
  import opened World
  import opened Transition
  import opened Routing
  import opened History
  import opened Memories
  import opened Runs

  // ----- each record is remembered once by each party

  lemma ContributionCount(e: LogEntry, a: AgentId, id: Int64)
    requires Issued(e.id) && Issued(id)
    ensures Count(Contribution(e, a), id) == if e.id == id && a == e.from then 1 else 0
    ensures Count(Contribution(e, a), MarkReceiving(id)) == if e.id == id && a == e.to && e.action != DATA then 1 else 0
  {
    ReceivingLaws(id, e.id);
    ReceivingLaws(e.id, id);
    var own, got := if a == e.from then [e.id] else [], if a == e.to then [MarkReceiving(e.id)] else [];
    CountAppend(own, got, id);
    CountAppend(own, got, MarkReceiving(id));
    CountOne(e.id, id);
    CountOne(e.id, MarkReceiving(id));
    CountOne(MarkReceiving(e.id), id);
    CountOne(MarkReceiving(e.id), MarkReceiving(id));
  }

  lemma CountOne(x: Int64, y: Int64)
    ensures Count([x], y) == if x == y then 1 else 0
  {
    assert [x][..0] == [];
  }

  predicate IdsOk(log: seq<LogEntry>) {
    forall i :: 0 <= i < |log| ==> Issued(log[i].id)
  }

  lemma {:induction false} AbsentCount(log: seq<LogEntry>, a: AgentId, t: ThreadId, id: Int64)
    requires IdsOk(log) && Issued(id) && forall i :: 0 <= i < |log| ==> log[i].id != id
    ensures Count(MemoryFrom(log, a), id) == 0 && Count(MemoryFrom(log, a), MarkReceiving(id)) == 0
    ensures Count(TraceFrom(log, t), id) == 0
    decreases |log|
  {
    hide Issued, MarkReceiving, Contribution, Count;
    if log == [] {
      CountNothing(id);
      CountNothing(MarkReceiving(id));
    } else {
      AbsentCount(log[..|log| - 1], a, t, id);
      MemoryCountStep(log, a, id);
      TraceCountStep(log, t, id);
    }
  }

  lemma CountNothing(x: Int64)
    ensures Count([], x) == 0
  {
  }

  lemma MemoryCountStep(log: seq<LogEntry>, a: AgentId, id: Int64)
    requires log != [] && IdsOk(log) && Issued(id)
    ensures var shorter, last := log[..|log| - 1], log[|log| - 1];
            && Count(MemoryFrom(log, a), id) ==
               Count(MemoryFrom(shorter, a), id) + (if last.id == id && a == last.from then 1 else 0)
            && Count(MemoryFrom(log, a), MarkReceiving(id)) ==
               Count(MemoryFrom(shorter, a), MarkReceiving(id)) +
               (if last.id == id && a == last.to && last.action != DATA then 1 else 0)
  {
    hide Issued, MarkReceiving, Contribution, Count;
    var shorter, last := log[..|log| - 1], log[|log| - 1];
    ContributionCount(last, a, id);
    CountAppend(MemoryFrom(shorter, a), Contribution(last, a), id);
    CountAppend(MemoryFrom(shorter, a), Contribution(last, a), MarkReceiving(id));
  }

  lemma TraceCountStep(log: seq<LogEntry>, t: ThreadId, id: Int64)
    requires log != []
    ensures var shorter, last := log[..|log| - 1], log[|log| - 1];
            Count(TraceFrom(log, t), id) == Count(TraceFrom(shorter, t), id)
            + (if last.id == id && t == last.thread && last.action != DATA then 1 else 0)
  {
    hide Count;
    var shorter, last := log[..|log| - 1], log[|log| - 1];
    CountOne(last.id, id);
    CountAppend(TraceFrom(shorter, t), [last.id], id);
    assert TraceFrom(shorter, t) + [] == TraceFrom(shorter, t);
  }

  // How often a record's id shows up in a memory and in a trace, the log's ids being distinct.
  lemma {:induction false} EntryCount(log: seq<LogEntry>, a: AgentId, t: ThreadId, i: nat)
    requires IdsOk(log) && i < |log| && forall k, l :: 0 <= k < l < |log| ==> log[k].id < log[l].id
    ensures var e := log[i];
            && Count(MemoryFrom(log, a), e.id) == (if a == e.from then 1 else 0)
            && Count(MemoryFrom(log, a), MarkReceiving(e.id)) == (if a == e.to && e.action != DATA then 1 else 0)
            && Count(TraceFrom(log, t), e.id) == (if t == e.thread && e.action != DATA then 1 else 0)
    decreases |log|
  {
    hide Issued, MarkReceiving, MemoryFrom, TraceFrom, Count;
    var shorter, last := log[..|log| - 1], log[|log| - 1];
    MemoryCountStep(log, a, log[i].id);
    TraceCountStep(log, t, log[i].id);
    if i < |log| - 1 {
      EntryCount(shorter, a, t, i);
      assert log[i].id < last.id;
    } else {
      AbsentCount(shorter, a, t, last.id);
    }
  }

  // Every routed record is in exactly one trace, once unmarked in its sender's memory and once marked in its
  // recipient's, and nowhere else; a DATA record is only in its producer's memory, unmarked.
  lemma {:induction false} MessagesAreConserved(r: Run, i: nat, a: AgentId, t: ThreadId)
    requires Valid(r) && i < |r.log| && r.world.IsAgent(a) && r.world.IsThread(t)
    ensures var e := r.log[i];
            && Count(r.world.agents[a].memory, e.id) == (if a == e.from then 1 else 0)
            && Count(r.world.agents[a].memory, MarkReceiving(e.id)) == (if a == e.to && e.action != DATA then 1 else 0)
            && Count(r.world.threads[t].trace, e.id) == (if t == e.thread && e.action != DATA then 1 else 0)
            && MarkReceiving(e.id) != e.id
  {
    EntryCount(r.log, a, t, i);
    ReceivingLaws(r.log[i].id, r.log[i].id);
  }

  // ----- forks over runs

  lemma {:induction false} StepIsLater(r: Run, ev: Event)
    requires Valid(r) && Enabled(r, ev)
    ensures Later(r.world, Step(r, ev).world, r.next) && r.next <= Step(r, ev).next
  {
    match ev
    case Sends(from, msg, id) =>
      SendsIs(r, from, msg, id);
      PreparedIsLater(r, from, msg);
      var p := Prepared(r, from, msg);
      var ctx := Classify(r.world, from, msg).context;
      PreparedIsValid(r, from, msg);
      ApplyKeepsMemory(p.world, id, StampedTags(r.world, from, msg), ctx, r.next);
      hide Valid, ApplyMessage, Prepared, Enabled;
      LaterTrans(r.world, p.world, Step(r, ev).world, r.next);
    case Commits(op) => CommitKeepsMemory(r.world, op, r.next);
    case Dies(a, id) =>
      DeathIs(r, a, id);
      ApplyKeepsMemory(r.world, id, {}, DeathContext(r.world, a), r.next);
  }

  lemma PreparedIsLater(r: Run, from: AgentId, msg: Message)
    requires Valid(r) && r.world.IsThread(msg.threadId) && Readable(r.world, msg.threadId)
    requires CommitAllOk(r.world, Classify(r.world, from, msg).ops)
    ensures Later(r.world, Prepared(r, from, msg).world, r.next)
  {
    ClassifyOps(r.world, from, msg, r.next);
    var ops := Classify(r.world, from, msg).ops;
    if ops != [] {
      CommitKeepsMemory(r.world, ops[0], r.next);
    }
  }

  lemma LaterTrans(w0: World, w1: World, w2: World, bound: int)
    requires Later(w0, w1, bound) && Later(w1, w2, bound)
    ensures Later(w0, w2, bound)
  {
    forall a | 0 <= a < |w0.agents|
      ensures w2.agents[a].memory[..|w0.agents[a].memory|] == w0.agents[a].memory
      ensures forall i :: |w0.agents[a].memory| <= i < |w2.agents[a].memory| ==>
                bound <= UnmarkReceiving(w2.agents[a].memory[i])
    {
      var m0, m1, m2 := w0.agents[a].memory, w1.agents[a].memory, w2.agents[a].memory;
      assert m2[..|m0|] == m2[..|m1|][..|m0|];
      forall i | |m0| <= i < |m2|
        ensures bound <= UnmarkReceiving(m2[i])
      {
        if i < |m1| { assert m2[i] == m2[..|m1|][i]; }
      }
    }
  }

  // Whatever happens after a fork, its inherited history is the source's history at the fork.
  lemma {:induction false} ForksStayFrozen(r: Run, events: seq<Event>, link: AgentLink)
    requires Valid(r) && AllEnabled(r, events) && LinkOk(r.world, link, r.next)
    ensures Valid(Play(r, events))
    ensures link.parent < |Play(r, events).world.agents|
    ensures HistoryAt(Play(r, events).world, link) == HistoryAt(r.world, link)
    decreases |events|
  {
    if events != [] {
      var r' := Step(r, events[0]);
      StepKeepsValid(r, events[0]);
      StepIsLater(r, events[0]);
      ForkIsFrozen(r.world, r'.world, link, r.next);
      ForksStayFrozen(r', events[1..], link);
    }
  }

  // A clone or snapshot taken of agent a now, whenever it is instantiated, begins with a's history as of now.
  lemma {:induction false} ForksBeginWithSourceHistory(r: Run, a: AgentId, events: seq<Event>)
    requires Valid(r) && r.world.IsAgent(a) && AllEnabled(r, events)
    ensures var link := r.world.agents[a].Snapshot("").link;
            var w' := Play(r, events).world;
            && Lineage(w') && link.parent < |w'.agents|
            && HistoryAt(w', link) == HistoryOf(r.world, a)
            && forall b :: 0 <= b < |w'.agents| && w'.agents[b].params.link == link ==>
                 HistoryOf(w', b) == HistoryOf(r.world, a) + w'.agents[b].memory
  {
    ForkStartsWithHistory(r.world, a, r.next);
    ForksStayFrozen(r, events, r.world.agents[a].Snapshot("").link);
  }
}
