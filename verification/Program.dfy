// The program as the runtime holds it: tables updated in place, one record at a time.
module ProgramState {
  import opened Common
  import opened AccessIds
  import opened World
  import opened Transition
  import opened Accounting
  import opened Runs
  import opened Records

  class Program {
    var domains: seq<Domain>
    var agents: seq<Agent>
    var snapshots: map<string, Snapshot>
    var threads: seq<Thread>

    function State(): World
      reads this
    {
      World(domains, agents, snapshots, threads)
    }

    constructor ()
      ensures State() == InitialWorld()
    {
      domains, agents, snapshots, threads := [], [], map[], [];
      new;
      Populate();
    }

    // The global domain with its three agents, entered by the user, and the first thread.
    method Populate()
      requires domains == [] && agents == [] && snapshots == map[] && threads == []
      modifies this
      ensures State() == InitialWorld()
    {
      hide AddAgents, FindMember;
      domains := [Domain(GLOBAL, "global", None, 0, false, Entry(0, 0), [], map[])];
      var zero := Populated(AgentParams(AgentLink(NOT_AN_AGENT, NO_ACCESS_ID), "zero", "", "", {}));
      var runtime := Populated(agents[zero].Snapshot("runtime"));
      var user := Populated(agents[zero].Snapshot("user"));
      agents := agents[user := agents[user].(
        params := agents[user].params.(flags := agents[user].params.flags + {Catch, Threading}))];
      domains := domains[GLOBAL := domains[GLOBAL].(entry := Entry(user, zero))];
      var t := CreateThread(GLOBAL);
      assert State().domains[0].members == InitialWorld().domains[0].members;
      assert agents[zero] == InitialWorld().agents[0] && agents[runtime] == InitialWorld().agents[1];
      assert agents[user] == InitialWorld().agents[2];
    }

    // An agent of the global domain, while that is the only domain.
    method Populated(params: AgentParams) returns (a: AgentId)
      requires |domains| == 1 && forall i :: 0 <= i < |domains[0].members| ==> domains[0].members[i].0 != params.name
      modifies this`agents, this`domains
      ensures a == |old(agents)| && agents == old(agents) + [Agent(a, params, GLOBAL, [], {}, 0)]
      ensures domains == [old(domains)[0].(members := old(domains)[0].members + [(params.name, a)])]
    {
      NoMemberFound(domains[0].members, params.name);
      AddOne(State(), params, GLOBAL);
      a := CreateAgent(params, GLOBAL);
    }

    // ----- structure

    method CreateAgent(params: AgentParams, d: DomainId) returns (a: AgentId)
      requires d < |domains| && FindMember(domains[d].members, params.name).None?
      modifies this`agents, this`domains
      ensures a == |old(agents)| && State() == AddAgents(old(State()), [params], d)
    {
      a := |agents|;
      agents := agents + [Agent(a, params, d, [], {}, 0)];
      domains := domains[d := domains[d].(members := domains[d].members + [(params.name, a)])];
      AddOne(old(State()), params, d);
    }

    method CreateDomain(name: string, parent: DomainId) returns (d: DomainId)
      requires parent < |domains| && name !in domains[parent].children
      modifies this`domains
      ensures d == |old(domains)| && State() == AddDomain(old(State()), name, parent)
    {
      d := |domains|;
      var child := Domain(d, name, Some(parent), domains[parent].thread, false, Entry(USER, RUNTIME), [], map[]);
      domains := domains + [child];
      domains := domains[parent := domains[parent].(children := domains[parent].children[name := d])];
    }

    method CreateSnapshotDomain(s: Snapshot, parent: DomainId) returns (d: DomainId)
      requires parent < |domains| && DefaultDomainName(State()) !in domains[parent].children && Instantiable(s)
      modifies this`agents, this`domains
      ensures d == |old(domains)| && State() == AddSnapshotDomain(old(State()), s, parent)
    {
      hide AddAgents, AddDomain, IndexOfName, FindMember, DistinctNames;
      NewDomainIsEmpty(State(), DefaultDomainName(State()), parent);
      d := CreateDomain(DefaultDomainName(State()), parent);
      ghost var w1 := State();
      CreateMembers(s.members, d);
      FoundAt(w1, s.members, d, s.entryFrom);
      FoundAt(w1, s.members, d, s.entryTo);
      var from := FindMember(domains[d].members, s.entryFrom);
      var to := FindMember(domains[d].members, s.entryTo);
      domains := domains[d := domains[d].(entry := Entry(from.value, to.value))];
    }

    method CreateMembers(params: seq<AgentParams>, d: DomainId)
      requires d < |domains| && domains[d].members == [] && DistinctNames(params)
      modifies this`agents, this`domains
      ensures State() == AddAgents(old(State()), params, d)
    {
      ghost var w := State();
      var i := 0;
      AddNone(w, d);
      while i < |params|
        invariant 0 <= i <= |params|
        invariant d < |domains| && State() == AddAgents(w, params[..i], d)
      {
        NoSuchMemberYet(w, params, d, i);
        AddOneMore(w, params, d, i);
        hide AddAgents;
        var a := CreateAgent(params[i], d);
        i := i + 1;
      }
      assert params[..i] == params;
    }

    method CreateThread(d: DomainId) returns (t: ThreadId)
      requires d < |domains| && !domains[d].detached
      modifies this`threads, this`domains
      ensures t == |old(threads)| && State() == CommitOp(old(State()), Op.CreateThread(d))
    {
      t := |threads|;
      threads := threads + [Thread(t, d, false, [], [])];
      domains := domains[d := domains[d].(thread := t, detached := true)];
    }

    method CreateSnapshot(name: string, d: DomainId)
      requires DomainReadable(State(), d) && name !in snapshots
      modifies this`snapshots
      ensures State() == CommitOp(old(State()), Op.CreateSnapshot(name, d))
    {
      var members: seq<AgentParams> := [];
      var i := 0;
      while i < |domains[d].members|
        invariant 0 <= i <= |domains[d].members|
        invariant members == MemberParams(State(), domains[d].members)[..i]
        invariant State() == old(State())
      {
        members := members + [agents[domains[d].members[i].1].Snapshot("")];
        i := i + 1;
      }
      assert members == MemberParams(State(), domains[d].members);
      var entry := domains[d].entry;
      snapshots := snapshots[name := Snapshot(name, members, agents[entry.from].params.name,
          agents[entry.to].params.name)];
    }

    method Commit(op: Op) returns (r: EntityRef)
      requires CommitOk(State(), op)
      modifies this
      ensures State() == CommitOp(old(State()), op)
      ensures match op
              case CreateAgent(_, _) => r == AgentRef(|old(agents)|)
              case CreateDomain(_, _) => r == DomainRef(|old(domains)|)
              case CreateDomainFromSnapshot(_, _) => r == DomainRef(|old(domains)|)
              case CreateSnapshot(name, _) => r == SnapshotRef(name)
              case CreateThread(_) => r == ThreadRef(|old(threads)|)
    {
      match op {
        case CreateAgent(params, d) =>
          var a := CreateAgent(params, d);
          r := AgentRef(a);
        case CreateDomain(name, p) =>
          var d := CreateDomain(name, p);
          r := DomainRef(d);
        case CreateDomainFromSnapshot(p, name) =>
          var d := CreateSnapshotDomain(snapshots[name], p);
          r := DomainRef(d);
        case CreateSnapshot(name, d) =>
          CreateSnapshot(name, d);
          r := SnapshotRef(name);
        case CreateThread(d) =>
          var t := CreateThread(d);
          r := ThreadRef(t);
      }
    }

    // ----- routed records

    method PushFrame(t: ThreadId, f: Frame)
      requires t < |threads| && f.to.agent < |agents|
      modifies this`threads, this`agents
      ensures threads == old(threads)[t := old(threads)[t].(stack := old(threads)[t].stack + [f])]
      ensures agents == old(agents)[f.to.agent :=
                old(agents)[f.to.agent].(obligations := old(agents)[f.to.agent].obligations + 1)]
    {
      threads := threads[t := threads[t].(stack := threads[t].stack + [f])];
      agents := agents[f.to.agent := agents[f.to.agent].(obligations := agents[f.to.agent].obligations + 1)];
    }

    method PopFrame(t: ThreadId, answering: AgentId) returns (f: Frame)
      requires t < |threads| && threads[t].stack != [] && answering < |agents|
      modifies this`threads, this`agents
      ensures f == old(threads)[t].stack[|old(threads)[t].stack| - 1]
      ensures threads == old(threads)[t :=
                old(threads)[t].(stack := old(threads)[t].stack[..|old(threads)[t].stack| - 1])]
      ensures agents == old(agents)[answering :=
                old(agents)[answering].(obligations := old(agents)[answering].obligations - 1)]
    {
      var stack := threads[t].stack;
      f := stack[|stack| - 1];
      threads := threads[t := threads[t].(stack := stack[..|stack| - 1])];
      agents := agents[answering := agents[answering].(obligations := agents[answering].obligations - 1)];
    }

    // Pops frames until the agent waiting can catch, or none is left.
    method RewindOne(t: ThreadId, ghost w: World, ghost from: AgentId, ghost to: AgentId) returns (next: AgentId)
      requires Unwound(w, t, from, to, threads, agents)
      requires threads[t].stack != [] && Catch !in agents[to].params.flags
      modifies this`threads, this`agents
      ensures Unwound(w, t, from, next, threads, agents)
      ensures t < |threads| && next < |agents| && |threads[t].stack| < |old(threads)[t].stack|
    {
      UnwoundStep(w, t, from, to, threads, agents);
      hide Unwound;
      var f := PopFrame(t, threads[t].stack[|threads[t].stack| - 1].to.agent);
      next := f.from.agent;
    }

    method Rewind(t: ThreadId, from: AgentId) returns (to: AgentId)
      requires t < |threads| && from < |agents|
      requires forall i :: 0 <= i < |threads[t].stack| ==>
                 threads[t].stack[i].from.agent < |agents| && threads[t].stack[i].to.agent < |agents|
      modifies this`threads, this`agents
      ensures var stack, k := old(threads)[t].stack, Kept(old(State()), old(threads)[t].stack, from);
              && threads == old(threads)[t := old(threads)[t].(stack := stack[..k])]
              && to == (if k == |stack| then from else stack[k].from.agent)
              && Settled(old(agents), stack[k..], agents)
    {
      hide Unwound, Settled, Kept;
      ghost var w := State();
      to := from;
      UnwoundStart(w, t, from);
      while !(Catch in agents[to].params.flags) && threads[t].stack != []
        invariant Unwound(w, t, from, to, threads, agents)
        invariant t < |threads| && to < |agents|
        decreases if t < |threads| then |threads[t].stack| else 0
      {
        to := RewindOne(t, w, from, to);
      }
      UnwoundEnd(w, t, from, to, threads, agents);
    }

    // One record with its journal id; returns whom it is for.
    method Apply(j: Journalled) returns (r: EntityRef)
      requires RecordOk(State(), j.record)
      modifies this
      ensures State() == ApplyRecord(old(State()), j)
      ensures j.record.MessageRecord? ==> r == Delivery(old(State()), LoadContext(old(State()), j.record.context))
    {
      match j.record {
        case CommitRecord(op) =>
          r := Commit(op);
        case MessageRecord(_, tags, c) =>
          r := ApplyRouted(j.id, tags, LoadContext(State(), c));
      }
    }

    method ApplyRouted(id: Int64, tags: set<string>, ctx: Context) returns (r: EntityRef)
      requires Applicable(State(), ctx)
      modifies this`agents, this`threads
      ensures State() == ApplyMessage(old(State()), id, tags, ctx)
      ensures r == Delivery(old(State()), ctx)
    {
      ghost var w := State();
      var t, from := ctx.thread, ctx.from.agent;
      if ctx.action == DATA {
        agents := agents[from := agents[from].(memory := agents[from].memory + [id])];
        r := Nothing;
        assert threads == threads[t := threads[t]];
        return;
      }
      var to := MoveFrames(id, ctx);
      RecipientInRange(w, ctx);
      Note(t, from, to, id, if ctx.action == REWIND then {} else tags);
      r := AgentRef(to);
      hide ObligationChange, Recipient, StackAfter, Applicable, Remembered;
      assert forall a :: 0 <= a < |agents| ==> agents[a] == AgentAfter(w, a, id, tags, ctx);
    }

    // The call stack and the obligation counts; returns the recipient.
    method MoveFrames(id: Int64, ctx: Context) returns (to: AgentId)
      requires Applicable(State(), ctx) && ctx.action != DATA
      modifies this`agents, this`threads
      ensures to == Recipient(old(State()), ctx)
      ensures threads == old(threads)[ctx.thread :=
                old(threads)[ctx.thread].(stack := StackAfter(old(State()), id, ctx))]
      ensures Charged(old(State()), ctx, agents)
    {
      ghost var w := State();
      FramesInRange(w, ctx.thread);
      if ctx.action == RETURN {
        var f := PopFrame(ctx.thread, ctx.from.agent);
        to := f.from.agent;
      } else if ctx.action == CALL {
        PushFrame(ctx.thread, Frame(id, ctx.from, ctx.to.value));
        to := ctx.to.value.agent;
      } else {
        hide Kept, Callees;
        to := Rewind(ctx.thread, ctx.from.agent);
      }
    }

    // The tags offered with a record go to its sender and its recipient.
    method MergeTags(from: AgentId, to: AgentId, tags: set<string>)
      requires from < |agents| && to < |agents|
      modifies this`agents
      ensures |agents| == |old(agents)|
      ensures forall a :: 0 <= a < |agents| ==>
                agents[a] == old(agents)[a].(tags := old(agents)[a].tags + (if a == from || a == to then tags else {}))
    {
      agents := agents[from := agents[from].(tags := agents[from].tags + tags)];
      agents := agents[to := agents[to].(tags := agents[to].tags + tags)];
    }

    method Trace(t: ThreadId, from: AgentId, to: AgentId, id: Int64)
      requires t < |threads|
      modifies this`threads
      ensures threads == old(threads)[t := old(threads)[t].(
                trace := old(threads)[t].trace + [id], pending := PendingAfter(old(threads)[t].pending, from, to))]
    {
      threads := threads[t := threads[t].(trace := threads[t].trace + [id])];
      if from == USER && to != USER {
        threads := threads[t := threads[t].(pending := true)];
      } else if to == USER {
        threads := threads[t := threads[t].(pending := false)];
      }
    }

    method Remember(from: AgentId, to: AgentId, id: Int64)
      requires from < |agents| && to < |agents|
      modifies this`agents
      ensures |agents| == |old(agents)|
      ensures forall a :: 0 <= a < |agents| ==>
                agents[a] == old(agents)[a].(memory := old(agents)[a].memory + Remembered(a, id, from, to))
    {
      agents := agents[from := agents[from].(memory := agents[from].memory + [id])];
      agents := agents[to := agents[to].(memory := agents[to].memory + [MarkReceiving(id)])];
    }

    // Tags, trace, pending flag and memories, for every routed record.
    method Note(t: ThreadId, from: AgentId, to: AgentId, id: Int64, tags: set<string>)
      requires t < |threads| && from < |agents| && to < |agents|
      modifies this`agents, this`threads
      ensures threads == old(threads)[t := old(threads)[t].(
                trace := old(threads)[t].trace + [id], pending := PendingAfter(old(threads)[t].pending, from, to))]
      ensures |agents| == |old(agents)|
      ensures forall a :: 0 <= a < |agents| ==>
                agents[a] == old(agents)[a].(
                  tags := old(agents)[a].tags + (if a == from || a == to then tags else {}),
                  memory := old(agents)[a].memory + Remembered(a, id, from, to))
    {
      MergeTags(from, to, tags);
      Trace(t, from, to, id);
      hide Remembered, PendingAfter;
      Remember(from, to, id);
    }
  }

  // ----- obligations during a rewind

  ghost predicate Charged(w: World, ctx: Context, after: seq<Agent>)
    requires Applicable(w, ctx)
  {
    && |after| == |w.agents|
    && forall a :: 0 <= a < |after| ==>
         after[a] == w.agents[a].(obligations := w.agents[a].obligations + ObligationChange(w, ctx, a))
  }

  lemma RecipientInRange(w: World, ctx: Context)
    requires Applicable(w, ctx)
    ensures w.IsAgent(Recipient(w, ctx))
  {
    FramesInRange(w, ctx.thread);
  }

  // after is before, less one obligation per dropped frame for its callee.
  ghost predicate Settled(before: seq<Agent>, dropped: seq<Frame>, after: seq<Agent>) {
    && |after| == |before|
    && forall a :: 0 <= a < |before| ==>
         after[a] == before[a].(obligations := before[a].obligations - Callees(dropped, a))
  }

  lemma SettledKeepsFlags(was: seq<Agent>, frames: seq<Frame>, agents: seq<Agent>)
    requires Settled(was, frames, agents)
    ensures |agents| == |was| && forall a :: 0 <= a < |was| ==> agents[a].params == was[a].params
  {
  }

  lemma KeptSkips(w: World, stack: seq<Frame>, to: AgentId)
    requires stack != [] && !w.HasFlag(to, Catch)
    ensures Kept(w, stack, to) == Kept(w, stack[..|stack| - 1], stack[|stack| - 1].from.agent)
  {
  }

  lemma KeptHere(w: World, stack: seq<Frame>, to: AgentId)
    requires stack == [] || w.HasFlag(to, Catch)
    ensures Kept(w, stack, to) == |stack|
  {
  }

  // A rewind under way: the frames dropped so far are settled, and what is left rewinds to the same depth.
  ghost predicate Unwound(w: World, t: ThreadId, from: AgentId, to: AgentId, threads: seq<Thread>, agents: seq<Agent>) {
    && w.IsThread(t) && t < |threads| && to < |agents|
    && var stack, left := w.threads[t].stack, threads[t].stack;
    && |left| <= |stack| && left == stack[..|left|] && threads == w.threads[t := w.threads[t].(stack := left)]
    && to == (if |left| == |stack| then from else stack[|left|].from.agent)
    && Kept(w, stack, from) == Kept(w, left, to)
    && Settled(w.agents, stack[|left|..], agents)
    && forall i :: 0 <= i < |stack| ==> stack[i].from.agent < |w.agents| && stack[i].to.agent < |w.agents|
  }

  lemma UnwoundStart(w: World, t: ThreadId, from: AgentId)
    requires w.IsThread(t) && w.IsAgent(from)
    requires forall i :: 0 <= i < |w.threads[t].stack| ==>
               w.threads[t].stack[i].from.agent < |w.agents| && w.threads[t].stack[i].to.agent < |w.agents|
    ensures Unwound(w, t, from, from, w.threads, w.agents)
  {
    var stack := w.threads[t].stack;
    assert stack[..|stack|] == stack && stack[|stack|..] == [];
    SettleNone(w.agents);
  }

  lemma UnwoundStep(w: World, t: ThreadId, from: AgentId, to: AgentId, threads: seq<Thread>, agents: seq<Agent>)
    requires Unwound(w, t, from, to, threads, agents) && threads[t].stack != [] && Catch !in agents[to].params.flags
    ensures var left := threads[t].stack;
            var f := left[|left| - 1];
            && f.to.agent < |agents| && f.from.agent < |agents|
            && Unwound(w, t, from, f.from.agent, threads[t := threads[t].(stack := left[..|left| - 1])],
                       agents[f.to.agent := agents[f.to.agent].(obligations := agents[f.to.agent].obligations - 1)])
  {
    var stack, n := w.threads[t].stack, |threads[t].stack| - 1;
    SettledKeepsFlags(w.agents, stack[n + 1..], agents);
    hide Kept, Settled;
    assert stack[..n + 1][..n] == stack[..n];
    SettleOne(w.agents, stack, n, agents);
    KeptSkips(w, stack[..n + 1], to);
  }

  lemma UnwoundEnd(w: World, t: ThreadId, from: AgentId, to: AgentId, threads: seq<Thread>, agents: seq<Agent>)
    requires Unwound(w, t, from, to, threads, agents) && (threads[t].stack == [] || Catch in agents[to].params.flags)
    ensures var stack, k := w.threads[t].stack, Kept(w, w.threads[t].stack, from);
            && threads == w.threads[t := w.threads[t].(stack := stack[..k])]
            && to == (if k == |stack| then from else stack[k].from.agent)
            && Settled(w.agents, stack[k..], agents)
  {
    KeptHere(w, threads[t].stack, to);
  }

  lemma SettleNone(agents: seq<Agent>)
    ensures Settled(agents, [], agents)
  {
  }

  lemma SettleOne(before: seq<Agent>, stack: seq<Frame>, n: nat, after: seq<Agent>)
    requires n < |stack| && Settled(before, stack[n + 1..], after) && stack[n].to.agent < |after|
    ensures var c := stack[n].to.agent;
            Settled(before, stack[n..], after[c := after[c].(obligations := after[c].obligations - 1)])
  {
    forall a | 0 <= a < |before|
      ensures Callees(stack[n..], a) == Callees(stack[n + 1..], a) + (if stack[n].to.agent == a then 1 else 0)
    {
      CalleesSplit(stack[n..], 1, a);
      assert stack[n..][1..] == stack[n + 1..];
      assert stack[n..][..1] == [stack[n]] && [stack[n]][..0] == [];
    }
  }

  lemma FramesInRange(w: World, t: ThreadId)
    requires w.IsThread(t) && forall f <- w.threads[t].stack :: FrameInRange(w, f)
    ensures forall i :: 0 <= i < |w.threads[t].stack| ==>
              w.threads[t].stack[i].from.agent < |w.agents| && w.threads[t].stack[i].to.agent < |w.agents|
  {
    assert forall i :: 0 <= i < |w.threads[t].stack| ==> FrameInRange(w, w.threads[t].stack[i]);
  }

  // ----- the snapshot loop

  lemma NewDomainIsEmpty(w: World, name: string, p: DomainId)
    requires w.IsDomain(p)
    ensures var w' := AddDomain(w, name, p);
            |w'.domains| == |w.domains| + 1 && w'.domains[|w.domains|].members == [] && w'.agents == w.agents
  {
  }

  lemma AddNone(w: World, d: DomainId)
    requires w.IsDomain(d)
    ensures AddAgents(w, [], d) == w
  {
    var w' := AddAgents(w, [], d);
    assert w'.agents == w.agents;
    assert w'.domains[d].members == w.domains[d].members;
    assert w'.domains == w.domains;
  }

  lemma NoMemberFound(members: seq<(string, AgentId)>, name: string)
    requires forall i :: 0 <= i < |members| ==> members[i].0 != name
    ensures FindMember(members, name).None?
  {
  }

  lemma AddOne(w: World, params: AgentParams, d: DomainId)
    requires w.IsDomain(d)
    ensures AddAgents(w, [params], d) ==
            w.(agents := w.agents + [NewAgent(|w.agents|, params, d)],
               domains := w.domains[d := w.domains[d].(members := w.domains[d].members + [(params.name, |w.agents|)])])
  {
    var w' := AddAgents(w, [params], d);
    assert w'.agents == w.agents + [NewAgent(|w.agents|, params, d)];
    assert w'.domains[d].members == w.domains[d].members + [(params.name, |w.agents|)];
    assert w'.domains == w.domains[d := w.domains[d].(members := w.domains[d].members + [(params.name, |w.agents|)])];
  }

  lemma AddOneMore(w: World, params: seq<AgentParams>, d: DomainId, i: nat)
    requires w.IsDomain(d) && i < |params|
    ensures AddAgents(AddAgents(w, params[..i], d), [params[i]], d) == AddAgents(w, params[..i + 1], d)
  {
    var w' := AddAgents(AddAgents(w, params[..i], d), [params[i]], d);
    var w'' := AddAgents(w, params[..i + 1], d);
    assert w'.agents == w''.agents;
    assert w'.domains[d].members == w''.domains[d].members;
    assert w'.domains == w''.domains;
  }

  lemma NoSuchMemberYet(w: World, params: seq<AgentParams>, d: DomainId, i: nat)
    requires w.IsDomain(d) && w.domains[d].members == [] && DistinctNames(params) && i < |params|
    ensures FindMember(AddAgents(w, params[..i], d).domains[d].members, params[i].name).None?
  {
    var members := AddAgents(w, params[..i], d).domains[d].members;
    assert forall m <- members :: m.0 != params[i].name;
  }

  lemma NewMembers(w: World, params: seq<AgentParams>, d: DomainId)
    requires w.IsDomain(d) && w.domains[d].members == []
    ensures var w' := AddAgents(w, params, d);
            && w'.IsDomain(d) && |w'.domains[d].members| == |params|
            && forall i :: 0 <= i < |params| ==> w'.domains[d].members[i] == (params[i].name, |w.agents| + i)
  {
  }

  lemma FoundAt(w: World, params: seq<AgentParams>, d: DomainId, name: string)
    requires w.IsDomain(d) && w.domains[d].members == [] && IndexOfName(params, name) < |params|
    ensures AddAgents(w, params, d).IsDomain(d)
    ensures FindMember(AddAgents(w, params, d).domains[d].members, name) == Some(|w.agents| + IndexOfName(params, name))
  {
    hide AddAgents;
    NewMembers(w, params, d);
    FoundFrom(params, name, |w.agents|, AddAgents(w, params, d).domains[d].members);
  }

  lemma {:induction false} FoundFrom(params: seq<AgentParams>, name: string, base: nat, members: seq<(string, AgentId)>)
    requires |members| == |params| && forall i :: 0 <= i < |params| ==> members[i] == (params[i].name, base + i)
    requires IndexOfName(params, name) < |params|
    ensures FindMember(members, name) == Some(base + IndexOfName(params, name))
  {
    if params[0].name != name {
      FoundFrom(params[1..], name, base + 1, members[1..]);
    }
  }
}
