// The runtime's dispatch: it journals and applies each message, lets the runtime agent's handler commit in between,
// and hands records to the observers in their own order.
module RuntimeState {
  import opened Common
  import opened AccessIds
  import opened World
  import opened Transition
  import opened Routing
  import opened Soundness
  import opened Preservation
  import opened Preprocess
  import opened Runs
  import opened Records
  import opened ProgramState
  import opened Mirror
  import opened Commands

  // Framing, header and body of the largest record the journal accepts.
  const MAX_RECORD: int := 16 + 0x10_0000 + 0xFFFF_FFFF
  type Size = n: int | 16 <= n <= MAX_RECORD witness 16

  predicate AreCommits(entries: seq<Journalled>, ops: seq<Op>) {
    |entries| == |ops| && forall i :: 0 <= i < |ops| ==> entries[i].record == CommitRecord(ops[i])
  }

  predicate Increasing(log: seq<Journalled>, end: int) {
    && (forall i :: 0 <= i < |log| ==> Issued(log[i].id) && log[i].id < end)
    && (forall i, j :: 0 <= i < j < |log| ==> log[i].id < log[j].id)
  }

  // A journal that rebuilds the given program.
  predicate Rebuilds(log: seq<Journalled>, w: World) {
    ReplayOk(InitialWorld(), log) && Replay(InitialWorld(), log) == w
  }

  class Runtime {
    const program: Program
    const size: Record -> Size          // what a record takes up in the journal
    var journal: seq<Journalled>
    var consumed: seq<Journalled>       // handed to the observers
    var offset: int                     // where the next record goes

    // Ids grow with the journal, and the next one lies beyond them.
    ghost predicate Numbered()
      reads this
    {
      Increasing(journal, offset)
    }

    // Live state is the replay of the journal, and so is what the observers have been handed.
    ghost predicate Valid()
      reads this, program
    {
      && offset >= 0 && Numbered() && Sound(program.State())
      && Rebuilds(journal, program.State()) && Rebuilds(consumed, program.State())
    }

    predicate Room(records: nat)
      reads this
    {
      0 <= offset && Issued(offset + records * MAX_RECORD)
    }

    // Starts from what the journal replays: each old record is applied, and handed to the observers.
    constructor (size: Record -> Size, past: seq<Journalled>, start: int)
      requires 0 <= start && Increasing(past, start)
      requires ReplayOk(InitialWorld(), past) && Sound(Replay(InitialWorld(), past))
      ensures Valid() && journal == consumed == past && offset == start && fresh(program)
      ensures program.State() == Replay(InitialWorld(), past)
    {
      this.size := size;
      program := new Program();
      journal, consumed, offset := past, [], start;
      new;
      hide Replay, ReplayOk, ApplyRecord, RecordOk, InitialWorld, Sound;
      var i := 0;
      assert past[..0] == [] && past[0..] == past;
      NothingReplayed();
      while i < |past|
        invariant 0 <= i <= |past| && consumed == past[..i] && journal == past && offset == start
        invariant Rebuilds(past[..i], program.State())
      {
        ReplayNext(past, i, program.State());
        var r := program.Apply(past[i]);
        consumed := consumed + [past[i]];
        i := i + 1;
      }
      assert past[..i] == past;
    }

    method Append(record: Record) returns (id: Int64)
      requires Room(1) && Numbered()
      modifies this`journal, this`offset
      ensures Numbered()
      ensures id == old(offset) && Issued(id) && old(offset) < offset <= old(offset) + MAX_RECORD
      ensures journal == old(journal) + [Journalled(id, record)]
    {
      id := offset;
      journal := journal + [Journalled(id, record)];
      offset := offset + size(record);
    }

    method Syscall(op: Op) returns (r: EntityRef, ghost entry: Journalled)
      requires Room(1) && Numbered() && CommitOk(program.State(), op)
      modifies this, program
      ensures Numbered()
      ensures old(offset) <= offset <= old(offset) + MAX_RECORD
      ensures entry.record == CommitRecord(op)
      ensures journal == old(journal) + [entry] && consumed == old(consumed) + [entry]
      ensures program.State() == CommitOp(old(program.State()), op)
      ensures match op
              case CreateAgent(_, _) => r == AgentRef(|old(program.State()).agents|)
              case CreateDomain(_, _) => r == DomainRef(|old(program.State()).domains|)
              case CreateDomainFromSnapshot(_, _) => r == DomainRef(|old(program.State()).domains|)
              case CreateSnapshot(name, _) => r == SnapshotRef(name)
              case CreateThread(_) => r == ThreadRef(|old(program.State()).threads|)
    {
      var id := Append(CommitRecord(op));
      entry := Journalled(id, CommitRecord(op));
      r := program.Commit(op);
      consumed := consumed + [Journalled(id, CommitRecord(op))];
    }

    method Syscalls(ops: seq<Op>) returns (ghost entries: seq<Journalled>)
      requires Room(|ops|) && Numbered() && CommitAllOk(program.State(), ops)
      modifies this, program
      ensures Numbered()
      ensures AreCommits(entries, ops)
      ensures journal == old(journal) + entries && consumed == old(consumed) + entries
      ensures program.State() == CommitAll(old(program.State()), ops)
      ensures old(offset) <= offset <= old(offset) + |ops| * MAX_RECORD
    {
      hide CommitOp, CommitOk, Increasing;
      entries := [];
      ghost var w := program.State();
      var i := 0;
      assert ops[0..] == ops;
      while i < |ops|
        invariant Numbered() && 0 <= i <= |ops| && old(offset) <= offset <= old(offset) + i * MAX_RECORD
        invariant AreCommits(entries, ops[..i])
        invariant journal == old(journal) + entries && consumed == old(consumed) + entries
        invariant CommitAllOk(program.State(), ops[i..])
        invariant CommitAll(program.State(), ops[i..]) == CommitAll(w, ops)
      {
        assert ops[i..][1..] == ops[i + 1..];
        assert Room(1);
        var r, entry := Syscall(ops[i]);
        entries := entries + [entry];
        i := i + 1;
      }
      assert ops[..i] == ops;
    }

    // ----- preprocess

    // Decides what a message does, committing the operations its address calls for.
    method Preprocess(from: AgentId, msg: Message) returns (ctx: Context, ghost entries: seq<Journalled>)
      requires Room(1) && Numbered() && Sound(program.State()) && SenderOk(program.State(), from, msg)
      requires CommitAllOk(program.State(), Classify(program.State(), from, msg).ops)
      modifies this, program
      ensures Numbered()
      ensures ctx == Classify(old(program.State()), from, msg).context
      ensures AreCommits(entries, Classify(old(program.State()), from, msg).ops)
      ensures journal == old(journal) + entries && consumed == old(consumed) + entries
      ensures program.State() == CommitAll(old(program.State()), Classify(old(program.State()), from, msg).ops)
      ensures old(offset) <= offset <= old(offset) + MAX_RECORD
    {
      entries := [];
      var w := program.State();
      var t: ThreadId := msg.threadId;
      var e := w.Expected(t);
      var stack := w.threads[t].stack;
      ctx := Context(REWIND, t, e, None, NoError);
      if e.agent != from {
        ctx := ctx.(error := UnexpectedSender);
        return;
      }
      if msg.isData {
        ctx := ctx.(action := DATA);
        return;
      }
      if msg.InReplyTo() != NO_ACCESS_ID {
        if stack == [] {
          ctx := ctx.(error := ReplyToEmptyStack);
        } else if stack[|stack| - 1].messageId != msg.InReplyTo() {
          ctx := ctx.(error := ReplyMismatch);
        } else {
          ctx := ctx.(action := RETURN);
        }
        return;
      }
      if msg.InResponseTo() != NO_ACCESS_ID {
        if stack == [] {
          ctx := ctx.(error := RespondToEmptyStack);
          return;
        }
        if stack[|stack| - 1].messageId != msg.InResponseTo() {
          ctx := ctx.(error := RespondMismatch);
          return;
        }
      }
      ctx, entries := PreprocessCall(t, msg.To());
    }

    // One operation of preprocess, journalled and applied.
    method CommitFor(op: Op) returns (r: EntityRef, ghost entries: seq<Journalled>)
      requires Room(1) && Numbered() && CommitAllOk(program.State(), [op])
      modifies this, program
      ensures Numbered() && AreCommits(entries, [op])
      ensures journal == old(journal) + entries && consumed == old(consumed) + entries
      ensures program.State() == CommitAll(old(program.State()), [op])
      ensures op.CreateAgent? ==> r == AgentRef(|old(program.State()).agents|)
      ensures op.CreateDomainFromSnapshot? ==> r == DomainRef(|old(program.State()).domains|)
      ensures old(offset) <= offset <= old(offset) + MAX_RECORD
    {
      hide Increasing, CommitOp, CommitOk;
      CommitSingle(program.State(), op);
      ghost var entry;
      r, entry := Syscall(op);
      entries := [entry];
    }

    method PreprocessCall(t: ThreadId, address: string) returns (ctx: Context, ghost entries: seq<Journalled>)
      requires Room(1) && Numbered() && Sound(program.State()) && program.State().IsThread(t)
               && Readable(program.State(), t)
      requires CommitAllOk(program.State(), RouteCall(program.State(), t, address).ops)
      modifies this, program
      ensures Numbered()
      ensures ctx == RouteCall(old(program.State()), t, address).context
      ensures AreCommits(entries, RouteCall(old(program.State()), t, address).ops)
      ensures journal == old(journal) + entries && consumed == old(consumed) + entries
      ensures program.State() == CommitAll(old(program.State()), RouteCall(old(program.State()), t, address).ops)
      ensures old(offset) <= offset <= old(offset) + MAX_RECORD
    {
      hide Increasing, CommitAll, CommitAllOk, Resolve, Sound, CloneParams, FindMember;
      entries := [];
      var w := program.State();
      var e := w.Expected(t);
      ctx := Context(REWIND, t, e, None, NoError);
      var to := Resolve(w, address, e.domain);
      ResolveInScope(w, address, e.domain);
      NoCommits(w);
      match to.target {
        case Nowhere =>
          ctx := ctx.(error := Unresolved);
        case ToAgent(a) =>
          if !to.clone {
            ctx := ctx.(action := CALL, to := Some(Endpoint(a, e.domain)));
          } else if FindMember(w.domains[e.domain].members, CloneName(w, a)).Some? {
            ctx := ctx.(error := CannotCreateAgent);
          } else {
            var r;
            r, entries := CommitFor(CreateAgent(CloneParams(w, a), e.domain));
            ctx := ctx.(action := CALL, to := Some(Endpoint(r.agent, e.domain)));
          }
        case ToDomain(d) =>
          if to.clone {
            ctx := ctx.(error := NotSupported);
          } else {
            ctx := ctx.(action := CALL, to := Some(Endpoint(w.domains[d].entry.to, d)));
          }
        case ToSnapshot(s) =>
          var r;
          r, entries := CommitFor(CreateDomainFromSnapshot(e.domain, s));
          InstanceEntry(w, s, e.domain);
          ctx := ctx.(action := CALL, to := Some(Endpoint(program.domains[r.domain].entry.to, r.domain)));
      }
    }

    // ----- the runtime agent's handler

    // All requests of a batch are checked before the first one is committed.
    method CmdCreateAgents(d: DomainId, qs: seq<AgentRequest>) returns (ok: bool, ghost entries: seq<Journalled>)
      requires Room(|qs|) && Numbered() && Sound(program.State()) && program.State().IsDomain(d)
      requires CommitAllOk(program.State(), RequestOps(program.State(), d, CreateAgents(qs)))
      modifies this, program
      ensures Numbered()
      ensures ok <==> AllJoin(old(program.State()), d, qs)
      ensures Handled(old(program.State()), RequestOps(old(program.State()), d, CreateAgents(qs)), entries,
                program.State())
      ensures journal == old(journal) + entries && consumed == old(consumed) + entries
      ensures old(offset) <= offset <= old(offset) + |qs| * MAX_RECORD
    {
      hide Increasing, Sound, AllJoin, AgentOps;
      entries := [];
      var ops := CheckBatch(program.State(), d, qs);
      ok := ops.Some?;
      if ok {
        entries := Syscalls(ops.value);
      }
    }

    method CmdCreateDomain(d: DomainId, name: Option<string>, detach: bool) returns (ghost entries: seq<Journalled>)
      requires Room(2) && Numbered() && Sound(program.State()) && program.State().IsDomain(d)
      requires CommitAllOk(program.State(), RequestOps(program.State(), d, CreateDomainNamed(name, detach)))
      modifies this, program
      ensures Numbered()
      ensures Handled(old(program.State()), RequestOps(old(program.State()), d, CreateDomainNamed(name, detach)),
                entries, program.State())
      ensures journal == old(journal) + entries && consumed == old(consumed) + entries
      ensures old(offset) <= offset <= old(offset) + 2 * MAX_RECORD
    {
      var w := program.State();
      var chosen := Or(name, DefaultDomainName(w));
      entries := [];
      if chosen in w.domains[d].children {
        return;
      }
      var r, entry := Syscall(CreateDomain(chosen, d));
      entries := [entry];
      if detach {
        CommitTwo(w, CreateDomain(chosen, d), CreateThread(r.domain));
        var r', entry' := Syscall(CreateThread(r.domain));
        entries := [entry, entry'];
      }
    }

    method CmdCreateSnapshot(d: DomainId, name: string, child: string) returns (ghost entries: seq<Journalled>)
      requires Room(1) && Numbered() && Sound(program.State()) && program.State().IsDomain(d)
      requires CommitAllOk(program.State(), RequestOps(program.State(), d, CreateSnapshotOf(name, child)))
      modifies this, program
      ensures Numbered()
      ensures Handled(old(program.State()), RequestOps(old(program.State()), d, CreateSnapshotOf(name, child)),
                entries, program.State())
      ensures journal == old(journal) + entries && consumed == old(consumed) + entries
      ensures old(offset) <= offset <= old(offset) + MAX_RECORD
    {
      entries := [];
      var w := program.State();
      if name in w.snapshots || child !in w.domains[d].children {
        return;
      }
      var r, entry := Syscall(CreateSnapshot(name, w.domains[d].children[child]));
      entries := [entry];
    }

    method Handle(d: DomainId, request: Request) returns (ghost entries: seq<Journalled>)
      requires Room(Appends(request)) && Numbered() && Sound(program.State()) && program.State().IsDomain(d)
      requires CommitAllOk(program.State(), RequestOps(program.State(), d, request))
      modifies this, program
      ensures Numbered()
      ensures Handled(old(program.State()), RequestOps(old(program.State()), d, request), entries, program.State())
      ensures journal == old(journal) + entries && consumed == old(consumed) + entries
      ensures old(offset) <= offset <= old(offset) + Appends(request) * MAX_RECORD
    {
      entries := [];
      match request {
        case CreateAgents(qs) =>
          var ok;
          ok, entries := CmdCreateAgents(d, qs);
        case CreateDomainNamed(name, detach) => entries := CmdCreateDomain(d, name, detach);
        case CreateSnapshotOf(name, child) => entries := CmdCreateSnapshot(d, name, child);
        case Other =>
      }
    }

    // The runtime agent is handed a call, and answers it by committing what the request leads to.
    method Answer(to: EntityRef, ctx: Context, request: Request) returns (ghost after: seq<Journalled>)
      requires Room(Appends(request)) && Numbered() && Sound(program.State()) && InScope(program.State(), ctx.from)
      requires to == AgentRef(RUNTIME) && ctx.action == CALL ==> ctx.to.Some? && ctx.to.value.agent == RUNTIME
      modifies this, program
      ensures Numbered()
      ensures var w, ops := old(program.State()), Requested(old(program.State()), ctx, to, request);
              && Handled(w, ops, after, program.State()) && Sound(program.State())
              && (ops != [] ==> ctx.action == CALL && ctx.to.Some? && HandlerOps(w, ctx, ops))
      ensures journal == old(journal) + after && consumed == old(consumed) + after
      ensures old(offset) <= offset <= old(offset) + Appends(request) * MAX_RECORD
    {
      hide Increasing, Sound, RequestOps, HandlerIssues, HandlerOps;
      after := [];
      if to == AgentRef(RUNTIME) && ctx.action == CALL {
        ghost var w := program.State();
        RequestIssues(w, ctx, request);
        HandlerIssuesIsHandlerOps(w, ctx, RequestOps(w, ctx.from.domain, request));
        after := Handle(ctx.from.domain, request);
      }
    }

    // ----- dispatch

    // One message: preprocessed, journalled, applied, delivered, and only then handed to the observers. When it calls
    // the runtime agent, the commits of the handler come after it in the journal but before it at the observers.
    method Dispatch(from: AgentId, msg: Message, request: Request)
      returns (to: EntityRef, ghost before: seq<Journalled>, entry: Journalled, ghost after: seq<Journalled>)
      requires Valid() && Room(2 + Appends(request))
      requires SenderOk(program.State(), from, msg)
      requires CommitAllOk(program.State(), Classify(program.State(), from, msg).ops)
      modifies this, program
      ensures Valid()
      ensures journal == old(journal) + before + [entry] + after
      ensures consumed == old(consumed) + before + after + [entry]
      ensures var route := Classify(old(program.State()), from, msg);
              var w := CommitAll(old(program.State()), route.ops);
              && AreCommits(before, route.ops)
              && Applicable(w, route.context) && to == Delivery(w, route.context)
              && entry.record == MessageRecord(StampedMessage(old(program.State()), from, msg),
                   StampedTags(old(program.State()), from, msg), SaveContext(w, route.context))
              && Issued(entry.id) && old(offset) <= entry.id < offset
              && var w' := ApplyMessage(w, entry.id, entry.record.tags, route.context);
              var ops := Requested(w', route.context, to, request);
              && Sound(w') && AreCommits(after, ops) && CommitAllOk(w', ops) && program.State() == CommitAll(w', ops)
    {
      hide Increasing, AreCommits, HandlerOps, InScope, LoadContext, Sound, Classify;
      hide ApplyMessage, Requested, Rebuilds, StampedMessage, StampedTags, Applicable, Faithful, Readable;
      hide CommitAll, CommitAllOk, SaveContext;
      var w0 := program.State();
      var stamped, tags := StampedMessage(w0, from, msg), StampedTags(w0, from, msg);
      var ctx;
      ctx, before := Preprocess(from, msg);
      after := [];
      ghost var w1 := program.State();
      ClassifyIsFaithful(w0, from, msg, w1);
      SoundHasIds(w1);
      LoadAfterSave(w1, ctx);
      var record := MessageRecord(stamped, tags, SaveContext(program.State(), ctx));
      var id := Append(record);
      entry := Journalled(id, record);
      to := program.Apply(Journalled(id, record));
      ghost var w2 := program.State();
      ApplyKeepsSound(w1, id, tags, ctx);
      CallerStaysInScope(w1, id, tags, ctx);
      ghost var ops := Requested(w2, ctx, to, request);
      after := Answer(to, ctx, request);
      consumed := consumed + [Journalled(id, record)];
      BothOrdersRebuild(old(journal), old(consumed), w0, before, Classify(w0, from, msg).ops, entry, ctx, after, ops);
      assert journal == old(journal) + before + [entry] + after;
      assert consumed == old(consumed) + before + after + [entry];
    }

    // The rewind made for an agent whose process has died: journalled, applied, delivered and handed to the observers.
    method DispatchDeath(a: AgentId, rewind: Record) returns (to: EntityRef, entry: Journalled)
      requires Valid() && Room(1) && program.State().IsAgent(a) && rewind == RewindRecord(program.State(), a)
      modifies this, program
      ensures Valid()
      ensures journal == old(journal) + [entry] && consumed == old(consumed) + [entry]
      ensures entry.record == rewind && Issued(entry.id) && old(offset) <= entry.id < offset
      ensures var w := old(program.State());
              && Applicable(w, DeathContext(w, a)) && to == Delivery(w, DeathContext(w, a))
              && program.State() == ApplyMessage(w, entry.id, {}, DeathContext(w, a))
    {
      hide Increasing, Sound, ApplyMessage, Rebuilds, Applicable;
      ghost var w := program.State();
      RewindIsOk(w, a);
      var id := Append(rewind);
      entry := Journalled(id, rewind);
      to := program.Apply(Journalled(id, rewind));
      consumed := consumed + [Journalled(id, rewind)];
      DeathKeepsSound(w, id, a);
      ReplayOne(w, entry);
      RebuildsMore(old(journal), w, [entry]);
      RebuildsMore(old(consumed), w, [entry]);
    }
  }

  // ----- deaths

  // makeRewindMessage: only the thread is named, and the context says who died where.
  function RewindMessage(t: ThreadId): Message {
    Message(false, "", None, None, t, None, None, [], "", "")
  }

  function RewindRecord(w: World, a: AgentId): Record
    requires Sound(w) && w.IsAgent(a)
  {
    DeathIsApplicable(w, a);
    var ctx := DeathContext(w, a);
    MessageRecord(RewindMessage(ctx.thread), {}, SaveContext(w, ctx))
  }

  lemma DeathIsApplicable(w: World, a: AgentId)
    requires Sound(w) && w.IsAgent(a)
    ensures w.IsDomain(w.agents[a].domain) && Applicable(w, DeathContext(w, a))
  {
    DeathKeepsSound(w, 0, a);
  }

  lemma RewindIsOk(w: World, a: AgentId)
    requires Sound(w) && w.IsAgent(a)
    ensures w.IsDomain(w.agents[a].domain) && Applicable(w, DeathContext(w, a))
    ensures var r := RewindRecord(w, a);
            && r.MessageRecord? && r.tags == {} && RecordOk(w, r) && LoadContext(w, r.context) == DeathContext(w, a)
  {
    DeathIsApplicable(w, a);
    SoundHasIds(w);
    LoadAfterSave(w, DeathContext(w, a));
    hide Sound, Applicable, SaveContext, LoadContext, Loadable;
  }

  // What the runtime agent's handler commits once the record has been applied: it answers calls only.
  ghost function Requested(w: World, ctx: Context, to: EntityRef, request: Request): seq<Op> {
    if to == AgentRef(RUNTIME) && ctx.action == CALL && Sound(w) && w.IsDomain(ctx.from.domain)
    then RequestOps(w, ctx.from.domain, request) else []
  }

  // A call delivered to the runtime agent is answered by what its request leads to in the caller's domain; nothing else
  // leads to anything.
  lemma RequestReachesHandler(w: World, ctx: Context, to: EntityRef, request: Request)
    requires Sound(w) && w.IsDomain(ctx.from.domain)
    ensures to == AgentRef(RUNTIME) && ctx.action == CALL ==>
              Requested(w, ctx, to, request) == RequestOps(w, ctx.from.domain, request)
    ensures to != AgentRef(RUNTIME) || ctx.action != CALL ==> Requested(w, ctx, to, request) == []
  {
    hide Sound, RequestOps;
  }

  // The loop of cmd_create_agents over a batch: None as soon as one request cannot join.
  method CheckBatch(w: World, d: DomainId, qs: seq<AgentRequest>) returns (ops: Option<seq<Op>>)
    requires Sound(w) && w.IsDomain(d)
    ensures ops.Some? <==> AllJoin(w, d, qs)
    ensures ops.Some? ==> ops.value == AgentOps(w, d, qs) && |ops.value| == |qs|
  {
    hide Sound, Resolve, FindMember, Regularized;
    var done: seq<Op> := [];
    var seen: set<string> := {};
    var k := 0;
    while k < |qs|
      invariant 0 <= k <= |qs| && |done| == k
      invariant forall i :: 0 <= i < k ==>
                  Joins(w, d, qs, i) && done[i] == CreateAgent(Regularized(w, d, qs[i]).value, d)
      invariant forall i :: 0 <= i < k ==> qs[i].name in seen
      invariant forall n <- seen :: exists i :: 0 <= i < k && qs[i].name == n
    {
      var params := Regularized(w, d, qs[k]);
      RegularizedKeepsName(w, d, qs[k]);
      if params.None? || !w.IsAgent(params.value.link.parent)
         || FindMember(w.domains[d].members, params.value.name).Some? || params.value.name in seen {
        assert !Joins(w, d, qs, k);
        return None;
      }
      assert Joins(w, d, qs, k);
      seen := seen + {params.value.name};
      done := done + [CreateAgent(params.value, d)];
      k := k + 1;
    }
    assert AllJoin(w, d, qs) && done == AgentOps(w, d, qs);
    return Some(done);
  }

  lemma RegularizedKeepsName(w: World, d: DomainId, q: AgentRequest)
    requires Sound(w) && w.IsDomain(d)
    ensures Regularized(w, d, q).Some? ==> Regularized(w, d, q).value.name == q.name
  {
    hide Sound, Resolve;
  }

  lemma SoundHasIds(w: World)
    requires Sound(w)
    ensures Ids(w)
  {
  }

  lemma CallerStaysInScope(w: World, id: Int64, tags: set<string>, ctx: Context)
    requires Sound(w) && Faithful(w, ctx) && Applicable(w, ctx)
    ensures InScope(ApplyMessage(w, id, tags, ctx), ctx.from)
  {
    ExpectedInScope(w, ctx.thread);
  }

  lemma {:induction false} CommitsReplay(w: World, entries: seq<Journalled>, ops: seq<Op>)
    requires AreCommits(entries, ops) && CommitAllOk(w, ops)
    ensures ReplayOk(w, entries) && Replay(w, entries) == CommitAll(w, ops)
    decreases |ops|
  {
    if ops != [] {
      CommitsReplay(CommitOp(w, ops[0]), entries[1..], ops[1..]);
    }
  }

  lemma CommitTwo(w: World, op: Op, op': Op)
    requires CommitOk(w, op)
    ensures CommitAllOk(w, [op] + [op']) <==> CommitOk(CommitOp(w, op), op')
    ensures CommitAllOk(w, [op] + [op']) ==> CommitAll(w, [op] + [op']) == CommitOp(CommitOp(w, op), op')
  {
    assert ([op] + [op'])[0] == op && ([op] + [op'])[1..] == [op'] && [op'][1..] == [];
    hide CommitOk, CommitOp;
    var w' := CommitOp(w, op);
    assert CommitAllOk(w', [op']) <==> CommitOk(w', op');
    assert CommitOk(w', op') ==> CommitAll(w', [op']) == CommitOp(w', op');
  }

  lemma ReplayOne(w: World, entry: Journalled)
    requires RecordOk(w, entry.record)
    ensures ReplayOk(w, [entry]) && Replay(w, [entry]) == ApplyRecord(w, entry)
  {
    assert [entry][1..] == [];
  }

  lemma RebuildsMore(log: seq<Journalled>, w: World, more: seq<Journalled>)
    requires Rebuilds(log, w) && ReplayOk(w, more)
    ensures Rebuilds(log + more, Replay(w, more))
  {
    ReplayConcat(InitialWorld(), log, more);
  }

  lemma NextRecordIsOk(done: seq<Journalled>, rest: seq<Journalled>, w: World)
    requires Rebuilds(done, w) && rest != [] && ReplayOk(InitialWorld(), done + rest)
    ensures RecordOk(w, rest[0].record) && Rebuilds(done + [rest[0]], ApplyRecord(w, rest[0]))
  {
    ReplayConcat(InitialWorld(), done, rest);
    ReplayOne(w, rest[0]);
    RebuildsMore(done, w, [rest[0]]);
  }

  lemma NothingReplayed()
    ensures Rebuilds([], InitialWorld())
  {
  }

  lemma ReplayNext(past: seq<Journalled>, i: nat, w: World)
    requires i < |past| && ReplayOk(InitialWorld(), past) && Rebuilds(past[..i], w)
    ensures RecordOk(w, past[i].record) && Rebuilds(past[..i + 1], ApplyRecord(w, past[i]))
  {
    hide Rebuilds, ReplayOk, InitialWorld, RecordOk, ApplyRecord;
    assert past[..i] + past[i..] == past && past[..i + 1] == past[..i] + [past[i]];
    NextRecordIsOk(past[..i], past[i..], w);
  }

  // The runtime's order and the observers' order rebuild the same program.
  lemma {:induction false} BothOrdersRebuild(
    journal: seq<Journalled>, consumed: seq<Journalled>, w0: World, before: seq<Journalled>, ops: seq<Op>,
    entry: Journalled, ctx: Context, after: seq<Journalled>, handled: seq<Op>)
    requires Rebuilds(journal, w0) && Rebuilds(consumed, w0)
    requires AreCommits(before, ops) && CommitAllOk(w0, ops) && AreCommits(after, handled)
    requires var w1 := CommitAll(w0, ops);
             && entry.record.MessageRecord? && Loadable(w1, entry.record.context)
             && LoadContext(w1, entry.record.context) == ctx && Applicable(w1, ctx)
             && (handled == [] || ctx.action == CALL)
             && (handled != [] ==> HandlerOps(ApplyRecord(w1, entry), ctx, handled))
    ensures var w2 := ApplyRecord(CommitAll(w0, ops), entry);
            && CommitAllOk(w2, handled)
            && Rebuilds(journal + before + [entry] + after, CommitAll(w2, handled))
            && Rebuilds(consumed + before + after + [entry], CommitAll(w2, handled))
  {
    var w1 := CommitAll(w0, ops);
    var w2 := ApplyRecord(w1, entry);
    CommitsReplay(w0, before, ops);
    RebuildsMore(journal, w0, before);
    RebuildsMore(consumed, w0, before);
    ReplayOne(w1, entry);
    hide Rebuilds, ApplyMessage;
    RebuildsMore(journal + before, w1, [entry]);
    if handled == [] {
      RebuildsMore(consumed + before, w1, [entry]);
      assert journal + before + [entry] + [] == journal + before + [entry];
      assert consumed + before + [] + [entry] == consumed + before + [entry];
    } else {
      HandlerCommutes(w1, entry.id, entry.record.tags, ctx, handled);
      CommitsReplay(w2, after, handled);
      CommitsReplay(w1, after, handled);
      RebuildsMore(journal + before + [entry], w2, after);
      RebuildsMore(consumed + before, w1, after);
      ReplayOne(CommitAll(w1, handled), entry);
      RebuildsMore(consumed + before + after, CommitAll(w1, handled), [entry]);
    }
  }

  // How many records the handler may append for a request.
  function Appends(request: Request): nat {
    match request
    case CreateAgents(qs) => |qs|
    case _ => 2
  }

  ghost predicate Handled(w: World, ops: seq<Op>, entries: seq<Journalled>, w': World) {
    AreCommits(entries, ops) && CommitAllOk(w, ops) && w' == CommitAll(w, ops)
  }

  lemma InstanceEntry(w: World, name: string, p: DomainId)
    requires CommitAllOk(w, [CreateDomainFromSnapshot(p, name)])
    ensures name in w.snapshots
    ensures var s := w.snapshots[name];
            var w' := CommitAll(w, [CreateDomainFromSnapshot(p, name)]);
            |w.domains| < |w'.domains|
              && w'.domains[|w.domains|].entry.to == |w.agents| + IndexOfName(s.members, s.entryTo)
  {
    CommitSingle(w, CreateDomainFromSnapshot(p, name));
  }

  lemma CommitSingle(w: World, op: Op)
    ensures CommitAllOk(w, [op]) <==> CommitOk(w, op)
    ensures CommitOk(w, op) ==> CommitAll(w, [op]) == CommitOp(w, op)
  {
    assert [op][1..] == [];
    hide CommitOp, CommitOk;
  }

  lemma NoCommits(w: World)
    ensures CommitAllOk(w, []) && CommitAll(w, []) == w
  {
  }
}
