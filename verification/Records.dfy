// Journalled records, and the context a routed record carries so that replay needs nothing else.
module Records {
  import opened Common
  import opened AccessIds
  import opened World
  import opened Transition
  import opened Soundness

  // The numeric context header of a record.
  datatype StoredContext = StoredContext(
    action: int, threadId: int, fromAgentId: int, fromDomainId: int,
    toAgentId: Option<int>, toDomainId: Option<int>, error: RoutingError)

  datatype Record =
    | CommitRecord(op: Op)
    | MessageRecord(message: Message, tags: set<string>, context: StoredContext)

  datatype Journalled = Journalled(id: Int64, record: Record)

  function ActionCode(action: Action): int {
    match action
    case YIELD => 0
    case CALL => 1
    case RETURN => 2
    case REWIND => 3
    case DATA => 4
  }

  function ActionOf(code: int): Action
    requires 0 <= code <= 4
  {
    if code == 0 then YIELD
    else if code == 1 then CALL
    else if code == 2 then RETURN
    else if code == 3 then REWIND
    else DATA
  }

  // Ids are read from the entities, not from their position; the target is stored only where it is needed.
  function SaveContext(w: World, ctx: Context): StoredContext
    requires w.IsThread(ctx.thread) && w.IsAgent(ctx.from.agent) && w.IsDomain(ctx.from.domain)
    requires ToNeeded(ctx.action) ==> ctx.to.Some? && w.IsAgent(ctx.to.value.agent) && w.IsDomain(ctx.to.value.domain)
  {
    var needed := ToNeeded(ctx.action);
    StoredContext(
      ActionCode(ctx.action), w.threads[ctx.thread].id, w.agents[ctx.from.agent].id, w.domains[ctx.from.domain].id,
      if needed then Some(w.agents[ctx.to.value.agent].id) else None,
      if needed then Some(w.domains[ctx.to.value.domain].id) else None,
      ctx.error)
  }

  // The CHECKs of loadContext.
  predicate Loadable(w: World, c: StoredContext) {
    && 0 <= c.action <= 4
    && w.IsThread(c.threadId) && w.IsAgent(c.fromAgentId) && w.IsDomain(c.fromDomainId)
    && (ToNeeded(ActionOf(c.action)) ==>
          c.toAgentId.Some? && c.toDomainId.Some? && w.IsAgent(c.toAgentId.value) && w.IsDomain(c.toDomainId.value))
  }

  function LoadContext(w: World, c: StoredContext): Context
    requires Loadable(w, c)
  {
    var action := ActionOf(c.action);
    Context(action, c.threadId, Endpoint(c.fromAgentId, c.fromDomainId),
      if ToNeeded(action) then Some(Endpoint(c.toAgentId.value, c.toDomainId.value)) else None, c.error)
  }

  // Replay reads back the context that was journalled.
  lemma {:induction false} LoadAfterSave(w: World, ctx: Context)
    requires Ids(w) && Applicable(w, ctx)
    ensures Loadable(w, SaveContext(w, ctx)) && LoadContext(w, SaveContext(w, ctx)) == ctx
  {
  }

  // What is stored: the number of the action, the positions of thread and endpoints, and a target for calls alone.
  lemma {:induction false} StoredExactly(w: World, ctx: Context)
    requires Ids(w) && Applicable(w, ctx)
    ensures var c := SaveContext(w, ctx);
            && (c.action == 1 <==> ctx.action == CALL) && (c.action == 2 <==> ctx.action == RETURN)
            && (c.action == 3 <==> ctx.action == REWIND) && (c.action == 4 <==> ctx.action == DATA)
            && c.threadId == ctx.thread && c.fromAgentId == ctx.from.agent && c.fromDomainId == ctx.from.domain
            && c.toAgentId == (if ctx.action == CALL then Some(ctx.to.value.agent) else None)
            && c.toDomainId == (if ctx.action == CALL then Some(ctx.to.value.domain) else None)
            && c.error == ctx.error
  {
  }

  // ----- applying one record

  predicate RecordOk(w: World, r: Record) {
    match r
    case CommitRecord(op) => CommitOk(w, op)
    case MessageRecord(_, _, c) => Loadable(w, c) && Applicable(w, LoadContext(w, c))
  }

  function ApplyRecord(w: World, j: Journalled): World
    requires RecordOk(w, j.record)
  {
    match j.record
    case CommitRecord(op) => CommitOp(w, op)
    case MessageRecord(_, tags, c) => ApplyMessage(w, j.id, tags, LoadContext(w, c))
  }

  predicate ReplayOk(w: World, log: seq<Journalled>)
    decreases |log|
  {
    log == [] || (RecordOk(w, log[0].record) && ReplayOk(ApplyRecord(w, log[0]), log[1..]))
  }

  // A program rebuilt from a journal.
  function Replay(w: World, log: seq<Journalled>): World
    requires ReplayOk(w, log)
    decreases |log|
  {
    if log == [] then w else Replay(ApplyRecord(w, log[0]), log[1..])
  }

  lemma {:induction false} ReplayConcat(w: World, a: seq<Journalled>, b: seq<Journalled>)
    requires ReplayOk(w, a)
    ensures ReplayOk(w, a + b) <==> ReplayOk(Replay(w, a), b)
    ensures ReplayOk(w, a + b) ==> Replay(w, a + b) == Replay(Replay(w, a), b)
    decreases |a|
  {
    if a == [] {
      assert a + b == b;
    } else {
      assert (a + b)[0] == a[0] && (a + b)[1..] == a[1..] + b;
      ReplayConcat(ApplyRecord(w, a[0]), a[1..], b);
    }
  }
}
