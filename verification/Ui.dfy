// The user interface's gate: one pending flag per thread, raised when a user message is queued and lowered when the
// runtime delivers one to the user.
module Ui {
  import opened Common
  import opened World

  datatype Gate = Gate(pending: bool, wantsResult: bool)

  const Open: Gate := Gate(false, false)

  predicate IsPending(gates: seq<Gate>, t: int) {
    0 <= t < |gates| && gates[t].pending
  }

  function Ensured(gates: seq<Gate>, t: nat): seq<Gate> {
    if t < |gates| then gates else gates + seq(t + 1 - |gates|, _ => Open)
  }

  function Raised(gates: seq<Gate>, t: nat, wantsResult: bool): (r: seq<Gate>)
    ensures |r| == if t < |gates| then |gates| else t + 1
  {
    Ensured(gates, t)[t := Gate(true, wantsResult)]
  }

  function Lowered(gates: seq<Gate>, t: nat): (r: seq<Gate>)
    requires t < |gates|
    ensures |r| == |gates|
  {
    gates[t := Open]
  }

  // Raising and lowering move exactly one thread's flag.
  lemma {:induction false} GateMovesOneFlag(gates: seq<Gate>, t: nat, wantsResult: bool, x: nat)
    ensures IsPending(Raised(gates, t, wantsResult), x) <==> x == t || IsPending(gates, x)
    ensures t < |gates| ==> (IsPending(Lowered(gates, t), x) <==> x != t && IsPending(gates, x))
  {
    var more := Ensured(gates, t);
    assert forall i :: 0 <= i < |more| ==> more[i] == if i < |gates| then gates[i] else Open;
  }

  // Every other thread's gate is as it was, and a raised one remembers who waits.
  lemma {:induction false} GateKeepsOthers(gates: seq<Gate>, t: nat, wantsResult: bool, x: nat)
    ensures x < |Raised(gates, t, wantsResult)| ==>
              Raised(gates, t, wantsResult)[x] ==
              if x == t then Gate(true, wantsResult) else if x < |gates| then gates[x] else Gate(false, false)
    ensures t < |gates| && x < |gates| ==> Lowered(gates, t)[x] == if x == t then Gate(false, false) else gates[x]
    ensures |Raised(gates, t, wantsResult)| == if t < |gates| then |gates| else t + 1
  {
  }

  class UI {
    var threads: seq<Gate>
    var queue: seq<Message>       // handed to the runtime, not yet routed

    constructor ()
      ensures threads == [] && queue == []
    {
      threads, queue := [], [];
    }

    method EnsureThreads(t: nat)
      modifies this`threads
      ensures threads == Ensured(old(threads), t)
    {
      while t >= |threads|
        invariant old(threads) <= threads
        invariant |threads| <= |old(threads)| || |threads| <= t + 1
        invariant forall i :: |old(threads)| <= i < |threads| ==> threads[i] == Open
        decreases t + 1 - |threads|
      {
        threads := threads + [Open];
      }
    }

    method Send(t: nat, message: Message)
      requires !IsPending(threads, t)
      modifies this
      ensures threads == Raised(old(threads), t, false)
      ensures queue == old(queue) + [message.(threadId := t)]
    {
      Enqueue(t, message, false);
    }

    // The caller then waits for the delivery that OnMessage reports.
    method Syscall(t: nat, message: Message)
      requires !IsPending(threads, t)
      modifies this
      ensures threads == Raised(old(threads), t, true)
      ensures queue == old(queue) + [message.(threadId := t)]
    {
      Enqueue(t, message, true);
    }

    method Enqueue(t: nat, message: Message, wantsResult: bool)
      requires !IsPending(threads, t)
      modifies this
      ensures threads == Raised(old(threads), t, wantsResult)
      ensures queue == old(queue) + [message.(threadId := t)]
    {
      EnsureThreads(t);
      threads := threads[t := Gate(true, wantsResult)];
      queue := queue + [message.(threadId := t)];
    }

    // A message for the user; the result goes to the waiting caller, if any.
    method OnMessage(message: Message) returns (result: Option<Message>)
      requires message.threadId >= 0 && message.threadId < |threads| && IsPending(threads, message.threadId)
      modifies this`threads
      ensures threads == Lowered(old(threads), message.threadId)
      ensures result == if old(threads)[message.threadId].wantsResult then Some(message) else None
    {
      var t := message.threadId;
      result := if threads[t].wantsResult then Some(message) else None;
      threads := threads[t := Gate(false, false)];
    }
  }
}
