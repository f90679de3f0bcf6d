// The adapter's side of a conversation: an alternating stack of calls received and calls made, kept by each service
// on its own.
module Service {
  import opened Common
  import opened AccessIds
  import opened World

  datatype Pending =
    | Incoming(threadId: int, myAddress: string, peer: string, messageId: int)
    | Outgoing(peer: string)

  // ----- receiving

  // The CHECKs on a delivered message.
  predicate ReceiveOk(stack: seq<Pending>, msg: Message) {
    msg.inReplyTo.Some? ==>
      && stack != [] && stack[|stack| - 1].Outgoing?
      && stack[|stack| - 1].peer == if msg.onBehalfOf == "" then msg.from else msg.onBehalfOf
  }

  function Received(stack: seq<Pending>, msg: Message, id: int): seq<Pending>
    requires ReceiveOk(stack, msg)
  {
    if msg.inReplyTo.Some? then stack[..|stack| - 1]
    else stack + [Incoming(msg.threadId, msg.To(), msg.from, id)]
  }

  // ----- responding

  predicate DataOk(msg: Message, e: Pending)
    requires e.Incoming?
  {
    && msg.isData && msg.to.None? && msg.inReplyTo.None? && msg.inResponseTo.None?
    && (msg.from == "" || msg.from == e.myAddress)
    && (msg.threadId == NO_ACCESS_ID || msg.threadId == e.threadId)
  }

  // The CHECKs on what the handler produced: data records, then exactly one routed message.
  predicate RespondOk(stack: seq<Pending>, responses: seq<Message>) {
    && responses != [] && stack != [] && stack[|stack| - 1].Incoming?
    && (forall i :: 0 <= i < |responses| - 1 ==> DataOk(responses[i], stack[|stack| - 1]))
    && !responses[|responses| - 1].isData
  }

  function StampData(msg: Message, e: Pending): Message
    requires e.Incoming?
  {
    msg.(from := e.myAddress, threadId := e.threadId)
  }

  // A routed message to the peer is a reply to its call; any other is a call made on its behalf.
  function StampRouted(msg: Message, e: Pending): Message
    requires e.Incoming?
  {
    var addressed := msg.(from := e.myAddress, threadId := e.threadId,
          to := if msg.to.None? then Some(e.peer) else msg.to);
    if addressed.To() == e.peer then addressed.(inReplyTo := Some(e.messageId))
    else addressed.(inResponseTo := Some(e.messageId))
  }

  function Responses(stack: seq<Pending>, responses: seq<Message>): seq<Message>
    requires RespondOk(stack, responses)
  {
    var e, n := stack[|stack| - 1], |responses| - 1;
    seq(n, i requires 0 <= i < n => StampData(responses[i], e)) + [StampRouted(responses[n], e)]
  }

  function Responded(stack: seq<Pending>, responses: seq<Message>): seq<Pending>
    requires RespondOk(stack, responses)
  {
    var e := stack[|stack| - 1];
    var to := StampRouted(responses[|responses| - 1], e).To();
    if to == e.peer then stack[..|stack| - 1] else stack + [Outgoing(to)]
  }

  // Everything a service sends goes out under its own address and on the thread it was called on. Only the last message
  // has a recipient: its caller, in reply to the call, or whoever the handler named, in response to it.
  lemma ResponsesAreStamped(stack: seq<Pending>, responses: seq<Message>, i: nat)
    requires RespondOk(stack, responses) && i < |responses|
    ensures var e, out := stack[|stack| - 1], Responses(stack, responses);
            var sent, said := out[i], responses[i];
            && |out| == |responses| && sent.isData == said.isData == (i < |responses| - 1)
            && sent.from == e.myAddress && sent.threadId == e.threadId
            && sent.body == said.body && sent.tags == said.tags && sent.onBehalfOf == said.onBehalfOf
            && (sent.isData ==> sent.to.None? && sent.inReplyTo.None? && sent.inResponseTo.None?)
            && (!sent.isData ==>
                  && sent.to == Some(if said.to.Some? then said.to.value else e.peer)
                  && (sent.to == Some(e.peer) ==>
                        sent.inReplyTo == Some(e.messageId) && sent.inResponseTo == said.inResponseTo)
                  && (sent.to != Some(e.peer) ==>
                        sent.inResponseTo == Some(e.messageId) && sent.inReplyTo == said.inReplyTo))
  {
    assert i < |responses| - 1 ==> DataOk(responses[i], stack[|stack| - 1]);
  }

  // The stack afterwards: a reply ends the call, anything else is a call waiting for its answer.
  lemma RespondingExactly(stack: seq<Pending>, responses: seq<Message>)
    requires RespondOk(stack, responses)
    ensures var e, last := stack[|stack| - 1], responses[|responses| - 1];
            Responded(stack, responses) ==
            if last.to.None? || last.to.value == e.peer then stack[..|stack| - 1]
            else stack + [Outgoing(last.to.value)]
  {
  }

  // A service that answers a call at once is left with the stack it had, and answers as it would with an empty one.
  lemma AnsweringLeavesStack(stack: seq<Pending>, msg: Message, id: int, answer: Message)
    requires msg.inReplyTo.None? && !answer.isData && (answer.to.None? || answer.to == Some(msg.from))
    ensures RespondOk(Received(stack, msg, id), [answer]) && RespondOk(Received([], msg, id), [answer])
    ensures Responded(Received(stack, msg, id), [answer]) == stack
    ensures Responses(Received(stack, msg, id), [answer]) == Responses(Received([], msg, id), [answer])
  {
    var received := Received(stack, msg, id);
    assert received[|received| - 1] == Received([], msg, id)[0];
    assert received[..|received| - 1] == stack;
  }

  // A reply is taken exactly when a call is waiting and the reply comes from whom was called, or on behalf of them. It
  // leaves the stack as it was before the call; any other message is a call received, and always taken.
  lemma {:induction false} ReplyIsTakenExactly(stack: seq<Pending>, msg: Message, id: int)
    ensures msg.inReplyTo.Some? ==>
              (ReceiveOk(stack, msg) <==>
               exists peer :: stack != [] && stack[|stack| - 1] == Outgoing(peer) &&
                 (if msg.onBehalfOf != "" then msg.onBehalfOf == peer else msg.from == peer))
    ensures msg.inReplyTo.Some? && ReceiveOk(stack, msg) ==> Received(stack, msg, id) == stack[..|stack| - 1]
    ensures msg.inReplyTo.None? ==>
              && ReceiveOk(stack, msg)
              && Received(stack, msg, id) == stack + [Incoming(msg.threadId, msg.To(), msg.from, id)]
  {
    if msg.inReplyTo.Some? && ReceiveOk(stack, msg) {
      assert stack[|stack| - 1] == Outgoing(stack[|stack| - 1].peer);
    }
  }

  // A call and its answer cancel out.
  lemma {:induction false} AnswerRestoresStack(stack: seq<Pending>, responses: seq<Message>, answer: Message, id: int)
    requires RespondOk(stack, responses) && answer.inReplyTo.Some?
    requires var callee := responses[|responses| - 1].to;
             && callee.Some? && callee.value != stack[|stack| - 1].peer
             && callee.value == if answer.onBehalfOf != "" then answer.onBehalfOf else answer.from
    ensures ReceiveOk(Responded(stack, responses), answer)
    ensures Received(Responded(stack, responses), answer, id) == stack
  {
    RespondingExactly(stack, responses);
    hide Responded;
    var callee := responses[|responses| - 1].to.value;
    var waiting := stack + [Outgoing(callee)];
    assert waiting[..|waiting| - 1] == stack;
    ReplyIsTakenExactly(waiting, answer, id);
  }

  class LinearService {
    var stack: seq<Pending>

    constructor ()
      ensures stack == []
    {
      stack := [];
    }

    // One delivery and the handler's responses to it.
    method OnMessage(msg: Message, id: int, responses: seq<Message>) returns (out: seq<Message>)
      requires ReceiveOk(stack, msg) && RespondOk(Received(stack, msg, id), responses)
      modifies this
      ensures out == Responses(Received(old(stack), msg, id), responses)
      ensures stack == Responded(Received(old(stack), msg, id), responses)
    {
      if msg.inReplyTo.Some? {
        stack := stack[..|stack| - 1];
      } else {
        stack := stack + [Incoming(msg.threadId, msg.To(), msg.from, id)];
      }
      ghost var before := stack;
      var e := stack[|stack| - 1];
      out := [];
      var i := 0;
      while i + 1 < |responses|
        invariant 0 <= i <= |responses| - 1
        invariant out == Responses(before, responses)[..i]
      {
        out := out + [responses[i].(from := e.myAddress, threadId := e.threadId)];
        i := i + 1;
      }
      var routed := responses[|responses| - 1].(from := e.myAddress, threadId := e.threadId);
      if routed.to.None? {
        routed := routed.(to := Some(e.peer));
      }
      var to := routed.To();
      if e.peer == to {
        routed := routed.(inReplyTo := Some(e.messageId));
        stack := stack[..|stack| - 1];
      } else {
        routed := routed.(inResponseTo := Some(e.messageId));
        stack := stack + [Outgoing(to)];
      }
      out := out + [routed];
    }
  }
}
