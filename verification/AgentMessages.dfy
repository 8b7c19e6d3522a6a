/** Messages, tool exchanges and the events an agent run emits
    (packages/agent/src/types.ts). */
module AgentMessages {

  datatype Option<+T> = None | Some(value: T)

  datatype Role = User | Assistant | ToolResult | Custom

  datatype StopReason = Stop | ToolUse | Length | Error | Aborted

  datatype ToolCall = ToolCall(id: string, name: string, arguments: string)

  /** A message object. JavaScript compares messages with ===, which is
      comparison of `identity` here; the other fields are the content. */
  datatype Message = Message(identity: nat, role: Role, stop: StopReason, calls: seq<ToolCall>, content: string)

  datatype ExecutionMode = Sequential | Parallel

  datatype ExecutionOutcome = NotStarted | Completed | Failed | OutcomeUnknown

  datatype Exchange = Exchange(
    sourceOrder: nat, toolCallId: string, toolName: string, originalInput: string, executedInput: Option<string>,
    mode: ExecutionMode, outcome: ExecutionOutcome, cancellationRequested: bool, result: Message)

  /** Tool events carry the position of their call, so that two calls that a
      provider gave one id can be told apart. */
  datatype Event =
    | AgentStart
    | TurnStart
    | MessageStart(message: Message)
    | MessageUpdate(message: Message)
    | MessageEnd(message: Message)
    | ToolStart(order: nat, call: ToolCall)
    | ToolUpdate(order: nat, call: ToolCall, partialResult: string)
    | ToolEnd(order: nat, call: ToolCall, isError: bool, terminate: bool, exchange: Exchange)
    | TurnEnd(message: Message, toolResults: seq<Message>, mode: ExecutionMode, exchanges: seq<Exchange>)
    | AgentEnd(messages: seq<Message>)

  predicate IsToolEvent(e: Event) { e.ToolStart? || e.ToolUpdate? || e.ToolEnd? }

  /** The payloads of the message_end events, in order. */
  function Ends(trace: seq<Event>): seq<Message> {
    if trace == [] then []
    else if trace[0].MessageEnd? then [trace[0].message] + Ends(trace[1..])
    else Ends(trace[1..])
  }

  lemma {:induction false} EndsAppend(a: seq<Event>, b: seq<Event>)
    ensures Ends(a + b) == Ends(a) + Ends(b)
    decreases |a|
  {
    if a == [] {
      assert [] + b == b;
    } else {
      assert (a + b)[1..] == a[1..] + b;
      EndsAppend(a[1..], b);
    }
  }

  /** A message sent whole: its start and its end, nothing between. */
  function Pair(m: Message): seq<Event> { [MessageStart(m), MessageEnd(m)] }

  function Pairs(messages: seq<Message>): seq<Event> {
    if messages == [] then [] else Pairs(messages[..|messages| - 1]) + Pair(messages[|messages| - 1])
  }

  lemma {:induction false} PairsAppend(a: seq<Message>, b: seq<Message>)
    ensures Pairs(a + b) == Pairs(a) + Pairs(b)
    decreases |b|
  {
    if b == [] {
      assert a + b == a;
    } else {
      assert (a + b)[..|a + b| - 1] == a + b[..|b| - 1];
      PairsAppend(a, b[..|b| - 1]);
    }
  }

  lemma {:induction false} EndsOfPairs(messages: seq<Message>)
    ensures Ends(Pairs(messages)) == messages
    decreases |messages|
  {
    if messages != [] {
      var front, m := messages[..|messages| - 1], messages[|messages| - 1];
      EndsOfPairs(front);
      EndsAppend(Pairs(front), Pair(m));
      EndsOfPair(m);
    }
  }

  lemma {:induction false} EndsOfPair(m: Message)
    ensures Ends(Pair(m)) == [m]
  {
    var end := [MessageEnd(m)];
    assert Pair(m)[1..] == end && end[1..] == [];
    assert Ends(end) == [m] + Ends([]);
  }

  lemma {:induction false} NoEnds(events: seq<Event>)
    requires forall e :: e in events ==> !e.MessageEnd?
    ensures Ends(events) == []
    decreases |events|
  {
    if events != [] { NoEnds(events[1..]); }
  }
}
