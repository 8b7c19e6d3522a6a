/** Where an agent run sends its events: the Agent that rebuilds its transcript
    from them (packages/agent/src/agent.ts, processEvents) and, when the run is
    bounded, the output that copies every finished message
    (packages/agent/src/agent-loop.ts, withInvocationOutput). */
module AgentSinks {
  import opened AgentMessages
  import opened InvocationOutputs

  function Ids(messages: seq<Message>): seq<nat> {
    seq(|messages|, i requires 0 <= i < |messages| => messages[i].identity)
  }

  /** A message object is not changed after it has been finished. */
  ghost predicate Coherent(messages: seq<Message>) {
    forall i, j :: 0 <= i < |messages| && 0 <= j < |messages| && messages[i].identity == messages[j].identity ==>
      messages[i] == messages[j]
  }

  lemma {:induction false} CoherentPrefix(a: seq<Message>, b: seq<Message>)
    requires Coherent(a + b)
    ensures Coherent(a)
  {
    forall i, j | 0 <= i < |a| && 0 <= j < |a| && a[i].identity == a[j].identity
      ensures a[i] == a[j]
    {
      assert (a + b)[i] == a[i] && (a + b)[j] == a[j];
    }
  }

  lemma {:induction false} ReplacingTheSame(messages: seq<Message>, m: Message)
    requires Coherent(messages) && m in messages
    ensures Replaced(messages, Ids(messages), m.identity, m) == messages
  {}

  lemma {:induction false} EndsOne(trace: seq<Event>, e: Event)
    ensures Ends(trace + [e]) == if e.MessageEnd? then Ends(trace) + [e.message] else Ends(trace)
  {
    EndsAppend(trace, [e]);
    assert [e][1..] == [];
    assert Ends([e]) == if e.MessageEnd? then [e.message] else [];
  }

  class Sink {
    var trace: seq<Event>
    var transcript: seq<Message>
    var streamingMessage: Option<Message>
    var pendingToolCalls: set<string>
    const output: InvocationOutput?
    const policy: Policy

    /** A bounded output that has refused nothing has captured the finished
        messages in order, and with faithful copies it holds exactly those. */
    ghost predicate Valid()
      reads this, output
    {
      output != null ==>
        && output.Valid() && !output.closed && WithinBudget(policy)
        && (output.refusal.None? ==>
              && output.owners == Ids(Ends(trace))
              && (Faithful(policy) && Coherent(Ends(trace)) ==> output.messages == Ends(trace)))
    }

    constructor (transcript: seq<Message>, output: InvocationOutput?, policy: Policy)
      requires output != null ==>
                 output.Valid() && !output.closed && output.messages == [] && output.owners == [] && WithinBudget(policy)
      ensures Valid() && trace == [] && this.transcript == transcript && this.output == output && this.policy == policy
    {
      this.trace, this.transcript := [], transcript;
      streamingMessage, pendingToolCalls := None, {};
      this.output, this.policy := output, policy;
    }

    predicate Refused()
      reads this, output
    {
      output != null && output.refusal.Some?
    }

    /** The Agent reduces the event and its listeners see it; then a finished
        message is captured. Refusals are not thrown here. */
    method Emit(e: Event)
      requires Valid()
      modifies this`trace, this`transcript, this`streamingMessage, this`pendingToolCalls, output
      ensures Valid()
      ensures trace == old(trace) + [e]
      ensures transcript == if e.MessageEnd? then old(transcript) + [e.message] else old(transcript)
      ensures streamingMessage == match e case MessageStart(m) => Some(m) case MessageUpdate(m) => Some(m)
                                          case MessageEnd(_) => None case AgentEnd(_) => None
                                          case _ => old(streamingMessage)
      ensures old(Refused()) ==> Refused()
      ensures !e.MessageEnd? ==> Refused() == old(Refused())
      ensures !e.MessageEnd? && output != null ==> output.messages == old(output.messages)
    {
      match e {
        case MessageStart(m) => streamingMessage := Some(m);
        case MessageUpdate(m) => streamingMessage := Some(m);
        case MessageEnd(m) =>
          streamingMessage := None;
          transcript := transcript + [m];
        case ToolStart(_, call) => pendingToolCalls := pendingToolCalls + {call.id};
        case ToolEnd(_, call, _, _, _) => pendingToolCalls := pendingToolCalls - {call.id};
        case AgentEnd(_) => streamingMessage := None;
        case _ =>
      }
      EndsOne(trace, e);
      trace := trace + [e];
      if output != null && e.MessageEnd? {
        Capture(e.message);
      }
    }

    /** The bounded output's share of a finished message. */
    method Capture(m: Message)
      requires output != null && output.Valid() && !output.closed && WithinBudget(policy)
      requires exists before ::
                 && Ends(trace) == before + [m]
                 && (output.refusal.None? ==>
                       && output.owners == Ids(before)
                       && (Faithful(policy) && Coherent(before) ==> output.messages == before))
      modifies output
      ensures Valid() && (old(output.refusal).Some? ==> output.refusal.Some?)
    {
      ghost var before :| && Ends(trace) == before + [m]
                          && (output.refusal.None? ==>
                                && output.owners == Ids(before)
                                && (Faithful(policy) && Coherent(before) ==> output.messages == before));
      output.Capture(policy, m);
      assert Ids(before + [m]) == Ids(before) + [m.identity];
      if Coherent(before + [m]) { CoherentPrefix(before, [m]); }
    }

    /** Room for `count` more messages; false is the limit error thrown. */
    method CheckRoom(count: nat) returns (ok: bool)
      requires Valid()
      modifies output
      ensures Valid() && (ok <==> !Refused()) && (old(Refused()) ==> Refused())
    {
      ok := true;
      if output != null { ok := output.CheckRoom(count); }
    }

    /** The Agent takes over an adopted working set. */
    method Mirror(messages: seq<Message>)
      modifies this`transcript
      ensures transcript == messages
    {
      transcript := messages;
    }

    /** A refresh after the turn's events; it may refuse but does not throw. */
    method Refresh(m: Message)
      requires Valid() && m in Ends(trace)
      modifies output
      ensures Valid() && (old(Refused()) ==> Refused())
    {
      hide Ends, Ids, Coherent, Replaced, Resized, SlotBytes, InvocationOutput.Valid, WithinBudget;
      if output == null { return; }
      var ok := output.Refresh(policy, m);
      if output.refusal.None? && Coherent(Ends(trace)) { ReplacingTheSame(Ends(trace), m); }
    }
  }
}
