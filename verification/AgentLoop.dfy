/** The turn loop of an agent run (packages/agent/src/agent-loop.ts). The
    environment - provider, hooks, tools, owners, abort signal - is a script of
    answers, one entry for each turn; every run that comes to an end is the run
    of some script. A listener never fails. */
module AgentLoops {
  import opened AgentMessages
  import opened InvocationOutputs
  import opened AgentSinks
  import opened ToolBatches
  import opened ToolExecution
  import opened MessageQueues
  import opened AgentTurns
  import opened AgentContexts

  // ---- the environment's answers -------------------------------------------------------------

  /** Whether an error is a local request-preparation error. */
  datatype Fault = Local | Other

  /** `response.result()`. Aborts: the signal won the race. */
  datatype FinalAnswer = Resolves(message: Message) | ResultThrows(fault: Fault) | ResultAborts

  datatype StreamEvent = Start(partial: Message) | Delta(partial: Message) | Terminal(message: Message, result: FinalAnswer)

  datatype Next = Yields(event: StreamEvent) | Exhausted(result: FinalAnswer) | NextThrows(fault: Fault) | NextAborts

  datatype BuildAnswer = NoProjection | Projects(messages: seq<Message>, adopt: bool) | BuildThrows(fault: Fault)

  /** Everything from the context transform to the opened stream. */
  datatype RequestAnswer = Streams | RequestThrows(fault: Fault) | RequestAborts

  datatype RecoveryAnswer = Declines | Reprepares | Recovers | RecoveryThrows

  datatype AttemptEnv = AttemptEnv(
    abortFirst: bool, build: BuildAnswer, abortAfterBuild: bool, request: RequestAnswer, stream: seq<Next>,
    releaseThrows: bool, recovery: RecoveryAnswer, abortedIdentity: nat)

  const SILENT := AttemptEnv(false, NoProjection, false, RequestThrows(Other), [], false, Declines, 0)

  predicate IsStart(n: Next) { n.Yields? && n.event.Start? }

  /** A provider stream sends at most one start event. */
  predicate OneStart(stream: seq<Next>) {
    forall i, j :: 0 <= i < j < |stream| ==> !(IsStart(stream[i]) && IsStart(stream[j]))
  }

  predicate Voice(a: FinalAnswer) { a.Resolves? ==> a.message.role.Assistant? }

  /** What a provider sends are the assistant's messages. */
  predicate Voiced(n: Next) {
    match n
    case Yields(Start(m)) => m.role.Assistant?
    case Yields(Delta(m)) => m.role.Assistant?
    case Yields(Terminal(m, result)) => m.role.Assistant? && Voice(result)
    case Exhausted(result) => Voice(result)
    case _ => true
  }

  predicate Proper(stream: seq<Next>) { OneStart(stream) && forall i :: 0 <= i < |stream| ==> Voiced(stream[i]) }

  predicate Usual(attempts: seq<AttemptEnv>) { forall i :: 0 <= i < |attempts| ==> Proper(attempts[i].stream) }

  /** An event after which the stream is read on. */
  predicate Talking(n: Next) { n.Yields? && !n.event.Terminal? }

  /** How much of a stream is read before it comes to its end. */
  function TalkLength(stream: seq<Next>): (k: nat)
    ensures k <= |stream| && (forall j :: 0 <= j < k ==> Talking(stream[j])) && (k < |stream| ==> !Talking(stream[k]))
  {
    if stream == [] || !Talking(stream[0]) then 0 else 1 + TalkLength(stream[1..])
  }

  /** The message as it grows: the announced one and every later form of it. What
      comes before the announcement is not shown. */
  function Heard(stream: seq<Next>): seq<Message> {
    if stream == [] then []
    else
      var before := Heard(stream[..|stream| - 1]);
      var n := stream[|stream| - 1];
      if !Talking(n) then before
      else if n.event.Start? then [n.event.partial]
      else if before == [] then [] else before + [n.event.partial]
  }

  /** What is left of a response when it is aborted: what has been received. */
  function Cut(heard: seq<Message>, identity: nat): Message {
    if heard == [] then Message(identity, Assistant, Aborted, [], "")
    else Message(identity, Assistant, Aborted, heard[|heard| - 1].calls, heard[|heard| - 1].content)
  }

  /** The final message that the end of a stream makes, if it makes one. */
  function FinalOf(n: Next, heard: seq<Message>, identity: nat): Option<Message> {
    match n
    case NextThrows(_) => None
    case NextAborts => Some(Cut(heard, identity))
    case Exhausted(Resolves(m)) => Some(m)
    case Exhausted(ResultThrows(_)) => None
    case Exhausted(ResultAborts) => Some(Cut(heard, identity))
    case Yields(Terminal(_, Resolves(m))) => Some(m)
    case Yields(Terminal(_, ResultThrows(_))) => None
    case Yields(Terminal(m, ResultAborts)) => Some(m)
    case Yields(_) => None
  }

  /** The message's events, from what was heard and how it ended. */
  function AsSpoken(heard: seq<Message>, final: Message): Spoken {
    if heard == [] then Spoken(final, [], final) else Spoken(heard[0], heard[1..], final)
  }

  /** What a provider's stream amounts to. */
  function Says(a: AttemptEnv): Option<Spoken> {
    var k := TalkLength(a.stream);
    if k == |a.stream| then None
    else
      var heard := Heard(a.stream[..k]);
      var final := FinalOf(a.stream[k], heard, a.abortedIdentity);
      if final.None? then None else Some(AsSpoken(heard, final.value))
  }

  lemma {:induction false} HeardNothing(stream: seq<Next>)
    ensures Heard(stream[..0]) == []
  {}

  /** A stream that is announced once is heard from its announcement on. */
  lemma {:induction false} HeardExactly(stream: seq<Next>, k: nat)
    requires k <= |stream| && (forall j :: 0 <= j < |stream| ==> Talking(stream[j]) && (IsStart(stream[j]) <==> j == k))
    ensures |Heard(stream)| == |stream| - k
    ensures forall j :: 0 <= j < |stream| - k ==> Talking(stream[k + j]) && Heard(stream)[j] == stream[k + j].event.partial
    decreases |stream|
  {
    if stream != [] {
      var n := |stream| - 1;
      if k < |stream| { HeardExactly(stream[..n], k); } else { HeardExactly(stream[..n], n); }
    }
  }

  lemma {:induction false} HeardNext(stream: seq<Next>, k: nat)
    requires k < |stream| && Talking(stream[k])
    ensures Heard(stream[..k + 1])
            == if stream[k].event.Start? then [stream[k].event.partial]
               else if Heard(stream[..k]) == [] then [] else Heard(stream[..k]) + [stream[k].event.partial]
  {
    assert stream[..k + 1][..k] == stream[..k];
  }

  lemma {:induction false} TalkEnds(a: AttemptEnv, k: nat)
    requires k < |a.stream| && !Talking(a.stream[k]) && forall j :: 0 <= j < k ==> Talking(a.stream[j])
    ensures var heard := Heard(a.stream[..k]);
            var final := FinalOf(a.stream[k], heard, a.abortedIdentity);
            Says(a) == if final.None? then None else Some(AsSpoken(heard, final.value))
  {
    hide Heard, FinalOf, AsSpoken, Talking;
    assert TalkLength(a.stream) == k;
  }

  lemma {:induction false} SilentSays()
    ensures Says(SILENT) == None
  {}

  lemma {:induction false} SaysNothing(a: AttemptEnv)
    requires forall j :: 0 <= j < |a.stream| ==> Talking(a.stream[j])
    ensures Says(a) == None
  {
    hide Heard, FinalOf;
    assert TalkLength(a.stream) == |a.stream|;
  }

  datatype Response = Replied(message: Message) | Failing(fault: Fault)

  // ---- the environment around a turn ----------------------------------------------------------

  datatype FailureAnswer = NotRecovered | ProviderRecovered | FailureThrows | FailureAborts

  datatype OutcomeAnswer = Proceeds | Finishes | OutcomeThrows | OutcomeAborts

  /** What is steered and followed up before a poll, and what the signal does. */
  datatype PollEnv = PollEnv(steered: seq<seq<Message>>, followed: seq<seq<Message>>, abortBefore: bool, abortDuring: bool)

  /** `owned`: the answer of the continuation owner, which alone may go on
      without messages. */
  datatype ContinuationAnswer = NothingMore | Continues(messages: seq<Message>, owned: bool) | ContinuationThrows | ContinuationAborts

  datatype TurnEnv = TurnEnv(
    abortFirst: bool, attempts: seq<AttemptEnv>, sequentialTool: bool, batch: BatchEnv, abortAfterTurn: bool,
    failure: FailureAnswer, outcome: OutcomeAnswer, stopAfterOutcome: bool, steering: PollEnv, stopAfterPoll: bool,
    stopBeforeFollowUp: bool, followUp: PollEnv, stopBeforeContinuation: bool, continuation: ContinuationAnswer)

  /** How a turn leaves the loop. Over: agent_end has been sent. Thrown: an error
      leaves the loop. Endless: the script does not say how it goes on. */
  datatype TurnResult = Over | Thrown | Endless | Again | Complete(more: bool)

  class AgentLoop {
    const sink: Sink
    const mode: ExecutionMode
    ghost const initial: seq<Message>  // the Agent's transcript when the run began
    var context: seq<Message>
    var aborted: bool
    var newMessages: seq<Message>
    var result: seq<Message>
    var buildLog: seq<BuildEvent>
    ghost var drops: seq<Drop>
    ghost var turns: seq<Turn>
    ghost var turnEnds: seq<TurnEndState>
    ghost var responses: seq<seq<Attempt>>

    constructor (sink: Sink, mode: ExecutionMode)
      requires sink.Valid() && sink.trace == []
      ensures this.sink == sink && this.mode == mode && Valid() && Recorded() && Collected() && AllDropped()
      ensures !aborted && context == sink.transcript == initial && turns == []
    {
      this.sink, this.mode, initial := sink, mode, sink.transcript;
      context, aborted, buildLog, drops := sink.transcript, false, [], [];
      newMessages, result, turns, turnEnds, responses := [], [], [], [], [];
      AgreeFresh(sink.transcript);
    }

    /** What has been recorded at the turn ends and about the builds. */
    ghost predicate Recorded()
      reads this
    {
      && TurnsOk(turns) && AllAgree(turns, turnEnds, responses) && AllTold(initial, turns, turnEnds, responses)
      && buildLog == PrintResponses(responses) && ResponsesOk(responses)
    }

    /** Between turns: since the last adoption, every failed message was dropped. */
    ghost predicate AllDropped()
      reads this
    {
      && |responses| == |turns| == |turnEnds|
      && drops == Drops(turns, turnEnds, LastAdoption(responses), |turns|)
    }

    /** The same once the assistant of the open turn has spoken. */
    ghost predicate Spoke()
      reads this
    {
      && |responses| == |turns| + 1 == |turnEnds| + 1
      && drops == Drops(turns, turnEnds, LastAdoption(responses), |turns|)
    }

    /** A plain run collects every finished message itself. */
    ghost predicate Collected()
      reads this, sink
    {
      sink.output == null ==> newMessages == Ends(sink.trace)
    }

    /** Between turns, and at an open one: the trace is the turns so far, and the
        Agent's transcript is what they have told it. */
    ghost predicate Between()
      reads this, sink
    {
      && sink.trace == [AgentStart] + PrintTurns(turns)
      && |turns| <= |responses| && sink.transcript == TranscriptAfter(initial, turns, responses, |turns|)
    }

    ghost predicate Opened(ds: seq<Delivery>)
      reads this, sink
    {
      && sink.trace == [AgentStart] + PrintTurns(turns) + PrintOpening(ds)
      && |turns| <= |responses| && sink.transcript == TranscriptAfter(initial, turns, responses, |turns|) + Injected(ds)
    }

    /** A turn of which only the end is missing. */
    ghost predicate Ending(t: Turn)
      reads this, sink
    {
      && sink.trace == [AgentStart] + PrintTurns(turns) + PrintOpening(t.deliveries) + PrintSpoken(t.spoken) + PrintPart(t.part)
      && |responses| == |turns| + 1 && Tells(initial, turns, responses, t, sink.transcript)
    }

    /** The whole run: the trace is the turns between one agent_start and one
        agent_end, whose payload is every finished message in order; in a bounded
        run, provided copies are faithful and finished messages do not change. */
    ghost predicate RanToEnd()
      reads this, sink
    {
      && sink.trace == [AgentStart] + PrintTurns(turns) + [AgentEnd(result)]
      && (sink.output == null || (Faithful(sink.policy) && Coherent(Ends(sink.trace))) ==> result == Ends(sink.trace))
    }

    /** The array that a run returns: its own, which a bounded output fills. */
    function Gathered(): seq<Message>
      reads this, sink, sink.output
    {
      if sink.output != null then sink.output.messages else newMessages
    }

    ghost predicate Valid()
      reads this, sink, sink.output
    {
      sink.Valid() && Agree(context, sink.transcript, drops)
    }

    // ---- one assistant response ---------------------------------------------------------------

    /** What has been heard is in the trace, and its latest form ends the context. */
    ghost predicate Hearing(partial: Option<Message>, heard: seq<Message>, base: seq<Message>, start: seq<Event>)
      reads this, sink
    {
      if heard == [] then partial.None? && context == base && sink.trace == start
      else
        && partial == Some(heard[|heard| - 1]) && context == base + [heard[|heard| - 1]]
        && sink.trace == start + PrintPartial(heard[0], heard[1..])
    }

    /** The final message replaces the partial one, or is added when none was
        announced; its start is sent only then. */
    method Finish(partial: Option<Message>, final: Message, ghost heard: seq<Message>, ghost base: seq<Message>,
                  ghost start: seq<Event>)
      returns (ghost spoken: Spoken)
      requires sink.Valid() && Agree(base, sink.transcript, drops) && Hearing(partial, heard, base, start)
      modifies this`context, sink, sink.output
      ensures Valid() && (old(sink.Refused()) ==> sink.Refused())
      ensures sink.trace == start + PrintSpoken(spoken) && spoken == AsSpoken(heard, final)
      ensures sink.transcript == old(sink.transcript) + [final]
    {
      hide Agree, PrintPartial, Sink.Valid;
      AgreeNext(base, sink.transcript, drops, final);
      spoken := AsSpoken(heard, final);
      if partial.Some? {
        context := context[|context| - 1 := final];
      } else {
        context := context + [final];
        sink.Emit(MessageStart(final));
        OnlyOpening(final);
      }
      assert context == base + [final];
      sink.Emit(MessageEnd(final));
      assert sink.trace == start + PrintPartial(spoken.opening, spoken.updates) + [MessageEnd(final)];
    }

    /** An aborted response is finished with what has been received so far. */
    method FinishAborted(identity: nat, partial: Option<Message>, ghost heard: seq<Message>, ghost base: seq<Message>,
                         ghost start: seq<Event>)
      returns (r: Response, ghost spoken: Spoken)
      requires sink.Valid() && Agree(base, sink.transcript, drops) && Hearing(partial, heard, base, start)
      modifies this`context, this`aborted, sink, sink.output
      ensures Valid() && (old(sink.Refused()) ==> sink.Refused()) && aborted
      ensures r == Replied(spoken.final) && sink.trace == start + PrintSpoken(spoken)
      ensures spoken == AsSpoken(heard, Cut(heard, identity)) && sink.transcript == old(sink.transcript) + [spoken.final]
    {
      aborted := true;
      var final := Message(identity, Assistant, Aborted, if partial.Some? then partial.value.calls else [],
                           if partial.Some? then partial.value.content else "");
      spoken := Finish(partial, final, heard, base, start);
      r := Replied(final);
    }

    /** One event of a stream that is read on. */
    method Hear(event: StreamEvent, partial: Option<Message>, ghost heard: seq<Message>, ghost base: seq<Message>,
                ghost start: seq<Event>)
      returns (partial': Option<Message>, ghost heard': seq<Message>)
      requires sink.Valid() && Hearing(partial, heard, base, start) && !event.Terminal? && (event.Start? ==> heard == [])
      modifies this`context, sink, sink.output
      ensures sink.Valid() && sink.transcript == old(sink.transcript) && sink.Refused() == old(sink.Refused())
      ensures Hearing(partial', heard', base, start)
      ensures heard' == if event.Start? then [event.partial] else if heard == [] then [] else heard + [event.partial]
    {
      hide PrintPartial, Sink.Valid;
      partial', heard' := partial, heard;
      match event {
        case Start(m) =>
          partial', heard' := Some(m), [m];
          context := context + [m];
          sink.Emit(MessageStart(m));
          OnlyOpening(m);
          assert heard'[1..] == [];
        case Delta(m) =>
          if partial.Some? {
            partial', heard' := Some(m), heard + [m];
            context := context[|context| - 1 := m];
            sink.Emit(MessageUpdate(m));
            PartialNext(heard[0], heard[1..], m);
            assert (heard + [m])[1..] == heard[1..] + [m];
            assert context == base + [m];
          }
      }
    }

    /** Follow the provider's stream to its end. */
    method ReadStream(a: AttemptEnv) returns (r: Response, added: bool, ghost spoken: Spoken)
      requires Valid() && Proper(a.stream)
      modifies this`context, this`aborted, sink, sink.output
      ensures (old(aborted) ==> aborted) && (old(sink.Refused()) ==> sink.Refused())
      ensures r.Replied? ==> Valid() && spoken.final == r.message && sink.trace == old(sink.trace) + PrintSpoken(spoken)
      ensures r.Replied? ==> r.message.role.Assistant? && sink.transcript == old(sink.transcript) + [r.message]
      ensures r.Failing? && !added ==> sink.transcript == old(sink.transcript)
      ensures r.Failing? && !added ==> Valid() && sink.trace == old(sink.trace)
      ensures if r.Replied? then Says(a) == Some(spoken) else Says(a) == None
    {
      hide Agree, PrintSpoken, Sink.Valid, Heard, Says, Hearing, TalkLength;
      var partial: Option<Message> := None;
      ghost var base, start := context, sink.trace;
      ghost var heard: seq<Message> := [];
      spoken := Spoken(NO_MESSAGE, [], NO_MESSAGE);
      added := false;
      HeardNothing(a.stream);
      NothingHeard();
      for i := 0 to |a.stream|
        invariant sink.Valid() && Agree(base, sink.transcript, drops) && sink.transcript == old(sink.transcript)
        invariant (old(aborted) ==> aborted) && (old(sink.Refused()) ==> sink.Refused())
        invariant Hearing(partial, heard, base, start) && heard == Heard(a.stream[..i]) && (added <==> heard != [])
        invariant forall j :: 0 <= j < i ==> Talking(a.stream[j])
        invariant added ==> exists j :: 0 <= j < i && IsStart(a.stream[j])
      {
        HearingBasics(partial, heard, base, start);
        assert Voiced(a.stream[i]);
        if Talking(a.stream[i]) { HeardNext(a.stream, i); } else { TalkEnds(a, i); }
        match a.stream[i] {
          case NextThrows(fault) => return Failing(fault), added, spoken;
          case NextAborts =>
            r, spoken := FinishAborted(a.abortedIdentity, partial, heard, base, start);
            return;
          case Exhausted(result) =>
            match result {
              case Resolves(final) =>
                spoken := Finish(partial, final, heard, base, start);
                return Replied(final), added, spoken;
              case ResultThrows(fault) => return Failing(fault), added, spoken;
              case ResultAborts =>
                r, spoken := FinishAborted(a.abortedIdentity, partial, heard, base, start);
                return;
            }
          case Yields(event) =>
            match event {
              case Terminal(m, result) =>
                var final := m;
                match result {
                  case Resolves(f) => final := f;
                  case ResultThrows(fault) => return Failing(fault), added, spoken;
                  case ResultAborts =>
                }
                spoken := Finish(partial, final, heard, base, start);
                aborted := aborted || result.ResultAborts?;
                return Replied(final), added, spoken;
              case _ =>
                assert event.Start? ==> IsStart(a.stream[i]);
                partial, heard := Hear(event, partial, heard, base, start);
                added := added || event.Start?;
            }
        }
      }
      SaysNothing(a);
      HearingBasics(partial, heard, base, start);
      // A provider that never answers again is not a run that comes to an end.
      r := Failing(Other);
    }

    lemma {:induction false} NothingHeard()
      ensures Hearing(None, [], context, sink.trace)
    {}

    lemma {:induction false} HearingBasics(partial: Option<Message>, heard: seq<Message>, base: seq<Message>, start: seq<Event>)
      requires Hearing(partial, heard, base, start)
      ensures heard == [] ==> context == base && sink.trace == start
    {}

    /** Build the context, open the stream and follow it. A projection must be
        released, whatever comes of the response. */
    method RunResponse(a: AttemptEnv) returns (r: Response, added: bool, tried: Attempt, ghost spoken: Spoken)
      requires Valid() && Proper(a.stream)
      modifies this`context, this`aborted, this`buildLog, this`drops, sink, sink.output
      ensures AttemptOk(tried) && !tried.recovering && buildLog == old(buildLog) + PrintBuild(tried)
      ensures drops == if tried.adopted.Some? then [] else old(drops)
      ensures (old(aborted) ==> aborted) && (old(sink.Refused()) ==> sink.Refused())
      ensures r.Replied? ==> Valid() && spoken.final == r.message && sink.trace == old(sink.trace) + PrintSpoken(spoken)
      ensures r.Replied? ==> r.message.role.Assistant? && sink.transcript == BasedOn(old(sink.transcript), tried) + [r.message]
      ensures r.Failing? && !added ==> sink.transcript == BasedOn(old(sink.transcript), tried)
      ensures r.Replied? && !aborted ==> Says(a) == Some(spoken)
      ensures r.Failing? && !added ==> Valid() && sink.trace == old(sink.trace) && (r.fault.Local? ==> tried.built)
    {
      hide Agree, PrintSpoken, Sink.Valid, Says;
      added, tried := false, Attempt(false, false, None, false);
      aborted := aborted || a.abortFirst;
      if aborted {
        r, spoken := AbortEarly(a.abortedIdentity);
        return;
      }
      tried := Attempt(true, a.build.Projects?, None, false);
      buildLog := buildLog + [Built(a.build.Projects?)];
      match a.build {
        case BuildThrows(fault) =>
          spoken := Spoken(NO_MESSAGE, [], NO_MESSAGE);
          return Failing(fault), false, tried, spoken;
        case NoProjection =>
        case Projects(messages, adopt) =>
          if adopt {
            Adopt(messages);
            tried := tried.(adopted := Some(messages));
          }
      }
      assert buildLog == old(buildLog) + PrintBuild(tried);
      aborted := aborted || a.abortAfterBuild;
      if aborted || a.request.RequestAborts? {
        r, spoken := AbortEarly(a.abortedIdentity);
        return;
      }
      if a.request.RequestThrows? {
        spoken := Spoken(NO_MESSAGE, [], NO_MESSAGE);
        return Failing(a.request.fault), false, tried, spoken;
      }
      r, added, spoken := ReadStream(a);
    }

    method AbortEarly(identity: nat) returns (r: Response, ghost spoken: Spoken)
      requires Valid()
      modifies this`context, this`aborted, sink, sink.output
      ensures Valid() && (old(sink.Refused()) ==> sink.Refused()) && aborted
      ensures r == Replied(spoken.final) && sink.trace == old(sink.trace) + PrintSpoken(spoken) && spoken.final.role.Assistant?
      ensures sink.transcript == old(sink.transcript) + [spoken.final]
    {
      r, spoken := FinishAborted(identity, None, [], context, sink.trace);
    }

    /** An adopted working set replaces the context and the Agent's transcript;
        nothing is dropped from it yet. */
    method Adopt(messages: seq<Message>)
      requires Valid()
      modifies this`context, this`buildLog, this`drops, sink
      ensures Valid() && sink.trace == old(sink.trace)
      ensures context == sink.transcript == messages && drops == [] && buildLog == old(buildLog) + [Adopted(messages)]
    {
      hide Agree;
      context := messages;
      sink.Mirror(context);
      buildLog := buildLog + [Adopted(messages)];
      drops := [];
      AgreeFresh(messages);
    }

    /** One attempt: the response, then its projection's release, and only then
        the question whether it can be recovered. */
    method Try(a: AttemptEnv, allowRecovery: bool)
      returns (r: Response, recovery: RecoveryAnswer, ghost spoken: Spoken, ghost tried: Attempt)
      requires Valid() && Proper(a.stream)
      modifies this`context, this`aborted, this`buildLog, this`drops, sink, sink.output
      ensures (old(aborted) ==> aborted) && (old(sink.Refused()) ==> sink.Refused())
      ensures r.Replied? ==> Valid() && spoken.final == r.message && sink.trace == old(sink.trace) + PrintSpoken(spoken)
      ensures r.Replied? ==> r.message.role.Assistant? && sink.transcript == BasedOn(old(sink.transcript), tried) + [r.message]
      ensures r.Replied? && !aborted ==> Says(a) == Some(spoken)
      ensures buildLog == old(buildLog) + PrintAttempt(tried) && AttemptOk(tried)
      ensures drops == if tried.adopted.Some? then [] else old(drops)
      ensures !recovery.Declines? ==>
                && allowRecovery && r.Failing? && tried.recovering && tried.built
                && Valid() && sink.trace == old(sink.trace) && sink.transcript == BasedOn(old(sink.transcript), tried)
    {
      hide Agree, PrintSpoken, Sink.Valid, Says, PrintBuild;
      recovery := Declines;
      var added;
      var attempt;
      r, added, attempt, spoken := RunResponse(a);
      tried := attempt;
      if attempt.projected {
        buildLog := buildLog + [Released];
        if a.releaseThrows { return Failing(Other), Declines, spoken, tried; }
      }
      if r.Replied? || !allowRecovery || added || !r.fault.Local? { return; }
      buildLog := buildLog + [Recovering];
      tried := attempt.(recovering := true);
      SameBuild(attempt, tried);
      recovery := a.recovery;
    }

    /** A response with at most one recovery, before which at most one
        preparation may be repeated. */
    method StreamAssistantResponse(attempts: seq<AttemptEnv>, allowRecovery: bool, allowReprepare: bool)
      returns (r: Response, ghost spoken: Spoken, ghost tried: seq<Attempt>)
      requires Valid() && Usual(attempts) && (allowReprepare ==> allowRecovery)
      modifies this`context, this`aborted, this`buildLog, this`drops, sink, sink.output
      ensures (old(aborted) ==> aborted) && (old(sink.Refused()) ==> sink.Refused())
      ensures r.Replied? ==> Valid() && spoken.final == r.message && sink.trace == old(sink.trace) + PrintSpoken(spoken)
      ensures r.Replied? ==> r.message.role.Assistant? && sink.transcript == Based(old(sink.transcript), tried) + [r.message]
      ensures buildLog == old(buildLog) + PrintAttempts(tried) && AttemptsOk(tried) && 1 <= |tried|
      ensures drops == if Adopts(tried) then [] else old(drops)
      ensures r.Replied? && !aborted ==> |tried| <= |attempts| && Says(attempts[|tried| - 1]) == Some(spoken)
      ensures |tried| <= 1 + (if allowRecovery then 1 else 0) + (if allowReprepare then 1 else 0)
      decreases allowRecovery, allowReprepare
    {
      hide Agree, PrintSpoken, Sink.Valid, PrintAttempt, PrintAttempts, AttemptsOk, AdoptedBy, Says;
      SilentSays();
      var recovery;
      ghost var first, more;
      r, recovery, spoken, first := Try(if attempts != [] then attempts[0] else SILENT, allowRecovery);
      tried := [first];
      OneAttempt(first);
      var rest := if attempts != [] then attempts[1..] else [];
      match recovery {
        case RecoveryThrows => r := Failing(Local);
        case Reprepares =>
          if allowReprepare {
            r, spoken, more := StreamAssistantResponse(rest, true, false);
            MoreAttempts(first, more);
            tried := [first] + more;
          }
        case Recovers =>
          r, spoken, more := StreamAssistantResponse(rest, false, false);
          MoreAttempts(first, more);
          tried := [first] + more;
        case Declines =>
      }
    }

    // ---- one turn -------------------------------------------------------------------------------

    /** agent_end, once; false when a bounded output has refused. */
    method EndRun() returns (ok: bool)
      requires sink.Valid() && Collected() && Between()
      modifies this`result, sink, sink.output
      ensures ok ==> RanToEnd() && sink.Valid() && sink.transcript == old(sink.transcript) && Gathered() == result
    {
      hide PrintTurns;
      if sink.output != null {
        var copy := sink.output.Copy();
        if copy.None? { return false; }
        result := copy.value;
      } else {
        result := newMessages;
      }
      sink.Emit(AgentEnd(result));
      EndsOne(old(sink.trace), AgentEnd(result));
      ok := true;
    }

    /** The end of the run as the outcome of a turn. */
    method Stop() returns (r: TurnResult)
      requires sink.Valid() && Collected() && Between()
      modifies this`result, sink, sink.output
      ensures r.Over? || r.Thrown?
      ensures r.Over? ==> RanToEnd() && sink.Valid() && Gathered() == result
    {
      var ok := EndRun();
      r := if ok then Over else TurnResult.Thrown;
    }

    /** The array a run returns, and the end of a bounded output, whose values are
        the caller's from now on. */
    method Conclude() returns (messages: seq<Message>)
      requires sink.Valid()
      modifies sink.output
      ensures messages == old(Gathered())
      ensures sink.output != null ==> sink.output.closed && sink.output.messages == []
    {
      messages := Gathered();
      if sink.output != null { sink.output.Dispose(); }
    }

    /** The assistant's message; None is an error leaving the loop. */
    method Speak(attempts: seq<AttemptEnv>) returns (message: Option<Message>, ghost spoken: Spoken)
      requires Valid() && Recorded() && Collected() && AllDropped() && Usual(attempts)
      modifies this`context, this`aborted, this`newMessages, this`buildLog, this`drops, this`responses
      modifies sink, sink.output
      ensures Recorded() && (old(aborted) ==> aborted)
      ensures message.Some? ==>
                && Valid() && Collected() && Spoke() && !sink.Refused()
                && spoken.final == message.value && sink.trace == old(sink.trace) + PrintSpoken(spoken)
                && message.value.role.Assistant?
                && sink.transcript == Based(old(sink.transcript), responses[|turns|]) + [message.value]
                && TranscriptAfter(initial, turns, responses, |turns|) == TranscriptAfter(initial, turns, old(responses), |turns|)
                && (!aborted ==> exists a :: a in attempts && Says(a) == Some(spoken))
    {
      hide Agree, PrintSpoken, Sink.Valid, AttemptsOk, PrintAttempts, TurnsOk, AllAgree, ResponsesOk, Says,
           PrintResponses, Ends, Usual, Drops, LastAdoption, AdoptedBy, TranscriptAfter, AllTold;
      message := None;
      var ok := sink.CheckRoom(1);
      var r: Response;
      ghost var tried;
      if !ok {
        spoken := Spoken(NO_MESSAGE, [], NO_MESSAGE);
        return;
      }
      r, spoken, tried := StreamAssistantResponse(attempts, true, true);
      ResponsesNext(responses, tried);
      AdoptionNext(responses, tried);
      ResponseKeepsAll(turns, turnEnds, responses, tried);
      ResponseKeepsTold(initial, turns, turnEnds, responses, tried);
      NothingDropped(turns, turnEnds);
      responses := responses + [tried];
      if r.Failing? { return; }
      if sink.output == null { newMessages := newMessages + [r.message]; }
      EndsAppend(old(sink.trace), PrintSpoken(spoken));
      EndsOfSpoken(spoken);
      if sink.Refused() { return; }
      message := Some(r.message);
    }

    /** turn_end; the state at it is recorded, and the turn's own message, if it
        failed, is not dropped yet. */
    method CloseTurn(end: Event, ghost t: Turn)
      requires end == EndOf(t)
      requires Valid() && Recorded() && Collected() && Spoke() && TurnOk(t)
      requires Ending(t)
      modifies this`turns, this`turnEnds, sink, sink.output
      ensures Valid() && Recorded() && Collected() && Between() && turns == old(turns) + [t]
      ensures turnEnds == old(turnEnds) + [TurnEndState(context, sink.transcript)]
      ensures |responses| == |turns| && drops == Drops(turns, turnEnds, LastAdoption(responses), |turns| - 1)
      ensures sink.transcript == old(sink.transcript) && sink.Refused() == old(sink.Refused())
      ensures t.spoken.final in Ends(sink.trace) && forall m :: m in Results(ExchangesOf(t.part)) ==> m in Ends(sink.trace)
    {
      hide Agree, PrintSpoken, PrintPart, PrintOpening, Sink.Valid, PrintTurns, PrintTurn, TurnOk, TurnsOk, ResponsesOk,
           PrintResponses, Said, Results, ExchangesOf, AllAgree, Drops, LastAdoption, AllTold, TranscriptAfter, Tells;
      ClosingTurn(turns, t);
      EndsOne(sink.trace, end);
      sink.Emit(end);
      TurnEndKeepsAll(turns, turnEnds, responses, drops, t, TurnEndState(context, sink.transcript));
      TurnEndTells(initial, turns, turnEnds, responses, t, TurnEndState(context, sink.transcript));
      TurnsNext(turns, t);
      turns := turns + [t];
      turnEnds := turnEnds + [TurnEndState(context, sink.transcript)];
    }

    /** The bounded output copies the turn's messages again. */
    method RefreshAll(message: Message, results: seq<Message>)
      requires sink.Valid() && message in Ends(sink.trace) && forall m :: m in results ==> m in Ends(sink.trace)
      modifies sink.output
      ensures sink.Valid() && (old(sink.Refused()) ==> sink.Refused())
    {
      hide Sink.Valid;
      sink.Refresh(message);
      for k := 0 to |results|
        invariant sink.Valid() && (old(sink.Refused()) ==> sink.Refused())
      {
        sink.Refresh(results[k]);
      }
    }

    /** Provider recovery drops the failed message from the next request only. */
    method DropFailure(message: Message)
      requires Valid() && message.stop.Error?
      modifies this`context, this`drops
      ensures Valid() && context == Without(old(context), message.identity)
      ensures drops == old(drops) + [Drop(message, |sink.transcript|)]
    {
      hide Agree, Sink.Valid;
      AgreeDropped(context, sink.transcript, drops, message);
      var kept: seq<Message> := [];
      for k := 0 to |context|
        invariant context == old(context) && drops == old(drops)
        invariant kept == Without(context[..k], message.identity)
      {
        assert context[..k + 1] == context[..k] + [context[k]];
        WithoutNext(context[..k], context[k], message.identity);
        if context[k].identity != message.identity { kept := kept + [context[k]]; }
      }
      assert context[..|context|] == context;
      context := kept;
      drops := drops + [Drop(message, |sink.transcript|)];
    }

    /** A failed or aborted message runs no tools: the run ends, unless provider
        recovery drops the message and asks again. */
    method FailTurn(message: Message, failure: FailureAnswer, ghost ds: seq<Delivery>, ghost spoken: Spoken)
      returns (r: TurnResult)
      requires Valid() && Recorded() && Collected() && Spoke() && IsFailure(message) && spoken.final == message
      requires message.role.Assistant?
      requires Ending(Turn(ds, spoken, NoTools, mode))
      modifies this`context, this`aborted, this`drops, this`turns, this`turnEnds, this`result, sink, sink.output
      ensures Recorded() && (old(aborted) ==> aborted) && Grown(old(turns), ds)
      ensures r.Over? ==> RanToEnd() && sink.Valid() && Gathered() == result
      ensures r.Again? ==>
                && Valid() && Collected() && Between() && AllDropped() && turns[|turns| - 1].spoken.final.stop.Error?
                && context == Without(old(context), message.identity)
      ensures r.Again? <==> message.stop.Error? && failure.ProviderRecovered?
      ensures !r.Complete?
    {
      hide Agree, Sink.Valid, PrintTurns, PrintSpoken, PrintOpening, AllAgree, LastAdoption, PrintResponses,
           ResponsesOk, TurnsOk, AllTold, TranscriptAfter, Tells;
      ghost var t := Turn(ds, spoken, NoTools, mode);
      NoToolsTurn(t);
      CloseTurn(TurnEnd(message, [], mode, []), t);
      RefreshAll(message, []);
      if message.stop.Error? {
        match failure {
          case FailureThrows => return TurnResult.Thrown;
          case FailureAborts =>
            aborted := true;
            return TurnResult.Thrown;
          case ProviderRecovered =>
            DropFailure(message);
            assert LastAdoption(responses) < |turns|;
            return Again;
          case NotRecovered =>
        }
      }
      r := Stop();
    }

    /** turn_start, before any but the first turn. */
    method OpenTurn()
      requires Valid() && Collected() && Between()
      modifies sink, sink.output
      ensures Valid() && Collected() && Opened([]) && Recorded() == old(Recorded())
    {
      hide Agree, Sink.Valid, PrintTurns, PrintOpening, TranscriptAfter;
      EndsOne(sink.trace, TurnStart);
      sink.Emit(TurnStart);
      OpeningOfNothing();
      assert sink.transcript + [] == sink.transcript;
    }

    /** What a delivery adds to the opening of a turn. */
    lemma {:induction false} OpenedMore(ds: seq<Delivery>, d: Delivery, trace0: seq<Event>, transcript0: seq<Message>)
      requires |turns| <= |responses| && trace0 == [AgentStart] + PrintTurns(turns) + PrintOpening(ds)
      requires transcript0 == TranscriptAfter(initial, turns, responses, |turns|) + Injected(ds)
      requires sink.trace == trace0 + Pairs(Flatten(d.batches)) && sink.transcript == transcript0 + Flatten(d.batches)
      ensures Opened(ds + [d])
    {
      hide PrintTurns, PrintOpening, TranscriptAfter, Injected, Pairs, Flatten;
      OpenedNext(ds, d);
      var before := [AgentStart] + PrintTurns(turns);
      assert before + PrintOpening(ds) + Pairs(Flatten(d.batches)) == before + (PrintOpening(ds) + Pairs(Flatten(d.batches)));
      var told := TranscriptAfter(initial, turns, responses, |turns|);
      assert told + Injected(ds) + Flatten(d.batches) == told + (Injected(ds) + Flatten(d.batches));
    }

    /** Exactly one turn has been added, with the given deliveries. */
    ghost predicate Grown(before: seq<Turn>, ds: seq<Delivery>)
      reads this
    {
      |turns| == |before| + 1 && turns[..|before|] == before && turns[|before|].deliveries == ds
    }

    /** The tool batch of a message that makes calls. */
    method RunTools(message: Message, sequentialTool: bool, env: BatchEnv)
      returns (status: Status, batch: Batched, ghost part: Part)
      requires Valid() && Collected() && message.calls != []
      modifies this`context, this`aborted, this`newMessages, sink, sink.output
      ensures (old(aborted) ==> aborted)
      ensures status.Settled? ==>
                && Valid() && Collected() && sink.trace == old(sink.trace) + PrintPart(part)
                && PartOk(part) && !part.NoTools? && part.calls == message.calls
                && (part.Concurrent? <==> batch.mode.Parallel?) && (part.InTurn? ==> batch.mode.Sequential?)
                && (part.InTurn? <==> mode == Sequential || sequentialTool) && (batch.terminate <==> StopsAfter(part))
                && (part.InTurn? && !aborted && !sink.Refused() ==> |part.rounds| == |message.calls|)
                && batch.exchanges == ExchangesOf(part) && batch.messages == Results(batch.exchanges)
                && sink.transcript == old(sink.transcript) + batch.messages
      ensures status.Thrown? ==> sink.Refused() || SomeRejects(env, |message.calls|)
    {
      hide Agree, Sink.Valid, PrintPart, PartOk, Results, StopsAfter, ConcurrentRejects, RejectsInTurn, AnnouncedUpTo,
           PhaseAlone;
      status, batch, part := Status.Thrown, NOTHING, NoTools;
      var room := sink.CheckRoom(|message.calls|);
      if !room { return; }
      ghost var trace0, transcript0 := sink.trace, sink.transcript;
      var aborted';
      if mode == Sequential || sequentialTool {
        status, batch, aborted', part := ExecuteToolCallsSequential(sink, message.calls, env, aborted);
      } else {
        status, batch, aborted', part := ExecuteToolCallsParallel(sink, message.calls, env, aborted);
      }
      aborted := aborted';
      if !status.Settled? { return; }
      EndsAppend(trace0, PrintPart(part));
      EndsOfPart(part);
      KeepResults(batch.messages, transcript0);
    }

    /** The results join the context and, in a plain run, the new messages. */
    method KeepResults(results: seq<Message>, ghost transcript0: seq<Message>)
      requires Agree(context, transcript0, drops)
      modifies this`context, this`newMessages
      ensures Agree(context, transcript0 + results, drops)
      ensures newMessages == if sink.output == null then old(newMessages) + results else old(newMessages)
    {
      hide Agree;
      assert transcript0 + results[..0] == transcript0;
      for k := 0 to |results|
        invariant Agree(context, transcript0 + results[..k], drops)
        invariant newMessages == if sink.output == null then old(newMessages) + results[..k] else old(newMessages)
      {
        var m := results[k];
        assert results[..k + 1] == results[..k] + [m];
        AgreeNext(context, transcript0 + results[..k], drops, m);
        assert transcript0 + results[..k] + [m] == transcript0 + results[..k + 1];
        context := context + [m];
        if sink.output == null { newMessages := newMessages + [m]; }
      }
      assert results[..|results|] == results;
    }

    /** A turn from its assistant message to the decision whether to go on. */
    method RunTurn(e: TurnEnv, ghost ds: seq<Delivery>) returns (r: TurnResult)
      requires Valid() && Recorded() && Collected() && AllDropped() && Opened(ds) && Usual(e.attempts)
      modifies this, sink, sink.output
      ensures Recorded() && (old(aborted) ==> aborted)
      ensures r.Again? || r.Complete? ==> Valid() && Collected() && Between() && AllDropped() && Grown(old(turns), ds)
      ensures r.Over? ==> RanToEnd() && Grown(old(turns), ds) && sink.Valid() && Gathered() == result
      ensures r.Again? ==> turns[|turns| - 1].spoken.final.stop.Error?
      ensures r.Complete? ==>
                var t := turns[|turns| - 1]; !IsFailure(t.spoken.final) && (r.more <==> CallsRemain(t))
    {
      hide Agree, Sink.Valid, PrintTurns, PrintSpoken, PrintOpening, PrintPart, TurnOk, TurnsOk, PartOk, Results,
           ExchangesOf, Ends, AllAgree, LastAdoption, PrintResponses, ResponsesOk, AllTold, TranscriptAfter, StopsAfter,
           Injected, Based;
      ghost var spoken;
      var said;
      said, spoken := Speak(e.attempts);
      if said.None? { return TurnResult.Thrown; }
      var message := said.value;
      NoToolsYet(Turn(ds, spoken, NoTools, mode));
      assert sink.trace + [] == sink.trace && sink.transcript + [] == sink.transcript;
      if message.stop.Error? || message.stop.Aborted? {
        r := FailTurn(message, e.failure, ds, spoken);
        return;
      }
      var status, batch;
      ghost var t;
      status, batch, t := ToolPhase(e, message, ds, spoken);
      if status.Thrown? { return TurnResult.Thrown; }
      if status.Unfinished? { return Endless; }
      r := SettleTurn(e, message, batch, t);
    }

    /** The tools of a message that did not fail; a refusal is thrown before the
        turn ends. */
    method ToolPhase(e: TurnEnv, message: Message, ghost ds: seq<Delivery>, ghost spoken: Spoken)
      returns (status: Status, batch: Batched, ghost t: Turn)
      requires Valid() && Recorded() && Collected() && Spoke() && !IsFailure(message) && message.role.Assistant?
      requires spoken.final == message && Ending(Turn(ds, spoken, NoTools, mode))
      modifies this`context, this`aborted, this`newMessages, sink, sink.output
      ensures Recorded() && (old(aborted) ==> aborted)
      ensures status.Settled? ==>
                && Valid() && Collected() && Spoke() && TurnOk(t) && t.deliveries == ds && t.spoken == spoken && Ending(t)
                && batch.exchanges == ExchangesOf(t.part) && batch.messages == Results(batch.exchanges) && batch.mode == t.mode
                && (!batch.terminate <==> CallsRemain(t))
    {
      hide Agree, Sink.Valid, PrintTurns, PrintSpoken, PrintOpening, PrintPart, TurnOk, TurnsOk, PartOk, Results,
           ExchangesOf, Ends, AllAgree, LastAdoption, PrintResponses, ResponsesOk, AllTold, TranscriptAfter, StopsAfter,
           Injected, Based;
      t := Turn(ds, spoken, NoTools, mode);
      NoToolsYet(t);
      status, batch := Settled, Batched([], [], mode, true);
      if |message.calls| > 0 {
        ghost var part;
        status, batch, part := RunTools(message, e.sequentialTool, e.batch);
        if !status.Settled? { return; }
        t := Turn(ds, spoken, part, batch.mode);
        ToolTurn(t);
      } else {
        NoToolsTurn(t);
      }
      if sink.Refused() { status := Status.Thrown; }
    }

    /** From turn_end on. */
    method SettleTurn(e: TurnEnv, message: Message, batch: Batched, ghost t: Turn) returns (r: TurnResult)
      requires Valid() && Recorded() && Collected() && Spoke() && TurnOk(t) && message == t.spoken.final && !IsFailure(message)
      requires batch.exchanges == ExchangesOf(t.part) && batch.messages == Results(batch.exchanges) && batch.mode == t.mode
      requires Ending(t)
      modifies this`aborted, this`turns, this`turnEnds, this`result, sink, sink.output
      ensures Recorded() && (old(aborted) ==> aborted) && turns == old(turns) + [t]
      ensures r.Complete? ==> Valid() && Collected() && Between() && AllDropped()
      ensures r.Over? ==> RanToEnd() && sink.Valid() && Gathered() == result
      ensures !r.Again?
      ensures r.Complete? ==>
                (r.more <==> !batch.terminate) && e.outcome.Proceeds? && !e.stopAfterOutcome && !aborted
    {
      hide Agree, Sink.Valid, PrintTurns, PrintSpoken, PrintOpening, PrintPart, TurnOk, TurnsOk, PartOk, Results,
           ExchangesOf, Ends, AllAgree, LastAdoption, PrintResponses, ResponsesOk, AllTold, TranscriptAfter, Tells;
      var more := !batch.terminate;
      CloseTurn(TurnEnd(message, batch.messages, batch.mode, batch.exchanges), t);
      assert AllDropped();
      r := Decide(e, message, batch.messages, more);
    }

    /** What follows turn_end: whether the run goes on. */
    method Decide(e: TurnEnv, message: Message, results: seq<Message>, more: bool) returns (r: TurnResult)
      requires Valid() && Recorded() && Collected() && Between() && AllDropped()
      requires message in Ends(sink.trace) && forall m :: m in results ==> m in Ends(sink.trace)
      modifies this`aborted, this`result, sink, sink.output
      ensures Recorded() && (old(aborted) ==> aborted)
      ensures r.Complete? ==> Valid() && Collected() && Between() && AllDropped()
      ensures r.Over? ==> RanToEnd() && sink.Valid() && Gathered() == result
      ensures !r.Again?
      ensures r.Complete? ==> r.more == more && e.outcome.Proceeds? && !e.stopAfterOutcome && !aborted
    {
      hide Agree, Sink.Valid, PrintTurns, TurnsOk, Ends, AllAgree, LastAdoption, PrintResponses, ResponsesOk, AllTold,
           TranscriptAfter, Drops;
      RefreshAll(message, results);
      if sink.Refused() { return TurnResult.Thrown; }
      aborted := aborted || e.abortAfterTurn;
      if aborted {
        r := Stop();
        return;
      }
      if e.outcome.OutcomeThrows? { return TurnResult.Thrown; }
      aborted := e.outcome.OutcomeAborts?;
      RefreshAll(message, results);
      if sink.Refused() { return TurnResult.Thrown; }
      if aborted || e.outcome.Finishes? || e.stopAfterOutcome {
        r := Stop();
        return;
      }
      r := Complete(more);
    }
  }

  lemma {:induction false} ToolTurn(t: Turn)
    requires PartOk(t.part) && !t.part.NoTools? && !IsFailure(t.spoken.final) && t.spoken.final.calls != []
    requires t.spoken.final.role.Assistant?
    requires t.part.calls == t.spoken.final.calls
    requires (t.part.Concurrent? ==> t.mode.Parallel?) && (t.part.InTurn? ==> t.mode.Sequential?)
    ensures TurnOk(t)
  {
    hide PartOk;
  }

  lemma {:induction false} NoToolsYet(t: Turn)
    requires t.part.NoTools?
    ensures PrintPart(t.part) == [] && Results(ExchangesOf(t.part)) == []
  {}

  lemma {:induction false} NoToolsTurn(t: Turn)
    requires t.part.NoTools? && (IsFailure(t.spoken.final) || t.spoken.final.calls == []) && t.spoken.final.role.Assistant?
    ensures TurnOk(t) && EndOf(t) == TurnEnd(t.spoken.final, [], t.mode, []) && PrintPart(t.part) == []
    ensures ExchangesOf(t.part) == [] && Results([]) == []
  {
    assert Results([]) == [];
  }

  lemma {:induction false} ClosingTurn(turns: seq<Turn>, t: Turn)
    requires TurnOk(t)
    ensures var open := [AgentStart] + PrintTurns(turns) + PrintOpening(t.deliveries) + PrintSpoken(t.spoken) + PrintPart(t.part);
            && open + [EndOf(t)] == [AgentStart] + PrintTurns(turns + [t])
            && t.spoken.final in Ends(open) && forall m :: m in Results(ExchangesOf(t.part)) ==> m in Ends(open)
  {
    hide PrintSpoken, PrintPart, PrintOpening, PrintTurns, TurnOk, PartOk, TurnsOk, Injected, Results, ExchangesOf,
         Ends, Deliveries;
    var before := [AgentStart] + PrintTurns(turns);
    var open := before + PrintOpening(t.deliveries) + PrintSpoken(t.spoken) + PrintPart(t.part);
    TurnsNext(turns, t);
    assert open + [EndOf(t)] == before + PrintTurn(t);
    assert PartOk(t.part) by { PartOfTurn(t); }
    EndsOfTurn(t);
    EndsAppend(before, PrintTurn(t));
    EndsOne(open, EndOf(t));
    assert Ends(open) == Ends(before) + Said(t);
    assert Said(t)[|Injected(t.deliveries)|] == t.spoken.final;
  }

  lemma {:induction false} PartOfTurn(t: Turn)
    requires TurnOk(t)
    ensures PartOk(t.part)
  {}

  lemma {:induction false} NothingDropped(turns: seq<Turn>, ends: seq<TurnEndState>)
    requires |turns| == |ends|
    ensures Drops(turns, ends, |turns|, |turns|) == []
  {}

  lemma {:induction false} SameBuild(a: Attempt, b: Attempt)
    requires b == a.(recovering := b.recovering)
    ensures PrintBuild(a) == PrintBuild(b)
  {}

  /** What one attempt leaves of the transcript it began with. */
  function BasedOn(transcript: seq<Message>, a: Attempt): seq<Message> {
    if a.adopted.Some? then a.adopted.value else transcript
  }

  const NO_MESSAGE := Message(0, Assistant, Stop, [], "")

  lemma {:induction false} OnlyOpening(m: Message)
    ensures PrintPartial(m, []) == [MessageStart(m)]
  {}
}
