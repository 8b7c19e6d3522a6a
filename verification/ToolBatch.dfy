/** One assistant message's tool calls (packages/agent/src/agent-loop.ts,
    executeToolCalls): each call is a small process, and a batch is the
    processes with the events they have emitted. Every interleaving of
    callbacks, settlements, completions and publications is a run of `Fire`. */
module ToolBatches {
  import opened AgentMessages
  import opened UpdateLatches

  datatype Result = Result(content: string, terminate: bool)

  /** What the tool's own promise came to. */
  datatype Answer = Answered(result: Result, isError: bool) | Threw(error: string)

  datatype Executed = Executed(result: Result, isError: bool, outcome: ExecutionOutcome)

  /** What `afterToolCall` returned. */
  datatype After = NoOverride | Override(content: Option<string>, terminate: Option<bool>, isError: Option<bool>) | AfterThrew(error: string)

  datatype Phase =
    | Idle                                          // not announced yet
    | Ready(arguments: string)                      // announced and prepared
    | Running                                       // the tool has been started
    | Draining(answer: Answer)                      // updates are stopped, some may be pending
    | Done(executed: Executed, immediate: bool)     // a result, not yet published
    | Ended(exchange: Exchange, terminate: bool)
    | Abandoned                                     // its owner rejected it

  datatype Proc = Proc(phase: Phase, latch: Latch, input: string)

  datatype Batch = Batch(calls: seq<ToolCall>, mode: ExecutionMode, procs: seq<Proc>, aborted: bool, events: seq<Event>)

  datatype Step =
    | Abort
    | Admit(i: nat, accepted: bool)
    | Callback(i: nat, partialResult: string)
    | SettleCallback(i: nat, error: Option<string>)
    | ToolSettles(i: nat, answer: Answer)
    | Proceed(i: nat, abortWon: bool)
    | Publish(i: nat, after: After, accepted: bool, identity: nat)

  const ABORTED_TEXT := "Tool execution aborted"

  function ErrorResult(message: string): Result { Result(message, false) }

  function Start(calls: seq<ToolCall>, mode: ExecutionMode, aborted: bool): Batch {
    Batch(calls, mode, seq(|calls|, _ => Proc(Idle, FRESH, "")), aborted, [])
  }

  function With(b: Batch, i: nat, p: Proc): Batch
    requires i < |b.procs|
  {
    b.(procs := b.procs[i := p])
  }

  /** Where the call's promise chain stands once the latch lets it go on. */
  function Outcome(answer: Answer, l: Latch, aborted: bool, abortWon: bool): (r: Executed)
    ensures r.outcome == if answer.Answered? then Completed else if aborted then OutcomeUnknown else Failed
  {
    match answer
    case Answered(result, isError) =>
      if l.promise.Rejected? && !abortWon then
        Executed(ErrorResult(if aborted then ABORTED_TEXT else l.promise.error), true, Completed)
      else Executed(result, isError, Completed)
    case Threw(error) =>
      Executed(ErrorResult(if aborted then ABORTED_TEXT else error), true, if aborted then OutcomeUnknown else Failed)
  }

  function Or<T>(o: Option<T>, default: T): T { if o.Some? then o.value else default }

  /** `afterToolCall` may replace parts of the result, never the outcome. */
  function Finalized(executed: Executed, after: After): (r: Executed)
    ensures r.outcome == executed.outcome
  {
    match after
    case NoOverride => executed
    case Override(content, terminate, isError) =>
      Executed(Result(Or(content, executed.result.content), Or(terminate, executed.result.terminate)),
               Or(isError, executed.isError), executed.outcome)
    case AfterThrew(error) => Executed(ErrorResult(error), true, executed.outcome)
  }

  function ExchangeOf(b: Batch, i: nat, f: Executed, identity: nat): Exchange
    requires i < |b.calls| && i < |b.procs|
  {
    var call := b.calls[i];
    Exchange(i, call.id, call.name, call.arguments,
             if f.outcome.NotStarted? then None else Some(b.procs[i].input),
             b.mode, f.outcome, b.aborted, Message(identity, ToolResult, Stop, [], f.result.content))
  }

  /** A step of a started batch; a step that is not enabled changes nothing. */
  function Fire(b: Batch, s: Step): Batch
    requires |b.procs| == |b.calls|
  {
    if s.Abort? then b.(aborted := true)
    else if s.i >= |b.procs| then b
    else FireAt(b, s)
  }

  function FireAt(b: Batch, s: Step): Batch
    requires |b.procs| == |b.calls| && !s.Abort? && s.i < |b.procs|
  {
    var p := b.procs[s.i];
    match s
    case Admit(i, accepted) =>
      if !p.phase.Ready? then b
      else if b.aborted then
        With(b, i, Proc(Done(Executed(ErrorResult(ABORTED_TEXT), true, NotStarted), false), Stopped(p.latch), p.phase.arguments))
      else if !accepted then With(b, i, p.(phase := Abandoned, latch := Stopped(p.latch)))
      else With(b, i, p.(phase := Running, input := p.phase.arguments))
    case Callback(i, partialResult) =>
      if !p.phase.Running? && !p.phase.Draining? && !p.phase.Done? && !p.phase.Ended? then b
      else if !p.latch.accepting || b.aborted then b
      else With(b, i, p.(latch := Notified(p.latch, b.aborted))).(
             events := b.events + [ToolUpdate(i, b.calls[i], partialResult)])
    case SettleCallback(i, error) => With(b, i, p.(latch := Settled(p.latch, error)))
    case ToolSettles(i, answer) =>
      if !p.phase.Running? then b else With(b, i, p.(phase := Draining(answer), latch := Stopped(p.latch)))
    case Proceed(i, abortWon) =>
      if !p.phase.Draining? || (abortWon && !b.aborted) || (!abortWon && p.latch.promise.Unsettled?) then b
      else With(b, i, p.(phase := Done(Outcome(p.phase.answer, p.latch, b.aborted, abortWon), false)))
    case Publish(i, after, accepted, identity) =>
      if !p.phase.Done? then b
      else if !accepted then With(b, i, p.(phase := Abandoned))
      else
        var f := if p.phase.immediate then p.phase.executed else Finalized(p.phase.executed, after);
        var x := ExchangeOf(b, i, f, identity);
        With(b, i, p.(phase := Ended(x, f.result.terminate))).(events := b.events + [ToolEnd(i, b.calls[i], f.isError, f.result.terminate, x)])
  }

  /** What preparing a call came to: a result already, or arguments to run with. */
  datatype Preparation = Immediate(result: Result, isError: bool) | Prepared(arguments: string)

  /** A call is announced and prepared before any later one. */
  function Announce(b: Batch, i: nat, preparation: Preparation): Batch
    requires |b.procs| == |b.calls| && i < |b.calls|
  {
    var p := match preparation
      case Immediate(result, isError) => Proc(Done(Executed(result, isError, NotStarted), true), Stopped(FRESH), "")
      case Prepared(arguments) => Proc(Ready(arguments), FRESH, "");
    With(b, i, p).(events := b.events + [ToolStart(i, b.calls[i])])
  }

  // ---- what every interleaving keeps -------------------------------------------------------

  predicate Concerns(e: Event, i: nat) { IsToolEvent(e) && e.order == i }

  /** The events of one call. */
  function Own(events: seq<Event>, i: nat): seq<Event> {
    if events == [] then []
    else
      var e := events[|events| - 1];
      var before := Own(events[..|events| - 1], i);
      if Concerns(e, i) then before + [e] else before
  }

  lemma {:induction false} OwnNext(events: seq<Event>, e: Event, i: nat)
    ensures Own(events + [e], i) == (if Concerns(e, i) then Own(events, i) + [e] else Own(events, i))
  {
    assert (events + [e])[..|events|] == events;
  }

  /** A start and then updates only. */
  predicate Opening(own: seq<Event>, i: nat, call: ToolCall) {
    && own != [] && own[0] == ToolStart(i, call)
    && forall k :: 1 <= k < |own| ==> own[k].ToolUpdate? && own[k].order == i && own[k].call == call
  }

  /** A start, updates, and the end that carries the exchange; a call that was
      never started has no input it was run with and no updates. */
  predicate Whole(own: seq<Event>, i: nat, call: ToolCall, x: Exchange) {
    && |own| >= 2 && Opening(own[..|own| - 1], i, call)
    && own[|own| - 1].ToolEnd? && own[|own| - 1].exchange == x
    && own[|own| - 1].order == i && own[|own| - 1].call == call
    && x.sourceOrder == i && x.toolCallId == call.id && x.toolName == call.name && x.originalInput == call.arguments
    && x.result.role == ToolResult
    && (x.outcome.NotStarted? <==> x.executedInput.None?) && (x.outcome.NotStarted? ==> |own| == 2)
  }

  /** Whether the result that ended the call asks for the batch to be the last. */
  predicate AsksToStop(own: seq<Event>) { own != [] && own[|own| - 1].ToolEnd? && own[|own| - 1].terminate }

  /** The events of a call in its present phase; its latch is sound, every
      accepted update is an event, none comes after the stop, and without an
      abort every accepted update has settled before the end. */
  predicate ProcOk(p: Proc, own: seq<Event>, i: nat, call: ToolCall, aborted: bool) {
    && Sound(p.latch)
    && (match p.phase
        case Idle => own == [] && p.latch == FRESH
        case Ready(_) => own == [ToolStart(i, call)] && p.latch == FRESH
        case Running => Opening(own, i, call) && |own| == 1 + p.latch.accepted && p.latch.accepting
        case Draining(_) => Opening(own, i, call) && |own| == 1 + p.latch.accepted && !p.latch.accepting
        case Done(executed, _) =>
          Opening(own, i, call) && |own| == 1 + p.latch.accepted && !p.latch.accepting && (aborted || p.latch.pending == 0)
          && (executed.outcome.NotStarted? ==> p.latch.accepted == 0)
        case Ended(x, terminate) =>
          Whole(own, i, call, x) && |own| == 2 + p.latch.accepted && !p.latch.accepting && (aborted || p.latch.pending == 0)
          && (AsksToStop(own) <==> terminate)
        case Abandoned => Opening(own, i, call) && !p.latch.accepting)
  }

  predicate Events(b: Batch) {
    forall k :: 0 <= k < |b.events| ==> IsToolEvent(b.events[k]) && b.events[k].order < |b.calls|
  }

  predicate Tracks(b: Batch) {
    && |b.procs| == |b.calls|
    && Events(b)
    && forall i :: 0 <= i < |b.procs| ==> ProcOk(b.procs[i], Own(b.events, i), i, b.calls[i], b.aborted)
  }

  lemma {:induction false} StartTracks(calls: seq<ToolCall>, mode: ExecutionMode, aborted: bool)
    ensures Tracks(Start(calls, mode, aborted))
  {}

  /** One process changes and at most one event of its own is added. */
  ghost predicate Local(b: Batch, b': Batch, j: nat) {
    && |b.procs| == |b.calls| && j < |b.calls|
    && b'.calls == b.calls && b'.mode == b.mode && |b'.procs| == |b.procs| && (b.aborted ==> b'.aborted)
    && (forall i :: 0 <= i < |b.procs| && i != j ==> b'.procs[i] == b.procs[i])
    && (b'.events == b.events || exists e :: Concerns(e, j) && b'.events == b.events + [e])
  }

  lemma {:induction false} AbortKeeps(p: Proc, own: seq<Event>, i: nat, call: ToolCall, aborted: bool)
    requires ProcOk(p, own, i, call, aborted)
    ensures ProcOk(p, own, i, call, true)
  {
    hide Sound, Opening, Whole;
  }

  lemma {:induction false} OthersKeep(b: Batch, b': Batch, j: nat, i: nat)
    requires Tracks(b) && Local(b, b', j) && i < |b.procs| && i != j
    ensures ProcOk(b'.procs[i], Own(b'.events, i), i, b'.calls[i], b'.aborted)
  {
    hide ProcOk, Own, Tracks;
    TracksAt(b, i);
    if b'.events != b.events {
      var e :| Concerns(e, j) && b'.events == b.events + [e];
      OwnNext(b.events, e, i);
    }
    if b'.aborted { AbortKeeps(b.procs[i], Own(b.events, i), i, b.calls[i], b.aborted); }
  }

  lemma {:induction false} EventsKeep(b: Batch, b': Batch, j: nat)
    requires Events(b) && Local(b, b', j)
    ensures Events(b')
  {}

  lemma {:induction false} LocalKeeps(b: Batch, b': Batch, j: nat)
    requires Tracks(b) && Local(b, b', j)
    requires ProcOk(b'.procs[j], Own(b'.events, j), j, b'.calls[j], b'.aborted)
    ensures Tracks(b')
  {
    hide ProcOk, Own, Local, Events;
    assert Events(b') by { EventsKeep(b, b', j); }
    assert |b'.procs| == |b'.calls| == |b.procs| by { LocalSizes(b, b', j); }
    forall i | 0 <= i < |b'.procs|
      ensures ProcOk(b'.procs[i], Own(b'.events, i), i, b'.calls[i], b'.aborted)
    {
      if i != j { OthersKeep(b, b', j, i); }
    }
  }

  lemma {:induction false} LocalSizes(b: Batch, b': Batch, j: nat)
    requires Local(b, b', j)
    ensures |b'.procs| == |b'.calls| == |b.procs|
  {}

  lemma {:induction false} AnnounceKeeps(b: Batch, i: nat, preparation: Preparation)
    requires Tracks(b) && i < |b.calls| && b.procs[i].phase.Idle?
    ensures Tracks(Announce(b, i, preparation))
  {
    hide Own, ProcOk, Tracks;
    TracksAt(b, i);
    var e := ToolStart(i, b.calls[i]);
    var b' := Announce(b, i, preparation);
    assert Concerns(e, i) && b'.events == b.events + [e];
    OwnNext(b.events, e, i);
    AnnouncedOk(b.procs[i], b'.procs[i], Own(b.events, i), i, b.calls[i], b.aborted, preparation);
    LocalKeeps(b, b', i);
  }

  lemma {:induction false} TracksSizes(b: Batch)
    requires Tracks(b)
    ensures |b.procs| == |b.calls|
  {}

  lemma {:induction false} TracksAt(b: Batch, i: nat)
    requires Tracks(b) && i < |b.calls|
    ensures |b.procs| == |b.calls| && ProcOk(b.procs[i], Own(b.events, i), i, b.calls[i], b.aborted)
  {
    hide ProcOk, Own;
  }

  lemma {:induction false} AnnouncedOk(p: Proc, p': Proc, own: seq<Event>, i: nat, call: ToolCall, aborted: bool,
                                       preparation: Preparation)
    requires ProcOk(p, own, i, call, aborted) && p.phase.Idle?
    requires match preparation
             case Immediate(result, isError) => p' == Proc(Done(Executed(result, isError, NotStarted), true), Stopped(FRESH), "")
             case Prepared(arguments) => p' == Proc(Ready(arguments), FRESH, "")
    ensures ProcOk(p', own + [ToolStart(i, call)], i, call, aborted)
  {
    hide Sound, Stopped, Opening, Whole;
    assert own == [] && own + [ToolStart(i, call)] == [ToolStart(i, call)];
    OpeningOne(i, call);
    StopFacts(FRESH);
    FreshSound();
  }

  lemma {:induction false} FreshSound()
    ensures Sound(FRESH) && Stopped(FRESH).pending == 0 && Stopped(FRESH).accepted == 0
  {}

  lemma {:induction false} OpeningOne(i: nat, call: ToolCall)
    ensures Opening([ToolStart(i, call)], i, call)
  {}

  lemma {:induction false} OpeningMore(own: seq<Event>, i: nat, call: ToolCall, partialResult: string)
    requires Opening(own, i, call)
    ensures Opening(own + [ToolUpdate(i, call, partialResult)], i, call)
  {}

  lemma {:induction false} StopFacts(l: Latch)
    requires Sound(l)
    ensures var l' := Stopped(l); Sound(l') && !l'.accepting && l'.accepted == l.accepted && l'.pending == l.pending
  {}

  lemma {:induction false} PromiseFacts(l: Latch)
    requires Sound(l) && !l.promise.Unsettled?
    ensures !l.accepting && l.pending == 0
  {}

  lemma {:induction false} SettleFacts(l: Latch, error: Option<string>)
    requires Sound(l)
    ensures var l' := Settled(l, error);
            && Sound(l') && l'.accepting == l.accepting && l'.accepted == l.accepted && l'.pending <= l.pending
            && (l.pending == 0 ==> l' == l)
  {}

  lemma {:induction false} NotifyFacts(l: Latch)
    requires Sound(l) && l.accepting
    ensures var l' := Notified(l, false); Sound(l') && l'.accepting && l'.accepted == l.accepted + 1
  {}

  lemma {:induction false} FireIsLocal(b: Batch, s: Step)
    requires |b.procs| == |b.calls| && !s.Abort? && s.i < |b.procs|
    ensures Local(b, FireAt(b, s), s.i)
  {
    hide Outcome, Finalized, ExchangeOf, Settled, Stopped, Notified;
    var p := b.procs[s.i];
    match s
    case Callback(i, partialResult) => assert Concerns(ToolUpdate(i, b.calls[i], partialResult), i);
    case Publish(i, after, accepted, identity) =>
      if p.phase.Done? && accepted {
        assert Concerns(FireAt(b, s).events[|b.events|], i);
      }
    case _ =>
  }

  lemma {:induction false} CallbackOk(b: Batch, s: Step, own: seq<Event>)
    requires |b.procs| == |b.calls| && s.Callback? && s.i < |b.procs|
    requires ProcOk(b.procs[s.i], own, s.i, b.calls[s.i], b.aborted)
    ensures var e := ToolUpdate(s.i, b.calls[s.i], s.partialResult);
            var b' := FireAt(b, s);
            || (b' == b)
            || (b'.events == b.events + [e] && ProcOk(b'.procs[s.i], own + [e], s.i, b.calls[s.i], b.aborted))
  {
    hide Sound, Notified, Opening, Whole;
    var l := b.procs[s.i].latch;
    if l.accepting && b.procs[s.i].phase.Running? {
      NotifyFacts(l);
      OpeningMore(own, s.i, b.calls[s.i], s.partialResult);
    }
  }

  lemma {:induction false} PublishOk(b: Batch, s: Step, own: seq<Event>)
    requires |b.procs| == |b.calls| && s.Publish? && s.i < |b.procs|
    requires ProcOk(b.procs[s.i], own, s.i, b.calls[s.i], b.aborted)
    ensures var b' := FireAt(b, s);
            || (b'.events == b.events && ProcOk(b'.procs[s.i], own, s.i, b.calls[s.i], b.aborted))
            || exists e :: Concerns(e, s.i) && b'.events == b.events + [e]
                           && ProcOk(b'.procs[s.i], own + [e], s.i, b.calls[s.i], b.aborted)
  {
    hide Opening, Finalized, Sound;
    var p := b.procs[s.i];
    if p.phase.Done? && s.accepted {
      var f := if p.phase.immediate then p.phase.executed else Finalized(p.phase.executed, s.after);
      var x := ExchangeOf(b, s.i, f, s.identity);
      var e := ToolEnd(s.i, b.calls[s.i], f.isError, f.result.terminate, x);
      assert (own + [e])[..|own + [e]| - 1] == own;
      assert Concerns(e, s.i) && FireAt(b, s).events == b.events + [e];
      assert own != [] by { OpeningSome(own, s.i, b.calls[s.i]); }
      assert Whole(own + [e], s.i, b.calls[s.i], x);
    }
  }

  lemma {:induction false} OpeningSome(own: seq<Event>, i: nat, call: ToolCall)
    requires Opening(own, i, call)
    ensures own != []
  {}

  lemma {:induction false} QuietOk(b: Batch, s: Step, own: seq<Event>)
    requires |b.procs| == |b.calls| && !s.Abort? && s.i < |b.procs| && !s.Callback? && !s.Publish?
    requires ProcOk(b.procs[s.i], own, s.i, b.calls[s.i], b.aborted)
    ensures ProcOk(FireAt(b, s).procs[s.i], own, s.i, b.calls[s.i], b.aborted)
  {
    hide Outcome, Opening, Whole, Sound, Settled, Stopped;
    var p := b.procs[s.i];
    StopFacts(p.latch);
    if !p.latch.promise.Unsettled? { PromiseFacts(p.latch); }
    if s.SettleCallback? { SettleFacts(p.latch, s.error); }
    if s.Admit? {
      OpeningOne(s.i, b.calls[s.i]);
      FreshSound();
    }
  }

  lemma {:induction false} QuietIsQuiet(b: Batch, s: Step)
    requires |b.procs| == |b.calls| && !s.Abort? && s.i < |b.procs| && !s.Callback? && !s.Publish?
    ensures FireAt(b, s).events == b.events && FireAt(b, s).calls == b.calls && FireAt(b, s).aborted == b.aborted
  {
    hide Outcome, Settled, Stopped;
  }

  /** Every step of every interleaving keeps every call's events in order. */
  lemma {:induction false} FireKeeps(b: Batch, s: Step)
    requires Tracks(b)
    ensures Tracks(Fire(b, s))
  {
    hide Own, FireAt, ProcOk, Local;
    if s.Abort? {
      forall i | 0 <= i < |b.procs|
        ensures ProcOk(b.procs[i], Own(b.events, i), i, b.calls[i], true)
      {
        AbortKeeps(b.procs[i], Own(b.events, i), i, b.calls[i], b.aborted);
      }
    } else if s.i < |b.procs| {
      FireIsLocal(b, s);
      FireOk(b, s);
      LocalKeeps(b, FireAt(b, s), s.i);
    }
  }

  lemma {:induction false} FireOk(b: Batch, s: Step)
    requires Tracks(b) && !s.Abort? && s.i < |b.procs|
    ensures var b' := FireAt(b, s);
            |b'.procs| == |b.procs| && b'.calls == b.calls
            && ProcOk(b'.procs[s.i], Own(b'.events, s.i), s.i, b'.calls[s.i], b'.aborted)
  {
    hide Own, FireAt, ProcOk, Tracks;
    TracksSizes(b);
    TracksAt(b, s.i);
    FireFrame(b, s);
    var own := Own(b.events, s.i);
    if s.Callback? {
      CallbackOk(b, s, own);
      OwnNext(b.events, ToolUpdate(s.i, b.calls[s.i], s.partialResult), s.i);
    } else if s.Publish? {
      PublishOk(b, s, own);
      if FireAt(b, s).events != b.events {
        var e :| Concerns(e, s.i) && FireAt(b, s).events == b.events + [e]
                 && ProcOk(FireAt(b, s).procs[s.i], own + [e], s.i, b.calls[s.i], b.aborted);
        OwnNext(b.events, e, s.i);
      }
    } else {
      QuietOk(b, s, own);
      QuietIsQuiet(b, s);
    }
  }

  lemma {:induction false} FireFrame(b: Batch, s: Step)
    requires |b.procs| == |b.calls| && !s.Abort? && s.i < |b.procs|
    ensures var b' := FireAt(b, s); |b'.procs| == |b.procs| && b'.calls == b.calls && b'.aborted == b.aborted && b'.mode == b.mode
  {
    hide Outcome, Settled, Stopped, Notified, Finalized, ExchangeOf;
  }

  /** What has happened by a call's end: every update the latch accepted is one
      event between the start and the end, and unless the run was aborted every
      one of them has settled. */
  lemma {:induction false} EndedHasSettled(b: Batch, i: nat)
    requires Tracks(b) && i < |b.calls| && |b.procs| == |b.calls| && b.procs[i].phase.Ended?
    ensures var l := b.procs[i].latch;
            && |Own(b.events, i)| == l.accepted + 2 && !l.accepting
            && (!b.aborted ==> l.settled == l.accepted && !l.promise.Unsettled?)
  {
    hide Own, Tracks, ProcOk, Sound;
    TracksAt(b, i);
    EndedOk(b.procs[i], Own(b.events, i), i, b.calls[i], b.aborted);
    if !b.aborted { SettledAll(b.procs[i].latch); }
  }

  lemma {:induction false} EndedOk(p: Proc, own: seq<Event>, i: nat, call: ToolCall, aborted: bool)
    requires ProcOk(p, own, i, call, aborted) && p.phase.Ended?
    ensures Sound(p.latch) && |own| == p.latch.accepted + 2 && !p.latch.accepting && (aborted || p.latch.pending == 0)
  {
    hide Sound, Whole, AsksToStop, Opening;
  }

  lemma {:induction false} SettledAll(l: Latch)
    requires Sound(l) && !l.accepting && l.pending == 0
    ensures l.settled == l.accepted && !l.promise.Unsettled?
  {}
}
