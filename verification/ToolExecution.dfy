/** The two ways a batch of tool calls is driven
    (packages/agent/src/agent-loop.ts, executeToolCallsSequential and
    executeToolCallsParallel). What tools, hooks and owners do is given as the
    steps they take, in the order they happen to take them. */
module ToolExecution {
  import opened AgentMessages
  import opened UpdateLatches
  import opened InvocationOutputs
  import opened AgentSinks
  import opened ToolBatches

  /** How the environment answers while one call is announced and prepared; in a
      sequential batch, `steps` is all that happens until it is published. */
  datatype CallEnv = CallEnv(abortBefore: bool, abortDuring: bool, preparation: Preparation,
                             publication: bool, identity: nat, steps: seq<Step>)

  const DEFAULT_CALL := CallEnv(false, false, Immediate(ErrorResult("Tool not found"), true), true, 0, [])

  datatype BatchEnv = BatchEnv(calls: seq<CallEnv>, steps: seq<Step>)

  function CallOf(env: BatchEnv, k: nat): CallEnv { if k < |env.calls| then env.calls[k] else DEFAULT_CALL }

  /** Unfinished: the environment never lets the batch come to an end. */
  datatype Status = Settled | Thrown | Unfinished

  datatype Round = Round(events: seq<Event>, exchange: Exchange)

  /** The events of a batch, as the run's trace shows them. */
  datatype Part =
    | NoTools
    | Concurrent(calls: seq<ToolCall>, events: seq<Event>, exchanges: seq<Exchange>)
    | InTurn(calls: seq<ToolCall>, rounds: seq<Round>)

  function Results(exchanges: seq<Exchange>): seq<Message> {
    seq(|exchanges|, i requires 0 <= i < |exchanges| => exchanges[i].result)
  }

  function ExchangesOf(part: Part): seq<Exchange> {
    match part
    case NoTools => []
    case Concurrent(_, _, exchanges) => exchanges
    case InTurn(_, rounds) => seq(|rounds|, i requires 0 <= i < |rounds| => rounds[i].exchange)
  }

  function Rounds(rounds: seq<Round>): seq<Event> {
    if rounds == [] then []
    else
      var last := rounds[|rounds| - 1];
      Rounds(rounds[..|rounds| - 1]) + (last.events + Pair(last.exchange.result))
  }

  function PrintPart(part: Part): seq<Event> {
    match part
    case NoTools => []
    case Concurrent(_, events, exchanges) => events + Pairs(Results(exchanges))
    case InTurn(_, rounds) => Rounds(rounds)
  }

  /** Every call has exactly one start, one end and one result; concurrent calls
      have all ended before the first result message, and their results come in
      source order. In turn, each round is one whole call, and the rounds are
      the first calls of the batch. */
  predicate PartOk(part: Part) {
    match part
    case NoTools => true
    case Concurrent(calls, events, exchanges) =>
      && |exchanges| == |calls|
      && (forall k :: 0 <= k < |events| ==> IsToolEvent(events[k]) && events[k].order < |calls|)
      && (forall i :: 0 <= i < |calls| ==> Whole(Own(events, i), i, calls[i], exchanges[i]))
    case InTurn(calls, rounds) =>
      && |rounds| <= |calls|
      && (forall k :: 0 <= k < |rounds| ==> Whole(rounds[k].events, k, calls[k], rounds[k].exchange))
  }

  /** Whether every published result asks for the batch to be the last. */
  predicate StopsAfter(part: Part) {
    match part
    case NoTools => false
    case Concurrent(calls, events, _) => calls != [] && forall i :: 0 <= i < |calls| ==> AsksToStop(Own(events, i))
    case InTurn(_, rounds) => rounds != [] && AllAsk(rounds)
  }

  predicate AllAsk(rounds: seq<Round>) { forall k :: 0 <= k < |rounds| ==> AsksToStop(rounds[k].events) }

  // ---- facts about single steps --------------------------------------------------------------

  lemma {:induction false} FireAdds(b: Batch, s: Step)
    requires Tracks(b)
    ensures var b' := Fire(b, s);
            && |b'.procs| == |b.procs| && b'.calls == b.calls && b'.mode == b.mode && (b.aborted ==> b'.aborted)
            && (b'.events == b.events
                || exists e :: IsToolEvent(e) && b'.events == b.events + [e])
  {
    hide FireAt, Tracks;
    TracksSizes(b);
    if !s.Abort? && s.i < |b.procs| { FireIsLocal(b, s); }
  }

  /** A published call stays published, and an announced one announced. */
  lemma {:induction false} FirePhase(b: Batch, s: Step, i: nat)
    requires |b.procs| == |b.calls| && i < |b.procs|
    ensures var b' := Fire(b, s);
            && |b'.procs| == |b.procs|
            && (b'.procs[i].phase.Idle? <==> b.procs[i].phase.Idle?)
            && (b.procs[i].phase.Ended? ==> b'.procs[i].phase == b.procs[i].phase)
            && (b.procs[i].phase.Idle? && b.procs[i].latch == FRESH ==> b'.procs[i] == b.procs[i])
  {
    hide Outcome, Finalized, ExchangeOf, Stopped, Notified;
  }

  method EmitNew(sink: Sink, before: seq<Event>, after: seq<Event>)
    requires sink.Valid()
    requires after == before || exists e :: IsToolEvent(e) && after == before + [e]
    modifies sink, sink.output
    ensures sink.Valid() && sink.transcript == old(sink.transcript) && sink.Refused() == old(sink.Refused())
    ensures sink.trace == old(sink.trace) + after[|before|..]
    ensures |before| <= |after| && after == before + after[|before|..]
  {
    if |after| > |before| {
      sink.Emit(after[|before|]);
    }
  }

  /** Run the steps the environment takes, sending their events on. */
  method Drive(sink: Sink, b: Batch, steps: seq<Step>) returns (b': Batch)
    requires sink.Valid() && Tracks(b)
    modifies sink, sink.output
    ensures sink.Valid() && sink.transcript == old(sink.transcript) && sink.Refused() == old(sink.Refused())
    ensures Tracks(b') && b' == FireAll(b, steps)
    ensures |b.events| <= |b'.events| && b'.events == b.events + b'.events[|b.events|..]
    ensures sink.trace == old(sink.trace) + b'.events[|b.events|..]
  {
    hide Fire, Tracks;
    TracksSizes(b);
    b' := b;
    for k := 0 to |steps|
      invariant sink.Valid() && sink.transcript == old(sink.transcript) && sink.Refused() == old(sink.Refused())
      invariant Tracks(b') && b' == FireAll(b, steps[..k])
      invariant |b.events| <= |b'.events| && b'.events == b.events + b'.events[|b.events|..]
      invariant sink.trace == old(sink.trace) + b'.events[|b.events|..]
    {
      TracksSizes(b');
      var next := Fire(b', steps[k]);
      FireKeeps(b', steps[k]);
      FireAdds(b', steps[k]);
      EmitNew(sink, b'.events, next.events);
      assert steps[..k + 1][..k] == steps[..k];
      assert next.events[|b.events|..] == b'.events[|b.events|..] + next.events[|b'.events|..];
      b' := next;
    }
    assert steps[..|steps|] == steps;
  }

  function FireAll(b: Batch, steps: seq<Step>): (r: Batch)
    requires |b.procs| == |b.calls|
    ensures |r.procs| == |r.calls|
    decreases |steps|
  {
    if steps == [] then b
    else
      var r := FireAll(b, steps[..|steps| - 1]);
      FireSizes(r, steps[|steps| - 1]);
      Fire(r, steps[|steps| - 1])
  }

  lemma {:induction false} FireSizes(b: Batch, s: Step)
    requires |b.procs| == |b.calls|
    ensures |Fire(b, s).procs| == |b.procs| && Fire(b, s).calls == b.calls && Fire(b, s).mode == b.mode
  {
    hide FireAt;
    if !s.Abort? && s.i < |b.procs| { FireFrame(b, s); }
  }

  lemma {:induction false} FireAllKeeps(b: Batch, steps: seq<Step>)
    requires |b.procs| == |b.calls|
    ensures var r := FireAll(b, steps);
            && |r.procs| == |b.procs| && r.calls == b.calls && r.mode == b.mode
            && (b.aborted ==> r.aborted)
            && forall i :: 0 <= i < |b.procs| ==>
                 && (r.procs[i].phase.Idle? <==> b.procs[i].phase.Idle?)
                 && (b.procs[i].phase.Ended? ==> r.procs[i].phase == b.procs[i].phase)
                 && (b.procs[i].phase.Idle? && b.procs[i].latch == FRESH ==> r.procs[i] == b.procs[i])
    decreases |steps|
  {
    hide Fire;
    if steps != [] {
      var s := steps[|steps| - 1];
      var before := FireAll(b, steps[..|steps| - 1]);
      FireAllKeeps(b, steps[..|steps| - 1]);
      FireSizes(before, s);
      AbortStays(before, s);
      forall i | 0 <= i < |b.procs|
        ensures var r := Fire(before, s);
                && (r.procs[i].phase.Idle? <==> b.procs[i].phase.Idle?)
                && (b.procs[i].phase.Ended? ==> r.procs[i].phase == b.procs[i].phase)
                && (b.procs[i].phase.Idle? && b.procs[i].latch == FRESH ==> r.procs[i] == b.procs[i])
      {
        FirePhase(before, s, i);
      }
    }
  }

  lemma {:induction false} AbortStays(b: Batch, s: Step)
    requires |b.procs| == |b.calls|
    ensures b.aborted ==> Fire(b, s).aborted
  {
    hide FireAt;
    if !s.Abort? && s.i < |b.procs| { FireFrame(b, s); }
  }

  predicate AllEnded(b: Batch) { forall i :: 0 <= i < |b.procs| ==> b.procs[i].phase.Ended? }

  /** Every call has ended or has been rejected by its owner. */
  predicate AllSettled(b: Batch) {
    forall i :: 0 <= i < |b.procs| ==> b.procs[i].phase.Ended? || b.procs[i].phase.Abandoned?
  }

  function EndedExchanges(b: Batch): seq<Exchange>
    requires AllEnded(b)
  {
    seq(|b.procs|, i requires 0 <= i < |b.procs| => b.procs[i].phase.exchange)
  }

  /** Once every call has ended, the batch's events are those of a whole batch. */
  lemma {:induction false} EndedIsWhole(b: Batch)
    requires Tracks(b) && AllEnded(b)
    ensures PartOk(Concurrent(b.calls, b.events, EndedExchanges(b)))
    ensures StopsAfter(Concurrent(b.calls, b.events, EndedExchanges(b)))
            <==> b.procs != [] && forall i :: 0 <= i < |b.procs| ==> b.procs[i].phase.terminate
  {
    hide Own, Whole, Tracks, ProcOk, AsksToStop;
    TracksSizes(b);
    TracksEvents(b);
    forall i | 0 <= i < |b.calls|
      ensures Whole(Own(b.events, i), i, b.calls[i], b.procs[i].phase.exchange)
              && (AsksToStop(Own(b.events, i)) <==> b.procs[i].phase.terminate)
    {
      EndedOwnsWhole(b, i);
    }
  }

  lemma {:induction false} TracksEvents(b: Batch)
    requires Tracks(b)
    ensures Events(b)
  {}

  // ---- who is to blame when a batch does not settle -------------------------------------------

  /** An owner that rejects a call or its publication. */
  predicate Rejecting(s: Step) { (s.Admit? || s.Publish?) && !s.accepted }

  /** What happens to one call of a batch when it is announced and `steps` follow. */
  function AnnouncedOne(b: Batch, k: nat, e: CallEnv, steps: seq<Step>): (r: Batch)
    requires k < |b.calls| == |b.procs|
    ensures |r.procs| == |r.calls| == |b.calls|
  {
    AnnounceAdds(b, k, e.preparation);
    FireAllKeeps(Announce(b, k, e.preparation), steps);
    FireAll(Announce(b, k, e.preparation), steps)
  }

  lemma {:induction false} FireAccepts(b: Batch, s: Step, i: nat)
    requires |b.procs| == |b.calls| && i < |b.procs| && !Rejecting(s) && !b.procs[i].phase.Abandoned?
    ensures |Fire(b, s).procs| == |b.procs| && !Fire(b, s).procs[i].phase.Abandoned?
  {
    hide Outcome, Finalized, ExchangeOf, Stopped, Notified;
  }

  /** A call is abandoned only by an owner that rejects it. */
  lemma {:induction false} FireAllAccepts(b: Batch, steps: seq<Step>, i: nat)
    requires |b.procs| == |b.calls| && i < |b.procs| && !b.procs[i].phase.Abandoned?
    requires forall s :: s in steps ==> !Rejecting(s)
    ensures |FireAll(b, steps).procs| == |b.procs| && !FireAll(b, steps).procs[i].phase.Abandoned?
    decreases |steps|
  {
    hide Fire, Rejecting;
    FireAllKeeps(b, steps);
    if steps != [] {
      var before := FireAll(b, steps[..|steps| - 1]);
      FireAllKeeps(b, steps[..|steps| - 1]);
      FireAllAccepts(b, steps[..|steps| - 1], i);
      FireAccepts(before, steps[|steps| - 1], i);
    }
  }

  lemma {:induction false} AnnounceAccepts(b: Batch, k: nat, e: CallEnv, steps: seq<Step>, i: nat)
    requires k < |b.calls| == |b.procs| && i < |b.procs| && !b.procs[i].phase.Abandoned?
    requires forall s :: s in steps ==> !Rejecting(s)
    ensures !AnnouncedOne(b, k, e, steps).procs[i].phase.Abandoned?
  {
    hide Announce, FireAll, Rejecting;
    AnnounceAdds(b, k, e.preparation);
    AnnounceIsNot(b, k, e.preparation);
    FireAllAccepts(Announce(b, k, e.preparation), steps, i);
  }

  lemma {:induction false} AnnounceIsNot(b: Batch, k: nat, preparation: Preparation)
    requires k < |b.calls| == |b.procs|
    ensures !Announce(b, k, preparation).procs[k].phase.Abandoned?
  {}

  /** A call that has its result is published at once by an owner that accepts. */
  lemma {:induction false} ImmediateEnds(b: Batch, k: nat, e: CallEnv)
    requires k < |b.calls| == |b.procs| && e.preparation.Immediate? && e.publication
    ensures AnnouncedOne(b, k, e, StepsOf(e, k)).procs[k].phase.Ended?
  {
    var publish := Publish(k, NoOverride, true, e.identity);
    var b1 := Announce(b, k, e.preparation);
    var b2 := if e.abortDuring then Fire(b1, Abort) else b1;
    if e.abortDuring {
      assert StepsOf(e, k) == [Abort, publish] && [Abort, publish][..1] == [Abort] && [Abort][..0] == [];
      assert FireAll(b1, [Abort]) == Fire(FireAll(b1, []), Abort);
    } else {
      assert StepsOf(e, k) == [publish] && [publish][..0] == [];
    }
    assert FireAll(b1, StepsOf(e, k)) == Fire(b2, publish);
    assert b2.procs[k].phase.Done?;
  }

  // ---- a concurrent batch ---------------------------------------------------------------------

  /** What follows the announcement of a call before the next one is announced. */
  function FirstSteps(e: CallEnv, k: nat): seq<Step> {
    if e.preparation.Immediate? then StepsOf(e, k) else if e.abortDuring then [Abort] else []
  }

  /** The first `n` calls announced one after another; false when an owner has
      rejected a publication, after which nothing more is announced. */
  function AnnouncedUpTo(calls: seq<ToolCall>, env: BatchEnv, aborted: bool, n: nat): (r: (bool, Batch))
    requires n <= |calls|
    ensures |r.1.procs| == |r.1.calls| == |calls|
  {
    if n == 0 then (true, Start(calls, Parallel, aborted))
    else
      var before := AnnouncedUpTo(calls, env, aborted, n - 1);
      if !before.0 then before
      else
        var e := CallOf(env, n - 1);
        var b := AnnouncedOne(before.1, n - 1, e, FirstSteps(e, n - 1));
        (e.preparation.Prepared? || b.procs[n - 1].phase.Ended?, b)
  }

  lemma {:induction false} StaysStopped(calls: seq<ToolCall>, env: BatchEnv, aborted: bool, n: nat, m: nat)
    requires n <= m <= |calls| && !AnnouncedUpTo(calls, env, aborted, n).0
    ensures AnnouncedUpTo(calls, env, aborted, m) == AnnouncedUpTo(calls, env, aborted, n)
    decreases m
  {
    hide AnnouncedOne, FirstSteps;
    if n < m { StaysStopped(calls, env, aborted, n, m - 1); }
  }

  predicate RejectsAtOnce(e: CallEnv) { e.preparation.Immediate? && !e.publication }

  /** Some owner of a concurrent batch rejects a call or its publication. */
  predicate ConcurrentRejects(env: BatchEnv, n: nat) {
    || (exists k: nat :: k < n && RejectsAtOnce(CallOf(env, k)))
    || (exists s :: s in env.steps && Rejecting(s))
  }

  lemma {:induction false} AcceptedAnnounce(calls: seq<ToolCall>, env: BatchEnv, aborted: bool, n: nat)
    requires n <= |calls| && !ConcurrentRejects(env, n)
    ensures var r := AnnouncedUpTo(calls, env, aborted, n);
            r.0 && forall i :: 0 <= i < |calls| ==> !r.1.procs[i].phase.Abandoned?
    decreases n
  {
    hide AnnouncedOne, StepsOf, CallOf;
    if n > 0 {
      AcceptedAnnounce(calls, env, aborted, n - 1);
      var before := AnnouncedUpTo(calls, env, aborted, n - 1).1;
      var e := CallOf(env, n - 1);
      assert !RejectsAtOnce(e);
      if e.preparation.Immediate? { ImmediateEnds(before, n - 1, e); }
      var after := AnnouncedOne(before, n - 1, e, FirstSteps(e, n - 1));
      forall i | 0 <= i < |calls|
        ensures !after.procs[i].phase.Abandoned?
      {
        FirstAccepts(e, n - 1);
        AnnounceAccepts(before, n - 1, e, FirstSteps(e, n - 1), i);
      }
    }
  }

  lemma {:induction false} FirstAccepts(e: CallEnv, k: nat)
    requires e.preparation.Immediate? ==> e.publication
    ensures forall s :: s in FirstSteps(e, k) ==> !Rejecting(s)
  {}

  /** Where no owner rejects anything, no call of a concurrent batch is abandoned. */
  lemma {:induction false} AcceptedRuns(calls: seq<ToolCall>, env: BatchEnv, aborted: bool)
    requires !ConcurrentRejects(env, |calls|)
    ensures var r := AnnouncedUpTo(calls, env, aborted, |calls|);
            var b := FireAll(r.1, env.steps);
            && r.0 && |b.procs| == |calls| && (AllSettled(b) ==> AllEnded(b))
  {
    hide AnnouncedUpTo, FireAll, Rejecting;
    AcceptedAnnounce(calls, env, aborted, |calls|);
    var b := AnnouncedUpTo(calls, env, aborted, |calls|).1;
    FireAllKeeps(b, env.steps);
    var after := FireAll(b, env.steps);
    forall i | 0 <= i < |calls|
      ensures !after.procs[i].phase.Abandoned?
    {
      FireAllAccepts(b, env.steps, i);
    }
  }

  datatype Batched = Batched(messages: seq<Message>, exchanges: seq<Exchange>, mode: ExecutionMode, terminate: bool)

  const NOTHING := Batched([], [], Parallel, false)

  /** One call is announced and prepared, and published if it has its result. */
  method AnnounceOne(sink: Sink, b: Batch, k: nat, e: CallEnv) returns (b': Batch)
    requires sink.Valid() && Tracks(b) && k < |b.calls| == |b.procs| && b.procs[k].phase.Idle?
    modifies sink, sink.output
    ensures sink.Valid() && sink.transcript == old(sink.transcript) && sink.Refused() == old(sink.Refused())
    ensures Tracks(b') && Extended(b, b') && sink.trace == old(sink.trace) + b'.events[|b.events|..]
    ensures SamePhases(b, b', k) && b' == AnnouncedOne(b, k, e, FirstSteps(e, k))
  {
    hide Tracks, Fire, FireAll, Announce, Sink.Valid, StepsOf, Extended, SamePhases;
    var announced := Announce(b, k, e.preparation);
    AnnounceKeeps(b, k, e.preparation);
    sink.Emit(ToolStart(k, b.calls[k]));
    var steps := FirstSteps(e, k);
    TracksSizes(announced);
    b' := Drive(sink, announced, steps);
    AnnounceRuns(b, k, e.preparation, steps, b');
  }

  lemma {:induction false} AnnounceRuns(b: Batch, k: nat, preparation: Preparation, steps: seq<Step>, b': Batch)
    requires k < |b.calls| == |b.procs| && b.procs[k].phase.Idle?
    requires var announced := Announce(b, k, preparation);
             && |announced.procs| == |announced.calls| && b' == FireAll(announced, steps)
             && |announced.events| <= |b'.events| && b'.events == announced.events + b'.events[|announced.events|..]
    ensures Extended(b, b') && SamePhases(b, b', k)
    ensures b'.events[|b.events|..] == [ToolStart(k, b.calls[k])] + b'.events[|Announce(b, k, preparation).events|..]
  {
    hide Announce, FireAll;
    var announced := Announce(b, k, preparation);
    AnnounceAdds(b, k, preparation);
    FireAllKeeps(announced, steps);
    assert b'.events == b.events + ([ToolStart(k, b.calls[k])] + b'.events[|announced.events|..]);
  }

  /** The same batch, further on. */
  predicate Extended(b: Batch, b': Batch) {
    && b'.calls == b.calls && |b'.procs| == |b.procs| == |b.calls| && (b.aborted ==> b'.aborted)
    && |b.events| <= |b'.events| && b'.events == b.events + b'.events[|b.events|..]
  }

  /** Only call `k` has been announced. */
  predicate SamePhases(b: Batch, b': Batch, k: nat) {
    && |b'.procs| == |b.procs| && k < |b.procs|
    && forall i :: 0 <= i < |b.procs| ==> (b'.procs[i].phase.Idle? <==> b.procs[i].phase.Idle? && i != k)
  }

  /** The calls are announced and prepared one after another; a call that has its
      result already is published before the next one. False: an owner rejected
      a publication, and the rest is never started. */
  method AnnounceAll(sink: Sink, calls: seq<ToolCall>, env: BatchEnv, aborted: bool) returns (ok: bool, b: Batch)
    requires sink.Valid()
    modifies sink, sink.output
    ensures sink.Valid() && sink.transcript == old(sink.transcript) && sink.Refused() == old(sink.Refused())
    ensures Tracks(b) && b.calls == calls && (aborted ==> b.aborted)
    ensures sink.trace == old(sink.trace) + b.events
    ensures ok ==> forall i :: 0 <= i < |b.procs| ==> !b.procs[i].phase.Idle?
    ensures (ok, b) == AnnouncedUpTo(calls, env, aborted, |calls|)
  {
    hide Tracks, Fire, Announce, Sink.Valid, AnnouncedOne, FirstSteps;
    b := Start(calls, Parallel, aborted);
    StartTracks(calls, Parallel, aborted);
    assert sink.trace == old(sink.trace) + b.events;
    for k := 0 to |calls|
      invariant sink.Valid() && sink.transcript == old(sink.transcript) && sink.Refused() == old(sink.Refused())
      invariant Tracks(b) && b.calls == calls && |b.procs| == |calls| && (aborted ==> b.aborted)
      invariant sink.trace == old(sink.trace) + b.events
      invariant forall i :: 0 <= i < |b.procs| ==> (b.procs[i].phase.Idle? <==> k <= i)
      invariant (true, b) == AnnouncedUpTo(calls, env, aborted, k)
    {
      var e := CallOf(env, k);
      b := AnnounceOne(sink, b, k, e);
      assert AnnouncedUpTo(calls, env, aborted, k + 1) == (e.preparation.Prepared? || b.procs[k].phase.Ended?, b);
      if e.preparation.Immediate? && !b.procs[k].phase.Ended? {
        StaysStopped(calls, env, aborted, k + 1, |calls|);
        return false, b;
      }
    }
    ok := true;
  }

  lemma {:induction false} AnnounceAdds(b: Batch, i: nat, preparation: Preparation)
    requires |b.procs| == |b.calls| && i < |b.calls|
    ensures var b' := Announce(b, i, preparation);
            && b'.events == b.events + [ToolStart(i, b.calls[i])] && b'.calls == b.calls && b'.mode == b.mode
            && b'.aborted == b.aborted && |b'.procs| == |b.procs|
            && !b'.procs[i].phase.Idle? && (forall j :: 0 <= j < |b.procs| && j != i ==> b'.procs[j] == b.procs[j])
            && IsToolEvent(ToolStart(i, b.calls[i]))
  {}

  /** The batch settles exactly when every call is announced and ends; it throws
      exactly when it was rejected: at a publication that stops the announcing, or
      when the others have settled. Otherwise some call never does. */
  method ExecuteToolCallsParallel(sink: Sink, calls: seq<ToolCall>, env: BatchEnv, aborted: bool)
    returns (status: Status, batch: Batched, aborted': bool, ghost part: Part)
    requires sink.Valid()
    modifies sink, sink.output
    ensures sink.Valid() && (aborted ==> aborted') && (old(sink.Refused()) ==> sink.Refused())
    ensures status.Settled? ==>
              && part.Concurrent? && part.calls == calls && PartOk(part)
              && sink.trace == old(sink.trace) + PrintPart(part)
              && (batch.terminate <==> StopsAfter(part))
              && batch.mode.Parallel? && batch.exchanges == ExchangesOf(part) && batch.messages == Results(batch.exchanges)
              && sink.transcript == old(sink.transcript) + batch.messages
    ensures var announced := AnnouncedUpTo(calls, env, aborted, |calls|);
            var b := FireAll(announced.1, env.steps);
            && (status.Settled? <==> announced.0 && AllEnded(b))
            && (status.Unfinished? <==> announced.0 && !AllSettled(b))
            && (status.Settled? ==> part.events == b.events)
    ensures status.Thrown? ==> ConcurrentRejects(env, |calls|)
  {
    hide Tracks, Fire, FireAll, PartOk, Pairs, Results, AnnouncedUpTo, ConcurrentRejects;
    if !ConcurrentRejects(env, |calls|) { AcceptedRuns(calls, env, aborted); }
    status, batch, aborted', part := Thrown, NOTHING, aborted, NoTools;
    ghost var start := sink.trace;
    var ok, b := AnnounceAll(sink, calls, env, aborted);
    aborted' := b.aborted;
    if !ok { return; }
    TracksSizes(b);
    FireAllKeeps(b, env.steps);
    ghost var announced := b.events;
    b := Drive(sink, b, env.steps);
    assert start + announced + b.events[|announced|..] == start + b.events;
    aborted' := b.aborted;
    if !AllSettled(b) {
      status := Unfinished;
      return;
    }
    var exchanges, terminate := EmitResults(sink, b);
    if !AllEnded(b) { return; }
    status := Settled;
    batch := Batched(Results(exchanges), exchanges, Parallel, terminate);
    part := Concurrent(calls, b.events, exchanges);
    EndedIsWhole(b);
    assert start + b.events + Pairs(batch.messages) == start + (b.events + Pairs(batch.messages));
  }

  /** The result messages of the published calls, in source order; a rejected
      call is skipped, and makes the batch fail afterwards. */
  method EmitResults(sink: Sink, b: Batch) returns (exchanges: seq<Exchange>, terminate: bool)
    requires sink.Valid()
    modifies sink, sink.output
    ensures sink.Valid() && (old(sink.Refused()) ==> sink.Refused())
    ensures sink.trace == old(sink.trace) + Pairs(Results(exchanges))
    ensures sink.transcript == old(sink.transcript) + Results(exchanges)
    ensures AllEnded(b) ==> exchanges == EndedExchanges(b)
    ensures AllEnded(b) ==>
              (terminate <==> b.procs != [] && forall i :: 0 <= i < |b.procs| ==> b.procs[i].phase.terminate)
  {
    hide Pairs, Results;
    exchanges, terminate := [], |b.procs| > 0;
    assert Pairs(Results([])) == [] && Results([]) == [] by { NoResults(); }
    for k := 0 to |b.procs|
      invariant sink.Valid() && (old(sink.Refused()) ==> sink.Refused())
      invariant sink.trace == old(sink.trace) + Pairs(Results(exchanges))
      invariant sink.transcript == old(sink.transcript) + Results(exchanges)
      invariant AllEnded(b) ==> |exchanges| == k && forall i :: 0 <= i < k ==> exchanges[i] == b.procs[i].phase.exchange
      invariant AllEnded(b) ==> (terminate <==> b.procs != [] && forall i :: 0 <= i < k ==> b.procs[i].phase.terminate)
    {
      if b.procs[k].phase.Ended? {
        var exchange := b.procs[k].phase.exchange;
        EmitPair(sink, exchange.result);
        ResultsOneMore(exchanges, exchange);
        PairsOneMore(Results(exchanges), exchange.result);
        exchanges := exchanges + [exchange];
        terminate := terminate && b.procs[k].phase.terminate;
      }
    }
  }

  lemma {:induction false} NoResults()
    ensures Results([]) == [] && Pairs([]) == [] && Rounds([]) == []
  {}

  lemma {:induction false} PairsOneMore(messages: seq<Message>, m: Message)
    ensures Pairs(messages + [m]) == Pairs(messages) + Pair(m)
  {
    assert (messages + [m])[..|messages|] == messages;
  }

  lemma {:induction false} ResultsOneMore(exchanges: seq<Exchange>, x: Exchange)
    ensures Results(exchanges + [x]) == Results(exchanges) + [x.result]
  {}

  method EmitPair(sink: Sink, m: Message)
    requires sink.Valid()
    modifies sink, sink.output
    ensures sink.Valid() && (old(sink.Refused()) ==> sink.Refused())
    ensures sink.trace == old(sink.trace) + Pair(m) && sink.transcript == old(sink.transcript) + [m]
  {
    sink.Emit(MessageStart(m));
    sink.Emit(MessageEnd(m));
  }

  // ---- a batch in turn ----------------------------------------------------------------------------

  /** Every call but `k` is published or not announced yet. */
  predicate OthersRest(procs: seq<Proc>, k: nat) {
    forall j :: 0 <= j < |procs| && j != k ==>
      || (procs[j].phase.Ended? && !procs[j].latch.accepting)
      || (procs[j].phase.Idle? && procs[j].latch == FRESH)
  }

  lemma {:induction false} RestStep(b: Batch, s: Step, k: nat)
    requires |b.procs| == |b.calls| && k < |b.procs| && OthersRest(b.procs, k)
    ensures OthersRest(Fire(b, s).procs, k)
    ensures Fire(b, s).events == b.events || exists e :: Concerns(e, k) && Fire(b, s).events == b.events + [e]
  {
    hide Outcome, Finalized, ExchangeOf, Notified;
    if !s.Abort? && s.i < |b.procs| {
      if s.i == k {
        hide FireAt, OthersRest;
        FireIsLocal(b, s);
        RestElsewhere(b, FireAt(b, s), k);
      } else {
        RestAt(b, s, k);
      }
    }
  }

  lemma {:induction false} RestElsewhere(b: Batch, b': Batch, k: nat)
    requires OthersRest(b.procs, k) && Local(b, b', k)
    ensures OthersRest(b'.procs, k)
  {}

  lemma {:induction false} RestAt(b: Batch, s: Step, k: nat)
    requires |b.procs| == |b.calls| && OthersRest(b.procs, k) && !s.Abort? && s.i < |b.procs| && s.i != k
    ensures OthersRest(FireAt(b, s).procs, k) && FireAt(b, s).events == b.events
  {
    hide Outcome, Finalized, ExchangeOf, Notified;
  }

  /** The events of a run of steps are all of the one call that is under way. */
  lemma {:induction false} RestAll(b: Batch, steps: seq<Step>, k: nat)
    requires |b.procs| == |b.calls| && k < |b.procs| && OthersRest(b.procs, k)
    ensures var r := FireAll(b, steps);
            && OthersRest(r.procs, k) && |b.events| <= |r.events| && r.events == b.events + r.events[|b.events|..]
            && Own(r.events, k) == Own(b.events, k) + r.events[|b.events|..]
    decreases |steps|
  {
    hide Fire, OthersRest, Own;
    if steps != [] {
      var s := steps[|steps| - 1];
      var r := FireAll(b, steps[..|steps| - 1]);
      RestAll(b, steps[..|steps| - 1], k);
      FireAllKeeps(b, steps[..|steps| - 1]);
      RestStep(r, s, k);
      if Fire(r, s).events != r.events {
        var e :| Concerns(e, k) && Fire(r, s).events == r.events + [e];
        OwnNext(r.events, e, k);
        assert (r.events + [e])[|b.events|..] == r.events[|b.events|..] + [e];
      }
    }
  }

  const UNTOUCHED := Proc(Idle, FRESH, "")

  /** Call `k` alone was run; if it was published, `events` is one whole call. */
  predicate RoundRun(b: Batch, k: nat, events: seq<Event>, b': Batch) {
    && k < |b.procs| == |b.calls| && |b'.procs| == |b.procs| && b'.calls == b.calls && (b.aborted ==> b'.aborted)
    && OthersRest(b'.procs, k)
    && b'.mode == b.mode && (forall j :: 0 <= j < |b.procs| && j != k && b.procs[j] == UNTOUCHED ==> b'.procs[j] == UNTOUCHED)
    && (b'.procs[k].phase.Ended? ==>
          Whole(events, k, b.calls[k], b'.procs[k].phase.exchange) && (AsksToStop(events) <==> b'.procs[k].phase.terminate))
  }

  /** Announce one call and run it to its publication. */
  method RunOne(sink: Sink, b: Batch, k: nat, e: CallEnv) returns (b': Batch, ghost events: seq<Event>)
    requires sink.Valid() && Tracks(b) && k < |b.calls| == |b.procs| && OthersRest(b.procs, k) && b.procs[k].phase.Idle?
    modifies sink, sink.output
    ensures sink.Valid() && sink.transcript == old(sink.transcript) && sink.Refused() == old(sink.Refused())
    ensures Tracks(b') && RoundRun(b, k, events, b') && b' == AnnouncedOne(b, k, e, StepsOf(e, k))
    ensures sink.trace == old(sink.trace) + events
  {
    hide Fire, FireAll, Own, Announce, Tracks, Whole, OthersRest, Sound, Opening, StepsOf, RoundFrom, AsksToStop;
    TracksSizes(b);
    var announced := Announce(b, k, e.preparation);
    AnnounceKeeps(b, k, e.preparation);
    sink.Emit(ToolStart(k, b.calls[k]));
    var steps := StepsOf(e, k);
    b' := Drive(sink, announced, steps);
    events := [ToolStart(k, b.calls[k])] + b'.events[|announced.events|..];
    RoundBegins(b, k, e.preparation, announced, steps, b');
    RoundFrame(b, k, announced, steps, b');
    RoundIsWhole(b, k, announced, steps, b');
  }

  /** `b'` is what `b` becomes when call `k` is announced and `steps` are run. */
  predicate RoundFrom(b: Batch, k: nat, announced: Batch, steps: seq<Step>, b': Batch) {
    && k < |b.calls| && |b.procs| == |b.calls| && OthersRest(b.procs, k) && b.procs[k].phase.Idle?
    && announced.calls == b.calls && |announced.procs| == |b.procs| && announced.aborted == b.aborted && announced.mode == b.mode
    && announced.events == b.events + [ToolStart(k, b.calls[k])]
    && (forall j :: 0 <= j < |b.procs| && j != k ==> announced.procs[j] == b.procs[j])
    && b' == FireAll(announced, steps) && |announced.events| <= |b'.events|
  }

  lemma {:induction false} RoundBegins(b: Batch, k: nat, preparation: Preparation, announced: Batch, steps: seq<Step>, b': Batch)
    requires k < |b.calls| && |b.procs| == |b.calls| && OthersRest(b.procs, k) && b.procs[k].phase.Idle?
    requires announced == Announce(b, k, preparation) && b' == FireAll(announced, steps) && |announced.events| <= |b'.events|
    ensures RoundFrom(b, k, announced, steps, b')
  {
    hide Announce, FireAll, OthersRest;
    AnnounceAdds(b, k, preparation);
  }

  lemma {:induction false} RoundFrame(b: Batch, k: nat, announced: Batch, steps: seq<Step>, b': Batch)
    requires RoundFrom(b, k, announced, steps, b')
    ensures |b.procs| == |b.calls| && b'.calls == b.calls && |b'.procs| == |b.procs| && OthersRest(b'.procs, k)
    ensures b.aborted ==> b'.aborted
    ensures b'.mode == b.mode
    ensures forall j :: 0 <= j < |b.procs| && j != k && b.procs[j] == UNTOUCHED ==> b'.procs[j] == UNTOUCHED
    ensures Own(b'.events, k) == Own(announced.events, k) + b'.events[|announced.events|..]
  {
    hide FireAll, Own, OthersRest;
    AnnouncedRest(b, announced, k);
    RestAll(announced, steps, k);
    FireAllKeeps(announced, steps);
  }

  lemma {:induction false} RoundIsWhole(b: Batch, k: nat, announced: Batch, steps: seq<Step>, b': Batch)
    requires Tracks(b) && Tracks(b') && RoundFrom(b, k, announced, steps, b')
    ensures |b.procs| == |b.calls| && b'.calls == b.calls && |b'.procs| == |b.procs|
    ensures b'.procs[k].phase.Ended? ==>
              var events := [ToolStart(k, b.calls[k])] + b'.events[|announced.events|..];
              && Whole(events, k, b.calls[k], b'.procs[k].phase.exchange)
              && (AsksToStop(events) <==> b'.procs[k].phase.terminate)
  {
    hide FireAll, Own, Tracks, Whole, OthersRest, AsksToStop;
    RoundFrame(b, k, announced, steps, b');
    IdleOwnsNothing(b, k);
    OwnNext(b.events, ToolStart(k, b.calls[k]), k);
    assert Own(b'.events, k) == [ToolStart(k, b.calls[k])] + b'.events[|announced.events|..];
    if b'.procs[k].phase.Ended? { EndedOwnsWhole(b', k); }
  }

  function StepsOf(e: CallEnv, k: nat): seq<Step> {
    (if e.abortDuring then [Abort] else [])
    + (if e.preparation.Immediate? then [Publish(k, NoOverride, e.publication, e.identity)] else e.steps)
  }

  lemma {:induction false} IdleOwnsNothing(b: Batch, k: nat)
    requires Tracks(b) && k < |b.calls|
    ensures |b.procs| == |b.calls| && (b.procs[k].phase.Idle? ==> Own(b.events, k) == [])
  {
    hide Own;
  }

  lemma {:induction false} EndedOwnsWhole(b: Batch, k: nat)
    requires Tracks(b) && k < |b.calls| && |b.procs| == |b.calls| && b.procs[k].phase.Ended?
    ensures Whole(Own(b.events, k), k, b.calls[k], b.procs[k].phase.exchange) && !b.procs[k].latch.accepting
    ensures AsksToStop(Own(b.events, k)) <==> b.procs[k].phase.terminate
  {
    hide Own, Whole, Tracks, Sound, AsksToStop;
    TracksAt(b, k);
  }

  lemma {:induction false} AnnouncedRest(b: Batch, b': Batch, k: nat)
    requires OthersRest(b.procs, k) && |b'.procs| == |b.procs|
    requires forall j :: 0 <= j < |b.procs| && j != k ==> b'.procs[j] == b.procs[j]
    ensures OthersRest(b'.procs, k)
  {}

  // ---- one call by itself ----------------------------------------------------------------------------

  /** Call `k` run in a batch where nothing else happens. */
  function Alone(calls: seq<ToolCall>, k: nat, e: CallEnv): Batch
    requires k < |calls|
  {
    AnnouncedOne(Start(calls, Sequential, false), k, e, StepsOf(e, k))
  }

  function PhaseAlone(calls: seq<ToolCall>, k: nat, e: CallEnv): Phase
    requires k < |calls|
  {
    Alone(calls, k, e).procs[k].phase
  }

  /** Two batches in which the same can happen to call `k`. */
  predicate Alike(b: Batch, c: Batch, k: nat) {
    && |b.procs| == |b.calls| && |c.procs| == |c.calls| && k < |b.calls| && b.calls == c.calls && b.mode == c.mode
    && b.aborted == c.aborted && b.procs[k] == c.procs[k]
  }

  lemma {:induction false} FireAlike(b: Batch, c: Batch, s: Step, k: nat)
    requires Alike(b, c, k)
    ensures Alike(Fire(b, s), Fire(c, s), k)
  {
    if !s.Abort? && s.i == k && k < |b.procs| { FireAtAlike(b, c, s, k); } else { FireElsewhere(b, s, k); FireElsewhere(c, s, k); }
  }

  lemma {:induction false} FireElsewhere(b: Batch, s: Step, k: nat)
    requires |b.procs| == |b.calls| && k < |b.procs| && (s.Abort? || s.i != k)
    ensures var b' := Fire(b, s);
            && |b'.procs| == |b.procs| && b'.procs[k] == b.procs[k] && b'.calls == b.calls && b'.mode == b.mode
            && b'.aborted == (b.aborted || s.Abort?)
  {
    hide FireAt;
    if !s.Abort? && s.i < |b.procs| {
      FireIsLocal(b, s);
      FireFrame(b, s);
    }
  }

  lemma {:induction false} FireAtAlike(b: Batch, c: Batch, s: Step, k: nat)
    requires Alike(b, c, k) && !s.Abort? && s.i == k
    ensures Alike(Fire(b, s), Fire(c, s), k)
  {
    hide Outcome, Finalized, Stopped, Notified, UpdateLatches.Settled;
  }

  lemma {:induction false} FireAllAlike(b: Batch, c: Batch, steps: seq<Step>, k: nat)
    requires Alike(b, c, k)
    ensures Alike(FireAll(b, steps), FireAll(c, steps), k)
    decreases |steps|
  {
    hide Fire, Alike;
    assert |b.procs| == |b.calls| && |c.procs| == |c.calls| by { AlikeSizes(b, c, k); }
    if steps != [] {
      FireAllAlike(b, c, steps[..|steps| - 1], k);
      FireAlike(FireAll(b, steps[..|steps| - 1]), FireAll(c, steps[..|steps| - 1]), steps[|steps| - 1], k);
    }
  }

  lemma {:induction false} AlikeSizes(b: Batch, c: Batch, k: nat)
    requires Alike(b, c, k)
    ensures |b.procs| == |b.calls| && |c.procs| == |c.calls|
  {}

  /** What a call comes to in turn is what it comes to by itself. */
  lemma {:induction false} AloneIsSo(b: Batch, k: nat, e: CallEnv)
    requires k < |b.calls| == |b.procs| && b.mode.Sequential? && !b.aborted && b.procs[k] == UNTOUCHED
    ensures AnnouncedOne(b, k, e, StepsOf(e, k)).procs[k].phase == PhaseAlone(b.calls, k, e)
  {
    hide FireAll;
    var c := Start(b.calls, Sequential, false);
    assert Alike(Announce(b, k, e.preparation), Announce(c, k, e.preparation), k);
    FireAllAlike(Announce(b, k, e.preparation), Announce(c, k, e.preparation), StepsOf(e, k), k);
  }

  /** An owner of a call in turn rejects it or its publication. */
  predicate RejectsInTurn(e: CallEnv) {
    if e.preparation.Immediate? then !e.publication else exists s :: s in e.steps && Rejecting(s)
  }

  /** Some owner of a batch in turn rejects a call or its publication. */
  predicate TurnRejects(env: BatchEnv, n: nat) { exists k: nat :: k < n && RejectsInTurn(CallOf(env, k)) }

  /** Some owner rejects a call or its publication. */
  predicate SomeRejects(env: BatchEnv, n: nat) { ConcurrentRejects(env, n) || TurnRejects(env, n) }

  lemma {:induction false} AbandonedWasRejected(calls: seq<ToolCall>, k: nat, e: CallEnv)
    requires k < |calls| && PhaseAlone(calls, k, e).Abandoned?
    ensures RejectsInTurn(e)
  {
    hide AnnouncedOne;
    if !RejectsInTurn(e) { AnnounceAccepts(Start(calls, Sequential, false), k, e, StepsOf(e, k), k); }
  }

  /** Before call `k` of a batch in turn: the rounds so far, each one whole call
      that came to what it comes to by itself; the calls to come are untouched. */
  predicate TurnsTaken(calls: seq<ToolCall>, env: BatchEnv, b: Batch, rounds: seq<Round>, exchanges: seq<Exchange>,
                       terminate: bool, k: nat)
  {
    && k <= |calls| && b.calls == calls && |b.procs| == |calls| && b.mode.Sequential?
    && (k < |calls| ==> OthersRest(b.procs, k))
    && (forall j :: k <= j < |calls| ==> b.procs[j] == UNTOUCHED)
    && |rounds| == k && RoundsOk(calls, rounds, exchanges) && (terminate <==> AllAsk(rounds))
    && (forall j: nat :: j < k ==> SettlesAs(PhaseAlone(calls, j, CallOf(env, j)), rounds[j].exchange))
  }

  lemma {:induction false} NoTurnTaken(calls: seq<ToolCall>, env: BatchEnv, aborted: bool)
    ensures TurnsTaken(calls, env, Start(calls, Sequential, aborted), [], [], true, 0)
  {
    hide PhaseAlone;
    NoRounds(calls);
  }

  lemma {:induction false} TurnsBasics(calls: seq<ToolCall>, env: BatchEnv, b: Batch, rounds: seq<Round>,
                                       exchanges: seq<Exchange>, terminate: bool, k: nat)
    requires TurnsTaken(calls, env, b, rounds, exchanges, terminate, k)
    ensures b.calls == calls && |b.procs| == |calls| && |rounds| == k == |exchanges|
    ensures k < |calls| ==> OthersRest(b.procs, k) && b.procs[k] == UNTOUCHED
    ensures RoundsOk(calls, rounds, exchanges) && (terminate <==> AllAsk(rounds))
    ensures forall j: nat :: j < k ==> SettlesAs(PhaseAlone(calls, j, CallOf(env, j)), rounds[j].exchange)
    ensures TurnsTaken(calls, env, b.(aborted := true), rounds, exchanges, terminate, k)
  {
    hide PhaseAlone, OthersRest, Whole;
  }

  /** One call more. */
  lemma {:induction false} TurnTaken(calls: seq<ToolCall>, env: BatchEnv, b: Batch, rounds: seq<Round>, exchanges: seq<Exchange>,
                                     terminate: bool, k: nat, b': Batch, events: seq<Event>)
    requires TurnsTaken(calls, env, b, rounds, exchanges, terminate, k) && k < |calls| && !b.aborted
    requires RoundRun(b, k, events, b') && Tracks(b') && b' == AnnouncedOne(b, k, CallOf(env, k), StepsOf(CallOf(env, k), k))
    ensures |b'.procs| == |calls| && b'.procs[k].phase == PhaseAlone(calls, k, CallOf(env, k))
    ensures b'.procs[k].phase.Ended? ==>
              var x := b'.procs[k].phase.exchange;
              && TurnsTaken(calls, env, b', rounds + [Round(events, x)], exchanges + [x],
                            terminate && b'.procs[k].phase.terminate, k + 1)
              && Rounds(rounds + [Round(events, x)]) == Rounds(rounds) + (events + Pair(x.result))
  {
    hide AnnouncedOne, PhaseAlone, Tracks, Whole, OthersRest, RoundsOk, AllAsk, AsksToStop;
    AloneIsSo(b, k, CallOf(env, k));
    if b'.procs[k].phase.Ended? {
      RoundsOneMore(calls, rounds, exchanges, Round(events, b'.procs[k].phase.exchange));
      if k + 1 < |calls| { RestNext(b', k); }
    }
  }

  /** Each call is run to its publication and its result sent before the next
      one is announced; an abort or a refusal ends the batch early. It throws only
      when an owner rejects one of the calls, and otherwise settles unless some
      call, by itself, never ends. */
  method ExecuteToolCallsSequential(sink: Sink, calls: seq<ToolCall>, env: BatchEnv, aborted: bool)
    returns (status: Status, batch: Batched, aborted': bool, ghost part: Part)
    requires sink.Valid()
    modifies sink, sink.output
    ensures sink.Valid() && (aborted ==> aborted') && (old(sink.Refused()) ==> sink.Refused())
    ensures status.Settled? ==>
              && part.InTurn? && part.calls == calls && PartOk(part)
              && (!aborted' && !sink.Refused() ==> |part.rounds| == |calls|)
              && sink.trace == old(sink.trace) + PrintPart(part)
              && (batch.terminate <==> StopsAfter(part))
              && batch.mode.Sequential? && batch.exchanges == ExchangesOf(part) && batch.messages == Results(batch.exchanges)
              && sink.transcript == old(sink.transcript) + batch.messages
    ensures status.Settled? ==>
              forall k: nat :: k < |part.rounds| ==> SettlesAs(PhaseAlone(calls, k, CallOf(env, k)), part.rounds[k].exchange)
    ensures status.Thrown? ==> TurnRejects(env, |calls|)
    ensures status.Unfinished? ==> exists k: nat :: k < |calls| && NeverSettles(PhaseAlone(calls, k, CallOf(env, k)))
  {
    hide Tracks, OthersRest, Whole, Results, Rounds, Sink.Valid, RoundsOk, PartOk, ExchangesOf, AsksToStop, AllAsk,
         TurnsTaken, AnnouncedOne, PhaseAlone, RejectsInTurn, RoundRun, StepsOf, StopsAfter, PrintPart, Pairs, Pair,
         Fire, FireAll;
    status, batch, aborted', part := Thrown, NOTHING, aborted, NoTools;
    var b := Start(calls, Sequential, aborted);
    StartTracks(calls, Sequential, aborted);
    var exchanges: seq<Exchange>, terminate := [], true;
    ghost var rounds: seq<Round> := [];
    NoResults();
    NoTurnTaken(calls, env, aborted);
    assert sink.trace == old(sink.trace) + Rounds(rounds) && sink.transcript == old(sink.transcript) + Results(exchanges);
    for k := 0 to |calls|
      invariant sink.Valid() && (aborted ==> b.aborted) && (old(sink.Refused()) ==> sink.Refused())
      invariant Tracks(b) && TurnsTaken(calls, env, b, rounds, exchanges, terminate, k) && |rounds| == k
      invariant sink.trace == old(sink.trace) + Rounds(rounds)
      invariant sink.transcript == old(sink.transcript) + Results(exchanges)
    {
      TurnsBasics(calls, env, b, rounds, exchanges, terminate, k);
      var e := CallOf(env, k);
      if e.abortBefore {
        AbortTracks(b);
        b := b.(aborted := true);
      }
      if b.aborted { break; }
      ghost var before, events := b, [];
      b, events := RunOne(sink, b, k, e);
      aborted' := b.aborted;
      TurnTaken(calls, env, before, rounds, exchanges, terminate, k, b, events);
      if !b.procs[k].phase.Ended? {
        status := if b.procs[k].phase.Abandoned? then Thrown else Unfinished;
        if status.Thrown? { AbandonedWasRejected(calls, k, e); }
        return;
      }
      var exchange := b.procs[k].phase.exchange;
      EmitPair(sink, exchange.result);
      ResultsOneMore(exchanges, exchange);
      rounds, exchanges := rounds + [Round(events, exchange)], exchanges + [exchange];
      terminate := terminate && b.procs[k].phase.terminate;
      if b.aborted || sink.Refused() { break; }
    }
    TurnsBasics(calls, env, b, rounds, exchanges, terminate, |rounds|);
    status, aborted' := Settled, b.aborted;
    batch := Batched(Results(exchanges), exchanges, Sequential, terminate && exchanges != []);
    part := InTurn(calls, rounds);
    RoundsMakePart(calls, rounds, exchanges);
  }

  predicate SettlesAs(phase: Phase, x: Exchange) { phase.Ended? && phase.exchange == x }

  predicate NeverSettles(phase: Phase) { !phase.Ended? && !phase.Abandoned? }

  /** The rounds so far, each one whole call, and their exchanges. */
  predicate RoundsOk(calls: seq<ToolCall>, rounds: seq<Round>, exchanges: seq<Exchange>) {
    && |rounds| == |exchanges| <= |calls|
    && forall j :: 0 <= j < |rounds| ==> rounds[j].exchange == exchanges[j] && Whole(rounds[j].events, j, calls[j], exchanges[j])
  }

  lemma {:induction false} RoundsMakePart(calls: seq<ToolCall>, rounds: seq<Round>, exchanges: seq<Exchange>)
    requires RoundsOk(calls, rounds, exchanges)
    ensures PartOk(InTurn(calls, rounds)) && ExchangesOf(InTurn(calls, rounds)) == exchanges
    ensures PrintPart(InTurn(calls, rounds)) == Rounds(rounds)
    ensures StopsAfter(InTurn(calls, rounds)) <==> AllAsk(rounds) && exchanges != []
  {
    hide Whole;
  }

  lemma {:induction false} NoRounds(calls: seq<ToolCall>)
    ensures RoundsOk(calls, [], []) && AllAsk([])
  {}

  lemma {:induction false} AbortTracks(b: Batch)
    requires Tracks(b)
    ensures Tracks(b.(aborted := true))
  {
    hide FireAt, Tracks;
    FireKeeps(b, Abort);
    TracksSizes(b);
  }

  lemma {:induction false} RoundsOneMore(calls: seq<ToolCall>, rounds: seq<Round>, exchanges: seq<Exchange>, r: Round)
    requires RoundsOk(calls, rounds, exchanges) && |rounds| < |calls|
    requires Whole(r.events, |rounds|, calls[|rounds|], r.exchange)
    ensures Rounds(rounds + [r]) == Rounds(rounds) + (r.events + Pair(r.exchange.result))
    ensures RoundsOk(calls, rounds + [r], exchanges + [r.exchange])
    ensures AllAsk(rounds + [r]) <==> AllAsk(rounds) && AsksToStop(r.events)
  {
    hide Whole, AsksToStop;
    assert (rounds + [r])[..|rounds|] == rounds;
    assert AllAsk(rounds + [r]) ==> AsksToStop((rounds + [r])[|rounds|].events);
    assert AllAsk(rounds + [r]) ==> forall k :: 0 <= k < |rounds| ==> (rounds + [r])[k] == rounds[k];
    assert forall k :: 0 <= k < |rounds| ==> (rounds + [r])[k].events == rounds[k].events;
  }

  lemma {:induction false} RestNext(b: Batch, k: nat)
    requires Tracks(b) && OthersRest(b.procs, k) && k + 1 < |b.calls| && |b.procs| == |b.calls|
    requires b.procs[k].phase.Ended? && b.procs[k + 1].phase.Idle?
    ensures OthersRest(b.procs, k + 1)
  {
    hide Tracks;
    EndedOwnsWhole(b, k);
  }
}
