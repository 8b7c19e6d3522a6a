/** The update latch of one tool execution (packages/agent/src/agent-loop.ts,
    executePreparedToolCall): progress callbacks are accepted until the tool
    settles, and a promise settles once the last accepted one has. */
module UpdateLatches {
  import opened AgentMessages

  datatype Promise = Unsettled | Resolved | Rejected(error: string)

  /** `accepted` and `settled` count what has happened so far. */
  datatype Latch = Latch(accepting: bool, pending: nat, failure: Option<string>, promise: Promise, accepted: nat, settled: nat)

  const FRESH := Latch(true, 0, None, Unsettled, 0, 0)

  /** Settling a settled promise again has no effect. */
  function Finished(l: Latch): Latch {
    if l.accepting || l.pending > 0 || !l.promise.Unsettled? then l
    else l.(promise := if l.failure.Some? then Rejected(l.failure.value) else Resolved)
  }

  /** A progress callback; it is dropped once the latch is stopped or the run
      has been aborted. */
  function Notified(l: Latch, aborted: bool): Latch {
    if !l.accepting || aborted then l else l.(pending := l.pending + 1, accepted := l.accepted + 1)
  }

  function Settled(l: Latch, error: Option<string>): Latch {
    if l.pending == 0 then l
    else Finished(l.(pending := l.pending - 1, settled := l.settled + 1,
                     failure := if l.failure.None? then error else l.failure))
  }

  function Stopped(l: Latch): Latch { Finished(l.(accepting := false)) }

  /** The promise is settled exactly when no update is accepted any more and
      none is pending, and it is rejected exactly when an update failed. */
  predicate Sound(l: Latch) {
    && l.pending + l.settled == l.accepted
    && (l.promise.Unsettled? <==> l.accepting || l.pending > 0)
    && (l.promise.Resolved? ==> l.failure.None?)
    && (l.promise.Rejected? ==> l.failure == Some(l.promise.error))
  }

  /** The variables and closures of one execution. */
  class UpdateLatch {
    var acceptingUpdates: bool
    var pendingUpdates: nat
    var updateFailure: Option<string>
    var updateEvents: Promise
    ghost var accepted: nat
    ghost var settled: nat

    ghost function State(): Latch
      reads this
    {
      Latch(acceptingUpdates, pendingUpdates, updateFailure, updateEvents, accepted, settled)
    }

    constructor ()
      ensures State() == FRESH && Sound(State())
    {
      acceptingUpdates, pendingUpdates, updateFailure, updateEvents := true, 0, None, Unsettled;
      accepted, settled := 0, 0;
    }

    method FinishUpdatesIfReady()
      modifies this
      ensures State() == Finished(old(State()))
    {
      if acceptingUpdates || pendingUpdates > 0 { return; }
      if updateEvents.Unsettled? {
        updateEvents := if updateFailure.Some? then Rejected(updateFailure.value) else Resolved;
      }
    }

    /** The callback handed to the tool; `emitted` says whether it emits an update. */
    method OnUpdate(aborted: bool) returns (emitted: bool)
      modifies this
      ensures emitted == (old(acceptingUpdates) && !aborted)
      ensures State() == Notified(old(State()), aborted)
    {
      if !acceptingUpdates || aborted { return false; }
      pendingUpdates := pendingUpdates + 1;
      accepted := accepted + 1;
      return true;
    }

    /** One accepted update settles, with or without an error. */
    method SettleUpdate(error: Option<string>)
      requires pendingUpdates > 0
      modifies this
      ensures State() == Settled(old(State()), error)
    {
      if updateFailure.None? { updateFailure := error; }
      pendingUpdates := pendingUpdates - 1;
      settled := settled + 1;
      FinishUpdatesIfReady();
    }

    method StopUpdates()
      modifies this
      ensures State() == Stopped(old(State()))
    {
      acceptingUpdates := false;
      FinishUpdatesIfReady();
    }
  }

  // ---- every interleaving ------------------------------------------------------------

  datatype Op = Notify(aborted: bool) | Settle(error: Option<string>) | StopUpdates

  function Apply(l: Latch, op: Op): Latch {
    match op
    case Notify(aborted) => Notified(l, aborted)
    case Settle(error) => Settled(l, error)
    case StopUpdates => Stopped(l)
  }

  function Run(l: Latch, ops: seq<Op>): Latch {
    if ops == [] then l else Apply(Run(l, ops[..|ops| - 1]), ops[|ops| - 1])
  }

  /** The errors of the updates that settled, in the order they settled. */
  function Errors(ops: seq<Op>): seq<string> {
    if ops == [] then []
    else
      var before := ops[..|ops| - 1];
      var op := ops[|ops| - 1];
      if op.Settle? && op.error.Some? && Run(FRESH, before).pending > 0 then Errors(before) + [op.error.value]
      else Errors(before)
  }

  /** In every interleaving of callbacks, settlements and stops, the promise is
      settled exactly when accepting is over and nothing is pending, pending is
      accepted minus settled, and the first error to settle is the one kept. */
  lemma {:induction false} LatchIsSound(ops: seq<Op>)
    ensures var l := Run(FRESH, ops);
            && Sound(l)
            && l.failure == (if Errors(ops) == [] then None else Some(Errors(ops)[0]))
    decreases |ops|
  {
    if ops != [] { LatchIsSound(ops[..|ops| - 1]); }
  }

  /** Nothing is accepted after a stop, and a settled promise stays as it is. */
  lemma {:induction false} StopIsFinal(l: Latch, ops: seq<Op>)
    requires !l.accepting
    ensures var after := Run(l, ops);
            !after.accepting && after.accepted == l.accepted && (!l.promise.Unsettled? ==> after.promise == l.promise)
    decreases |ops|
  {
    if ops != [] { StopIsFinal(l, ops[..|ops| - 1]); }
  }

  lemma {:induction false} StepKeepsSound(l: Latch, op: Op)
    requires Sound(l)
    ensures Sound(Apply(l, op))
  {}
}
