/** A whole run: the nested loops over turns, the steering, follow-up and
    continuation polls (packages/agent/src/agent-loop.ts, runLoop), and how an
    Agent starts it (packages/agent/src/agent.ts). */
module AgentRuns {
  import opened AgentMessages
  import opened InvocationOutputs
  import opened AgentSinks
  import opened ToolExecution
  import opened MessageQueues
  import opened AgentTurns
  import opened AgentContexts
  import Grammar = AgentGrammar
  import opened AgentLoops

  /** Returned: the run ended normally. Failed: it threw. Unanswered: the script
      does not say how it goes on. */
  datatype RunStatus = Returned | Failed | Unanswered

  /** A poll that was really made: what it drained, and after how many turns. A
      steering poll that was skipped drained nothing. */
  datatype Poll = Steered(drained: seq<seq<Message>>, after: nat) | FollowedUp(drained: seq<seq<Message>>, after: nat)

  /** Follow-ups are asked for only right after steering was found empty, at the
      end of the same turn, which did not fail and left no tool calls. */
  predicate PollOk(polls: seq<Poll>, turns: seq<Turn>, i: nat)
    requires i < |polls|
  {
    && polls[i].after <= |turns|
    && (polls[i].FollowedUp? ==>
          i > 0 && 0 < polls[i].after && polls[i - 1] == Steered([], polls[i].after) && IsQuiet(turns[polls[i].after - 1]))
  }

  predicate PollsOk(polls: seq<Poll>, turns: seq<Turn>) { forall i :: 0 <= i < |polls| ==> PollOk(polls, turns, i) }

  lemma {:induction false} PollsNext(polls: seq<Poll>, turns: seq<Turn>, p: Poll)
    requires PollsOk(polls, turns) && p.after == |turns|
    requires p.FollowedUp? ==>
               polls != [] && polls[|polls| - 1] == Steered([], |turns|) && turns != [] && IsQuiet(turns[|turns| - 1])
    ensures PollsOk(polls + [p], turns)
  {
    hide IsQuiet;
    forall i | 0 <= i < |polls| + 1
      ensures PollOk(polls + [p], turns, i)
    {
      if i < |polls| { assert PollOk(polls, turns, i); }
    }
  }

  lemma {:induction false} PollsGrown(polls: seq<Poll>, before: seq<Turn>, turns: seq<Turn>)
    requires PollsOk(polls, before) && before <= turns
    ensures PollsOk(polls, turns)
  {
    hide IsQuiet;
    forall i | 0 <= i < |polls|
      ensures PollOk(polls, turns, i)
    {
      assert PollOk(polls, before, i);
    }
  }

  /** Everything the polls of one queue drained, in order. */
  function Drained(polls: seq<Poll>, followUps: bool): seq<seq<Message>> {
    if polls == [] then []
    else
      var last := polls[|polls| - 1];
      Drained(polls[..|polls| - 1], followUps) + (if last.FollowedUp? == followUps then last.drained else [])
  }

  lemma {:induction false} DrainedNext(polls: seq<Poll>, p: Poll, followUps: bool)
    ensures Drained(polls + [p], followUps) == Drained(polls, followUps) + (if p.FollowedUp? == followUps then p.drained else [])
  {
    assert (polls + [p])[..|polls|] == polls;
  }

  datatype Polled = Polled(messages: seq<Message>) | PollAborted

  const NONE := Delivery(Prompt, [])

  /** The continuation owner's word to go on without messages. */
  const WORD := Delivery(Continuation, [])

  /** What a turn is given when `d` is pending. */
  function Beginning(d: Delivery): seq<Delivery> { if d == NONE then [] else [d] }

  /** The pending messages are those of the pending delivery. */
  predicate Pends(pending: seq<Message>, d: Delivery) {
    pending == Flatten(d.batches) && (pending == [] ==> d == NONE || d == WORD)
  }

  class AgentRun {
    const loop: AgentLoop
    const steering: PendingMessageQueue
    const followUps: PendingMessageQueue
    const script: seq<TurnEnv>
    var cursor: nat
    var skipInitialSteeringPoll: bool
    ghost var start: seq<Delivery>       // what the run was started with
    ghost var sent: seq<Delivery>        // what has been put into turns
    ghost var polls: seq<Poll>
    ghost var steeringBase: seq<seq<Message>>
    ghost var followUpBase: seq<seq<Message>>

    constructor (loop: AgentLoop, steering: PendingMessageQueue, followUps: PendingMessageQueue, script: seq<TurnEnv>,
                 skipInitialSteeringPoll: bool, ghost steeringBase: seq<seq<Message>>, ghost followUpBase: seq<seq<Message>>)
      ensures this.loop == loop && this.steering == steering && this.followUps == followUps && this.script == script
      ensures cursor == 0 && this.skipInitialSteeringPoll == skipInitialSteeringPoll && start == sent == [] && polls == []
      ensures this.steeringBase == steeringBase && this.followUpBase == followUpBase
    {
      this.loop, this.steering, this.followUps, this.script := loop, steering, followUps, script;
      cursor, this.skipInitialSteeringPoll, start, sent, polls := 0, skipInitialSteeringPoll, [], [], [];
      this.steeringBase, this.followUpBase := steeringBase, followUpBase;
    }

    ghost predicate Queues()
      reads this, steering, followUps
    {
      steering != followUps && steering.Valid() && followUps.Valid()
    }

    /** Unless the run was aborted, every drained batch has been put into a turn
        or is the pending one. */
    ghost predicate Conserved(pending: Delivery)
      reads this, loop, steering, followUps
    {
      !loop.aborted ==>
        && steering.delivered == steeringBase + From(sent + [pending], Steering)
        && followUps.delivered == followUpBase + From(sent + [pending], FollowUp)
    }

    /** Messages steered or followed up while the run was busy. */
    method Arrive(p: PollEnv)
      requires Queues()
      modifies steering, followUps
      ensures Queues() && steering.delivered == old(steering.delivered) && followUps.delivered == old(followUps.delivered)
      ensures old(steering.accepted) <= steering.accepted && old(followUps.accepted) <= followUps.accepted
    {
      for k := 0 to |p.steered|
        invariant Queues() && steering.delivered == old(steering.delivered) && followUps.delivered == old(followUps.delivered)
        invariant old(steering.accepted) <= steering.accepted && old(followUps.accepted) <= followUps.accepted
      {
        steering.Enqueue(p.steered[k]);
      }
      for k := 0 to |p.followed|
        invariant Queues() && steering.delivered == old(steering.delivered) && followUps.delivered == old(followUps.delivered)
        invariant old(steering.accepted) <= steering.accepted && old(followUps.accepted) <= followUps.accepted
      {
        followUps.Enqueue(p.followed[k]);
      }
    }

    /** Every batch that has left a queue was drained by a recorded poll, or was
        what the run was started with. */
    ghost predicate Recounted()
      reads this, steering, followUps
    {
      && steering.delivered == steeringBase + From(start, Steering) + Drained(polls, false)
      && followUps.delivered == followUpBase + From(start, FollowUp) + Drained(polls, true)
    }

    /** The last poll was of steering, which was empty, and no turn since. */
    ghost predicate JustSteered()
      reads this, loop
    {
      loop.turns != [] && polls != [] && polls[|polls| - 1] == Steered([], |loop.turns|)
    }

    ghost method Record(p: Poll)
      requires PollsOk(polls, loop.turns) && p.after == |loop.turns|
      requires p.FollowedUp? ==> JustSteered() && IsQuiet(Last())
      modifies this`polls
      ensures PollsOk(polls, loop.turns) && polls == old(polls) + [p]
      ensures Drained(polls, p.FollowedUp?) == Drained(old(polls), p.FollowedUp?) + p.drained
      ensures Drained(polls, !p.FollowedUp?) == Drained(old(polls), !p.FollowedUp?)
    {
      hide PollsOk, Drained, IsQuiet;
      PollsNext(polls, loop.turns, p);
      DrainedNext(polls, p, true);
      DrainedNext(polls, p, false);
      polls := polls + [p];
    }

    /** Drain one queue, except at the one steering poll that is skipped. The poll
        is recorded with what left the queue. */
    method Ask(source: Source) returns (messages: seq<Message>, ghost drained: seq<seq<Message>>)
      requires Queues() && PollsOk(polls, loop.turns) && Recounted()
      requires source.Steering? || (source.FollowUp? && JustSteered() && IsQuiet(Last()))
      modifies this`polls, this`skipInitialSteeringPoll, steering, followUps
      ensures Queues() && PollsOk(polls, loop.turns) && Recounted()
      ensures polls == old(polls) + [if source.Steering? then Steered(drained, |loop.turns|) else FollowedUp(drained, |loop.turns|)]
      ensures steering.delivered == old(steering.delivered) + (if source.Steering? then drained else [])
      ensures followUps.delivered == old(followUps.delivered) + (if source.Steering? then [] else drained)
      ensures messages == Flatten(drained) && (messages == [] <==> drained == [])
      ensures messages == [] ==>
                if source.FollowUp? then followUps.batches == []
                else steering.batches == [] || (old(skipInitialSteeringPoll) && !skipInitialSteeringPoll)
    {
      hide From, Flatten, PollsOk, Drained, IsQuiet;
      messages, drained := [], [];
      EmptyFlatten();
      if source.FollowUp? {
        messages, drained := followUps.Drain();
      } else if skipInitialSteeringPoll {
        skipInitialSteeringPoll := false;
      } else {
        messages, drained := steering.Drain();
      }
      Record(if source.Steering? then Steered(drained, |loop.turns|) else FollowedUp(drained, |loop.turns|));
    }

    /** A poll is made at the call, unless the run was aborted before; an abort
        during it loses what it drained. */
    method PollQueue(source: Source, p: PollEnv) returns (r: Polled, ghost found: Delivery)
      requires Queues() && (source.Steering? || source.FollowUp?) && PollsOk(polls, loop.turns) && Conserved(NONE) && Recounted()
      requires source.FollowUp? && !loop.aborted ==> JustSteered() && IsQuiet(Last())
      modifies this`polls, this`skipInitialSteeringPoll, loop`aborted, steering, followUps
      ensures Queues() && PollsOk(polls, loop.turns) && Recounted() && (old(loop.aborted) ==> loop.aborted)
      ensures !loop.aborted ==>
                polls == old(polls) + [if source.Steering? then Steered(found.batches, |loop.turns|)
                                       else FollowedUp(found.batches, |loop.turns|)]
      ensures r.Polled? ==> Conserved(found) && Pends(r.messages, found)
      ensures r.Polled? ==> if r.messages == [] then found == NONE else found.source == source
      ensures r.PollAborted? ==> loop.aborted
      ensures r.Polled? && r.messages == [] && !loop.aborted ==>
                if source.FollowUp? then followUps.batches == []
                else steering.batches == [] || (old(skipInitialSteeringPoll) && !skipInitialSteeringPoll)
    {
      hide From, Flatten, PollsOk, Drained, IsQuiet;
      Arrive(p);
      found := NONE;
      EmptyFlatten();
      loop.aborted := loop.aborted || p.abortBefore;
      if loop.aborted { return Polled([]), NONE; }
      var messages;
      ghost var drained;
      messages, drained := Ask(source);
      loop.aborted := p.abortDuring;
      if loop.aborted { return PollAborted, NONE; }
      r := Polled(messages);
      if drained != [] { found := Delivery(source, drained); }
      FromOne(sent, found);
      FromOne(sent, NONE);
      assert steeringBase + (From(sent, Steering) + []) + drained == steeringBase + (From(sent, Steering) + drained);
      assert followUpBase + (From(sent, FollowUp) + []) + drained == followUpBase + (From(sent, FollowUp) + drained);
    }

    // ---- the loops ------------------------------------------------------------------------------

    /** The pending messages are sent one after another into the open turn. */
    method Inject(pending: seq<Message>, ghost d: Delivery, ghost ds: seq<Delivery>) returns (ok: bool)
      requires loop.Valid() && loop.Recorded() && loop.Collected() && loop.Opened(ds) && pending == Flatten(d.batches)
      modifies this`sent, loop`context, loop`newMessages, loop.sink, loop.sink.output
      ensures loop.Recorded() && sent == old(sent) + [d]
      ensures ok ==> loop.Valid() && loop.Collected() && loop.Opened(ds + [d])
    {
      hide Agree, Sink.Valid, PrintTurns, TurnsOk, AllAgree, ResponsesOk, PrintResponses, PrintOpening, Ends, Flatten,
           Pairs, AllTold, TranscriptAfter, Injected;
      var room := loop.sink.CheckRoom(|pending|);
      sent := sent + [d];
      if !room { return false; }
      ghost var trace0, transcript0 := loop.sink.trace, loop.sink.transcript;
      ok := SendAll(pending);
      if ok { loop.OpenedMore(ds, d, trace0, transcript0); }
    }

    /** Each message is sent whole; a refusal ends the sending. */
    method SendAll(pending: seq<Message>) returns (ok: bool)
      requires loop.Valid() && loop.Collected()
      modifies loop`context, loop`newMessages, loop.sink, loop.sink.output
      ensures ok ==>
                && loop.Valid() && loop.Collected() && loop.sink.trace == old(loop.sink.trace) + Pairs(pending)
                && loop.sink.transcript == old(loop.sink.transcript) + pending
    {
      hide Agree, Sink.Valid, Ends, Pairs, Pair;
      assert Pairs(pending[..0]) == [] by { NothingSent(); }
      for k := 0 to |pending|
        invariant loop.Valid() && loop.Collected()
        invariant loop.sink.trace == old(loop.sink.trace) + Pairs(pending[..k])
        invariant loop.sink.transcript == old(loop.sink.transcript) + pending[..k]
      {
        var m := pending[k];
        assert pending[..k + 1] == pending[..k] + [m];
        PairsOneMore(pending[..k], m);
        SendOne(m);
        if loop.sink.Refused() { return false; }
      }
      assert pending[..|pending|] == pending;
      ok := true;
    }

    method SendOne(m: Message)
      requires loop.Valid() && loop.Collected()
      modifies loop`context, loop`newMessages, loop.sink, loop.sink.output
      ensures loop.Valid() && loop.Collected() && loop.sink.trace == old(loop.sink.trace) + Pair(m)
      ensures loop.sink.transcript == old(loop.sink.transcript) + [m]
    {
      hide Agree, Sink.Valid;
      AgreeNext(loop.context, loop.sink.transcript, loop.drops, m);
      loop.sink.Emit(MessageStart(m));
      loop.sink.Emit(MessageEnd(m));
      EndsOne(old(loop.sink.trace), MessageStart(m));
      EndsOne(old(loop.sink.trace) + [MessageStart(m)], MessageEnd(m));
      loop.context := loop.context + [m];
      if loop.sink.output == null { loop.newMessages := loop.newMessages + [m]; }
    }

    /** The turn that has just ended. */
    ghost function Last(): Turn
      requires loop.turns != []
      reads this, loop
    {
      loop.turns[|loop.turns| - 1]
    }

    /** The state between turns. */
    ghost predicate Resting(pending: Delivery)
      reads this, loop, loop.sink, loop.sink.output, steering, followUps
    {
      && loop.Valid() && loop.Recorded() && loop.Collected() && Queues() && PollsOk(polls, loop.turns)
      && Conserved(pending) && Recounted() && loop.AllDropped() && cursor <= |script| && start <= sent && Chained(loop.turns)
    }

    /** The state at the top of the inner loop: before the first turn its opening
        has been sent already. */
    ghost predicate Ready(first: bool, ds: seq<Delivery>, pending: Delivery)
      reads this, loop, loop.sink, loop.sink.output, steering, followUps
    {
      && Resting(pending)
      && (if first then loop.Opened(ds) && loop.turns == [] && sent == ds
          else loop.Between() && sent == Deliveries(loop.turns))
    }

    /** The run has ended, and holds what it returns. */
    ghost predicate Finished()
      reads this, loop, loop.sink, loop.sink.output, steering, followUps
    {
      Ended() && loop.sink.Valid() && loop.Gathered() == loop.result
    }

    /** The run has ended: the trace is a whole run's, what was put into its turns
        is what was drained, and nothing pends. */
    ghost predicate Ended()
      reads this, loop, loop.sink, steering, followUps
    {
      && loop.RanToEnd() && loop.Recorded() && loop.turns != [] && Chained(loop.turns)
      && PollsOk(polls, loop.turns) && Recounted() && Queues()
      && Grammar.Accepted(loop.sink.trace)
      && start <= Deliveries(loop.turns)
      && (!loop.aborted ==>
            && steering.delivered == steeringBase + From(Deliveries(loop.turns), Steering)
            && followUps.delivered == followUpBase + From(Deliveries(loop.turns), FollowUp))
    }

    ghost predicate UsualScript() { forall i :: 0 <= i < |script| ==> Usual(script[i].attempts) }

    /** Open a turn and put the pending messages into it. */
    method BeginTurn(first: bool, pending: seq<Message>, ghost ds: seq<Delivery>, ghost d: Delivery)
      returns (ok: bool, ghost ds': seq<Delivery>)
      requires Ready(first, ds, d) && Pends(pending, d)
      modifies this`sent, loop`context, loop`newMessages, loop.sink, loop.sink.output
      ensures ok ==> Resting(NONE) && loop.Opened(ds') && sent == Deliveries(loop.turns) + ds'
      ensures ds' == (if first then ds else []) + Beginning(d)
    {
      hide Agree, Sink.Valid, PrintTurns, TurnsOk, AllAgree, ResponsesOk, PrintResponses, From, Deliveries,
           PrintOpening, Ends, PollsOk, Flatten, Drained, Drops, LastAdoption, Grammar.Accepted, IsQuiet, CallsRemain,
           AllTold, TranscriptAfter, Injected, Pairs, Chained;
      ds' := if first then ds else [];
      if !first { loop.OpenTurn(); }
      NoDeliveries();
      if |pending| > 0 {
        ok := Inject(pending, d, ds');
        ds' := ds' + [d];
        assert d != NONE by { EmptyFlatten(); }
        FromOne(old(sent), d);
        FromOne(sent, NONE);
        return;
      }
      if d == WORD {
        NothingSent();
        EmptyFlatten();
        assert loop.sink.trace + [] == loop.sink.trace && loop.sink.transcript + [] == loop.sink.transcript;
        loop.OpenedMore(ds', d, loop.sink.trace, loop.sink.transcript);
        FromOne(sent, d);
        FromOne(sent + [d], NONE);
        FromOne(sent, NONE);
        sent := sent + [d];
      }
      ds' := ds' + Beginning(d);
      ok := true;
    }

    /** One turn, seen from the loops. */
    method OneTurn(e: TurnEnv, ghost ds: seq<Delivery>) returns (r: TurnResult)
      requires Resting(NONE) && loop.Opened(ds) && sent == Deliveries(loop.turns) + ds && Usual(e.attempts)
      requires loop.turns != [] ==> Follows(Last(), ds)
      modifies loop, loop.sink, loop.sink.output
      ensures Queues() && (old(loop.aborted) ==> loop.aborted)
      ensures r.Again? || r.Complete? ==> Ready(false, [], NONE) && loop.turns != []
      ensures r.Again? ==> Last().spoken.final.stop.Error?
      ensures r.Complete? ==> !IsFailure(Last().spoken.final) && (r.more <==> CallsRemain(Last()))
      ensures r.Over? ==> Finished()
    {
      hide Agree, Sink.Valid, PrintTurns, TurnsOk, AllAgree, ResponsesOk, PrintResponses, From, Deliveries,
           PrintOpening, Ends, AllTold, TranscriptAfter, Injected;
      ghost var before := loop.turns;
      r := loop.RunTurn(e, ds);
      if loop.Grown(before, ds) {
        DeliveriesGrown(before, loop.turns, ds);
        ChainedNext(before, loop.turns[|before|]);
        assert loop.turns == before + [loop.turns[|before|]];
        PollsGrown(polls, before, loop.turns);
        FromOne(sent, NONE);
      }
      if r.Over? { EndedIsAccepted(); }
    }

    /** The trace of a run that has ended is one whole run of the grammar. */
    lemma {:induction false} EndedIsAccepted()
      requires loop.RanToEnd() && loop.Recorded()
      ensures Grammar.Accepted(loop.sink.trace)
    {
      hide PrintTurns, TurnsOk, AllAgree, ResponsesOk, PrintResponses;
      Grammar.WholeRunIsAccepted(loop.turns, loop.result);
    }

    /** agent_end between turns. */
    method End() returns (status: RunStatus)
      requires Ready(false, [], NONE) && loop.turns != []
      modifies loop`result, loop.sink, loop.sink.output
      ensures status.Returned? ==> Finished()
      ensures Queues() && !status.Unanswered?
    {
      hide Agree, Sink.Valid, PrintTurns, TurnsOk, AllAgree, ResponsesOk, PrintResponses, From, Deliveries, Ends,
           AllTold, TranscriptAfter, Injected;
      FromOne(sent, NONE);
      var ok := loop.EndRun();
      if ok { EndedIsAccepted(); }
      status := if ok then Returned else RunStatus.Failed;
    }

    /** The inner loop: turns until no tool calls remain and nothing pends. `exit`
        is how the run was left from inside; None is the loop's own end. */
    method TurnsWhilePending(first0: bool, pending0: seq<Message>, ghost opening: seq<Delivery>, ghost d0: Delivery)
      returns (exit: Option<RunStatus>, last: TurnEnv)
      requires Ready(first0, opening, d0) && Pends(pending0, d0) && UsualScript()
      requires first0 || (loop.turns != [] && Follows(Last(), Beginning(d0)))
      modifies this`cursor, this`sent, this`polls, this`skipInitialSteeringPoll
      modifies loop, loop.sink, loop.sink.output, steering, followUps
      ensures Queues() && (exit == Some(Returned) ==> Finished())
      ensures exit.None? ==>
                && Ready(false, [], NONE) && loop.turns != [] && old(cursor) < cursor && IsQuiet(Last())
                && (!loop.aborted ==> JustSteered())
    {
      hide Agree, Sink.Valid, PrintTurns, TurnsOk, AllAgree, ResponsesOk, PrintResponses, From, Deliveries,
           PrintOpening, Ends, PollsOk, Usual, Flatten;
      var first, pending, more := first0, pending0, true;
      ghost var d := d0;
      last := QUIET;
      exit := None;
      while more || |pending| > 0
        invariant Ready(first, opening, d) && Pends(pending, d)
        invariant old(cursor) <= cursor && (more || old(cursor) < cursor) && (more || (!first && loop.turns != []))
        invariant !more && pending == [] && !loop.aborted ==> JustSteered()
        invariant first || (more || pending != [] ==> loop.turns != [] && Follows(Last(), Beginning(d)))
        invariant !more ==> IsQuiet(Last()) && (pending == [] ==> d == NONE)
        invariant exit.None?
        decreases |script| - cursor
      {
        exit, more, pending, last, d := OneRound(first, pending, opening, d);
        first := false;
        if exit.Some? { return; }
      }
    }

    /** The body of the inner loop. */
    method OneRound(first: bool, pending0: seq<Message>, ghost opening: seq<Delivery>, ghost d0: Delivery)
      returns (exit: Option<RunStatus>, more: bool, pending: seq<Message>, e: TurnEnv, ghost d: Delivery)
      requires Ready(first, opening, d0) && Pends(pending0, d0) && UsualScript()
      requires first || (loop.turns != [] && Follows(Last(), Beginning(d0)))
      modifies this`cursor, this`sent, this`polls, this`skipInitialSteeringPoll
      modifies loop, loop.sink, loop.sink.output, steering, followUps
      ensures Queues() && (exit == Some(Returned) ==> Finished())
      ensures exit.None? ==>
                && Ready(false, [], d) && Pends(pending, d)
                && loop.turns != [] && old(cursor) < cursor
                && (if more || pending != [] then Follows(Last(), Beginning(d)) else d == NONE) && (!more ==> IsQuiet(Last()))
                && (!more && pending == [] && !loop.aborted ==> JustSteered())
    {
      hide Agree, Sink.Valid, PrintTurns, TurnsOk, AllAgree, ResponsesOk, PrintResponses, From, Deliveries,
           PrintOpening, Ends, PollsOk, Usual, Flatten, Drained, Drops, LastAdoption, Grammar.Accepted, IsQuiet,
           CallsRemain, Follows, Chained, AllTold, TranscriptAfter, Injected;
      more, pending, d, e := true, [], NONE, QUIET;
      if cursor == |script| { return Some(Unanswered), more, pending, e, d; }
      e := script[cursor];
      if loop.aborted || e.abortFirst {
        loop.aborted := true;
        return Some(RunStatus.Failed), more, pending, e, d;
      }
      cursor := cursor + 1;
      exit, more, pending, d := PlayTurn(e, first, pending0, opening, d0);
    }

    /** One turn and the steering poll after it. */
    method PlayTurn(e: TurnEnv, first: bool, pending0: seq<Message>, ghost opening: seq<Delivery>, ghost d0: Delivery)
      returns (exit: Option<RunStatus>, more: bool, pending: seq<Message>, ghost d: Delivery)
      requires Ready(first, opening, d0) && Pends(pending0, d0) && Usual(e.attempts)
      requires first || (loop.turns != [] && Follows(Last(), Beginning(d0)))
      modifies this`sent, this`polls, this`skipInitialSteeringPoll
      modifies loop, loop.sink, loop.sink.output, steering, followUps
      ensures Queues() && (exit == Some(Returned) ==> Finished())
      ensures exit.None? ==>
                && Ready(false, [], d) && Pends(pending, d) && loop.turns != []
                && (if more || pending != [] then Follows(Last(), Beginning(d)) else d == NONE) && (!more ==> IsQuiet(Last()))
                && (!more && pending == [] && !loop.aborted ==> JustSteered())
    {
      hide Agree, Sink.Valid, PrintTurns, TurnsOk, AllAgree, ResponsesOk, PrintResponses, From, Deliveries,
           PrintOpening, Ends, PollsOk, Usual, Flatten, Drained, Drops, LastAdoption, Grammar.Accepted, IsQuiet,
           CallsRemain, Follows, Chained, AllTold, TranscriptAfter, Injected;
      more, pending, d := true, [], NONE;
      EmptyFlatten();
      var ok;
      ghost var ds;
      ok, ds := BeginTurn(first, pending0, opening, d0);
      if !ok { return Some(RunStatus.Failed), more, pending, d; }
      assert !first ==> ds == Beginning(d0);
      var r := OneTurn(e, ds);
      match r {
        case Over => exit := Some(Returned);
        case Thrown => exit := Some(RunStatus.Failed);
        case Endless => exit := Some(Unanswered);
        case Again =>
          exit := None;
          FailureRepeats(Last());
        case Complete(m) =>
          more := m;
          exit, pending, d := SteeringPoll(e);
          if exit.None? { TurnDecides(Last(), more, d); }
      }
    }

    /** The steering poll after a turn. */
    method SteeringPoll(e: TurnEnv) returns (exit: Option<RunStatus>, pending: seq<Message>, ghost d: Delivery)
      requires Ready(false, [], NONE) && loop.turns != []
      modifies this`polls, this`skipInitialSteeringPoll, loop`aborted, loop`result
      modifies loop.sink, loop.sink.output, steering, followUps
      ensures Queues() && (exit == Some(Returned) ==> Finished()) && (exit.Some? && !loop.aborted ==> e.stopAfterPoll)
      ensures exit.None? ==>
                && Ready(false, [], d) && Pends(pending, d) && (if pending == [] then d == NONE else d.source == Steering)
                && (pending == [] && !loop.aborted ==> JustSteered())
    {
      hide Agree, Sink.Valid, PrintTurns, TurnsOk, AllAgree, ResponsesOk, PrintResponses, From, Deliveries,
           PrintOpening, Ends, PollsOk, Flatten, Drained, Drops, LastAdoption, Grammar.Accepted, IsQuiet, CallsRemain,
           AllTold, TranscriptAfter, Injected;
      exit, pending := None, [];
      var poll;
      poll, d := PollQueue(Steering, e.steering);
      if poll.Polled? { pending := poll.messages; }
      if poll.PollAborted? || (|pending| == 0 && e.stopAfterPoll) {
        d := NONE;
        var status := End();
        exit := Some(status);
      }
    }

    /** The outer loop's part after the turns: follow-ups, then continuations. None:
        there are messages, or an owner's word, to go on with. */
    method AfterTurns(e: TurnEnv) returns (exit: Option<RunStatus>, pending: seq<Message>, ghost d: Delivery)
      requires Ready(false, [], NONE) && loop.turns != [] && IsQuiet(Last())
      requires !loop.aborted ==> JustSteered()
      modifies this`polls, this`skipInitialSteeringPoll, loop`aborted, loop`result
      modifies loop.sink, loop.sink.output, steering, followUps
      ensures Queues() && (exit == Some(Returned) ==> Finished())
      ensures exit.None? ==>
                && Ready(false, [], d) && Pends(pending, d) && d != NONE && Follows(Last(), Beginning(d))
                && (d.source.Continuation? && !loop.aborted ==> followUps.batches == [])
      ensures exit.Some? && !loop.aborted ==>
                || e.stopBeforeFollowUp
                || (followUps.batches == [] && (e.stopBeforeContinuation || !MoreToDo(e.continuation)))
    {
      hide Agree, Sink.Valid, PrintTurns, TurnsOk, AllAgree, ResponsesOk, PrintResponses, From, Deliveries,
           PrintOpening, Ends, PollsOk, AllTold, TranscriptAfter, Injected;
      pending, d := [], NONE;
      var status;
      if e.stopBeforeFollowUp {
        status := End();
        return Some(status), [], d;
      }
      var poll;
      poll, d := PollQueue(FollowUp, e.followUp);
      if poll.PollAborted? {
        status := End();
        return Some(status), [], NONE;
      }
      if |poll.messages| > 0 { return None, poll.messages, d; }
      exit, pending, d := AskContinuation(e);
    }

    /** The last question before the end: the continuation owner's. */
    method AskContinuation(e: TurnEnv) returns (exit: Option<RunStatus>, pending: seq<Message>, ghost d: Delivery)
      requires Ready(false, [], NONE) && loop.turns != [] && IsQuiet(Last())
      modifies loop`aborted, loop`result, loop.sink, loop.sink.output
      ensures Queues() && (exit == Some(Returned) ==> Finished()) && (old(loop.aborted) ==> loop.aborted)
      ensures exit.None? ==>
                && Ready(false, [], d) && Pends(pending, d) && d.source.Continuation? && Follows(Last(), Beginning(d))
      ensures exit.Some? && !loop.aborted ==> e.stopBeforeContinuation || !MoreToDo(e.continuation)
    {
      hide Agree, Sink.Valid, PrintTurns, TurnsOk, AllAgree, ResponsesOk, PrintResponses, From, Deliveries,
           PrintOpening, Ends, PollsOk, AllTold, TranscriptAfter, Injected;
      pending, d := [], NONE;
      if !e.stopBeforeContinuation {
        match e.continuation {
          case NothingMore =>
          case ContinuationThrows => return Some(RunStatus.Failed), [], NONE;
          case ContinuationAborts => loop.aborted := true;
          case Continues(messages, owned) =>
            d := if |messages| > 0 then Delivery(Continuation, [messages]) else WORD;
            if |messages| > 0 || owned {
              FromOne(sent, d);
              FromOne(sent, NONE);
              ContinuationPends(messages);
              return None, messages, d;
            }
        }
      }
      d := NONE;
      var status := End();
      exit := Some(status);
    }

    /** The loops of a run whose opening - agent_start, the first turn_start and
        the prompts - has been sent. */
    method RunLoop(firstPoll: PollEnv, ghost opening: seq<Delivery>) returns (status: RunStatus)
      requires Ready(true, opening, NONE) && UsualScript() && polls == []
      modifies this`cursor, this`sent, this`polls, this`skipInitialSteeringPoll
      modifies loop, loop.sink, loop.sink.output, steering, followUps
      ensures Queues() && (status.Returned? ==> Finished())
    {
      hide Agree, Sink.Valid, PrintTurns, TurnsOk, AllAgree, ResponsesOk, PrintResponses, From, Deliveries,
           PrintOpening, Ends, PollsOk, Usual, Flatten, Drained, Drops, LastAdoption, Grammar.Accepted, IsQuiet,
           CallsRemain, Follows, Chained, AllTold, TranscriptAfter, Injected;
      var first := true;
      var poll;
      ghost var d;
      poll, d := PollQueue(Steering, firstPoll);
      if poll.PollAborted? { return RunStatus.Failed; }
      var pending := poll.messages;
      while true
        invariant Ready(first, opening, d) && Pends(pending, d)
        invariant first || (loop.turns != [] && Follows(Last(), Beginning(d)))
        decreases |script| - cursor
      {
        if loop.aborted { return RunStatus.Failed; }
        var exit;
        exit, pending, d := OuterRound(first, pending, opening, d);
        first := false;
        if exit.Some? { return exit.value; }
      }
    }

    /** The body of the outer loop: turns while anything pends, then what else may
        go on. */
    method OuterRound(first: bool, pending0: seq<Message>, ghost opening: seq<Delivery>, ghost d0: Delivery)
      returns (exit: Option<RunStatus>, pending: seq<Message>, ghost d: Delivery)
      requires Ready(first, opening, d0) && Pends(pending0, d0) && UsualScript()
      requires first || (loop.turns != [] && Follows(Last(), Beginning(d0)))
      modifies this`cursor, this`sent, this`polls, this`skipInitialSteeringPoll
      modifies loop, loop.sink, loop.sink.output, steering, followUps
      ensures Queues() && (exit == Some(Returned) ==> Finished())
      ensures exit.None? ==>
                && Ready(false, opening, d) && Pends(pending, d) && old(cursor) < cursor
                && loop.turns != [] && Follows(Last(), Beginning(d))
    {
      hide Agree, Sink.Valid, PrintTurns, TurnsOk, AllAgree, ResponsesOk, PrintResponses, From, Deliveries,
           PrintOpening, Ends, PollsOk, Usual, Flatten, Drained, Drops, LastAdoption, Grammar.Accepted, IsQuiet,
           CallsRemain, Follows, Chained, AllTold, TranscriptAfter, Injected;
      pending, d := [], NONE;
      var last;
      exit, last := TurnsWhilePending(first, pending0, opening, d0);
      if exit.Some? { return; }
      exit, pending, d := AfterTurns(last);
    }

    // ---- how a run starts -------------------------------------------------------------------------

    /** Nothing has been sent yet. */
    ghost predicate Fresh()
      reads this, loop, loop.sink, loop.sink.output, steering, followUps
    {
      && loop.Valid() && loop.Recorded() && loop.turns == [] && loop.newMessages == [] && loop.sink.trace == []
      && loop.AllDropped() && loop.initial == loop.sink.transcript
      && Queues() && start == sent == [] && polls == [] && cursor == 0
    }

    /** A run with prompts; `source` says where they were drained from, if they
        were queued. */
    method RunAgentLoop(prompts: seq<Message>, firstPoll: PollEnv, ghost d: Delivery)
      returns (status: RunStatus, messages: seq<Message>)
      requires Fresh() && prompts == Flatten(d.batches) && UsualScript()
      requires steering.delivered == steeringBase + From([d], Steering)
      requires followUps.delivered == followUpBase + From([d], FollowUp)
      modifies this, loop, loop.sink, loop.sink.output, steering, followUps
      ensures Queues() && (status.Returned? ==> Ended() && start == [d] && messages == loop.result)
      ensures steeringBase == old(steeringBase) && followUpBase == old(followUpBase)
    {
      hide Fresh, UsualScript, Ended, From, Flatten;
      status := RunPrompts(prompts, firstPoll, d);
      messages := [];
      if status.Returned? { messages := loop.Conclude(); }
    }

    method RunPrompts(prompts: seq<Message>, firstPoll: PollEnv, ghost d: Delivery) returns (status: RunStatus)
      requires Fresh() && prompts == Flatten(d.batches) && UsualScript()
      requires steering.delivered == steeringBase + From([d], Steering)
      requires followUps.delivered == followUpBase + From([d], FollowUp)
      modifies this, loop, loop.sink, loop.sink.output, steering, followUps
      ensures Queues() && (status.Returned? ==> Finished() && start == [d])
      ensures steeringBase == old(steeringBase) && followUpBase == old(followUpBase)
    {
      hide Agree, Sink.Valid, TurnsOk, AllAgree, ResponsesOk, PrintResponses, Usual, PrintTurns, PrintOpening, From,
           Deliveries, Flatten, Pairs, Ends, PollsOk, AllTold, Injected, Drops, LastAdoption, Drained, TranscriptAfter,
           Grammar.Accepted, IsQuiet, CallsRemain, Chained;
      NoPolls();
      var room := loop.sink.CheckRoom(|prompts|);
      if !room { return RunStatus.Failed; }
      var sendPrompts := SendOpening(prompts);
      if !sendPrompts { return RunStatus.Failed; }
      start, sent := [d], [d];
      OpeningIs(d);
      AtFirst(loop.initial, loop.responses);
      assert loop.Opened(sent);
      FromOne(sent, NONE);
      status := RunLoop(firstPoll, [d]);
    }

    /** agent_start, the first turn_start and the prompts. The context holds all
        the prompts before the first is sent. */
    method SendOpening(prompts: seq<Message>) returns (ok: bool)
      requires loop.Valid() && loop.newMessages == [] && loop.sink.trace == []
      modifies loop`context, loop`newMessages, loop.sink, loop.sink.output
      ensures ok ==>
                && loop.Valid() && loop.Collected() && loop.sink.trace == [AgentStart, TurnStart] + Pairs(prompts)
                && loop.sink.transcript == old(loop.sink.transcript) + prompts
    {
      hide Agree, Sink.Valid, Ends, Pairs;
      ghost var context0 := loop.context;
      loop.context := loop.context + prompts;
      if loop.sink.output == null { loop.newMessages := prompts; }
      loop.sink.Emit(AgentStart);
      loop.sink.Emit(TurnStart);
      assert loop.sink.trace == [AgentStart, TurnStart];
      ok := SendPrompts(prompts, context0);
      NoEnds([AgentStart, TurnStart]);
      EndsAppend([AgentStart, TurnStart], Pairs(prompts));
      EndsOfPairs(prompts);
    }

    method SendPrompts(prompts: seq<Message>, ghost context0: seq<Message>) returns (ok: bool)
      requires loop.sink.Valid() && Agree(context0, loop.sink.transcript, loop.drops)
      modifies loop.sink, loop.sink.output
      ensures ok ==>
                && loop.sink.Valid() && Agree(context0 + prompts, loop.sink.transcript, loop.drops)
                && loop.sink.trace == old(loop.sink.trace) + Pairs(prompts)
                && loop.sink.transcript == old(loop.sink.transcript) + prompts
    {
      hide Agree, Sink.Valid, Ends;
      var sink := loop.sink;
      assert context0 + prompts[..0] == context0;
      for k := 0 to |prompts|
        invariant sink.Valid() && Agree(context0 + prompts[..k], sink.transcript, loop.drops)
        invariant sink.trace == old(sink.trace) + Pairs(prompts[..k])
        invariant sink.transcript == old(sink.transcript) + prompts[..k]
      {
        var m := prompts[k];
        assert prompts[..k + 1] == prompts[..k] + [m];
        PairsOneMore(prompts[..k], m);
        AgreeNext(context0 + prompts[..k], sink.transcript, loop.drops, m);
        assert context0 + prompts[..k] + [m] == context0 + prompts[..k + 1];
        sink.Emit(MessageStart(m));
        sink.Emit(MessageEnd(m));
        if sink.Refused() { return false; }
      }
      assert prompts[..|prompts|] == prompts;
      ok := true;
    }

    /** A run on the context as it is; its last message must not be the
        assistant's. */
    method RunAgentLoopContinue(firstPoll: PollEnv) returns (status: RunStatus, messages: seq<Message>)
      requires Fresh() && UsualScript()
      requires steering.delivered == steeringBase && followUps.delivered == followUpBase
      modifies this, loop, loop.sink, loop.sink.output, steering, followUps
      ensures Queues() && (status.Returned? ==> Ended() && messages == loop.result)
      ensures steeringBase == old(steeringBase) && followUpBase == old(followUpBase)
    {
      hide Fresh, UsualScript, Ended;
      status := RunContext(firstPoll);
      messages := [];
      if status.Returned? { messages := loop.Conclude(); }
    }

    method RunContext(firstPoll: PollEnv) returns (status: RunStatus)
      requires Fresh() && UsualScript()
      requires steering.delivered == steeringBase && followUps.delivered == followUpBase
      modifies this, loop, loop.sink, loop.sink.output, steering, followUps
      ensures Queues() && (status.Returned? ==> Finished())
      ensures steeringBase == old(steeringBase) && followUpBase == old(followUpBase)
    {
      hide Agree, Sink.Valid, TurnsOk, AllAgree, ResponsesOk, PrintResponses, Usual, PrintTurns, PrintOpening, From,
           Deliveries, Flatten, Pairs, Ends, PollsOk, AllTold, Injected, Drops, LastAdoption, Drained;
      NoPolls();
      if |loop.context| == 0 || loop.context[|loop.context| - 1].role == Assistant { return RunStatus.Failed; }
      var ok := SendOpening([]);
      if !ok { return RunStatus.Failed; }
      OpeningIs(NONE);
      assert loop.Opened([]);
      FromSingle(NONE);
      assert [] + [NONE] == [NONE];
      assert steeringBase + [] == steeringBase && followUpBase + [] == followUpBase;
      assert From([], Steering) == [] && From([], FollowUp) == [] by { FromNothing(); }
      status := RunLoop(firstPoll, []);
    }
  }

  /** A failed turn that was recovered is repeated without new messages. */
  lemma {:induction false} FailureRepeats(t: Turn)
    requires t.spoken.final.stop.Error?
    ensures Follows(t, Beginning(NONE))
  {}

  /** After a turn that did not fail, tool calls or steering lead to another. */
  lemma {:induction false} TurnDecides(t: Turn, more: bool, d: Delivery)
    requires !IsFailure(t.spoken.final) && (more <==> CallsRemain(t)) && (d == NONE || d.source.Steering?)
    ensures more || d != NONE ==> Follows(t, Beginning(d))
    ensures !more ==> IsQuiet(t)
  {
    hide CallsRemain;
  }

  lemma {:induction false} NoPolls()
    ensures forall turns :: PollsOk([], turns)
    ensures Drained([], true) == Drained([], false) == []
  {}

  lemma {:induction false} OpeningIs(d: Delivery)
    ensures [AgentStart, TurnStart] + Pairs(Flatten(d.batches)) == [AgentStart] + PrintTurns([]) + PrintOpening([d])
    ensures [AgentStart, TurnStart] + Pairs([]) == [AgentStart] + PrintTurns([]) + PrintOpening([])
    ensures Deliveries([]) == [] && Injected([]) == [] && Injected([d]) == Flatten(d.batches)
  {
    InjectedNext([], d);
    assert [] + [d] == [d] && [] + Flatten(d.batches) == Flatten(d.batches);
  }

  lemma {:induction false} AtFirst(initial: seq<Message>, responses: seq<seq<Attempt>>)
    ensures TranscriptAfter(initial, [], responses, 0) == initial && Chained([])
  {}

  const QUIET_POLL := PollEnv([], [], false, false)
  const QUIET := TurnEnv(false, [], false, BatchEnv([], []), false, NotRecovered, Proceeds, false, QUIET_POLL, false, false,
                         QUIET_POLL, false, NothingMore)

  lemma {:induction false} EmptyFlatten()
    ensures Flatten([]) == []
  {}

  lemma {:induction false} DeliveriesGrown(before: seq<Turn>, after: seq<Turn>, ds: seq<Delivery>)
    requires |after| == |before| + 1 && after[..|before|] == before && after[|before|].deliveries == ds
    ensures Deliveries(after) == Deliveries(before) + ds
  {
    assert after == before + [after[|before|]];
    TurnsNext(before, after[|before|]);
  }

  /** Whether the continuation owner lets the run go on. */
  predicate MoreToDo(a: ContinuationAnswer) { a.Continues? && (a.messages != [] || a.owned) }

  lemma {:induction false} ContinuationPends(messages: seq<Message>)
    ensures Pends(messages, if messages == [] then WORD else Delivery(Continuation, [messages]))
  {
    FlattenLast([], messages);
    EmptyFlatten();
    assert [] + [messages] == [messages];
  }

  lemma {:induction false} NothingSent()
    ensures Pairs([]) == []
  {}

  lemma {:induction false} NoDeliveries()
    ensures Deliveries([]) == [] && forall ds: seq<Delivery> :: ds + [] == ds
  {}

  lemma {:induction false} FromOne(ds: seq<Delivery>, d: Delivery)
    ensures forall source :: From(ds + [d], source) == From(ds, source) + (if d.source == source then d.batches else [])
    ensures d.batches == [] ==> forall source :: From(ds + [d], source) == From(ds, source)
  {
    InjectedNext(ds, d);
  }

  // ---- Agent.continue ---------------------------------------------------------------------------

  datatype Continuing = RunQueued(messages: seq<Message>, skipInitialSteeringPoll: bool) | RunContinuation | NothingToContinue

  /** What continue() does: queued messages are run when there is no last message
      or it is the assistant's or a custom one; steering goes before follow-ups,
      and a steering batch is not followed by another at once. */
  method ChooseContinuation(transcript: seq<Message>, steering: PendingMessageQueue, followUps: PendingMessageQueue)
    returns (c: Continuing, ghost d: Delivery)
    requires steering != followUps && steering.Valid() && followUps.Valid()
    modifies steering, followUps
    ensures steering.Valid() && followUps.Valid()
    ensures steering.accepted == old(steering.accepted) && followUps.accepted == old(followUps.accepted)
    ensures steering.delivered == old(steering.delivered) + From([d], Steering)
    ensures followUps.delivered == old(followUps.delivered) + From([d], FollowUp)
    ensures transcript == [] || transcript[|transcript| - 1].role.Assistant? ==>
              if old(steering.batches) + old(followUps.batches) != [] then c.RunQueued? else c.NothingToContinue?
    ensures transcript != [] && transcript[|transcript| - 1].role.Custom? ==>
              if old(steering.batches) + old(followUps.batches) != [] then c.RunQueued? else c.RunContinuation?
    ensures transcript != [] && (transcript[|transcript| - 1].role.User? || transcript[|transcript| - 1].role.ToolResult?) ==>
              c.RunContinuation?
    ensures c.RunQueued? ==>
              && c.messages == Flatten(d.batches) != []
              && d.source == (if old(steering.batches) != [] then Steering else FollowUp)
              && (c.skipInitialSteeringPoll <==> d.source == Steering)
    ensures !c.RunQueued? ==> d == NONE
  {
    d := NONE;
    FromSingle(NONE);
    if |transcript| > 0 && transcript[|transcript| - 1].role != Assistant && transcript[|transcript| - 1].role != Custom {
      return RunContinuation, d;
    }
    var messages;
    ghost var drained;
    messages, drained := steering.Drain();
    if |messages| > 0 {
      d := Delivery(Steering, drained);
      FromSingle(d);
      return RunQueued(messages, true), d;
    }
    messages, drained := followUps.Drain();
    if |messages| > 0 {
      d := Delivery(FollowUp, drained);
      FromSingle(d);
      return RunQueued(messages, false), d;
    }
    c := if |transcript| > 0 && transcript[|transcript| - 1].role == Custom then RunContinuation else NothingToContinue;
  }

  lemma {:induction false} FromNothing()
    ensures forall source :: From([], source) == []
  {}

  lemma {:induction false} FromSingle(d: Delivery)
    ensures forall source :: From([d], source) == if d.source == source then d.batches else []
  {
    assert [] + [d] == [d];
    FromOne([], d);
  }

  /** continue() on an idle agent; None is the typed refusal. Over a run that
      returns without an abort, every batch ever accepted has been delivered in
      one turn, whole and in the order of its queue, or still waits. */
  method Continue(loop: AgentLoop, steering: PendingMessageQueue, followUps: PendingMessageQueue, script: seq<TurnEnv>,
                  firstPoll: PollEnv)
    returns (status: Option<RunStatus>, messages: seq<Message>)
    requires loop.Valid() && loop.Recorded() && loop.AllDropped()
    requires loop.turns == [] && loop.newMessages == [] && loop.sink.trace == [] && loop.initial == loop.sink.transcript
    requires steering != followUps && steering.Valid() && followUps.Valid()
    requires forall i :: 0 <= i < |script| ==> Usual(script[i].attempts)
    modifies loop, loop.sink, loop.sink.output, steering, followUps
    ensures steering.accepted == steering.delivered + steering.batches && followUps.accepted == followUps.delivered + followUps.batches
    ensures status == Some(Returned) ==>
              && loop.RanToEnd() && loop.Recorded() && loop.turns != [] && Chained(loop.turns)
              && Grammar.Accepted(loop.sink.trace) && messages == loop.result
              && (!loop.aborted ==>
                    && steering.delivered == old(steering.delivered) + From(Deliveries(loop.turns), Steering)
                    && followUps.delivered == old(followUps.delivered) + From(Deliveries(loop.turns), FollowUp))
  {
    hide Agree, Sink.Valid, TurnsOk, AllAgree, ResponsesOk, PrintResponses, Usual, From, AllTold, Drops, LastAdoption,
         Grammar.Accepted, Deliveries, PrintTurns, Chained, PollsOk, Drained, Flatten, Ends;
    ghost var steered, followed := steering.delivered, followUps.delivered;
    var c;
    ghost var d;
    c, d := ChooseContinuation(loop.sink.transcript, steering, followUps);
    match c {
      case NothingToContinue => return None, [];
      case RunQueued(prompts, skip) =>
        var run := new AgentRun(loop, steering, followUps, script, skip, steered, followed);
        var s, returned := run.RunAgentLoop(prompts, firstPoll, d);
        return Some(s), returned;
      case RunContinuation =>
        FromSingle(NONE);
        var run := new AgentRun(loop, steering, followUps, script, false, steered, followed);
        assert steered + [] == steered && followed + [] == followed;
        var s, returned := run.RunAgentLoopContinue(firstPoll);
        return Some(s), returned;
    }
  }
}
