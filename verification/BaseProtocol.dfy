/** The RPC client with event watermarks
    (benchmarks/python-realworld-30/native/base_protocol.py): the reader numbers
    the events, every response carries the number of the last event before it,
    and a coroutine drains the queue up to that number. */
module BaseProtocols {
  import opened LineReader

  datatype Option<+T> = None | Some(value: T)

  datatype Reason = Stop | ErrorStop | AbortStop | Length | OtherReason

  /** What the client looks at in an event. */
  datatype Event =
    | CompletionError                                        // extension_error of the session input's completion
    | UserMessage(text: string)                              // message_start of a user message
    | Starts                                                 // agent_start, auto_retry_start, auto_compaction_start
    | AgentEnd(refusal: bool, reason: Option<Reason>)
    | CompactionEnd(manual: bool, aborted: bool, hasResult: bool)
    | OtherEvent

  datatype Line = Response(id: nat, success: bool) | Notice(event: Event)

  /** How a line reads; None is a line that is not JSON. */
  type Parser = Bytes -> Option<Line>

  datatype Future = Waiting | Answered(success: bool, watermark: nat) | Failed | Cancelled

  datatype Item = Numbered(number: nat, event: Event) | ReaderError

  /** `log` holds the payloads of all events numbered so far. */
  datatype State = State(
    buffer: Bytes, pending: set<nat>, futures: map<nat, Future>, nextId: nat, queue: seq<Item>,
    eventSequence: nat, consumed: nat, running: bool, log: seq<Event>)

  const INITIAL := State([], {}, map[], 1, [], 0, 0, true, [])

  // ---- the reader ----------------------------------------------------------------------------

  /** However the reader ends, open requests fail and the error goes last in the queue. */
  function Ended(s: State): State {
    s.(running := false, pending := {}, queue := s.queue + [ReaderError],
       futures := map id | id in s.futures :: if id in s.pending && s.futures[id].Waiting? then Failed else s.futures[id])
  }

  function Numbers(s: State, e: Event): State {
    s.(eventSequence := s.eventSequence + 1, queue := s.queue + [Numbered(s.eventSequence + 1, e)], log := s.log + [e])
  }

  /** A response to a request that was cancelled cannot be delivered; that ends
      the reader. A response nobody waits for is an event like any other. */
  function Handle(parse: Parser, s: State, line: Bytes): State {
    if !s.running || IsBlank(line) then s
    else
      match parse(line)
      case None => Ended(s)
      case Some(Notice(e)) => Numbers(s, e)
      case Some(Response(id, success)) =>
        if id !in s.pending then Numbers(s, OtherEvent)
        else
          var s := s.(pending := s.pending - {id});
          if id in s.futures && s.futures[id].Waiting? then
            s.(futures := s.futures[id := Answered(success, s.eventSequence)])
          else Ended(s)
  }

  function HandleAll(parse: Parser, s: State, lines: seq<Bytes>): State {
    if lines == [] then s else Handle(parse, HandleAll(parse, s, lines[..|lines| - 1]), lines[|lines| - 1])
  }

  function Chunk(parse: Parser, s: State, chunk: Bytes): State {
    if !s.running then s
    else
      var split := SplitLines(s.buffer + chunk);
      HandleAll(parse, s.(buffer := split.rest), split.lines)
  }

  // ---- draining --------------------------------------------------------------------------------

  /** Blocked: the queue was empty. Raised: the reader's error came up. */
  datatype Drained = Drained(queue: seq<Item>, consumed: nat, events: seq<Event>) | Blocked | Raised

  function Drain(queue: seq<Item>, consumed: nat, through: nat): Drained
    decreases |queue|
  {
    if consumed >= through then Drained(queue, consumed, [])
    else if queue == [] then Blocked
    else if queue[0].ReaderError? then Raised
    else
      match Drain(queue[1..], queue[0].number, through)
      case Drained(rest, c, events) => Drained(rest, c, [queue[0].event] + events)
      case other => other
  }

  datatype Step = Arrives(chunk: Bytes) | ReaderEnds | Request | CancelRequest(id: nat) | DrainFor(id: nat)

  function Do(parse: Parser, s: State, step: Step): State {
    match step
    case Arrives(chunk) => Chunk(parse, s, chunk)
    case ReaderEnds => if s.running then Ended(s) else s
    case Request => s.(nextId := s.nextId + 1, pending := s.pending + {s.nextId}, futures := s.futures[s.nextId := Waiting])
    case CancelRequest(id) =>
      if id in s.futures && s.futures[id].Waiting? then s.(futures := s.futures[id := Cancelled]) else s
    case DrainFor(id) =>
      if id in s.futures && s.futures[id].Answered? then
        match Drain(s.queue, s.consumed, s.futures[id].watermark)
        case Drained(rest, c, _) => s.(queue := rest, consumed := c)
        case _ => s
      else s
  }

  function Run(parse: Parser, steps: seq<Step>): State {
    if steps == [] then INITIAL else Do(parse, Run(parse, steps[..|steps| - 1]), steps[|steps| - 1])
  }

  // ---- what every interleaving keeps -------------------------------------------------------------

  /** The events after the first `from`, numbered. */
  function Tail(log: seq<Event>, from: nat): seq<Item>
    requires from <= |log|
  {
    seq(|log| - from, k requires 0 <= k < |log| - from => Numbered(from + k + 1, log[from + k]))
  }

  /** The queue holds exactly the consecutive numbers after the consumed one, and
      then, once the reader has ended, its error. */
  ghost predicate Inv(s: State) {
    && s.eventSequence == |s.log| && s.consumed <= |s.log|
    && s.queue == Tail(s.log, s.consumed) + (if s.running then [] else [ReaderError])
    && (forall id :: id in s.futures && s.futures[id].Answered? ==> s.futures[id].watermark <= |s.log|)
    && (forall id :: id in s.pending ==> id in s.futures)
  }

  lemma {:induction false} NumbersKeeps(s: State, e: Event)
    requires Inv(s) && s.running
    ensures Inv(Numbers(s, e))
  {
    assert Tail(s.log + [e], s.consumed) == Tail(s.log, s.consumed) + [Numbered(|s.log| + 1, e)];
  }

  lemma {:induction false} EndedKeeps(s: State)
    requires Inv(s) && s.running
    ensures Inv(Ended(s))
  {}

  lemma {:induction false} HandleKeeps(parse: Parser, s: State, line: Bytes)
    requires Inv(s)
    ensures Inv(Handle(parse, s, line))
  {
    hide Tail, Ended, Numbers, IsBlank;
    if s.running && !IsBlank(line) {
      match parse(line)
      case None => EndedKeeps(s);
      case Some(Notice(e)) => NumbersKeeps(s, e);
      case Some(Response(id, success)) =>
        if id !in s.pending {
          NumbersKeeps(s, OtherEvent);
        } else {
          EndedKeeps(s.(pending := s.pending - {id}));
        }
    }
  }

  lemma {:induction false} HandleAllKeeps(parse: Parser, s: State, lines: seq<Bytes>)
    requires Inv(s)
    ensures Inv(HandleAll(parse, s, lines))
    decreases |lines|
  {
    hide Inv, Handle;
    if lines != [] {
      HandleAllKeeps(parse, s, lines[..|lines| - 1]);
      HandleKeeps(parse, HandleAll(parse, s, lines[..|lines| - 1]), lines[|lines| - 1]);
    }
  }

  /** Draining to a watermark that has been issued takes exactly the events up to
      it: it never finds the queue empty, never meets the reader's error and
      never goes beyond. */
  lemma {:induction false} DrainIsExact(log: seq<Event>, consumed: nat, through: nat, end: seq<Item>)
    requires consumed <= |log| && through <= |log|
    ensures var stop := if through > consumed then through else consumed;
            Drain(Tail(log, consumed) + end, consumed, through) == Drained(Tail(log, stop) + end, stop, log[consumed..stop])
    decreases |log| - consumed
  {
    if consumed < through {
      var queue := Tail(log, consumed) + end;
      assert queue[0] == Numbered(consumed + 1, log[consumed]);
      assert queue[1..] == Tail(log, consumed + 1) + end;
      DrainIsExact(log, consumed + 1, through, end);
      assert log[consumed..through] == [log[consumed]] + log[consumed + 1..through];
    } else {
      assert log[consumed..consumed] == [];
    }
  }

  lemma {:induction false} DoKeeps(parse: Parser, s: State, step: Step)
    requires Inv(s)
    ensures Inv(Do(parse, s, step))
  {
    hide Handle, HandleAll, SplitLines, Tail, Drain, Ended;
    match step
    case Arrives(chunk) =>
      if s.running {
        var split := SplitLines(s.buffer + chunk);
        HandleAllKeeps(parse, s.(buffer := split.rest), split.lines);
      }
    case ReaderEnds => if s.running { EndedKeeps(s); }
    case DrainFor(id) =>
      if id in s.futures && s.futures[id].Answered? {
        DrainIsExact(s.log, s.consumed, s.futures[id].watermark, if s.running then [] else [ReaderError]);
      }
    case _ =>
  }

  lemma {:induction false} InvAlways(parse: Parser, steps: seq<Step>)
    ensures Inv(Run(parse, steps))
    decreases |steps|
  {
    hide Do;
    if steps == [] {
      assert Tail([], 0) == [];
    } else {
      hide Inv;
      InvAlways(parse, steps[..|steps| - 1]);
      DoKeeps(parse, Run(parse, steps[..|steps| - 1]), steps[|steps| - 1]);
    }
  }

  /** After any run, the coroutine that was answered with a watermark drains to
      exactly that watermark, without waiting and without error. */
  lemma {:induction false} AnsweredDrains(parse: Parser, steps: seq<Step>, id: nat)
    requires var s := Run(parse, steps); id in s.futures && s.futures[id].Answered?
    ensures var s := Run(parse, steps);
            var w := s.futures[id].watermark;
            var stop := if w > s.consumed then w else s.consumed;
            && w <= s.eventSequence == |s.log| && s.consumed <= stop <= |s.log|
            && exists rest :: Drain(s.queue, s.consumed, w) == Drained(rest, stop, s.log[s.consumed..stop])
  {
    hide Run, Drain, Tail;
    InvAlways(parse, steps);
    var s := Run(parse, steps);
    DrainIsExact(s.log, s.consumed, s.futures[id].watermark, if s.running then [] else [ReaderError]);
  }

  // ---- chunks --------------------------------------------------------------------------------------

  lemma {:induction false} HandleAllAppend(parse: Parser, s: State, a: seq<Bytes>, b: seq<Bytes>)
    ensures HandleAll(parse, s, a + b) == HandleAll(parse, HandleAll(parse, s, a), b)
    decreases |b|
  {
    hide Handle;
    if b == [] {
      assert a + b == a;
    } else {
      assert (a + b)[..|a + b| - 1] == a + b[..|b| - 1];
      HandleAllAppend(parse, s, a, b[..|b| - 1]);
    }
  }

  /** Lines do not read or write the buffer. */
  lemma {:induction false} BufferApart(parse: Parser, s: State, lines: seq<Bytes>, buffer: Bytes)
    ensures HandleAll(parse, s.(buffer := buffer), lines) == HandleAll(parse, s, lines).(buffer := buffer)
    decreases |lines|
  {
    if lines != [] {
      hide Handle;
      var before := HandleAll(parse, s, lines[..|lines| - 1]);
      BufferApart(parse, s, lines[..|lines| - 1], buffer);
      BufferApartOnce(parse, before, lines[|lines| - 1], buffer);
    }
  }

  lemma {:induction false} BufferApartOnce(parse: Parser, s: State, line: Bytes, buffer: Bytes)
    ensures Handle(parse, s.(buffer := buffer), line) == Handle(parse, s, line).(buffer := buffer)
  {}

  lemma {:induction false} NotRunning(parse: Parser, s: State, lines: seq<Bytes>)
    requires !s.running
    ensures HandleAll(parse, s, lines) == s
    decreases |lines|
  {
    if lines != [] { NotRunning(parse, s, lines[..|lines| - 1]); }
  }

  /** Everything but the buffer of a reader that has ended, which is gone. */
  predicate Same(s: State, t: State) { s == t || (!s.running && s.(buffer := t.buffer) == t) }

  /** Two chunks are one chunk: the same events, numbers, answers and error. */
  lemma {:induction false} TwoChunksAreOne(parse: Parser, s: State, a: Bytes, b: Bytes)
    ensures Same(Chunk(parse, Chunk(parse, s, a), b), Chunk(parse, s, a + b))
  {
    hide HandleAll, SplitLines;
    if s.running {
      var first := SplitLines(s.buffer + a);
      var second := SplitLines(first.rest + b);
      SplitResumes(s.buffer + a, b);
      assert s.buffer + a + b == s.buffer + (a + b);
      var mid := HandleAll(parse, s, first.lines);
      BufferApart(parse, s, first.lines, first.rest);
      BufferApart(parse, s, first.lines + second.lines, second.rest);
      HandleAllAppend(parse, s, first.lines, second.lines);
      if mid.running {
        BufferApart(parse, mid, second.lines, second.rest);
      } else {
        NotRunning(parse, mid, second.lines);
      }
    }
  }

  function Chunks(parse: Parser, s: State, chunks: seq<Bytes>): State {
    if chunks == [] then s else Chunk(parse, Chunks(parse, s, chunks[..|chunks| - 1]), chunks[|chunks| - 1])
  }

  lemma {:induction false} ChunkSame(parse: Parser, s: State, t: State, chunk: Bytes)
    requires Same(s, t)
    ensures Same(Chunk(parse, s, chunk), Chunk(parse, t, chunk))
  {
    hide HandleAll, SplitLines;
  }

  /** What is delivered does not depend on how the output was cut into chunks. */
  lemma {:induction false} ChunkingDoesNotMatter(parse: Parser, s: State, chunks: seq<Bytes>)
    requires chunks != []
    ensures Same(Chunks(parse, s, chunks), Chunk(parse, s, Concat(chunks)))
    decreases |chunks|
  {
    hide Chunk;
    var front, last := chunks[..|chunks| - 1], chunks[|chunks| - 1];
    if front == [] {
      assert Concat([]) + last == last;
    } else {
      ChunkingDoesNotMatter(parse, s, front);
      ChunkSame(parse, Chunks(parse, s, front), Chunk(parse, s, Concat(front)), last);
      TwoChunksAreOne(parse, s, Concat(front), last);
    }
  }

  // ---- the outcome of a prompt and of a compaction -------------------------------------------------

  datatype Terminal = Terminal(completed: bool, refusal: bool, reason: Option<Reason>)

  datatype Verdict = Verdict(consumed: bool, terminal: Option<Terminal>, completionError: bool)

  const NO_VERDICT := Verdict(false, None, false)

  /** One event of the prompt's own stretch. */
  function Absorb(v: Verdict, e: Event, text: string): Verdict {
    match e
    case CompletionError => v.(completionError := true)
    case UserMessage(t) => if t == text then v.(consumed := true, terminal := None) else v
    case Starts => v.(terminal := None)
    case AgentEnd(refusal, reason) =>
      if v.consumed || refusal then
        v.(terminal := Some(Terminal(v.consumed && !refusal && reason == Some(Stop), refusal, reason)))
      else v
    case _ => v
  }

  function Judge(events: seq<Event>, text: string): Verdict {
    if events == [] then NO_VERDICT else Absorb(Judge(events[..|events| - 1], text), events[|events| - 1], text)
  }

  predicate Completed(v: Verdict) { v.terminal.Some? && v.terminal.value.completed && !v.completionError }

  /** After `k` the run is neither taken up again nor ended again. */
  predicate Last(events: seq<Event>, text: string, k: nat) {
    forall m :: k < m < |events| ==> !events[m].Starts? && !events[m].AgentEnd? && events[m] != UserMessage(text)
  }

  /** A stop without refusal that comes after the submitted message and is the
      last word. */
  predicate StopsAt(events: seq<Event>, text: string, k: nat) {
    && k < |events| && events[k] == AgentEnd(false, Some(Stop)) && Last(events, text, k)
    && UserMessage(text) in events[..k]
  }

  lemma {:induction false} JudgeMeaning(events: seq<Event>, text: string)
    ensures var v := Judge(events, text);
            && (v.consumed <==> UserMessage(text) in events)
            && (v.completionError <==> CompletionError in events)
            && (v.terminal.Some? && v.terminal.value.completed <==> exists k :: StopsAt(events, text, k))
    decreases |events|
  {
    if events != [] {
      var n := |events| - 1;
      var front, e := events[..n], events[n];
      JudgeMeaning(front, text);
      assert events == front + [e];
      JudgeStep(front, e, text);
    }
  }

  lemma {:induction false} JudgeStep(front: seq<Event>, e: Event, text: string)
    ensures var events := front + [e];
            && (e.Starts? || e == UserMessage(text) ==> forall k :: !StopsAt(events, text, k))
            && (e.AgentEnd? ==> forall k :: StopsAt(events, text, k) ==> k == |front|)
            && (StopsAt(events, text, |front|) <==> e == AgentEnd(false, Some(Stop)) && UserMessage(text) in front)
            && (!e.Starts? && e != UserMessage(text) && !e.AgentEnd? ==>
                  forall k :: StopsAt(events, text, k) <==> StopsAt(front, text, k))
  {
    var events := front + [e];
    assert events[..|front|] == front && events[|front|] == e;
    forall k | 0 <= k < |front|
      ensures events[..k] == front[..k] && events[k] == front[k]
      ensures Last(events, text, k) <==> Last(front, text, k) && !e.Starts? && !e.AgentEnd? && e != UserMessage(text)
    {
      if Last(events, text, k) {
        assert forall m :: k < m < |front| ==> events[m] == front[m];
      }
    }
  }

  /** A prompt is completed exactly when the submitted message was taken up and
      the last word after it is a stop without refusal, and no completion error
      came anywhere in its stretch. */
  lemma {:induction false} CompletedExactly(events: seq<Event>, text: string)
    ensures Completed(Judge(events, text)) <==>
            (exists k :: StopsAt(events, text, k)) && CompletionError !in events
  {
    hide Judge;
    JudgeMeaning(events, text);
  }

  /** The last end of a manual compaction, which is what compact() looks at. */
  function LastManual(events: seq<Event>): Option<Event> {
    if events == [] then None
    else
      var last := events[|events| - 1];
      if last.CompactionEnd? && last.manual then Some(last) else LastManual(events[..|events| - 1])
  }

  predicate CompactionDone(completed: Option<Event>) {
    completed.Some? && completed.value.CompactionEnd? && !completed.value.aborted && completed.value.hasResult
  }

  /** A compaction is done exactly when the last manual end in its stretch was not
      aborted and has a result. */
  lemma {:induction false} CompactedExactly(events: seq<Event>)
    ensures CompactionDone(LastManual(events)) <==>
            exists k :: 0 <= k < |events| && events[k] == CompactionEnd(true, false, true)
                        && forall m :: k < m < |events| ==> !(events[m].CompactionEnd? && events[m].manual)
    decreases |events|
  {
    if events != [] {
      var n := |events| - 1;
      var front := events[..n];
      CompactedExactly(front);
      forall k | 0 <= k < n
        ensures front[k] == events[k]
      {}
      if events[n].CompactionEnd? && events[n].manual {
        assert CompactionDone(LastManual(events)) ==> events[n] == CompactionEnd(true, false, true);
      } else if CompactionDone(LastManual(front)) {
        var k :| 0 <= k < |front| && front[k] == CompactionEnd(true, false, true)
                 && forall m :: k < m < |front| ==> !(front[m].CompactionEnd? && front[m].manual);
        assert events[k] == CompactionEnd(true, false, true);
      }
    }
  }

  // ---- the only coroutine ------------------------------------------------------------------------------

  /** What has happened since a call that made request `id`, when nobody drained. */
  predicate Since(s0: State, s: State, id: nat) {
    && s.consumed == s0.consumed && |s0.log| <= |s.log| && s.eventSequence == |s.log|
    && (id in s.futures && s.futures[id].Answered? ==> |s0.log| <= s.futures[id].watermark <= |s.log|)
  }

  lemma {:induction false} HandleSince(parse: Parser, s0: State, s: State, id: nat, line: Bytes)
    requires Since(s0, s, id)
    ensures Since(s0, Handle(parse, s, line), id)
  {}

  lemma {:induction false} HandleAllSince(parse: Parser, s0: State, s: State, id: nat, lines: seq<Bytes>)
    requires Since(s0, s, id)
    ensures Since(s0, HandleAll(parse, s, lines), id)
    decreases |lines|
  {
    hide Handle, Since;
    if lines != [] {
      HandleAllSince(parse, s0, s, id, lines[..|lines| - 1]);
      HandleSince(parse, s0, HandleAll(parse, s, lines[..|lines| - 1]), id, lines[|lines| - 1]);
    }
  }

  lemma {:induction false} DoSince(parse: Parser, s0: State, s: State, id: nat, step: Step)
    requires Since(s0, s, id) && !step.DrainFor?
    ensures Since(s0, Do(parse, s, step), id)
  {
    hide HandleAll, SplitLines;
    if step.Arrives? && s.running {
      var split := SplitLines(s.buffer + step.chunk);
      HandleAllSince(parse, s0, s.(buffer := split.rest), id, split.lines);
    }
  }

  lemma {:induction false} RunSince(parse: Parser, steps: seq<Step>, more: seq<Step>, id: nat)
    requires id !in Run(parse, steps).futures && forall step :: step in more ==> !step.DrainFor?
    ensures Since(Run(parse, steps), Run(parse, steps + more), id)
    decreases |more|
  {
    hide Do, Since;
    var s := Run(parse, steps);
    if more == [] {
      assert steps + more == steps;
      InvAlways(parse, steps);
      assert Since(s, s, id) by { SinceNow(s, id); }
    } else {
      var n := |more| - 1;
      RunSince(parse, steps, more[..n], id);
      assert (steps + more)[..|steps + more| - 1] == steps + more[..n];
      DoSince(parse, s, Run(parse, steps + more[..n]), id, more[n]);
    }
  }

  lemma {:induction false} SinceNow(s: State, id: nat)
    requires Inv(s) && id !in s.futures
    ensures Since(s, s, id)
  {}

  /** While one coroutine runs at a time, nobody drains between its call and its
      own drain: then what it looks at is every event after the call, up to the
      watermark. A drain in between would take such events away. */
  lemma {:induction false} LoneCallSeesAll(parse: Parser, steps: seq<Step>, more: seq<Step>, id: nat)
    requires id !in Run(parse, steps).futures && forall step :: step in more ==> !step.DrainFor?
    requires id in Run(parse, steps + more).futures && Run(parse, steps + more).futures[id].Answered?
    ensures var after := Run(parse, steps).eventSequence;
            var s := Run(parse, steps + more);
            var through := s.futures[id].watermark;
            && s.consumed <= after <= through <= |s.log|
            && Stretch(s.log, s.consumed, after, through) == s.log[after..through]
  {
    hide Run;
    RunSince(parse, steps, more, id);
    InvAlways(parse, steps);
    InvAlways(parse, steps + more);
  }

  // ---- requests and the end of the reader -----------------------------------------------------------------

  /** Requests have numbers of their own, and the reader knows those that wait. */
  predicate Requests(s: State) {
    && (forall id :: id in s.futures ==> id < s.nextId)
    && (forall id :: id in s.futures && s.futures[id].Waiting? ==> id in s.pending)
  }

  predicate NoneWaits(s: State) { forall id :: id in s.futures ==> !s.futures[id].Waiting? }

  lemma {:induction false} HandleRequests(parse: Parser, s: State, line: Bytes)
    requires Requests(s) && (!s.running ==> NoneWaits(s))
    ensures var s' := Handle(parse, s, line); Requests(s') && (!s'.running ==> NoneWaits(s'))
  {}

  lemma {:induction false} HandleAllRequests(parse: Parser, s: State, lines: seq<Bytes>)
    requires Requests(s) && (!s.running ==> NoneWaits(s))
    ensures var s' := HandleAll(parse, s, lines); Requests(s') && (!s'.running ==> NoneWaits(s'))
    decreases |lines|
  {
    hide Handle, Requests, NoneWaits;
    if lines != [] {
      HandleAllRequests(parse, s, lines[..|lines| - 1]);
      HandleRequests(parse, HandleAll(parse, s, lines[..|lines| - 1]), lines[|lines| - 1]);
    }
  }

  /** The step that ends the reader leaves nobody waiting. */
  lemma {:induction false} DoRequests(parse: Parser, s: State, step: Step)
    requires Requests(s)
    ensures var s' := Do(parse, s, step); Requests(s') && (s.running && !s'.running ==> NoneWaits(s'))
  {
    hide HandleAll, SplitLines, Drain;
    if step.Arrives? && s.running {
      var split := SplitLines(s.buffer + step.chunk);
      HandleAllRequests(parse, s.(buffer := split.rest), split.lines);
    }
  }

  lemma {:induction false} RequestsAlways(parse: Parser, steps: seq<Step>)
    ensures Requests(Run(parse, steps))
    decreases |steps|
  {
    hide Do, Requests;
    if steps == [] {
      assert Requests(INITIAL) by { NoRequests(); }
    } else {
      RequestsAlways(parse, steps[..|steps| - 1]);
      DoRequests(parse, Run(parse, steps[..|steps| - 1]), steps[|steps| - 1]);
    }
  }

  lemma {:induction false} NoRequests()
    ensures Requests(INITIAL)
  {}

  /** How many steps there were when the reader had ended. */
  function EndOfReader(parse: Parser, steps: seq<Step>): (n: nat)
    requires !Run(parse, steps).running
    ensures n <= |steps| && !Run(parse, steps[..n]).running
  {
    var front := steps[..|steps| - 1];
    if !Run(parse, front).running then
      var n := EndOfReader(parse, front);
      assert front[..n] == steps[..n];
      n
    else
      assert steps[..|steps|] == steps;
      |steps|
  }

  /** The futures that wait are those made since, unless they were given up. */
  predicate Stranded(s0: State, s: State) {
    && s0.futures.Keys <= s.futures.Keys
    && forall id :: id in s.futures ==> (s.futures[id].Waiting? <==> id !in s0.futures && !s.futures[id].Cancelled?)
  }

  lemma {:induction false} StrandedNow(s: State)
    requires NoneWaits(s)
    ensures Stranded(s, s)
  {}

  lemma {:induction false} StrandedStill(parse: Parser, s0: State, s: State, step: Step)
    requires Stranded(s0, s) && !s.running && Requests(s)
    ensures Stranded(s0, Do(parse, s, step)) && !Do(parse, s, step).running
  {
    hide Drain, HandleAll, SplitLines;
  }

  /** Once the reader has ended, a future is waiting if and only if its request was
      made after the end and has not been cancelled: nothing fails or answers it
      any more. Every earlier one has been settled. */
  lemma {:induction false} LateRequestsWait(parse: Parser, steps: seq<Step>)
    requires !Run(parse, steps).running
    ensures Stranded(Run(parse, steps[..EndOfReader(parse, steps)]), Run(parse, steps))
    decreases |steps|
  {
    hide Do, Requests, Stranded, NoneWaits;
    var n := |steps| - 1;
    var s := Run(parse, steps[..n]);
    RequestsAlways(parse, steps[..n]);
    if s.running {
      DoRequests(parse, s, steps[n]);
      assert steps[..|steps|] == steps;
      StrandedNow(Run(parse, steps));
    } else {
      LateRequestsWait(parse, steps[..n]);
      var e := EndOfReader(parse, steps[..n]);
      assert steps[..n][..e] == steps[..e];
      StrandedStill(parse, Run(parse, steps[..e]), s, steps[n]);
    }
  }

  // ---- the object -------------------------------------------------------------------------------------

  class BaseContextProtocol {
    const parse: Parser
    var buffer: Bytes
    var pending: set<nat>
    var futures: map<nat, Future>
    var sequence: nat
    var events: seq<Item>
    var eventSequence: nat
    var consumedEventSequence: nat
    var running: bool
    ghost var log: seq<Event>

    ghost function Abstract(): State
      reads this
    {
      State(buffer, pending, futures, sequence, events, eventSequence, consumedEventSequence, running, log)
    }

    constructor (parse: Parser)
      ensures Abstract() == INITIAL && Inv(Abstract()) && this.parse == parse
    {
      this.parse := parse;
      buffer, pending, futures, sequence, events := [], {}, map[], 1, [];
      eventSequence, consumedEventSequence, running, log := 0, 0, true, [];
      new;
      InvAlways(parse, []);
    }

    /** One chunk of the output. */
    method ReadChunk(chunk: Bytes)
      requires running && Inv(Abstract())
      modifies this
      ensures Abstract() == Chunk(parse, old(Abstract()), chunk) && Inv(Abstract())
    {
      hide SplitLines, Handle, Inv;
      ghost var before := Abstract();
      var lines, rest := TakeLines(buffer + chunk);
      buffer := rest;
      assert Inv(Abstract()) by { OtherBuffer(before, rest); }
      ghost var start := Abstract();
      for k := 0 to |lines|
        invariant Abstract() == HandleAll(parse, start, lines[..k]) && Inv(Abstract())
      {
        assert lines[..k + 1][..k] == lines[..k];
        HandleKeeps(parse, Abstract(), lines[k]);
        HandleLine(lines[k]);
      }
      assert lines[..|lines|] == lines;
    }

    method HandleLine(line: Bytes)
      modifies this
      ensures Abstract() == Handle(parse, old(Abstract()), line)
    {
      if !running || IsBlank(line) { return; }
      match parse(line) {
        case None => EndReader();
        case Some(Notice(e)) => PutEvent(e);
        case Some(Response(id, success)) =>
          if id !in pending {
            PutEvent(OtherEvent);
          } else {
            pending := pending - {id};
            if id in futures && futures[id].Waiting? {
              futures := futures[id := Answered(success, eventSequence)];
            } else {
              EndReader();
            }
          }
      }
    }

    method PutEvent(e: Event)
      modifies this
      ensures Abstract() == Numbers(old(Abstract()), e)
    {
      eventSequence := eventSequence + 1;
      events := events + [Numbered(eventSequence, e)];
      log := log + [e];
    }

    method EndReader()
      modifies this
      ensures Abstract() == Ended(old(Abstract()))
    {
      running := false;
      futures := map id | id in futures :: if id in pending && futures[id].Waiting? then Failed else futures[id];
      pending := {};
      events := events + [ReaderError];
    }

    lemma {:induction false} AllNumbered()
      requires Inv(Abstract())
      ensures consumedEventSequence <= eventSequence == |log|
    {}

    /** Take the next item off the queue; an event is consumed with its number, and
        the reader's error would be raised. Below the last number it is always the
        next event. */
    method Consume() returns (raised: bool, number: nat, event: Event)
      requires Inv(Abstract()) && consumedEventSequence < eventSequence
      modifies this`events, this`consumedEventSequence
      ensures Inv(Abstract()) && !raised
      ensures number == consumedEventSequence == old(consumedEventSequence) + 1 && event == log[old(consumedEventSequence)]
    {
      assert events[0] == Numbered(consumedEventSequence + 1, log[consumedEventSequence]);
      NextTail(log, consumedEventSequence, if running then [] else [ReaderError]);
      var item := events[0];
      events := events[1..];
      raised, number, event := item.ReaderError?, 0, OtherEvent;
      if item.Numbered? {
        consumedEventSequence := item.number;
        number, event := item.number, item.event;
      }
    }

    /** The loop of prompt(): up to the watermark, judging the events that came
        after the call. Raised would be the reader's error. */
    method DrainPrompt(afterEvent: nat, through: nat, text: string) returns (raised: bool, verdict: Verdict)
      requires Inv(Abstract()) && through <= eventSequence && afterEvent <= eventSequence
      modifies this`events, this`consumedEventSequence
      ensures Inv(Abstract()) && !raised
      ensures consumedEventSequence == if through > old(consumedEventSequence) then through else old(consumedEventSequence)
      ensures verdict == Judge(Stretch(log, old(consumedEventSequence), afterEvent, consumedEventSequence), text)
    {
      hide Judge, Inv, Stretch;
      AllNumbered();
      raised, verdict := false, NO_VERDICT;
      ghost var first := consumedEventSequence;
      assert Judge(Stretch(log, first, afterEvent, first), text) == NO_VERDICT by { NothingJudged(log, first, afterEvent, text); }
      while consumedEventSequence < through && !raised
        invariant Inv(Abstract()) && !raised && first <= consumedEventSequence
        invariant consumedEventSequence <= through || consumedEventSequence == first
        invariant verdict == Judge(Stretch(log, first, afterEvent, consumedEventSequence), text)
        decreases through - consumedEventSequence
      {
        ghost var c := consumedEventSequence;
        var number, event;
        raised, number, event := Consume();
        if !raised && number > afterEvent { verdict := Absorb(verdict, event, text); }
        JudgeNext(log, first, afterEvent, c, text);
      }
    }

    /** The loop of compact(). */
    method DrainCompaction(afterEvent: nat, through: nat) returns (raised: bool, completed: Option<Event>)
      requires Inv(Abstract()) && through <= eventSequence && afterEvent <= eventSequence
      modifies this`events, this`consumedEventSequence
      ensures Inv(Abstract()) && !raised
      ensures consumedEventSequence == if through > old(consumedEventSequence) then through else old(consumedEventSequence)
      ensures completed == LastManual(Stretch(log, old(consumedEventSequence), afterEvent, consumedEventSequence))
    {
      hide LastManual, Inv, Stretch;
      AllNumbered();
      raised, completed := false, None;
      ghost var first := consumedEventSequence;
      assert LastManual(Stretch(log, first, afterEvent, first)) == None by { NothingManual(log, first, afterEvent); }
      while consumedEventSequence < through && !raised
        invariant Inv(Abstract()) && !raised && first <= consumedEventSequence
        invariant consumedEventSequence <= through || consumedEventSequence == first
        invariant completed == LastManual(Stretch(log, first, afterEvent, consumedEventSequence))
        decreases through - consumedEventSequence
      {
        ghost var c := consumedEventSequence;
        var number, event;
        raised, number, event := Consume();
        if !raised && number > afterEvent && event.CompactionEnd? && event.manual { completed := Some(event); }
        ManualNext(log, first, afterEvent, c);
      }
    }
  }

  lemma {:induction false} OtherBuffer(s: State, buffer: Bytes)
    requires Inv(s)
    ensures Inv(s.(buffer := buffer))
  {}

  lemma {:induction false} NextTail(log: seq<Event>, c: nat, end: seq<Item>)
    requires c < |log|
    ensures (Tail(log, c) + end)[1..] == Tail(log, c + 1) + end
  {}

  /** The events a call looks at: those it drains that came after it was made. */
  function Stretch(log: seq<Event>, first: nat, afterEvent: nat, last: nat): seq<Event>
    requires last <= |log|
  {
    var from := if afterEvent > first then afterEvent else first;
    if from <= last then log[from..last] else []
  }

  lemma {:induction false} NothingJudged(log: seq<Event>, first: nat, afterEvent: nat, text: string)
    requires first <= |log|
    ensures Judge(Stretch(log, first, afterEvent, first), text) == NO_VERDICT
  {}

  lemma {:induction false} NothingManual(log: seq<Event>, first: nat, afterEvent: nat)
    requires first <= |log|
    ensures LastManual(Stretch(log, first, afterEvent, first)) == None
  {}

  lemma {:induction false} ManualNext(log: seq<Event>, first: nat, afterEvent: nat, c: nat)
    requires first <= c < |log|
    ensures LastManual(Stretch(log, first, afterEvent, c + 1))
            == if c + 1 > afterEvent && log[c].CompactionEnd? && log[c].manual then Some(log[c])
               else LastManual(Stretch(log, first, afterEvent, c))
  {
    var before, after := Stretch(log, first, afterEvent, c), Stretch(log, first, afterEvent, c + 1);
    if c + 1 > afterEvent {
      assert after == before + [log[c]];
      assert after[..|after| - 1] == before;
    } else {
      assert before == [] && after == [];
    }
  }

  lemma {:induction false} JudgeNext(log: seq<Event>, first: nat, afterEvent: nat, c: nat, text: string)
    requires first <= c < |log|
    ensures Judge(Stretch(log, first, afterEvent, c + 1), text)
            == if c + 1 > afterEvent then Absorb(Judge(Stretch(log, first, afterEvent, c), text), log[c], text)
               else Judge(Stretch(log, first, afterEvent, c), text)
  {
    var before, after := Stretch(log, first, afterEvent, c), Stretch(log, first, afterEvent, c + 1);
    if c + 1 > afterEvent {
      assert after == before + [log[c]];
      assert after[..|after| - 1] == before;
    } else {
      assert before == [] && after == [];
    }
  }
}
