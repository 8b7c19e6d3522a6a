/** The Codex app-server client
    (benchmarks/python-realworld-30/native/codex_protocol.py): one reader and
    several coroutines share futures. Every piece of code between two awaits is
    one step; `Run` takes any steps in any order. */
module CodexProtocols {

  datatype Option<+T> = None | Some(value: T)

  type Id = nat

  /** A turn/completed notification. */
  datatype Terminal = Terminal(thread: Id, turn: Id, failed: bool, payload: nat)

  /** A completed contextCompaction item. */
  datatype Item = Item(turn: Id, payload: nat)

  datatype Future<+T> = Waiting | Result(value: T) | Raised

  /** A response's result; `turn` is its turn id, if it has one. */
  datatype Accepted = Accepted(turn: Option<Id>)

  datatype Compacted = Compacted(event: Item, terminal: Terminal)

  datatype Message =
    | Response(id: nat, result: Option<Accepted>)   // None: an error response
    | ServerRequest
    | ErrorNote(thread: Id, willRetry: bool)
    | TurnStarted(thread: Id, turn: Id)
    | CompactionItem(thread: Id, item: Item, completed: bool)
    | TurnCompleted(terminal: Terminal)
    | OtherNote

  /** Where the prompt coroutine is suspended. */
  datatype PromptAt = NoPrompt | Sending(id: nat) | Answering(id: nat) | Turning(turn: Id)

  datatype CompactAt = NoCompact | SendingCompact(id: nat) | AnsweringCompact(id: nat) | Finishing

  datatype Returned = Returned(turn: Id, terminal: Terminal)

  /** The client's fields, the suspended coroutines, and what has happened:
      completions received, keys handed to a prompt, and what prompts and
      compactions returned. */
  datatype State = State(
    thread: Id, nextId: nat, pending: map<nat, Future<Accepted>>, stopped: bool,
    turnWaiter: Option<Future<Terminal>>, activeTurn: Option<Id>, completed: map<(Id, Id), Terminal>,
    compactionWaiter: Option<Future<Compacted>>, compactionEvent: Option<Item>, compactionTurn: Option<Id>,
    prompt: PromptAt, compact: CompactAt, others: set<nat>,
    received: seq<Terminal>, handed: set<(Id, Id)>, returned: seq<Returned>, compactions: seq<Compacted>)

  function Initial(thread: Id): State {
    State(thread, 1, map[], false, None, None, map[], None, None, None, NoPrompt, NoCompact, {}, [], {}, [], [])
  }

  function Key(t: Terminal): (Id, Id) { (t.thread, t.turn) }

  function Settle<T>(f: Option<Future<T>>, outcome: Future<T>): Option<Future<T>> {
    if f.Some? && f.value.Waiting? then Some(outcome) else f
  }

  // ---- the reader -----------------------------------------------------------------------------

  function FinishCompaction(s: State): State {
    if s.compactionTurn.None? || s.compactionWaiter.None? || !s.compactionWaiter.value.Waiting? then s
    else
      var key := (s.thread, s.compactionTurn.value);
      if key !in s.completed then s
      else if s.completed[key].failed then s.(compactionWaiter := Some(Raised))
      else if s.compactionEvent.Some? then
        s.(compactionWaiter := Some(Result(Compacted(s.compactionEvent.value, s.completed[key]))))
      else s
  }

  function Failed(pending: map<nat, Future<Accepted>>): map<nat, Future<Accepted>> {
    map id | id in pending :: if pending[id].Waiting? then Raised else pending[id]
  }

  function FailPending(s: State): State {
    s.(stopped := true,
       pending := Failed(s.pending),
       turnWaiter := Settle(s.turnWaiter, Raised),
       compactionWaiter := Settle(s.compactionWaiter, Raised))
  }

  function Receive(s: State, m: Message): State {
    match m
    case Response(id, result) =>
      if id in s.pending && s.pending[id].Waiting? then
        s.(pending := s.pending[id := if result.Some? then Result(result.value) else Raised])
      else s
    case ServerRequest => FailPending(s)
    case ErrorNote(thread, willRetry) =>
      if thread == s.thread && !willRetry then s.(compactionWaiter := Settle(s.compactionWaiter, Raised)) else s
    case TurnStarted(thread, turn) =>
      if thread == s.thread && s.compactionWaiter.Some? && s.compactionTurn.None? then s.(compactionTurn := Some(turn)) else s
    case CompactionItem(thread, item, completed) =>
      if thread == s.thread && s.compactionWaiter.Some? && s.compactionWaiter.value.Waiting? then
        FinishCompaction(s.(compactionTurn := Some(item.turn),
                            compactionEvent := if completed then Some(item) else s.compactionEvent))
      else s
    case TurnCompleted(t) =>
      var s := FinishCompaction(s.(completed := s.completed[Key(t) := t], received := s.received + [t]));
      if s.activeTurn.Some? && Key(t) == (s.thread, s.activeTurn.value) then
        s.(turnWaiter := Settle(s.turnWaiter, Result(t)))
      else s
    case OtherNote => s
  }

  // ---- the coroutines ---------------------------------------------------------------------------

  datatype Step =
    | Message(m: Message)
    | ReaderStops
    | CallPrompt
    | PromptSent(ok: bool)
    | PromptAnswered
    | PromptTurned
    | CancelPrompt
    | CallCompact
    | CompactSent(ok: bool)
    | CompactAnswered
    | CompactFinished
    | CancelCompact
    | CallOther
    | EndOther(id: nat)

  /** The `finally` of prompt. */
  function LeavePrompt(s: State): State { s.(turnWaiter := None, activeTurn := None, prompt := NoPrompt) }

  function LeaveCompact(s: State): State {
    s.(compactionWaiter := None, compactionEvent := None, compactionTurn := None, compact := NoCompact)
  }

  /** A request's future leaves `pending` when its coroutine goes on. */
  function DropRequest(s: State, id: nat): State { s.(pending := s.pending - {id}) }

  function Return(s: State, turn: Id, t: Terminal): State {
    LeavePrompt(s.(completed := s.completed - {(s.thread, turn)}, handed := s.handed + {(s.thread, turn)},
                   returned := s.returned + [Returned(turn, t)]))
  }

  function Answered(s: State, id: nat): State
    requires id in s.pending
  {
    var f := s.pending[id];
    var s := DropRequest(s, id);
    if !f.Result? || f.value.turn.None? then LeavePrompt(s)
    else
      var turn := f.value.turn.value;
      if (s.thread, turn) in s.completed then Return(s, turn, s.completed[(s.thread, turn)])
      else s.(activeTurn := Some(turn), prompt := Turning(turn))
  }

  /** One step; a step that is not enabled changes nothing. */
  function Do(s: State, step: Step): State {
    match step
    case Message(m) => if s.stopped then s else Receive(s, m)
    case ReaderStops => FailPending(s)
    case CallPrompt =>
      if s.turnWaiter.Some? || s.stopped then s
      else s.(turnWaiter := Some(Waiting), activeTurn := None, nextId := s.nextId + 1,
              pending := s.pending[s.nextId := Waiting], prompt := Sending(s.nextId))
    case PromptSent(ok) =>
      if !s.prompt.Sending? then s
      else if ok then s.(prompt := Answering(s.prompt.id))
      else LeavePrompt(DropRequest(s, s.prompt.id))
    case PromptAnswered =>
      if !s.prompt.Answering? || s.prompt.id !in s.pending || s.pending[s.prompt.id].Waiting? then s
      else Answered(s, s.prompt.id)
    case PromptTurned =>
      if !s.prompt.Turning? || s.turnWaiter.None? || s.turnWaiter.value.Waiting? then s
      else if s.turnWaiter.value.Result? then Return(s, s.prompt.turn, s.turnWaiter.value.value)
      else LeavePrompt(s)
    case CancelPrompt =>
      (match s.prompt
       case NoPrompt => s
       case Turning(_) => LeavePrompt(s)
       case Sending(id) => LeavePrompt(DropRequest(s, id))
       case Answering(id) => LeavePrompt(DropRequest(s, id)))
    case CallCompact =>
      // After the reader has stopped the request raises at once and the waiter is gone again.
      if s.turnWaiter.Some? || s.compactionWaiter.Some? || s.stopped then s
      else s.(compactionWaiter := Some(Waiting), compactionEvent := None, compactionTurn := None, nextId := s.nextId + 1,
              pending := s.pending[s.nextId := Waiting], compact := SendingCompact(s.nextId))
    case CompactSent(ok) =>
      if !s.compact.SendingCompact? then s
      else if ok then s.(compact := AnsweringCompact(s.compact.id))
      else LeaveCompact(DropRequest(s, s.compact.id))
    case CompactAnswered =>
      if !s.compact.AnsweringCompact? || s.compact.id !in s.pending || s.pending[s.compact.id].Waiting? then s
      else if s.pending[s.compact.id].Result? then DropRequest(s, s.compact.id).(compact := Finishing)
      else LeaveCompact(DropRequest(s, s.compact.id))
    case CompactFinished =>
      if !s.compact.Finishing? || s.compactionWaiter.None? || s.compactionWaiter.value.Waiting? then s
      else if s.compactionWaiter.value.Result? then
        LeaveCompact(s.(compactions := s.compactions + [s.compactionWaiter.value.value]))
      else LeaveCompact(s)
    case CancelCompact =>
      (match s.compact
       case NoCompact => s
       case Finishing => LeaveCompact(s)
       case SendingCompact(id) => LeaveCompact(DropRequest(s, id))
       case AnsweringCompact(id) => LeaveCompact(DropRequest(s, id)))
    case CallOther =>
      if s.stopped then s
      else s.(nextId := s.nextId + 1, pending := s.pending[s.nextId := Waiting], others := s.others + {s.nextId})
    case EndOther(id) => if id !in s.others then s else DropRequest(s, id).(others := s.others - {id})
  }

  function Run(s: State, steps: seq<Step>): State {
    if steps == [] then s else Do(Run(s, steps[..|steps| - 1]), steps[|steps| - 1])
  }

  // ---- what every interleaving keeps -----------------------------------------------------------

  function Done<T>(f: Option<Future<T>>): bool { f.None? || !f.value.Waiting? }

  /** The requests of the three kinds of coroutine. */
  function PromptRequest(s: State): set<nat> {
    if s.prompt.Sending? || s.prompt.Answering? then {s.prompt.id} else {}
  }

  function CompactRequest(s: State): set<nat> {
    if s.compact.SendingCompact? || s.compact.AnsweringCompact? then {s.compact.id} else {}
  }

  ghost predicate Requests(s: State) {
    && s.pending.Keys == PromptRequest(s) + CompactRequest(s) + s.others
    && PromptRequest(s) !! CompactRequest(s) && PromptRequest(s) !! s.others && CompactRequest(s) !! s.others
    && forall id :: id in s.pending ==> id < s.nextId
  }

  /** Nothing is left unsettled once the reader has stopped. */
  ghost predicate AllSettled(s: State) {
    && (forall id :: id in s.pending ==> !s.pending[id].Waiting?)
    && Done(s.turnWaiter) && Done(s.compactionWaiter)
  }

  /** Every completion received is still kept or was handed to a prompt. */
  ghost predicate Kept(s: State) {
    && (forall i :: 0 <= i < |s.received| ==> Key(s.received[i]) in s.completed || Key(s.received[i]) in s.handed)
    && (forall k :: k in s.completed ==> Key(s.completed[k]) == k && s.completed[k] in s.received)
  }

  /** The waiter exists exactly while a prompt runs; while the turn is awaited it
      is settled as soon as the turn's completion is there, and only with a
      completion of the prompt's own thread and turn. */
  ghost predicate PromptOk(s: State) {
    && (s.prompt.NoPrompt? <==> s.turnWaiter.None?)
    && (s.turnWaiter == Some(Raised) ==> s.stopped)
    && (s.prompt.Turning? <==> s.activeTurn.Some?)
    && (s.prompt.Turning? ==>
          && s.activeTurn == Some(s.prompt.turn)
          && (s.turnWaiter.Some? && !s.turnWaiter.value.Result? ==> (s.thread, s.prompt.turn) !in s.completed))
    && (s.turnWaiter.Some? && s.turnWaiter.value.Result? ==>
          && s.prompt.Turning? && Key(s.turnWaiter.value.value) == (s.thread, s.prompt.turn)
          && s.turnWaiter.value.value in s.received)
  }

  /** Every completion a prompt returned was received and is the prompt's own. */
  ghost predicate ReturnsOk(s: State) {
    forall i :: 0 <= i < |s.returned| ==>
      && Key(s.returned[i].terminal) == (s.thread, s.returned[i].turn)
      && s.returned[i].terminal in s.received
  }

  ghost predicate GoodCompaction(s: State, c: Compacted) {
    c.terminal in s.received && c.terminal.thread == s.thread && !c.terminal.failed
  }

  /** The compaction waiter never keeps waiting when the item and its turn's
      completion are both there, and it succeeds only with a completion of the
      thread's own that did not fail. */
  ghost predicate CompactOk(s: State) {
    && (s.compact.NoCompact? <==> s.compactionWaiter.None?)
    && (s.compactionEvent.Some? ==> s.compactionTurn.Some?)
    && (s.compactionWaiter == Some(Waiting) && s.compactionEvent.Some? ==>
          (s.thread, s.compactionTurn.value) !in s.completed)
    && (s.compactionWaiter.Some? && s.compactionWaiter.value.Result? ==> GoodCompaction(s, s.compactionWaiter.value.value))
    && (forall i :: 0 <= i < |s.compactions| ==> GoodCompaction(s, s.compactions[i]))
  }

  ghost predicate Inv(s: State) {
    && Requests(s) && Kept(s) && PromptOk(s) && ReturnsOk(s) && CompactOk(s) && (s.stopped ==> AllSettled(s))
  }

  lemma {:induction false} InitialInv(thread: Id)
    ensures Inv(Initial(thread))
  {}

  // Each part of the invariant depends on few fields.

  lemma {:induction false} FailPendingKeeps(s: State)
    requires Inv(s)
    ensures Inv(FailPending(s))
  {
    hide Kept, ReturnsOk;
    var s' := FailPending(s);
    assert s'.pending.Keys == s.pending.Keys;
    SameHistory(s, s');
  }

  /** Kept and ReturnsOk speak only of the history and the stored completions. */
  lemma {:induction false} SameHistory(s: State, s': State)
    requires s'.received == s.received && s'.completed == s.completed && s'.handed == s.handed
    requires s'.returned == s.returned && s'.thread == s.thread
    ensures Kept(s) ==> Kept(s')
    ensures ReturnsOk(s) ==> ReturnsOk(s')
  {}

  /** The compaction part, before the new facts have been looked at. */
  ghost predicate Unfinished(s: State) {
    CompactOk(s.(compactionWaiter := Settle(s.compactionWaiter, Raised)))
  }

  lemma {:induction false} FinishCompactOk(s: State)
    requires Kept(s) && Unfinished(s)
    ensures CompactOk(FinishCompaction(s))
  {}

  lemma {:induction false} FinishFrame(s: State)
    ensures var s' := FinishCompaction(s);
            && s'.thread == s.thread && s'.nextId == s.nextId && s'.pending == s.pending && s'.stopped == s.stopped
            && s'.turnWaiter == s.turnWaiter && s'.activeTurn == s.activeTurn && s'.completed == s.completed
            && s'.prompt == s.prompt && s'.compact == s.compact && s'.others == s.others && s'.received == s.received
            && s'.handed == s.handed && s'.returned == s.returned && s'.compactions == s.compactions
  {}

  lemma {:induction false} FinishKeeps(s: State)
    requires Requests(s) && Kept(s) && PromptOk(s) && ReturnsOk(s) && !s.stopped && Unfinished(s)
    ensures Inv(FinishCompaction(s))
  {
    hide ReturnsOk, Requests, PromptOk, CompactOk, Kept, FinishCompaction, Unfinished, AllSettled;
    var s' := FinishCompaction(s);
    FinishFrame(s);
    FinishCompactOk(s);
    SameHistory(s, s');
    SamePrompt(s, s');
    SameRequests(s, s');
  }

  lemma {:induction false} SamePrompt(s: State, s': State)
    requires s'.prompt == s.prompt && s'.turnWaiter == s.turnWaiter && s'.activeTurn == s.activeTurn
    requires s'.completed == s.completed && s'.received == s.received && s'.thread == s.thread && s'.stopped == s.stopped
    ensures PromptOk(s) ==> PromptOk(s')
  {}

  lemma {:induction false} SameCompact(s: State, s': State)
    requires s'.compact == s.compact && s'.compactionWaiter == s.compactionWaiter && s'.compactionEvent == s.compactionEvent
    requires s'.compactionTurn == s.compactionTurn && s'.compactions == s.compactions && s'.thread == s.thread
    requires s'.received == s.received && (forall k :: k in s'.completed ==> k in s.completed)
    ensures CompactOk(s) ==> CompactOk(s')
  {}

  lemma {:induction false} SameRequests(s: State, s': State)
    requires s'.pending.Keys == s.pending.Keys && s'.nextId == s.nextId && s'.others == s.others
    requires PromptRequest(s') == PromptRequest(s) && CompactRequest(s') == CompactRequest(s)
    ensures Requests(s) ==> Requests(s')
  {}

  lemma {:induction false} ReceiveKeeps(s: State, m: Message)
    requires Inv(s) && !s.stopped
    ensures Inv(Receive(s, m))
  {
    hide Kept, ReturnsOk, Requests, PromptOk, CompactOk, FinishCompaction, AllSettled;
    var s' := Receive(s, m);
    match m
    case Response(id, result) =>
      SameHistory(s, s');
      SamePrompt(s, s');
      SameCompact(s, s');
      if s' != s { assert s'.pending.Keys == s.pending.Keys; }
      SameRequests(s, s');
    case ServerRequest => FailPendingKeeps(s);
    case ErrorNote(thread, willRetry) => ErrorKeeps(s, s');
    case TurnStarted(thread, turn) => StartedKeeps(s, s');
    case CompactionItem(thread, item, completed) =>
      if thread == s.thread && s.compactionWaiter == Some(Waiting) { ItemKeeps(s, item, completed); }
    case TurnCompleted(t) => CompletedKeeps(s, t);
    case OtherNote =>
  }

  lemma {:induction false} ErrorKeeps(s: State, s': State)
    requires Inv(s) && !s.stopped
    requires s' == s || s' == s.(compactionWaiter := Settle(s.compactionWaiter, Raised))
    ensures Inv(s')
  {
    hide Kept, ReturnsOk, Requests, PromptOk;
    SameHistory(s, s');
    SamePrompt(s, s');
    SameRequests(s, s');
  }

  lemma {:induction false} StartedKeeps(s: State, s': State)
    requires Inv(s) && !s.stopped
    requires s' == s || (s.compactionTurn.None? && exists turn :: s' == s.(compactionTurn := Some(turn)))
    ensures Inv(s')
  {
    hide Kept, ReturnsOk, Requests, PromptOk;
    SameHistory(s, s');
    SamePrompt(s, s');
    SameRequests(s, s');
  }

  lemma {:induction false} ItemKeeps(s: State, item: Item, completed: bool)
    requires Inv(s) && !s.stopped && s.compactionWaiter == Some(Waiting)
    ensures Inv(FinishCompaction(s.(compactionTurn := Some(item.turn),
                                    compactionEvent := if completed then Some(item) else s.compactionEvent)))
  {
    hide Kept, ReturnsOk, Requests, PromptOk, FinishCompaction;
    var s1 := s.(compactionTurn := Some(item.turn), compactionEvent := if completed then Some(item) else s.compactionEvent);
    SameHistory(s, s1);
    SamePrompt(s, s1);
    SameRequests(s, s1);
    FinishKeeps(s1);
  }

  lemma {:induction false} KeptMore(s: State, t: Terminal)
    requires Kept(s) && ReturnsOk(s)
    ensures var s1 := s.(completed := s.completed[Key(t) := t], received := s.received + [t]);
            Kept(s1) && ReturnsOk(s1)
  {
    var s1 := s.(completed := s.completed[Key(t) := t], received := s.received + [t]);
    forall i | 0 <= i < |s1.received|
      ensures Key(s1.received[i]) in s1.completed || Key(s1.received[i]) in s1.handed
    {
      if i < |s.received| { assert s1.received[i] == s.received[i]; }
    }
  }

  lemma {:induction false} StoredUnfinished(s: State, t: Terminal)
    requires CompactOk(s)
    ensures Unfinished(s.(completed := s.completed[Key(t) := t], received := s.received + [t]))
  {}

  lemma {:induction false} StoredPrompt(s: State, s': State, t: Terminal)
    requires PromptOk(s) && s'.prompt == s.prompt && s'.activeTurn == s.activeTurn && s'.thread == s.thread
    requires s'.stopped == s.stopped && !s.stopped
    requires s'.completed == s.completed[Key(t) := t] && s'.received == s.received + [t]
    requires s'.turnWaiter == if s.activeTurn.Some? && Key(t) == (s.thread, s.activeTurn.value)
                              then Settle(s.turnWaiter, Result(t)) else s.turnWaiter
    ensures PromptOk(s')
  {}

  lemma {:induction false} CompletedKeeps(s: State, t: Terminal)
    requires Inv(s) && !s.stopped
    ensures Inv(Receive(s, TurnCompleted(t)))
  {
    hide FinishCompaction, ReturnsOk, Requests, PromptOk, CompactOk, Kept, Unfinished, AllSettled;
    var s1 := s.(completed := s.completed[Key(t) := t], received := s.received + [t]);
    KeptMore(s, t);
    StoredUnfinished(s, t);
    FinishFrame(s1);
    FinishCompactOk(s1);
    var s2 := FinishCompaction(s1);
    var s3 := Receive(s, TurnCompleted(t));
    SameHistory(s1, s3);
    SameCompact(s2, s3);
    SameRequests(s, s3);
    StoredPrompt(s, s3, t);
  }

  // ---- the coroutines keep it -------------------------------------------------------------------

  lemma {:induction false} LeavePromptKeeps(s: State, id: nat)
    requires Inv(s) && !s.prompt.NoPrompt? && (PromptRequest(s) == {id} || (PromptRequest(s) == {} && id !in s.pending))
    ensures Inv(LeavePrompt(DropRequest(s, id)))
  {
    hide Kept, ReturnsOk, CompactOk;
    var s' := LeavePrompt(DropRequest(s, id));
    SameHistory(s, s');
    SameCompact(s, s');
    assert s'.pending.Keys == s.pending.Keys - {id};
  }

  lemma {:induction false} DropNothing(s: State, id: nat)
    requires id !in s.pending
    ensures DropRequest(s, id) == s
  {
    assert s.pending - {id} == s.pending;
  }

  lemma {:induction false} LeaveTurningKeeps(s: State)
    requires Inv(s) && s.prompt.Turning?
    ensures Inv(LeavePrompt(s))
  {
    hide Inv;
    assert Requests(s) by { InvParts(s); }
    LeavePromptKeeps(s, s.nextId);
    DropNothing(s, s.nextId);
  }

  lemma {:induction false} InvParts(s: State)
    requires Inv(s)
    ensures Requests(s) && Kept(s) && PromptOk(s) && ReturnsOk(s) && CompactOk(s) && (s.stopped ==> AllSettled(s))
  {}

  lemma {:induction false} ReturnKeeps(s: State, turn: Id, t: Terminal)
    requires Inv(s) && Key(t) == (s.thread, turn) && t in s.received && PromptRequest(s) == {}
    ensures Inv(Return(s, turn, t))
  {
    hide CompactOk;
    var s' := Return(s, turn, t);
    SameCompact(s, s');
    forall i | 0 <= i < |s'.returned|
      ensures Key(s'.returned[i].terminal) == (s'.thread, s'.returned[i].turn) && s'.returned[i].terminal in s'.received
    {
      if i < |s.returned| { assert s'.returned[i] == s.returned[i]; }
    }
  }

  /** A request leaves `pending`, and its coroutine waits for something else. */
  lemma {:induction false} AnsweredKeeps(s: State)
    requires Inv(s) && s.prompt.Answering? && s.prompt.id in s.pending && !s.pending[s.prompt.id].Waiting?
    ensures Inv(Answered(s, s.prompt.id))
  {
    hide Kept, ReturnsOk, CompactOk, Inv;
    InvParts(s);
    var id := s.prompt.id;
    var f := s.pending[id];
    if !f.Result? || f.value.turn.None? {
      LeavePromptKeeps(s, id);
    } else {
      TurningKeeps(s, id, f.value.turn.value);
    }
  }

  lemma {:induction false} TurningKeeps(s: State, id: nat, turn: Id)
    requires Inv(s) && s.prompt == Answering(id)
    ensures var s1 := DropRequest(s, id);
            if (s.thread, turn) in s.completed then Inv(Return(s1, turn, s.completed[(s.thread, turn)]))
            else Inv(s1.(activeTurn := Some(turn), prompt := Turning(turn)))
  {
    hide ReturnsOk, CompactOk;
    var s1 := DropRequest(s, id);
    assert s1.pending.Keys == s.pending.Keys - {id};
    var s2 := s1.(activeTurn := Some(turn), prompt := Turning(turn));
    if (s.thread, turn) in s.completed {
      var s3 := Return(s1, turn, s.completed[(s.thread, turn)]);
      SameCompact(s, s3);
      ReturnedOne(s, s3, turn);
    } else {
      SameHistory(s, s2);
      SameCompact(s, s2);
    }
  }

  lemma {:induction false} ReturnedOne(s: State, s': State, turn: Id)
    requires ReturnsOk(s) && Kept(s) && (s.thread, turn) in s.completed
    requires s'.returned == s.returned + [Returned(turn, s.completed[(s.thread, turn)])]
    requires s'.received == s.received && s'.thread == s.thread
    ensures ReturnsOk(s')
  {}

  lemma {:induction false} CallPromptKeeps(s: State)
    requires Inv(s)
    ensures Inv(Do(s, CallPrompt))
  {
    hide Kept, ReturnsOk, CompactOk;
    var s' := Do(s, CallPrompt);
    SameHistory(s, s');
    SameCompact(s, s');
    if s' != s { assert s'.pending.Keys == s.pending.Keys + {s.nextId}; }
  }

  lemma {:induction false} CallCompactKeeps(s: State)
    requires Inv(s)
    ensures Inv(Do(s, CallCompact))
  {
    hide Kept, ReturnsOk, PromptOk;
    var s' := Do(s, CallCompact);
    SameHistory(s, s');
    SamePrompt(s, s');
    if s' != s { assert s'.pending.Keys == s.pending.Keys + {s.nextId}; }
  }

  lemma {:induction false} OthersKeep(s: State, step: Step)
    requires Inv(s) && (step.CallOther? || step.EndOther?)
    ensures Inv(Do(s, step))
  {
    hide Kept, ReturnsOk, PromptOk, CompactOk;
    var s' := Do(s, step);
    SameHistory(s, s');
    SamePrompt(s, s');
    SameCompact(s, s');
    if s' != s {
      assert s'.pending.Keys == if step.CallOther? then s.pending.Keys + {s.nextId} else s.pending.Keys - {step.id};
    }
  }

  lemma {:induction false} SentKeeps(s: State, step: Step)
    requires Inv(s) && (step.PromptSent? || step.CompactSent?) && step.ok
    ensures Inv(Do(s, step))
  {
    hide Kept, ReturnsOk;
    SameHistory(s, Do(s, step));
  }

  lemma {:induction false} LeaveCompactKeeps(s: State, id: nat)
    requires Inv(s) && !s.compact.NoCompact? && (CompactRequest(s) == {id} || (CompactRequest(s) == {} && id !in s.pending))
    ensures Inv(LeaveCompact(DropRequest(s, id)))
  {
    hide Kept, ReturnsOk, PromptOk;
    var s' := LeaveCompact(DropRequest(s, id));
    SameHistory(s, s');
    SamePrompt(s, s');
    assert s'.pending.Keys == s.pending.Keys - {id};
  }

  lemma {:induction false} CompactAnsweredKeeps(s: State)
    requires Inv(s) && s.compact.AnsweringCompact? && s.compact.id in s.pending
    ensures Inv(DropRequest(s, s.compact.id).(compact := Finishing))
  {
    hide Kept, ReturnsOk, PromptOk;
    var s' := DropRequest(s, s.compact.id).(compact := Finishing);
    SameHistory(s, s');
    SamePrompt(s, s');
    assert s'.pending.Keys == s.pending.Keys - {s.compact.id};
  }

  lemma {:induction false} CompactFinishedKeeps(s: State)
    requires Inv(s) && s.compact.Finishing? && s.compactionWaiter.Some?
    ensures Inv(LeaveCompact(s))
    ensures s.compactionWaiter.value.Result? ==>
              Inv(LeaveCompact(s.(compactions := s.compactions + [s.compactionWaiter.value.value])))
  {
    hide Kept, ReturnsOk, PromptOk;
    var s1 := LeaveCompact(s);
    SameHistory(s, s1);
    SamePrompt(s, s1);
    if s.compactionWaiter.value.Result? {
      var s2 := LeaveCompact(s.(compactions := s.compactions + [s.compactionWaiter.value.value]));
      SameHistory(s, s2);
      SamePrompt(s, s2);
    }
  }

  lemma {:induction false} PromptStepKeeps(s: State, step: Step)
    requires Inv(s) && (step.PromptSent? || step.PromptAnswered? || step.PromptTurned? || step.CancelPrompt?)
    ensures Inv(Do(s, step))
  {
    hide Kept, ReturnsOk, CompactOk, Requests, Inv, Answered, Return, LeavePrompt, DropRequest;
    InvParts(s);
    if step.PromptSent? {
      if step.ok { SentKeeps(s, step); } else if s.prompt.Sending? { LeavePromptKeeps(s, s.prompt.id); }
    } else if step.PromptAnswered? {
      if s.prompt.Answering? && s.prompt.id in s.pending && !s.pending[s.prompt.id].Waiting? { AnsweredKeeps(s); }
    } else if step.PromptTurned? {
      if s.prompt.Turning? && s.turnWaiter.Some? {
        if s.turnWaiter.value.Result? {
          ReturnKeeps(s, s.prompt.turn, s.turnWaiter.value.value);
        } else {
          LeaveTurningKeeps(s);
        }
      }
    } else {
      match s.prompt
      case NoPrompt =>
      case Turning(_) => LeaveTurningKeeps(s);
      case Sending(id) => LeavePromptKeeps(s, id);
      case Answering(id) => LeavePromptKeeps(s, id);
    }
  }

  lemma {:induction false} CompactStepKeeps(s: State, step: Step)
    requires Inv(s) && (step.CompactSent? || step.CompactAnswered? || step.CompactFinished? || step.CancelCompact?)
    ensures Inv(Do(s, step))
  {
    hide Kept, ReturnsOk, PromptOk, Requests, Inv, LeaveCompact, DropRequest;
    InvParts(s);
    if step.CompactSent? {
      if step.ok { SentKeeps(s, step); } else if s.compact.SendingCompact? { LeaveCompactKeeps(s, s.compact.id); }
    } else if step.CompactAnswered? {
      if s.compact.AnsweringCompact? && s.compact.id in s.pending && !s.pending[s.compact.id].Waiting? {
        CompactAnsweredKeeps(s);
        LeaveCompactKeeps(s, s.compact.id);
      }
    } else if step.CompactFinished? {
      if s.compact.Finishing? && s.compactionWaiter.Some? { CompactFinishedKeeps(s); }
    } else {
      match s.compact
      case NoCompact =>
      case Finishing => CompactFinishedKeeps(s);
      case SendingCompact(id) => LeaveCompactKeeps(s, id);
      case AnsweringCompact(id) => LeaveCompactKeeps(s, id);
    }
  }

  lemma {:induction false} DoKeeps(s: State, step: Step)
    requires Inv(s)
    ensures Inv(Do(s, step))
  {
    hide Inv, Receive, FailPending, LeavePrompt, LeaveCompact, DropRequest, Answered, Return;
    match step
    case Message(m) => if !s.stopped { ReceiveKeeps(s, m); }
    case ReaderStops => FailPendingKeeps(s);
    case CallPrompt => CallPromptKeeps(s);
    case CallCompact => CallCompactKeeps(s);
    case CallOther => OthersKeep(s, step);
    case EndOther(_) => OthersKeep(s, step);
    case PromptSent(_) => PromptStepKeeps(s, step);
    case PromptAnswered => PromptStepKeeps(s, step);
    case PromptTurned => PromptStepKeeps(s, step);
    case CancelPrompt => PromptStepKeeps(s, step);
    case CompactSent(_) => CompactStepKeeps(s, step);
    case CompactAnswered => CompactStepKeeps(s, step);
    case CompactFinished => CompactStepKeeps(s, step);
    case CancelCompact => CompactStepKeeps(s, step);
  }

  /** The invariant holds after any steps in any order. */
  lemma {:induction false} InvAlways(thread: Id, steps: seq<Step>)
    ensures Inv(Run(Initial(thread), steps))
    decreases |steps|
  {
    hide Inv, Do;
    if steps == [] {
      InitialInv(thread);
    } else {
      InvAlways(thread, steps[..|steps| - 1]);
      DoKeeps(Run(Initial(thread), steps[..|steps| - 1]), steps[|steps| - 1]);
    }
  }

  // ---- the main results ------------------------------------------------------------------------

  /** A prompt never returns another prompt's, thread's or turn's completion, and
      never one that was not received. */
  lemma {:induction false} PromptsReturnTheirOwn(thread: Id, steps: seq<Step>, i: nat)
    requires i < |Run(Initial(thread), steps).returned|
    ensures var s := Run(Initial(thread), steps);
            && Key(s.returned[i].terminal) == (s.thread, s.returned[i].turn)
            && s.returned[i].terminal in s.received
  {
    hide Run, Kept, CompactOk, Requests, PromptOk, AllSettled;
    InvAlways(thread, steps);
  }

  /** No completion is lost: a prompt that waits for `turn` goes on as soon as the
      turn's completion has been received - before its answer, between the answer
      and its resumption, or after, and whether or not the reader has stopped
      since - unless an earlier prompt was given it, and it returns a completion
      of that turn. */
  lemma {:induction false} NoCompletionIsLost(thread: Id, steps: seq<Step>, i: nat)
    requires i < |Run(Initial(thread), steps).received|
    requires var s := Run(Initial(thread), steps);
             && s.prompt.Turning? && Key(s.received[i]) == (s.thread, s.prompt.turn)
             && Key(s.received[i]) !in s.handed
    ensures var s := Run(Initial(thread), steps);
            var s' := Do(s, PromptTurned);
            && s'.prompt.NoPrompt? && |s'.returned| == |s.returned| + 1 && s'.returned[..|s.returned|] == s.returned
            && s'.returned[|s.returned|].turn == s.prompt.turn
            && Key(s'.returned[|s.returned|].terminal) == Key(s.received[i])
  {
    hide Run, CompactOk, Requests, AllSettled, ReturnsOk;
    InvAlways(thread, steps);
  }

  /** The same when the completion comes before the resumption that learns the
      turn; the reader may even have stopped in between. */
  lemma {:induction false} EarlyCompletionIsKept(thread: Id, steps: seq<Step>, i: nat, turn: Id)
    requires i < |Run(Initial(thread), steps).received|
    requires var s := Run(Initial(thread), steps);
             && s.prompt.Answering? && s.prompt.id in s.pending && s.pending[s.prompt.id] == Result(Accepted(Some(turn)))
             && Key(s.received[i]) == (s.thread, turn) && Key(s.received[i]) !in s.handed
    ensures var s := Run(Initial(thread), steps);
            var s' := Do(s, PromptAnswered);
            && s'.prompt.NoPrompt? && |s'.returned| == |s.returned| + 1 && s'.returned[..|s.returned|] == s.returned
            && s'.returned[|s.returned|].turn == turn && Key(s'.returned[|s.returned|].terminal) == (s.thread, turn)
  {
    hide Run, CompactOk, Requests, AllSettled, ReturnsOk;
    InvAlways(thread, steps);
  }

  /** Once the reader has stopped, whatever happens afterwards, no request, turn
      or compaction is left waiting. */
  lemma {:induction false} StoppedReaderStrandsNobody(thread: Id, steps: seq<Step>)
    requires Run(Initial(thread), steps).stopped
    ensures AllSettled(Run(Initial(thread), steps))
  {
    hide Run, AllSettled, Kept, CompactOk, Requests, PromptOk, ReturnsOk;
    InvAlways(thread, steps);
  }

  // ---- the item and the turn of a compaction -----------------------------------------------------

  /** A compaction item that arrived while a compaction was waiting. */
  datatype Seen = Seen(item: Item, completed: bool)

  /** The compaction items the present compaction has seen while it was waiting. */
  function SeenBy(thread: Id, steps: seq<Step>): seq<Seen> {
    if steps == [] then []
    else
      var s := Run(Initial(thread), steps[..|steps| - 1]);
      SeenNext(s, SeenBy(thread, steps[..|steps| - 1]), steps[|steps| - 1])
  }

  function SeenNext(s: State, seen: seq<Seen>, step: Step): seq<Seen> {
    if step.CallCompact? && s.compactionWaiter.None? then []
    else if step.Message? && step.m.CompactionItem? && !s.stopped && step.m.thread == s.thread
            && s.compactionWaiter == Some(Waiting) then
      seen + [Seen(step.m.item, step.m.completed)]
    else seen
  }

  function LastCompleted(seen: seq<Seen>): Option<Item> {
    if seen == [] then None
    else
      var last := seen[|seen| - 1];
      if last.completed then Some(last.item) else LastCompleted(seen[..|seen| - 1])
  }

  /** The event is the last completed item, and the turn the last item's; the
      result pairs that event with that turn's completion. */
  ghost predicate Follows(s: State, seen: seq<Seen>) {
    s.compactionWaiter.Some? ==>
      && s.compactionEvent == LastCompleted(seen)
      && (seen != [] ==> s.compactionTurn == Some(seen[|seen| - 1].item.turn))
      && (s.compactionWaiter.value.Result? ==> Pairs(s.compactionWaiter.value.value, seen))
  }

  ghost predicate Pairs(c: Compacted, seen: seq<Seen>) {
    seen != [] && LastCompleted(seen) == Some(c.event) && c.terminal.turn == seen[|seen| - 1].item.turn
  }

  lemma {:induction false} SeenOne(seen: seq<Seen>, item: Item, completed: bool)
    ensures LastCompleted(seen + [Seen(item, completed)]) == if completed then Some(item) else LastCompleted(seen)
  {
    assert (seen + [Seen(item, completed)])[..|seen|] == seen;
  }

  lemma {:induction false} NothingCompleted(seen: seq<Seen>)
    ensures LastCompleted(seen).Some? ==> seen != []
  {}

  lemma {:induction false} FinishFollows(s: State, seen: seq<Seen>)
    requires Kept(s) && Follows(s, seen)
    ensures Follows(FinishCompaction(s), seen)
  {
    NothingCompleted(seen);
  }

  lemma {:induction false} SameFollows(s: State, s': State, seen: seq<Seen>)
    requires Follows(s, seen)
    requires s'.compactionWaiter.None?
             || (s'.compactionEvent == s.compactionEvent && s'.compactionTurn == s.compactionTurn
                 && (s'.compactionWaiter == s.compactionWaiter || (s.compactionWaiter.Some? && s'.compactionWaiter == Some(Raised))))
    ensures Follows(s', seen)
  {}

  lemma {:induction false} MessageFollows(s: State, seen: seq<Seen>, m: Message)
    requires Inv(s) && Follows(s, seen) && !s.stopped
    ensures Follows(Receive(s, m), SeenNext(s, seen, Message(m)))
  {
    hide FinishCompaction, LastCompleted, Kept, Inv;
    assert Kept(s) by { InvParts(s); }
    match m
    case CompactionItem(thread, item, completed) =>
      if thread == s.thread && s.compactionWaiter == Some(Waiting) {
        SeenOne(seen, item, completed);
        var s1 := s.(compactionTurn := Some(item.turn),
                     compactionEvent := if completed then Some(item) else s.compactionEvent);
        SameHistory(s, s1);
        FinishFollows(s1, seen + [Seen(item, completed)]);
      }
    case TurnCompleted(t) =>
      assert Kept(s.(completed := s.completed[Key(t) := t], received := s.received + [t])) by {
        InvParts(s);
        KeptMore(s, t);
      }
      FinishFollows(s.(completed := s.completed[Key(t) := t], received := s.received + [t]), seen);
    case TurnStarted(_, _) =>
      assert seen == [] || s.compactionWaiter.None? || s.compactionTurn.Some?;
    case _ =>
  }

  lemma {:induction false} DoFollows(s: State, seen: seq<Seen>, step: Step)
    requires Inv(s) && Follows(s, seen)
    ensures Follows(Do(s, step), SeenNext(s, seen, step))
  {
    hide Inv, Follows, Receive;
    if step.Message? {
      if !s.stopped { MessageFollows(s, seen, step.m); }
    } else if step.CallCompact? && s.compactionWaiter.None? {
      BeginFollows(s, seen);
    } else {
      SameFollows(s, Do(s, step), seen);
    }
  }

  lemma {:induction false} BeginFollows(s: State, seen: seq<Seen>)
    requires s.compactionWaiter.None?
    ensures Follows(Do(s, CallCompact), [])
  {}

  lemma {:induction false} FollowsAlways(thread: Id, steps: seq<Step>)
    ensures Follows(Run(Initial(thread), steps), SeenBy(thread, steps))
    decreases |steps|
  {
    hide Inv, Do, Follows, SeenNext;
    if steps == [] {
      assert Follows(Initial(thread), []) by { InitialFollows(thread); }
    } else {
      var front := steps[..|steps| - 1];
      FollowsAlways(thread, front);
      InvAlways(thread, front);
      DoFollows(Run(Initial(thread), front), SeenBy(thread, front), steps[|steps| - 1]);
    }
  }

  lemma {:induction false} InitialFollows(thread: Id)
    ensures Follows(Initial(thread), [])
  {}

  /** The number of steps before compaction `i` returned. */
  function BeforeReturn(thread: Id, steps: seq<Step>, i: nat): (n: nat)
    requires i < |Run(Initial(thread), steps).compactions|
    ensures n < |steps|
  {
    var n := |steps| - 1;
    if i < |Run(Initial(thread), steps[..n]).compactions| then BeforeReturn(thread, steps[..n], i) else n
  }

  lemma {:induction false} CompactionsGrow(s: State, step: Step)
    ensures var s' := Do(s, step);
            || s'.compactions == s.compactions
            || (step.CompactFinished? && s.compactionWaiter.Some? && s.compactionWaiter.value.Result?
                && s'.compactions == s.compactions + [s.compactionWaiter.value.value])
  {
    hide Receive;
    if step.Message? { ReceiveReturnsNothing(s, step.m); }
  }

  lemma {:induction false} ReceiveReturnsNothing(s: State, m: Message)
    ensures Receive(s, m).compactions == s.compactions
  {}

  /** A compaction returns the last completed item it has seen with the completion
      of the last item's turn. So the event and the completion, which are meant to
      match, are of one turn if and only if no item of another turn was the last
      to arrive while the compaction was waiting. */
  lemma {:induction false} CompactionsMatchExactly(thread: Id, steps: seq<Step>, i: nat)
    requires i < |Run(Initial(thread), steps).compactions|
    ensures var c := Run(Initial(thread), steps).compactions[i];
            var seen := SeenBy(thread, steps[..BeforeReturn(thread, steps, i)]);
            && seen != [] && LastCompleted(seen) == Some(c.event)
            && (c.terminal.turn == c.event.turn <==> seen[|seen| - 1].item.turn == LastCompleted(seen).value.turn)
    decreases |steps|
  {
    hide Do, Inv, LastCompleted, SeenBy, Follows;
    var n := |steps| - 1;
    var s := Run(Initial(thread), steps[..n]);
    CompactionsGrow(s, steps[n]);
    if i < |s.compactions| {
      CompactionsMatchExactly(thread, steps[..n], i);
      assert steps[..n][..BeforeReturn(thread, steps[..n], i)] == steps[..BeforeReturn(thread, steps, i)];
    } else {
      FollowsAlways(thread, steps[..n]);
      ResultPairs(s, SeenBy(thread, steps[..n]));
    }
  }

  lemma {:induction false} ResultPairs(s: State, seen: seq<Seen>)
    requires Follows(s, seen) && s.compactionWaiter.Some? && s.compactionWaiter.value.Result?
    ensures Pairs(s.compactionWaiter.value.value, seen)
  {}

  /** Where only one turn's items arrive, a compaction's event and completion
      match. */
  lemma {:induction false} OneTurnMatches(thread: Id, steps: seq<Step>, i: nat)
    requires i < |Run(Initial(thread), steps).compactions|
    requires var seen := SeenBy(thread, steps[..BeforeReturn(thread, steps, i)]);
             forall j, k :: 0 <= j < |seen| && 0 <= k < |seen| ==> seen[j].item.turn == seen[k].item.turn
    ensures var c := Run(Initial(thread), steps).compactions[i]; c.terminal.turn == c.event.turn
  {
    hide Run, SeenBy, LastCompleted;
    CompactionsMatchExactly(thread, steps, i);
    CompletedWasSeen(SeenBy(thread, steps[..BeforeReturn(thread, steps, i)]));
  }

  lemma {:induction false} CompletedWasSeen(seen: seq<Seen>)
    requires LastCompleted(seen).Some?
    ensures Seen(LastCompleted(seen).value, true) in seen
    decreases |seen|
  {
    if !seen[|seen| - 1].completed { CompletedWasSeen(seen[..|seen| - 1]); }
  }

  /** Two items in one compaction: what it returns is the item of turn 1 with the
      completion of turn 2. */
  lemma {:induction false} SecondItemMismatches(thread: Id, payload: nat)
    ensures var item := Item(1, payload);
            var terminal := Terminal(thread, 2, false, payload);
            Run(Initial(thread), [CallCompact, CompactSent(true), Message(Response(1, Some(Accepted(None)))), CompactAnswered,
                                  Message(CompactionItem(thread, item, true)),
                                  Message(CompactionItem(thread, Item(2, payload), false)),
                                  Message(TurnCompleted(terminal)), CompactFinished]).compactions
            == [Compacted(item, terminal)]
  {
    hide Run, Do;
    var s := Initial(thread);
    var a, b, c, d := CallCompact, CompactSent(true), Message(Response(1, Some(Accepted(None)))), CompactAnswered;
    var e, f := Message(CompactionItem(thread, Item(1, payload), true)), Message(CompactionItem(thread, Item(2, payload), false));
    var g, h := Message(TurnCompleted(Terminal(thread, 2, false, payload))), CompactFinished;
    RunNothing(s);
    RunOne(s, [], a);
    RunOne(s, [a], b);
    RunOne(s, [a, b], c);
    RunOne(s, [a, b, c], d);
    RunOne(s, [a, b, c, d], e);
    RunOne(s, [a, b, c, d, e], f);
    RunOne(s, [a, b, c, d, e, f], g);
    RunOne(s, [a, b, c, d, e, f, g], h);
    assert [] + [a] == [a] && [a] + [b] == [a, b] && [a, b] + [c] == [a, b, c] && [a, b, c] + [d] == [a, b, c, d];
    assert [a, b, c, d] + [e] == [a, b, c, d, e] && [a, b, c, d, e] + [f] == [a, b, c, d, e, f];
    assert [a, b, c, d, e, f] + [g] == [a, b, c, d, e, f, g] && [a, b, c, d, e, f, g] + [h] == [a, b, c, d, e, f, g, h];
    CompactionBegins(thread);
    CompactionMismatches(thread, payload);
  }

  function Begun(thread: Id): State {
    Initial(thread).(nextId := 2, compactionWaiter := Some(Waiting), compact := Finishing)
  }

  lemma {:induction false} CompactionBegins(thread: Id)
    ensures Do(Do(Do(Do(Initial(thread), CallCompact), CompactSent(true)), Message(Response(1, Some(Accepted(None))))),
               CompactAnswered) == Begun(thread)
  {
    var s := Initial(thread);
    var s1 := Do(s, CallCompact);
    var s2 := Do(s1, CompactSent(true));
    assert s2 == Begun(thread).(pending := map[1 := Waiting], compact := AnsweringCompact(1));
    var s3 := Do(s2, Message(Response(1, Some(Accepted(None)))));
    assert s3 == s2.(pending := map[1 := Result(Accepted(None))]);
    assert s3.pending - {1} == map[];
  }

  lemma {:induction false} CompactionMismatches(thread: Id, payload: nat)
    ensures var item := Item(1, payload);
            var terminal := Terminal(thread, 2, false, payload);
            var s1 := Do(Begun(thread), Message(CompactionItem(thread, item, true)));
            var s2 := Do(s1, Message(CompactionItem(thread, Item(2, payload), false)));
            Do(Do(s2, Message(TurnCompleted(terminal))), CompactFinished).compactions == [Compacted(item, terminal)]
  {
    var item := Item(1, payload);
    var terminal := Terminal(thread, 2, false, payload);
    var s := Begun(thread);
    var s1 := Do(s, Message(CompactionItem(thread, item, true)));
    assert s1 == s.(compactionTurn := Some(1), compactionEvent := Some(item));
    var s2 := Do(s1, Message(CompactionItem(thread, Item(2, payload), false)));
    assert s2 == s1.(compactionTurn := Some(2));
    var s3 := Do(s2, Message(TurnCompleted(terminal)));
    assert s3.compactionWaiter == Some(Result(Compacted(item, terminal))) && s3.compact.Finishing? && s3.compactions == [];
  }

  lemma {:induction false} RunNothing(s: State)
    ensures Run(s, []) == s
  {}

  lemma {:induction false} RunOne(s: State, steps: seq<Step>, step: Step)
    ensures Run(s, steps + [step]) == Do(Run(s, steps), step)
  {
    assert (steps + [step])[..|steps|] == steps;
  }

  /** A compaction succeeds only with a completion received on its own thread that
      did not fail. */
  lemma {:induction false} CompactionsAreGenuine(thread: Id, steps: seq<Step>, i: nat)
    requires i < |Run(Initial(thread), steps).compactions|
    ensures var s := Run(Initial(thread), steps); GoodCompaction(s, s.compactions[i])
  {
    hide Run, AllSettled, Kept, Requests, PromptOk, ReturnsOk, GoodCompaction;
    InvAlways(thread, steps);
  }
}
