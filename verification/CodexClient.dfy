/** The client object itself: its methods and the pieces of its coroutines
    between two awaits, each with the effect `CodexProtocols.Do` gives it. */
module CodexClients {
  import opened CodexProtocols
  import opened LineReader

  class CodexProtocol {
    const threadId: Id
    var nextId: nat
    var pending: map<nat, Future<Accepted>>
    var readerStopped: bool
    var turnWaiter: Option<Future<Terminal>>
    var activeTurnId: Option<Id>
    var completedTurns: map<(Id, Id), Terminal>
    var compactionWaiter: Option<Future<Compacted>>
    var compactionEvent: Option<Item>
    var compactionTurnId: Option<Id>
    ghost var prompting: PromptAt
    ghost var compacting: CompactAt
    ghost var others: set<nat>
    ghost var received: seq<Terminal>
    ghost var handed: set<(Id, Id)>
    ghost var returned: seq<Returned>
    ghost var compactions: seq<Compacted>

    ghost function Abstract(): State
      reads this
    {
      State(threadId, nextId, pending, readerStopped, turnWaiter, activeTurnId, completedTurns, compactionWaiter,
            compactionEvent, compactionTurnId, prompting, compacting, others, received, handed, returned, compactions)
    }

    constructor (threadId: Id)
      ensures Abstract() == Initial(threadId)
    {
      this.threadId, nextId, pending, readerStopped := threadId, 1, map[], false;
      turnWaiter, activeTurnId, completedTurns := None, None, map[];
      compactionWaiter, compactionEvent, compactionTurnId := None, None, None;
      prompting, compacting, others := NoPrompt, NoCompact, {};
      received, handed, returned, compactions := [], {}, [], [];
    }

    method FinishCompaction()
      modifies this
      ensures Abstract() == CodexProtocols.FinishCompaction(old(Abstract()))
    {
      if compactionTurnId.None? || compactionWaiter.None? || !compactionWaiter.value.Waiting? { return; }
      var key := (threadId, compactionTurnId.value);
      if key !in completedTurns { return; }
      var terminal := completedTurns[key];
      if terminal.failed {
        compactionWaiter := Some(Raised);
      } else if compactionEvent.Some? {
        compactionWaiter := Some(Result(Compacted(compactionEvent.value, terminal)));
      }
    }

    /** One message from the server; false is an exception, which stops the reader. */
    method Receive(m: Message) returns (ok: bool)
      modifies this
      ensures ok <==> !m.ServerRequest?
      ensures Abstract() == if ok then CodexProtocols.Receive(old(Abstract()), m) else old(Abstract())
    {
      hide CodexProtocols.Receive, CodexProtocols.FinishCompaction;
      match m {
        case ServerRequest => return false;
        case TurnCompleted(t) => ReceiveCompleted(t);
        case CompactionItem(thread, item, completed) => ReceiveItem(thread, item, completed);
        case _ => ReceiveOther(m);
      }
      ok := true;
    }

    method ReceiveCompleted(t: Terminal)
      modifies this
      ensures Abstract() == CodexProtocols.Receive(old(Abstract()), TurnCompleted(t))
    {
      hide CodexProtocols.FinishCompaction;
      completedTurns := completedTurns[(t.thread, t.turn) := t];
      received := received + [t];
      ghost var stored := Abstract();
      FinishCompaction();
      FinishFrame(stored);
      if turnWaiter.Some? && turnWaiter.value.Waiting? && activeTurnId == Some(t.turn) && t.thread == threadId {
        turnWaiter := Some(Result(t));
      }
    }

    method ReceiveItem(thread: Id, item: Item, completed: bool)
      modifies this
      ensures Abstract() == CodexProtocols.Receive(old(Abstract()), CompactionItem(thread, item, completed))
    {
      hide CodexProtocols.FinishCompaction;
      if thread == threadId && compactionWaiter.Some? && compactionWaiter.value.Waiting? {
        compactionTurnId := Some(item.turn);
        if completed { compactionEvent := Some(item); }
        FinishCompaction();
      }
    }

    method ReceiveOther(m: Message)
      requires !m.ServerRequest? && !m.TurnCompleted? && !m.CompactionItem?
      modifies this
      ensures Abstract() == CodexProtocols.Receive(old(Abstract()), m)
    {
      match m {
        case Response(id, result) =>
          if id in pending && pending[id].Waiting? {
            pending := pending[id := if result.Some? then Result(result.value) else Raised];
          }
        case ErrorNote(thread, willRetry) =>
          if thread == threadId && compactionWaiter.Some? && compactionWaiter.value.Waiting? && !willRetry {
            compactionWaiter := Some(Raised);
          }
        case TurnStarted(thread, turn) =>
          if thread == threadId && compactionWaiter.Some? && compactionTurnId.None? { compactionTurnId := Some(turn); }
        case OtherNote =>
      }
    }

    /** Every future that nobody will settle any more is failed. */
    method FailAll()
      modifies this
      ensures Abstract() == FailPending(old(Abstract()))
    {
      hide CodexProtocols.Failed;
      readerStopped := true;
      FailRequests();
      if turnWaiter.Some? && turnWaiter.value.Waiting? { turnWaiter := Some(Raised); }
      if compactionWaiter.Some? && compactionWaiter.value.Waiting? { compactionWaiter := Some(Raised); }
    }

    method FailRequests()
      modifies this`pending
      ensures pending == CodexProtocols.Failed(old(pending))
    {
      var todo := pending.Keys;
      while todo != {}
        invariant todo <= pending.Keys == old(pending).Keys
        invariant forall id :: id in pending ==>
                    pending[id] == if id !in todo && old(pending)[id].Waiting? then Raised else old(pending)[id]
        decreases |todo|
      {
        var id :| id in todo;
        if pending[id].Waiting? { pending := pending[id := Raised]; }
        todo := todo - {id};
      }
    }

    /** Lines in order; blank ones are skipped. False: a line that is not JSON, or a
        request of the server's, which is raised. */
    method HandleLines(parse: Parser, lines: seq<Bytes>) returns (ok: bool)
      modifies this
      ensures Abstract() == Received(old(Abstract()), Handled(parse, lines)) && (ok <==> Fine(parse, lines))
    {
      hide CodexProtocols.Receive, IsBlank;
      for k := 0 to |lines|
        invariant Abstract() == Received(old(Abstract()), Handled(parse, lines[..k])) && Fine(parse, lines[..k])
      {
        HandledNext(parse, lines, k);
        assert Handled(parse, lines[..k]) + [] == Handled(parse, lines[..k]);
        if !IsBlank(lines[k]) {
          var m := parse(lines[k]);
          if m.None? { return false; }
          ok := Receive(m.value);
          if !ok { return false; }
          ReceivedNext(old(Abstract()), Handled(parse, lines[..k]), m.value);
        }
      }
      assert lines[..|lines|] == lines;
      ok := true;
    }

    /** The reader's loop: the lines of the output in order, however it was cut into
        chunks, up to the first that cannot be handled; then every waiter is failed. */
    method ReadLoop(parse: Parser, chunks: seq<Bytes>)
      requires !readerStopped
      modifies this
      ensures readerStopped && AllSettled(Abstract())
      ensures Abstract() == FailPending(Received(old(Abstract()), Handled(parse, AllLines(Concat(chunks)))))
    {
      hide CodexProtocols.Receive, SplitLines, Handled, Fine, Received, FailPending, AllSettled;
      ghost var start := Abstract();
      var buffer: Bytes := [];
      NothingHandled(parse, start);
      for k := 0 to |chunks|
        invariant var s := SplitLines(Concat(chunks[..k]));
                  s.rest == buffer && Abstract() == Received(start, Handled(parse, s.lines)) && Fine(parse, s.lines)
      {
        ghost var before := Concat(chunks[..k]);
        assert chunks[..k + 1][..k] == chunks[..k] && Concat(chunks[..k + 1]) == before + chunks[k];
        var lines;
        lines, buffer := TakeLines(buffer + chunks[k]);
        SplitResumes(before, chunks[k]);
        HandledMore(parse, SplitLines(before).lines, lines);
        ReceivedMore(start, Handled(parse, SplitLines(before).lines), Handled(parse, lines));
        var ok := HandleLines(parse, lines);
        if !ok {
          EarlyLines(chunks, k + 1);
          StoppedEarly(parse, SplitLines(Concat(chunks[..k + 1])).lines, AllLines(Concat(chunks)));
          FailingSettles(Abstract());
          FailAll();
          return;
        }
      }
      assert chunks[..|chunks|] == chunks;
      ghost var lines := SplitLines(Concat(chunks)).lines;
      HandledMore(parse, lines, [buffer]);
      ReceivedMore(start, Handled(parse, lines), Handled(parse, [buffer]));
      var _ := HandleLines(parse, [buffer]);
      FailingSettles(Abstract());
      FailAll();
    }

    /** The first piece of prompt(): up to the request's first await. */
    method BeginPrompt() returns (ok: bool)
      modifies this
      ensures Abstract() == Do(old(Abstract()), CallPrompt)
      ensures ok <==> old(turnWaiter).None? && !old(readerStopped)
    {
      if turnWaiter.Some? || readerStopped { return false; }
      turnWaiter, activeTurnId := Some(Waiting), None;
      pending := pending[nextId := Waiting];
      prompting := Sending(nextId);
      nextId := nextId + 1;
      ok := true;
    }

    /** The `finally` of prompt(). */
    method EndPrompt()
      modifies this
      ensures Abstract() == LeavePrompt(old(Abstract()))
    {
      turnWaiter, activeTurnId, prompting := None, None, NoPrompt;
    }

    /** The stored completion of the prompt's turn, if there is one, is given away
        and the prompt ends. */
    method GiveCompletion(turn: Id, t: Terminal)
      modifies this
      ensures Abstract() == Return(old(Abstract()), turn, t)
    {
      var key := (threadId, turn);
      completedTurns := completedTurns - {key};
      handed, returned := handed + {key}, returned + [Returned(turn, t)];
      EndPrompt();
    }

    /** The piece after the response: the completion may be there already. */
    method PromptAccepted(id: nat) returns (completion: Option<Terminal>)
      requires id in pending && !pending[id].Waiting?
      modifies this
      ensures Abstract() == Answered(old(Abstract()), id)
      ensures completion.Some? <==> |returned| == |old(returned)| + 1
    {
      var answer := pending[id];
      completion := None;
      pending := pending - {id};
      if !answer.Result? || answer.value.turn.None? {
        EndPrompt();
        return;
      }
      var turn := answer.value.turn.value;
      if (threadId, turn) in completedTurns {
        completion := Some(completedTurns[(threadId, turn)]);
        GiveCompletion(turn, completion.value);
      } else {
        activeTurnId, prompting := Some(turn), Turning(turn);
      }
    }

    /** The last piece: the waiter has been settled. */
    method PromptCompleted() returns (completion: Option<Terminal>)
      requires prompting.Turning? && activeTurnId == Some(prompting.turn) && turnWaiter.Some? && !turnWaiter.value.Waiting?
      modifies this
      ensures Abstract() == Do(old(Abstract()), PromptTurned)
      ensures completion == if old(turnWaiter).value.Result? then Some(old(turnWaiter).value.value) else None
    {
      hide Return, LeavePrompt;
      completion := None;
      if turnWaiter.value.Result? {
        completion := Some(turnWaiter.value.value);
        GiveCompletion(activeTurnId.value, completion.value);
      } else {
        EndPrompt();
      }
    }
  }

  /** How a line reads; None is a line that is not JSON. */
  type Parser = Bytes -> Option<Message>

  function Received(s: State, messages: seq<Message>): State {
    if messages == [] then s
    else CodexProtocols.Receive(Received(s, messages[..|messages| - 1]), messages[|messages| - 1])
  }

  /** A line that is handled: blank, or a message that is not a server's request. */
  predicate Good(parse: Parser, line: Bytes) {
    IsBlank(line) || (parse(line).Some? && !parse(line).value.ServerRequest?)
  }

  predicate Fine(parse: Parser, lines: seq<Bytes>) { forall i :: 0 <= i < |lines| ==> Good(parse, lines[i]) }

  /** The messages of the lines up to the first that cannot be handled. */
  function Handled(parse: Parser, lines: seq<Bytes>): seq<Message> {
    if lines == [] || !Good(parse, lines[0]) then []
    else (if IsBlank(lines[0]) then [] else [parse(lines[0]).value]) + Handled(parse, lines[1..])
  }

  lemma {:induction false} FailingSettles(s: State)
    ensures FailPending(s).stopped && AllSettled(FailPending(s))
  {}

  lemma {:induction false} NothingHandled(parse: Parser, s: State)
    ensures SplitLines(Concat([])) == Split([], []) && Handled(parse, []) == [] && Fine(parse, []) && Received(s, []) == s
  {}

  lemma {:induction false} FineMore(parse: Parser, a: seq<Bytes>, b: seq<Bytes>)
    ensures Fine(parse, a + b) <==> Fine(parse, a) && Fine(parse, b)
    ensures a != [] ==> (Fine(parse, a) <==> Good(parse, a[0]) && Fine(parse, a[1..]))
  {
    hide Good;
    if Fine(parse, a + b) {
      forall i | 0 <= i < |a| ensures Good(parse, a[i]) { assert (a + b)[i] == a[i]; }
      forall i | 0 <= i < |b| ensures Good(parse, b[i]) { assert (a + b)[|a| + i] == b[i]; }
    }
    if a != [] && Good(parse, a[0]) && Fine(parse, a[1..]) {
      forall i | 0 <= i < |a|
        ensures Good(parse, a[i])
      {
        if i > 0 { assert a[1..][i - 1] == a[i]; }
      }
    }
  }

  lemma {:induction false} HandledMore(parse: Parser, a: seq<Bytes>, b: seq<Bytes>)
    ensures Handled(parse, a + b) == if Fine(parse, a) then Handled(parse, a) + Handled(parse, b) else Handled(parse, a)
    ensures Fine(parse, a + b) <==> Fine(parse, a) && Fine(parse, b)
    decreases |a|
  {
    FineMore(parse, a, b);
    if a == [] {
      assert a + b == b && Handled(parse, a) == [];
    } else {
      hide Good, Fine, IsBlank;
      assert (a + b)[1..] == a[1..] + b && (a + b)[0] == a[0];
      HandledMore(parse, a[1..], b);
    }
  }

  lemma {:induction false} HandledNext(parse: Parser, lines: seq<Bytes>, k: nat)
    requires k < |lines| && Fine(parse, lines[..k])
    ensures Good(parse, lines[k]) ==>
              && Fine(parse, lines[..k + 1])
              && Handled(parse, lines[..k + 1])
                 == Handled(parse, lines[..k]) + (if IsBlank(lines[k]) then [] else [parse(lines[k]).value])
    ensures !Good(parse, lines[k]) ==> !Fine(parse, lines) && Handled(parse, lines) == Handled(parse, lines[..k])
  {
    hide Good;
    assert lines[..k + 1] == lines[..k] + [lines[k]] && lines == lines[..k] + lines[k..];
    HandledMore(parse, lines[..k], [lines[k]]);
    HandledMore(parse, lines[..k], lines[k..]);
    assert lines[k..][0] == lines[k];
    assert Handled(parse, [lines[k]][1..]) == [];
  }

  lemma {:induction false} ReceivedNext(s: State, messages: seq<Message>, m: Message)
    ensures Received(s, messages + [m]) == CodexProtocols.Receive(Received(s, messages), m)
  {
    assert (messages + [m])[..|messages|] == messages;
  }

  lemma {:induction false} ReceivedMore(s: State, a: seq<Message>, b: seq<Message>)
    ensures Received(s, a + b) == Received(Received(s, a), b)
    decreases |b|
  {
    hide CodexProtocols.Receive;
    if b == [] {
      assert a + b == a;
    } else {
      assert (a + b)[..|a + b| - 1] == a + b[..|b| - 1];
      ReceivedMore(s, a, b[..|b| - 1]);
    }
  }

  /** After a line that cannot be handled nothing is. */
  lemma {:induction false} StoppedEarly(parse: Parser, a: seq<Bytes>, all: seq<Bytes>)
    requires a <= all && !Fine(parse, a)
    ensures Handled(parse, all) == Handled(parse, a)
  {
    hide Good;
    assert all == a + all[|a|..];
    HandledMore(parse, a, all[|a|..]);
  }
}
