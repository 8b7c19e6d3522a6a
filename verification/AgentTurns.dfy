/** The shape of a whole run: its turns as a syntax tree, and the trace that a
    tree stands for. */
module AgentTurns {
  import opened AgentMessages
  import opened MessageQueues
  import opened ToolBatches
  import opened ToolExecution

  datatype Source = Prompt | Steering | FollowUp | Continuation

  /** Messages put into a turn before the assistant speaks. */
  datatype Delivery = Delivery(source: Source, batches: seq<seq<Message>>)

  /** The one assistant message of a turn: its start, its updates, its end. */
  datatype Spoken = Spoken(opening: Message, updates: seq<Message>, final: Message)

  datatype Turn = Turn(deliveries: seq<Delivery>, spoken: Spoken, part: Part, mode: ExecutionMode)

  function Injected(ds: seq<Delivery>): seq<Message> {
    if ds == [] then [] else Injected(ds[..|ds| - 1]) + Flatten(ds[|ds| - 1].batches)
  }

  /** The batches of one source, in order. */
  function From(ds: seq<Delivery>, source: Source): seq<seq<Message>> {
    if ds == [] then []
    else
      var last := ds[|ds| - 1];
      From(ds[..|ds| - 1], source) + (if last.source == source then last.batches else [])
  }

  function Deliveries(turns: seq<Turn>): seq<Delivery> {
    if turns == [] then [] else Deliveries(turns[..|turns| - 1]) + turns[|turns| - 1].deliveries
  }

  function Updates(updates: seq<Message>): seq<Event> {
    seq(|updates|, i requires 0 <= i < |updates| => MessageUpdate(updates[i]))
  }

  function PrintOpening(ds: seq<Delivery>): seq<Event> { [TurnStart] + Pairs(Injected(ds)) }

  function PrintPartial(opening: Message, updates: seq<Message>): seq<Event> {
    [MessageStart(opening)] + Updates(updates)
  }

  function PrintSpoken(s: Spoken): seq<Event> { PrintPartial(s.opening, s.updates) + [MessageEnd(s.final)] }

  function EndOf(t: Turn): Event {
    TurnEnd(t.spoken.final, Results(ExchangesOf(t.part)), t.mode, ExchangesOf(t.part))
  }

  function PrintTurn(t: Turn): seq<Event> {
    PrintOpening(t.deliveries) + PrintSpoken(t.spoken) + PrintPart(t.part) + [EndOf(t)]
  }

  function PrintTurns(turns: seq<Turn>): seq<Event> {
    if turns == [] then [] else PrintTurns(turns[..|turns| - 1]) + PrintTurn(turns[|turns| - 1])
  }

  predicate IsFailure(m: Message) { m.stop.Error? || m.stop.Aborted? }

  /** A failed message runs no tools; any other runs the calls it makes. */
  predicate TurnOk(t: Turn) {
    && PartOk(t.part) && t.spoken.final.role.Assistant?
    && (t.part.NoTools? <==> IsFailure(t.spoken.final) || t.spoken.final.calls == [])
    && (!t.part.NoTools? ==> t.part.calls == t.spoken.final.calls)
    && (t.part.Concurrent? ==> t.mode.Parallel?)
    && (t.part.InTurn? ==> t.mode.Sequential?)
  }

  predicate TurnsOk(turns: seq<Turn>) { forall i :: 0 <= i < |turns| ==> TurnOk(turns[i]) }

  /** Tool calls remain: the turn ran some, and not all asked to stop. */
  predicate CallsRemain(t: Turn) { !t.part.NoTools? && !StopsAfter(t.part) }

  /** A turn after which only new messages can start another. */
  predicate IsQuiet(t: Turn) { !IsFailure(t.spoken.final) && !CallsRemain(t) }

  /** Why one turn comes after another: nothing comes after an aborted message; a
      turn that is given nothing answers tool results, or repeats a recovered
      failure; follow-ups and continuations wait until no tool calls remain. */
  predicate Follows(t: Turn, ds: seq<Delivery>) {
    && !t.spoken.final.stop.Aborted?
    && (if ds == [] then t.spoken.final.stop.Error? || CallsRemain(t)
        else
          && |ds| == 1 && !IsFailure(t.spoken.final)
          && (ds[0].source.Steering? || (IsQuiet(t) && (ds[0].source.FollowUp? || ds[0].source.Continuation?))))
  }

  predicate Chained(turns: seq<Turn>) {
    forall i :: 0 < i < |turns| ==> Follows(turns[i - 1], turns[i].deliveries)
  }

  lemma {:induction false} ChainedNext(turns: seq<Turn>, t: Turn)
    requires Chained(turns) && (turns != [] ==> Follows(turns[|turns| - 1], t.deliveries))
    ensures Chained(turns + [t])
  {
    hide Follows;
  }

  lemma {:induction false} InjectedNext(ds: seq<Delivery>, d: Delivery)
    ensures Injected(ds + [d]) == Injected(ds) + Flatten(d.batches)
    ensures forall source :: From(ds + [d], source) == From(ds, source) + (if d.source == source then d.batches else [])
  {
    assert (ds + [d])[..|ds|] == ds;
  }

  lemma {:induction false} OpenedNext(ds: seq<Delivery>, d: Delivery)
    ensures PrintOpening(ds) + Pairs(Flatten(d.batches)) == PrintOpening(ds + [d])
    ensures Injected(ds + [d]) == Injected(ds) + Flatten(d.batches)
  {
    hide Injected, Pairs, Flatten, From;
    InjectedNext(ds, d);
    PairsAppend(Injected(ds), Flatten(d.batches));
    var opening, more := Pairs(Injected(ds)), Pairs(Flatten(d.batches));
    assert [TurnStart] + opening + more == [TurnStart] + (opening + more);
  }

  lemma {:induction false} OpeningOfNothing()
    ensures PrintOpening([]) == [TurnStart] && Injected([]) == []
  {}

  lemma {:induction false} TurnsNext(turns: seq<Turn>, t: Turn)
    ensures PrintTurns(turns + [t]) == PrintTurns(turns) + PrintTurn(t)
    ensures Deliveries(turns + [t]) == Deliveries(turns) + t.deliveries
    ensures TurnsOk(turns) && TurnOk(t) ==> TurnsOk(turns + [t])
  {
    assert (turns + [t])[..|turns|] == turns;
  }

  lemma {:induction false} UpdatesNext(updates: seq<Message>, m: Message)
    ensures Updates(updates + [m]) == Updates(updates) + [MessageUpdate(m)]
  {}

  lemma {:induction false} PartialNext(opening: Message, updates: seq<Message>, m: Message)
    ensures PrintPartial(opening, updates + [m]) == PrintPartial(opening, updates) + [MessageUpdate(m)]
  {
    hide Updates;
    UpdatesNext(updates, m);
  }

  // ---- what is finished in a turn ---------------------------------------------------------------

  lemma {:induction false} EndsOfSpoken(s: Spoken)
    ensures Ends(PrintSpoken(s)) == [s.final]
  {
    EndsAppend(PrintPartial(s.opening, s.updates), [MessageEnd(s.final)]);
    NoEnds(PrintPartial(s.opening, s.updates));
    assert [MessageEnd(s.final)][1..] == [];
    assert Ends([MessageEnd(s.final)]) == [s.final] + Ends([]);
  }

  lemma {:induction false} EndsOfPart(part: Part)
    requires PartOk(part)
    ensures Ends(PrintPart(part)) == Results(ExchangesOf(part))
  {
    hide Whole, Own;
    match part
    case NoTools =>
    case Concurrent(_, events, exchanges) =>
      forall e | e in events
        ensures !e.MessageEnd?
      {
        var k :| 0 <= k < |events| && events[k] == e;
      }
      NoEnds(events);
      EndsAppend(events, Pairs(Results(exchanges)));
      EndsOfPairs(Results(exchanges));
    case InTurn(calls, rounds) => EndsOfRounds(calls, rounds);
  }

  lemma {:induction false} EndsOfRounds(calls: seq<ToolCall>, rounds: seq<Round>)
    requires PartOk(InTurn(calls, rounds))
    ensures Ends(Rounds(rounds)) == Results(ExchangesOf(InTurn(calls, rounds)))
    decreases |rounds|
  {
    hide Whole;
    if rounds != [] {
      var n := |rounds| - 1;
      var last := rounds[n];
      EndsOfRounds(calls, rounds[..n]);
      WholeEndsNothing(last.events, n, calls[n], last.exchange);
      EndsAppend(last.events, Pair(last.exchange.result));
      EndsOfPair(last.exchange.result);
      EndsAppend(Rounds(rounds[..n]), last.events + Pair(last.exchange.result));
      var before := ExchangesOf(InTurn(calls, rounds[..n]));
      assert ExchangesOf(InTurn(calls, rounds)) == before + [last.exchange];
      ResultsOneMore(before, last.exchange);
    }
  }

  lemma {:induction false} WholeEndsNothing(own: seq<Event>, i: nat, call: ToolCall, x: Exchange)
    requires Whole(own, i, call, x)
    ensures Ends(own) == []
  {
    forall e | e in own
      ensures !e.MessageEnd?
    {
      var k :| 0 <= k < |own| && own[k] == e;
      if 1 <= k < |own| - 1 { assert own[..|own| - 1][k] == e; }
      if k == 0 { assert own[..|own| - 1][0] == e; }
    }
    NoEnds(own);
  }

  /** What a turn finishes: the injected messages, the assistant's, the results. */
  function Said(t: Turn): seq<Message> {
    Injected(t.deliveries) + [t.spoken.final] + Results(ExchangesOf(t.part))
  }

  lemma {:induction false} EndsOfTurn(t: Turn)
    requires PartOk(t.part)
    ensures Ends(PrintTurn(t)) == Said(t)
  {
    hide Pairs, PrintSpoken, PrintPart, PartOk;
    var opening := PrintOpening(t.deliveries);
    EndsAppend([TurnStart], Pairs(Injected(t.deliveries)));
    NoEnds([TurnStart]);
    EndsOfPairs(Injected(t.deliveries));
    EndsOfSpoken(t.spoken);
    EndsOfPart(t.part);
    NoEnds([EndOf(t)]);
    EndsAppend(opening, PrintSpoken(t.spoken));
    EndsAppend(opening + PrintSpoken(t.spoken), PrintPart(t.part));
    EndsAppend(opening + PrintSpoken(t.spoken) + PrintPart(t.part), [EndOf(t)]);
  }

  // ---- the working context and the transcript --------------------------------------------------

  /** The messages of a transcript that are marked as kept. */
  function Kept(transcript: seq<Message>, marks: seq<bool>): seq<Message>
    requires |transcript| == |marks|
  {
    if transcript == [] then []
    else
      var n := |transcript| - 1;
      var before := Kept(transcript[..n], marks[..n]);
      if marks[n] then before + [transcript[n]] else before
  }

  function Without(messages: seq<Message>, identity: nat): seq<Message> {
    if messages == [] then []
    else
      var n := |messages| - 1;
      var before := Without(messages[..n], identity);
      if messages[n].identity == identity then before else before + [messages[n]]
  }

  function Unmarked(transcript: seq<Message>, marks: seq<bool>, identity: nat): seq<bool>
    requires |transcript| == |marks|
  {
    seq(|marks|, i requires 0 <= i < |marks| => marks[i] && transcript[i].identity != identity)
  }

  lemma {:induction false} KeptNext(transcript: seq<Message>, marks: seq<bool>, m: Message)
    requires |transcript| == |marks|
    ensures Kept(transcript + [m], marks + [true]) == Kept(transcript, marks) + [m]
  {
    assert (transcript + [m])[..|transcript|] == transcript && (marks + [true])[..|marks|] == marks;
  }

  lemma {:induction false} WithoutNext(messages: seq<Message>, m: Message, identity: nat)
    ensures Without(messages + [m], identity)
            == if m.identity == identity then Without(messages, identity) else Without(messages, identity) + [m]
  {
    assert (messages + [m])[..|messages|] == messages;
  }

  /** Filtering the context by identity is unmarking in the transcript. */
  lemma {:induction false} FilterUnmarks(transcript: seq<Message>, marks: seq<bool>, identity: nat)
    requires |transcript| == |marks|
    ensures Without(Kept(transcript, marks), identity) == Kept(transcript, Unmarked(transcript, marks, identity))
    decreases |transcript|
  {
    if transcript != [] {
      var n := |transcript| - 1;
      FilterUnmarks(transcript[..n], marks[..n], identity);
      assert Unmarked(transcript, marks, identity)[..n] == Unmarked(transcript[..n], marks[..n], identity);
      if marks[n] { WithoutNext(Kept(transcript[..n], marks[..n]), transcript[n], identity); }
    }
  }

  function AllTrue(n: nat): seq<bool> { seq(n, _ => true) }

  lemma {:induction false} KeptAll(transcript: seq<Message>)
    ensures Kept(transcript, AllTrue(|transcript|)) == transcript
    decreases |transcript|
  {
    if transcript != [] {
      var n := |transcript| - 1;
      assert AllTrue(n + 1)[..n] == AllTrue(n);
      KeptAll(transcript[..n]);
      assert transcript == transcript[..n] + [transcript[n]];
    }
  }
}
