/** The grammar of a run's events as a machine that reads any sequence of events,
    independently of how the loop makes them, and the proof that it accepts the
    trace of every whole run. */
module AgentGrammar {
  import opened AgentMessages
  import opened ToolBatches
  import opened ToolExecution
  import opened AgentTurns

  /** A finished message; whole: it was announced as it was finished, with no
      update in between. */
  datatype Entry = Entry(message: Message, whole: bool)

  /** An open turn: the messages finished in it, and its tool events, each with
      the number of messages finished before it. */
  datatype Draft = Draft(finished: seq<Entry>, tools: seq<Event>, marks: seq<nat>)

  datatype Place =
    | Outside
    | BetweenTurns
    | InsideTurn(draft: Draft)
    | InsideMessage(draft: Draft, opening: Message, updated: bool)
    | Over
    | Rejected

  const EMPTY := Draft([], [], [])

  /** Where a turn's assistant message is: before it the injected messages, after
      it the results that turn_end names. */
  function Speaker(d: Draft, end: Event): int
    requires end.TurnEnd?
  {
    |d.finished| - 1 - |end.toolResults|
  }

  /** The messages of a turn: injected ones, whole; one assistant message, which
      alone may have had updates and which turn_end carries; and the results
      turn_end names, whole and in order. */
  predicate MessagesClose(d: Draft, end: Event)
    requires end.TurnEnd?
  {
    var a := Speaker(d, end);
    && 0 <= a && d.finished[a].message == end.message && end.message.role.Assistant?
    && (forall j :: 0 <= j < |d.finished| && j != a ==> d.finished[j].whole)
    && (forall j :: 0 <= j < |end.toolResults| ==> d.finished[a + 1 + j].message == end.toolResults[j])
  }

  /** The tool events of a turn: for each exchange of turn_end exactly one call
      of the message, from its start over its updates to its end, and no others;
      all after the assistant message, and each end before the call's result. */
  predicate ToolsClose(d: Draft, end: Event)
    requires end.TurnEnd?
  {
    var a := Speaker(d, end);
    && |d.marks| == |d.tools|
    && end.toolResults == Results(end.exchanges) && |end.exchanges| <= |end.message.calls|
    && (forall k :: 0 <= k < |end.exchanges| ==> Whole(Own(d.tools, k), k, end.message.calls[k], end.exchanges[k]))
    && (forall k :: 0 <= k < |d.tools| ==> Placed(d.tools[k], d.marks[k], a, |end.exchanges|))
  }

  predicate Placed(e: Event, mark: nat, speaker: int, calls: nat) {
    IsToolEvent(e) && e.order < calls && speaker < mark && (e.ToolEnd? ==> mark <= speaker + 1 + e.order)
  }

  /** One run; in it one turn after another; in a turn one message or tool event
      after another, as turn_end tells; nothing after the end. */
  function Read(p: Place, e: Event): Place {
    match e
    case AgentStart => if p.Outside? then BetweenTurns else Rejected
    case TurnStart => if p.BetweenTurns? then InsideTurn(EMPTY) else Rejected
    case MessageStart(m) => if p.InsideTurn? then InsideMessage(p.draft, m, false) else Rejected
    case MessageUpdate(_) => if p.InsideMessage? then p.(updated := true) else Rejected
    case MessageEnd(m) =>
      if p.InsideMessage? then
        InsideTurn(p.draft.(finished := p.draft.finished + [Entry(m, !p.updated && m == p.opening)]))
      else Rejected
    case TurnEnd(_, _, _, _) =>
      if p.InsideTurn? && MessagesClose(p.draft, e) && ToolsClose(p.draft, e) then BetweenTurns else Rejected
    case AgentEnd(_) => if p.BetweenTurns? then Over else Rejected
    case _ =>
      if p.InsideTurn? then InsideTurn(WithTool(p.draft, e)) else Rejected
  }

  function WithTool(d: Draft, e: Event): Draft {
    d.(tools := d.tools + [e], marks := d.marks + [|d.finished|])
  }

  function ReadAll(p: Place, events: seq<Event>): Place {
    if events == [] then p else Read(ReadAll(p, events[..|events| - 1]), events[|events| - 1])
  }

  lemma {:induction false} ReadAppend(p: Place, a: seq<Event>, b: seq<Event>)
    ensures ReadAll(p, a + b) == ReadAll(ReadAll(p, a), b)
    decreases |b|
  {
    hide Read;
    if b == [] {
      assert a + b == a;
    } else {
      assert (a + b)[..|a + b| - 1] == a + b[..|b| - 1];
      ReadAppend(p, a, b[..|b| - 1]);
    }
  }

  lemma {:induction false} ReadOne(p: Place, e: Event)
    ensures ReadAll(p, [e]) == Read(p, e)
  {
    hide Read;
    assert [e][..0] == [];
    assert ReadAll(p, []) == p;
  }

  // ---- what the parts of a turn leave behind --------------------------------------------------------

  function Entries(messages: seq<Message>): seq<Entry> {
    seq(|messages|, i requires 0 <= i < |messages| => Entry(messages[i], true))
  }

  function Finishing(d: Draft, entries: seq<Entry>): Draft { d.(finished := d.finished + entries) }

  /** Tool events that come while no message is being finished. */
  function Tooled(d: Draft, events: seq<Event>): Draft {
    d.(tools := d.tools + events, marks := d.marks + seq(|events|, _ => |d.finished|))
  }

  lemma {:induction false} ReadPair(d: Draft, m: Message)
    ensures ReadAll(InsideTurn(d), Pair(m)) == InsideTurn(Finishing(d, Entries([m])))
  {
    assert Pair(m) == [MessageStart(m)] + [MessageEnd(m)] && Entries([m]) == [Entry(m, true)];
    ReadAppend(InsideTurn(d), [MessageStart(m)], [MessageEnd(m)]);
    ReadOne(InsideTurn(d), MessageStart(m));
    ReadOne(InsideMessage(d, m, false), MessageEnd(m));
  }

  lemma {:induction false} ReadPairs(d: Draft, messages: seq<Message>)
    ensures ReadAll(InsideTurn(d), Pairs(messages)) == InsideTurn(Finishing(d, Entries(messages)))
    decreases |messages|
  {
    hide Read, Pair;
    if messages == [] {
      assert d.finished + Entries([]) == d.finished;
    } else {
      var front, m := messages[..|messages| - 1], messages[|messages| - 1];
      ReadPairs(d, front);
      ReadAppend(InsideTurn(d), Pairs(front), Pair(m));
      ReadPair(Finishing(d, Entries(front)), m);
      assert d.finished + Entries(front) + Entries([m]) == d.finished + Entries(messages);
    }
  }

  lemma {:induction false} ReadUpdates(d: Draft, opening: Message, updates: seq<Message>)
    ensures ReadAll(InsideMessage(d, opening, false), Updates(updates)) == InsideMessage(d, opening, updates != [])
    decreases |updates|
  {
    if updates != [] {
      var n := |updates| - 1;
      ReadUpdates(d, opening, updates[..n]);
      assert Updates(updates)[..n] == Updates(updates[..n]);
    }
  }

  function SpokenEntry(s: Spoken): Entry { Entry(s.final, s.updates == [] && s.final == s.opening) }

  lemma {:induction false} ReadSpoken(d: Draft, s: Spoken)
    ensures ReadAll(InsideTurn(d), PrintSpoken(s)) == InsideTurn(Finishing(d, [SpokenEntry(s)]))
  {
    ReadAppend(InsideTurn(d), PrintPartial(s.opening, s.updates), [MessageEnd(s.final)]);
    ReadAppend(InsideTurn(d), [MessageStart(s.opening)], Updates(s.updates));
    ReadOne(InsideTurn(d), MessageStart(s.opening));
    ReadUpdates(d, s.opening, s.updates);
    ReadOne(InsideMessage(d, s.opening, s.updates != []), MessageEnd(s.final));
  }

  lemma {:induction false} ReadToolEvents(d: Draft, events: seq<Event>)
    requires forall k :: 0 <= k < |events| ==> IsToolEvent(events[k])
    ensures ReadAll(InsideTurn(d), events) == InsideTurn(Tooled(d, events))
    decreases |events|
  {
    if events == [] {
      assert Tooled(d, []) == d;
    } else {
      var n := |events| - 1;
      ReadToolEvents(d, events[..n]);
      assert Read(InsideTurn(Tooled(d, events[..n])), events[n]) == InsideTurn(WithTool(Tooled(d, events[..n]), events[n]));
      TooledNext(d, events, n);
    }
  }

  lemma {:induction false} TooledNext(d: Draft, events: seq<Event>, n: nat)
    requires |events| == n + 1
    ensures WithTool(Tooled(d, events[..n]), events[n]) == Tooled(d, events)
  {
    assert events == events[..n] + [events[n]];
    assert d.tools + events[..n] + [events[n]] == d.tools + events;
    assert seq(n, _ => |d.finished|) + [|d.finished|] == seq(n + 1, _ => |d.finished|);
  }

  lemma {:induction false} WholeIsTools(own: seq<Event>, i: nat, call: ToolCall, x: Exchange)
    requires Whole(own, i, call, x)
    ensures forall k :: 0 <= k < |own| ==> Concerns(own[k], i)
  {
    forall k | 0 <= k < |own|
      ensures Concerns(own[k], i)
    {
      if k < |own| - 1 { assert own[..|own| - 1][k] == own[k]; }
    }
  }

  // ---- a batch in turn ---------------------------------------------------------------------------------

  /** After some rounds: their results are finished, and each call's events are
      whole and placed before its result. */
  predicate RoundsRead(d: Draft, d': Draft, calls: seq<ToolCall>, rounds: seq<Round>) {
    && |rounds| <= |calls|
    && d'.finished == d.finished + Entries(Results(ExchangesOf(InTurn(calls, rounds))))
    && |d'.marks| == |d'.tools|
    && (forall k :: 0 <= k < |rounds| ==> Whole(Own(d'.tools, k), k, calls[k], rounds[k].exchange))
    && (forall k :: |rounds| <= k < |calls| ==> Own(d'.tools, k) == [])
    && (forall k :: 0 <= k < |d'.tools| ==> Placed(d'.tools[k], d'.marks[k], |d.finished| - 1, |rounds|))
  }

  lemma {:induction false} OwnAppend(a: seq<Event>, b: seq<Event>, i: nat)
    ensures Own(a + b, i) == Own(a, i) + Own(b, i)
    decreases |b|
  {
    if b == [] {
      assert a + b == a && Own(b, i) == [];
    } else {
      var n := |b| - 1;
      assert (a + b)[..|a + b| - 1] == a + b[..n];
      OwnAppend(a, b[..n], i);
    }
  }

  lemma {:induction false} OwnAll(events: seq<Event>, i: nat)
    requires forall k :: 0 <= k < |events| ==> Concerns(events[k], i)
    ensures Own(events, i) == events && forall j: nat :: j != i ==> Own(events, j) == []
    decreases |events|
  {
    if events != [] {
      var n := |events| - 1;
      OwnAll(events[..n], i);
      assert events == events[..n] + [events[n]];
    }
  }

  lemma {:induction false} ReadRounds(d: Draft, calls: seq<ToolCall>, rounds: seq<Round>) returns (d': Draft)
    requires d.tools == [] && d.marks == [] && PartOk(InTurn(calls, rounds))
    ensures ReadAll(InsideTurn(d), Rounds(rounds)) == InsideTurn(d') && RoundsRead(d, d', calls, rounds)
    decreases |rounds|
  {
    hide Whole, Own, Read, Results, ExchangesOf;
    if rounds == [] {
      d' := d;
      NothingRead(d, calls);
    } else {
      var n := |rounds| - 1;
      var last := rounds[n];
      var before := ReadRounds(d, calls, rounds[..n]);
      ReadRound(before, last, n, calls[n]);
      ReadAppend(InsideTurn(d), Rounds(rounds[..n]), last.events + Pair(last.exchange.result));
      d' := Finishing(Tooled(before, last.events), Entries([last.exchange.result]));
      RoundAdds(d, before, d', calls, rounds, n);
    }
  }

  lemma {:induction false} NothingRead(d: Draft, calls: seq<ToolCall>)
    requires d.tools == [] && d.marks == []
    ensures RoundsRead(d, d, calls, []) && ReadAll(InsideTurn(d), Rounds([])) == InsideTurn(d)
  {
    assert Entries(Results(ExchangesOf(InTurn(calls, [])))) == [];
  }

  lemma {:induction false} ReadRound(d: Draft, r: Round, i: nat, call: ToolCall)
    requires Whole(r.events, i, call, r.exchange)
    ensures ReadAll(InsideTurn(d), r.events + Pair(r.exchange.result))
            == InsideTurn(Finishing(Tooled(d, r.events), Entries([r.exchange.result])))
  {
    hide Whole, Read, Pair;
    WholeIsTools(r.events, i, call, r.exchange);
    ReadToolEvents(d, r.events);
    ReadPair(Tooled(d, r.events), r.exchange.result);
    ReadAppend(InsideTurn(d), r.events, Pair(r.exchange.result));
  }

  lemma {:induction false} RoundResults(calls: seq<ToolCall>, rounds: seq<Round>, n: nat)
    requires |rounds| == n + 1
    ensures var before := Results(ExchangesOf(InTurn(calls, rounds[..n])));
            && Results(ExchangesOf(InTurn(calls, rounds))) == before + [rounds[n].exchange.result] && |before| == n
            && Entries(before + [rounds[n].exchange.result]) == Entries(before) + Entries([rounds[n].exchange.result])
  {
    assert ExchangesOf(InTurn(calls, rounds)) == ExchangesOf(InTurn(calls, rounds[..n])) + [rounds[n].exchange];
  }

  lemma {:induction false} RoundAdds(d: Draft, before: Draft, d': Draft, calls: seq<ToolCall>, rounds: seq<Round>, n: nat)
    requires |rounds| == n + 1 <= |calls| && RoundsRead(d, before, calls, rounds[..n])
    requires Whole(rounds[n].events, n, calls[n], rounds[n].exchange)
    requires d' == Finishing(Tooled(before, rounds[n].events), Entries([rounds[n].exchange.result]))
    ensures RoundsRead(d, d', calls, rounds)
  {
    hide Whole, Own, Results, ExchangesOf, Entries;
    var events := rounds[n].events;
    RoundResults(calls, rounds, n);
    assert |before.finished| == |d.finished| + n by { EntriesSize(Results(ExchangesOf(InTurn(calls, rounds[..n])))); }
    WholeIsTools(events, n, calls[n], rounds[n].exchange);
    OwnAll(events, n);
    forall k: nat | k < |calls|
      ensures Own(d'.tools, k) == if k == n then events else Own(before.tools, k)
    {
      OwnAppend(before.tools, events, k);
      if k == n { assert [] + events == events; } else { assert Own(before.tools, k) + [] == Own(before.tools, k); }
    }
    forall k | 0 <= k < |d'.tools|
      ensures Placed(d'.tools[k], d'.marks[k], |d.finished| - 1, |rounds|)
    {
      if k < |before.tools| {
        assert Placed(before.tools[k], before.marks[k], |d.finished| - 1, n);
      } else {
        assert Concerns(events[k - |before.tools|], n);
      }
    }
    forall k | 0 <= k < |rounds|
      ensures Whole(Own(d'.tools, k), k, calls[k], rounds[k].exchange)
    {
      if k < n { assert rounds[..n][k] == rounds[k]; }
    }
  }

  lemma {:induction false} EntriesSize(messages: seq<Message>)
    ensures |Entries(messages)| == |messages|
  {}

  // ---- a whole turn ------------------------------------------------------------------------------------

  /** What a tool batch leaves behind: its results, and its events, placed. */
  predicate PartRead(d: Draft, d': Draft, part: Part) {
    && d'.finished == d.finished + Entries(Results(ExchangesOf(part)))
    && |d'.marks| == |d'.tools|
    && (forall k :: 0 <= k < |d'.tools| ==> Placed(d'.tools[k], d'.marks[k], |d.finished| - 1, |ExchangesOf(part)|))
    && (!part.NoTools? ==>
          && |ExchangesOf(part)| <= |part.calls|
          && forall k :: 0 <= k < |ExchangesOf(part)| ==> Whole(Own(d'.tools, k), k, part.calls[k], ExchangesOf(part)[k]))
  }

  lemma {:induction false} ReadConcurrent(d: Draft, calls: seq<ToolCall>, events: seq<Event>, exchanges: seq<Exchange>)
    requires d.tools == [] && d.marks == [] && PartOk(Concurrent(calls, events, exchanges))
    ensures var d' := Finishing(Tooled(d, events), Entries(Results(exchanges)));
            && ReadAll(InsideTurn(d), events + Pairs(Results(exchanges))) == InsideTurn(d')
            && PartRead(d, d', Concurrent(calls, events, exchanges))
  {
    hide Whole, Own, Read, Results, Entries, Pairs, ReadAll;
    ReadToolEvents(d, events);
    ReadPairs(Tooled(d, events), Results(exchanges));
    ReadAppend(InsideTurn(d), events, Pairs(Results(exchanges)));
    assert Tooled(d, events).tools == events;
  }

  lemma {:induction false} ReadPart(d: Draft, part: Part) returns (d': Draft)
    requires d.tools == [] && d.marks == [] && PartOk(part)
    ensures ReadAll(InsideTurn(d), PrintPart(part)) == InsideTurn(d') && PartRead(d, d', part)
  {
    hide Whole, Own, Read;
    match part {
      case NoTools =>
        d' := d;
        assert Entries(Results([])) == [];
      case Concurrent(calls, events, exchanges) =>
        ReadConcurrent(d, calls, events, exchanges);
        d' := Finishing(Tooled(d, events), Entries(Results(exchanges)));
      case InTurn(calls, rounds) =>
        d' := ReadRounds(d, calls, rounds);
    }
  }

  /** A turn reads from between turns to between turns. */
  lemma {:induction false} ReadTurn(t: Turn)
    requires TurnOk(t)
    ensures ReadAll(BetweenTurns, PrintTurn(t)) == BetweenTurns
  {
    hide Pairs, PrintSpoken, PrintPart, PartOk, ReadAll, Injected, Read, PartRead, Entries;
    var opening := PrintOpening(t.deliveries);
    ReadAppend(BetweenTurns, [TurnStart], Pairs(Injected(t.deliveries)));
    ReadOne(BetweenTurns, TurnStart);
    assert Read(BetweenTurns, TurnStart) == InsideTurn(EMPTY) by { TurnOpens(); }
    ReadPairs(EMPTY, Injected(t.deliveries));
    var d1 := Finishing(EMPTY, Entries(Injected(t.deliveries)));
    ReadAppend(BetweenTurns, opening, PrintSpoken(t.spoken));
    ReadSpoken(d1, t.spoken);
    var d2 := Finishing(d1, [SpokenEntry(t.spoken)]);
    ReadAppend(BetweenTurns, opening + PrintSpoken(t.spoken), PrintPart(t.part));
    var d3 := ReadPart(d2, t.part);
    ReadAppend(BetweenTurns, opening + PrintSpoken(t.spoken) + PrintPart(t.part), [EndOf(t)]);
    ReadOne(InsideTurn(d3), EndOf(t));
    TurnCloses(t, d2, d3);
  }

  lemma {:induction false} TurnOpens()
    ensures Read(BetweenTurns, TurnStart) == InsideTurn(EMPTY)
  {}

  lemma {:induction false} TurnCloses(t: Turn, d2: Draft, d3: Draft)
    requires TurnOk(t) && PartRead(d2, d3, t.part)
    requires d2 == Finishing(Finishing(EMPTY, Entries(Injected(t.deliveries))), [SpokenEntry(t.spoken)])
    ensures Read(InsideTurn(d3), EndOf(t)) == BetweenTurns
  {
    hide Injected, Results, ExchangesOf, Whole, Own, PartOk;
    var end := EndOf(t);
    var n := |Injected(t.deliveries)|;
    assert |Results(ExchangesOf(t.part))| == |ExchangesOf(t.part)| by { ResultsSize(ExchangesOf(t.part)); }
    assert Speaker(d3, end) == n && d3.finished[n] == SpokenEntry(t.spoken);
    assert MessagesClose(d3, end);
    if t.part.NoTools? { assert ExchangesOf(t.part) == [] by { NoExchanges(); } }
    assert ToolsClose(d3, end);
  }

  lemma {:induction false} ResultsSize(exchanges: seq<Exchange>)
    ensures |Results(exchanges)| == |exchanges|
  {}

  lemma {:induction false} NoExchanges()
    ensures ExchangesOf(NoTools) == []
  {}

  lemma {:induction false} ReadTurns(turns: seq<Turn>)
    requires TurnsOk(turns)
    ensures ReadAll(BetweenTurns, PrintTurns(turns)) == BetweenTurns
    decreases |turns|
  {
    hide TurnOk, PrintTurn, ReadAll;
    if turns == [] {
      assert ReadAll(BetweenTurns, []) == BetweenTurns by { ReadNothing(); }
    } else {
      var n := |turns| - 1;
      ReadTurns(turns[..n]);
      ReadTurn(turns[n]);
      ReadAppend(BetweenTurns, PrintTurns(turns[..n]), PrintTurn(turns[n]));
    }
  }

  lemma {:induction false} ReadNothing()
    ensures ReadAll(BetweenTurns, []) == BetweenTurns
  {}

  /** A trace is read to the end of the run, and no proper prefix of it is. */
  ghost predicate Accepted(trace: seq<Event>) {
    ReadAll(Outside, trace) == Over && forall n :: 0 <= n < |trace| ==> ReadAll(Outside, trace[..n]) != Over
  }

  /** The trace of every whole run is accepted: agent_end is the last event and the
      only one. */
  lemma {:induction false} WholeRunIsAccepted(turns: seq<Turn>, result: seq<Message>)
    requires TurnsOk(turns)
    ensures Accepted([AgentStart] + PrintTurns(turns) + [AgentEnd(result)])
  {
    hide PrintTurns, ReadAll, TurnsOk;
    var trace := [AgentStart] + PrintTurns(turns) + [AgentEnd(result)];
    ReadAppend(Outside, [AgentStart], PrintTurns(turns));
    ReadOne(Outside, AgentStart);
    ReadTurns(turns);
    ReadAppend(Outside, [AgentStart] + PrintTurns(turns), [AgentEnd(result)]);
    ReadOne(BetweenTurns, AgentEnd(result));
    forall n | 0 <= n < |trace|
      ensures ReadAll(Outside, trace[..n]) != Over
    {
      assert trace == trace[..n] + trace[n..];
      ReadAppend(Outside, trace[..n], trace[n..]);
      if ReadAll(Outside, trace[..n]) == Over { NothingAfterTheEnd(trace[n..]); }
    }
  }

  lemma {:induction false} NothingAfterTheEnd(events: seq<Event>)
    requires events != []
    ensures ReadAll(Over, events) == Rejected
    decreases |events|
  {
    if |events| == 1 {
      assert events[..0] == [];
    } else {
      NothingAfterTheEnd(events[..|events| - 1]);
    }
  }
}
