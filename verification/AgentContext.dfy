/** What the loop keeps beside the trace: the log of context builds, and how the
    working context relates to the Agent's transcript. */
module AgentContexts {
  import opened AgentMessages
  import opened ToolExecution
  import opened AgentTurns

  // ---- builds ---------------------------------------------------------------------------------

  /** What the owners of a response see, in order. */
  datatype BuildEvent = Built(projected: bool) | Adopted(messages: seq<Message>) | Released | Recovering

  /** One attempt at a response: a build that was reached, the working set that
      was adopted from it, its projection's release, and whether recovery was asked
      for afterwards. */
  datatype Attempt = Attempt(built: bool, projected: bool, adopted: Option<seq<Message>>, recovering: bool)

  function PrintBuild(a: Attempt): seq<BuildEvent> {
    (if a.built then [Built(a.projected)] else []) + (if a.adopted.Some? then [Adopted(a.adopted.value)] else [])
  }

  function PrintAttempt(a: Attempt): seq<BuildEvent> {
    PrintBuild(a) + (if a.projected then [Released] else []) + (if a.recovering then [Recovering] else [])
  }

  function PrintAttempts(attempts: seq<Attempt>): seq<BuildEvent> {
    if attempts == [] then [] else PrintAttempt(attempts[0]) + PrintAttempts(attempts[1..])
  }

  /** An adoption needs a projection and a projection a build. */
  predicate AttemptOk(a: Attempt) { (a.adopted.Some? ==> a.projected) && (a.projected ==> a.built) }

  /** Every attempt but the last was recovered. */
  predicate AttemptsOk(attempts: seq<Attempt>) {
    && (forall i :: 0 <= i < |attempts| ==> AttemptOk(attempts[i]))
    && (forall i :: 0 <= i < |attempts| - 1 ==> attempts[i].recovering && attempts[i].built)
  }

  function PrintResponses(responses: seq<seq<Attempt>>): seq<BuildEvent> {
    if responses == [] then []
    else PrintResponses(responses[..|responses| - 1]) + PrintAttempts(responses[|responses| - 1])
  }

  /** At most three builds for each response. */
  predicate ResponsesOk(responses: seq<seq<Attempt>>) {
    forall i :: 0 <= i < |responses| ==> AttemptsOk(responses[i]) && 1 <= |responses[i]| <= 3
  }

  lemma {:induction false} ResponsesNext(responses: seq<seq<Attempt>>, tried: seq<Attempt>)
    ensures PrintResponses(responses + [tried]) == PrintResponses(responses) + PrintAttempts(tried)
    ensures ResponsesOk(responses) && AttemptsOk(tried) && 1 <= |tried| <= 3 ==> ResponsesOk(responses + [tried])
  {
    assert (responses + [tried])[..|responses|] == responses;
  }

  lemma {:induction false} OneAttempt(a: Attempt)
    ensures PrintAttempts([a]) == PrintAttempt(a)
    ensures AttemptOk(a) ==> AttemptsOk([a])
    ensures AdoptedBy([a]) == a.adopted
  {
    assert [a][1..] == [];
    assert PrintAttempts([a]) == PrintAttempt(a) + PrintAttempts([]);
    assert AdoptedBy([a][1..]) == None;
  }

  lemma {:induction false} MoreAttempts(a: Attempt, more: seq<Attempt>)
    ensures PrintAttempts([a] + more) == PrintAttempt(a) + PrintAttempts(more)
    ensures AttemptsOk(more) && AttemptOk(a) && a.recovering && a.built ==> AttemptsOk([a] + more)
    ensures AdoptedBy([a] + more) == if Adopts(more) then AdoptedBy(more) else a.adopted
  {
    hide PrintAttempt;
    assert ([a] + more)[1..] == more && ([a] + more)[0] == a;
  }

  // ---- adoptions --------------------------------------------------------------------------------

  /** The working set that was adopted last in the attempts at a response. */
  function AdoptedBy(attempts: seq<Attempt>): Option<seq<Message>> {
    if attempts == [] then None
    else if AdoptedBy(attempts[1..]).Some? then AdoptedBy(attempts[1..])
    else attempts[0].adopted
  }

  /** Some attempt at the response adopted a working set. */
  predicate Adopts(attempts: seq<Attempt>) { AdoptedBy(attempts).Some? }

  /** The turn whose response adopted a working set last; the first when none did. */
  function LastAdoption(responses: seq<seq<Attempt>>): (n: nat)
    ensures n <= |responses| && (responses != [] ==> n < |responses|)
  {
    if responses == [] then 0
    else if Adopts(responses[|responses| - 1]) then |responses| - 1
    else LastAdoption(responses[..|responses| - 1])
  }

  lemma {:induction false} AdoptionNext(responses: seq<seq<Attempt>>, tried: seq<Attempt>)
    ensures LastAdoption(responses + [tried]) == if Adopts(tried) then |responses| else LastAdoption(responses)
  {
    assert (responses + [tried])[..|responses|] == responses;
  }

  /** The context and the Agent's transcript at one turn_end event. */
  datatype TurnEndState = TurnEndState(context: seq<Message>, transcript: seq<Message>)

  // ---- the transcript over a run --------------------------------------------------------------------

  /** What the transcript is when a response has been built on it. */
  function Based(transcript: seq<Message>, attempts: seq<Attempt>): seq<Message> {
    if Adopts(attempts) then AdoptedBy(attempts).value else transcript
  }

  /** The Agent's transcript after `n` turns: every finished message is added to it,
      in order, and an adoption, which comes before the assistant's message,
      replaces what was there. */
  function TranscriptAfter(initial: seq<Message>, turns: seq<Turn>, responses: seq<seq<Attempt>>, n: nat): seq<Message>
    requires n <= |turns| && n <= |responses|
  {
    if n == 0 then initial
    else
      var t := turns[n - 1];
      Based(TranscriptAfter(initial, turns, responses, n - 1) + Injected(t.deliveries), responses[n - 1])
      + [t.spoken.final] + Results(ExchangesOf(t.part))
  }

  /** The transcript at every turn_end is what the run's messages and adoptions
      make of the one it began with. */
  predicate AllTold(initial: seq<Message>, turns: seq<Turn>, ends: seq<TurnEndState>, responses: seq<seq<Attempt>>) {
    && |turns| == |ends| <= |responses|
    && forall i :: 0 <= i < |ends| ==> ends[i].transcript == TranscriptAfter(initial, turns, responses, i + 1)
  }

  lemma {:induction false} TranscriptPrefix(initial: seq<Message>, turns: seq<Turn>, responses: seq<seq<Attempt>>,
                                            turns': seq<Turn>, responses': seq<seq<Attempt>>, n: nat)
    requires turns <= turns' && responses <= responses' && n <= |turns| && n <= |responses|
    ensures TranscriptAfter(initial, turns', responses', n) == TranscriptAfter(initial, turns, responses, n)
    decreases n
  {
    hide Based, Injected, Results, ExchangesOf;
    if n > 0 {
      TranscriptPrefix(initial, turns, responses, turns', responses', n - 1);
      assert turns'[n - 1] == turns[n - 1] && responses'[n - 1] == responses[n - 1];
    }
  }

  lemma {:induction false} ResponseKeepsTold(initial: seq<Message>, turns: seq<Turn>, ends: seq<TurnEndState>,
                                             responses: seq<seq<Attempt>>, tried: seq<Attempt>)
    requires AllTold(initial, turns, ends, responses)
    ensures AllTold(initial, turns, ends, responses + [tried])
    ensures TranscriptAfter(initial, turns, responses + [tried], |turns|) == TranscriptAfter(initial, turns, responses, |turns|)
  {
    hide TranscriptAfter;
    TranscriptPrefix(initial, turns, responses, turns, responses + [tried], |turns|);
    forall i | 0 <= i < |ends|
      ensures ends[i].transcript == TranscriptAfter(initial, turns, responses + [tried], i + 1)
    {
      TranscriptPrefix(initial, turns, responses, turns, responses + [tried], i + 1);
    }
  }

  /** What the transcript must be just before the turn_end of `t`. */
  predicate Tells(initial: seq<Message>, turns: seq<Turn>, responses: seq<seq<Attempt>>, t: Turn, transcript: seq<Message>)
    requires |responses| == |turns| + 1
  {
    transcript
    == Based(TranscriptAfter(initial, turns, responses, |turns|) + Injected(t.deliveries), responses[|turns|])
       + [t.spoken.final] + Results(ExchangesOf(t.part))
  }

  lemma {:induction false} TurnEndTells(initial: seq<Message>, turns: seq<Turn>, ends: seq<TurnEndState>,
                                        responses: seq<seq<Attempt>>, t: Turn, e: TurnEndState)
    requires AllTold(initial, turns, ends, responses) && |responses| == |turns| + 1
    requires Tells(initial, turns, responses, t, e.transcript)
    ensures AllTold(initial, turns + [t], ends + [e], responses)
    ensures e.transcript == TranscriptAfter(initial, turns + [t], responses, |turns| + 1)
  {
    hide Results, ExchangesOf, Injected, Based;
    var turns', n := turns + [t], |turns|;
    TranscriptPrefix(initial, turns, responses, turns', responses, n);
    assert turns'[n] == t;
    forall i | 0 <= i < |ends| + 1
      ensures (ends + [e])[i].transcript == TranscriptAfter(initial, turns', responses, i + 1)
    {
      if i < n { TranscriptPrefix(initial, turns, responses, turns', responses, i + 1); }
    }
  }

  // ---- dropped failures ---------------------------------------------------------------------------

  /** A failed message that recovery dropped from the context when the transcript
      had `size` messages. */
  datatype Drop = Drop(message: Message, size: nat)

  predicate IsDropped(transcript: seq<Message>, drops: seq<Drop>, p: nat)
    requires p < |transcript|
  {
    exists k :: 0 <= k < |drops| && p < drops[k].size && drops[k].message.identity == transcript[p].identity
  }

  function Marks(transcript: seq<Message>, drops: seq<Drop>): seq<bool> {
    seq(|transcript|, p requires 0 <= p < |transcript| => !IsDropped(transcript, drops, p))
  }

  /** The context is exactly the transcript without what has been dropped. */
  predicate Agree(context: seq<Message>, transcript: seq<Message>, drops: seq<Drop>) {
    && (forall k :: 0 <= k < |drops| ==> drops[k].size <= |transcript|)
    && context == Kept(transcript, Marks(transcript, drops))
  }

  lemma {:induction false} AgreeFresh(transcript: seq<Message>)
    ensures Agree(transcript, transcript, [])
  {
    assert Marks(transcript, []) == AllTrue(|transcript|);
    KeptAll(transcript);
  }

  lemma {:induction false} MarksNext(transcript: seq<Message>, drops: seq<Drop>, m: Message)
    requires forall k :: 0 <= k < |drops| ==> drops[k].size <= |transcript|
    ensures Marks(transcript + [m], drops) == Marks(transcript, drops) + [true]
  {
    forall p | 0 <= p < |transcript|
      ensures IsDropped(transcript + [m], drops, p) <==> IsDropped(transcript, drops, p)
    {
      assert (transcript + [m])[p] == transcript[p];
    }
    assert !IsDropped(transcript + [m], drops, |transcript|);
  }

  lemma {:induction false} AgreeNext(context: seq<Message>, transcript: seq<Message>, drops: seq<Drop>, m: Message)
    requires Agree(context, transcript, drops)
    ensures Agree(context + [m], transcript + [m], drops)
  {
    hide Kept, IsDropped, Marks;
    MarksNext(transcript, drops, m);
    assert |Marks(transcript, drops)| == |transcript| by { MarksSize(transcript, drops); }
    KeptNext(transcript, Marks(transcript, drops), m);
  }

  lemma {:induction false} MarksSize(transcript: seq<Message>, drops: seq<Drop>)
    ensures |Marks(transcript, drops)| == |transcript|
  {}

  /** Dropping a message from the context is dropping it from the transcript as it
      is now. */
  lemma {:induction false} AgreeDropped(context: seq<Message>, transcript: seq<Message>, drops: seq<Drop>, m: Message)
    requires Agree(context, transcript, drops)
    ensures Agree(Without(context, m.identity), transcript, drops + [Drop(m, |transcript|)])
  {
    hide Kept, Without;
    var drops' := drops + [Drop(m, |transcript|)];
    FilterUnmarks(transcript, Marks(transcript, drops), m.identity);
    forall p | 0 <= p < |transcript|
      ensures IsDropped(transcript, drops', p) <==> IsDropped(transcript, drops, p) || transcript[p].identity == m.identity
    {
      if IsDropped(transcript, drops, p) {
        var k :| 0 <= k < |drops| && p < drops[k].size && drops[k].message.identity == transcript[p].identity;
        assert drops'[k] == drops[k];
      }
      assert drops'[|drops|] == Drop(m, |transcript|);
    }
    assert Marks(transcript, drops') == Unmarked(transcript, Marks(transcript, drops), m.identity);
  }

  // ---- the state at every turn_end ----------------------------------------------------------------

  /** The failures of turns `from` to `n`: a run goes on after each of them only by
      recovering it, with the transcript as it was at the turn's end. */
  function Drops(turns: seq<Turn>, ends: seq<TurnEndState>, from: nat, n: nat): seq<Drop>
    requires n <= |turns| == |ends|
  {
    if n <= from then []
    else
      var before := Drops(turns, ends, from, n - 1);
      var final := turns[n - 1].spoken.final;
      if final.stop.Error? then before + [Drop(final, |ends[n - 1].transcript|)] else before
  }

  /** At the end of turn `i` the context is the transcript without the failed
      messages of the turns since the last adoption, all of them recovered. */
  predicate EndAgrees(turns: seq<Turn>, ends: seq<TurnEndState>, responses: seq<seq<Attempt>>, i: nat)
    requires i < |turns| == |ends| && i < |responses|
  {
    Agree(ends[i].context, ends[i].transcript, Drops(turns, ends, LastAdoption(responses[..i + 1]), i))
  }

  predicate AllAgree(turns: seq<Turn>, ends: seq<TurnEndState>, responses: seq<seq<Attempt>>) {
    && |turns| == |ends| <= |responses|
    && forall i :: 0 <= i < |ends| ==> EndAgrees(turns, ends, responses, i)
  }

  lemma {:induction false} DropsPrefix(turns: seq<Turn>, ends: seq<TurnEndState>, from: nat, n: nat, t: Turn, e: TurnEndState)
    requires n <= |turns| == |ends|
    ensures Drops(turns + [t], ends + [e], from, n) == Drops(turns, ends, from, n)
    decreases n
  {
    if n > from {
      DropsPrefix(turns, ends, from, n - 1, t, e);
      assert (turns + [t])[n - 1] == turns[n - 1] && (ends + [e])[n - 1] == ends[n - 1];
    }
  }

  lemma {:induction false} ResponseKeepsAll(turns: seq<Turn>, ends: seq<TurnEndState>, responses: seq<seq<Attempt>>, tried: seq<Attempt>)
    requires AllAgree(turns, ends, responses)
    ensures AllAgree(turns, ends, responses + [tried])
  {
    hide Agree, Drops, LastAdoption;
    forall i | 0 <= i < |ends|
      ensures EndAgrees(turns, ends, responses + [tried], i)
    {
      assert EndAgrees(turns, ends, responses, i);
      assert (responses + [tried])[..i + 1] == responses[..i + 1];
    }
  }

  /** A turn_end at which context and transcript agree is one more. */
  lemma {:induction false} TurnEndKeepsAll(turns: seq<Turn>, ends: seq<TurnEndState>, responses: seq<seq<Attempt>>,
                                           drops: seq<Drop>, t: Turn, e: TurnEndState)
    requires AllAgree(turns, ends, responses) && |responses| == |turns| + 1 && Agree(e.context, e.transcript, drops)
    requires drops == Drops(turns, ends, LastAdoption(responses), |turns|)
    ensures AllAgree(turns + [t], ends + [e], responses)
    ensures drops == Drops(turns + [t], ends + [e], LastAdoption(responses), |turns|)
  {
    hide Agree, Drops, LastAdoption;
    var turns', ends' := turns + [t], ends + [e];
    var n := |turns|;
    forall i | 0 <= i < |ends'|
      ensures EndAgrees(turns', ends', responses, i)
    {
      var from := LastAdoption(responses[..i + 1]);
      DropsPrefix(turns, ends, from, i, t, e);
      if i < n {
        assert EndAgrees(turns, ends, responses, i);
        assert ends'[i] == ends[i];
      } else {
        assert responses[..n + 1] == responses;
      }
    }
    DropsPrefix(turns, ends, LastAdoption(responses), n, t, e);
  }

  /** What the drops are: the messages, as they then were, of the failed turns in
      between. */
  lemma {:induction false} DropsAre(turns: seq<Turn>, ends: seq<TurnEndState>, from: nat, n: nat, d: Drop)
    requires n <= |turns| == |ends|
    ensures d in Drops(turns, ends, from, n)
            <==> exists j :: from <= j < n && turns[j].spoken.final.stop.Error?
                             && d == Drop(turns[j].spoken.final, |ends[j].transcript|)
    decreases n
  {
    if n > from {
      DropsAre(turns, ends, from, n - 1, d);
      var before := Drops(turns, ends, from, n - 1);
      var final := turns[n - 1].spoken.final;
      if final.stop.Error? { assert (before + [Drop(final, |ends[n - 1].transcript|)])[|before|] in Drops(turns, ends, from, n); }
    }
  }

  /** A turn failed between the last adoption and the end of turn `i`, and its
      message is the one at `p`, which was in the transcript then. */
  ghost predicate FailedSince(turns: seq<Turn>, ends: seq<TurnEndState>, from: nat, i: nat, p: nat)
    requires i < |turns| == |ends| && p < |ends[i].transcript|
  {
    exists j :: from <= j < i && turns[j].spoken.final.stop.Error? && p < |ends[j].transcript|
                && turns[j].spoken.final.identity == ends[i].transcript[p].identity
  }

  /** At every turn_end the context is the transcript with exactly those messages
      left out that failed in an earlier turn since the last adoption. */
  lemma {:induction false} ContextIsTranscript(turns: seq<Turn>, ends: seq<TurnEndState>, responses: seq<seq<Attempt>>, i: nat)
    requires AllAgree(turns, ends, responses) && i < |ends|
    ensures exists marks: seq<bool> ::
              && |marks| == |ends[i].transcript| && ends[i].context == Kept(ends[i].transcript, marks)
              && forall p :: 0 <= p < |marks| ==>
                   (!marks[p] <==> FailedSince(turns, ends, LastAdoption(responses[..i + 1]), i, p))
  {
    hide Drops, LastAdoption, Kept, FailedSince;
    var from := LastAdoption(responses[..i + 1]);
    var drops := Drops(turns, ends, from, i);
    assert EndAgrees(turns, ends, responses, i);
    var marks := Marks(ends[i].transcript, drops);
    forall p | 0 <= p < |marks|
      ensures !marks[p] <==> FailedSince(turns, ends, from, i, p)
    {
      DroppedIffFailed(turns, ends, from, i, p);
    }
  }

  lemma {:induction false} DroppedIffFailed(turns: seq<Turn>, ends: seq<TurnEndState>, from: nat, i: nat, p: nat)
    requires i < |turns| == |ends| && p < |ends[i].transcript|
    ensures IsDropped(ends[i].transcript, Drops(turns, ends, from, i), p) <==> FailedSince(turns, ends, from, i, p)
  {
    hide Drops;
    var drops := Drops(turns, ends, from, i);
    if IsDropped(ends[i].transcript, drops, p) {
      var k :| 0 <= k < |drops| && p < drops[k].size && drops[k].message.identity == ends[i].transcript[p].identity;
      DropsAre(turns, ends, from, i, drops[k]);
    }
    if FailedSince(turns, ends, from, i, p) {
      var j :| from <= j < i && turns[j].spoken.final.stop.Error? && p < |ends[j].transcript|
               && turns[j].spoken.final.identity == ends[i].transcript[p].identity;
      var d := Drop(turns[j].spoken.final, |ends[j].transcript|);
      DropsAre(turns, ends, from, i, d);
      var k :| 0 <= k < |drops| && drops[k] == d;
    }
  }
}
