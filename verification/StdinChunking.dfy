/** When the stdin buffer's output does not depend on chunk boundaries. */
module StdinChunking {
  import opened StdinSequences
  import opened StdinBuffers

  /** While a paste-start marker at `i` is still arriving, the tail kept from
      before it must not turn into a complete sequence. It never does when the
      marker starts on a sequence boundary, because then there is no tail. */
  predicate MarkerHolds(text: Text, i: nat)
    requires i <= |text|
  {
    var tail := Extract(text[..i]).remainder;
    forall k :: 1 <= k <= 5 ==> IsCompleteSequence(tail + PASTE_START[..k]) == Incomplete
  }

  predicate SafeOutside(text: Text)
    decreases |text|, 1
  {
    match IndexOf(text, PASTE_START)
    case None => true
    case Some(i) => MarkerHolds(text, i) && SafeInPaste(text[i + 6..])
  }

  predicate SafeInPaste(collected: Text)
    decreases |collected|, 0
  {
    match IndexOf(collected, PASTE_END)
    case None => true
    case Some(e) => SafeOutside(collected[e + 6..])
  }

  /** Every paste-start marker the stream opens a paste with holds. */
  predicate Chunkable(st: Snapshot, str: Text) {
    if st.pasteMode then SafeInPaste(st.pasteBuffer + str) else SafeOutside(st.buffer + str)
  }

  // ---- occurrences ------------------------------------------------------------

  lemma {:induction false} OccursInPrefix(a: Text, b: Text, pattern: Text, i: nat)
    ensures i + |pattern| <= |a| ==> OccursAt(a + b, pattern, i) == OccursAt(a, pattern, i)
  {
    if i + |pattern| <= |a| {
      assert (a + b)[i..i + |pattern|] == a[i..i + |pattern|];
    }
  }

  lemma {:induction false} OccursInSuffix(a: Text, b: Text, pattern: Text, i: nat)
    ensures OccursAt(a + b, pattern, |a| + i) == OccursAt(b, pattern, i)
  {
    assert (a + b)[|a|..] == b;
    if i + |pattern| <= |b| {
      assert (a + b)[|a|..][i..i + |pattern|] == (a + b)[|a| + i..|a| + i + |pattern|];
    }
  }

  lemma {:induction false} IndexOfPrefix(a: Text, b: Text, pattern: Text)
    requires IndexOf(a, pattern).Some?
    ensures IndexOf(a + b, pattern) == IndexOf(a, pattern)
  {
    hide IndexFrom;
    var i := IndexOf(a, pattern).value;
    forall j: nat | j <= i
      ensures OccursAt(a + b, pattern, j) == OccursAt(a, pattern, j)
    {
      OccursInPrefix(a, b, pattern, j);
    }
  }

  lemma {:induction false} IndexOfSuffix(a: Text, b: Text, pattern: Text)
    requires IndexOf(a + b, pattern).Some? && |a| <= IndexOf(a + b, pattern).value
    ensures IndexOf(b, pattern) == Some(IndexOf(a + b, pattern).value - |a|)
  {
    hide IndexFrom, OccursAt;
    var i := IndexOf(a + b, pattern).value;
    forall j: nat | j <= i - |a|
      ensures OccursAt(a + b, pattern, |a| + j) == OccursAt(b, pattern, j)
    {
      OccursInSuffix(a, b, pattern, j);
    }
    assert OccursAt(b, pattern, i - |a|);
    forall j: nat | j < i - |a|
      ensures !OccursAt(b, pattern, j)
    {
      assert !OccursAt(a + b, pattern, |a| + j);
    }
  }

  /** A text cut before the end of the first marker contains no marker. */
  lemma {:induction false} NoMarkerYet(text: Text, p: nat, pattern: Text)
    requires p <= |text|
    requires IndexOf(text, pattern).Some? ==> p < IndexOf(text, pattern).value + |pattern|
    ensures IndexOf(text[..p], pattern).None?
  {
    if IndexOf(text[..p], pattern).Some? {
      assert text[..p] + text[p..] == text;
      IndexOfPrefix(text[..p], text[p..], pattern);
    }
  }

  // ---- resuming ---------------------------------------------------------------

  lemma {:induction false} EmitAllCommutes(st: Snapshot, buffer: Text, timer: bool, sequences: seq<Text>)
    ensures EmitAll(st.(buffer := buffer, timerArmed := timer), sequences)
            == EmitAll(st, sequences).(buffer := buffer, timerArmed := timer)
    decreases |sequences|
  {
    hide KittyPrintable;
    if sequences != [] { EmitAllCommutes(EmitData(st, sequences[0]), buffer, timer, sequences[1..]); }
  }

  lemma {:induction false} KeptThenKept(st: Snapshot, e: Extracted, e2: Extracted)
    requires Idle(st)
    ensures Kept(Kept(st, e).(timerArmed := false), e2) == Kept(st, Join(e.sequences, e2))
  {
    hide EmitAll;
    var mid := EmitAll(st, e.sequences);
    EmitAllCommutes(st, e.remainder, false, e.sequences);
    EmitAllCommutes(st, e2.remainder, false, e.sequences + e2.sequences);
    EmitAllCommutes(mid, e2.remainder, false, e2.sequences);
    EmitAllAppend(st, e.sequences, e2.sequences);
    EmitAllTouchesOnlyOutput(st, e.sequences);
  }

  lemma {:induction false} KeptThenOpened(st: Snapshot, e: Extracted, before: Text, rest: Text)
    requires Idle(st)
    requires Extract(before).sequences == e.sequences + Extract(rest).sequences
    ensures Opened(Kept(st, e).(timerArmed := false), rest) == Opened(st, before)
  {
    hide EmitAll, Extract;
    var mid, more := EmitAll(st, e.sequences), Extract(rest).sequences;
    EmitAllCommutes(st, e.remainder, false, e.sequences);
    EmitAllCommutes(st, [], false, e.sequences + more);
    EmitAllCommutes(mid, [], false, more);
    EmitAllAppend(st, e.sequences, more);
    EmitAllTouchesOnlyOutput(st, e.sequences);
  }

  lemma {:induction false} OpenedIsIdle(st: Snapshot, before: Text)
    requires Idle(st)
    ensures Idle(Opened(st, before))
  {
    hide EmitAll, Extract;
    EmitAllTouchesOnlyOutput(st.(buffer := []), Extract(before).sequences);
  }

  lemma {:induction false} KeptIsOutside(st: Snapshot, e: Extracted)
    requires Idle(st)
    ensures var st' := Kept(st, e);
            !st'.pasteMode && st'.pasteBuffer == [] && st'.buffer == e.remainder
  {
    hide EmitAll;
    EmitAllTouchesOnlyOutput(st.(buffer := e.remainder), e.sequences);
  }

  /** The marker and what follows it, in a text cut inside the marker. */
  lemma {:induction false} MarkerPart(text: Text, i: nat, k: nat)
    requires OccursAt(text, PASTE_START, i) && k <= 6
    ensures text[..i + k] == text[..i] + PASTE_START[..k]
  {
    assert text[i..i + 6] == PASTE_START;
    assert text[i..i + k] == text[i..i + 6][..k];
    assert text[..i + k] == text[..i] + text[i..i + k];
  }

  /** An incomplete tail stays a tail while the marker's units arrive, as long
      as none of them completes it. */
  lemma {:induction false} TailGrows(tail: Text, more: Text)
    requires IsTail(tail) && (tail == [] ==> [ESC] <= more || more == [])
    requires forall j :: 1 <= j <= |more| ==> IsCompleteSequence(tail + more[..j]) == Incomplete
    ensures IsTail(tail + more)
  {
    hide IsCompleteSequence;
    var t := tail + more;
    forall n | 1 <= n <= |t|
      ensures IsCompleteSequence(t[..n]) == Incomplete
    {
      if n <= |tail| {
        assert t[..n] == tail[..n];
      } else {
        assert t[..n] == tail + more[..n - |tail|];
      }
    }
  }

  lemma {:induction false} PartialMarker(text: Text, i: nat, k: nat)
    requires IndexOf(text, PASTE_START) == Some(i) && MarkerHolds(text, i) && k <= 5
    ensures var e := Extract(text[..i]);
            Extract(text[..i + k]) == Extracted(e.sequences, e.remainder + PASTE_START[..k])
  {
    hide IsCompleteSequence, Extract, IsTail, IndexFrom;
    var e := Extract(text[..i]);
    ExtractIsExact(text[..i]);
    assert forall j :: 1 <= j <= k ==> PASTE_START[..k][..j] == PASTE_START[..j];
    TailGrows(e.remainder, PASTE_START[..k]);
    TailIsFixed(e.remainder + PASTE_START[..k]);
    ExtractResumes(text[..i], PASTE_START[..k]);
    MarkerPart(text, i, k);
    JoinNone(e.sequences, e, e.remainder + PASTE_START[..k]);
  }

  /** Outside a paste: stopping after `a` and continuing with `b` is the same as
      seeing both at once. */
  lemma {:induction false} OutsideResumes(st: Snapshot, a: Text, b: Text)
    requires Idle(st) && b != [] && SafeOutside(a + b)
    ensures SafeOutside(a)
    ensures Step(Outside(st, a), b) == Outside(st, a + b)
    decreases |a|, 1
  {
    hide IsCompleteSequence, Extract, IndexFrom, Kept, Opened;
    match IndexOf(a, PASTE_START)
    case Some(i) =>
      IndexOfPrefix(a, b, PASTE_START);
      assert (a + b)[..i] == a[..i] && (a + b)[i + 6..] == a[i + 6..] + b;
      OpenedIsIdle(st, a[..i]);
      PasteResumes(Opened(st, a[..i]), a[i + 6..], b);
    case None =>
      KeptIsOutside(st, Extract(a));
      if IndexOf(a + b, PASTE_START).None? {
        TailResumes(st, a, b);
      } else {
        MarkerResumes(st, a, b);
      }
  }

  lemma {:induction false} TailResumes(st: Snapshot, a: Text, b: Text)
    requires Idle(st) && IndexOf(a + b, PASTE_START).None?
    ensures var e := Extract(a);
            Outside(Kept(st, e).(timerArmed := false), e.remainder + b) == Outside(st, a + b)
  {
    hide Extract, IndexFrom, Kept, Opened, IsTail, AllTokens;
    var e := Extract(a);
    ExtractIsExact(a);
    assert a + b == Concat(e.sequences) + (e.remainder + b);
    NoMarkerInSuffix(a + b, Concat(e.sequences), e.remainder + b, PASTE_START);
    ExtractResumes(a, b);
    KeptThenKept(st, e, Extract(e.remainder + b));
  }

  lemma {:induction false} MarkerResumes(st: Snapshot, a: Text, b: Text)
    requires Idle(st) && IndexOf(a, PASTE_START).None?
    requires IndexOf(a + b, PASTE_START).Some? && SafeOutside(a + b)
    ensures var e := Extract(a);
            Outside(Kept(st, e).(timerArmed := false), e.remainder + b) == Outside(st, a + b)
  {
    hide Extract, IndexFrom, Kept, Opened, IsTail, AllTokens, InPaste, IsCompleteSequence, MarkerHolds, SafeInPaste;
    var text, e := a + b, Extract(a);
    var i := IndexOf(text, PASTE_START).value;
    var x, y := Concat(e.sequences), e.remainder + b;
    ExtractIsExact(a);
    if |a| <= i {
      CutBeforeMarker(a, b, i);
    } else {
      InsideMarker(a, b, i);
      CutInsideMarker(a, b, i);
    }
    assert text == x + y;
    IndexOfSuffix(x, y, PASTE_START);
    var d := i - |x|;
    assert y[d + 6..] == text[i + 6..];
    KeptThenOpened(st, e, text[..i], y[..d]);
  }

  lemma {:induction false} InsideMarker(a: Text, b: Text, i: nat)
    requires IndexOf(a, PASTE_START).None? && IndexOf(a + b, PASTE_START) == Some(i)
    ensures |a| < i + 6
  {
    hide IndexFrom;
    OccursInPrefix(a, b, PASTE_START, i);
  }

  lemma {:induction false} CutBeforeMarker(a: Text, b: Text, i: nat)
    requires |a| <= i <= |a + b|
    ensures var e := Extract(a);
            var d := i - |Concat(e.sequences)|;
            && 0 <= d <= |e.remainder + b|
            && Extract((a + b)[..i]).sequences == e.sequences + Extract((e.remainder + b)[..d]).sequences
  {
    hide Extract, IsTail, AllTokens;
    var e := Extract(a);
    ExtractIsExact(a);
    ExtractResumes(a, (a + b)[|a|..i]);
    assert (a + b)[..i] == a + (a + b)[|a|..i];
    assert (e.remainder + b)[..i - |Concat(e.sequences)|] == e.remainder + (a + b)[|a|..i];
  }

  lemma {:induction false} CutInsideMarker(a: Text, b: Text, i: nat)
    requires IndexOf(a + b, PASTE_START) == Some(i)
    requires i < |a| < i + 6 && MarkerHolds(a + b, i)
    ensures var e := Extract(a);
            var d := i - |Concat(e.sequences)|;
            && 0 <= d <= |e.remainder + b|
            && Extract((a + b)[..i]).sequences == e.sequences + Extract((e.remainder + b)[..d]).sequences
  {
    hide Extract, IsTail, AllTokens, MarkerHolds, IndexFrom;
    var text, k := a + b, |a| - i;
    var e, e' := Extract(a), Extract(text[..i]);
    PartialMarker(text, i, k);
    assert text[..i + k] == a;
    ExtractIsExact(a);
    ExtractIsExact(text[..i]);
    var d := i - |Concat(e.sequences)|;
    assert (e.remainder + b)[..d] == e'.remainder;
    TailIsFixed(e'.remainder);
    assert e.sequences + [] == e.sequences;
  }

  /** The same inside a paste. */
  lemma {:induction false} PasteResumes(st: Snapshot, a: Text, b: Text)
    requires !st.timerArmed && b != [] && SafeInPaste(a + b)
    ensures SafeInPaste(a)
    ensures Step(InPaste(st, a), b) == InPaste(st, a + b)
    decreases |a|, 0
  {
    hide Extract, IndexFrom, Kept, Opened, MarkerHolds;
    match IndexOf(a, PASTE_END)
    case None =>
      assert [] + b == b;
    case Some(e) =>
      IndexOfPrefix(a, b, PASTE_END);
      assert (a + b)[..e] == a[..e] && (a + b)[e + 6..] == a[e + 6..] + b;
      if a[e + 6..] == [] {
        assert [] + b == b;
      } else {
        OutsideResumes(Closed(st, a[..e]), a[e + 6..], b);
      }
  }

  // ---- a split that shows ------------------------------------------------------

  /** How many of the marker's units it takes to complete the tail before it. */
  lemma {:induction false} FirstBreak(text: Text, i: nat) returns (k: nat)
    requires i <= |text| && !MarkerHolds(text, i)
    ensures 1 <= k <= 5
    ensures var tail := Extract(text[..i]).remainder;
            && IsCompleteSequence(tail + PASTE_START[..k]) != Incomplete
            && forall j :: 1 <= j < k ==> IsCompleteSequence(tail + PASTE_START[..j]) == Incomplete
  {
    hide IsCompleteSequence, Extract;
    var tail := Extract(text[..i]).remainder;
    k := 1;
    while IsCompleteSequence(tail + PASTE_START[..k]) == Incomplete
      invariant 1 <= k <= 5
      invariant forall j :: 1 <= j < k ==> IsCompleteSequence(tail + PASTE_START[..j]) == Incomplete
      invariant exists j :: k <= j <= 5 && IsCompleteSequence(tail + PASTE_START[..j]) != Incomplete
      decreases 5 - k
    {
      k := k + 1;
    }
  }

  /** No part of the marker alone is a sequence. */
  lemma {:induction false} MarkerAloneIsIncomplete(k: nat)
    requires 1 <= k <= 5
    ensures IsCompleteSequence([] + PASTE_START[..k]) == Incomplete
  {
    assert [] + PASTE_START[..k] == PASTE_START[..k];
  }

  lemma {:induction false} BrokenExtract(text: Text, i: nat, k: nat)
    requires IndexOf(text, PASTE_START) == Some(i) && 1 <= k <= 5
    requires var tail := Extract(text[..i]).remainder;
             && IsCompleteSequence(tail + PASTE_START[..k]) != Incomplete
             && forall j :: 1 <= j < k ==> IsCompleteSequence(tail + PASTE_START[..j]) == Incomplete
    ensures var e := Extract(text[..i]);
            var whole := e.remainder + PASTE_START[..k];
            && |whole| >= 2 && e.remainder != []
            && Extract(text[..i + k]) == Extracted(e.sequences + [whole], [])
  {
    hide Extract, IsTail, AllTokens, IndexFrom, IsCompleteSequence;
    var e := Extract(text[..i]);
    ExtractIsExact(text[..i]);
    if e.remainder == [] { MarkerAloneIsIncomplete(k); }
    assert PASTE_START[..k - 1] + [PASTE_START[k - 1]] == PASTE_START[..k];
    var partial := PASTE_START[..k - 1];
    forall j | 1 <= j <= |partial|
      ensures IsCompleteSequence(e.remainder + partial[..j]) == Incomplete
    {
      assert partial[..j] == PASTE_START[..j];
    }
    CompletedTail(e.remainder, PASTE_START[..k - 1], PASTE_START[k - 1]);
    assert e.remainder + PASTE_START[..k - 1] + [PASTE_START[k - 1]] == e.remainder + PASTE_START[..k];
    TokenAlone(e.remainder + PASTE_START[..k]);
    ExtractResumes(text[..i], PASTE_START[..k]);
    MarkerPart(text, i, k);
  }

  lemma {:induction false} CompletedTail(tail: Text, more: Text, last: Code)
    requires IsTail(tail) && tail != []
    requires forall j :: 1 <= j <= |more| ==> IsCompleteSequence(tail + more[..j]) == Incomplete
    requires IsCompleteSequence(tail + (more + [last])) != Incomplete
    ensures IsToken(tail + more + [last])
  {
    hide IsTail;
    TailGrows(tail, more);
    TailToToken(tail + more, last) by {
      assert tail + (more + [last]) == tail + more + [last];
    }
  }

  lemma {:induction false} TailToToken(tail: Text, last: Code)
    requires IsTail(tail) && tail != [] && IsCompleteSequence(tail + [last]) != Incomplete
    ensures IsToken(tail + [last])
  {
    var t := tail + [last];
    forall n | 1 <= n < |t|
      ensures IsCompleteSequence(t[..n]) == Incomplete
    {
      assert t[..n] == tail[..n];
    }
  }

  /** A marker that does not hold: cutting the stream inside it hands the tail
      and part of the marker out as data, and no paste begins there. */
  lemma {:induction false} BrokenMarkerShows(st: Snapshot, text: Text, i: nat, k: nat)
    requires Idle(st) && IndexOf(text, PASTE_START) == Some(i) && 1 <= k <= 5
    requires var e := Extract(text[..i]);
             var whole := e.remainder + PASTE_START[..k];
             |whole| >= 2 && Extract(text[..i + k]) == Extracted(e.sequences + [whole], [])
    ensures Step(Outside(st, text[..i + k]), text[i + k..]).events != Outside(st, text).events
  {
    hide Extract, IndexFrom, InPaste, Step, EmitAll, IsTail;
    var e := Extract(text[..i]);
    var whole := e.remainder + PASTE_START[..k];
    var left := Outside(st, text[..i + k]);
    NoMarkerYet(text, i + k, PASTE_START);
    var st' := st.(buffer := []);
    var before := EmitAll(st', e.sequences);
    EmitAllTouchesOnlyOutput(st', e.sequences);
    EmitAllAppend(st', e.sequences, [whole]);
    EmitOne(before, whole);
    assert left.events == before.events + [Data(whole)];
    OutsideSettles(st, text[..i + k]);
    StepKeepsSettled(left, text[i + k..]);
    var n := |before.events|;
    assert Step(left, text[i + k..]).events[n] == Data(whole);
    PasteOpensWith(Opened(st, text[..i]), text[i + 6..]);
  }

  lemma {:induction false} EmitOne(st: Snapshot, sequence: Text)
    requires |sequence| >= 2
    ensures EmitAll(st, [sequence]).events == st.events + [Data(sequence)]
  {
    hide KittyPrintable;
    assert EmitAll(st, [sequence]) == EmitAll(EmitData(st, sequence), []);
  }

  /** The first event after entering a paste, if any, is a paste. */
  lemma {:induction false} PasteOpensWith(st: Snapshot, collected: Text)
    requires !st.timerArmed
    ensures var events := InPaste(st, collected).events;
            && st.events <= events
            && (|events| > |st.events| ==> events[|st.events|].Paste?)
  {
    hide Extract, IndexFrom, Outside;
    match IndexOf(collected, PASTE_END)
    case None =>
    case Some(e) =>
      if collected[e + 6..] != [] { OutsideSettles(Closed(st, collected[..e]), collected[e + 6..]); }
  }

  lemma {:induction false} OutsideBreaks(st: Snapshot, kept: Text, text: Text) returns (p: nat)
    requires Idle(st) && kept <= text && IsTail(kept)
    requires IndexOf(kept, PASTE_START).None?
    requires !SafeOutside(text)
    ensures |kept| < p < |text|
    ensures Step(Outside(st, text[..p]), text[p..]).events != Outside(st, text).events
    decreases |text|, 1
  {
    hide IsCompleteSequence, Extract, IndexFrom, Opened, IsTail, Step, InPaste, Kept, MarkerHolds, SafeInPaste;
    var i := IndexOf(text, PASTE_START).value;
    assert kept + text[|kept|..] == text;
    InsideMarker(kept, text[|kept|..], i);
    if !MarkerHolds(text, i) {
      var k := FirstBreak(text, i);
      BrokenExtract(text, i, k);
      p := i + k;
      if p <= |kept| { KeptCannotBreak(kept, text, i, k); }
      BrokenMarkerShows(st, text, i, k);
    } else {
      OpenedIsIdle(st, text[..i]);
      var q := PasteBreaks(Opened(st, text[..i]), text[i + 6..]);
      p := i + 6 + q;
      NoMarkerBefore(text, p, i, PASTE_START);
      assert text[..p][i + 6..] == text[i + 6..][..q] && text[p..] == text[i + 6..][q..];
      assert text[..p][..i] == text[..i];
    }
  }

  /** A kept tail has no complete prefix. */
  lemma {:induction false} KeptCannotBreak(kept: Text, text: Text, i: nat, k: nat)
    requires kept <= text && IsTail(kept) && IndexOf(text, PASTE_START) == Some(i)
    requires 1 <= k <= 5 && i + k <= |kept|
    ensures IsCompleteSequence(Extract(text[..i]).remainder + PASTE_START[..k]) == Incomplete
  {
    hide IsCompleteSequence, Extract, IndexFrom;
    assert text[..i] == kept[..i] && text[..i + k] == kept[..i + k];
    assert forall n :: 1 <= n <= i ==> kept[..i][..n] == kept[..n];
    assert IsTail(kept[..i]);
    TailIsFixed(kept[..i]);
    MarkerPart(text, i, k);
  }

  lemma {:induction false} NoMarkerBefore(text: Text, p: nat, i: nat, pattern: Text)
    requires IndexOf(text, pattern) == Some(i) && i + |pattern| <= p <= |text|
    ensures IndexOf(text[..p], pattern) == Some(i)
  {
    hide IndexFrom;
    assert text[..p][i..i + |pattern|] == text[i..i + |pattern|];
    assert OccursAt(text[..p], pattern, i);
    assert text[..p] + text[p..] == text;
    IndexOfPrefix(text[..p], text[p..], pattern);
  }

  lemma {:induction false} PasteBreaks(st: Snapshot, collected: Text) returns (q: nat)
    requires !st.timerArmed && !SafeInPaste(collected)
    ensures 0 < q < |collected|
    ensures IndexOf(collected, PASTE_END).Some? && q > IndexOf(collected, PASTE_END).value + 6
    ensures Step(InPaste(st, collected[..q]), collected[q..]).events != InPaste(st, collected).events
    decreases |collected|, 0
  {
    hide IndexFrom, Step, Outside, SafeOutside;
    var e := IndexOf(collected, PASTE_END).value;
    var rest := collected[e + 6..];
    assert forall i: nat :: !OccursAt([], PASTE_START, i);
    var p := OutsideBreaks(Closed(st, collected[..e]), [], rest);
    q := e + 6 + p;
    NoMarkerBefore(collected, q, e, PASTE_END);
    assert collected[..q][e + 6..] == rest[..p] && collected[q..] == rest[p..];
    assert collected[..q][..e] == collected[..e];
  }

  // ---- main results -------------------------------------------------------------

  /** Cutting a stream in two never shows, at any place, exactly when every
      paste-start marker in it holds. */
  lemma {:induction false} ChunkIndependence(st: Snapshot, str: Text)
    requires Settled(st)
    ensures Chunkable(st, str) <==>
            forall n :: 0 < n < |str| ==> Step(Step(st, str[..n]), str[n..]) == Step(st, str)
  {
    hide Step, Settled, Chunkable;
    if Chunkable(st, str) {
      forall n | 0 < n < |str|
        ensures Step(Step(st, str[..n]), str[n..]) == Step(st, str)
      {
        assert str[..n] + str[n..] == str;
        TwoChunks(st, str[..n], str[n..]);
      }
    } else {
      var n := SomeSplitShows(st, str);
      assert Step(Step(st, str[..n]), str[n..]) != Step(st, str);
    }
  }

  /** Where to cut a stream with a marker that does not hold. */
  lemma {:induction false} SomeSplitShows(st: Snapshot, str: Text) returns (n: nat)
    requires Settled(st) && !Chunkable(st, str)
    ensures 0 < n < |str|
    ensures Step(Step(st, str[..n]), str[n..]).events != Step(st, str).events
  {
    hide IndexFrom, Outside, InPaste, SafeOutside, SafeInPaste, IsTail;
    var st0 := st.(timerArmed := false);
    if st.pasteMode {
      var collected := st.pasteBuffer + str;
      var q := PasteBreaks(st0, collected);
      var k := |st.pasteBuffer|;
      if q <= k {
        assert collected[..k] == st.pasteBuffer;
        NoMarkerBefore(collected, k, IndexOf(collected, PASTE_END).value, PASTE_END);
      }
      n := q - k;
      StepInPaste(st, str[..n]);
      StepInPaste(st, str);
      assert collected[..q] == st.pasteBuffer + str[..n] && collected[q..] == str[n..];
    } else {
      var text := st.buffer + str;
      var p := OutsideBreaks(st0, st.buffer, text);
      n := p - |st.buffer|;
      assert text[..p] == st.buffer + str[..n] && text[p..] == str[n..];
    }
  }

  lemma {:induction false} StepInPaste(st: Snapshot, str: Text)
    requires st.pasteMode && st.buffer == [] && str != []
    ensures Step(st, str) == InPaste(st.(timerArmed := false), st.pasteBuffer + str)
  {
    hide InPaste, Outside;
    assert [] + str == str;
  }

  lemma {:induction false} TwoChunks(st: Snapshot, a: Text, b: Text)
    requires Settled(st) && a != [] && b != [] && Chunkable(st, a + b)
    ensures Chunkable(st, a)
    ensures Step(Step(st, a), b) == Step(st, a + b)
  {
    hide IndexFrom, Outside, InPaste, SafeOutside, SafeInPaste, IsTail;
    var st0 := st.(timerArmed := false);
    if st.pasteMode {
      assert st.pasteBuffer + (a + b) == (st.pasteBuffer + a) + b;
      PasteResumes(st0, st.pasteBuffer + a, b);
      StepInPaste(st, a);
      StepInPaste(st, a + b);
    } else {
      assert st.buffer + (a + b) == (st.buffer + a) + b;
      OutsideResumes(st0, st.buffer + a, b);
    }
  }

  /** Hence for every way to cut it into nonempty chunks. */
  lemma {:induction false} AnyChunking(st: Snapshot, chunks: seq<Text>)
    requires Settled(st)
    requires chunks != [] && forall c :: c in chunks ==> c != []
    requires Chunkable(st, Concat(chunks))
    ensures Steps(st, chunks) == Step(st, Concat(chunks))
    decreases |chunks|
  {
    hide Step, Settled, Chunkable;
    var front, c := chunks[..|chunks| - 1], chunks[|chunks| - 1];
    assert front + [c] == chunks && c in chunks;
    StepsLast(st, front, c);
    ConcatLast(front, c);
    if front == [] {
      assert [] + c == c;
    } else {
      forall f | f in front
        ensures f != []
      {
        assert f in chunks;
      }
      assert front[0] in front;
      TwoChunks(st, Concat(front), c);
      AnyChunking(st, front);
    }
  }

  lemma {:induction false} StepsLast(st: Snapshot, front: seq<Text>, c: Text)
    ensures Steps(st, front + [c]) == Step(Steps(st, front), c)
    decreases |front|
  {
    hide Step;
    if front == [] {
      assert Steps(st, [c]) == Steps(Step(st, c), []);
    } else {
      assert (front + [c])[1..] == front[1..] + [c];
      StepsLast(Step(st, front[0]), front[1..], c);
    }
  }

  lemma {:induction false} ConcatLast(front: seq<Text>, c: Text)
    ensures Concat(front + [c]) == Concat(front) + c
    decreases |front|
  {
    if front == [] {
      assert Concat([c]) == c + Concat([]);
    } else {
      assert (front + [c])[1..] == front[1..] + [c];
      ConcatLast(front[1..], c);
    }
  }

  /** The case the class was written for: every marker on a sequence boundary. */
  lemma {:induction false} MarkerOnBoundaryHolds(text: Text, i: nat)
    requires i <= |text| && Extract(text[..i]).remainder == []
    ensures MarkerHolds(text, i)
  {
    hide Extract, IsCompleteSequence;
    forall k | 1 <= k <= 5
      ensures IsCompleteSequence([] + PASTE_START[..k]) == Incomplete
    {
      MarkerAloneIsIncomplete(k);
    }
  }

  /** Every marker that opens a paste starts on a sequence boundary: what is in
      front of it is whole sequences. */
  predicate BoundariesOutside(text: Text)
    decreases |text|, 1
  {
    match IndexOf(text, PASTE_START)
    case None => true
    case Some(i) => Extract(text[..i]).remainder == [] && BoundariesInPaste(text[i + 6..])
  }

  predicate BoundariesInPaste(collected: Text)
    decreases |collected|, 0
  {
    match IndexOf(collected, PASTE_END)
    case None => true
    case Some(e) => BoundariesOutside(collected[e + 6..])
  }

  predicate OnBoundaries(st: Snapshot, str: Text) {
    if st.pasteMode then BoundariesInPaste(st.pasteBuffer + str) else BoundariesOutside(st.buffer + str)
  }

  lemma {:induction false} BoundariesAreSafe(text: Text)
    requires BoundariesOutside(text)
    ensures SafeOutside(text)
    decreases |text|, 1
  {
    hide Extract;
    var start := IndexOf(text, PASTE_START);
    if start.Some? {
      MarkerOnBoundaryHolds(text, start.value);
      PasteBoundariesAreSafe(text[start.value + 6..]);
    }
  }

  lemma {:induction false} PasteBoundariesAreSafe(collected: Text)
    requires BoundariesInPaste(collected)
    ensures SafeInPaste(collected)
    decreases |collected|, 0
  {
    var end := IndexOf(collected, PASTE_END);
    if end.Some? { BoundariesAreSafe(collected[end.value + 6..]); }
  }

  /** A stream all of whose paste-start markers lie on sequence boundaries gives
      the same events and state however it is cut. */
  lemma {:induction false} BoundariesNeverShow(st: Snapshot, chunks: seq<Text>)
    requires Settled(st) && chunks != [] && forall c :: c in chunks ==> c != []
    requires OnBoundaries(st, Concat(chunks))
    ensures Chunkable(st, Concat(chunks)) && Steps(st, chunks) == Step(st, Concat(chunks))
  {
    hide Step, Steps, Settled, BoundariesOutside, BoundariesInPaste, SafeOutside, SafeInPaste;
    var str := Concat(chunks);
    if st.pasteMode { PasteBoundariesAreSafe(st.pasteBuffer + str); } else { BoundariesAreSafe(st.buffer + str); }
    AnyChunking(st, chunks);
  }

  /** A stream whose output does depend on its chunks: Escape followed at once
      by a paste. Whole, it is a paste; cut after the second ESC, it is not. */
  lemma {:induction false} EscapeThenPaste()
    ensures !Chunkable(INITIAL, [ESC] + PASTE_START)
  {
    var text := [ESC] + PASTE_START;
    assert |PASTE_START| == 6;
    assert text[1..] == PASTE_START;
    assert text[1..7] == text[1..];
    assert OccursAt(text, PASTE_START, 1);
    assert text[0..6][1] == ESC;
    assert !OccursAt(text, PASTE_START, 0);
    assert IndexOf(text, PASTE_START) == Some(1);
    assert text[..1] == [ESC];
    assert FirstEnd([ESC], 1) == None;
    assert [ESC] + PASTE_START[..1] == [ESC, ESC];
    assert IsCompleteSequence([ESC, ESC]) == Complete;
    assert !MarkerHolds(text, 1);
    assert [] + text == text;
  }
}
