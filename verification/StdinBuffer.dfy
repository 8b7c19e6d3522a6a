/** The stdin buffer: paste mode, the duplicate-key register and the flush timer
    around the splitter (packages/tui/src/stdin-buffer.ts).

    The main result says exactly when the emitted events do not depend on how
    the terminal's output was cut into chunks. */
module StdinBuffers {
  import opened StdinSequences

  const PASTE_START: Text := [ESC, BRACKET, 0x32, 0x30, 0x30, 0x7e]
  const PASTE_END: Text := [ESC, BRACKET, 0x32, 0x30, 0x31, 0x7e]

  /** JavaScript's indexOf: the first occurrence. */
  function IndexOf(s: Text, pattern: Text): (r: Option<nat>)
    ensures r.Some? ==> OccursAt(s, pattern, r.value)
    ensures r.Some? ==> forall i :: 0 <= i < r.value ==> !OccursAt(s, pattern, i)
    ensures r.None? ==> forall i :: 0 <= i ==> !OccursAt(s, pattern, i)
  {
    IndexFrom(s, pattern, 0)
  }

  predicate OccursAt(s: Text, pattern: Text, i: nat) {
    i + |pattern| <= |s| && s[i..i + |pattern|] == pattern
  }

  function IndexFrom(s: Text, pattern: Text, i: nat): (r: Option<nat>)
    ensures r.Some? ==> i <= r.value && OccursAt(s, pattern, r.value)
    ensures r.Some? ==> forall j :: i <= j < r.value ==> !OccursAt(s, pattern, j)
    ensures r.None? ==> forall j :: i <= j ==> !OccursAt(s, pattern, j)
    decreases |s| - i
  {
    if i + |pattern| > |s| then None
    else if OccursAt(s, pattern, i) then Some(i)
    else IndexFrom(s, pattern, i + 1)
  }

  // ---- the duplicate-key register ------------------------------------------

  function Number(digits: Text): nat
    requires forall i :: 0 <= i < |digits| ==> IsDigit(digits[i])
  {
    if digits == [] then 0
    else
      assert IsDigit(digits[|digits| - 1]);
      10 * Number(digits[..|digits| - 1]) + (digits[|digits| - 1] as int - 0x30)
  }

  /** `ESC [ digits (: digits?)? (: digits)? u`: an unmodified Kitty key report. */
  function KittyPrintable(sequence: Text): Option<nat> {
    if |sequence| >= 4 && [ESC, BRACKET] <= sequence && sequence[|sequence| - 1] == LOWER_U then
      var parts := Split(sequence[2..|sequence| - 1], COLON);
      if && IsNumber(parts[0])
         && |parts| <= 3
         && (|parts| == 2 ==> parts[1] == [] || IsNumber(parts[1]))
         && (|parts| == 3 ==> (parts[1] == [] || IsNumber(parts[1])) && IsNumber(parts[2]))
         && Number(parts[0]) >= 32
      then Some(Number(parts[0]))
      else None
    else None
  }

  datatype Event = Data(sequence: Text) | Paste(content: Text)

  /** Everything the class holds, with the events it has emitted so far. */
  datatype Snapshot = Snapshot(
    buffer: Text, pasteMode: bool, pasteBuffer: Text,
    pending: Option<nat>, timerArmed: bool, events: seq<Event>)

  const INITIAL := Snapshot([], false, [], None, false, [])

  function EmitData(st: Snapshot, sequence: Text): Snapshot {
    if |sequence| == 1 && st.pending == Some(sequence[0]) then st.(pending := None)
    else st.(pending := KittyPrintable(sequence), events := st.events + [Data(sequence)])
  }

  function EmitAll(st: Snapshot, sequences: seq<Text>): Snapshot
    decreases |sequences|
  {
    if sequences == [] then st else EmitAll(EmitData(st, sequences[0]), sequences[1..])
  }

  /** The sequences in front of a paste-start marker are emitted; their
      incomplete tail, if any, is dropped. */
  function Opened(st: Snapshot, before: Text): Snapshot {
    EmitAll(st.(buffer := []), Extract(before).sequences).(pending := None)
  }

  /** The paste is delivered and ordinary input resumes. */
  function Closed(st: Snapshot, content: Text): Snapshot {
    st.(buffer := [], pasteMode := false, pasteBuffer := [], pending := None,
        events := st.events + [Paste(content)])
  }

  /** Complete sequences are emitted; a tail is kept and the timer armed for it. */
  function Kept(st: Snapshot, e: Extracted): Snapshot {
    EmitAll(st.(buffer := e.remainder), e.sequences).(timerArmed := e.remainder != [])
  }

  /** What follows the paste-start marker, up to and beyond the end marker. */
  function InPaste(st: Snapshot, collected: Text): Snapshot
    decreases |collected|, 0
  {
    match IndexOf(collected, PASTE_END)
    case None => st.(buffer := [], pasteMode := true, pasteBuffer := collected)
    case Some(e) =>
      var rest := collected[e + 6..];
      if rest == [] then Closed(st, collected[..e]) else Outside(Closed(st, collected[..e]), rest)
  }

  /** Ordinary input: look for a paste first, else cut what is complete. */
  function Outside(st: Snapshot, text: Text): Snapshot
    decreases |text|, 1
  {
    match IndexOf(text, PASTE_START)
    case Some(i) => InPaste(Opened(st, text[..i]), text[i + 6..])
    case None => Kept(st, Extract(text))
  }

  /** The effect of one call of `process` on a string chunk. */
  function Step(st: Snapshot, str: Text): Snapshot {
    var st := st.(timerArmed := false);
    if str == [] && st.buffer == [] then EmitData(st, [])
    else if st.pasteMode then InPaste(st, st.pasteBuffer + (st.buffer + str))
    else Outside(st, st.buffer + str)
  }

  function Steps(st: Snapshot, chunks: seq<Text>): Snapshot
    decreases |chunks|
  {
    if chunks == [] then st else Steps(Step(st, chunks[0]), chunks[1..])
  }

  // ---- the class -------------------------------------------------------------

  class StdinBuffer {
    var buffer: Text
    var pasteMode: bool
    var pasteBuffer: Text
    var pending: Option<nat>
    var timerArmed: bool
    var events: seq<Event>  // what the listeners have received

    function State(): Snapshot
      reads this
    {
      Snapshot(buffer, pasteMode, pasteBuffer, pending, timerArmed, events)
    }

    constructor ()
      ensures State() == INITIAL
    {
      buffer, pasteMode, pasteBuffer := [], false, [];
      pending, timerArmed, events := None, false, [];
    }

    method EmitDataSequence(sequence: Text)
      modifies this
      ensures State() == EmitData(old(State()), sequence)
    {
      if |sequence| == 1 && pending == Some(sequence[0]) {
        pending := None;
        return;
      }
      pending := KittyPrintable(sequence);
      events := events + [Data(sequence)];
    }

    method EmitSequences(sequences: seq<Text>)
      modifies this
      ensures State() == EmitAll(old(State()), sequences)
    {
      ghost var start := State();
      for k := 0 to |sequences|
        invariant EmitAll(start, sequences) == EmitAll(State(), sequences[k..])
      {
        EmitDataSequence(sequences[k]);
        assert sequences[k..][1..] == sequences[k + 1..];
      }
    }

    method Process(str: Text)
      modifies this
      ensures State() == Step(old(State()), str)
      decreases |buffer| + |pasteBuffer| + |str|
    {
      hide NextCut, IndexFrom, KittyPrintable, EmitAll;
      timerArmed := false;
      if str == [] && buffer == [] {
        EmitDataSequence([]);
        return;
      }
      buffer := buffer + str;
      if pasteMode {
        pasteBuffer := pasteBuffer + buffer;
        buffer := [];
        FinishPaste();
        return;
      }
      var start := IndexOf(buffer, PASTE_START);
      if start.Some? {
        OpenPaste(start.value);
        return;
      }
      var sequences, remainder := ExtractCompleteSequences(buffer);
      buffer := remainder;
      EmitAllTouchesOnlyOutput(State(), sequences);
      EmitSequences(sequences);
      if buffer != [] {
        timerArmed := true;
      }
    }

    /** A paste begins: the sequences in front of its marker are emitted. */
    method OpenPaste(start: nat)
      requires !pasteMode && !timerArmed && IndexOf(buffer, PASTE_START) == Some(start)
      modifies this
      ensures State() == Outside(old(State()), old(buffer))
      decreases |buffer| + |pasteBuffer|, 1
    {
      hide NextCut, IndexFrom, KittyPrintable, EmitAll;
      var text := buffer;
      if start > 0 {
        var sequences, _ := ExtractCompleteSequences(text[..start]);
        buffer := [];
        EmitAllTouchesOnlyOutput(State(), sequences);
        EmitSequences(sequences);
      } else {
        assert text[..0] == [];
        NothingInFront(State());
      }
      pending := None;
      ghost var before := State().(buffer := []);
      assert before == Opened(old(State()), text[..start]);
      pasteMode := true;
      pasteBuffer := text[start + 6..];
      buffer := [];
      FinishPaste();
      assert State() == InPaste(before, text[start + 6..]);
    }

    lemma {:induction false} NothingInFront(st: Snapshot)
      ensures EmitAll(st.(buffer := []), Extract([]).sequences) == st.(buffer := [])
    {}

    /** Both paste branches end here: wait for the end marker or deliver the
        paste and process what follows it. */
    method FinishPaste()
      requires pasteMode && buffer == [] && !timerArmed
      modifies this
      ensures State() == InPaste(old(State()), old(pasteBuffer))
      decreases |buffer| + |pasteBuffer|, 0
    {
      var end := IndexOf(pasteBuffer, PASTE_END);
      if end.Some? {
        var content := pasteBuffer[..end.value];
        var remaining := pasteBuffer[end.value + 6..];
        pasteMode := false;
        pasteBuffer := [];
        pending := None;
        events := events + [Paste(content)];
        if |remaining| > 0 {
          assert [] + remaining == remaining;
          Process(remaining);
        }
      }
    }

    /** The timer's flush, or an explicit one: hand out the kept tail as it is. */
    method Flush() returns (flushed: seq<Text>)
      modifies this
      ensures old(buffer) == [] ==> flushed == [] && State() == old(State()).(timerArmed := false)
      ensures old(buffer) != [] ==>
                flushed == [old(buffer)]
                && State() == old(State()).(buffer := [], pending := None, timerArmed := false)
    {
      timerArmed := false;
      if buffer == [] { return []; }
      flushed := [buffer];
      buffer := [];
      pending := None;
    }

    method Clear()
      modifies this
      ensures State() == INITIAL.(events := old(events))
    {
      timerArmed := false;
      buffer, pasteMode, pasteBuffer, pending := [], false, [], None;
    }
  }

  // ---- reachable states ------------------------------------------------------

  /** What every call leaves behind: a tail the splitter keeps and no marker in
      it, or an open paste with no end marker yet. */
  predicate Settled(st: Snapshot) {
    if st.pasteMode then
      st.buffer == [] && !st.timerArmed && IndexOf(st.pasteBuffer, PASTE_END).None?
    else
      && st.pasteBuffer == []
      && IsTail(st.buffer)
      && IndexOf(st.buffer, PASTE_START).None?
      && st.timerArmed == (st.buffer != [])
  }

  /** Emitting touches nothing but the register and the events. */
  lemma {:induction false} EmitAllTouchesOnlyOutput(st: Snapshot, sequences: seq<Text>)
    ensures var st' := EmitAll(st, sequences);
            st' == st.(pending := st'.pending, events := st'.events) && st.events <= st'.events
    decreases |sequences|
  {
    hide KittyPrintable;
    if sequences != [] { EmitAllTouchesOnlyOutput(EmitData(st, sequences[0]), sequences[1..]); }
  }

  lemma {:induction false} EmitAllAppend(st: Snapshot, a: seq<Text>, b: seq<Text>)
    ensures EmitAll(st, a + b) == EmitAll(EmitAll(st, a), b)
    decreases |a|
  {
    hide KittyPrintable;
    if a == [] { assert a + b == b; }
    else {
      assert (a + b)[1..] == a[1..] + b;
      EmitAllAppend(EmitData(st, a[0]), a[1..], b);
    }
  }

  /** Outside a paste, with no timer running: where a call starts its work. */
  predicate Idle(st: Snapshot) { !st.pasteMode && st.pasteBuffer == [] && !st.timerArmed }

  lemma {:induction false} OutsideSettles(st: Snapshot, text: Text)
    requires Idle(st)
    ensures Settled(Outside(st, text)) && st.events <= Outside(st, text).events
    decreases |text|, 1
  {
    hide Extract, IndexFrom, EmitAll, IsTail;
    match IndexOf(text, PASTE_START)
    case Some(i) =>
      EmitAllTouchesOnlyOutput(st.(buffer := []), Extract(text[..i]).sequences);
      PasteSettles(Opened(st, text[..i]), text[i + 6..]);
    case None =>
      var e := Extract(text);
      EmitAllTouchesOnlyOutput(st.(buffer := e.remainder), e.sequences);
      ExtractIsExact(text);
      NoMarkerInSuffix(text, Concat(e.sequences), e.remainder, PASTE_START);
  }

  lemma {:induction false} PasteSettles(st: Snapshot, collected: Text)
    requires !st.timerArmed
    ensures Settled(InPaste(st, collected)) && st.events <= InPaste(st, collected).events
    decreases |collected|, 0
  {
    hide Extract, IndexFrom, EmitAll;
    match IndexOf(collected, PASTE_END)
    case None =>
    case Some(e) =>
      if collected[e + 6..] == [] {
        assert forall i: nat :: !OccursAt([], PASTE_START, i);
      } else {
        OutsideSettles(Closed(st, collected[..e]), collected[e + 6..]);
      }
  }

  lemma {:induction false} NoMarkerInSuffix(s: Text, a: Text, b: Text, pattern: Text)
    requires s == a + b && IndexOf(s, pattern).None?
    ensures IndexOf(b, pattern).None?
  {
    if IndexOf(b, pattern).Some? {
      var i := IndexOf(b, pattern).value;
      assert s[|a| + i..|a| + i + |pattern|] == b[i..i + |pattern|];
      assert OccursAt(s, pattern, |a| + i);
    }
  }

  /** Settled is kept by every call, and earlier events are never taken back. */
  lemma {:induction false} StepKeepsSettled(st: Snapshot, str: Text)
    requires Settled(st)
    ensures Settled(Step(st, str)) && st.events <= Step(st, str).events
  {
    hide Outside, InPaste, KittyPrintable, IndexFrom, IsTail;
    var st0 := st.(timerArmed := false);
    if str == [] && st.buffer == [] {
    } else if st.pasteMode {
      PasteSettles(st0, st.pasteBuffer + (st.buffer + str));
    } else {
      OutsideSettles(st0, st.buffer + str);
    }
  }
}
