/** Escape-sequence completeness and the splitter that cuts a buffer into
    sequences (packages/tui/src/stdin-buffer.ts).

    JavaScript strings are sequences of UTF-16 code units, so text is modelled
    as a sequence of 16-bit codes rather than of characters. */
module StdinSequences {

  type Code = c: int | 0 <= c < 0x1_0000
  type Text = seq<Code>

  const ESC: Code := 0x1b
  const BEL: Code := 0x07
  const BACKSLASH: Code := 0x5c
  const BRACKET: Code := 0x5b       // [
  const CLOSE_BRACKET: Code := 0x5d // ]
  const SEMICOLON: Code := 0x3b
  const COLON: Code := 0x3a
  const LESS: Code := 0x3c
  const UPPER_M: Code := 0x4d
  const LOWER_M: Code := 0x6d
  const UPPER_O: Code := 0x4f
  const UPPER_P: Code := 0x50
  const UNDERSCORE: Code := 0x5f
  const LOWER_U: Code := 0x75
  const ST: Text := [ESC, BACKSLASH]

  datatype Option<+T> = None | Some(value: T)

  datatype Status = Complete | Incomplete | NotEscape

  predicate EndsWith(s: Text, suffix: Text) {
    |suffix| <= |s| && s[|s| - |suffix|..] == suffix
  }

  predicate IsDigit(c: Code) { 0x30 <= c <= 0x39 }

  /** The regular expression `^\d+$`. */
  predicate IsNumber(s: Text) {
    s != [] && forall i :: 0 <= i < |s| ==> IsDigit(s[i])
  }

  /** JavaScript's `split` on a one-unit separator. */
  function Split(s: Text, separator: Code): (parts: seq<Text>)
    ensures |parts| >= 1
  {
    if s == [] then [[]]
    else
      var rest := Split(s[1..], separator);
      if s[0] == separator then [[]] + rest
      else [[s[0]] + rest[0]] + rest[1..]
  }

  /** `<digits;digits;digits` followed by M or m, the SGR mouse report. */
  predicate IsSgrMouse(payload: Text) {
    && |payload| >= 2
    && payload[0] == LESS
    && payload[|payload| - 1] in {UPPER_M, LOWER_M}
    && var parts := Split(payload[1..|payload| - 1], SEMICOLON);
       |parts| == 3 && forall p :: p in parts ==> IsNumber(p)
  }

  function IsCompleteCsi(data: Text): Status
    requires [ESC, BRACKET] <= data
  {
    if |data| < 3 then Incomplete
    else
      var payload := data[2..];
      var last := payload[|payload| - 1];
      if 0x40 <= last <= 0x7e then
        if payload[0] == LESS then
          if IsSgrMouse(payload) then Complete else Incomplete
        else Complete
      else Incomplete
  }

  function IsCompleteSequence(data: Text): Status {
    if !([ESC] <= data) then NotEscape
    else if |data| == 1 then Incomplete
    else if data[1] == BRACKET then
      if |data| >= 3 && data[2] == UPPER_M then
        if |data| >= 6 then Complete else Incomplete
      else IsCompleteCsi(data)
    else if data[1] == CLOSE_BRACKET then
      if EndsWith(data, ST) || EndsWith(data, [BEL]) then Complete else Incomplete
    else if data[1] == UPPER_P || data[1] == UNDERSCORE then
      if EndsWith(data, ST) then Complete else Incomplete
    else if data[1] == UPPER_O then
      if |data| >= 3 then Complete else Incomplete
    else Complete
  }

  // ---- the splitter -----------------------------------------------------

  /** The least n >= k such that the first n units are no longer incomplete. */
  function FirstEnd(s: Text, k: nat): (r: Option<nat>)
    requires k <= |s| + 1
    ensures r.Some? ==> k <= r.value <= |s| && IsCompleteSequence(s[..r.value]) != Incomplete
    ensures r.Some? ==> forall n :: k <= n < r.value ==> IsCompleteSequence(s[..n]) == Incomplete
    ensures r.None? ==> forall n :: k <= n <= |s| ==> IsCompleteSequence(s[..n]) == Incomplete
    decreases |s| + 1 - k
  {
    if k > |s| then None
    else if IsCompleteSequence(s[..k]) != Incomplete then Some(k)
    else FirstEnd(s, k + 1)
  }

  /** One emitted piece: a single ordinary unit, or an escape sequence none of
      whose proper prefixes was already complete. */
  predicate IsToken(t: Text) {
    || (|t| == 1 && t[0] != ESC)
    || (|t| >= 2 && t[0] == ESC && IsCompleteSequence(t) == Complete
        && forall n :: 1 <= n < |t| ==> IsCompleteSequence(t[..n]) == Incomplete)
  }

  /** A tail the splitter keeps: empty, or an escape sequence still incomplete. */
  predicate IsTail(t: Text) {
    t != [] ==> t[0] == ESC && forall n :: 1 <= n <= |t| ==> IsCompleteSequence(t[..n]) == Incomplete
  }

  /** Where the scan cuts next, or None when everything left is kept. */
  function NextCut(s: Text): (r: Option<nat>)
    requires s != []
    ensures r.Some? ==> 1 <= r.value <= |s| && IsToken(s[..r.value])
    ensures r.None? ==> IsTail(s)
  {
    if s[0] != ESC then Some(1)
    else
      var r := FirstEnd(s, 1);
      assert r.Some? ==> forall n :: 1 <= n < r.value ==> s[..r.value][..n] == s[..n];
      r
  }

  datatype Extracted = Extracted(sequences: seq<Text>, remainder: Text)

  /** What a left-to-right scan cuts off the buffer, and the tail it keeps. */
  function Extract(buffer: Text): Extracted
    decreases |buffer|
  {
    if buffer == [] then Extracted([], [])
    else
      match NextCut(buffer)
      case None => Extracted([], buffer)
      case Some(n) => Prepend(buffer[..n], Extract(buffer[n..]))
  }

  function Prepend(t: Text, e: Extracted): Extracted {
    Extracted([t] + e.sequences, e.remainder)
  }

  /** The results of two scans, the second resumed from the first one's tail. */
  function Join(done: seq<Text>, e: Extracted): Extracted {
    Extracted(done + e.sequences, e.remainder)
  }

  lemma JoinPrepend(done: seq<Text>, t: Text, e: Extracted)
    ensures Join(done, Prepend(t, e)) == Join(done + [t], e)
    ensures Prepend(t, Join(done, e)) == Join([t] + done, e)
  {}

  lemma JoinNone(done: seq<Text>, e: Extracted, tail: Text)
    ensures Join([], e) == e
    ensures Join(done, Extracted([], tail)) == Extracted(done, tail)
  {
    assert [] + e.sequences == e.sequences;
    assert done + [] == done;
  }

  /** The inner loop: grow the candidate until it is no longer incomplete. */
  method FindEnd(remaining: Text) returns (seqEnd: nat)
    requires [ESC] <= remaining
    ensures 1 <= seqEnd <= |remaining| + 1
    ensures NextCut(remaining) == if seqEnd <= |remaining| then Some(seqEnd) else None
  {
    seqEnd := 1;
    while seqEnd <= |remaining| && IsCompleteSequence(remaining[..seqEnd]) == Incomplete
      invariant 1 <= seqEnd <= |remaining| + 1
      invariant FirstEnd(remaining, 1) == FirstEnd(remaining, seqEnd)
    {
      seqEnd := seqEnd + 1;
    }
  }

  /** The splitter's outer loop. */
  method ExtractCompleteSequences(buffer: Text) returns (sequences: seq<Text>, remainder: Text)
    ensures Extracted(sequences, remainder) == Extract(buffer)
  {
    hide IsCompleteSequence;
    sequences := [];
    var pos := 0;
    assert buffer[0..] == buffer;
    JoinNone([], Extract(buffer), []);
    while pos < |buffer|
      invariant 0 <= pos <= |buffer|
      invariant Extract(buffer) == Join(sequences, Extract(buffer[pos..]))
    {
      var remaining := buffer[pos..];
      var n := 1;
      if [ESC] <= remaining {
        n := FindEnd(remaining);
        if n > |remaining| {
          JoinNone(sequences, Extract(remaining), remaining);
          return sequences, remaining;
        }
      }
      JoinPrepend(sequences, remaining[..n], Extract(remaining[n..]));
      assert remaining[n..] == buffer[pos + n..];
      sequences := sequences + [remaining[..n]];
      pos := pos + n;
    }
    JoinNone(sequences, Extract([]), []);
    remainder := [];
  }

  function Concat(parts: seq<Text>): Text {
    if parts == [] then [] else parts[0] + Concat(parts[1..])
  }

  predicate AllTokens(parts: seq<Text>) { forall t :: t in parts ==> IsToken(t) }

  /** Nothing is lost or reordered, every piece is a shortest complete sequence,
      and what is kept back is a sequence no prefix of which is complete. */
  predicate Exact(buffer: Text, e: Extracted) {
    Concat(e.sequences) + e.remainder == buffer && AllTokens(e.sequences) && IsTail(e.remainder)
  }

  lemma {:induction false} ExtractIsExact(buffer: Text)
    ensures Exact(buffer, Extract(buffer))
    decreases |buffer|
  {
    hide IsCompleteSequence, NextCut, IsToken, IsTail, Exact;
    if buffer == [] {
      ExactTail([]);
    } else if NextCut(buffer).None? {
      ExactTail(buffer);
    } else {
      var n := NextCut(buffer).value;
      ExtractIsExact(buffer[n..]);
      ExactPrepend(buffer[..n], buffer[n..], Extract(buffer[n..]));
      assert buffer[..n] + buffer[n..] == buffer;
    }
  }

  lemma ExactTail(tail: Text)
    requires tail == [] || IsTail(tail)
    ensures Exact(tail, Extracted([], tail))
  {
    hide IsCompleteSequence;
    assert [] + tail == tail;
  }

  lemma ExactPrepend(t: Text, rest: Text, e: Extracted)
    requires IsToken(t) && Exact(rest, e)
    ensures Exact(t + rest, Prepend(t, e))
  {
    hide IsToken, IsTail;
    assert ([t] + e.sequences)[1..] == e.sequences;
  }

  /** A token in front is what the scan cuts. */
  lemma {:induction false} TokenIsNextCut(s: Text, n: nat)
    requires 1 <= n <= |s| && IsToken(s[..n])
    ensures NextCut(s) == Some(n)
  {
    hide IsCompleteSequence;
    assert forall m :: 1 <= m <= n ==> s[..n][..m] == s[..m];
  }

  /** A kept tail is kept again, unchanged, when nothing follows it. */
  lemma {:induction false} TailIsFixed(t: Text)
    requires IsTail(t)
    ensures Extract(t) == Extracted([], t)
  {
    hide IsCompleteSequence;
    if t != [] { assert FirstEnd(t, 1) == None; }
  }

  /** A whole token and nothing else. */
  lemma {:induction false} TokenAlone(t: Text)
    requires IsToken(t)
    ensures Extract(t) == Extracted([t], [])
  {
    hide IsCompleteSequence, NextCut;
    assert t[..|t|] == t;
    TokenIsNextCut(t, |t|);
    assert t[|t|..] == [];
    assert [t] + [] == [t];
  }

  /** Splitting may stop anywhere and resume from the kept tail. */
  lemma {:induction false} ExtractResumes(a: Text, b: Text)
    ensures var first := Extract(a);
            Extract(a + b) == Join(first.sequences, Extract(first.remainder + b))
    decreases |a|
  {
    hide IsCompleteSequence, NextCut, IsToken;
    var second := Extract(Extract(a).remainder + b);
    JoinNone([], second, []);
    if a == [] {
      assert [] + b == b;
    } else if NextCut(a).Some? {
      var n := NextCut(a).value;
      var rest := Extract(a[n..]);
      assert (a + b)[..n] == a[..n] && (a + b)[n..] == a[n..] + b;
      TokenIsNextCut(a + b, n);
      ExtractResumes(a[n..], b);
      JoinPrepend(rest.sequences, a[..n], second);
    }
  }

  /** Tokens written one after another are cut back into exactly those tokens. */
  lemma {:induction false} TokensRoundTrip(tokens: seq<Text>)
    requires AllTokens(tokens)
    ensures Extract(Concat(tokens)) == Extracted(tokens, [])
  {
    hide IsCompleteSequence, NextCut;
    if tokens != [] {
      var t, rest := tokens[0], Concat(tokens[1..]);
      assert t in tokens;
      TokensRoundTrip(tokens[1..]);
      assert (t + rest)[..|t|] == t && (t + rest)[|t|..] == rest;
      TokenIsNextCut(t + rest, |t|);
      assert [t] + tokens[1..] == tokens;
    }
  }

  /** ECMA-48 section 5.4: parameter bytes 0x30-0x3f, intermediate bytes
      0x20-0x2f and one final byte 0x40-0x7e after CSI form one token, unless
      the private marker `<` or the legacy mouse final M come first. */
  lemma {:induction false} ControlSequenceIsToken(body: Text, final: Code)
    requires forall i :: 0 <= i < |body| ==> 0x20 <= body[i] <= 0x3f
    requires 0x40 <= final <= 0x7e
    requires body == [] ==> final != UPPER_M
    requires body != [] ==> body[0] != LESS
    ensures IsToken([ESC, BRACKET] + body + [final])
  {
    var t := [ESC, BRACKET] + body + [final];
    forall n | 1 <= n < |t|
      ensures IsCompleteSequence(t[..n]) == Incomplete
    {
      if n >= 3 {
        assert t[..n][2..][n - 3] == body[n - 3];
        assert t[..n][2] == body[0];
      }
    }
    assert t[2..] == body + [final];
  }
}
