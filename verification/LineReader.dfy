/** Splitting a byte stream into lines as it arrives, as both protocol clients do
    (benchmarks/python-realworld-30/native/base_protocol.py, _read, and
    codex_protocol.py, _read_loop). */
module LineReader {

  type Byte = b: int | 0 <= b < 256
  type Bytes = seq<Byte>

  const NEWLINE: Byte := 10

  /** What Python's strip() takes off. */
  predicate IsBlankByte(b: Byte) { 9 <= b <= 13 || b == 32 }

  predicate IsBlank(line: Bytes) { forall i :: 0 <= i < |line| ==> IsBlankByte(line[i]) }

  datatype Split = Split(lines: seq<Bytes>, rest: Bytes)

  /** The first newline, or the length. */
  function FindNewline(s: Bytes): (n: nat)
    ensures n <= |s|
    ensures forall i :: 0 <= i < n ==> s[i] != NEWLINE
    ensures n < |s| ==> s[n] == NEWLINE
  {
    if s == [] || s[0] == NEWLINE then 0 else 1 + FindNewline(s[1..])
  }

  /** The complete lines, without their newlines, and what is left over. */
  function SplitLines(s: Bytes): Split
    decreases |s|
  {
    var n := FindNewline(s);
    if n == |s| then Split([], s)
    else
      var more := SplitLines(s[n + 1..]);
      Split([s[..n]] + more.lines, more.rest)
  }

  function Join(lines: seq<Bytes>): Bytes {
    if lines == [] then [] else lines[0] + [NEWLINE] + Join(lines[1..])
  }

  /** The lines and the rest are exactly what came in, and neither they nor it
      contain a newline. */
  lemma {:induction false} SplitIsExact(s: Bytes)
    ensures Join(SplitLines(s).lines) + SplitLines(s).rest == s
    ensures NoNewlines(SplitLines(s))
    decreases |s|
  {
    hide FindNewline, SplitLines, Join;
    var n := FindNewline(s);
    if n < |s| {
      var more := SplitLines(s[n + 1..]);
      SplitIsExact(s[n + 1..]);
      SplitStep(s, n);
      JoinMore(s[..n], more.lines);
      assert s == s[..n] + [NEWLINE] + s[n + 1..];
      assert s[..n] + [NEWLINE] + Join(more.lines) + more.rest == s[..n] + [NEWLINE] + (Join(more.lines) + more.rest);
    } else {
      SplitNone(s);
      JoinNone();
    }
  }

  predicate NoNewlines(split: Split) {
    NEWLINE !in split.rest && forall k :: 0 <= k < |split.lines| ==> NEWLINE !in split.lines[k]
  }

  lemma {:induction false} JoinNone()
    ensures Join([]) == []
  {}

  lemma {:induction false} JoinMore(line: Bytes, lines: seq<Bytes>)
    ensures Join([line] + lines) == line + [NEWLINE] + Join(lines)
  {
    assert ([line] + lines)[1..] == lines;
  }

  lemma {:induction false} FindIs(s: Bytes, n: nat)
    requires n <= |s| && (forall i :: 0 <= i < n ==> s[i] != NEWLINE) && (n < |s| ==> s[n] == NEWLINE)
    ensures FindNewline(s) == n
  {
    if n > 0 { FindIs(s[1..], n - 1); }
  }

  lemma {:induction false} FindIn(s: Bytes, t: Bytes)
    requires FindNewline(s) < |s|
    ensures FindNewline(s + t) == FindNewline(s)
  {
    hide FindNewline;
    FindIs(s + t, FindNewline(s));
  }

  lemma {:induction false} SplitStep(s: Bytes, n: nat)
    requires n == FindNewline(s) < |s|
    ensures SplitLines(s) == Split([s[..n]] + SplitLines(s[n + 1..]).lines, SplitLines(s[n + 1..]).rest)
  {}

  lemma {:induction false} SplitNone(s: Bytes)
    requires FindNewline(s) == |s|
    ensures SplitLines(s) == Split([], s)
  {}

  /** Splitting what has arrived and then the leftover with the next chunk is
      splitting everything at once. */
  lemma {:induction false} SplitResumes(s: Bytes, t: Bytes)
    ensures var first := SplitLines(s);
            var second := SplitLines(first.rest + t);
            SplitLines(s + t) == Split(first.lines + second.lines, second.rest)
    decreases |s|
  {
    hide FindNewline, SplitLines;
    var n := FindNewline(s);
    if n < |s| {
      FindIn(s, t);
      SplitStep(s, n);
      SplitStep(s + t, n);
      assert (s + t)[n + 1..] == s[n + 1..] + t && (s + t)[..n] == s[..n];
      SplitResumes(s[n + 1..], t);
      var a, b, c := [s[..n]], SplitLines(s[n + 1..]).lines, SplitLines(SplitLines(s).rest + t).lines;
      assert a + (b + c) == (a + b) + c;
    } else {
      SplitNone(s);
      assert [] + SplitLines(s + t).lines == SplitLines(s + t).lines;
    }
  }

  function Concat(chunks: seq<Bytes>): Bytes {
    if chunks == [] then [] else Concat(chunks[..|chunks| - 1]) + chunks[|chunks| - 1]
  }

  /** The lines of a stream read chunk by chunk. */
  function Chunked(chunks: seq<Bytes>): Split {
    if chunks == [] then Split([], [])
    else
      var before := Chunked(chunks[..|chunks| - 1]);
      var now := SplitLines(before.rest + chunks[|chunks| - 1]);
      Split(before.lines + now.lines, now.rest)
  }

  /** The lines do not depend on how the stream was cut into chunks. */
  lemma {:induction false} ChunksDoNotMatter(chunks: seq<Bytes>)
    ensures Chunked(chunks) == SplitLines(Concat(chunks))
    decreases |chunks|
  {
    if chunks != [] {
      ChunksDoNotMatter(chunks[..|chunks| - 1]);
      SplitResumes(Concat(chunks[..|chunks| - 1]), chunks[|chunks| - 1]);
    }
  }

  /** The lines of a whole stream; what follows the last newline counts as one. */
  function AllLines(s: Bytes): seq<Bytes> { SplitLines(s).lines + [SplitLines(s).rest] }

  /** What has been split off early is what the whole stream begins with. */
  lemma {:induction false} EarlyLines(chunks: seq<Bytes>, k: nat)
    requires k <= |chunks|
    ensures SplitLines(Concat(chunks[..k])).lines <= SplitLines(Concat(chunks)).lines
    decreases |chunks|
  {
    hide SplitLines;
    if k < |chunks| {
      var front := chunks[..|chunks| - 1];
      EarlyLines(front, k);
      assert front[..k] == chunks[..k];
      SplitResumes(Concat(front), chunks[|chunks| - 1]);
    } else {
      assert chunks[..k] == chunks;
    }
  }

  /** The loop over a grown buffer: one line after another is cut off its front. */
  method TakeLines(buffer: Bytes) returns (lines: seq<Bytes>, rest: Bytes)
    ensures Split(lines, rest) == SplitLines(buffer)
  {
    hide FindNewline, SplitLines;
    lines, rest := [], buffer;
    var end := Find(rest);
    while end < |rest|
      invariant end == FindNewline(rest)
      invariant SplitLines(buffer) == Split(lines + SplitLines(rest).lines, SplitLines(rest).rest)
      decreases |rest|
    {
      SplitStep(rest, end);
      ghost var more := SplitLines(rest[end + 1..]);
      assert lines + ([rest[..end]] + more.lines) == lines + [rest[..end]] + more.lines;
      lines := lines + [rest[..end]];
      rest := rest[end + 1..];
      end := Find(rest);
    }
    SplitNone(rest);
  }

  method Find(s: Bytes) returns (n: nat)
    ensures n == FindNewline(s)
  {
    n := 0;
    while n < |s| && s[n] != NEWLINE
      invariant n <= |s| && FindNewline(s) == n + FindNewline(s[n..])
    {
      assert s[n..][1..] == s[n + 1..];
      n := n + 1;
    }
  }
}
