/** The fullscreen viewport (packages/tui/src/fullscreen.ts): a row-diff painter
    that remembers the last frame, and the scrolled window it composes. */
module Fullscreen {

  type Line = string

  datatype Option<+T> = None | Some(value: T)

  const MIN_TRANSCRIPT_ROWS := 3
  const IMAGE_PLACEHOLDER: Line := "[image - view in inline mode]"

  function Max(a: int, b: int): int { if a > b then a else b }
  function Min(a: int, b: int): int { if a < b then a else b }

  function ClippedDockHeight(dockLength: nat, height: nat): (r: nat)
    ensures r <= dockLength && r <= height
    ensures r < dockLength ==> r == Max(0, height - MIN_TRANSCRIPT_ROWS)
    ensures height >= MIN_TRANSCRIPT_ROWS ==> height - r >= MIN_TRANSCRIPT_ROWS
  {
    Min(dockLength, Max(0, height - MIN_TRANSCRIPT_ROWS))
  }

  /** What the viewport asks of text: its width in columns, and its first columns. */
  datatype Metrics = Metrics(width: Line -> nat, clamp: (Line, nat) -> Line)

  ghost predicate ClampFits(m: Metrics) { forall line: Line, w: nat :: m.width(m.clamp(line, w)) <= w }

  function Shown(m: Metrics, line: Line, width: nat): Line {
    if m.width(line) > width then m.clamp(line, width) else line
  }

  // ---- the terminal ----------------------------------------------------------------------------

  /** A written row is addressed absolutely and cleared first. */
  datatype Command = ClearScreen | Row(row: nat, text: Line)

  /** None is a row whose content nobody knows. */
  datatype Screen = Screen(width: nat, rows: seq<Option<Line>>)

  /** Text wider than the screen would wrap into the rows below. */
  function Put(m: Metrics, s: Screen, c: Command): Screen {
    match c
    case ClearScreen => s.(rows := seq(|s.rows|, _ => Some("")))
    case Row(row, text) =>
      if row >= |s.rows| then s
      else if m.width(text) > s.width then s.(rows := seq(|s.rows|, i requires 0 <= i < |s.rows| => if i < row then s.rows[i] else None))
      else s.(rows := s.rows[row := Some(text)])
  }

  function PutAll(m: Metrics, s: Screen, commands: seq<Command>): Screen {
    if commands == [] then s else Put(m, PutAll(m, s, commands[..|commands| - 1]), commands[|commands| - 1])
  }

  function LineAt(frame: seq<Line>, row: nat): Line { if row < |frame| then frame[row] else "" }

  /** The bottom `height` lines of a frame that is too long. */
  function Clipped(frame: seq<Line>, height: nat): seq<Line> {
    if |frame| > height then frame[|frame| - height..] else frame
  }

  /** A row is known to show its line of the frame. */
  predicate RowShows(m: Metrics, s: Screen, frame: seq<Line>, row: nat) {
    row < |s.rows| && s.rows[row] == Some(Shown(m, LineAt(frame, row), s.width))
  }

  predicate ScreenShows(m: Metrics, s: Screen, frame: seq<Line>) {
    forall row :: 0 <= row < |s.rows| ==> RowShows(m, s, frame, row)
  }

  // ---- the painter ---------------------------------------------------------------------------------

  datatype Memory = Memory(frame: seq<Line>, width: nat, height: nat)

  predicate MustClear(p: Memory, width: nat, height: nat) { width != p.width || height != p.height || p.frame == [] }

  /** The row is skipped: the memory has the very same line there. */
  predicate Skips(previous: seq<Line>, frame: seq<Line>, row: nat) {
    row < |previous| && previous[row] == LineAt(frame, row)
  }

  function RowCommands(m: Metrics, previous: seq<Line>, frame: seq<Line>, width: nat, n: nat): seq<Command> {
    if n == 0 then []
    else
      var before := RowCommands(m, previous, frame, width, n - 1);
      if Skips(previous, frame, n - 1) then before
      else before + [Row(n - 1, Shown(m, LineAt(frame, n - 1), width))]
  }

  function PaintCommands(m: Metrics, p: Memory, frame: seq<Line>, width: nat, height: nat): seq<Command> {
    var frame := Clipped(frame, height);
    if MustClear(p, width, height) then [ClearScreen] + RowCommands(m, [], frame, width, height)
    else RowCommands(m, p.frame, frame, width, height)
  }

  function Painted(p: Memory, frame: seq<Line>, width: nat, height: nat): Memory { Memory(Clipped(frame, height), width, height) }

  lemma {:induction false} PutAllAppend(m: Metrics, s: Screen, a: seq<Command>, b: seq<Command>)
    ensures PutAll(m, s, a + b) == PutAll(m, PutAll(m, s, a), b)
    decreases |b|
  {
    hide Put;
    if b == [] {
      assert a + b == a;
    } else {
      assert (a + b)[..|a + b| - 1] == a + b[..|b| - 1];
      PutAllAppend(m, s, a, b[..|b| - 1]);
    }
  }

  lemma {:induction false} ShownFits(m: Metrics, line: Line, width: nat)
    requires ClampFits(m)
    ensures m.width(Shown(m, line, width)) <= width
  {}

  lemma {:induction false} PutOne(m: Metrics, s: Screen, commands: seq<Command>, row: nat, text: Line)
    requires row < |PutAll(m, s, commands).rows| && m.width(text) <= PutAll(m, s, commands).width
    ensures var before := PutAll(m, s, commands);
            PutAll(m, s, commands + [Row(row, text)]) == before.(rows := before.rows[row := Some(text)])
  {
    var c := Row(row, text);
    assert (commands + [c])[..|commands|] == commands;
  }

  /** After the first `n` rows: the rewritten ones show their lines, the others are
      as they were. */
  lemma {:induction false} RowsDone(m: Metrics, s: Screen, previous: seq<Line>, frame: seq<Line>, n: nat)
    requires ClampFits(m) && n <= |s.rows|
    ensures var s' := PutAll(m, s, RowCommands(m, previous, frame, s.width, n));
            && s'.width == s.width && |s'.rows| == |s.rows|
            && forall row :: 0 <= row < |s.rows| ==>
                 s'.rows[row] == if row < n && !Skips(previous, frame, row)
                                 then Some(Shown(m, LineAt(frame, row), s.width)) else s.rows[row]
    decreases n
  {
    hide ClampFits, Shown, Skips, LineAt, PutAll;
    if n > 0 {
      RowsDone(m, s, previous, frame, n - 1);
      if !Skips(previous, frame, n - 1) {
        ShownFits(m, LineAt(frame, n - 1), s.width);
        PutOne(m, s, RowCommands(m, previous, frame, s.width, n - 1), n - 1, Shown(m, LineAt(frame, n - 1), s.width));
      }
    } else {
      NothingPut(m, s);
    }
  }

  lemma {:induction false} NothingPut(m: Metrics, s: Screen)
    ensures PutAll(m, s, []) == s
  {}

  /** Exactly which rows are right after a paint: all of them after a clear, and
      otherwise those that were rewritten or were right already. */
  lemma {:induction false} PaintShows(m: Metrics, s: Screen, p: Memory, frame: seq<Line>, row: nat)
    requires ClampFits(m) && row < |s.rows|
    ensures var s' := PutAll(m, s, PaintCommands(m, p, frame, s.width, |s.rows|));
            var f := Clipped(frame, |s.rows|);
            && s'.width == s.width && |s'.rows| == |s.rows|
            && (RowShows(m, s', f, row) <==>
                  MustClear(p, s.width, |s.rows|) || !Skips(p.frame, f, row) || RowShows(m, s, p.frame, row))
  {
    hide PutAll, RowCommands;
    var height := |s.rows|;
    var f := Clipped(frame, height);
    if MustClear(p, s.width, height) {
      Cleared(m, s);
      var s1 := PutAll(m, s, [ClearScreen]);
      RowsDone(m, s1, [], f, height);
      PutAllAppend(m, s, [ClearScreen], RowCommands(m, [], f, s.width, height));
    } else {
      RowsDone(m, s, p.frame, f, height);
    }
  }

  lemma {:induction false} Cleared(m: Metrics, s: Screen)
    ensures PutAll(m, s, [ClearScreen]) == s.(rows := seq(|s.rows|, _ => Some("")))
  {
    assert [ClearScreen][..0] == [];
    assert PutAll(m, s, [ClearScreen]) == Put(m, PutAll(m, s, []), ClearScreen);
  }

  // ---- runs of paints, resizes and resets ----------------------------------------------------------

  /** A resize leaves the screen in a state nobody knows. */
  datatype Step = Paint(frame: seq<Line>) | Resize(width: nat, height: nat) | Reset

  datatype World = World(screen: Screen, memory: Memory)

  const EMPTY := Memory([], 0, 0)

  function Unknown(width: nat, height: nat): Screen { Screen(width, seq(height, _ => None)) }

  function Do(m: Metrics, w: World, step: Step): World {
    match step
    case Paint(frame) =>
      var width, height := w.screen.width, |w.screen.rows|;
      World(PutAll(m, w.screen, PaintCommands(m, w.memory, frame, width, height)), Painted(w.memory, frame, width, height))
    case Resize(width, height) => w.(screen := Unknown(width, height))
    case Reset => w.(memory := w.memory.(frame := []))
  }

  function Run(m: Metrics, width: nat, height: nat, steps: seq<Step>): World {
    if steps == [] then World(Unknown(width, height), EMPTY)
    else Do(m, Run(m, width, height, steps[..|steps| - 1]), steps[|steps| - 1])
  }

  /** The screen was resized after the last paint. */
  predicate Stale(steps: seq<Step>) {
    if steps == [] then true
    else
      match steps[|steps| - 1]
      case Paint(_) => false
      case Resize(_, _) => true
      case Reset => Stale(steps[..|steps| - 1])
  }

  /** What the painter relies on: unless the screen was resized behind its back,
      it shows the remembered frame. */
  predicate Trusted(m: Metrics, w: World, stale: bool) {
    (!stale && w.memory.frame != [] ==>
       w.memory.width == w.screen.width && w.memory.height == |w.screen.rows| && ScreenShows(m, w.screen, w.memory.frame))
  }

  lemma {:induction false} TrustedAlways(m: Metrics, width: nat, height: nat, steps: seq<Step>)
    requires ClampFits(m) && Guarded(m, width, height, steps)
    ensures Trusted(m, Run(m, width, height, steps), Stale(steps))
    decreases |steps|
  {
    hide PutAll, PaintCommands, Shown;
    if steps != [] {
      var front, step := steps[..|steps| - 1], steps[|steps| - 1];
      TrustedAlways(m, width, height, front);
      var w := Run(m, width, height, front);
      if step.Paint? { PaintTrusted(m, w, step.frame, Stale(front)); }
    }
  }

  lemma {:induction false} PaintTrusted(m: Metrics, w: World, frame: seq<Line>, stale: bool)
    requires ClampFits(m) && Trusted(m, w, stale) && (stale ==> MustClear(w.memory, w.screen.width, |w.screen.rows|))
    ensures var w' := Do(m, w, Paint(frame));
            && |w'.screen.rows| == |w.screen.rows| && w'.screen.width == w.screen.width
            && ScreenShows(m, w'.screen, w'.memory.frame) && Trusted(m, w', false)
  {
    hide PutAll, PaintCommands, Shown;
    var w' := Do(m, w, Paint(frame));
    SizeKept(m, w.screen, PaintCommands(m, w.memory, frame, w.screen.width, |w.screen.rows|));
    forall row | 0 <= row < |w.screen.rows|
      ensures |w'.screen.rows| == |w.screen.rows| && w'.screen.width == w.screen.width
      ensures RowShows(m, w'.screen, w'.memory.frame, row)
    {
      PaintShows(m, w.screen, w.memory, frame, row);
      if w.memory.frame != [] && !stale { assert RowShows(m, w.screen, w.memory.frame, row); }
    }
  }

  lemma {:induction false} SizeKept(m: Metrics, s: Screen, commands: seq<Command>)
    ensures var s' := PutAll(m, s, commands); |s'.rows| == |s.rows| && s'.width == s.width
    decreases |commands|
  {
    if commands != [] { SizeKept(m, s, commands[..|commands| - 1]); }
  }

  /** Every paint of a resized screen finds another size than the remembered one,
      or a reset before it. */
  predicate Guarded(m: Metrics, width: nat, height: nat, steps: seq<Step>) {
    if steps == [] then true
    else
      var front, step := steps[..|steps| - 1], steps[|steps| - 1];
      var w := Run(m, width, height, front);
      && Guarded(m, width, height, front)
      && (step.Paint? && Stale(front) ==> MustClear(w.memory, w.screen.width, |w.screen.rows|))
  }

  /** Over any run of paints, resizes and resets: after a paint every row shows
      its line of the frame, clamped, and blank past its end. */
  lemma {:induction false} PaintedScreenIsTheFrame(m: Metrics, width: nat, height: nat, steps: seq<Step>, frame: seq<Line>)
    requires ClampFits(m) && Guarded(m, width, height, steps + [Paint(frame)])
    ensures var w := Run(m, width, height, steps);
            var w' := Run(m, width, height, steps + [Paint(frame)]);
            && |w'.screen.rows| == |w.screen.rows| && w'.screen.width == w.screen.width
            && ScreenShows(m, w'.screen, Clipped(frame, |w.screen.rows|))
  {
    hide PutAll, PaintCommands, Shown;
    assert (steps + [Paint(frame)])[..|steps|] == steps;
    TrustedAlways(m, width, height, steps);
    PaintTrusted(m, Run(m, width, height, steps), frame, Stale(steps));
  }

  // ---- which rows are right, exactly ---------------------------------------------------------------

  /** What the painter's caller knows without looking at the screen. */
  datatype Known = Known(width: nat, height: nat, memory: Memory)

  function KnownAfter(width: nat, height: nat, steps: seq<Step>): Known {
    if steps == [] then Known(width, height, EMPTY)
    else
      var k := KnownAfter(width, height, steps[..|steps| - 1]);
      match steps[|steps| - 1]
      case Paint(frame) => k.(memory := Painted(k.memory, frame, k.width, k.height))
      case Resize(width, height) => k.(width := width, height := height)
      case Reset => k.(memory := k.memory.(frame := []))
  }

  /** Since the last resize some paint has cleared the screen or rewritten the row. */
  predicate Rewritten(width: nat, height: nat, steps: seq<Step>, row: nat) {
    if steps == [] then false
    else
      var front := steps[..|steps| - 1];
      var k := KnownAfter(width, height, front);
      match steps[|steps| - 1]
      case Paint(frame) =>
        || MustClear(k.memory, k.width, k.height) || !Skips(k.memory.frame, Clipped(frame, k.height), row)
        || Rewritten(width, height, front, row)
      case Resize(_, _) => false
      case Reset => Rewritten(width, height, front, row)
  }

  predicate AllRewritten(width: nat, height: nat, steps: seq<Step>) {
    forall row :: 0 <= row < KnownAfter(width, height, steps).height ==> Rewritten(width, height, steps, row)
  }

  lemma {:induction false} KnownIsSo(m: Metrics, width: nat, height: nat, steps: seq<Step>)
    ensures var w := Run(m, width, height, steps);
            KnownAfter(width, height, steps) == Known(w.screen.width, |w.screen.rows|, w.memory)
    decreases |steps|
  {
    hide PutAll, PaintCommands, Painted;
    if steps != [] {
      var front, step := steps[..|steps| - 1], steps[|steps| - 1];
      KnownIsSo(m, width, height, front);
      var w := Run(m, width, height, front);
      if step.Paint? { SizeKept(m, w.screen, PaintCommands(m, w.memory, step.frame, w.screen.width, |w.screen.rows|)); }
    }
  }

  /** Over any run at all, guarded or not: while a frame is remembered, and after
      every paint, a row shows its line of the frame if and only if some paint
      since the last resize has cleared the screen or rewritten the row. */
  lemma {:induction false} RowShowsExactly(m: Metrics, width: nat, height: nat, steps: seq<Step>, row: nat)
    requires ClampFits(m) && row < |Run(m, width, height, steps).screen.rows|
    ensures var w := Run(m, width, height, steps);
            w.memory.frame != [] || (steps != [] && steps[|steps| - 1].Paint?) ==>
              (RowShows(m, w.screen, w.memory.frame, row) <==> Rewritten(width, height, steps, row))
    decreases |steps|
  {
    hide PutAll, PaintCommands, Shown, KnownAfter, Skips;
    if steps != [] {
      var front, step := steps[..|steps| - 1], steps[|steps| - 1];
      var w := Run(m, width, height, front);
      KnownIsSo(m, width, height, front);
      if step.Paint? {
        SizeKept(m, w.screen, PaintCommands(m, w.memory, step.frame, w.screen.width, |w.screen.rows|));
        RowShowsExactly(m, width, height, front, row);
        PaintShows(m, w.screen, w.memory, step.frame, row);
      }
    }
  }

  /** A paint shows the whole frame if and only if every row has been cleared or
      rewritten since the last resize. */
  lemma {:induction false} PaintShowsExactly(m: Metrics, width: nat, height: nat, steps: seq<Step>, frame: seq<Line>)
    requires ClampFits(m)
    ensures var size := |Run(m, width, height, steps).screen.rows|;
            var painted := steps + [Paint(frame)];
            && |Run(m, width, height, painted).screen.rows| == size
            && (ScreenShows(m, Run(m, width, height, painted).screen, Clipped(frame, size))
                <==> AllRewritten(width, height, painted))
  {
    hide PutAll, PaintCommands, Shown, Rewritten;
    var painted := steps + [Paint(frame)];
    assert painted[..|steps|] == steps;
    var w := Run(m, width, height, steps);
    SizeKept(m, w.screen, PaintCommands(m, w.memory, frame, w.screen.width, |w.screen.rows|));
    var w' := Run(m, width, height, painted);
    assert w' == Do(m, w, Paint(frame));
    KnownIsSo(m, width, height, painted);
    forall row | 0 <= row < |w.screen.rows|
      ensures RowShows(m, w'.screen, Clipped(frame, |w.screen.rows|), row) <==> Rewritten(width, height, painted, row)
    {
      RowShowsExactly(m, width, height, painted, row);
    }
  }

  /** The diffed paint leaves the very screen a forced repaint leaves if and only
      if every row has been cleared or rewritten since the last resize. */
  lemma {:induction false} DiffIsRepaint(m: Metrics, width: nat, height: nat, steps: seq<Step>, frame: seq<Line>)
    requires ClampFits(m)
    ensures var painted := steps + [Paint(frame)];
            Run(m, width, height, painted).screen == Run(m, width, height, steps + [Reset, Paint(frame)]).screen
            <==> AllRewritten(width, height, painted)
  {
    hide PutAll, PaintCommands, Shown, AllRewritten;
    var w := Run(m, width, height, steps);
    var size := |w.screen.rows|;
    PaintShowsExactly(m, width, height, steps, frame);
    assert (steps + [Paint(frame)])[..|steps|] == steps;
    assert (steps + [Reset, Paint(frame)])[..|steps| + 1] == steps + [Reset];
    assert (steps + [Reset])[..|steps|] == steps;
    var a := Do(m, w, Paint(frame)).screen;
    var b := Do(m, Do(m, w, Reset), Paint(frame)).screen;
    SizeKept(m, w.screen, PaintCommands(m, w.memory, frame, w.screen.width, size));
    PaintTrusted(m, Do(m, w, Reset), frame, true);
    if ScreenShows(m, a, Clipped(frame, size)) { SameShown(m, a, b, Clipped(frame, size)); }
  }

  lemma {:induction false} SameShown(m: Metrics, a: Screen, b: Screen, frame: seq<Line>)
    requires ScreenShows(m, a, frame) && ScreenShows(m, b, frame) && |a.rows| == |b.rows| && a.width == b.width
    ensures a == b
  {
    hide Shown;
    forall row | 0 <= row < |a.rows|
      ensures a.rows[row] == b.rows[row]
    {
      assert RowShows(m, a, frame, row) && RowShows(m, b, frame, row);
    }
  }

  /** Where every paint of a resized screen finds another size or a reset, every
      row is always rewritten. */
  lemma {:induction false} GuardedRewrites(m: Metrics, width: nat, height: nat, steps: seq<Step>, frame: seq<Line>)
    requires ClampFits(m) && Guarded(m, width, height, steps + [Paint(frame)])
    ensures var painted := steps + [Paint(frame)];
            && AllRewritten(width, height, painted)
            && Run(m, width, height, painted).screen == Run(m, width, height, steps + [Reset, Paint(frame)]).screen
  {
    hide PutAll, PaintCommands, Shown, AllRewritten, Guarded;
    PaintedScreenIsTheFrame(m, width, height, steps, frame);
    PaintShowsExactly(m, width, height, steps, frame);
    DiffIsRepaint(m, width, height, steps, frame);
  }

  /** The guard is needed: a screen resized and resized back behind the painter's
      back keeps the rows it skips unknown, and only those. */
  lemma {:induction false} ResizedBackIsNotNoticed(m: Metrics, width: nat, height: nat, steps: seq<Step>, frame: seq<Line>, row: nat)
    requires ClampFits(m)
    requires var w := Run(m, width, height, steps);
             && row < |w.screen.rows| && !MustClear(w.memory, w.screen.width, |w.screen.rows|)
    ensures var w := Run(m, width, height, steps);
            var size := |w.screen.rows|;
            var again := Run(m, width, height, steps + [Resize(w.screen.width, size)] + [Paint(frame)]);
            RowShows(m, again.screen, Clipped(frame, size), row) <==> !Skips(w.memory.frame, Clipped(frame, size), row)
  {
    hide PutAll, PaintCommands, Shown;
    var w := Run(m, width, height, steps);
    var resize := Resize(w.screen.width, |w.screen.rows|);
    assert (steps + [resize] + [Paint(frame)])[..|steps| + 1] == steps + [resize];
    assert (steps + [resize])[..|steps|] == steps;
    PaintShows(m, Unknown(w.screen.width, |w.screen.rows|), w.memory, frame, row);
  }
}
