/** The viewport object: scroll position, following, and the painter's memory,
    changed in place. */
module FullscreenViewports {
  import opened Fullscreen

  /** How image lines are told apart, and how a selection highlights the transcript
      line with a given index. */
  datatype Looks = Looks(isImage: Line -> bool, highlight: (nat, Line) -> Line)

  function DockTail(dock: seq<Line>, height: nat): seq<Line> {
    dock[|dock| - ClippedDockHeight(|dock|, height)..]
  }

  function WindowHeight(dock: seq<Line>, height: nat): nat { height - |DockTail(dock, height)| }

  function MaxScroll(transcript: seq<Line>, dock: seq<Line>, height: nat): nat {
    Max(0, |transcript| - WindowHeight(dock, height))
  }

  /** Following pins the window to the end; otherwise it stays where it is, as far
      as the transcript reaches. */
  function ScrollTop(following: bool, scrollTop: nat, maxScroll: nat): (r: nat)
    ensures r <= maxScroll
    ensures following ==> r == maxScroll
    ensures !following && scrollTop <= maxScroll ==> r == scrollTop
  {
    if following then maxScroll else Min(scrollTop, maxScroll)
  }

  function WindowRow(looks: Looks, transcript: seq<Line>, index: nat): Line {
    if index >= |transcript| then ""
    else looks.highlight(index, if looks.isImage(transcript[index]) then IMAGE_PLACEHOLDER else transcript[index])
  }

  class FullscreenViewport {
    const metrics: Metrics
    var scrollTop: nat
    var following: bool
    var lastMaxScroll: nat
    var lastWindowHeight: nat
    var prevFrame: seq<Line>
    var prevWidth: nat
    var prevHeight: nat

    ghost function Memory(): Memory
      reads this
    {
      Fullscreen.Memory(prevFrame, prevWidth, prevHeight)
    }

    ghost predicate Valid()
      reads this
    {
      scrollTop <= lastMaxScroll
    }

    constructor (metrics: Metrics)
      ensures Valid() && this.metrics == metrics && Memory() == EMPTY && following
    {
      this.metrics := metrics;
      scrollTop, following, lastMaxScroll, lastWindowHeight := 0, true, 0, 0;
      prevFrame, prevWidth, prevHeight := [], 0, 0;
    }

    /** Exactly `height` rows: the scrolled window, then the end of the dock. */
    method ComposeFrame(looks: Looks, transcript: seq<Line>, dock: seq<Line>, height: nat) returns (frame: seq<Line>)
      requires Valid()
      modifies this`scrollTop, this`lastMaxScroll, this`lastWindowHeight
      ensures Valid() && lastMaxScroll == MaxScroll(transcript, dock, height) && lastWindowHeight == WindowHeight(dock, height)
      ensures scrollTop == ScrollTop(following, old(scrollTop), lastMaxScroll)
      ensures |frame| == height
      ensures forall row :: 0 <= row < lastWindowHeight ==> frame[row] == WindowRow(looks, transcript, scrollTop + row)
      ensures frame[lastWindowHeight..] == DockTail(dock, height)
    {
      var dockLines := dock;
      var dockHeight := ClippedDockHeight(|dock|, height);
      if |dockLines| > dockHeight { dockLines := dockLines[|dockLines| - dockHeight..]; }
      assert dockLines == DockTail(dock, height);
      var windowHeight := height - |dockLines|;
      var maxScroll := Max(0, |transcript| - windowHeight);
      scrollTop := if following then maxScroll else Max(0, Min(scrollTop, maxScroll));
      lastMaxScroll, lastWindowHeight := maxScroll, windowHeight;
      var window := ComposeWindow(looks, transcript, windowHeight);
      frame := window + dockLines;
    }

    /** The transcript's rows in the window, then blank ones. */
    method ComposeWindow(looks: Looks, transcript: seq<Line>, windowHeight: nat) returns (window: seq<Line>)
      requires scrollTop <= |transcript|
      ensures |window| == windowHeight
      ensures forall k :: 0 <= k < windowHeight ==> window[k] == WindowRow(looks, transcript, scrollTop + k)
    {
      var shown := Min(scrollTop + windowHeight, |transcript|) - scrollTop;
      window := transcript[scrollTop..scrollTop + shown];
      for i := 0 to |window|
        invariant |window| == shown
        invariant forall k :: 0 <= k < i ==> window[k] == WindowRow(looks, transcript, scrollTop + k)
        invariant forall k :: i <= k < shown ==> window[k] == transcript[scrollTop + k]
      {
        window := window[i := looks.highlight(scrollTop + i, if looks.isImage(window[i]) then IMAGE_PLACEHOLDER else window[i])];
      }
      while |window| < windowHeight
        invariant shown <= |window| <= windowHeight
        invariant forall k :: 0 <= k < |window| ==> window[k] == WindowRow(looks, transcript, scrollTop + k)
        decreases windowHeight - |window|
      {
        window := window + [""];
      }
    }

    /** Only rows that differ from the last frame are written. */
    method Paint(frame: seq<Line>, width: nat, height: nat) returns (commands: seq<Command>)
      modifies this`prevFrame, this`prevWidth, this`prevHeight
      ensures commands == PaintCommands(metrics, old(Memory()), frame, width, height)
      ensures Memory() == Painted(old(Memory()), frame, width, height)
    {
      hide RowCommands, Skips;
      var clipped := frame;
      if |clipped| > height { clipped := clipped[|clipped| - height..]; }
      commands := [];
      if width != prevWidth || height != prevHeight || |prevFrame| == 0 {
        commands := [ClearScreen];
        prevFrame := [];
      }
      var rows := PaintRows(clipped, width, height);
      commands := commands + rows;
      prevFrame, prevWidth, prevHeight := clipped, width, height;
    }

    /** The rows whose line is not the remembered one. */
    method PaintRows(frame: seq<Line>, width: nat, height: nat) returns (commands: seq<Command>)
      ensures commands == RowCommands(metrics, prevFrame, frame, width, height)
    {
      hide Shown;
      commands := [];
      for row := 0 to height
        invariant commands == RowCommands(metrics, prevFrame, frame, width, row)
      {
        var line := if row < |frame| then frame[row] else "";
        if row < |prevFrame| && prevFrame[row] == line { continue; }
        ShownIs(metrics, line, width);
        commands := commands + [Row(row, if metrics.width(line) > width then metrics.clamp(line, width) else line)];
      }
    }

    method Reset()
      modifies this`prevFrame
      ensures Memory() == old(Memory()).(frame := [])
    {
      prevFrame := [];
    }

    /** Scrolling up pauses following; reaching the bottom resumes it. */
    method ScrollBy(delta: int)
      requires Valid()
      modifies this`scrollTop, this`following
      ensures Valid() && (following <==> scrollTop == lastMaxScroll)
      ensures var base := if old(following) then lastMaxScroll else old(scrollTop);
              && (delta >= 0 ==> scrollTop == Min(base + delta, lastMaxScroll))
              && (delta < 0 ==> scrollTop == Max(0, base + delta))
    {
      var base := if following then lastMaxScroll else scrollTop;
      scrollTop := Max(0, Min(base + delta, lastMaxScroll));
      following := scrollTop >= lastMaxScroll;
    }

    method ScrollToTop()
      requires Valid()
      modifies this`scrollTop, this`following
      ensures Valid() && scrollTop == 0 && (following <==> scrollTop == lastMaxScroll)
    {
      scrollTop := 0;
      following := lastMaxScroll == 0;
    }

    method ScrollToBottom()
      requires Valid()
      modifies this`scrollTop, this`following
      ensures Valid() && scrollTop == lastMaxScroll && following
    {
      scrollTop := lastMaxScroll;
      following := true;
    }
  }

  lemma {:induction false} ShownIs(m: Metrics, line: Line, width: nat)
    ensures Shown(m, line, width) == if m.width(line) > width then m.clamp(line, width) else line
  {}

  /** While following is paused, content may be appended any number of times: the
      window keeps its place and shows the same transcript rows. */
  lemma {:induction false} PausedWindowStays(looks: Looks, transcript: seq<Line>, more: seq<Line>, dock: seq<Line>, height: nat,
                                             scrollTop: nat, row: nat)
    requires scrollTop <= MaxScroll(transcript, dock, height)
    requires row < WindowHeight(dock, height) && scrollTop + row < |transcript|
    ensures ScrollTop(false, scrollTop, MaxScroll(transcript + more, dock, height)) == scrollTop
    ensures WindowRow(looks, transcript + more, scrollTop + row) == WindowRow(looks, transcript, scrollTop + row)
  {
    assert (transcript + more)[scrollTop + row] == transcript[scrollTop + row];
  }

  /** A full window never shows a blank row while there is transcript above it. */
  lemma {:induction false} WindowIsFull(following: bool, transcript: seq<Line>, dock: seq<Line>, height: nat, scrollTop: nat, row: nat)
    requires row < WindowHeight(dock, height) && WindowHeight(dock, height) <= |transcript|
    ensures ScrollTop(following, scrollTop, MaxScroll(transcript, dock, height)) + row < |transcript|
  {}
}
