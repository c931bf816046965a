/** The scrolling window of the fullscreen viewport and its transcript selection (`fullscreen.ts`). */
module Viewport {
  import opened Messages
  import Framing

  const MIN_TRANSCRIPT_ROWS: nat := 3

  function Max(a: int, b: int): int {
    if a > b then a else b
  }

  function Min(a: int, b: int): int {
    if a < b then a else b
  }

  /** `clippedFullscreenDockHeight`. */
  function ClippedDockHeight(dockLength: nat, height: nat): nat {
    Min(dockLength, Max(0, height - MIN_TRANSCRIPT_ROWS))
  }

  /** The bottom of the dock wins over what is above it. */
  function VisibleDock(dock: seq<string>, height: nat): (d: seq<string>)
    ensures |d| == ClippedDockHeight(|dock|, height)
    ensures height - |d| >= Min(MIN_TRANSCRIPT_ROWS, height)
    ensures |d| <= |dock| && d == dock[|dock| - |d|..]
    ensures |d| < |dock| ==> height - |d| <= MIN_TRANSCRIPT_ROWS
  {
    dock[|dock| - ClippedDockHeight(|dock|, height)..]
  }

  /** A place in the transcript: line and visible column. */
  datatype Point = Point(line: nat, col: nat)

  datatype Selection = Selection(start: Point, end: Point)

  /** Columns of one line; no `to` means the end of the line. */
  datatype Span = Span(from: nat, to: Option<nat>)

  /** How lines look and measure; the text functions of the terminal layer. */
  datatype Look = Look(
    plain: string -> string,              // an image line becomes a placeholder
    highlight: (string, Span) -> string,
    cut: (string, Span) -> string,        // the plain text of a span, trailing blanks removed
    blank: string -> bool)

  function Ordered(anchor: Option<Point>, head: Option<Point>): Option<Selection> {
    if anchor == None || head == None || anchor == head then None
    else
      var a, b := anchor.value, head.value;
      if a.line > b.line || (a.line == b.line && a.col > b.col) then Some(Selection(b, a)) else Some(Selection(a, b))
  }

  /** The order of reading: by line, then by column. */
  predicate Before(p: Point, q: Point) {
    p.line < q.line || (p.line == q.line && p.col < q.col)
  }

  /** There is a selection exactly when two different places are given, and it runs from the earlier to the later. */
  lemma OrderedSorts(a: Option<Point>, b: Option<Point>)
    ensures Ordered(a, b) == None <==> a == None || b == None || a == b
    ensures Ordered(a, b).Some? ==>
              var s := Ordered(a, b).value;
              Before(s.start, s.end) && multiset{s.start, s.end} == multiset{a.value, b.value}
  {
  }

  /** Swapping the two ends of a selection changes nothing. */
  lemma OrderedIsSymmetric(a: Option<Point>, b: Option<Point>)
    ensures Ordered(a, b) == Ordered(b, a)
  {
  }

  function SpanOn(line: nat, s: Selection): Option<Span> {
    if line < s.start.line || line > s.end.line then None
    else Some(Span(if line == s.start.line then s.start.col else 0,
                   if line == s.end.line then Some(s.end.col) else None))
  }

  predicate Covers(span: Option<Span>, col: nat) {
    span.Some? && span.value.from <= col && (span.value.to.Some? ==> col < span.value.to.value)
  }

  /** A line's span covers exactly the places from the start of the selection up to its end. */
  lemma SpanCoversTheSelection(line: nat, col: nat, s: Selection)
    requires Before(s.start, s.end)
    ensures Covers(SpanOn(line, s), col) <==> !Before(Point(line, col), s.start) && Before(Point(line, col), s.end)
  {
  }

  /** One row of the window. */
  function Drawn(look: Look, transcript: seq<string>, line: nat, s: Option<Selection>): string {
    if line >= |transcript| then ""
    else if s.Some? && SpanOn(line, s.value).Some?
      then look.highlight(look.plain(transcript[line]), SpanOn(line, s.value).value)
    else look.plain(transcript[line])
  }

  /** The rows of the window, from the line at its top. */
  function Window(look: Look, transcript: seq<string>, top: nat, rows: nat, s: Option<Selection>): (w: seq<string>)
    ensures |w| == rows
    ensures forall r :: 0 <= r < rows ==> w[r] == Drawn(look, transcript, top + r, s)
  {
    seq(rows, r requires 0 <= r < rows => Drawn(look, transcript, top + r, s))
  }

  /** A window that is full shows the same rows whatever is appended below. */
  lemma FullWindowStays(look: Look, transcript: seq<string>, more: seq<string>, top: nat, rows: nat, s: Option<Selection>)
    requires top + rows <= |transcript|
    ensures Window(look, transcript + more, top, rows, s) == Window(look, transcript, top, rows, s)
  {
  }

  // ----- the text of a selection -----

  function LineOr(transcript: seq<string>, line: nat): string {
    if line < |transcript| then transcript[line] else ""
  }

  /** The lines that a selection reads, top to bottom. */
  function SelectedLines(transcript: seq<string>, s: Selection): (r: seq<string>)
    ensures s.end.line >= s.start.line ==> |r| == s.end.line - s.start.line + 1
    ensures forall k :: 0 <= k < |r| ==> r[k] == LineOr(transcript, s.start.line + k)
  {
    if s.end.line < s.start.line then []
    else seq(s.end.line - s.start.line + 1,
             k requires 0 <= k < s.end.line - s.start.line + 1 => LineOr(transcript, s.start.line + k))
  }

  function Pieces(look: Look, lines: seq<string>, s: Selection): seq<string> {
    if lines == [] then []
    else Pieces(look, lines[..|lines| - 1], s)
         + [look.cut(lines[|lines| - 1], OrFull(SpanOn(s.start.line + |lines| - 1, s)))]
  }

  function OrFull(span: Option<Span>): Span {
    if span.Some? then span.value else Span(0, None)
  }

  function JoinLines(pieces: seq<string>): string {
    if pieces == [] then ""
    else if |pieces| == 1 then pieces[0]
    else JoinLines(pieces[..|pieces| - 1]) + "\n" + pieces[|pieces| - 1]
  }

  /** Each line gives its part of the selection: the first from its start, the last to its end, the others whole. */
  lemma {:induction false} PieceAt(look: Look, lines: seq<string>, s: Selection, k: nat)
    requires k < |lines| <= s.end.line - s.start.line + 1
    ensures |Pieces(look, lines, s)| == |lines|
    ensures Pieces(look, lines, s)[k]
         == look.cut(lines[k], Span(if k == 0 then s.start.col else 0,
                                    if s.start.line + k == s.end.line then Some(s.end.col) else None))
  {
    var n := |lines| - 1;
    if k < n {
      PieceAt(look, lines[..n], s, k);
    } else if n > 0 {
      PieceAt(look, lines[..n], s, 0);
    }
  }

  /** The pieces can be read back from the text, since none of them holds a line break. */
  lemma {:induction false} PiecesAreTheLines(pieces: seq<string>)
    requires |pieces| > 0 && forall k :: 0 <= k < |pieces| ==> '\n' !in pieces[k]
    ensures Framing.Lines(JoinLines(pieces), '\n') == pieces[..|pieces| - 1]
    ensures Framing.Rest(JoinLines(pieces), '\n') == pieces[|pieces| - 1]
  {
    hide Framing.Lines, Framing.Rest, Framing.Find;
    var n := |pieces| - 1;
    var front, last := pieces[..n], pieces[n];
    if n == 0 {
      assert last == Framing.Join([], '\n') + last;
      Framing.LinesOfJoin([], last, '\n');
    } else {
      PiecesAreTheLines(front);
      var text := JoinLines(front);
      assert JoinLines(pieces) == text + ("\n" + last);
      Framing.LinesAppend(text, "\n" + last, '\n');
      assert front[n - 1] + ("\n" + last) == front[n - 1] + ['\n'] + last;
      Framing.FirstLine(front[n - 1], last, '\n');
      assert last == Framing.Join([], '\n') + last;
      Framing.LinesOfJoin([], last, '\n');
      assert front[..n - 1] + ([front[n - 1]] + []) == front;
    }
  }

  /** `extractSelectionText`. */
  function SelectionText(look: Look, transcript: seq<string>, s: Selection): Option<string> {
    var text := JoinLines(Pieces(look, SelectedLines(transcript, s), s));
    if look.blank(text) then None else Some(text)
  }

  /** No append can change what a selection reads exactly when the selection ends inside the transcript. */
  lemma SelectionSurvivesAppends(transcript: seq<string>, s: Selection)
    requires s.start.line <= s.end.line
    ensures (forall more: seq<string> :: SelectedLines(transcript + more, s) == SelectedLines(transcript, s))
       <==> s.end.line < |transcript|
  {
    if s.end.line < |transcript| {
      forall more: seq<string> ensures SelectedLines(transcript + more, s) == SelectedLines(transcript, s) {
      }
    } else {
      var more := seq(s.end.line - |transcript| + 1, k => "x");
      var k := s.end.line - s.start.line;
      assert LineOr(transcript + more, s.end.line) == "x" && LineOr(transcript, s.end.line) == "";
      assert SelectedLines(transcript + more, s)[k] == "x" && SelectedLines(transcript, s)[k] == "";
    }
  }

  lemma TextSurvivesAppends(look: Look, transcript: seq<string>, more: seq<string>, s: Selection)
    requires s.start.line <= s.end.line < |transcript|
    ensures SelectionText(look, transcript + more, s) == SelectionText(look, transcript, s)
  {
    SelectionSurvivesAppends(transcript, s);
  }

  class FullscreenViewport {
    const look: Look
    var scrollTop: nat
    var following: bool
    var lastMaxScroll: nat
    var lastWindowHeight: nat
    var lastTranscript: seq<string>
    var lastFrameVisibleStart: nat
    var lastFrameVisibleHeight: nat
    var selectionAnchor: Option<Point>
    var selectionHead: Option<Point>

    /** The scroll position stays on the transcript. */
    ghost predicate Valid()
      reads this
    {
      && scrollTop <= lastMaxScroll
      && lastMaxScroll == Max(0, |lastTranscript| - lastWindowHeight)
      && (selectionAnchor == None <==> selectionHead == None)
    }

    constructor (look: Look)
      ensures Valid() && following && scrollTop == 0 && selectionAnchor == None
    {
      this.look := look;
      scrollTop, following, lastMaxScroll, lastWindowHeight, lastTranscript := 0, true, 0, 0, [];
      lastFrameVisibleStart, lastFrameVisibleHeight := 0, 0;
      selectionAnchor, selectionHead := None, None;
    }

    function CurrentSelection(): Option<Selection>
      reads this
    {
      Ordered(selectionAnchor, selectionHead)
    }

    /** What the last composed window shows. */
    ghost function LastWindow(): seq<string>
      reads this
    {
      Window(look, lastTranscript, scrollTop, lastWindowHeight, CurrentSelection())
    }

    method ComposeFrame(transcript: seq<string>, dock: seq<string>, height: nat) returns (frame: seq<string>)
      requires Valid()
      modifies this`scrollTop, this`lastMaxScroll, this`lastWindowHeight, this`lastTranscript
      ensures Valid() && |frame| == height
      ensures lastTranscript == transcript && lastWindowHeight == height - |VisibleDock(dock, height)|
      ensures lastWindowHeight >= Min(MIN_TRANSCRIPT_ROWS, height)
      ensures scrollTop == if following then lastMaxScroll else Min(old(scrollTop), lastMaxScroll)
      ensures frame == LastWindow() + VisibleDock(dock, height)
      // paused on a full window, appends below do not move it
      ensures !following && old(lastTranscript) <= transcript && lastWindowHeight == old(lastWindowHeight)
              && old(scrollTop) + lastWindowHeight <= |old(lastTranscript)| ==>
                frame[..lastWindowHeight] == old(LastWindow())
    {
      var dockLines := dock;
      var dockHeight := ClippedDockHeight(|dockLines|, height);
      if |dockLines| > dockHeight {
        dockLines := dockLines[|dockLines| - dockHeight..];
      }
      var windowHeight := height - |dockLines|;
      var maxScroll := Max(0, |transcript| - windowHeight);
      ghost var top0, seen := scrollTop, LastWindow();
      if following {
        scrollTop := maxScroll;
      } else {
        scrollTop := Max(0, Min(scrollTop, maxScroll));
      }
      if !following && old(lastTranscript) <= transcript && windowHeight == old(lastWindowHeight)
         && top0 + windowHeight <= |old(lastTranscript)| {
        var more := transcript[|lastTranscript|..];
        assert transcript == lastTranscript + more;
        FullWindowStays(look, lastTranscript, more, top0, windowHeight, CurrentSelection());
      }
      lastMaxScroll, lastWindowHeight, lastTranscript := maxScroll, windowHeight, transcript;

      var window := DrawWindow(transcript, windowHeight);
      frame := window + dockLines;
    }

    /** The rows on screen, images replaced and the selection highlighted, padded to the height of the window. */
    method DrawWindow(transcript: seq<string>, windowHeight: nat) returns (window: seq<string>)
      requires scrollTop <= Max(0, |transcript| - windowHeight)
      ensures window == Window(look, transcript, scrollTop, windowHeight, CurrentSelection())
      ensures |window| == windowHeight
      ensures forall r :: 0 <= r < windowHeight && scrollTop + r >= |transcript| ==> window[r] == ""
      ensures forall r :: 0 <= r < windowHeight && scrollTop + r < |transcript| ==>
                var plain := look.plain(transcript[scrollTop + r]);
                var s := CurrentSelection();
                window[r] == if s.Some? && s.value.start.line <= scrollTop + r <= s.value.end.line
                             then look.highlight(plain, SpanOn(scrollTop + r, s.value).value) else plain
    {
      window := [];
      var sel := Ordered(selectionAnchor, selectionHead);
      for i := 0 to Min(windowHeight, |transcript| - scrollTop)
        invariant |window| == i
        invariant forall r :: 0 <= r < i ==> window[r] == Drawn(look, transcript, scrollTop + r, sel)
      {
        var line := look.plain(transcript[scrollTop + i]);
        if sel.Some? {
          var span := SpanOn(scrollTop + i, sel.value);
          if span.Some? {
            line := look.highlight(line, span.value);
          }
        }
        window := window + [line];
      }
      while |window| < windowHeight
        invariant Min(windowHeight, |transcript| - scrollTop) <= |window| <= windowHeight
        invariant forall r :: 0 <= r < |window| ==> window[r] == Drawn(look, transcript, scrollTop + r, sel)
      {
        window := window + [""];
      }
    }

    /** A relative move; the window follows new lines exactly while it is at the end. */
    method ScrollBy(delta: int)
      requires Valid()
      modifies this`scrollTop, this`following
      ensures Valid() && (following <==> scrollTop == lastMaxScroll)
      ensures scrollTop == Max(0, Min((if old(following) then lastMaxScroll else old(scrollTop)) + delta, lastMaxScroll))
    {
      var base := if following then lastMaxScroll else scrollTop;
      scrollTop := Max(0, Min(base + delta, lastMaxScroll));
      following := scrollTop >= lastMaxScroll;
    }

    method ScrollToTop()
      requires Valid()
      modifies this`scrollTop, this`following
      ensures Valid() && scrollTop == 0 && (following <==> scrollTop == lastMaxScroll)
    {
      scrollTop := 0;
      following := lastMaxScroll == 0;
    }

    method ScrollToBottom()
      requires Valid()
      modifies this`scrollTop, this`following
      ensures Valid() && following && scrollTop == lastMaxScroll
    {
      scrollTop := lastMaxScroll;
      following := true;
    }

    // ----- selecting -----

    /** The visible frame rows that belong to the transcript, first and last; none when there are none. */
    function TranscriptBounds(): Option<(nat, nat)>
      reads this`lastWindowHeight, this`lastFrameVisibleHeight, this`lastFrameVisibleStart
    {
      var visibleHeight := if lastFrameVisibleHeight > 0 then lastFrameVisibleHeight else lastWindowHeight;
      var visibleStart := if lastFrameVisibleHeight > 0 then lastFrameVisibleStart else 0;
      var last := Min(lastWindowHeight - 1, visibleStart + visibleHeight - 1);
      if lastWindowHeight == 0 || visibleStart > last then None else Some((visibleStart, last))
    }

    /** `transcriptLineForScreenRow`. */
    function LineForRow(screenRow: int, clamp: bool): (r: Option<nat>)
      reads this`scrollTop, this`lastWindowHeight, this`lastFrameVisibleHeight, this`lastFrameVisibleStart
      ensures r.Some? ==> scrollTop <= r.value < scrollTop + lastWindowHeight
    {
      var visibleHeight := if lastFrameVisibleHeight > 0 then lastFrameVisibleHeight else lastWindowHeight;
      var visibleStart := if lastFrameVisibleHeight > 0 then lastFrameVisibleStart else 0;
      var bounds := TranscriptBounds();
      if bounds == None then None
      else
        var (first, last) := bounds.value;
        if !clamp && !(0 <= screenRow < visibleHeight) then None
        else
          var row := if clamp then Max(0, Min(screenRow, visibleHeight - 1)) else screenRow;
          var frameLine := visibleStart + row;
          if !clamp && !(first <= frameLine <= last) then None
          else Some(scrollTop + Max(first, Min(frameLine, last)))
    }

    /** The first row of the last frame that is on screen, and how many are. */
    function VisibleRows(): (nat, nat)
      reads this`lastWindowHeight, this`lastFrameVisibleHeight, this`lastFrameVisibleStart
    {
      if lastFrameVisibleHeight > 0 then (lastFrameVisibleStart, lastFrameVisibleHeight) else (0, lastWindowHeight)
    }

    /**
     * A click maps to a line exactly when it is on a visible row of the window, and then to the line drawn
     * there. Clamped, a row above or below maps to the first or the last visible one.
     */
    lemma RowsMapToWhatIsDrawn(row: int)
      ensures var (start, height) := VisibleRows();
              LineForRow(row, false) == if 0 <= row < height && start + row < lastWindowHeight then Some(scrollTop + start + row) else None
      ensures var (start, height) := VisibleRows();
              LineForRow(row, true) == if start >= lastWindowHeight then None
                                       else if row < 0 then Some(scrollTop + start)
                                       else Some(scrollTop + Min(start + row, Min(lastWindowHeight, start + height) - 1))
      ensures LineForRow(row, false).Some? ==>
                var at := VisibleRows().0 + row;
                at < |LastWindow()|
                && LastWindow()[at] == Drawn(look, lastTranscript, LineForRow(row, false).value, CurrentSelection())
    {
    }

    method BeginSelection(screenRow: int, screenCol: int) returns (ok: bool)
      requires Valid()
      modifies this`selectionAnchor, this`selectionHead
      ensures Valid() && (ok <==> LineForRow(screenRow, false).Some?)
      ensures ok ==> selectionAnchor == selectionHead == Some(Point(LineForRow(screenRow, false).value, Max(0, screenCol)))
      ensures !ok ==> selectionAnchor == None
    {
      var line := LineForRow(screenRow, false);
      ok := line.Some?;
      if ok {
        selectionAnchor := Some(Point(line.value, Max(0, screenCol)));
        selectionHead := selectionAnchor;
      } else {
        selectionAnchor, selectionHead := None, None;
      }
    }

    /** Lower rows never map to earlier lines, and clamping changes nothing where a click would hit. */
    lemma RowsInOrder(a: int, b: int)
      requires a <= b
      ensures LineForRow(a, true).Some? <==> LineForRow(b, true).Some?
      ensures LineForRow(a, true).Some? ==> LineForRow(a, true).value <= LineForRow(b, true).value
      ensures LineForRow(a, false).Some? ==> LineForRow(a, true) == LineForRow(a, false)
    {
    }

    /**
     * Drag the head of the selection. It stays in the window, on the line that a click there would hit,
     * or on the first or last visible one when the pointer is above or below.
     */
    method ExtendSelection(screenRow: int, screenCol: int)
      requires Valid()
      modifies this`selectionHead
      ensures Valid() && (selectionAnchor == None ==> selectionHead == None)
      ensures selectionHead != old(selectionHead) ==>
                selectionHead.Some? && scrollTop <= selectionHead.value.line < scrollTop + lastWindowHeight
      ensures selectionAnchor.Some? && LineForRow(screenRow, false).Some? ==>
                selectionHead == Some(Point(LineForRow(screenRow, false).value, Max(0, screenCol)))
      ensures forall row :: selectionAnchor.Some? && LineForRow(row, false).Some? ==>
                if screenRow <= row then selectionHead.value.line <= LineForRow(row, false).value
                else selectionHead.value.line >= LineForRow(row, false).value
    {
      hide LineForRow;
      var line := LineForRow(screenRow, true);
      RowsInOrder(screenRow, screenRow);
      if selectionAnchor.Some? && line.Some? {
        selectionHead := Some(Point(line.value, Max(0, screenCol)));
      }
      forall row | selectionAnchor.Some? && LineForRow(row, false).Some?
        ensures if screenRow <= row then selectionHead.value.line <= LineForRow(row, false).value
                else selectionHead.value.line >= LineForRow(row, false).value
      {
        RowsInOrder(if screenRow <= row then screenRow else row, if screenRow <= row then row else screenRow);
        RowsInOrder(row, row);
      }
    }

    /** Give out the selected text, if there is any, and select nothing. */
    method EndSelection() returns (text: Option<string>)
      requires Valid()
      modifies this`selectionAnchor, this`selectionHead
      ensures Valid() && selectionAnchor == None
      ensures text == if old(CurrentSelection()) == None then None
                      else SelectionText(look, lastTranscript, old(CurrentSelection()).value)
    {
      var sel := Ordered(selectionAnchor, selectionHead);
      text := None;
      if sel.Some? {
        var pieces: seq<string> := [];
        ghost var lines := SelectedLines(lastTranscript, sel.value);
        for lineIndex := sel.value.start.line to sel.value.end.line + 1
          invariant |pieces| == lineIndex - sel.value.start.line <= |lines|
          invariant pieces == Pieces(look, lines[..|pieces|], sel.value)
        {
          var line := if lineIndex < |lastTranscript| then lastTranscript[lineIndex] else "";
          ghost var k := |pieces|;
          assert lines[..k + 1][..k] == lines[..k] && lines[..k + 1][k] == line;
          var span := SpanOn(lineIndex, sel.value);
          pieces := pieces + [look.cut(line, OrFull(span))];
        }
        assert lines[..|lines|] == lines;
        var joined := JoinLines(pieces);
        text := if look.blank(joined) then None else Some(joined);
      }
      selectionAnchor, selectionHead := None, None;
    }
  }
}
