/** Row-diff painting of the fullscreen viewport (`paint` and `reset` of `fullscreen.ts`). */
module Painting {

  /** What the painter sends to the terminal, cursor placement aside. */
  datatype Command = ClearScreen | PutRow(row: nat, text: string)

  /** The rows of a terminal after a command; writing a row replaces all of it. */
  function Obey(screen: seq<string>, c: Command): (r: seq<string>)
    ensures |r| == |screen|
  {
    match c
    case ClearScreen => seq(|screen|, i => "")
    case PutRow(row, text) => if row < |screen| then screen[row := text] else screen
  }

  function ObeyAll(screen: seq<string>, cs: seq<Command>): (r: seq<string>)
    ensures |r| == |screen|
  {
    if cs == [] then screen else Obey(ObeyAll(screen, cs[..|cs| - 1]), cs[|cs| - 1])
  }

  lemma ObeySnoc(screen: seq<string>, cs: seq<Command>, c: Command)
    ensures ObeyAll(screen, cs + [c]) == Obey(ObeyAll(screen, cs), c)
  {
    assert (cs + [c])[..|cs|] == cs;
  }

  /** Over-tall frames show their bottom rows. */
  function Bottom(frame: seq<string>, height: nat): seq<string> {
    if |frame| > height then frame[|frame| - height..] else frame
  }

  function LineAt(frame: seq<string>, row: nat): string {
    if row < |frame| then frame[row] else ""
  }

  /** A full repaint of a frame: every row, clipped to the width. */
  function Repaint(frame: seq<string>, width: nat, height: nat, clip: (string, nat) -> string): seq<string> {
    seq(height, row requires 0 <= row < height => clip(LineAt(Bottom(frame, height), row), width))
  }

  /** A frame that fits is shown from the top; of one that is too tall the last lines are shown. */
  lemma RepaintShowsTheLastLines(frame: seq<string>, width: nat, height: nat, clip: (string, nat) -> string, row: nat)
    requires row < height
    ensures var k := if |frame| > height then row + |frame| - height else row;
            Repaint(frame, width, height, clip)[row] == clip(if k < |frame| then frame[k] else "", width)
  {
    var k := if |frame| > height then row + |frame| - height else row;
    assert LineAt(Bottom(frame, height), row) == if k < |frame| then frame[k] else "";
  }

  class Painter {
    const clip: (string, nat) -> string  // sliceByColumn for lines wider than the screen
    var prevFrame: seq<string>
    var prevWidth: nat
    var prevHeight: nat
    ghost var screen: seq<string>        // what the last paint left on the terminal
    ghost var lastFrame: seq<string>     // the frame of the last paint

    /** Diff painting refines full repaint. */
    ghost predicate Valid()
      reads this
    {
      && screen == Repaint(lastFrame, prevWidth, prevHeight, clip)
      && (prevFrame == Bottom(lastFrame, prevHeight) || prevFrame == [])
    }

    constructor (clip: (string, nat) -> string)
      ensures Valid() && prevFrame == [] && lastFrame == []
    {
      this.clip := clip;
      prevFrame, prevWidth, prevHeight, lastFrame, screen := [], 0, 0, [], [];
    }

    /**
     * `terminal` is what the terminal shows now: the last paint, unless it has been resized
     * since, when it may show anything.
     */
    method Paint(frame: seq<string>, width: nat, height: nat, ghost terminal: seq<string>) returns (buffer: seq<Command>)
      requires Valid()
      requires |terminal| == height && (width == prevWidth && height == prevHeight ==> terminal == screen)
      modifies this
      ensures Valid() && lastFrame == frame && prevWidth == width && prevHeight == height
      ensures screen == ObeyAll(terminal, buffer) == Repaint(frame, width, height, clip)
      // at an unchanged size, only rows that differ are written, and none is cleared
      ensures old(prevFrame) != [] && width == old(prevWidth) && height == old(prevHeight) ==>
                forall k :: 0 <= k < |buffer| ==>
                  && buffer[k].PutRow? && buffer[k].row < height
                  && !(buffer[k].row < |old(prevFrame)| && old(prevFrame)[buffer[k].row] == LineAt(Bottom(frame, height), buffer[k].row))
    {
      var shown := Bottom(frame, height);
      buffer := [];
      var keep := width == prevWidth && height == prevHeight && |prevFrame| > 0;
      if !keep {
        buffer := [ClearScreen];
        prevFrame := [];
        assert ObeyAll(terminal, buffer) == Obey(terminal, ClearScreen) by {
          ObeySnoc(terminal, [], ClearScreen);
          assert [] + [ClearScreen] == [ClearScreen];
        }
      }
      for row := 0 to height
        invariant prevFrame == if keep then old(prevFrame) else []
        invariant lastFrame == old(lastFrame) && screen == old(screen) && prevWidth == old(prevWidth) && prevHeight == old(prevHeight)
        invariant forall r :: 0 <= r < row ==> ObeyAll(terminal, buffer)[r] == clip(LineAt(shown, r), width)
        invariant keep ==> forall r :: row <= r < height ==> ObeyAll(terminal, buffer)[r] == terminal[r]
        invariant keep ==> forall k :: 0 <= k < |buffer| ==>
                    buffer[k].PutRow? && buffer[k].row < height
                    && !(buffer[k].row < |prevFrame| && prevFrame[buffer[k].row] == LineAt(shown, buffer[k].row))
      {
        var line := LineAt(shown, row);
        if !(row < |prevFrame| && prevFrame[row] == line) {
          ObeySnoc(terminal, buffer, PutRow(row, clip(line, width)));
          buffer := buffer + [PutRow(row, clip(line, width))];
        } else {
          // the row is on the terminal already
          assert |prevFrame| > 0 && keep && prevFrame == Bottom(lastFrame, prevHeight);
          assert terminal[row] == screen[row] == clip(LineAt(Bottom(lastFrame, prevHeight), row), prevWidth);
        }
      }
      prevFrame, prevWidth, prevHeight := shown, width, height;
      lastFrame, screen := frame, ObeyAll(terminal, buffer);
    }

    /** Forget the last frame, so that the next paint starts from a cleared screen. */
    method Reset()
      requires Valid()
      modifies this
      ensures Valid() && prevFrame == [] && screen == old(screen) && lastFrame == old(lastFrame)
    {
      prevFrame := [];
    }
  }
}
