/** The PlaneSpotter object: the text engine (drawString with its alignment
    and colour fields) and the touch-screen calibration. */
module Spotter {
  import opened Ints
  import opened Display

  datatype TextAlignment = LEFT | CENTER | RIGHT

  /** The width and height getTextBounds reports for a text. */
  datatype Bounds = Bounds(w: u16, h: u16)

  /** A `CoordinatesPixel`, or a raw touch point. */
  datatype Point = Point(x: int, y: int)

  /** The x at which drawString places the glyphs, as stored in the
      `int16_t` x1. */
  function GlyphX(a: TextAlignment, x: int, w: u16): (x1: int)
    ensures -0x8000 <= x1 < 0x8000
  {
    match a
    case LEFT => Int16(x)
    case CENTER => Int16(x - w / 2)
    case RIGHT => Int16(x - w)
  }

  /** Where the text sits relative to x, as long as x1 fits in `int16_t`:
      LEFT starts at x, RIGHT ends at x, CENTER starts half its width
      (rounded down) before x. */
  lemma GlyphXPlacement(a: TextAlignment, x: int, w: u16)
    requires -0x8000 <= x - w && x < 0x8000
    ensures a == LEFT ==> GlyphX(a, x, w) == x
    ensures a == RIGHT ==> GlyphX(a, x, w) + w == x
    ensures a == CENTER ==> GlyphX(a, x, w) + w / 2 == x && x - w <= GlyphX(a, x, w) <= x
  {
  }

  /** The display calls of one drawString: no wrapping, a background box when
      the text and background colours differ, then cursor and text. */
  function StringCommands(a: TextAlignment, fg: Color, bg: Color, b: Bounds, x: int, y: int, text: string)
    : (cmds: seq<Command>)
  {
    var x1 := GlyphX(a, x, b.w);
    [SetTextWrap(false)]
    + (if fg != bg then [FillRect(x1, y - b.h - 1, b.w + 2, b.h + 3, bg)] else [])
    + [SetCursor(x1, y), Print(text)]
  }

  /** The background box is drawn exactly when the colours differ, and it
      covers the glyph box: one pixel left of x1, h + 1 rows above y. */
  lemma BackgroundIffColoursDiffer(a: TextAlignment, fg: Color, bg: Color, b: Bounds, x: int, y: int, text: string)
    ensures var cmds := StringCommands(a, fg, bg, b, x, y, text);
      (exists i :: 0 <= i < |cmds| && cmds[i].FillRect?) <==> fg != bg
    ensures var cmds := StringCommands(a, fg, bg, b, x, y, text);
      fg != bg ==> cmds[1] == FillRect(GlyphX(a, x, b.w), y - b.h - 1, b.w + 2, b.h + 3, bg)
  {
    var cmds := StringCommands(a, fg, bg, b, x, y, text);
    if fg != bg {
      assert cmds[1].FillRect?;
    } else {
      assert cmds == [SetTextWrap(false), SetCursor(GlyphX(a, x, b.w), y), Print(text)];
    }
  }

  /** The text is printed once, last, at (x1, y). */
  lemma TextPrintedAtCursor(a: TextAlignment, fg: Color, bg: Color, b: Bounds, x: int, y: int, text: string)
    ensures var cmds := StringCommands(a, fg, bg, b, x, y, text);
      |cmds| >= 3 && cmds[|cmds| - 1] == Print(text) && cmds[|cmds| - 2] == SetCursor(GlyphX(a, x, b.w), y)
    ensures var cmds := StringCommands(a, fg, bg, b, x, y, text);
      forall i :: 0 <= i < |cmds| - 1 ==> !cmds[i].Print?
  {
  }

  /** `getTouchPoint` on one axis: `size * (raw - lo) / (hi - lo)` in C `int`
      arithmetic. */
  function TouchScale(size: int, raw: int, lo: int, hi: int): int
    requires hi != lo
  {
    TruncDiv(size * (raw - lo), hi - lo)
  }

  /** The calibration maps its two end points onto the edges of the screen. */
  lemma TouchEnds(size: int, lo: int, hi: int)
    requires hi != lo
    ensures TouchScale(size, lo, lo, hi) == 0
    ensures TouchScale(size, hi, lo, hi) == size
  {
    assert size * (hi - lo) == size * (hi - lo);
    TruncDivRemainder(size * (hi - lo), hi - lo);
    var q := TruncDiv(size * (hi - lo), hi - lo);
    assert (size - q) * (hi - lo) == size * (hi - lo) - q * (hi - lo);
    AbsProduct(size - q, hi - lo);
    if q != size {
      assert false;
    }
  }

  lemma AbsProduct(a: int, b: int)
    ensures a != 0 ==> Abs(a * b) >= Abs(b)
  {
    if a == 0 {
    } else if a > 0 {
      if b >= 0 {
        MulMonotone(b, 1, a);
      } else {
        MulMonotone(-b, 1, a);
      }
    } else {
      if b >= 0 {
        MulMonotone(b, 1, -a);
      } else {
        MulMonotone(-b, 1, -a);
      }
    }
  }

  /** A larger raw reading never maps to a smaller screen coordinate. */
  lemma TouchMonotone(size: nat, r1: int, r2: int, lo: int, hi: int)
    requires lo < hi && r1 <= r2
    ensures TouchScale(size, r1, lo, hi) <= TouchScale(size, r2, lo, hi)
  {
    var a1, a2 := size * (r1 - lo), size * (r2 - lo);
    ScaledMonotone(size, r1 - lo, r2 - lo);
    TruncDivMonotone(a1, a2, hi - lo);
  }

  lemma ScaledMonotone(size: nat, a: int, b: int)
    requires a <= b
    ensures size * a <= size * b
  {
    assert size * b == size * a + size * (b - a);
  }

  /** A reading inside the calibrated range maps onto the screen. */
  lemma TouchOnScreen(size: nat, r: int, lo: int, hi: int)
    requires lo < hi && lo <= r <= hi
    ensures 0 <= TouchScale(size, r, lo, hi) <= size
  {
    TouchEnds(size, lo, hi);
    TouchMonotone(size, lo, r, lo, hi);
    TouchMonotone(size, r, hi, lo, hi);
  }

  lemma TouchExample()
    ensures TouchScale(480, 500, 100, 900) == 240
    ensures TouchScale(320, 100, 200, 3800) == -8
  {
  }

  class PlaneSpotter {
    const tft: Tft
    /** getTextBounds of the display's current font, as (w, h). */
    const textBounds: string -> Bounds
    var alignment: TextAlignment
    var textColor: Color
    var backgroundColor: Color
    var minX: u16
    var minY: u16
    var maxX: u16
    var maxY: u16

    /** The C++ constructor leaves the text and calibration fields
        uninitialised; whatever they hold is passed in here. */
    constructor (tft: Tft, textBounds: string -> Bounds, alignment: TextAlignment, textColor: Color,
                 backgroundColor: Color, minX: u16, minY: u16, maxX: u16, maxY: u16)
      ensures this.tft == tft && this.textBounds == textBounds
      ensures this.alignment == alignment && this.textColor == textColor && this.backgroundColor == backgroundColor
      ensures this.minX == minX && this.minY == minY && this.maxX == maxX && this.maxY == maxY
    {
      this.tft := tft;
      this.textBounds := textBounds;
      this.alignment := alignment;
      this.textColor := textColor;
      this.backgroundColor := backgroundColor;
      this.minX := minX;
      this.minY := minY;
      this.maxX := maxX;
      this.maxY := maxY;
    }

    /** setTextColor(c, bg): both fields, and the display's text colours. */
    method SetTextColors(c: Color, bg: Color)
      modifies this`textColor, this`backgroundColor, tft`log
      ensures textColor == c && backgroundColor == bg
      ensures tft.log == old(tft.log) + [Command.SetTextColor(c, bg)]
    {
      textColor := c;
      backgroundColor := bg;
      tft.Emit(Command.SetTextColor(textColor, backgroundColor));
    }

    /** setTextColor(c): text and background both c, so drawString clears nothing. */
    method SetTextColor(c: Color)
      modifies this`textColor, this`backgroundColor, tft`log
      ensures textColor == c && backgroundColor == c
      ensures tft.log == old(tft.log) + [Command.SetTextColor(c, c)]
    {
      SetTextColors(c, c);
    }

    method SetTextAlignment(a: TextAlignment)
      modifies this`alignment
      ensures alignment == a
    {
      alignment := a;
    }

    method DrawString(x: int, y: int, text: string)
      modifies tft`log
      ensures tft.log == old(tft.log) + StringCommands(alignment, textColor, backgroundColor, textBounds(text), x, y, text)
    {
      tft.Emit(SetTextWrap(false));
      var b := textBounds(text);
      var x1: int;
      match alignment {
        case LEFT => x1 := Int16(x);
        case CENTER => x1 := Int16(x - b.w / 2);
        case RIGHT => x1 := Int16(x - b.w);
      }
      if textColor != backgroundColor {
        tft.Emit(FillRect(x1, y - b.h - 1, b.w + 2, b.h + 3, backgroundColor));
      }
      tft.Emit(SetCursor(x1, y));
      tft.Emit(Print(text));
    }

    method SetTouchScreenCalibration(minX: u16, minY: u16, maxX: u16, maxY: u16)
      modifies this`minX, this`minY, this`maxX, this`maxY
      ensures this.minX == minX && this.minY == minY && this.maxX == maxX && this.maxY == maxY
    {
      this.minX := minX;
      this.minY := minY;
      this.maxX := maxX;
      this.maxY := maxY;
    }

    /** getTouchPoint for the raw reading `raw` of the touch controller. */
    method GetTouchPoint(raw: Point) returns (p: Point)
      requires maxX != minX && maxY != minY
      ensures p == Point(TouchScale(tft.width, raw.x, minX, maxX), TouchScale(tft.height, raw.y, minY, maxY))
    {
      var y := TruncDiv(tft.height * (raw.y - minY), maxY - minY);
      var x := TruncDiv(tft.width * (raw.x - minX), maxX - minX);
      p := Point(x, y);
    }
  }

  /** After setTextColor(c), drawString clears no background. */
  lemma SingleColourClearsNothing(a: TextAlignment, c: Color, b: Bounds, x: int, y: int, text: string)
    ensures StringCommands(a, c, c, b, x, y, text) == [SetTextWrap(false), SetCursor(GlyphX(a, x, b.w), y), Print(text)]
  {
  }
}
