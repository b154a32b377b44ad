/** The TFT display as an abstract recorder.
    Every call the renderer makes on the display driver becomes one `Command`
    appended to `Tft.log`; the only driver state the renderer reads back is the
    rotation and the fixed width and height. */
module Display {
  import opened Ints

  /** A 16-bit RGB565 colour, as the driver takes it. */
  type Color = u16

  // Colour values of the TFT driver library.
  const BLACK: Color := 0x0000
  const NAVY: Color := 0x000F
  const GREEN: Color := 0x07E0
  const RED: Color := 0xF800
  const WHITE: Color := 0xFFFF
  const LIGHTGREY: Color := 0xC618
  /** TFT_BLUE_SKY is defined in PlaneSpotter.h, which is not part of this model;
      the driver's sky-blue value stands in for it. */
  const BLUE_SKY: Color := 0x867D

  datatype Command =
    | SetRotation(m: int)
    | SetAddrWindow(x0: int, y0: int, x1: int, y1: int)
    | PushColors(pixels: seq<Color>)
    | PushColor(pixel: Color)
    | DrawLine(x0: int, y0: int, x1: int, y1: int, color: Color)
    | DrawFastHLine(x: int, y: int, w: int, color: Color)
    | DrawCircle(x: int, y: int, r: int, color: Color)
    | FillRect(x: int, y: int, w: int, h: int, color: Color)
    | FillRoundRect(x: int, y: int, w: int, h: int, r: int, color: Color)
    | DrawRoundRect(x: int, y: int, w: int, h: int, r: int, color: Color)
    | FillTriangle(x0: int, y0: int, x1: int, y1: int, x2: int, y2: int, color: Color)
    | FillScreen(color: Color)
    | SetTextFont(font: int)
    | SetTextWrap(wrap: bool)
    | SetTextColor(fg: Color, bg: Color)
    | SetCursor(x: int, y: int)
    | Print(text: string)
    | Abort  // the JPEG decoder's abort(), recorded alongside the display calls

  /** The rotation the display is left in after `cmds`, starting in rotation
      `r`: the last setRotation wins. */
  function FinalRotation(cmds: seq<Command>, r: int): (f: int)
    ensures 0 <= r < 8 ==> 0 <= f < 8
  {
    if cmds == [] then r
    else if cmds[|cmds| - 1].SetRotation? then cmds[|cmds| - 1].m % 8
    else FinalRotation(cmds[..|cmds| - 1], r)
  }

  lemma FinalRotationLast(cmds: seq<Command>, r: int, m: int)
    ensures FinalRotation(cmds + [SetRotation(m)], r) == m % 8
  {
  }

  /** A log whose last call sets a valid rotation ends in that rotation. */
  lemma FinalRotationIs(cmds: seq<Command>, pre: seq<Command>, r: int, m: int)
    requires cmds == pre + [SetRotation(m)] && 0 <= m < 8
    ensures FinalRotation(cmds, r) == m
  {
    FinalRotationLast(pre, r, m);
  }

  /** Proof helpers: appending pieces to a log one at a time appends their
      concatenation (sequence concatenation regrouped). */
  lemma AppendPieces(log: seq<Command>, p: seq<Command>, q: seq<Command>, r: seq<Command>, s: seq<Command>)
    ensures log + p + q + r + s == log + (p + q + r + s)
  {
  }

  lemma AppendThree(log: seq<Command>, p: seq<Command>, q: seq<Command>, r: seq<Command>)
    ensures log + p + q + r == log + (p + q + r)
  {
  }

  lemma AppendTwo(log: seq<Command>, p: seq<Command>, q: seq<Command>)
    ensures log + p + q == log + (p + q)
  {
  }

  /** A block inside the front part of a log is still there after more is appended. */
  lemma BlockKept(log: seq<Command>, more: seq<Command>, k: nat, m: nat)
    requires k + m <= |log|
    ensures (log + more)[k..][..m] == log[k..][..m]
  {
    assert forall j :: 0 <= j < m ==> (log + more)[k..][..m][j] == log[k + j];
  }

  class Tft {
    const width: int
    const height: int
    var rotation: int
    var log: seq<Command>

    ghost predicate Valid()
      reads this
    {
      0 <= rotation < 8
    }

    constructor (width: int, height: int, rotation: u8)
      ensures Valid()
      ensures this.width == width && this.height == height
      ensures this.rotation == rotation % 8 && log == []
    {
      this.width := width;
      this.height := height;
      this.rotation := rotation % 8;
      log := [];
    }

    /** setRotation keeps the rotation in 0..7 (rotations 4..7 are the
        mirrored memory layouts). Rotating by four keeps width and height. */
    method SetRotationTo(m: int)
      modifies this
      ensures Valid()
      ensures rotation == m % 8 && log == old(log) + [SetRotation(m)]
    {
      rotation := m % 8;
      log := log + [SetRotation(m)];
    }

    /** Any other driver call: it only appends to the log. */
    method Emit(c: Command)
      requires !c.SetRotation?
      modifies this`log
      ensures log == old(log) + [c]
    {
      log := log + [c];
    }

    /** pushColors(buffer, count): sends the first `count` pixels of `buf`. */
    method PushBuffer(buf: array<Color>, count: nat)
      requires count <= buf.Length
      modifies this`log
      ensures log == old(log) + [PushColors(buf[..count])]
    {
      log := log + [PushColors(buf[..count])];
    }
  }
}
