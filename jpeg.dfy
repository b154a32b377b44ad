/** renderJPEG: the loop that places the decoder's MCU tiles on the display.
    The decoder is a given sequence of tiles in decoding order; a tile is
    pushed only when it fits entirely, and decoding is aborted at the first
    tile that neither fits nor ends above the bottom edge. */
module Jpeg {
  import opened Ints
  import opened Display

  /** One `JpegDec.read()`: the tile's MCU column and row and its pixels. */
  datatype Tile = Tile(mcuX: nat, mcuY: nat, pixels: seq<Color>)

  /** The fixed geometry of one decode: MCU size, image origin, screen size. */
  datatype Frame = Frame(mcuW: u16, mcuH: u16, xpos: int, ypos: int, width: int, height: int)

  function TileX(f: Frame, t: Tile): int { t.mcuX * f.mcuW + f.xpos }
  function TileY(f: Frame, t: Tile): int { t.mcuY * f.mcuH + f.ypos }

  /** The decoder hands over exactly one MCU of pixels per tile. */
  predicate WholeTiles(f: Frame, tiles: seq<Tile>)
  {
    forall i :: 0 <= i < |tiles| ==> |tiles[i].pixels| == f.mcuW * f.mcuH
  }

  /** The tile's right and bottom edges are on the screen. */
  predicate Fits(f: Frame, t: Tile)
  {
    TileX(f, t) + f.mcuW <= f.width && TileY(f, t) + f.mcuH <= f.height
  }

  /** A tile that is not drawn and reaches the bottom edge ends decoding. */
  predicate AbortsAt(f: Frame, t: Tile)
  {
    !Fits(f, t) && TileY(f, t) + f.mcuH >= f.height
  }

  /** One pushColor per pixel, in order. */
  function Pushes(px: seq<Color>): (cmds: seq<Command>)
    ensures |cmds| == |px|
    ensures forall i :: 0 <= i < |px| ==> cmds[i] == PushColor(px[i])
  {
    seq(|px|, i requires 0 <= i < |px| => PushColor(px[i]))
  }

  /** The calls that draw one tile: its window, then its pixels. */
  function TileCommands(f: Frame, t: Tile): seq<Command>
  {
    var x, y := TileX(f, t), TileY(f, t);
    [SetAddrWindow(x, y, x + f.mcuW - 1, y + f.mcuH - 1)] + Pushes(t.pixels)
  }

  /** What renderJPEG does with the tiles still to be decoded. */
  function JpegCommands(f: Frame, tiles: seq<Tile>): seq<Command>
    decreases |tiles|
  {
    if tiles == [] then []
    else if Fits(f, tiles[0]) then TileCommands(f, tiles[0]) + JpegCommands(f, tiles[1..])
    else if AbortsAt(f, tiles[0]) then [Abort]
    else JpegCommands(f, tiles[1..])
  }

  /** renderJPEG(xpos, ypos). After `abort()` the decoder's next read()
      reports no more tiles, which ends the loop. */
  method RenderJpeg(tft: Tft, f: Frame, tiles: seq<Tile>)
    requires tft.width == f.width && tft.height == f.height
    requires WholeTiles(f, tiles)
    modifies tft`log
    ensures tft.log == old(tft.log) + JpegCommands(f, tiles)
  {
    var mcuPixels := f.mcuW * f.mcuH;
    var i := 0;
    var aborted := false;
    while i < |tiles| && !aborted
      invariant 0 <= i <= |tiles|
      invariant !aborted ==> old(tft.log) + JpegCommands(f, tiles) == tft.log + JpegCommands(f, tiles[i..])
      invariant aborted ==> tft.log == old(tft.log) + JpegCommands(f, tiles)
      decreases |tiles| - i, !aborted
    {
      var t := tiles[i];
      assert tiles[i..][0] == t && tiles[i..][1..] == tiles[i + 1..];
      var mcuX := t.mcuX * f.mcuW + f.xpos;
      var mcuY := t.mcuY * f.mcuH + f.ypos;
      if mcuX + f.mcuW <= tft.width && mcuY + f.mcuH <= tft.height {
        tft.Emit(SetAddrWindow(mcuX, mcuY, mcuX + f.mcuW - 1, mcuY + f.mcuH - 1));
        PushTile(tft, t.pixels, mcuPixels);
      } else if mcuY + f.mcuH >= tft.height {
        tft.Emit(Abort);
        aborted := true;
      }
      i := i + 1;
    }
  }

  /** `while (count--) pushColor(*pImg++)` over one MCU. */
  method PushTile(tft: Tft, px: seq<Color>, mcuPixels: nat)
    requires |px| == mcuPixels
    modifies tft`log
    ensures tft.log == old(tft.log) + Pushes(px)
  {
    var count := mcuPixels;
    var p := 0;
    while count > 0
      invariant p + count == mcuPixels
      invariant tft.log == old(tft.log) + Pushes(px[..p])
    {
      count := count - 1;
      tft.Emit(PushColor(px[p]));
      assert Pushes(px[..p + 1]) == Pushes(px[..p]) + [PushColor(px[p])];
      p := p + 1;
    }
    assert px[..p] == px;
  }

  // ---------------------------------------------------------------------
  // An independent description: the drawn tiles before the first aborting
  // tile, then the abort if there is one.

  /** The index of the first tile that aborts decoding, or |tiles|. */
  function FirstAbort(f: Frame, tiles: seq<Tile>): (k: nat)
    ensures k <= |tiles|
    ensures forall j :: 0 <= j < k ==> !AbortsAt(f, tiles[j])
    ensures k < |tiles| ==> AbortsAt(f, tiles[k])
    decreases |tiles|
  {
    if tiles == [] then 0
    else if AbortsAt(f, tiles[0]) then 0
    else 1 + FirstAbort(f, tiles[1..])
  }

  /** For each tile, the calls that draw it if it fits, and nothing otherwise. */
  function Drawn(f: Frame, tiles: seq<Tile>): (parts: seq<seq<Command>>)
    ensures |parts| == |tiles|
  {
    seq(|tiles|, i requires 0 <= i < |tiles| => if Fits(f, tiles[i]) then TileCommands(f, tiles[i]) else [])
  }

  function Flatten(parts: seq<seq<Command>>): seq<Command>
    decreases |parts|
  {
    if parts == [] then [] else parts[0] + Flatten(parts[1..])
  }

  /** renderJPEG draws every fitting tile before the first aborting tile,
      and no tile that does not fit; it emits the abort exactly when some
      tile aborts, and then last. */
  lemma {:induction false} JpegIsFilteredTiles(f: Frame, tiles: seq<Tile>)
    ensures JpegCommands(f, tiles)
         == Flatten(Drawn(f, tiles[..FirstAbort(f, tiles)])) + (if FirstAbort(f, tiles) < |tiles| then [Abort] else [])
    decreases |tiles|
  {
    if tiles != [] {
      var k := FirstAbort(f, tiles);
      if AbortsAt(f, tiles[0]) {
        assert k == 0 && tiles[..k] == [];
        assert Drawn(f, []) == [];
      } else {
        var rest := tiles[1..];
        var j: nat := k - 1;
        JpegIsFilteredTiles(f, rest);
        assert j == FirstAbort(f, rest);
        DrawnPeel(f, tiles, rest, k, j);
        var head: seq<Command> := if Fits(f, tiles[0]) then TileCommands(f, tiles[0]) else [];
        var ending: seq<Command> := if k < |tiles| then [Abort] else [];
        assert JpegCommands(f, tiles) == head + JpegCommands(f, rest);
        assert ending == if j < |rest| then [Abort] else [];
        AppendTwo(head, Flatten(Drawn(f, rest[..j])), ending);
      }
    }
  }

  /** Drawing the first k tiles is drawing the first one, then k - 1 of the rest. */
  lemma DrawnPeel(f: Frame, tiles: seq<Tile>, rest: seq<Tile>, k: nat, j: nat)
    requires 0 < k <= |tiles| && rest == tiles[1..] && j == k - 1
    ensures Flatten(Drawn(f, tiles[..k]))
         == (if Fits(f, tiles[0]) then TileCommands(f, tiles[0]) else []) + Flatten(Drawn(f, rest[..j]))
  {
    assert tiles[..k][1..] == rest[..j];
    assert Drawn(f, tiles[..k])[1..] == Drawn(f, rest[..j]);
  }

  /** No call but the last is the abort. */
  lemma {:induction false} AbortOnlyLast(f: Frame, tiles: seq<Tile>)
    ensures forall i :: 0 <= i < |JpegCommands(f, tiles)| - 1 ==> !JpegCommands(f, tiles)[i].Abort?
    decreases |tiles|
  {
    if tiles != [] && Fits(f, tiles[0]) {
      var rest := tiles[1..];
      AbortOnlyLast(f, rest);
      var head := TileCommands(f, tiles[0]);
      var cmds := JpegCommands(f, tiles);
      assert cmds == head + JpegCommands(f, rest);
      forall i | 0 <= i < |cmds| - 1
        ensures !cmds[i].Abort?
      {
        if i >= |head| {
          assert cmds[i] == JpegCommands(f, rest)[i - |head|];
        } else if i > 0 {
          assert cmds[i] == PushColor(tiles[0].pixels[i - 1]);
        }
      }
    } else if tiles != [] && !AbortsAt(f, tiles[0]) {
      AbortOnlyLast(f, tiles[1..]);
      assert JpegCommands(f, tiles) == JpegCommands(f, tiles[1..]);
    } else if tiles != [] {
      assert JpegCommands(f, tiles) == [Abort];
    }
  }

  /** Some tile reaches the bottom edge without fitting. */
  predicate SomeTileAborts(f: Frame, tiles: seq<Tile>)
  {
    exists j :: 0 <= j < |tiles| && AbortsAt(f, tiles[j])
  }

  lemma SomeTileAbortsPeel(f: Frame, tiles: seq<Tile>)
    requires tiles != []
    ensures SomeTileAborts(f, tiles) <==> AbortsAt(f, tiles[0]) || SomeTileAborts(f, tiles[1..])
  {
    var rest := tiles[1..];
    if SomeTileAborts(f, rest) {
      var j :| 0 <= j < |rest| && AbortsAt(f, rest[j]);
      assert AbortsAt(f, tiles[j + 1]);
    }
    if SomeTileAborts(f, tiles) {
      var j :| 0 <= j < |tiles| && AbortsAt(f, tiles[j]);
      assert j == 0 || AbortsAt(f, rest[j - 1]);
    }
  }

  /** renderJPEG ends with the abort exactly when some tile aborts. */
  lemma {:induction false} AbortIffSomeTileAborts(f: Frame, tiles: seq<Tile>)
    ensures var cmds := JpegCommands(f, tiles);
      (|cmds| > 0 && cmds[|cmds| - 1].Abort?) <==> SomeTileAborts(f, tiles)
    decreases |tiles|
  {
    if tiles != [] {
      var rest := tiles[1..];
      SomeTileAbortsPeel(f, tiles);
      AbortIffSomeTileAborts(f, rest);
      if Fits(f, tiles[0]) {
        var head, tail := TileCommands(f, tiles[0]), JpegCommands(f, rest);
        assert JpegCommands(f, tiles) == head + tail;
        assert |head| > 0 && !head[|head| - 1].Abort?;
      }
    }
  }

  /** A drawn tile fills an mcuW x mcuH window ending on the screen with
      exactly mcuW * mcuH pixels. */
  lemma TileWindow(f: Frame, t: Tile)
    requires Fits(f, t) && |t.pixels| == f.mcuW * f.mcuH
    ensures var cmds := TileCommands(f, t);
      && cmds[0] == SetAddrWindow(TileX(f, t), TileY(f, t), TileX(f, t) + f.mcuW - 1, TileY(f, t) + f.mcuH - 1)
      && cmds[0].x1 < f.width && cmds[0].y1 < f.height
      && cmds[0].x1 - cmds[0].x0 + 1 == f.mcuW && cmds[0].y1 - cmds[0].y0 + 1 == f.mcuH
      && |cmds| == 1 + f.mcuW * f.mcuH
      && forall i :: 1 <= i < |cmds| ==> cmds[i] == PushColor(t.pixels[i - 1])
  {
  }

  /** A tile hanging over the right edge but not the bottom one is
      skipped, not shrunk, and decoding goes on. */
  lemma PartialTileSkipped(f: Frame, t: Tile, rest: seq<Tile>)
    requires TileX(f, t) + f.mcuW > f.width && TileY(f, t) + f.mcuH < f.height
    ensures JpegCommands(f, [t] + rest) == JpegCommands(f, rest)
  {
    assert ([t] + rest)[1..] == rest;
  }
}
