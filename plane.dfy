/** drawPlane: an aircraft's marker and its call-sign label. The marker's
    vertices come out of floating-point trigonometry on the heading and are
    therefore inputs here. */
module Plane {
  import opened Display
  import opened Spotter
  import opened Flights

  /** The first n vertices joined in order, each line drawn from vertex
      k to vertex k - 1. */
  function Lines(dots: seq<Point>, n: nat): (cmds: seq<Command>)
    requires n <= |dots| || n <= 1
    decreases n
  {
    if n <= 1 then []
    else Lines(dots, n - 1) + [DrawLine(dots[n - 1].x, dots[n - 1].y, dots[n - 2].x, dots[n - 2].y, RED)]
  }

  /** The marker: two filled red triangles over vertices (0, 1, 2) and
      (2, 3, 4) for a special aircraft, a red outline through all
      vertices otherwise. */
  function MarkerCommands(dots: seq<Point>, isSpecial: bool): seq<Command>
    requires isSpecial ==> |dots| >= 5
  {
    if isSpecial then
      [FillTriangle(dots[0].x, dots[0].y, dots[1].x, dots[1].y, dots[2].x, dots[2].y, RED),
       FillTriangle(dots[2].x, dots[2].y, dots[3].x, dots[3].y, dots[4].x, dots[4].y, RED)]
    else Lines(dots, |dots|)
  }

  /** drawPlane(aircraft, isSpecial), with the marker's vertices given. */
  method DrawPlane(ps: PlaneSpotter, toPixel: Coordinates -> Point, aircraft: Aircraft, dots: seq<Point>, isSpecial: bool)
    requires isSpecial ==> |dots| >= 5
    modifies ps`textColor, ps`backgroundColor, ps`alignment, ps.tft`log
    ensures ps.textColor == WHITE && ps.backgroundColor == BLACK && ps.alignment == CENTER
    ensures var p := toPixel(aircraft.coordinates);
      ps.tft.log == old(ps.tft.log) + [Command.SetTextColor(WHITE, BLACK)]
        + StringCommands(CENTER, WHITE, BLACK, ps.textBounds(aircraft.call), p.x, p.y, aircraft.call)
        + MarkerCommands(dots, isSpecial)
  {
    var p := toPixel(aircraft.coordinates);
    ps.SetTextColors(WHITE, BLACK);
    ps.SetTextAlignment(CENTER);
    ps.DrawString(p.x, p.y, aircraft.call);
    if isSpecial {
      ps.tft.Emit(FillTriangle(dots[0].x, dots[0].y, dots[1].x, dots[1].y, dots[2].x, dots[2].y, RED));
      ps.tft.Emit(FillTriangle(dots[2].x, dots[2].y, dots[3].x, dots[3].y, dots[4].x, dots[4].y, RED));
    } else {
      ghost var labelled := ps.tft.log;
      var i := 1;
      while i < |dots|
        invariant 1 <= i && (i <= |dots| || i == 1)
        invariant ps.textColor == WHITE && ps.backgroundColor == BLACK && ps.alignment == CENTER
        invariant ps.tft.log == labelled + Lines(dots, i)
      {
        ps.tft.Emit(DrawLine(dots[i].x, dots[i].y, dots[i - 1].x, dots[i - 1].y, RED));
        i := i + 1;
      }
      assert Lines(dots, i) == Lines(dots, |dots|);
    }
  }

  /** The outline has one line fewer than there are vertices, and line k
      joins vertex k + 1 to vertex k. */
  lemma {:induction false} LinesShape(dots: seq<Point>, n: nat)
    requires n <= |dots| || n <= 1
    ensures |Lines(dots, n)| == if n == 0 then 0 else n - 1
    ensures forall k :: 0 <= k < |Lines(dots, n)| ==>
      Lines(dots, n)[k] == DrawLine(dots[k + 1].x, dots[k + 1].y, dots[k].x, dots[k].y, RED)
    decreases n
  {
    if n > 1 {
      LinesShape(dots, n - 1);
    }
  }

  /** A special aircraft gets exactly the two triangles and no outline; any
      other gets only outline lines; every marker part is red. */
  lemma MarkerSelection(dots: seq<Point>, isSpecial: bool)
    requires isSpecial ==> |dots| >= 5
    ensures var cmds := MarkerCommands(dots, isSpecial);
      && (isSpecial ==> |cmds| == 2 && cmds[0].FillTriangle? && cmds[1].FillTriangle?)
      && (!isSpecial ==> forall i :: 0 <= i < |cmds| ==> cmds[i].DrawLine?)
      && (forall i :: 0 <= i < |cmds| ==> cmds[i].color == RED)
      && (isSpecial ==> cmds[0].x2 == cmds[1].x0 && cmds[0].y2 == cmds[1].y0)
  {
    if !isSpecial {
      var cmds := Lines(dots, |dots|);
      LinesShape(dots, |dots|);
      assert MarkerCommands(dots, isSpecial) == cmds;
      forall i | 0 <= i < |cmds|
        ensures cmds[i].DrawLine? && cmds[i].color == RED
      {
        assert cmds[i] == DrawLine(dots[i + 1].x, dots[i + 1].y, dots[i].x, dots[i].y, RED);
      }
    }
  }

  /** The call sign is centred on the aircraft's pixel, white on a black box. */
  lemma LabelOverAircraft(b: Bounds, p: Point, call: string)
    ensures var cmds := StringCommands(CENTER, WHITE, BLACK, b, p.x, p.y, call);
      cmds[1] == FillRect(GlyphX(CENTER, p.x, b.w), p.y - b.h - 1, b.w + 2, b.h + 3, BLACK)
      && cmds[|cmds| - 1] == Print(call)
      && cmds[|cmds| - 2] == SetCursor(GlyphX(CENTER, p.x, b.w), p.y)
  {
    BackgroundIffColoursDiffer(CENTER, WHITE, BLACK, b, p.x, p.y, call);
    TextPrintedAtCursor(CENTER, WHITE, BLACK, b, p.x, p.y, call);
  }
}
