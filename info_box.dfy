/** drawInfoBox: the panel below the map with the closest aircraft's readouts,
    its category label and its route. */
module InfoBox {
  import opened Ints
  import opened Display
  import opened Spotter
  import opened Flights

  // ---------------------------------------------------------------------
  // Category label and colour

  /** The engine-type labels of a species 1 (land plane) aircraft. */
  function LandPlane(enginetype: string): (c: (string, Color))
  {
    if enginetype == "1" then ("GA", RED)
    else if enginetype == "2" then ("Turboprop", WHITE)
    else if enginetype == "3" then ("Jet", WHITE)
    else if enginetype == "4" then ("Electric", WHITE)
    else ("Land Plane", WHITE)
  }

  /** The `switch (Species)` of drawInfoBox: the category text and its colour. */
  function Classification(species: int, enginetype: string): (c: (string, Color))
  {
    match species
    case 1 => LandPlane(enginetype)
    case 2 => ("Sea plane", BLUE_SKY)
    case 3 => ("Amphibian", GREEN)
    case 4 => ("Helicopter", NAVY)
    case 5 => ("Gyrocopter", WHITE)
    case 6 => ("Tiltwing", WHITE)
    case 7 => ("Ground Vehicle", WHITE)
    case 8 => ("Tower", WHITE)
    case _ => ("N/A", WHITE)
  }

  /** `strlen` of the registration's C string: up to the first NUL. */
  function CLength(s: string): (n: nat)
    ensures n <= |s|
    ensures forall i :: 0 <= i < n ==> s[i] != '\0'
    ensures n < |s| ==> s[n] == '\0'
    decreases |s|
  {
    if s == [] || s[0] == '\0' then 0 else 1 + CLength(s[1..])
  }

  predicate IsDigit(c: char) { '0' <= c <= '9' }
  predicate IsUpper(c: char) { 'A' <= c <= 'Z' }

  /** The category computation as drawInfoBox writes it, registration scan
      included. Each test of the scan compares the same character `tag[i]`
      with 'P', 'H' and '-' at once, so none succeeds. */
  method ClassifyAircraft(species: int, registration: string, enginetype: string) returns (chassis: string, chassisColor: Color)
    ensures (chassis, chassisColor) == Classification(species, enginetype)
  {
    chassis := "";
    chassisColor := WHITE;
    match species {
      case 1 =>
        var tag := registration;
        var i := 0;
        while i < CLength(tag)
          invariant 0 <= i <= CLength(tag)
          invariant chassis == "" && chassisColor == WHITE
        {
          var t := tag[i];
          if t == 'P' && t == 'H' && t == '-' && IsDigit(t) && IsDigit(t) && IsDigit(t) && IsDigit(t) {
            chassis := "Glider";
          } else if t == 'P' && t == 'H' && t == '-' && IsDigit(t) && IsUpper(t) && IsUpper(t) {
            chassis := "Drone";
          } else if t == 'P' && t == 'H' && t == '-' && IsDigit(t) && IsUpper(t) && IsDigit(t) {
            chassis := "Ultralight";
            chassisColor := LIGHTGREY;
          }
          i := i + 1;
        }
        if enginetype == "1" {
          chassisColor := RED;
          chassis := "GA";
        } else if enginetype == "2" {
          chassis := "Turboprop";
        } else if enginetype == "3" {
          chassis := "Jet";
        } else if enginetype == "4" {
          chassis := "Electric";
        } else {
          chassis := "Land Plane";
        }
      case 2 =>
        chassis := "Sea plane";
        chassisColor := BLUE_SKY;
      case 3 =>
        chassisColor := GREEN;
        chassis := "Amphibian";
      case 4 =>
        chassisColor := NAVY;
        chassis := "Helicopter";
      case 5 =>
        chassis := "Gyrocopter";
      case 6 =>
        chassis := "Tiltwing";
      case 7 =>
        chassis := "Ground Vehicle";
      case 8 =>
        chassis := "Tower";
      case _ =>
        chassis := "N/A";
    }
  }

  /** Red marks exactly the GA planes: species 1 with engine type "1". */
  lemma RedIffGeneralAviation(species: int, enginetype: string)
    ensures Classification(species, enginetype).1 == RED <==> species == 1 && enginetype == "1"
  {
  }

  /** "N/A" is shown exactly for a species code outside 1..8. */
  lemma NotApplicableIffUnknownSpecies(species: int, enginetype: string)
    ensures Classification(species, enginetype).0 == "N/A" <==> !(1 <= species <= 8)
  {
  }

  /** Only GA planes, sea planes, amphibians and helicopters have a colour
      of their own; every other category, "N/A" included, is white. */
  lemma WhiteUnlessMarked(species: int, enginetype: string)
    ensures Classification(species, enginetype).1 == WHITE
      <==> !(species == 1 && enginetype == "1") && species != 2 && species != 3 && species != 4
  {
  }

  /** A species 1 label depends on the engine type alone and is never one
      of the other species' labels. */
  lemma LandPlaneLabels(enginetype: string, species: int)
    requires species != 1
    ensures Classification(1, enginetype).0 != Classification(species, enginetype).0
  {
  }

  // ---------------------------------------------------------------------
  // Layout

  /** The left tab of the right-hand column, `width / 2 + 91`. */
  function RightTab(width: int): int { TruncDiv(width, 2) + 91 }

  /** One `setTextColor(c); drawString(x, y, text)` with left alignment:
      the single colour leaves the background alone. */
  function LabelCommands(c: Color, x: int, y: int, text: string): seq<Command>
  {
    [Command.SetTextColor(c, c), SetTextWrap(false), SetCursor(Int16(x), y), Print(text)]
  }

  method Label(ps: PlaneSpotter, c: Color, x: int, y: int, text: string)
    requires ps.alignment == LEFT
    modifies ps`textColor, ps`backgroundColor, ps.tft`log
    ensures ps.textColor == c && ps.backgroundColor == c
    ensures ps.tft.log == old(ps.tft.log) + LabelCommands(c, x, y, text)
  {
    ps.SetTextColor(c);
    ps.DrawString(x, y, text);
  }

  /** The sky-blue background and the three boxes of the panel. */
  function FrameCommands(width: int, height: int, mapH: int): seq<Command>
  {
    [FillRect(0, mapH, width, height - mapH, BLUE_SKY),
     FillRoundRect(3, mapH + 7, 151, 42, 4, BLACK),
     FillRoundRect(TruncDiv(width, 2) + 86, mapH + 7, 151, 42, 4, BLACK),
     DrawRoundRect(156, mapH + 7, 168, 42, 4, BLACK)]
  }

  /** The first readout line: type and registration captions, the
      registration and the aircraft model. */
  function TypeLine(a: Aircraft, width: int, mapH: int): seq<Command>
  {
    LabelCommands(GREEN, 8, mapH + 7, "Type: ")
    + LabelCommands(GREEN, RightTab(width), mapH + 7, "Reg: ")
    + LabelCommands(WHITE, RightTab(width) + 60, mapH + 7, a.registration)
    + [FillRoundRect(156, mapH + 7, 168, 16, 3, BLACK)]
    + LabelCommands(WHITE, 159, mapH + 7, a.aircraftType)
  }

  /** The second line: altitude and heading, then the compass beside them. */
  function AltitudeLine(r: Readouts, width: int, mapH: int, compass: seq<Command>): seq<Command>
  {
    LabelCommands(GREEN, 8, mapH + 20, "Altitude: ")
    + LabelCommands(WHITE, 68, mapH + 20, r.altitude)
    + LabelCommands(GREEN, RightTab(width), mapH + 20, "Heading: ")
    + LabelCommands(WHITE, RightTab(width) + 60, mapH + 20, r.heading)
    + [DrawCircle(RightTab(width) + 120, mapH + 29, 8, WHITE)] + compass
  }

  /** The third line: distance and speed. */
  function DistanceLine(r: Readouts, width: int, mapH: int): seq<Command>
  {
    LabelCommands(GREEN, 8, mapH + 31, "Distance: ")
    + LabelCommands(WHITE, 68, mapH + 31, r.distance)
    + LabelCommands(GREEN, RightTab(width), mapH + 31, "HSpeed: ")
    + LabelCommands(WHITE, RightTab(width) + 60, mapH + 31, r.speed)
  }

  function ReadoutCommands(a: Aircraft, r: Readouts, width: int, mapH: int, compass: seq<Command>): seq<Command>
  {
    TypeLine(a, width, mapH) + AltitudeLine(r, width, mapH, compass) + DistanceLine(r, width, mapH)
  }

  /** The operator, white on black, and the squawk box at the top of the screen. */
  function HeaderCommands(a: Aircraft, textBounds: string -> Bounds): seq<Command>
  {
    [Command.SetTextColor(WHITE, BLACK)]
    + StringCommands(LEFT, WHITE, BLACK, textBounds(a.airlineOperator), 350, 3, a.airlineOperator)
    + [FillRoundRect(3, 3, 90, 15, 2, BLACK)]
    + LabelCommands(GREEN, 6, 3, "Sqwak: ")
    + LabelCommands(WHITE, 56, 3, a.sqwak)
  }

  /** Both endpoints of the route are known. */
  predicate HasRoute(a: Aircraft)
  {
    a.fromShort != "" && a.toShort != ""
  }

  /** The black bar the route is written on. */
  function RouteBar(width: int, mapH: int): Command
  {
    FillRoundRect(3, mapH + 52, width - 4, 15, 2, BLACK)
  }

  function RouteCommands(a: Aircraft, width: int, mapH: int): seq<Command>
  {
    if HasRoute(a) then
      [RouteBar(width, mapH)]
      + LabelCommands(GREEN, 185, 303, ": From ")
      + LabelCommands(WHITE, 8, 303, a.fromCode + a.fromShort)
      + LabelCommands(GREEN, 230, 303, "To : ")
      + LabelCommands(WHITE, 280, 303, a.toCode + a.toShort)
    else []
  }

  /** The category label in its colour, then the route. */
  function LowerCommands(a: Aircraft, width: int, mapH: int): seq<Command>
  {
    var (chassis, chassisColor) := Classification(a.species, a.enginetype);
    LabelCommands(chassisColor, 68, mapH + 7, chassis) + RouteCommands(a, width, mapH)
  }

  /** The panel drawn for an aircraft with a call sign. */
  function PanelCommands(a: Aircraft, r: Readouts, width: int, height: int, mapH: int,
                         compass: seq<Command>, textBounds: string -> Bounds): seq<Command>
  {
    FrameCommands(width, height, mapH)
    + ReadoutCommands(a, r, width, mapH, compass)
    + HeaderCommands(a, textBounds)
    + LowerCommands(a, width, mapH)
  }

  /** Everything drawInfoBox draws for the aircraft `a`. */
  function InfoBoxCommands(a: Aircraft, r: Readouts, width: int, height: int, mapH: int,
                           compass: seq<Command>, textBounds: string -> Bounds): seq<Command>
  {
    if a.call == "" then [] else PanelCommands(a, r, width, height, mapH, compass, textBounds)
  }

  /** The compass: a circle and the red lines of the heading needle, whose
      end points come out of floating-point trigonometry and are inputs. */
  predicate CompassLines(compass: seq<Command>)
  {
    forall i :: 0 <= i < |compass| ==> compass[i].DrawLine?
  }

  method EmitAll(tft: Tft, cmds: seq<Command>)
    requires CompassLines(cmds)
    modifies tft`log
    ensures tft.log == old(tft.log) + cmds
  {
    for i := 0 to |cmds|
      invariant tft.log == old(tft.log) + cmds[..i]
    {
      tft.Emit(cmds[i]);
      assert cmds[..i + 1] == cmds[..i] + [cmds[i]];
    }
    assert cmds[..|cmds|] == cmds;
  }

  method DrawFrame(tft: Tft, mapH: int)
    modifies tft`log
    ensures tft.log == old(tft.log) + FrameCommands(tft.width, tft.height, mapH)
  {
    tft.Emit(FillRect(0, mapH, tft.width, tft.height - mapH, BLUE_SKY));
    tft.Emit(FillRoundRect(3, mapH + 7, 151, 42, 4, BLACK));
    tft.Emit(FillRoundRect(TruncDiv(tft.width, 2) + 86, mapH + 7, 151, 42, 4, BLACK));
    tft.Emit(DrawRoundRect(156, mapH + 7, 168, 42, 4, BLACK));
  }

  method DrawTypeLine(ps: PlaneSpotter, mapH: int, a: Aircraft, tab3: int)
    requires ps.alignment == LEFT && tab3 == RightTab(ps.tft.width)
    modifies ps`textColor, ps`backgroundColor, ps.tft`log
    ensures ps.tft.log == old(ps.tft.log) + TypeLine(a, ps.tft.width, mapH)
  {
    var tab4 := tab3 + 60;
    Label(ps, GREEN, 8, mapH + 7, "Type: ");
    Label(ps, GREEN, tab3, mapH + 7, "Reg: ");
    Label(ps, WHITE, tab4, mapH + 7, a.registration);
    ps.tft.Emit(FillRoundRect(156, mapH + 7, 168, 16, 3, BLACK));
    Label(ps, WHITE, 159, mapH + 7, a.aircraftType);
  }

  method DrawAltitudeLine(ps: PlaneSpotter, mapH: int, r: Readouts, compass: seq<Command>, tab3: int)
    requires ps.alignment == LEFT && tab3 == RightTab(ps.tft.width) && CompassLines(compass)
    modifies ps`textColor, ps`backgroundColor, ps.tft`log
    ensures ps.tft.log == old(ps.tft.log) + AltitudeLine(r, ps.tft.width, mapH, compass)
  {
    var tab4 := tab3 + 60;
    Label(ps, GREEN, 8, mapH + 20, "Altitude: ");
    Label(ps, WHITE, 68, mapH + 20, r.altitude);
    Label(ps, GREEN, tab3, mapH + 20, "Heading: ");
    Label(ps, WHITE, tab4, mapH + 20, r.heading);
    ps.tft.Emit(DrawCircle(tab4 + 60, mapH + 29, 8, WHITE));
    EmitAll(ps.tft, compass);
  }

  method DrawDistanceLine(ps: PlaneSpotter, mapH: int, r: Readouts, tab3: int)
    requires ps.alignment == LEFT && tab3 == RightTab(ps.tft.width)
    modifies ps`textColor, ps`backgroundColor, ps.tft`log
    ensures ps.tft.log == old(ps.tft.log) + DistanceLine(r, ps.tft.width, mapH)
  {
    var tab4 := tab3 + 60;
    Label(ps, GREEN, 8, mapH + 31, "Distance: ");
    Label(ps, WHITE, 68, mapH + 31, r.distance);
    Label(ps, GREEN, tab3, mapH + 31, "HSpeed: ");
    Label(ps, WHITE, tab4, mapH + 31, r.speed);
  }

  method DrawReadouts(ps: PlaneSpotter, mapH: int, a: Aircraft, r: Readouts, compass: seq<Command>)
    requires ps.alignment == LEFT && CompassLines(compass)
    modifies ps`textColor, ps`backgroundColor, ps.tft`log
    ensures ps.tft.log == old(ps.tft.log) + ReadoutCommands(a, r, ps.tft.width, mapH, compass)
  {
    var tab3 := TruncDiv(ps.tft.width, 2) + 91;
    DrawTypeLine(ps, mapH, a, tab3);
    DrawAltitudeLine(ps, mapH, r, compass, tab3);
    DrawDistanceLine(ps, mapH, r, tab3);
  }

  method DrawHeader(ps: PlaneSpotter, a: Aircraft)
    requires ps.alignment == LEFT
    modifies ps`textColor, ps`backgroundColor, ps.tft`log
    ensures ps.tft.log == old(ps.tft.log) + HeaderCommands(a, ps.textBounds)
  {
    ps.SetTextColors(WHITE, BLACK);
    ps.DrawString(350, 3, a.airlineOperator);
    ps.tft.Emit(FillRoundRect(3, 3, 90, 15, 2, BLACK));
    Label(ps, GREEN, 6, 3, "Sqwak: ");
    Label(ps, WHITE, 56, 3, a.sqwak);
  }

  method DrawRoute(ps: PlaneSpotter, mapH: int, a: Aircraft)
    requires ps.alignment == LEFT
    modifies ps`textColor, ps`backgroundColor, ps.tft`log
    ensures ps.tft.log == old(ps.tft.log) + RouteCommands(a, ps.tft.width, mapH)
    ensures HasRoute(a) ==> ps.textColor == WHITE && ps.backgroundColor == WHITE
    ensures !HasRoute(a) ==> ps.textColor == old(ps.textColor) && ps.backgroundColor == old(ps.backgroundColor)
  {
    if a.fromShort != "" && a.toShort != "" {
      ps.tft.Emit(FillRoundRect(3, mapH + 52, ps.tft.width - 4, 15, 2, BLACK));
      Label(ps, GREEN, 185, 303, ": From ");
      Label(ps, WHITE, 8, 303, a.fromCode + a.fromShort);
      Label(ps, GREEN, 230, 303, "To : ");
      Label(ps, WHITE, 280, 303, a.toCode + a.toShort);
    }
  }

  /** Frame, readouts and header, with the alignment set to LEFT. */
  method DrawUpper(ps: PlaneSpotter, mapH: int, a: Aircraft, r: Readouts, compass: seq<Command>)
    requires CompassLines(compass)
    modifies ps`alignment, ps`textColor, ps`backgroundColor, ps.tft`log
    ensures ps.alignment == LEFT
    ensures ps.tft.log == old(ps.tft.log) + FrameCommands(ps.tft.width, ps.tft.height, mapH)
      + ReadoutCommands(a, r, ps.tft.width, mapH, compass) + HeaderCommands(a, ps.textBounds)
  {
    DrawFrame(ps.tft, mapH);
    ps.SetTextAlignment(LEFT);
    DrawReadouts(ps, mapH, a, r, compass);
    DrawHeader(ps, a);
  }

  /** The category label and the route, the calls after the header. */
  method DrawLower(ps: PlaneSpotter, mapH: int, a: Aircraft)
    requires ps.alignment == LEFT
    modifies ps`textColor, ps`backgroundColor, ps.tft`log
    ensures ps.tft.log == old(ps.tft.log) + LowerCommands(a, ps.tft.width, mapH)
    ensures ps.textColor == ps.backgroundColor
    ensures ps.textColor == if HasRoute(a) then WHITE else Classification(a.species, a.enginetype).1
  {
    var chassis, chassisColor := ClassifyAircraft(a.species, a.registration, a.enginetype);
    Label(ps, chassisColor, 68, mapH + 7, chassis);
    DrawRoute(ps, mapH, a);
  }

  /** The panel of an aircraft with a call sign. */
  method DrawPanel(ps: PlaneSpotter, mapH: int, a: Aircraft, r: Readouts, compass: seq<Command>)
    requires CompassLines(compass)
    modifies ps`alignment, ps`textColor, ps`backgroundColor, ps.tft`log
    ensures ps.tft.log == old(ps.tft.log) + PanelCommands(a, r, ps.tft.width, ps.tft.height, mapH, compass, ps.textBounds)
    ensures ps.alignment == LEFT && ps.textColor == ps.backgroundColor
    ensures ps.textColor == if HasRoute(a) then WHITE else Classification(a.species, a.enginetype).1
  {
    DrawUpper(ps, mapH, a, r, compass);
    DrawLower(ps, mapH, a);
    AppendPieces(old(ps.tft.log), FrameCommands(ps.tft.width, ps.tft.height, mapH),
      ReadoutCommands(a, r, ps.tft.width, mapH, compass), HeaderCommands(a, ps.textBounds),
      LowerCommands(a, ps.tft.width, mapH));
  }

  /** drawInfoBox(closestAircraft), with the map height, the formatted
      readouts and the compass lines given. */
  method DrawInfoBox(ps: PlaneSpotter, mapH: int, a: Aircraft, r: Readouts, compass: seq<Command>)
    requires CompassLines(compass)
    modifies ps`alignment, ps`textColor, ps`backgroundColor, ps.tft`log
    ensures ps.tft.log == old(ps.tft.log)
      + InfoBoxCommands(a, r, ps.tft.width, ps.tft.height, mapH, compass, ps.textBounds)
    ensures a.call == "" ==> (ps.alignment == old(ps.alignment)
      && ps.textColor == old(ps.textColor) && ps.backgroundColor == old(ps.backgroundColor))
    ensures a.call != "" ==> (ps.alignment == LEFT
      && ps.textColor == ps.backgroundColor
      && ps.textColor == if HasRoute(a) then WHITE else Classification(a.species, a.enginetype).1)
  {
    if a.call != "" {
      DrawPanel(ps, mapH, a, r, compass);
    }
  }

  // ---------------------------------------------------------------------
  // Guards

  /** Without a call sign nothing at all is drawn; with one the panel is. */
  lemma NothingWithoutCallSign(a: Aircraft, r: Readouts, width: int, height: int, mapH: int,
                               compass: seq<Command>, textBounds: string -> Bounds)
    ensures InfoBoxCommands(a, r, width, height, mapH, compass, textBounds) == [] <==> a.call == ""
    ensures a.call != "" ==>
      InfoBoxCommands(a, r, width, height, mapH, compass, textBounds)[..4] == FrameCommands(width, height, mapH)
  {
  }

  /** The route bar is drawn exactly when there is a call sign and both
      endpoints of the route are known. */
  lemma RouteIffEndpoints(a: Aircraft, r: Readouts, width: int, height: int, mapH: int,
                          compass: seq<Command>, textBounds: string -> Bounds)
    requires mapH >= 0 && CompassLines(compass)
    ensures RouteBar(width, mapH) in InfoBoxCommands(a, r, width, height, mapH, compass, textBounds)
      <==> a.call != "" && HasRoute(a)
  {
    var bar := RouteBar(width, mapH);
    if a.call != "" {
      var (chassis, chassisColor) := Classification(a.species, a.enginetype);
      assert bar !in FrameCommands(width, height, mapH);
      assert bar !in compass;
      assert bar !in ReadoutCommands(a, r, width, mapH, compass);
      assert bar !in HeaderCommands(a, textBounds);
      assert bar !in LabelCommands(chassisColor, 68, mapH + 7, chassis);
      assert HasRoute(a) ==> RouteCommands(a, width, mapH)[0] == bar;
    }
  }

  /** The category label is printed in its colour on the first line of the
      panel, second column. */
  lemma CategoryShown(a: Aircraft, r: Readouts, width: int, height: int, mapH: int,
                      compass: seq<Command>, textBounds: string -> Bounds)
    requires a.call != ""
    ensures var cmds := InfoBoxCommands(a, r, width, height, mapH, compass, textBounds);
      var (chassis, chassisColor) := Classification(a.species, a.enginetype);
      exists k :: 0 <= k && k + 4 <= |cmds| && cmds[k..][..4] == LabelCommands(chassisColor, 68, mapH + 7, chassis)
  {
    var cmds := InfoBoxCommands(a, r, width, height, mapH, compass, textBounds);
    var (chassis, chassisColor) := Classification(a.species, a.enginetype);
    var pre := FrameCommands(width, height, mapH) + ReadoutCommands(a, r, width, mapH, compass)
      + HeaderCommands(a, textBounds);
    var lab := LabelCommands(chassisColor, 68, mapH + 7, chassis);
    assert cmds == pre + lab + RouteCommands(a, width, mapH);
    assert cmds[|pre|..][..4] == lab;
  }
}
