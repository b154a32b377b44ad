/** drawAircraftHistory: the trail of an aircraft's recorded positions, one
    thick segment per position, coloured by altitude band. */
module Trail {
  import opened Ints
  import opened Display
  import opened Spotter
  import opened Flights

  /** The number of palette entries (heightPalette_). */
  const PALETTE_SIZE := 10

  /** `min(altitude / 4000, 9)` with C's truncating division. */
  function PaletteIndex(altitude: int): (k: int)
    requires altitude > -4000
    ensures 0 <= k < PALETTE_SIZE
  {
    var band := TruncDiv(altitude, 4000);
    if band < 9 then band else 9
  }

  /** Each 4000 ft band below 36000 ft has its own colour; everything from
      36000 ft up shares the last one. */
  lemma PaletteBands(altitude: int, k: nat)
    requires k < 9 && 4000 * k <= altitude < 4000 * (k + 1)
    ensures PaletteIndex(altitude) == k
  {
    assert Abs(altitude) == 4000 * k + (altitude - 4000 * k);
  }

  lemma PaletteTop(altitude: int)
    requires altitude >= 36000
    ensures PaletteIndex(altitude) == 9
  {
    DivMonotone(36000, altitude, 4000);
  }

  /** Below 4000 ft, including small negative readings, the first colour is used. */
  lemma PaletteBottom(altitude: int)
    requires -4000 < altitude < 4000
    ensures PaletteIndex(altitude) == 0
  {
  }

  lemma PaletteExamples()
    ensures PaletteIndex(15999) == 3 && PaletteIndex(40000) == 9 && PaletteIndex(-3999) == 0
  {
    PaletteBands(15999, 3);
    PaletteTop(40000);
  }

  /** `min(history.counter, MAX_HISTORY)` iterations, none for a negative counter. */
  function Visited(counter: int, maxHistory: nat): (n: nat)
    ensures n <= maxHistory && (0 <= counter ==> n <= counter)
    ensures n == maxHistory || n == counter || (counter < 0 && n == 0)
  {
    if counter <= 0 then 0 else if counter < maxHistory then counter else maxHistory
  }

  /** The positions that are read exist, and their altitudes index the palette. */
  predicate TrailReady(palette: seq<Color>, positions: seq<AircraftPosition>, n: nat)
  {
    |palette| == PALETTE_SIZE && n <= |positions|
    && forall j :: 0 <= j < n ==> positions[j].altitude > -4000
  }

  /** The two lines of one segment, the second shifted by (+1, +1). */
  function Segment(p1: Point, p2: Point, c: Color): seq<Command>
  {
    [DrawLine(p1.x, p1.y, p2.x, p2.y, c), DrawLine(p1.x + 1, p1.y + 1, p2.x + 1, p2.y + 1, c)]
  }

  /** lastCoordinates at the start of iteration j. */
  function Previous(aircraft: Coordinates, positions: seq<AircraftPosition>, j: nat): Coordinates
    requires j <= |positions|
  {
    if j == 0 then aircraft else positions[j - 1].coordinates
  }

  /** The calls of the first n iterations. */
  function TrailCommands(toPixel: Coordinates -> Point, palette: seq<Color>, aircraft: Coordinates,
                         positions: seq<AircraftPosition>, n: nat): seq<Command>
    requires TrailReady(palette, positions, n)
    decreases n
  {
    if n == 0 then []
    else
      var pos := positions[n - 1];
      TrailCommands(toPixel, palette, aircraft, positions, n - 1)
      + Segment(toPixel(pos.coordinates), toPixel(Previous(aircraft, positions, n - 1)),
                palette[PaletteIndex(pos.altitude)])
  }

  method DrawAircraftHistory(tft: Tft, toPixel: Coordinates -> Point, palette: seq<Color>, maxHistory: nat,
                             aircraft: Coordinates, positions: seq<AircraftPosition>, counter: int)
    requires TrailReady(palette, positions, Visited(counter, maxHistory))
    modifies tft`log
    ensures tft.log == old(tft.log) + TrailCommands(toPixel, palette, aircraft, positions, Visited(counter, maxHistory))
  {
    var last := aircraft;
    var n := if counter < maxHistory then counter else maxHistory;
    var j := 0;
    while j < n
      invariant 0 <= j <= Visited(counter, maxHistory)
      invariant last == Previous(aircraft, positions, j)
      invariant tft.log == old(tft.log) + TrailCommands(toPixel, palette, aircraft, positions, j)
    {
      var position := positions[j];
      var coordinates := position.coordinates;
      var p1 := toPixel(coordinates);
      var p2 := toPixel(last);
      var color := palette[PaletteIndex(position.altitude)];
      tft.Emit(DrawLine(p1.x, p1.y, p2.x, p2.y, color));
      tft.Emit(DrawLine(p1.x + 1, p1.y + 1, p2.x + 1, p2.y + 1, color));
      last := coordinates;
      j := j + 1;
    }
  }

  /** Exactly two lines per visited position. */
  lemma {:induction false} TrailLength(toPixel: Coordinates -> Point, palette: seq<Color>, aircraft: Coordinates,
                                       positions: seq<AircraftPosition>, n: nat)
    requires TrailReady(palette, positions, n)
    ensures |TrailCommands(toPixel, palette, aircraft, positions, n)| == 2 * n
    decreases n
  {
    if n > 0 {
      TrailLength(toPixel, palette, aircraft, positions, n - 1);
    }
  }

  /** Segment j runs from position j to position j - 1, and segment 0 to the
      aircraft itself, in the colour of position j's altitude band; the
      second line is the first shifted by (+1, +1). */
  lemma {:induction false} TrailSegment(toPixel: Coordinates -> Point, palette: seq<Color>, aircraft: Coordinates,
                                        positions: seq<AircraftPosition>, n: nat, j: nat)
    requires TrailReady(palette, positions, n) && j < n
    ensures |TrailCommands(toPixel, palette, aircraft, positions, n)| == 2 * n
    ensures var cmds := TrailCommands(toPixel, palette, aircraft, positions, n);
      var p1 := toPixel(positions[j].coordinates);
      var p2 := toPixel(if j == 0 then aircraft else positions[j - 1].coordinates);
      var c := palette[PaletteIndex(positions[j].altitude)];
      cmds[2 * j] == DrawLine(p1.x, p1.y, p2.x, p2.y, c)
      && cmds[2 * j + 1] == DrawLine(p1.x + 1, p1.y + 1, p2.x + 1, p2.y + 1, c)
    decreases n
  {
    TrailLength(toPixel, palette, aircraft, positions, n);
    TrailLength(toPixel, palette, aircraft, positions, n - 1);
    if j < n - 1 {
      TrailSegment(toPixel, palette, aircraft, positions, n - 1, j);
    }
  }
}
