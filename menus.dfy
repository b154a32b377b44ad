/** drawMainMenu and drawPresetMenu: a title and a column of buttons, each a
    white divider with its label below it. Both menus share the loop. */
module Menus {
  import opened Display
  import opened Spotter

  const FONT_HEIGHT := 24
  const BUTTON_HEIGHT := 40

  const MAIN_TITLE := "Main Menu"
  const MAIN_ITEMS: seq<string> := ["Presets", "Track", "Weather Station", "Planespotter", "Back"]
  const MAIN_COUNT := 5

  const PRESET_TITLE := "Preset Menu"
  const PRESETS: seq<string> := ["EHAM, Amsterdam Schiphol", "EHLE, Lelystad Airport", "EHEH, Eindhoven Airport",
    "EHRD, Rotterdam Airport", "EHKD, Den Helder", "EHTX, Texel Airport", "Current location", "Back"]
  const PRESET_COUNT := 7

  /** The text style drawString reads from the PlaneSpotter when a menu is drawn. */
  datatype Style = Style(alignment: TextAlignment, fg: Color, bg: Color, textBounds: string -> Bounds)

  function Text(s: Style, x: int, y: int, text: string): seq<Command>
  {
    StringCommands(s.alignment, s.fg, s.bg, s.textBounds(text), x, y, text)
  }

  /** Button i: the divider at the top of its 40-pixel band, the label
      centred vertically for a 24-pixel font. */
  function MenuRow(s: Style, width: int, items: seq<string>, i: nat): seq<Command>
    requires i < |items|
  {
    [DrawFastHLine(0, i * BUTTON_HEIGHT, width, WHITE)]
    + Text(s, 20, i * BUTTON_HEIGHT + (BUTTON_HEIGHT - FONT_HEIGHT) / 2, items[i])
  }

  function MenuRows(s: Style, width: int, items: seq<string>, n: nat): seq<Command>
    requires n <= |items|
    decreases n
  {
    if n == 0 then [] else MenuRows(s, width, items, n - 1) + MenuRow(s, width, items, n - 1)
  }

  /** A menu of the first n items: font, black screen, title, buttons. */
  function MenuCommands(s: Style, width: int, title: string, items: seq<string>, n: nat): seq<Command>
    requires n <= |items|
  {
    [SetTextFont(2), FillScreen(BLACK)]
    + Text(s, 10, BUTTON_HEIGHT - FONT_HEIGHT / 2, title)
    + MenuRows(s, width, items, n)
  }

  function StyleOf(ps: PlaneSpotter): Style
    reads ps
  {
    Style(ps.alignment, ps.textColor, ps.backgroundColor, ps.textBounds)
  }

  /** One pass of the button loop. */
  method DrawRow(ps: PlaneSpotter, items: seq<string>, i: nat)
    requires i < |items|
    modifies ps.tft`log
    ensures ps.tft.log == old(ps.tft.log) + MenuRow(StyleOf(ps), ps.tft.width, items, i)
  {
    ghost var before := ps.tft.log;
    ps.tft.Emit(DrawFastHLine(0, i * BUTTON_HEIGHT, ps.tft.width, WHITE));
    ps.DrawString(20, i * BUTTON_HEIGHT + (BUTTON_HEIGHT - FONT_HEIGHT) / 2, items[i]);
    AppendTwo(before, [DrawFastHLine(0, i * BUTTON_HEIGHT, ps.tft.width, WHITE)],
      Text(StyleOf(ps), 20, i * BUTTON_HEIGHT + (BUTTON_HEIGHT - FONT_HEIGHT) / 2, items[i]));
  }

  /** The body the two menus share; `n` is their numberOfCommands. */
  method DrawMenu(ps: PlaneSpotter, title: string, items: seq<string>, n: nat)
    requires n <= |items|
    modifies ps.tft`log
    ensures ps.tft.log == old(ps.tft.log) + MenuCommands(StyleOf(ps), ps.tft.width, title, items, n)
  {
    ps.tft.Emit(SetTextFont(2));
    ps.tft.Emit(FillScreen(BLACK));
    ps.DrawString(10, BUTTON_HEIGHT - FONT_HEIGHT / 2, title);
    ghost var head := ps.tft.log;
    for i := 0 to n
      invariant ps.tft.log == head + MenuRows(StyleOf(ps), ps.tft.width, items, i)
    {
      DrawRow(ps, items, i);
      AppendTwo(head, MenuRows(StyleOf(ps), ps.tft.width, items, i), MenuRow(StyleOf(ps), ps.tft.width, items, i));
    }
  }

  method DrawMainMenu(ps: PlaneSpotter)
    modifies ps.tft`log
    ensures ps.tft.log == old(ps.tft.log) + MenuCommands(StyleOf(ps), ps.tft.width, MAIN_TITLE, MAIN_ITEMS, MAIN_COUNT)
  {
    DrawMenu(ps, MAIN_TITLE, MAIN_ITEMS, MAIN_COUNT);
  }

  method DrawPresetMenu(ps: PlaneSpotter)
    modifies ps.tft`log
    ensures ps.tft.log == old(ps.tft.log) + MenuCommands(StyleOf(ps), ps.tft.width, PRESET_TITLE, PRESETS, PRESET_COUNT)
  {
    DrawMenu(ps, PRESET_TITLE, PRESETS, PRESET_COUNT);
  }

  /** Button i's divider spans the screen at y = 40 i, and its label is
      printed with the cursor at y = 40 i + 8, x placed from 20 by the
      alignment. */
  lemma RowLayout(s: Style, width: int, items: seq<string>, i: nat)
    requires i < |items|
    ensures var row := MenuRow(s, width, items, i);
      && row[0] == DrawFastHLine(0, 40 * i, width, WHITE)
      && row[|row| - 1] == Print(items[i])
      && row[|row| - 2] == SetCursor(GlyphX(s.alignment, 20, s.textBounds(items[i]).w), 40 * i + 8)
  {
    TextPrintedAtCursor(s.alignment, s.fg, s.bg, s.textBounds(items[i]), 20, i * 40 + 8, items[i]);
  }

  /** Every button of the first n is drawn, in order, as one block: at
      offset k of the button calls. */
  lemma {:induction false} RowsContainRow(s: Style, width: int, items: seq<string>, n: nat, i: nat) returns (k: nat)
    requires i < n <= |items|
    ensures k + |MenuRow(s, width, items, i)| <= |MenuRows(s, width, items, n)|
    ensures MenuRows(s, width, items, n)[k..][..|MenuRow(s, width, items, i)|] == MenuRow(s, width, items, i)
    decreases n
  {
    var row := MenuRow(s, width, items, i);
    var prev := MenuRows(s, width, items, n - 1);
    var last := MenuRow(s, width, items, n - 1);
    assert MenuRows(s, width, items, n) == prev + last;
    if i == n - 1 {
      k := |prev|;
      assert (prev + last)[k..] == last;
    } else {
      k := RowsContainRow(s, width, items, n - 1, i);
      BlockKept(prev, last, k, |row|);
    }
  }

  /** Texts a command sequence prints. */
  predicate Prints(cmds: seq<Command>, t: string)
  {
    Print(t) in cmds
  }

  lemma TextPrints(s: Style, x: int, y: int, text: string, t: string)
    ensures Prints(Text(s, x, y, text), t) <==> t == text
  {
    var b := s.textBounds(text);
    TextPrintedAtCursor(s.alignment, s.fg, s.bg, b, x, y, text);
    var cmds := Text(s, x, y, text);
    if Print(t) in cmds {
      var i :| 0 <= i < |cmds| && cmds[i] == Print(t);
      assert i == |cmds| - 1;
    }
  }

  /** The buttons print exactly the first n items. */
  lemma {:induction false} RowsPrint(s: Style, width: int, items: seq<string>, n: nat, t: string)
    requires n <= |items|
    ensures Prints(MenuRows(s, width, items, n), t) <==> t in items[..n]
    decreases n
  {
    if n > 0 {
      var m: nat := n - 1;
      RowsPrint(s, width, items, m, t);
      var y := m * BUTTON_HEIGHT + (BUTTON_HEIGHT - FONT_HEIGHT) / 2;
      TextPrints(s, 20, y, items[m], t);
      assert MenuRows(s, width, items, n) == MenuRows(s, width, items, m) + MenuRow(s, width, items, m);
      assert MenuRow(s, width, items, m) == [DrawFastHLine(0, m * BUTTON_HEIGHT, width, WHITE)] + Text(s, 20, y, items[m]);
      assert items[..n] == items[..m] + [items[m]];
    }
  }

  /** A menu prints its title and the first n items, and nothing else. */
  lemma MenuPrints(s: Style, width: int, title: string, items: seq<string>, n: nat, t: string)
    requires n <= |items|
    ensures Prints(MenuCommands(s, width, title, items, n), t) <==> t == title || t in items[..n]
  {
    RowsPrint(s, width, items, n, t);
    TextPrints(s, 10, BUTTON_HEIGHT - FONT_HEIGHT / 2, title, t);
    var head: seq<Command> := [SetTextFont(2), FillScreen(BLACK)];
    assert Print(t) !in head;
  }

  /** A text that is neither the title nor one of the first n items is
      never shown. */
  lemma NotShown(s: Style, width: int, title: string, items: seq<string>, n: nat, t: string)
    requires n <= |items| && t != title
    requires forall i :: 0 <= i < n ==> items[i] != t
    ensures !Prints(MenuCommands(s, width, title, items, n), t)
  {
    MenuPrints(s, width, title, items, n, t);
  }

  /** The main menu shows "Back" as its fifth button. */
  lemma MainMenuHasBack(s: Style, width: int)
    ensures Prints(MenuCommands(s, width, MAIN_TITLE, MAIN_ITEMS, MAIN_COUNT), "Back")
  {
    MenuPrints(s, width, MAIN_TITLE, MAIN_ITEMS, MAIN_COUNT, "Back");
    assert MAIN_ITEMS[..MAIN_COUNT][4] == "Back";
  }

  /** The preset menu stops one button short: its eighth entry "Back" is
      never shown. */
  lemma PresetMenuHidesBack(s: Style, width: int)
    ensures !Prints(MenuCommands(s, width, PRESET_TITLE, PRESETS, PRESET_COUNT), "Back")
    ensures PRESETS[PRESET_COUNT] == "Back"
  {
    forall i | 0 <= i < PRESET_COUNT
      ensures PRESETS[i] != "Back"
    {
      assert |PRESETS[i]| > 4;
    }
    NotShown(s, width, PRESET_TITLE, PRESETS, PRESET_COUNT, "Back");
  }
}
