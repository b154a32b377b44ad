# PlaneSpotter renderer, modelled in Dafny

PlaneSpotter is the drawing layer of an ESP8266 flight tracker. It puts
aircraft, their trails, an information panel and menus on a TFT display, and
it streams BMP and JPEG images from the flash file system to that display.
This project models the integer logic under those display calls, and proves
what the calls add up to.

- **Display** (`display.dfy`): the TFT is a recorder. The class `Tft`
  appends every driver call (`SetAddrWindow`, `PushColors`, `DrawLine`,
  `FillRect`, `SetCursor`, `Print`, `SetRotation`, JPEG `Abort`, ...) to a
  `log`, and keeps the rotation `setRotation` leaves it in.
- **Files** (`storage.dfy`): a SPIFFS file is a byte sequence with a read
  position (class `File`), with `read()`, bulk `read(buf, n)` and
  `seek`. `read16`/`read32` are little-endian assemblies of single-byte
  reads.
- **BMP blitter** (`bmp.dfy`, `bmp_properties.dfy`): `drawBmp`.
  - Header parse and format check; the padded row stride.
  - The row and column loops over the two buffers `sdbuffer`
    (3·BUFFPIXEL bytes) and `tftbuffer` (BUFFPIXEL words), with the cursors
    `rgb_ptr` and `tft_ptr`, as methods over arrays. They are proved against
    a state machine `Blit`.
  - The rotation flip, the address window, and the rotation restore.
- **JPEG tiles** (`jpeg.dfy`): the `renderJPEG` loop over the decoder's
  MCU tiles, and an independent description of it (the fitting tiles before
  the first aborting one).
- **Trail** (`trail.dfy`): `drawAircraftHistory` with its altitude palette.
- **Marker** (`plane.dfy`): `drawPlane`'s choice between triangles and an
  outline, and its call-sign label.
- **Text engine and touch** (`spotter.dfy`): the class `PlaneSpotter`
  holds the alignment, the two text colours and the touch calibration.
  It has `drawString`, `setTextColor`, `setTextAlignment`,
  `setTouchScreenCalibration` and `getTouchPoint`.
- **Info box** (`info_box.dfy`): `drawInfoBox`'s layout, its call-sign and
  route guards, and the species/engine-type classification.
- **Menus** (`menus.dfy`): `drawMainMenu` and `drawPresetMenu`.
- **Integers** (`ints.dfy`): `uint8_t`/`uint16_t`, and the C conversion to
  `int16_t` and to `uint16_t`. C's truncating `/` on `int` is `TruncDiv`;
  Dafny's own `/` is Euclidean.
- **Records** (`flights.dfy`): the `Aircraft` and `AircraftPosition`
  records.

Calls into code outside `PlaneSpotter.cpp` are parameters:
- `GeoMap::convertToPixel` is a function `Coordinates -> Point`.
- `getTextBounds` is a function `string -> Bounds`.
- The JPEG decoder is a sequence of tiles.
- The opened file is a `File` or `null`.
- BUFFPIXEL is the parameter `bufPixels`, with 3·bufPixels ≤ 255, because
  `rgb_ptr` is a `uint8_t`. Its value is defined in `PlaneSpotter.h`, which is
  not part of this model.

Three behaviours of the code that are easy to misread:
- `renderJPEG` skips a tile that hangs over the right edge; it does not
  shrink it (`Jpeg.PartialTileSkipped`).
- The trail walks `positions[0..n)` in index order. Segment 0 joins
  `positions[0]` to the aircraft, and segment j joins `positions[j]` to
  `positions[j - 1]`.
- A refused BMP header does not restore the display's rotation (see
  Findings).

The registration scan in `drawInfoBox` is modelled as written. Each of its
tests compares one character with 'P', 'H' and '-' at once, so it never
matches. `InfoBox.ClassifyAircraft` is proved equal to a classification that
ignores the registration.

## Model

| member | source | states |
|---|---|---|
| Ints.Int16 | PlaneSpotter.cpp:86-87 | the `int16_t` conversion lies in -32768..32767 and agrees with its argument modulo 2^16 |
| Ints.Wrap16 | PlaneSpotter.cpp:108 | the `uint16_t` conversion agrees with its argument modulo 2^16 and leaves values in range unchanged |
| Ints.TruncDiv | PlaneSpotter.cpp:696-697 | C `int` division: the magnitude of the quotient is the quotient of the magnitudes, and it is negative only when exactly one operand is |
| Ints.TruncDivRemainder | PlaneSpotter.cpp:696-697 | the remainder beside C division has the dividend's sign and is smaller than the divisor in magnitude |
| Ints.TruncDivMonotone | PlaneSpotter.cpp:696-697 | C division by a positive divisor is monotone in the dividend |
| Storage.LE16 | PlaneSpotter.cpp:173-178 | the value read16 assembles is below 2^16, with the first byte as its low byte and the second as its high byte |
| Storage.LE32 | PlaneSpotter.cpp:180-187 | the value read32 assembles is below 2^32 |
| Storage.LE16RoundTrip | PlaneSpotter.cpp:173-178 | read16 of the little-endian encoding of any 16-bit value gives that value back |
| Storage.LE32Bytes | PlaneSpotter.cpp:180-187 | the four bytes read32 assembles are the bytes of the value's little-endian encoding: first byte lowest, fourth byte highest |
| Storage.LE32RoundTrip | PlaneSpotter.cpp:180-187 | read32 of the little-endian encoding of any 32-bit value gives that value back |
| Storage.File.Read | PlaneSpotter.cpp:175 | `read()` yields the byte at the position and advances by one; at the end of the file it yields -1 and stays put |
| Storage.File.ReadInto | PlaneSpotter.cpp:145 | `read(buf, n)` advances by min(n, bytes left), copies those bytes, and leaves the rest of the buffer as it was |
| Storage.File.Seek | PlaneSpotter.cpp:128-130 | `seek(pos, SeekSet)` leaves the position at pos, or at the end of the file when pos lies beyond it |
| Storage.Overlay | PlaneSpotter.cpp:145 | byte i of the buffer after a bulk read comes from the file when the file reaches that far, and is the old byte otherwise |
| Storage.ReadByte | PlaneSpotter.cpp:175-176 | a single-byte read stored into `uint8_t` yields the file's byte at that offset, or 0xFF past the end |
| Storage.Read16 | PlaneSpotter.cpp:173-178 | read16 consumes two bytes and returns the little-endian 16-bit field at the current offset |
| Storage.Read32 | PlaneSpotter.cpp:180-187 | read32 consumes four bytes and returns the little-endian 32-bit field at the current offset |
| Bmp.ParseHeader | PlaneSpotter.cpp:81-91 | an accepted header implies the file holds all 34 header bytes, because a read past the end yields 0xFF and the compression field would not be zero |
| Bmp.AcceptedHeaderBytes | PlaneSpotter.cpp:81-94 | a header is accepted exactly when the file holds 34 bytes with "BM" at byte 0, planes 1 at byte 26, depth 24 at byte 28 and a zero compression field at bytes 30-33; then offset, width and height are the little-endian fields from bytes 10, 18 and 22, with width and height truncated to `int16_t` |
| Bmp.ReadHeader | PlaneSpotter.cpp:81-94 | the read16/read32 sequence returns the parsed header, and leaves the file just after the 34 header bytes when the header is accepted |
| Bmp.RowSize | PlaneSpotter.cpp:94 | `(3w+3) & ~3` is a multiple of 4 between 3w and 3w + 3, and zero only for w = 0 |
| Bmp.RowSizeIsPaddedStride | PlaneSpotter.cpp:94 | the stride is 3w rounded up to a multiple of 4; w = 3 gives 12 |
| Bmp.Rgb565Fields | PlaneSpotter.cpp:151-153 | the packed pixel holds blue's top 5 bits in bits 0-4, green's top 6 bits in bits 5-10, and red's top 5 bits in bits 11-15 |
| Bmp.FlippedYExample | PlaneSpotter.cpp:106-116 | the flipped y is height - y - h in rotations 0-3, wraps modulo 2^16 when negative, and is left unchanged in the other rotations |
| Bmp.Refill | PlaneSpotter.cpp:137-147 | a refill empties the pixel buffer, rewinds `rgb_ptr` to 0, keeps the byte buffer's size and keeps the file position within the file |
| Bmp.Column | PlaneSpotter.cpp:135-155 | one column keeps the buffer state well formed: both cursors stay inside their buffers |
| Bmp.SeekRow | PlaneSpotter.cpp:128-132 | the row-start seek keeps the buffer state well formed |
| Bmp.Rows | PlaneSpotter.cpp:126-156 | any number of rows keeps the buffer state well formed |
| Bmp.RefillStep | PlaneSpotter.cpp:137-147 | the flush and the read on the arrays and the file are the state machine's Refill, with the display log extended by its pushColors calls |
| Bmp.RefillIfEmpty | PlaneSpotter.cpp:137-147 | a refill happens exactly when `rgb_ptr` has reached 3·BUFFPIXEL; afterwards one more pixel fits in both buffers |
| Bmp.PixelStep | PlaneSpotter.cpp:151-154 | converting three buffered bytes appends their RGB565 pixel at `tft_ptr` and advances the cursors by 3 and by 1 |
| Bmp.ColumnStep | PlaneSpotter.cpp:135-155 | the body of the column loop on the arrays is the state machine's Column |
| Bmp.RowStep | PlaneSpotter.cpp:126-155 | the body of the row loop, seek included, is the state machine's Row |
| Bmp.StreamRows | PlaneSpotter.cpp:126-159 | the row loop and the final flush append exactly the pushColors calls of the state machine run over the file |
| Bmp.BlitImage | PlaneSpotter.cpp:101-159 | the accepted-header branch sets the mirrored rotation (r + 4) % 8, sets the address window at x and the flipped y, and streams the rows |
| Bmp.DrawBmp | PlaneSpotter.cpp:55-167 | drawBmp appends exactly BmpCommands to the log: nothing on the early returns; on a refused header only the final setRotation with the stale `rotation`; otherwise the blit followed by the restore. The display ends in the rotation that log produces |
| Bmp.RotationRestored | PlaneSpotter.cpp:101-166 | when `rotation` holds the display's rotation, drawBmp leaves the display in the rotation it found, on every path |
| Bmp.EndsWithRestore | PlaneSpotter.cpp:164-166 | past the early returns, drawBmp's last call is setRotation: with the stale value after a refused header, with the saved rotation otherwise |
| Bmp.StaleRotation | PlaneSpotter.cpp:166 | as written, a refused header leaves the display in whatever rotation the never-assigned `rotation` held |
| Bmp.StaleRotationExample | PlaneSpotter.cpp:166 | a display in rotation 1, an empty file and a stale 0: drawBmp leaves the display in rotation 0 |
| Bmp.DrawBmpCorrected | PlaneSpotter.cpp:55-167 | drawBmp with both findings repaired draws the corrected stream and always leaves the rotation it found |
| BmpProperties.OnlyAcceptedHeaderDraws | PlaneSpotter.cpp:59-91 | drawBmp makes no display call at all exactly when the origin is off the screen or the file is missing; a refused header sets no address window and pushes no pixel |
| BmpProperties.AcceptedHeaderBlits | PlaneSpotter.cpp:101-166 | for an accepted header, the calls are: setRotation((r+4)%8), the address window (x, y', x+w-1, y'+h-1) with y' the flipped y, the row loop's pushColors calls, then setRotation(r). The pixels pushed are exactly the row loop's |
| BmpProperties.RefillKeepsPixels | PlaneSpotter.cpp:139-146 | a refill moves the pending pixels to the display in order and keeps every push within BUFFPIXEL |
| BmpProperties.ColumnAddsPixel | PlaneSpotter.cpp:135-154 | one column adds exactly one pixel after those already produced, and keeps every push within BUFFPIXEL |
| BmpProperties.ColumnsAddPixels | PlaneSpotter.cpp:135-155 | n columns add exactly n pixels and keep the earlier ones as a prefix |
| BmpProperties.RowsAddPixels | PlaneSpotter.cpp:126-156 | n rows of w columns add exactly n·w pixels, and keep every push between 1 and BUFFPIXEL pixels |
| BmpProperties.RowAddsPixels | PlaneSpotter.cpp:126-155 | one row adds w pixels, and the remaining rows continue from the state it leaves |
| BmpProperties.FinishSendsAll | PlaneSpotter.cpp:159 | the final flush leaves all produced pixels pushed |
| BmpProperties.StreamPixelCount | PlaneSpotter.cpp:126-159 | an accepted w×h image pushes exactly w·h pixels in total, in pushColors calls of 1 to BUFFPIXEL pixels each |
| BmpProperties.VisitedTimesWidth | PlaneSpotter.cpp:126 | the rows the byte loop `pos < offset + h * rowSize; pos += rowSize` visits, times w, make w·h: a zero stride visits no row, but then w = 0 |
| BmpProperties.Image | PlaneSpotter.cpp:126-156 | the stored image, rows rowSize bytes apart, has w·h pixels |
| BmpProperties.RefillAligned | PlaneSpotter.cpp:145-146 | a refill at offset p loads the file's bytes from p on |
| BmpProperties.ConvertAligned | PlaneSpotter.cpp:151-154 | converting at offset p produces the pixel stored at p |
| BmpProperties.ColumnAligned | PlaneSpotter.cpp:135-154 | a column at offset p produces the pixel stored at p and moves on to p + 3 |
| BmpProperties.ColumnsAligned | PlaneSpotter.cpp:135-155 | n columns from offset p produce the n pixels stored from p on |
| BmpProperties.CorrectedRow | PlaneSpotter.cpp:128-155 | with the buffer discarded at the row start, a row produces exactly that row's stored pixels |
| BmpProperties.CorrectedRows | PlaneSpotter.cpp:126-156 | with the buffer discarded at every row start, the rows produce the stored image row by row |
| BmpProperties.CorrectedStreamIsImage | PlaneSpotter.cpp:126-159 | the corrected row loop pushes exactly the stored image, each pixel converted from its own three bytes |
| BmpProperties.SeekAligned | PlaneSpotter.cpp:128-131 | the row-start test as written leaves the byte buffer aligned at the row start when it seeks, or when the buffer was aligned there already, and sends no pixel |
| BmpProperties.AsWrittenRow | PlaneSpotter.cpp:128-155 | an unpadded row as written, entered with a seek or with the buffer aligned at its start, produces that row's stored pixels and ends aligned at the next row start |
| BmpProperties.AsWrittenRows | PlaneSpotter.cpp:126-156 | unpadded rows as written produce the stored image row by row |
| BmpProperties.AsWrittenUnpaddedIsImage | PlaneSpotter.cpp:126-159 | when rows carry no padding (3w a multiple of 4) the row loop as written also pushes exactly the stored image: the skipped seek loses nothing |
| BmpProperties.ColumnCursor | PlaneSpotter.cpp:137-154 | where one column leaves `rgb_ptr` (at 3 after a refill, 3 further on otherwise) and the file position |
| BmpProperties.NarrowFirstRow | PlaneSpotter.cpp:126-155 | row 0 of a 3-pixel-wide image read with BUFFPIXEL = 4 ends with `rgb_ptr` = 9 and the file at the start of row 1 |
| BmpProperties.NarrowRowsAsWritten | PlaneSpotter.cpp:128-130 | as written, row 1 of that image does not seek, and its pixels start at row 0's padding |
| BmpProperties.PaddingBecomesPixel | PlaneSpotter.cpp:128-130 | for that image, the pixels as written are row 0 followed by a row read from offset 9 (padding first); the corrected loop gives row 0 followed by row 1 |
| BmpProperties.NarrowStreamAsWritten | PlaneSpotter.cpp:126-159 | the as-written pixels of the 3×2 image are RowPixels(off, 3) + RowPixels(off + 9, 3) |
| BmpProperties.NarrowStreamCorrected | PlaneSpotter.cpp:126-159 | the corrected pixels of the 3×2 image are RowPixels(off, 3) + RowPixels(off + 12, 3) |
| BmpProperties.PaddingBecomesPixelExample | PlaneSpotter.cpp:128-130 | with zero padding and a blue first pixel in row 1, the fourth pixel pushed as written is black, while the image holds blue there |
| Display.Tft.SetRotationTo | PlaneSpotter.cpp:103 | setRotation records the call and leaves the rotation at m % 8 |
| Display.Tft.PushBuffer | PlaneSpotter.cpp:141 | pushColors(buffer, n) records the first n pixels of the buffer |
| Jpeg.Pushes | PlaneSpotter.cpp:217 | one pushColor per pixel, in order |
| Jpeg.PushTile | PlaneSpotter.cpp:216-217 | `while (count--) pushColor(*pImg++)` pushes every pixel of the MCU once, in order |
| Jpeg.RenderJpeg | PlaneSpotter.cpp:200-228 | the tile loop appends exactly JpegCommands: a fitting tile's window and pixels, an abort at a tile that does not fit and reaches the bottom edge (which ends decoding), and nothing for any other tile |
| Jpeg.FirstAbort | PlaneSpotter.cpp:223 | the index of the first tile that aborts decoding: no tile before it aborts |
| Jpeg.Drawn | PlaneSpotter.cpp:213-221 | one entry per tile |
| Jpeg.JpegIsFilteredTiles | PlaneSpotter.cpp:208-225 | renderJPEG draws exactly the fitting tiles before the first aborting tile, in order, then the abort if some tile aborts |
| Jpeg.AbortOnlyLast | PlaneSpotter.cpp:223 | no call but the last is the abort |
| Jpeg.AbortIffSomeTileAborts | PlaneSpotter.cpp:223 | the log ends with the abort exactly when some tile neither fits nor ends above the bottom edge |
| Jpeg.TileWindow | PlaneSpotter.cpp:211-217 | a drawn tile's window is mcu_w × mcu_h at (MCUx·mcu_w + xpos, MCUy·mcu_h + ypos), ends on the screen, and receives exactly mcu_w·mcu_h pixels |
| Jpeg.PartialTileSkipped | PlaneSpotter.cpp:213-223 | a tile over the right edge but above the bottom edge is skipped, not shrunk, and decoding goes on |
| Trail.PaletteIndex | PlaneSpotter.cpp:241 | `min(altitude / 4000, 9)` with C division is a valid palette index |
| Trail.PaletteBands | PlaneSpotter.cpp:241 | each 4000 ft band below 36000 ft gets its own palette entry |
| Trail.PaletteTop | PlaneSpotter.cpp:241 | every altitude from 36000 ft up uses the last entry |
| Trail.PaletteBottom | PlaneSpotter.cpp:241 | altitudes strictly between -4000 and 4000 ft use the first entry |
| Trail.PaletteExamples | PlaneSpotter.cpp:241 | 15999 ft gives index 3, 40000 ft gives 9, -3999 ft gives 0 |
| Trail.Visited | PlaneSpotter.cpp:234 | `min(history.counter, MAX_HISTORY)` loop passes: at most MAX_HISTORY, at most counter, none for a negative counter |
| Trail.DrawAircraftHistory | PlaneSpotter.cpp:230-248 | the loop appends exactly the trail of the first Visited positions |
| Trail.TrailLength | PlaneSpotter.cpp:234-245 | exactly two lines per visited position |
| Trail.TrailSegment | PlaneSpotter.cpp:234-245 | segment j joins positions[j] to positions[j-1] (segment 0 to the aircraft) in the colour of positions[j]'s altitude band; the second line is the first shifted by (+1, +1) |
| Plane.DrawPlane | PlaneSpotter.cpp:251-279 | drawPlane sets white on black and centre alignment, draws the call sign at the aircraft's pixel, then draws the marker |
| Plane.LinesShape | PlaneSpotter.cpp:275-277 | the outline of n vertices has n - 1 lines, and line k joins vertex k + 1 to vertex k |
| Plane.MarkerSelection | PlaneSpotter.cpp:271-278 | a special aircraft gets exactly two filled triangles sharing vertex 2; any other gets only outline lines; everything is red |
| Plane.LabelOverAircraft | PlaneSpotter.cpp:257-260 | the call sign is printed centred on the aircraft's pixel, over a black background box |
| Spotter.GlyphX | PlaneSpotter.cpp:645-655 | the glyph x is stored in `int16_t` |
| Spotter.GlyphXPlacement | PlaneSpotter.cpp:645-655 | LEFT starts the text at x, RIGHT ends it at x, and CENTER starts it half its width (rounded down) before x |
| Spotter.BackgroundIffColoursDiffer | PlaneSpotter.cpp:656-658 | the background rectangle (x1, y-h-1, w+2, h+3) is filled exactly when the text and background colours differ |
| Spotter.TextPrintedAtCursor | PlaneSpotter.cpp:659-660 | the text is printed once, last, right after the cursor is set to (x1, y) |
| Spotter.SingleColourClearsNothing | PlaneSpotter.cpp:669-671 | after setTextColor(c), drawString sets no background box: only the wrap off, the cursor and the text |
| Spotter.TouchEnds | PlaneSpotter.cpp:696-697 | the calibration maps min to 0 and max to the screen size |
| Spotter.TouchMonotone | PlaneSpotter.cpp:696-697 | a larger raw reading never maps to a smaller screen coordinate |
| Spotter.TouchOnScreen | PlaneSpotter.cpp:696-697 | a reading inside the calibrated range maps onto the screen |
| Spotter.TouchExample | PlaneSpotter.cpp:696-697 | width 480, range 100..900 and raw 500 give 240; a reading below the range truncates toward zero (-8) |
| Spotter.PlaneSpotter.SetTextColors | PlaneSpotter.cpp:672-676 | setTextColor(c, bg) sets both fields and passes them to the display |
| Spotter.PlaneSpotter.SetTextColor | PlaneSpotter.cpp:669-671 | setTextColor(c) sets both colours to c |
| Spotter.PlaneSpotter.SetTextAlignment | PlaneSpotter.cpp:678-680 | setTextAlignment changes the alignment and nothing else |
| Spotter.PlaneSpotter.DrawString | PlaneSpotter.cpp:640-661 | drawString appends exactly the text calls for the current alignment, colours and text bounds |
| Spotter.PlaneSpotter.SetTouchScreenCalibration | PlaneSpotter.cpp:686-691 | the four calibration fields take the given values and nothing else changes |
| Spotter.PlaneSpotter.GetTouchPoint | PlaneSpotter.cpp:693-699 | each axis is size·(raw - min)/(max - min) in C `int` arithmetic |
| InfoBox.CLength | PlaneSpotter.cpp:436 | `strlen`: the length up to the first NUL |
| InfoBox.ClassifyAircraft | PlaneSpotter.cpp:426-520 | the species switch, registration scan included, yields the label and colour of the species/engine-type table; the registration never matters |
| InfoBox.RedIffGeneralAviation | PlaneSpotter.cpp:458-463 | the label is red exactly for species 1 with engine type "1" (GA) |
| InfoBox.NotApplicableIffUnknownSpecies | PlaneSpotter.cpp:517-519 | "N/A" is shown exactly for a species code outside 1..8 |
| InfoBox.WhiteUnlessMarked | PlaneSpotter.cpp:429-520 | the label is white exactly when the aircraft is not GA, a sea plane, an amphibian or a helicopter |
| InfoBox.LandPlaneLabels | PlaneSpotter.cpp:458-482 | no species 1 label is the label of another species |
| InfoBox.Label | PlaneSpotter.cpp:344-347 | setTextColor(c) then a left-aligned drawString: both colours become c and no background box is drawn |
| InfoBox.EmitAll | PlaneSpotter.cpp:360-366 | the compass lines are drawn as given, in order |
| InfoBox.DrawFrame | PlaneSpotter.cpp:314-320 | the sky-blue background below the map and the three boxes |
| InfoBox.DrawTypeLine | PlaneSpotter.cpp:323-339 | the first line: the captions, the registration and the aircraft model at their tabs |
| InfoBox.DrawAltitudeLine | PlaneSpotter.cpp:343-366 | the second line: altitude, heading and the compass circle and lines |
| InfoBox.DrawDistanceLine | PlaneSpotter.cpp:372-382 | the third line: distance and speed |
| InfoBox.DrawReadouts | PlaneSpotter.cpp:323-382 | the three readout lines in order, with the right-hand tab at width / 2 + 91 |
| InfoBox.DrawHeader | PlaneSpotter.cpp:386-420 | the operator white on black, then the squawk box and code |
| InfoBox.DrawRoute | PlaneSpotter.cpp:526-540 | the route bar and the two endpoints are drawn exactly when both endpoints are known; otherwise nothing changes |
| InfoBox.DrawUpper | PlaneSpotter.cpp:312-420 | the frame, readouts and header, with the alignment set to LEFT |
| InfoBox.DrawLower | PlaneSpotter.cpp:521-540 | the category label in its colour, then the route; the text colour left is white with a route, the category colour without |
| InfoBox.DrawPanel | PlaneSpotter.cpp:312-541 | the whole panel of an aircraft with a call sign, and the text state it leaves |
| InfoBox.DrawInfoBox | PlaneSpotter.cpp:287-544 | drawInfoBox appends exactly InfoBoxCommands; without a call sign it also leaves the text state untouched |
| InfoBox.NothingWithoutCallSign | PlaneSpotter.cpp:312 | nothing at all is drawn exactly when the call sign is empty; otherwise the frame comes first |
| InfoBox.RouteIffEndpoints | PlaneSpotter.cpp:526-527 | the route bar is drawn exactly when there is a call sign and both fromShort and toShort are non-empty |
| InfoBox.CategoryShown | PlaneSpotter.cpp:521-522 | the category label is printed in its colour at (68, line1) |
| Menus.DrawRow | PlaneSpotter.cpp:571-572 | one button: the divider, then the label |
| Menus.DrawMenu | PlaneSpotter.cpp:561-574 | font 2, black screen, the title at (10, 28), then the first n buttons |
| Menus.DrawMainMenu | PlaneSpotter.cpp:561-575 | the main menu's calls with its five entries |
| Menus.DrawPresetMenu | PlaneSpotter.cpp:592-607 | the preset menu's calls with numberOfCommands = 7 |
| Menus.RowLayout | PlaneSpotter.cpp:570-573 | button i's divider spans the screen at y = 40·i, and its label is printed at (20, 40·i + 8) placed by the alignment |
| Menus.RowsContainRow | PlaneSpotter.cpp:570-573 | every one of the first n buttons appears, whole, among the button calls |
| Menus.TextPrints | PlaneSpotter.cpp:659-660 | one drawString prints its own text and no other |
| Menus.RowsPrint | PlaneSpotter.cpp:570-573 | the buttons print exactly the first n items |
| Menus.MenuPrints | PlaneSpotter.cpp:561-575 | a menu prints exactly its title and its first n items |
| Menus.NotShown | PlaneSpotter.cpp:601-604 | a text that is neither the title nor one of the first n items is never shown |
| Menus.MainMenuHasBack | PlaneSpotter.cpp:563-573 | the main menu shows "Back" |
| Menus.PresetMenuHidesBack | PlaneSpotter.cpp:594-604 | the preset menu's eighth entry is "Back", and it is never shown |

## Left out

- Serial logging, `millis()`, `delay`/`yield` and the `String`-to-`char[]` copies: they draw nothing.
- The `drawBmp` file lookup `SPIFFS.open`: the opened file (or `null`) is a parameter. `bmpFile.close()` has no effect on the display.
- `copyProgmemToSpiffs`: plain PROGMEM-to-file I/O.
- `drawSilhouettes`: a fixed file name, a delay and a disabled network download.
- `drawSPIFFSJpeg`: a hand-over to the external JPEG decoder; only the tile loop of `renderJPEG` is modelled, over a given tile sequence.
- `drawZoomAndPanMenu` and `setTouchScreen`: constant label placements and a pointer store.
- The floating-point trigonometry of the marker vertices and of the heading compass: the vertices and the compass lines are inputs. The compass loop also reads past its four-entry `degrees` array, which is undefined behaviour.
- The float and integer formatting of the info-box readouts (`String(distance, 2)`, ...): the formatted strings are the `Readouts` input.
- The commented-out squawk emergency logic: it is not live code. The live squawk box is modelled.
- Glyph rasterisation, `getTextBounds` and `print`: display-library calls, recorded or given as a function.
- The embedded NUL of a `String` passed to the `char *` drawString: the model prints the whole string.
- 32-bit `int` overflow in the address-window, tile-offset and touch arithmetic: coordinates are unbounded integers there.
- `TFT_BLUE_SKY` and `BUFFPIXEL` are defined in `PlaneSpotter.h`, which is not part of this model. The colour is a stand-in constant, and the buffer size is a parameter.
- Bmp.DrawBmp: requires an accepted header to have non-negative width and height, and an image end below 2^32 (HeaderFits). Top-down BMPs (negative height) and a wrapping `uint32_t` row cursor are therefore not covered.
- Bmp.DrawBmp: takes the uninitialised `rotation` byte as the parameter `rot0`, as one fixed value.
- Bmp.DrawBmp: the never-written bytes of the uninitialised `sdbuffer` are taken to be zero. They are pushed only when a bulk read comes up short, in a file shorter than offset + h·rowSize; the source then sends indeterminate bytes.
- Display.Tft: the width and height stay fixed in every rotation, while the driver swaps them for odd rotations. The model does not capture the consequence of a parity change through the stale-rotation path (see Findings): the later bounds test at PlaneSpotter.cpp:59, the info-box tab layout and the touch scaling at PlaneSpotter.cpp:696-697 would then see swapped sizes.
- Spotter.PlaneSpotter.GetTouchPoint: requires max ≠ min on both axes, since the source divides by their difference.
- Spotter.PlaneSpotter.constructor: the C++ constructor leaves the text and calibration fields uninitialised; the model takes their values as parameters.
- Trail.DrawAircraftHistory: requires the visited positions to exist and every altitude to be above -4000 ft. A lower altitude would index the palette with a negative number in the source.
- Plane.DrawPlane: requires at least five vertices for a special aircraft, since the triangles read vertices 0 to 4 (`planeDots_` is defined in `PlaneSpotter.h`).
- Jpeg.RenderJpeg: requires each tile to carry exactly mcu_w·mcu_h pixels, which is what the decoder hands over.

## Findings

| source | as written | input that shows it | evidently intended | confidence | as-written member | corrected member |
|---|---|---|---|---|---|---|
| PlaneSpotter.cpp:128-130 | the byte buffer is discarded only when the file position differs from the next row start | 3-pixel-wide image, 2 rows, BUFFPIXEL = 4: row 0 leaves the file exactly at row 1's start with three padding bytes still buffered, so row 1's first pixel is built from padding (black instead of the stored blue 0x001F) | every row's pixels come from that row's own bytes | not executed | BmpProperties.PaddingBecomesPixelExample | BmpProperties.CorrectedStreamIsImage |
| PlaneSpotter.cpp:70 | `rotation` is assigned only on the accepted-header path, but `setRotation(rotation)` runs on every path past the file open | display in rotation 1, an empty file, and 0 left in `rotation`: the display ends in rotation 0, a change of parity, so later `width()`/`height()` calls (the bounds test, the info-box tabs, the touch scaling) see the sizes swapped | the rotation is saved before the header is parsed, so every path restores it | not executed | Bmp.StaleRotationExample | Bmp.RotationRestored |

`Bmp.DrawBmpCorrected` combines both repairs: it saves the rotation before parsing and discards the buffer at every row start.
