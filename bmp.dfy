/** drawBmp of PlaneSpotter.cpp: a 24-bit uncompressed BMP streamed from a
    file to the display through a byte buffer of 3 * bufPixels bytes
    (`sdbuffer`) and a pixel buffer of bufPixels colours (`tftbuffer`).
    BUFFPIXEL is defined in PlaneSpotter.h, which is not part of this model;
    it is the parameter `bufPixels` here, with 3 * bufPixels <= 255 because the
    byte cursor `rgb_ptr` is a `uint8_t`. */
module Bmp {
  import opened Ints
  import opened Display
  import opened Storage

  datatype Option<T> = None | Some(value: T)

  /** The fields of a header that passed the format check. */
  datatype Header = Header(offset: int, width: int, height: int)

  const SIGNATURE := 0x4D42
  /** Bytes read by the header parse: signature, file size, creator bytes,
      image offset, header size, width, height, planes, depth, compression. */
  const HEADER_BYTES := 34

  /** The header as the sequence of read16/read32 calls sees it: the format is
      accepted only for signature 0x4D42, one plane, 24 bits and no
      compression. A read past the end yields 0xFF, and the compression field
      would then not be zero, so an accepted header lies inside the file. */
  function ParseHeader(data: seq<byte>): (hd: Option<Header>)
    ensures hd.Some? ==> |data| >= HEADER_BYTES
  {
    if U16At(data, 0) == SIGNATURE && U16At(data, 26) == 1 && U16At(data, 28) == 24 && U32At(data, 30) == 0
    then Some(Header(U32At(data, 10), Int16(U32At(data, 18)), Int16(U32At(data, 22))))
    else None
  }

  /** The accepted headers on the file's own bytes: "BM", planes 1, depth 24
      and compression 0 at bytes 0, 26, 28 and 30, and the offset, width and
      height fields assembled from bytes 10, 18 and 22 on. */
  lemma AcceptedHeaderBytes(data: seq<byte>)
    ensures ParseHeader(data).Some? <==>
      |data| >= HEADER_BYTES && data[0] == 0x42 && data[1] == 0x4D &&
      data[26] == 1 && data[27] == 0 && data[28] == 24 && data[29] == 0 &&
      data[30] == 0 && data[31] == 0 && data[32] == 0 && data[33] == 0
    ensures ParseHeader(data).Some? ==>
      ParseHeader(data).value.offset == LE32(data[10], data[11], data[12], data[13]) &&
      ParseHeader(data).value.width == Int16(LE32(data[18], data[19], data[20], data[21])) &&
      ParseHeader(data).value.height == Int16(LE32(data[22], data[23], data[24], data[25]))
  {
  }

  /** `(w * 3 + 3) & ~3`: clearing the two low bits of a non-negative number
      rounds it down to a multiple of four. */
  function RowSize(w: int): (rs: int)
    requires w >= 0
    ensures rs % 4 == 0
    ensures 3 * w <= rs <= 3 * w + 3
    ensures rs == 0 <==> w == 0
  {
    (3 * w + 3) - (3 * w + 3) % 4
  }

  /** The padded stride is the byte length rounded up to a multiple of four. */
  lemma RowSizeIsPaddedStride(w: nat)
    ensures RowSize(w) == ((3 * w + 3) / 4) * 4
    ensures RowSize(3) == 12
  {
  }

  /** The geometry the model covers: non-negative width and height and an
      image end that does not wrap the `uint32_t` row cursor. */
  predicate GeometryFits(hd: Header)
  {
    hd.width >= 0 && hd.height >= 0 && 0 <= hd.offset &&
    hd.offset + hd.height * RowSize(hd.width) < 0x1_0000_0000
  }

  predicate HeaderFits(data: seq<byte>)
  {
    ParseHeader(data).Some? ==> GeometryFits(ParseHeader(data).value)
  }

  /** BGR888 to RGB565, as the three statements on `tftbuffer[tft_ptr]` compute
      it: `(b >> 3) | ((g & 0xFC) << 3) | ((r & 0xF8) << 8)`. The three terms
      occupy the disjoint bit ranges 0..4, 5..10 and 11..15, so their bitwise
      or is their sum. */
  function Rgb565(b: byte, g: byte, r: byte): Color
  {
    b / 8 + (g / 4) * 32 + (r / 8) * 2048
  }

  /** The three colour fields of the packed pixel. */
  lemma Rgb565Fields(b: byte, g: byte, r: byte)
    ensures Rgb565(b, g, r) % 32 == b / 8
    ensures Rgb565(b, g, r) / 32 % 64 == g / 4
    ensures Rgb565(b, g, r) / 2048 == r / 8
  {
    PackFields(b / 8, g / 4, r / 8);
  }

  lemma PackFields(x: nat, y: nat, z: nat)
    requires x < 32 && y < 64 && z < 32
    ensures (x + 32 * y + 2048 * z) % 32 == x
    ensures (x + 32 * y + 2048 * z) / 32 == y + 64 * z
    ensures (y + 64 * z) % 64 == y && (x + 32 * y + 2048 * z) / 2048 == z
  {
  }

  /** The rotation the blit runs under: 0..3 mapped to the mirrored 4..7. */
  function FlippedRotation(r: int): int
  {
    (r + 4) % 8
  }

  /** The `y` the address window uses: for rotations 0..3 the flipped origin,
      computed in `uint16_t`; for any other rotation `y` is left as it is. */
  function FlippedY(rotation: int, height: int, y: u16, h: int): u16
  {
    if 0 <= rotation < 4 then Wrap16(height - y - h) else y
  }

  lemma FlippedYExample()
    ensures FlippedY(0, 320, 10, 50) == 260
    ensures FlippedY(1, 100, 90, 50) == 0x1_0000 - 40
    ensures FlippedY(5, 320, 10, 50) == 10
  {
  }

  // ---------------------------------------------------------------------------
  // The streaming loop as a state machine over the file and both buffers.

  /** The code as written, or with the repairs listed as findings. */
  datatype Variant = AsWritten | Corrected

  /** fpos: file position; sd: `sdbuffer`; rgb: `rgb_ptr`; out: the pending
      `tftbuffer[..tft_ptr]`; pushed: the pushColors calls made so far. */
  datatype Blit = Blit(fpos: nat, sd: seq<byte>, rgb: nat, out: seq<Color>, pushed: seq<Command>)

  ghost predicate WfBlit(data: seq<byte>, bufPixels: nat, s: Blit)
  {
    |s.sd| == 3 * bufPixels && s.rgb % 3 == 0 && s.rgb <= 3 * bufPixels &&
    s.fpos <= |data| && 3 * |s.out| <= s.rgb
  }

  function Zeros(n: nat): (z: seq<byte>)
    ensures |z| == n && forall i :: 0 <= i < n ==> z[i] == 0
  {
    seq(n, _ => 0)
  }

  /** The state before the first row: `rgb_ptr = sizeof(sdbuffer)`, `tft_ptr = 0`.
      The uninitialised `sdbuffer` is taken to hold zeros. */
  function Initial(fpos: nat, bufPixels: nat): Blit
  {
    Blit(fpos, Zeros(3 * bufPixels), 3 * bufPixels, [], [])
  }

  /** Flush a non-empty out-buffer, then read the next 3 * bufPixels bytes. */
  ghost function Refill(data: seq<byte>, s: Blit): (t: Blit)
    requires s.fpos <= |data|
    ensures t.fpos <= |data| && |t.sd| == |s.sd| && t.rgb == 0 && t.out == []
  {
    var pushed := if |s.out| > 0 then s.pushed + [PushColors(s.out)] else s.pushed;
    Blit(s.fpos + Min(|s.sd|, |data| - s.fpos), Overlay(data, s.fpos, s.sd), 0, [], pushed)
  }

  /** One column: refill when the byte buffer is used up, then convert the
      next three bytes into one pending pixel. */
  ghost function Column(data: seq<byte>, bufPixels: nat, s: Blit): (t: Blit)
    requires bufPixels >= 1 && WfBlit(data, bufPixels, s)
    ensures WfBlit(data, bufPixels, t)
  {
    Convert(if s.rgb >= 3 * bufPixels then Refill(data, s) else s)
  }

  /** The three bytes at `rgb_ptr` become the next pending pixel. */
  ghost function Convert(u: Blit): (t: Blit)
    requires u.rgb + 2 < |u.sd|
  {
    u.(rgb := u.rgb + 3, out := u.out + [Rgb565(u.sd[u.rgb], u.sd[u.rgb + 1], u.sd[u.rgb + 2])])
  }

  ghost function Columns(data: seq<byte>, bufPixels: nat, s: Blit, n: nat): (t: Blit)
    requires bufPixels >= 1 && WfBlit(data, bufPixels, s)
    ensures WfBlit(data, bufPixels, t)
  {
    if n == 0 then s else Column(data, bufPixels, Columns(data, bufPixels, s, n - 1))
  }

  /** The start of a row. As written, the file is sought and the byte buffer
      discarded only when the file position differs from the row start; the
      corrected variant discards the buffer at every row start. */
  ghost function SeekRow(data: seq<byte>, bufPixels: nat, v: Variant, s: Blit, rowStart: nat): (t: Blit)
    requires WfBlit(data, bufPixels, s)
    ensures WfBlit(data, bufPixels, t)
  {
    if v == Corrected || s.fpos != rowStart then s.(fpos := Min(rowStart, |data|), rgb := 3 * bufPixels) else s
  }

  ghost function Row(data: seq<byte>, bufPixels: nat, v: Variant, s: Blit, rowStart: nat, w: nat): (t: Blit)
    requires bufPixels >= 1 && WfBlit(data, bufPixels, s)
    ensures WfBlit(data, bufPixels, t)
  {
    Columns(data, bufPixels, SeekRow(data, bufPixels, v, s, rowStart), w)
  }

  /** The rows starting at byte offsets start, start + rowSize, ... */
  ghost function Rows(data: seq<byte>, bufPixels: nat, v: Variant, s: Blit, start: nat, rowSize: nat, w: nat, n: nat): (t: Blit)
    requires bufPixels >= 1 && WfBlit(data, bufPixels, s)
    ensures WfBlit(data, bufPixels, t)
    decreases n
  {
    if n == 0 then s
    else Rows(data, bufPixels, v, Row(data, bufPixels, v, s, start, w), start + rowSize, rowSize, w, n - 1)
  }

  /** After the rows: push any partially full out-buffer. */
  ghost function Finish(s: Blit): seq<Command>
  {
    if |s.out| > 0 then s.pushed + [PushColors(s.out)] else s.pushed
  }

  /** Rows visited by `for (pos = offset; pos < offset + h * rowSize; pos += rowSize)`. */
  function RowsVisited(h: nat, rowSize: nat): nat
  {
    if rowSize == 0 then 0 else h
  }

  /** The pushColors calls of the whole streaming loop, as written. */
  ghost function StreamCommands(data: seq<byte>, bufPixels: nat, v: Variant, fpos: nat, off: nat, w: nat, h: nat): seq<Command>
    requires bufPixels >= 1 && fpos <= |data|
  {
    Finish(Rows(data, bufPixels, v, Initial(fpos, bufPixels), off, RowSize(w), w, RowsVisited(h, RowSize(w))))
  }

  // ---------------------------------------------------------------------------
  // The imperative blitter.

  /** The file, both buffers and the two cursors hold the blitter state `s`. */
  ghost predicate Holds(f: File, sd: array<byte>, rgb: nat, buf: array<Color>, n: nat, s: Blit)
    reads f, sd, buf
  {
    f.position == s.fpos && sd[..] == s.sd && rgb == s.rgb && n <= buf.Length && buf[..n] == s.out
  }

  /** Flush the pending pixels, if any, and read the next block of bytes. */
  method RefillStep(f: File, tft: Tft, bufPixels: nat, sdbuffer: array<byte>, tftbuffer: array<Color>,
                    tftPtr: u8, ghost log0: seq<Command>, ghost cur: Blit)
    returns (tftPtr': u8, ghost next: Blit)
    requires f.Valid() && sdbuffer.Length == 3 * bufPixels && tftbuffer.Length == bufPixels
    requires Holds(f, sdbuffer, cur.rgb, tftbuffer, tftPtr, cur) && WfBlit(f.data, bufPixels, cur)
    requires tft.log == log0 + cur.pushed
    modifies f, sdbuffer, tft`log
    ensures f.Valid() && next == Refill(f.data, cur)
    ensures Holds(f, sdbuffer, 0, tftbuffer, tftPtr', next) && tft.log == log0 + next.pushed
  {
    tftPtr' := tftPtr;
    if tftPtr' > 0 {
      tft.PushBuffer(tftbuffer, tftPtr');
      tftPtr' := 0;
    }
    f.ReadInto(sdbuffer);
    next := Refill(f.data, cur);
  }

  /** The body of the column loop. */
  method ColumnStep(f: File, tft: Tft, bufPixels: nat, sdbuffer: array<byte>, tftbuffer: array<Color>,
                    rgbPtr: u8, tftPtr: u8, ghost log0: seq<Command>, ghost cur: Blit)
    returns (rgbPtr': u8, tftPtr': u8, ghost next: Blit)
    requires f.Valid() && 1 <= bufPixels && 3 * bufPixels <= 0xFF
    requires sdbuffer.Length == 3 * bufPixels && tftbuffer.Length == bufPixels
    requires Holds(f, sdbuffer, rgbPtr, tftbuffer, tftPtr, cur) && WfBlit(f.data, bufPixels, cur)
    requires tft.log == log0 + cur.pushed
    modifies f, sdbuffer, tftbuffer, tft`log
    ensures f.Valid() && next == Column(f.data, bufPixels, cur)
    ensures Holds(f, sdbuffer, rgbPtr', tftbuffer, tftPtr', next) && tft.log == log0 + next.pushed
  {
    ghost var u;
    rgbPtr', tftPtr', u := RefillIfEmpty(f, tft, bufPixels, sdbuffer, tftbuffer, rgbPtr, tftPtr, log0, cur);
    next := Convert(u);
    PixelStep(f, sdbuffer, tftbuffer, rgbPtr', tftPtr', u);
    rgbPtr' := rgbPtr' + 3;
    tftPtr' := tftPtr' + 1;
  }

  /** The refill at the head of a column, when the byte buffer is used up. */
  method RefillIfEmpty(f: File, tft: Tft, bufPixels: nat, sdbuffer: array<byte>, tftbuffer: array<Color>,
                       rgbPtr: u8, tftPtr: u8, ghost log0: seq<Command>, ghost cur: Blit)
    returns (rgbPtr': u8, tftPtr': u8, ghost u: Blit)
    requires f.Valid() && 1 <= bufPixels && 3 * bufPixels <= 0xFF
    requires sdbuffer.Length == 3 * bufPixels && tftbuffer.Length == bufPixels
    requires Holds(f, sdbuffer, rgbPtr, tftbuffer, tftPtr, cur) && WfBlit(f.data, bufPixels, cur)
    requires tft.log == log0 + cur.pushed
    modifies f, sdbuffer, tft`log
    ensures f.Valid() && u == (if cur.rgb >= 3 * bufPixels then Refill(f.data, cur) else cur)
    ensures Holds(f, sdbuffer, rgbPtr', tftbuffer, tftPtr', u) && tft.log == log0 + u.pushed
    ensures rgbPtr' + 3 <= 3 * bufPixels && tftPtr' < bufPixels
  {
    u := cur;
    rgbPtr', tftPtr' := rgbPtr, tftPtr;
    if rgbPtr' >= 3 * bufPixels {
      tftPtr', u := RefillStep(f, tft, bufPixels, sdbuffer, tftbuffer, tftPtr', log0, cur);
      rgbPtr' := 0;
    }
  }

  /** Convert the three bytes at `rgb_ptr` into the pixel at `tft_ptr`. */
  method PixelStep(f: File, sdbuffer: array<byte>, tftbuffer: array<Color>, rgbPtr: nat, tftPtr: nat, ghost u: Blit)
    requires Holds(f, sdbuffer, rgbPtr, tftbuffer, tftPtr, u)
    requires rgbPtr + 2 < sdbuffer.Length && tftPtr < tftbuffer.Length
    modifies tftbuffer
    ensures Holds(f, sdbuffer, rgbPtr + 3, tftbuffer, tftPtr + 1, Convert(u))
  {
    var px := Rgb565(sdbuffer[rgbPtr], sdbuffer[rgbPtr + 1], sdbuffer[rgbPtr + 2]);
    tftbuffer[tftPtr] := px;
    assert tftbuffer[..tftPtr + 1] == old(tftbuffer[..tftPtr]) + [px];
  }

  /** The body of the row loop: seek when needed, then one pixel per column. */
  method RowStep(f: File, tft: Tft, bufPixels: nat, sdbuffer: array<byte>, tftbuffer: array<Color>,
                 rgbPtr: u8, tftPtr: u8, ghost log0: seq<Command>, v: Variant, pos: nat, w: nat, ghost cur: Blit)
    returns (rgbPtr': u8, tftPtr': u8, ghost next: Blit)
    requires f.Valid() && 1 <= bufPixels && 3 * bufPixels <= 0xFF
    requires sdbuffer.Length == 3 * bufPixels && tftbuffer.Length == bufPixels
    requires Holds(f, sdbuffer, rgbPtr, tftbuffer, tftPtr, cur) && WfBlit(f.data, bufPixels, cur)
    requires tft.log == log0 + cur.pushed
    modifies f, sdbuffer, tftbuffer, tft`log
    ensures f.Valid() && next == Row(f.data, bufPixels, v, cur, pos, w)
    ensures Holds(f, sdbuffer, rgbPtr', tftbuffer, tftPtr', next) && tft.log == log0 + next.pushed
  {
    rgbPtr', tftPtr' := rgbPtr, tftPtr;
    if f.position != pos {
      f.Seek(pos);
      rgbPtr' := 3 * bufPixels;
    } else if v == Corrected {
      rgbPtr' := 3 * bufPixels;
    }
    ghost var started := SeekRow(f.data, bufPixels, v, cur, pos);
    assert Holds(f, sdbuffer, rgbPtr', tftbuffer, tftPtr', started);
    next := started;
    var col := 0;
    while col < w
      invariant 0 <= col <= w && f.Valid()
      invariant next == Columns(f.data, bufPixels, started, col)
      invariant Holds(f, sdbuffer, rgbPtr', tftbuffer, tftPtr', next) && tft.log == log0 + next.pushed
    {
      rgbPtr', tftPtr', next := ColumnStep(f, tft, bufPixels, sdbuffer, tftbuffer, rgbPtr', tftPtr', log0, next);
      col := col + 1;
    }
  }

  /** `n * rowSize`, unrolled one row at a time. */
  ghost function Span(n: nat, rowSize: nat): (r: nat)
    ensures r == 0 <==> n == 0 || rowSize == 0
  {
    if n == 0 then 0 else rowSize + Span(n - 1, rowSize)
  }

  lemma {:induction false} SpanIsProduct(n: nat, rowSize: nat)
    ensures Span(n, rowSize) == n * rowSize
  {
    if n > 0 {
      SpanIsProduct(n - 1, rowSize);
    }
  }

  /** Doing one row and then the remaining ones is doing them all. */
  lemma RowsPeel(data: seq<byte>, bufPixels: nat, v: Variant, s: Blit, start: nat, rowSize: nat, w: nat, n: nat,
                 t: Blit, next: nat, m: nat, rows: Blit, limit: int)
    requires bufPixels >= 1 && WfBlit(data, bufPixels, s) && n > 0
    requires next == start + rowSize && m == n - 1 && t == Row(data, bufPixels, v, s, start, w)
    requires rows == Rows(data, bufPixels, v, s, start, rowSize, w, n) && start + Span(n, rowSize) == limit
    ensures Rows(data, bufPixels, v, t, next, rowSize, w, m) == rows && next + Span(m, rowSize) == limit
  {
    assert rows == Rows(data, bufPixels, v, Row(data, bufPixels, v, s, start, w), start + rowSize, rowSize, w, n - 1);
    SpanPeel(n, rowSize);
  }

  lemma SpanPeel(n: nat, rowSize: nat)
    requires n > 0
    ensures Span(n, rowSize) == rowSize + Span(n - 1, rowSize)
  {
  }

  /** The row and column loops of drawBmp, over a freshly allocated pair of buffers. */
  method StreamRows(f: File, tft: Tft, bufPixels: nat, v: Variant, off: nat, w: nat, h: nat)
    requires f.Valid() && 1 <= bufPixels && 3 * bufPixels <= 0xFF
    modifies f, tft`log
    ensures f.Valid()
    ensures tft.log == old(tft.log) + StreamCommands(f.data, bufPixels, v, old(f.position), off, w, h)
  {
    var rowSize := RowSize(w);
    var sdbuffer := new byte[3 * bufPixels](_ => 0);
    var tftbuffer := new Color[bufPixels];
    var rgbPtr: u8 := 3 * bufPixels;
    var tftPtr: u8 := 0;
    ghost var log0 := tft.log;
    assert sdbuffer[..] == Zeros(3 * bufPixels);
    ghost var st := Initial(f.position, bufPixels);
    ghost var rows := Rows(f.data, bufPixels, v, st, off, rowSize, w, RowsVisited(h, rowSize));
    var pos := off;
    var limit := off + h * rowSize;
    ghost var rem: nat := RowsVisited(h, rowSize);
    ghost var data := f.data;
    SpanIsProduct(h, rowSize);
    while pos < limit
      invariant f.Valid() && pos + Span(rem, rowSize) == limit && (rowSize == 0 ==> rem == 0)
      invariant sdbuffer.Length == 3 * bufPixels && tftbuffer.Length == bufPixels
      invariant Holds(f, sdbuffer, rgbPtr, tftbuffer, tftPtr, st) && tft.log == log0 + st.pushed
      invariant f.data == data && WfBlit(data, bufPixels, st)
      invariant Rows(data, bufPixels, v, st, pos, rowSize, w, rem) == rows
      decreases limit - pos
    {
      ghost var prev, start, n := st, pos, rem;
      rgbPtr, tftPtr, st := RowStep(f, tft, bufPixels, sdbuffer, tftbuffer, rgbPtr, tftPtr, log0, v, pos, w, st);
      pos := pos + rowSize;
      rem := rem - 1;
      RowsPeel(data, bufPixels, v, prev, start, rowSize, w, n, st, pos, rem, rows, limit);
    }
    assert rem == 0 && st == rows;
    if tftPtr > 0 {
      tft.PushBuffer(tftbuffer, tftPtr);
      AppendTwo(log0, st.pushed, [PushColors(st.out)]);
    }
  }

  // ---------------------------------------------------------------------------
  // drawBmp.

  /** The display calls of drawBmp when the display has the given size and
      rotation, `file` is the opened file (None when it cannot be opened),
      `rot0` is the value the variable `rotation` holds before it is assigned
      and `stream` is what the row loop pushes (see `BmpStream`). */
  function BmpCommands(width: int, height: int, rotation: int, file: Option<seq<byte>>, x: u8, y: u16,
                       rot0: u8, stream: seq<Command>): seq<Command>
  {
    if x >= width || y >= height || file.None? then []
    else
      match ParseHeader(file.value)
      case None => [SetRotation(rot0)]
      case Some(hd) => BlitCommands(height, rotation, hd, x, y, stream) + [SetRotation(rotation)]
  }

  /** The display calls of the accepted-header branch before the rotation is
      restored: flip the rotation, set the address window, stream the rows. */
  function BlitCommands(height: int, rotation: int, hd: Header, x: u8, y: u16, stream: seq<Command>): seq<Command>
  {
    var y1 := FlippedY(rotation, height, y, hd.height);
    [SetRotation(FlippedRotation(rotation)), SetAddrWindow(x, y1, x + hd.width - 1, y1 + hd.height - 1)] + stream
  }

  /** The pushColors calls of the row loop for an accepted header, which the
      loop starts reading right after the 34 header bytes. */
  ghost function BmpStream(file: Option<seq<byte>>, bufPixels: nat, v: Variant): seq<Command>
    requires bufPixels >= 1
    requires file.Some? ==> HeaderFits(file.value)
  {
    if file.None? then []
    else
      match ParseHeader(file.value)
      case None => []
      case Some(hd) =>
        StreamCommands(file.value, bufPixels, v, Min(HEADER_BYTES, |file.value|), hd.offset, hd.width, hd.height)
  }

  function AsOption(file: File?): Option<seq<byte>>
    reads file
  {
    if file == null then None else Some(file.data)
  }

  /** The header parse of drawBmp: the fields are read in file order, and the
      reads stop at the first check that fails. */
  method ReadHeader(file: File) returns (hd: Option<Header>)
    requires file.Valid() && file.position == 0
    modifies file
    ensures file.Valid() && hd == ParseHeader(file.data)
    ensures hd.Some? ==> file.position == Min(HEADER_BYTES, |file.data|)
  {
    hd := None;
    var signature := Read16(file, 0);
    if signature == SIGNATURE {
      var fileSize := Read32(file, 2);
      var creator := Read32(file, 6);
      var offset := Read32(file, 10);
      var infoSize := Read32(file, 14);
      var width := Read32(file, 18);
      var height := Read32(file, 22);
      var planes := Read16(file, 26);
      if planes == 1 {
        var depth := Read16(file, 28);
        if depth == 24 {
          var compression := Read32(file, 30);
          if compression == 0 {
            hd := Some(Header(offset, Int16(width), Int16(height)));
          }
        }
      }
    }
  }

  /** The accepted-header branch up to the final rotation restore. */
  method BlitImage(tft: Tft, file: File, x: u8, y: u16, hd: Header, bufPixels: nat, v: Variant)
    requires tft.Valid() && file.Valid() && 1 <= bufPixels && 3 * bufPixels <= 0xFF
    requires GeometryFits(hd) && file.position == Min(HEADER_BYTES, |file.data|)
    modifies tft, file
    ensures tft.Valid() && tft.rotation == FlippedRotation(old(tft.rotation))
    ensures tft.log == old(tft.log) + BlitCommands(tft.height, old(tft.rotation), hd, x, y,
      StreamCommands(file.data, bufPixels, v, old(file.position), hd.offset, hd.width, hd.height))
  {
    ghost var log0 := tft.log;
    var rotation := tft.rotation;
    tft.SetRotationTo((rotation + 4) % 8);
    SmallMod(FlippedRotation(rotation), 8);
    var y1 := y;
    if rotation < 4 {
      y1 := Wrap16(tft.height - y - hd.height);
    }
    assert y1 == FlippedY(rotation, tft.height, y, hd.height);
    var window := SetAddrWindow(x, y1, x + hd.width - 1, y1 + hd.height - 1);
    tft.Emit(window);
    StreamRows(file, tft, bufPixels, v, hd.offset, hd.width, hd.height);
    AppendThree(log0, [SetRotation(FlippedRotation(rotation))], [window],
      StreamCommands(file.data, bufPixels, v, old(file.position), hd.offset, hd.width, hd.height));
  }

  /** drawBmp(filename, x, y), with the file already looked up (`null` when it
      does not exist). `rot0` stands for the uninitialised `rotation` byte. */
  method DrawBmp(tft: Tft, file: File?, x: u8, y: u16, bufPixels: nat, rot0: u8, v: Variant)
    requires tft.Valid() && 1 <= bufPixels && 3 * bufPixels <= 0xFF
    requires file != null ==> file.Valid() && file.position == 0 && HeaderFits(file.data)
    modifies tft, file
    ensures tft.Valid()
    ensures tft.log == old(tft.log) +
      BmpCommands(tft.width, tft.height, old(tft.rotation), AsOption(file), x, y, rot0, BmpStream(AsOption(file), bufPixels, v))
    ensures tft.rotation == FinalRotation(
      BmpCommands(tft.width, tft.height, old(tft.rotation), AsOption(file), x, y, rot0, BmpStream(AsOption(file), bufPixels, v)), old(tft.rotation))
  {
    if x >= tft.width || y >= tft.height {
      return;
    }
    if file == null {
      return;
    }
    ghost var log0, r0 := tft.log, tft.rotation;
    var rotation := rot0;
    var hd := ReadHeader(file);
    if hd.Some? {
      rotation := tft.rotation;
      BlitImage(tft, file, x, y, hd.value, bufPixels, v);
    }
    assert tft.log == log0 + tft.log[|log0|..];
    tft.SetRotationTo(rotation);
    FinalRotationLast(tft.log[|log0|..|tft.log| - 1], r0, rotation);
  }

  /** When `rotation` holds the display's rotation from the start, drawBmp
      leaves the display in the rotation it found, on every path. */
  lemma RotationRestored(width: int, height: int, r: u8, file: Option<seq<byte>>, x: u8, y: u16,
                         stream: seq<Command>)
    requires r < 8
    ensures FinalRotation(BmpCommands(width, height, r, file, x, y, r, stream), r) == r
  {
    if x >= width || y >= height || file.None? {
      assert BmpCommands(width, height, r, file, x, y, r, stream) == [];
    } else {
      RestoredAfterHeader(width, height, r, file.value, x, y, stream);
    }
  }

  /** Once the header has been read, the last call restores rotation r. */
  lemma RestoredAfterHeader(width: int, height: int, r: u8, data: seq<byte>, x: u8, y: u16, stream: seq<Command>)
    requires r < 8 && x < width && y < height
    ensures FinalRotation(BmpCommands(width, height, r, Some(data), x, y, r, stream), r) == r
  {
    var pre, m := EndsWithRestore(width, height, r, data, x, y, r, stream);
    FinalRotationIs(BmpCommands(width, height, r, Some(data), x, y, r, stream), pre, r, m);
  }

  /** Past the early returns, drawBmp's last call sets the rotation: to
      `rot0` when the header is refused, to the saved one otherwise. */
  lemma EndsWithRestore(width: int, height: int, r: u8, data: seq<byte>, x: u8, y: u16, rot0: u8,
                        stream: seq<Command>) returns (pre: seq<Command>, m: u8)
    requires x < width && y < height
    ensures BmpCommands(width, height, r, Some(data), x, y, rot0, stream) == pre + [SetRotation(m)]
    ensures m == if ParseHeader(data).None? then rot0 else r
  {
    match ParseHeader(data)
    case None =>
      pre, m := [], rot0;
    case Some(hd) =>
      pre, m := BlitCommands(height, r, hd, x, y, stream), r;
  }

  /** As written, a file whose header is refused leaves the display in the
      rotation that the never-assigned local `rotation` happens to hold. */
  lemma StaleRotation(width: int, height: int, r: u8, data: seq<byte>, x: u8, y: u16, rot0: u8,
                      stream: seq<Command>)
    requires x < width && y < height && ParseHeader(data).None?
    ensures FinalRotation(BmpCommands(width, height, r, Some(data), x, y, rot0, stream), r) == rot0 % 8
  {
    assert BmpCommands(width, height, r, Some(data), x, y, rot0, stream) == [] + [SetRotation(rot0)];
    FinalRotationLast([], r, rot0);
  }

  /** A display in rotation 1, an empty file, and a stale 0 in `rotation`:
      drawBmp leaves the display in rotation 0. */
  lemma StaleRotationExample(stream: seq<Command>)
    ensures FinalRotation(BmpCommands(320, 240, 1, Some([]), 0, 0, 0, stream), 1) == 0
  {
    StaleRotation(320, 240, 1, [], 0, 0, 0, stream);
  }

  /** drawBmp with both findings repaired: `rotation` is read before the header
      is parsed, and the byte buffer is discarded at every row start. */
  method DrawBmpCorrected(tft: Tft, file: File?, x: u8, y: u16, bufPixels: nat)
    requires tft.Valid() && 1 <= bufPixels && 3 * bufPixels <= 0xFF
    requires file != null ==> file.Valid() && file.position == 0 && HeaderFits(file.data)
    modifies tft, file
    ensures tft.Valid()
    ensures tft.log == old(tft.log) +
      BmpCommands(tft.width, tft.height, old(tft.rotation), AsOption(file), x, y, old(tft.rotation),
        BmpStream(AsOption(file), bufPixels, Corrected))
    ensures tft.rotation == old(tft.rotation)
  {
    DrawBmp(tft, file, x, y, bufPixels, tft.rotation, Corrected);
    RotationRestored(tft.width, tft.height, old(tft.rotation), AsOption(file), x, y,
      BmpStream(AsOption(file), bufPixels, Corrected));
  }
}
