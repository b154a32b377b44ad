/** What the drawBmp row loop sends to the display: how many pixels, in calls
    of what size, and (for the corrected loop) which pixels. */
module BmpProperties {
  import opened Ints
  import opened Display
  import opened Storage
  import opened Bmp

  /** The pixels a command sequence sends with pushColors, in order. */
  function Pushed(cmds: seq<Command>): (px: seq<Color>)
  {
    if cmds == [] then []
    else Pushed(cmds[..|cmds| - 1]) + (if cmds[|cmds| - 1].PushColors? then cmds[|cmds| - 1].pixels else [])
  }

  lemma PushedAppend(cmds: seq<Command>, c: Command)
    ensures Pushed(cmds + [c]) == Pushed(cmds) + (if c.PushColors? then c.pixels else [])
  {
    assert (cmds + [c])[..|cmds + [c]| - 1] == cmds;
  }

  /** Every call is a pushColors of between 1 and bufPixels pixels. */
  ghost predicate PushesBounded(cmds: seq<Command>, bufPixels: nat)
  {
    forall i :: 0 <= i < |cmds| ==> cmds[i].PushColors? && 1 <= |cmds[i].pixels| <= bufPixels
  }

  /** The pixels pushed so far followed by the pending ones. */
  ghost function AllPixels(s: Blit): seq<Color>
  {
    Pushed(s.pushed) + s.out
  }

  /** A refill moves the pending pixels to the display and keeps their order. */
  lemma RefillKeepsPixels(data: seq<byte>, bufPixels: nat, s: Blit)
    requires 1 <= bufPixels && WfBlit(data, bufPixels, s)
    ensures AllPixels(Refill(data, s)) == AllPixels(s)
    ensures PushesBounded(s.pushed, bufPixels) ==> PushesBounded(Refill(data, s).pushed, bufPixels)
  {
    if |s.out| > 0 {
      PushedAppend(s.pushed, PushColors(s.out));
    }
  }

  /** One column adds exactly one pixel, `x`, after the ones already produced. */
  lemma ColumnAddsPixel(data: seq<byte>, bufPixels: nat, s: Blit) returns (x: Color)
    requires 1 <= bufPixels && WfBlit(data, bufPixels, s)
    ensures AllPixels(Column(data, bufPixels, s)) == AllPixels(s) + [x]
    ensures PushesBounded(s.pushed, bufPixels) ==> PushesBounded(Column(data, bufPixels, s).pushed, bufPixels)
  {
    var t := Column(data, bufPixels, s);
    if s.rgb >= 3 * bufPixels {
      RefillKeepsPixels(data, bufPixels, s);
    }
    x := t.out[|t.out| - 1];
  }

  lemma {:induction false} ColumnsAddPixels(data: seq<byte>, bufPixels: nat, s: Blit, n: nat)
    requires 1 <= bufPixels && WfBlit(data, bufPixels, s)
    ensures |AllPixels(Columns(data, bufPixels, s, n))| == |AllPixels(s)| + n
    ensures AllPixels(Columns(data, bufPixels, s, n))[..|AllPixels(s)|] == AllPixels(s)
    ensures PushesBounded(s.pushed, bufPixels) ==> PushesBounded(Columns(data, bufPixels, s, n).pushed, bufPixels)
  {
    if n > 0 {
      var m: nat := n - 1;
      var t := Columns(data, bufPixels, s, m);
      ColumnsAddPixels(data, bufPixels, s, m);
      var x := ColumnAddsPixel(data, bufPixels, t);
      assert Columns(data, bufPixels, s, n) == Column(data, bufPixels, t);
      PrefixGrows(AllPixels(s), AllPixels(t), x, AllPixels(Columns(data, bufPixels, s, n)));
    }
  }

  /** Appending to a sequence keeps every prefix it had. */
  lemma PrefixGrows(a: seq<Color>, b: seq<Color>, x: Color, c: seq<Color>)
    requires |a| <= |b| && b[..|a|] == a && c == b + [x]
    ensures |c| == |b| + 1 && c[..|a|] == a
  {
    assert c[..|a|] == b[..|a|];
  }

  lemma {:induction false} RowsAddPixels(data: seq<byte>, bufPixels: nat, v: Variant, s: Blit,
                                         start: nat, rowSize: nat, w: nat, n: nat)
    requires 1 <= bufPixels && WfBlit(data, bufPixels, s)
    ensures |AllPixels(Rows(data, bufPixels, v, s, start, rowSize, w, n))| == |AllPixels(s)| + Span(n, w)
    ensures PushesBounded(s.pushed, bufPixels) ==>
      PushesBounded(Rows(data, bufPixels, v, s, start, rowSize, w, n).pushed, bufPixels)
    decreases n
  {
    if n > 0 {
      var r := RowAddsPixels(data, bufPixels, v, s, start, rowSize, w, n);
      RowsAddPixels(data, bufPixels, v, r, start + rowSize, rowSize, w, n - 1);
    }
  }

  /** One row adds w pixels. */
  lemma RowAddsPixels(data: seq<byte>, bufPixels: nat, v: Variant, s: Blit, start: nat, rowSize: nat, w: nat, n: nat)
    returns (r: Blit)
    requires 1 <= bufPixels && WfBlit(data, bufPixels, s) && n > 0
    ensures WfBlit(data, bufPixels, r)
    ensures |AllPixels(r)| == |AllPixels(s)| + w
    ensures PushesBounded(s.pushed, bufPixels) ==> PushesBounded(r.pushed, bufPixels)
    ensures Rows(data, bufPixels, v, s, start, rowSize, w, n) == Rows(data, bufPixels, v, r, start + rowSize, rowSize, w, n - 1)
  {
    ColumnsAddPixels(data, bufPixels, SeekRow(data, bufPixels, v, s, start), w);
    r := Row(data, bufPixels, v, s, start, w);
  }

  /** The final flush sends the pending pixels. */
  lemma FinishSendsAll(bufPixels: nat, data: seq<byte>, s: Blit)
    requires 1 <= bufPixels && WfBlit(data, bufPixels, s)
    ensures Pushed(Finish(s)) == AllPixels(s)
    ensures PushesBounded(s.pushed, bufPixels) ==> PushesBounded(Finish(s), bufPixels)
  {
    if |s.out| > 0 {
      PushedAppend(s.pushed, PushColors(s.out));
    }
  }

  /** The row loop pushes exactly w * h pixels, as pushColors calls of 1 to
      bufPixels pixels each: the pixel buffer is flushed before every refill. */
  lemma StreamPixelCount(data: seq<byte>, bufPixels: nat, v: Variant, fpos: nat, off: nat, w: nat, h: nat)
    requires 1 <= bufPixels && fpos <= |data|
    ensures |Pushed(StreamCommands(data, bufPixels, v, fpos, off, w, h))| == w * h
    ensures PushesBounded(StreamCommands(data, bufPixels, v, fpos, off, w, h), bufPixels)
  {
    var s0 := Initial(fpos, bufPixels);
    var n := RowsVisited(h, RowSize(w));
    RowsAddPixels(data, bufPixels, v, s0, off, RowSize(w), w, n);
    var s := Rows(data, bufPixels, v, s0, off, RowSize(w), w, n);
    FinishSendsAll(bufPixels, data, s);
    SpanIsProduct(n, w);
    VisitedTimesWidth(h, w);
  }

  lemma VisitedTimesWidth(h: nat, w: nat)
    ensures RowsVisited(h, RowSize(w)) * w == w * h
  {
    if w > 0 {
      assert RowsVisited(h, RowSize(w)) == h;
    }
  }

  // ---------------------------------------------------------------------------
  // The image a well-formed file holds.

  /** The pixel stored in the three bytes at offset p (blue, green, red). */
  function Pixel(data: seq<byte>, p: nat): Color
    requires p + 2 < |data|
  {
    Rgb565(data[p], data[p + 1], data[p + 2])
  }

  /** The first n pixels of the row whose bytes start at offset q. */
  function RowPixels(data: seq<byte>, q: nat, n: nat): (px: seq<Color>)
    requires q + 3 * n <= |data|
    ensures |px| == n
  {
    if n == 0 then [] else RowPixels(data, q, n - 1) + [Pixel(data, q + 3 * (n - 1))]
  }

  /** The h rows of w pixels stored from offset q on, rowSize bytes apart, in
      file order (bottom row first). */
  function Image(data: seq<byte>, q: nat, rowSize: nat, w: nat, h: nat): (px: seq<Color>)
    requires 3 * w <= rowSize && q + h * rowSize <= |data|
    ensures |px| == w * h
  {
    SpanIsProduct(h, rowSize);
    SpanIsProduct(h, w);
    ImageRows(data, q, rowSize, w, h)
  }

  /** Image, with the extent of the rows written as a repeated sum. */
  function ImageRows(data: seq<byte>, q: nat, rowSize: nat, w: nat, h: nat): (px: seq<Color>)
    requires 3 * w <= rowSize && q + Span(h, rowSize) <= |data|
    ensures |px| == Span(h, w)
    decreases h
  {
    if h == 0 then []
    else RowPixels(data, q, w) + ImageRows(data, q + rowSize, rowSize, w, h - 1)
  }

  /** The buffer state when the next pixel to convert is the one at file
      offset p: `sdbuffer[i]` came from offset p - rgb_ptr + i and the file
      position is just past the buffer's last byte. */
  ghost predicate Aligned(data: seq<byte>, bufPixels: nat, s: Blit, p: nat)
  {
    WfBlit(data, bufPixels, s) &&
    s.fpos == Min(p - s.rgb + 3 * bufPixels, |data|) &&
    forall t :: s.rgb <= t < 3 * bufPixels && p - s.rgb + t < |data| ==> s.sd[t] == data[p - s.rgb + t]
  }

  /** A refill at offset p loads the bytes from p on. */
  lemma RefillAligned(data: seq<byte>, bufPixels: nat, s: Blit, p: nat)
    requires 1 <= bufPixels && Aligned(data, bufPixels, s, p) && s.rgb >= 3 * bufPixels && p <= |data|
    ensures Aligned(data, bufPixels, Refill(data, s), p) && Refill(data, s).rgb == 0
  {
    assert s.fpos == p;
  }

  /** Converting at offset p yields the pixel stored at p. */
  lemma ConvertAligned(data: seq<byte>, bufPixels: nat, u: Blit, p: nat)
    requires 1 <= bufPixels && Aligned(data, bufPixels, u, p) && u.rgb < 3 * bufPixels && p + 3 <= |data|
    ensures Aligned(data, bufPixels, Convert(u), p + 3)
    ensures Convert(u).out == u.out + [Pixel(data, p)]
  {
    assert u.rgb + 2 < 3 * bufPixels;
    assert u.sd[u.rgb] == data[p] && u.sd[u.rgb + 1] == data[p + 1] && u.sd[u.rgb + 2] == data[p + 2];
  }

  lemma ColumnAligned(data: seq<byte>, bufPixels: nat, s: Blit, p: nat, next: nat)
    requires 1 <= bufPixels && Aligned(data, bufPixels, s, p) && next == p + 3 && next <= |data|
    ensures Aligned(data, bufPixels, Column(data, bufPixels, s), next)
    ensures AllPixels(Column(data, bufPixels, s)) == AllPixels(s) + [Pixel(data, p)]
  {
    var u := s;
    if s.rgb >= 3 * bufPixels {
      RefillKeepsPixels(data, bufPixels, s);
      RefillAligned(data, bufPixels, s, p);
      u := Refill(data, s);
    }
    ConvertAligned(data, bufPixels, u, p);
    assert Column(data, bufPixels, s) == Convert(u);
  }

  lemma {:induction false} ColumnsAligned(data: seq<byte>, bufPixels: nat, s: Blit, p: nat, n: nat)
    requires 1 <= bufPixels && Aligned(data, bufPixels, s, p) && p + 3 * n <= |data|
    ensures Aligned(data, bufPixels, Columns(data, bufPixels, s, n), p + 3 * n)
    ensures AllPixels(Columns(data, bufPixels, s, n)) == AllPixels(s) + RowPixels(data, p, n)
  {
    if n > 0 {
      var m: nat := n - 1;
      var q: nat := p + 3 * m;
      ColumnsAligned(data, bufPixels, s, p, m);
      ColumnsAlignedStep(data, bufPixels, s, p, n, m, q, Columns(data, bufPixels, s, m), Columns(data, bufPixels, s, n));
    }
  }

  lemma ColumnsAlignedStep(data: seq<byte>, bufPixels: nat, s: Blit, p: nat, n: nat, m: nat, q: nat, t: Blit, c: Blit)
    requires 1 <= bufPixels && n > 0 && m == n - 1 && q == p + 3 * m && p + 3 * n <= |data|
    requires Aligned(data, bufPixels, t, q) && c == Column(data, bufPixels, t)
    requires AllPixels(t) == AllPixels(s) + RowPixels(data, p, m)
    ensures Aligned(data, bufPixels, c, p + 3 * n)
    ensures AllPixels(c) == AllPixels(s) + RowPixels(data, p, n)
  {
    ColumnAligned(data, bufPixels, t, q, p + 3 * n);
    RowPixelsPeel(data, p, n, m, q);
    AppendAssoc(AllPixels(s), RowPixels(data, p, m), [Pixel(data, q)]);
  }

  lemma RowPixelsPeel(data: seq<byte>, p: nat, n: nat, m: nat, q: nat)
    requires n > 0 && m == n - 1 && q == p + 3 * m && p + 3 * n <= |data|
    ensures RowPixels(data, p, n) == RowPixels(data, p, m) + [Pixel(data, q)]
  {
  }

  /** With the buffer discarded at every row start, each row's pixels come
      from that row's bytes. */
  lemma {:induction false} CorrectedRows(data: seq<byte>, bufPixels: nat, s: Blit, q: nat, rowSize: nat, w: nat, n: nat)
    requires 1 <= bufPixels && WfBlit(data, bufPixels, s)
    requires 3 * w <= rowSize && q + Span(n, rowSize) <= |data|
    ensures AllPixels(Rows(data, bufPixels, Corrected, s, q, rowSize, w, n))
         == AllPixels(s) + ImageRows(data, q, rowSize, w, n)
    decreases n
  {
    if n > 0 {
      SpanPeel(n, rowSize);
      var next: nat, m: nat := q + rowSize, n - 1;
      var r := CorrectedRow(data, bufPixels, s, q, rowSize, w, n, next, m);
      CorrectedRows(data, bufPixels, r, next, rowSize, w, m);
      ImagePeel(data, q, rowSize, w, n, next, m);
      PixelsChain(Rows(data, bufPixels, Corrected, s, q, rowSize, w, n), Rows(data, bufPixels, Corrected, r, next, rowSize, w, m),
        r, s, RowPixels(data, q, w), ImageRows(data, next, rowSize, w, m), ImageRows(data, q, rowSize, w, n));
    } else {
      assert AllPixels(s) + [] == AllPixels(s);
    }
  }

  /** One corrected row: the seek realigns the buffer with the row start, so
      the row's pixels are the ones stored from q on. */
  lemma CorrectedRow(data: seq<byte>, bufPixels: nat, s: Blit, q: nat, rowSize: nat, w: nat, n: nat,
                     next: nat, m: nat) returns (r: Blit)
    requires 1 <= bufPixels && WfBlit(data, bufPixels, s) && q + 3 * w <= |data| && n > 0
    requires next == q + rowSize && m == n - 1
    ensures WfBlit(data, bufPixels, r)
    ensures AllPixels(r) == AllPixels(s) + RowPixels(data, q, w)
    ensures Rows(data, bufPixels, Corrected, s, q, rowSize, w, n) == Rows(data, bufPixels, Corrected, r, next, rowSize, w, m)
  {
    var started := SeekRow(data, bufPixels, Corrected, s, q);
    assert Aligned(data, bufPixels, started, q);
    ColumnsAligned(data, bufPixels, started, q, w);
    r := Row(data, bufPixels, Corrected, s, q, w);
  }

  lemma ImagePeel(data: seq<byte>, q: nat, rowSize: nat, w: nat, n: nat, next: nat, m: nat)
    requires 3 * w <= rowSize && q + Span(n, rowSize) <= |data| && n > 0
    requires next == q + rowSize && m == n - 1 && next + Span(m, rowSize) <= |data|
    ensures ImageRows(data, q, rowSize, w, n) == RowPixels(data, q, w) + ImageRows(data, next, rowSize, w, m)
  {
  }

  /** The equational step of CorrectedRows. */
  lemma PixelsChain(all: Blit, rest: Blit, r: Blit, s: Blit, row: seq<Color>, tail: seq<Color>, image: seq<Color>)
    requires all == rest && AllPixels(rest) == AllPixels(r) + tail
    requires AllPixels(r) == AllPixels(s) + row && image == row + tail
    ensures AllPixels(all) == AllPixels(s) + image
  {
    AppendAssoc(AllPixels(s), row, tail);
  }

  /** Proof helper: regrouping a concatenation of three sequences. */
  lemma AppendAssoc<T>(a: seq<T>, b: seq<T>, c: seq<T>)
    ensures (a + b) + c == a + (b + c)
  {
  }

  /** The corrected row loop sends the image row by row, each pixel converted
      from its own three bytes, whenever the file holds all h rows. */
  lemma CorrectedStreamIsImage(data: seq<byte>, bufPixels: nat, fpos: nat, off: nat, w: nat, h: nat)
    requires 1 <= bufPixels && fpos <= |data|
    requires off + h * RowSize(w) <= |data|
    ensures Pushed(StreamCommands(data, bufPixels, Corrected, fpos, off, w, h)) == Image(data, off, RowSize(w), w, h)
  {
    var s0 := Initial(fpos, bufPixels);
    var n := RowsVisited(h, RowSize(w));
    SpanIsProduct(h, RowSize(w));
    if w == 0 {
      FinishSendsAll(bufPixels, data, s0);
    } else {
      CorrectedRows(data, bufPixels, s0, off, RowSize(w), w, h);
      FinishSendsAll(bufPixels, data, Rows(data, bufPixels, Corrected, s0, off, RowSize(w), w, n));
    }
  }

  /** Without row padding the as-written loop also sends the stored image: a
      row ends exactly at the next row start with the buffer still aligned, so
      the skipped seek loses nothing. */
  lemma AsWrittenUnpaddedIsImage(data: seq<byte>, bufPixels: nat, fpos: nat, off: nat, w: nat, h: nat)
    requires 1 <= bufPixels && fpos <= |data| && RowSize(w) == 3 * w
    requires off + h * RowSize(w) <= |data|
    ensures Pushed(StreamCommands(data, bufPixels, AsWritten, fpos, off, w, h)) == Image(data, off, RowSize(w), w, h)
  {
    var s0 := Initial(fpos, bufPixels);
    var n := RowsVisited(h, RowSize(w));
    SpanIsProduct(h, RowSize(w));
    if w == 0 {
      FinishSendsAll(bufPixels, data, s0);
    } else {
      assert s0.fpos != off || Aligned(data, bufPixels, s0, off);
      AsWrittenRows(data, bufPixels, s0, off, RowSize(w), w, h);
      FinishSendsAll(bufPixels, data, Rows(data, bufPixels, AsWritten, s0, off, RowSize(w), w, n));
    }
  }

  /** Unpadded rows as written: a row starts either with a seek or with the
      buffer already aligned at the row start. */
  lemma {:induction false} AsWrittenRows(data: seq<byte>, bufPixels: nat, s: Blit, q: nat, rowSize: nat, w: nat, n: nat)
    requires 1 <= bufPixels && WfBlit(data, bufPixels, s)
    requires rowSize == 3 * w && q + Span(n, rowSize) <= |data|
    requires s.fpos != q || Aligned(data, bufPixels, s, q)
    ensures AllPixels(Rows(data, bufPixels, AsWritten, s, q, rowSize, w, n))
         == AllPixels(s) + ImageRows(data, q, rowSize, w, n)
    decreases n
  {
    if n > 0 {
      SpanPeel(n, rowSize);
      var next: nat, m: nat := q + rowSize, n - 1;
      var r := AsWrittenRow(data, bufPixels, s, q, rowSize, w, n, next, m);
      AsWrittenRows(data, bufPixels, r, next, rowSize, w, m);
      ImagePeel(data, q, rowSize, w, n, next, m);
      PixelsChain(Rows(data, bufPixels, AsWritten, s, q, rowSize, w, n), Rows(data, bufPixels, AsWritten, r, next, rowSize, w, m),
        r, s, RowPixels(data, q, w), ImageRows(data, next, rowSize, w, m), ImageRows(data, q, rowSize, w, n));
    } else {
      assert AllPixels(s) + [] == AllPixels(s);
    }
  }

  /** One unpadded row as written ends aligned at the next row start. */
  lemma AsWrittenRow(data: seq<byte>, bufPixels: nat, s: Blit, q: nat, rowSize: nat, w: nat, n: nat,
                     next: nat, m: nat) returns (r: Blit)
    requires 1 <= bufPixels && WfBlit(data, bufPixels, s) && q + 3 * w <= |data| && n > 0
    requires rowSize == 3 * w && next == q + rowSize && m == n - 1
    requires s.fpos != q || Aligned(data, bufPixels, s, q)
    ensures WfBlit(data, bufPixels, r) && Aligned(data, bufPixels, r, next)
    ensures AllPixels(r) == AllPixels(s) + RowPixels(data, q, w)
    ensures Rows(data, bufPixels, AsWritten, s, q, rowSize, w, n) == Rows(data, bufPixels, AsWritten, r, next, rowSize, w, m)
  {
    r := Row(data, bufPixels, AsWritten, s, q, w);
    var started := SeekRow(data, bufPixels, AsWritten, s, q);
    SeekAligned(data, bufPixels, s, q, started);
    ColumnsAligned(data, bufPixels, started, q, w);
    assert r == Columns(data, bufPixels, started, w);
    RowsPeel(data, bufPixels, AsWritten, s, q, rowSize, w, n, r, next, m,
      Rows(data, bufPixels, AsWritten, s, q, rowSize, w, n), q + Span(n, rowSize));
  }

  /** The seek as written leaves the buffer aligned at the row start: either
      it seeks, or the buffer was aligned there already. */
  lemma SeekAligned(data: seq<byte>, bufPixels: nat, s: Blit, q: nat, started: Blit)
    requires WfBlit(data, bufPixels, s) && q <= |data| && started == SeekRow(data, bufPixels, AsWritten, s, q)
    requires s.fpos != q || Aligned(data, bufPixels, s, q)
    ensures Aligned(data, bufPixels, started, q) && AllPixels(started) == AllPixels(s)
  {
  }

  // ---------------------------------------------------------------------------
  // The row seek as written.

  /** Where one column leaves the byte cursor and the file position. */
  lemma ColumnCursor(data: seq<byte>, bufPixels: nat, s: Blit)
    requires 1 <= bufPixels && WfBlit(data, bufPixels, s)
    ensures Column(data, bufPixels, s).rgb == if s.rgb >= 3 * bufPixels then 3 else s.rgb + 3
    ensures Column(data, bufPixels, s).fpos
         == if s.rgb >= 3 * bufPixels then s.fpos + Min(3 * bufPixels, |data| - s.fpos) else s.fpos
  {
  }

  /** Row 0 of a 3-pixel-wide image read through a 4-pixel buffer: it ends
      with rgb_ptr at 9 and the file position at the start of row 1, with
      the buffer still holding the three padding bytes of row 0. */
  lemma NarrowFirstRow(data: seq<byte>, v: Variant, fpos: nat, off: nat) returns (r0: Blit)
    requires fpos <= |data| && off + 24 <= |data|
    ensures r0 == Row(data, 4, v, Initial(fpos, 4), off, 3)
    ensures Aligned(data, 4, r0, off + 9) && r0.rgb == 9 && r0.fpos == off + 12
    ensures AllPixels(r0) == RowPixels(data, off, 3)
  {
    var a := SeekRow(data, 4, v, Initial(fpos, 4), off);
    assert a.fpos == off && a.rgb == 12 && AllPixels(a) == [];
    assert Aligned(data, 4, a, off);
    ColumnsAligned(data, 4, a, off, 3);
    NarrowCursor(data, a, off);
    r0 := Row(data, 4, v, Initial(fpos, 4), off, 3);
  }

  lemma NarrowCursor(data: seq<byte>, a: Blit, off: nat)
    requires WfBlit(data, 4, a) && a.fpos == off && a.rgb == 12 && off + 24 <= |data|
    ensures Columns(data, 4, a, 3).rgb == 9 && Columns(data, 4, a, 3).fpos == off + 12
  {
    var c1 := Column(data, 4, a);
    ColumnCursor(data, 4, a);
    var c2 := Column(data, 4, c1);
    ColumnCursor(data, 4, c1);
    ColumnCursor(data, 4, c2);
    assert Columns(data, 4, a, 3) == Column(data, 4, c2) by {
      assert Columns(data, 4, a, 1) == c1;
      assert Columns(data, 4, a, 2) == c2;
    }
  }

  /** As written, row 1 of that image does not seek: its pixels start at the
      padding bytes of row 0. */
  lemma NarrowRowsAsWritten(data: seq<byte>, fpos: nat, off: nat)
    requires fpos <= |data| && off + 24 <= |data|
    ensures AllPixels(Rows(data, 4, AsWritten, Initial(fpos, 4), off, 12, 3, 2))
         == RowPixels(data, off, 3) + RowPixels(data, off + 9, 3)
  {
    var s0 := Initial(fpos, 4);
    var r0 := NarrowFirstRow(data, AsWritten, fpos, off);
    assert SeekRow(data, 4, AsWritten, r0, off + 12) == r0;
    ColumnsAligned(data, 4, r0, off + 9, 3);
    var r1 := Row(data, 4, AsWritten, r0, off + 12, 3);
    assert Rows(data, 4, AsWritten, s0, off, 12, 3, 2) == Rows(data, 4, AsWritten, r0, off + 12, 12, 3, 1);
    assert Rows(data, 4, AsWritten, r0, off + 12, 12, 3, 1) == Rows(data, 4, AsWritten, r1, off + 24, 12, 3, 0);
  }

  /** A 3-pixel-wide image of two rows with a 4-pixel buffer: as written, the
      second row is sent starting from the three padding bytes of the first
      and loses its last pixel; corrected, it is sent from its own bytes. */
  lemma PaddingBecomesPixel(data: seq<byte>, fpos: nat, off: nat)
    requires fpos <= |data| && off + 24 <= |data|
    ensures Pushed(StreamCommands(data, 4, AsWritten, fpos, off, 3, 2))
         == RowPixels(data, off, 3) + RowPixels(data, off + 9, 3)
    ensures Pushed(StreamCommands(data, 4, Corrected, fpos, off, 3, 2))
         == RowPixels(data, off, 3) + RowPixels(data, off + 12, 3)
  {
    NarrowStreamAsWritten(data, fpos, off);
    NarrowStreamCorrected(data, fpos, off);
  }

  lemma NarrowStreamAsWritten(data: seq<byte>, fpos: nat, off: nat)
    requires fpos <= |data| && off + 24 <= |data|
    ensures Pushed(StreamCommands(data, 4, AsWritten, fpos, off, 3, 2))
         == RowPixels(data, off, 3) + RowPixels(data, off + 9, 3)
  {
    RowSizeIsPaddedStride(3);
    NarrowRowsAsWritten(data, fpos, off);
    FinishSendsAll(4, data, Rows(data, 4, AsWritten, Initial(fpos, 4), off, 12, 3, 2));
  }

  lemma NarrowStreamCorrected(data: seq<byte>, fpos: nat, off: nat)
    requires fpos <= |data| && off + 24 <= |data|
    ensures Pushed(StreamCommands(data, 4, Corrected, fpos, off, 3, 2))
         == RowPixels(data, off, 3) + RowPixels(data, off + 12, 3)
  {
    RowSizeIsPaddedStride(3);
    CorrectedStreamIsImage(data, 4, fpos, off, 3, 2);
    SpanIsProduct(2, 12);
    assert ImageRows(data, off + 12, 12, 3, 1) == RowPixels(data, off + 12, 3) + [];
    assert Image(data, off, 12, 3, 2) == RowPixels(data, off, 3) + ImageRows(data, off + 12, 12, 3, 1);
  }

  /** Bytes whose row-0 padding is black and whose row 1 starts with a blue
      pixel: as written, black is shown where blue belongs. */
  lemma PaddingBecomesPixelExample(data: seq<byte>, fpos: nat, off: nat)
    requires fpos <= |data| && off + 24 <= |data|
    requires data[off + 9] == 0 && data[off + 10] == 0 && data[off + 11] == 0
    requires data[off + 12] == 0xFF && data[off + 13] == 0 && data[off + 14] == 0
    ensures Pushed(StreamCommands(data, 4, AsWritten, fpos, off, 3, 2))
         != Pushed(StreamCommands(data, 4, Corrected, fpos, off, 3, 2))
  {
    PaddingBecomesPixel(data, fpos, off);
    BlackAndBlue(data, off);
  }

  lemma BlackAndBlue(data: seq<byte>, off: nat)
    requires off + 24 <= |data|
    requires data[off + 9] == 0 && data[off + 10] == 0 && data[off + 11] == 0
    requires data[off + 12] == 0xFF && data[off + 13] == 0 && data[off + 14] == 0
    ensures (RowPixels(data, off, 3) + RowPixels(data, off + 9, 3))[3] == BLACK
    ensures (RowPixels(data, off, 3) + RowPixels(data, off + 12, 3))[3] == 0x001F
  {
    RowJoin(data, off, off + 9, 3);
    RowJoin(data, off, off + 12, 3);
    BlackPixel(data, off + 9);
    BluePixel(data, off + 12);
  }

  /** Pixel n of two n-pixel rows placed one after the other is the first
      pixel of the second row. */
  lemma RowJoin(data: seq<byte>, off: nat, q: nat, n: nat)
    requires 1 <= n && off + 3 * n <= |data| && q + 3 * n <= |data|
    ensures (RowPixels(data, off, n) + RowPixels(data, q, n))[n] == Pixel(data, q)
  {
    RowPixelsFirst(data, q, n);
  }

  lemma BlackPixel(data: seq<byte>, p: nat)
    requires p + 2 < |data| && data[p] == 0 && data[p + 1] == 0 && data[p + 2] == 0
    ensures Pixel(data, p) == BLACK
  {
  }

  lemma BluePixel(data: seq<byte>, p: nat)
    requires p + 2 < |data| && data[p] == 0xFF && data[p + 1] == 0 && data[p + 2] == 0
    ensures Pixel(data, p) == 0x001F
  {
    assert Pixel(data, p) == Rgb565(0xFF, 0, 0);
  }

  lemma {:induction false} RowPixelsFirst(data: seq<byte>, q: nat, n: nat)
    requires 1 <= n && q + 3 * n <= |data|
    ensures RowPixels(data, q, n)[0] == Pixel(data, q)
  {
    if n > 1 {
      RowPixelsFirst(data, q, n - 1);
    }
  }

  /** The pixels of two logs one after the other. */
  lemma {:induction false} PushedConcat(a: seq<Command>, b: seq<Command>)
    ensures Pushed(a + b) == Pushed(a) + Pushed(b)
    decreases |b|
  {
    if b == [] {
      assert a + b == a;
    } else {
      var c := b[|b| - 1];
      var front := b[..|b| - 1];
      assert b == front + [c];
      assert a + b == (a + front) + [c];
      PushedConcat(a, front);
      PushedAppend(a + front, c);
      PushedAppend(front, c);
    }
  }

  /** drawBmp draws only for an accepted header: an origin off the screen or
      a missing file leaves the display untouched, and a refused header
      sets no address window and pushes no pixel. */
  lemma OnlyAcceptedHeaderDraws(width: int, height: int, rotation: int, file: Option<seq<byte>>, x: u8, y: u16,
                                rot0: u8, stream: seq<Command>)
    ensures BmpCommands(width, height, rotation, file, x, y, rot0, stream) == [] <==> x >= width || y >= height || file.None?
    ensures file.Some? && ParseHeader(file.value).None? ==>
      var cmds := BmpCommands(width, height, rotation, file, x, y, rot0, stream);
      Pushed(cmds) == [] && forall i :: 0 <= i < |cmds| ==> !cmds[i].SetAddrWindow?
  {
    if x < width && y < height && file.Some? && ParseHeader(file.value).None? {
      assert BmpCommands(width, height, rotation, file, x, y, rot0, stream) == [] + [SetRotation(rot0)];
      PushedAppend([], SetRotation(rot0));
    }
  }

  /** With an accepted header and the origin on the screen, drawBmp first
      switches to the mirrored rotation, then sets the address window to the
      w x h image at x and the flipped y, sends exactly the row loop's
      pixels, and restores the saved rotation last. */
  lemma AcceptedHeaderBlits(width: int, height: int, rotation: int, data: seq<byte>, x: u8, y: u16,
                            rot0: u8, stream: seq<Command>)
    requires x < width && y < height && ParseHeader(data).Some?
    ensures var cmds := BmpCommands(width, height, rotation, Some(data), x, y, rot0, stream);
      var hd := ParseHeader(data).value;
      var y1 := FlippedY(rotation, height, y, hd.height);
      |cmds| == |stream| + 3
      && cmds[0] == SetRotation((rotation + 4) % 8)
      && cmds[1] == SetAddrWindow(x, y1, x + hd.width - 1, y1 + hd.height - 1)
      && cmds[2..|cmds| - 1] == stream
      && cmds[|cmds| - 1] == SetRotation(rotation)
    ensures Pushed(BmpCommands(width, height, rotation, Some(data), x, y, rot0, stream)) == Pushed(stream)
  {
    var hd := ParseHeader(data).value;
    var cmds := BmpCommands(width, height, rotation, Some(data), x, y, rot0, stream);
    assert cmds == BlitCommands(height, rotation, hd, x, y, stream) + [SetRotation(rotation)];
    BlitShape(height, rotation, hd, x, y, stream, cmds);
  }

  /** The accepted-header calls, laid out. */
  lemma BlitShape(height: int, rotation: int, hd: Header, x: u8, y: u16, stream: seq<Command>, cmds: seq<Command>)
    requires cmds == BlitCommands(height, rotation, hd, x, y, stream) + [SetRotation(rotation)]
    ensures var y1 := FlippedY(rotation, height, y, hd.height);
      |cmds| == |stream| + 3
      && cmds[0] == SetRotation((rotation + 4) % 8)
      && cmds[1] == SetAddrWindow(x, y1, x + hd.width - 1, y1 + hd.height - 1)
      && cmds[2..|cmds| - 1] == stream
      && cmds[|cmds| - 1] == SetRotation(rotation)
    ensures Pushed(cmds) == Pushed(stream)
  {
    var y1 := FlippedY(rotation, height, y, hd.height);
    FramedPixels(SetRotation(FlippedRotation(rotation)), SetAddrWindow(x, y1, x + hd.width - 1, y1 + hd.height - 1),
      stream, SetRotation(rotation), cmds);
  }

  /** A log made of two calls that push nothing, the stream, and one more
      such call pushes the stream's pixels. */
  lemma FramedPixels(a: Command, b: Command, stream: seq<Command>, last: Command, cmds: seq<Command>)
    requires !a.PushColors? && !b.PushColors? && !last.PushColors?
    requires cmds == [a, b] + stream + [last]
    ensures |cmds| == |stream| + 3 && cmds[0] == a && cmds[1] == b
    ensures cmds[2..|cmds| - 1] == stream && cmds[|cmds| - 1] == last
    ensures Pushed(cmds) == Pushed(stream)
  {
    var head := [a, b];
    assert cmds[..|cmds| - 1] == head + stream;
    assert (head + stream)[2..] == stream;
    PushedAppend(head + stream, last);
    PushedConcat(head, stream);
    assert head == [a] + [b] && [a] == [] + [a];
    PushedAppend([a], b);
    PushedAppend([], a);
  }
}
