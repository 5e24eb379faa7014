/**
 The framebuffer and the bulk transfers: `drawPixel` writes two bytes into the
 buffer, `writeFramebuffer` / `writeScreen16` flush a byte block in one transfer,
 and `writeScreen24` streams converted 24-bit colours.
 */
module FrameStore {
  import opened Settings
  import opened Bus
  import opened Color
  import opened State
  import opened Window

  /** Offset of the high byte of pixel `(x, y)`: rows are always 128 pixels
      apart, whatever the rotation. */
  function PixelIndex(x: int, y: int): int
  {
    ((STRIDE * y) + x) * 2
  }

  /** A point of the 128 x 128 grid the buffer is laid out for. */
  predicate InGrid(x: int, y: int)
  {
    0 <= x < 128 && 0 <= y < 128
  }

  /** Both bytes of every grid pixel lie inside the buffer, and distinct
      pixels own distinct byte pairs. */
  lemma PixelIndexInjective(x: int, y: int, x': int, y': int)
    requires InGrid(x, y) && InGrid(x', y')
    ensures 0 <= PixelIndex(x, y) && PixelIndex(x, y) + 1 < MEMSIZE
    ensures (x, y) != (x', y') ==>
      PixelIndex(x, y) + 1 < PixelIndex(x', y') || PixelIndex(x', y') + 1 < PixelIndex(x, y)
  {
    if y < y' {
      assert PixelIndex(x, y) + 1 < PixelIndex(x', y') by {
        assert STRIDE * y + x < STRIDE * y';
      }
    } else if y' < y {
      assert PixelIndex(x', y') + 1 < PixelIndex(x, y) by {
        assert STRIDE * y' + x' < STRIDE * y;
      }
    }
  }

  /** The colour the buffer holds for grid pixel `(x, y)`. */
  function ReadPixel(fb: Frame, x: int, y: int): u16
    requires InGrid(x, y)
  {
    PixelIndexInjective(x, y, x, y);
    Word(fb[PixelIndex(x, y)], fb[PixelIndex(x, y) + 1])
  }

  /** The point is drawn: it lies inside the logical screen. */
  predicate OnScreen(s: Driver, x: int, y: int)
  {
    0 <= x < s.width && 0 <= y < s.height
  }

  /** `drawPixel(x, y, color)`: outside the screen nothing changes; inside,
      exactly the two bytes of the pixel change, to the colour's high and low
      byte, and nothing is sent. */
  function DrawPixel(s: Driver, x: i16, y: i16, color: u16): (r: Driver)
    ensures !OnScreen(s, x, y) ==> r == s
    ensures OnScreen(s, x, y) ==>
      && 0 <= PixelIndex(x, y) && PixelIndex(x, y) + 1 < MEMSIZE
      && r == s.(fb := r.fb)
      && Word(r.fb[PixelIndex(x, y)], r.fb[PixelIndex(x, y) + 1]) == color
      && forall j :: 0 <= j < MEMSIZE && j != PixelIndex(x, y) && j != PixelIndex(x, y) + 1 ==>
           r.fb[j] == s.fb[j]
  {
    if BoundaryCheck(s, x, y) then s
    else if x < 0 || y < 0 then s
    else
      var i := PixelIndex(x, y);
      PixelIndexInjective(x, y, x, y);
      s.(fb := s.fb[i := color / 256][i + 1 := color % 256])
  }

  /** Reading back a drawn pixel gives its colour. */
  lemma DrawThenRead(s: Driver, x: i16, y: i16, color: u16)
    requires OnScreen(s, x, y)
    ensures ReadPixel(DrawPixel(s, x, y, color).fb, x, y) == color
  {
  }

  /** Drawing a pixel leaves every other grid pixel as it was. */
  lemma DrawKeepsOtherPixels(s: Driver, x: i16, y: i16, color: u16, x': int, y': int)
    requires InGrid(x', y') && (x', y') != (x, y)
    ensures ReadPixel(DrawPixel(s, x, y, color).fb, x', y') == ReadPixel(s.fb, x', y')
  {
    if OnScreen(s, x, y) {
      PixelIndexInjective(x, y, x', y');
    }
  }

  /** Drawing two different pixels gives the same handle in either order. */
  lemma DrawPixelsCommute(s: Driver, x1: i16, y1: i16, c1: u16, x2: i16, y2: i16, c2: u16)
    requires (x1, y1) != (x2, y2)
    ensures DrawPixel(DrawPixel(s, x1, y1, c1), x2, y2, c2) ==
            DrawPixel(DrawPixel(s, x2, y2, c2), x1, y1, c1)
  {
    var a := DrawPixel(DrawPixel(s, x1, y1, c1), x2, y2, c2);
    var b := DrawPixel(DrawPixel(s, x2, y2, c2), x1, y1, c1);
    if OnScreen(s, x1, y1) && OnScreen(s, x2, y2) {
      PixelIndexInjective(x1, y1, x2, y2);
      assert a.fb == b.fb by {
        forall j | 0 <= j < MEMSIZE
          ensures a.fb[j] == b.fb[j]
        {
        }
      }
    }
  }

  /** `writeScreen16(bitmap, size)`: the memory-write command, the first `size`
      bytes of the bitmap in one transfer, then the window reset to the full
      memory extent; no field changes. */
  function WriteScreen16(s: Driver, bitmap: seq<u8>, size: nat): (r: Driver)
    requires size <= |bitmap|
    ensures r == s.(trace := s.trace + [Cmd(RAMWR), Bulk(bitmap[..size])] + HomeEvents(s.rotation))
  {
    HomeAddress(s.(trace := s.trace + [Cmd(RAMWR), Bulk(bitmap[..size])]))
  }

  /** `writeFramebuffer()`: the whole buffer in one transfer, between two
      resets of the window to the full memory extent; no field changes. */
  function WriteFramebuffer(s: Driver): (r: Driver)
    ensures r == s.(trace := s.trace + HomeEvents(s.rotation) + [Cmd(RAMWR), Bulk(s.fb)] + HomeEvents(s.rotation))
  {
    assert s.fb[..MEMSIZE] == s.fb;
    WriteScreen16(HomeAddress(s), s.fb, MEMSIZE)
  }

  /** A pixel drawn into the buffer reaches the wire with the next flush: the
      bulk transfer carries its colour at its offset. */
  lemma FlushCarriesPixel(s: Driver, x: i16, y: i16, color: u16)
    requires OnScreen(s, x, y)
    ensures var d := DrawPixel(s, x, y, color);
      var e := WriteFramebuffer(d).trace[|d.trace|..];
      && e[12].Bulk?
      && |e[12].bytes| == MEMSIZE
      && Word(e[12].bytes[PixelIndex(x, y)], e[12].bytes[PixelIndex(x, y) + 1]) == color
  {
    var d := DrawPixel(s, x, y, color);
    var h := HomeEvents(d.rotation);
    var w := h + [Cmd(RAMWR), Bulk(d.fb)] + h;
    AppendAssoc(d.trace, h, [Cmd(RAMWR), Bulk(d.fb)]);
    AppendAssoc(d.trace, h + [Cmd(RAMWR), Bulk(d.fb)], h);
    assert WriteFramebuffer(d).trace[|d.trace|..] == w;
    assert w[12] == Bulk(d.fb);
  }

  /** The 5-6-5 words of a run of 24-bit colours, entry by entry. */
  function Words565(px: seq<bv32>): seq<u16>
  {
    seq(|px|, i requires 0 <= i < |px| => Color24To565(px[i]) as int)
  }

  /** A run of words sent one `writedata16` after another: data transfers
      only, word `i` in transfers `2i` and `2i + 1`. */
  function WordStream(w: seq<u16>): (e: seq<Event>)
    ensures |e| == 2 * |w|
    ensures forall j :: 0 <= j < |e| ==> e[j].Data?
    ensures forall i :: 0 <= i < |w| ==> WordAt(e, 2 * i) == w[i]
  {
    if |w| == 0 then []
    else WordStream(w[..|w| - 1]) + WriteData16(w[|w| - 1])
  }

  /** The data words `writeScreen24` sends for a run of 24-bit colours. */
  function Stream24(px: seq<bv32>): seq<Event>
  {
    WordStream(Words565(px))
  }

  /** `Stream24` sends, for each entry in order, its `Color24To565` word. */
  lemma Stream24Words(px: seq<bv32>)
    ensures |Stream24(px)| == 2 * |px|
    ensures forall j :: 0 <= j < |Stream24(px)| ==> Stream24(px)[j].Data?
    ensures forall i :: 0 <= i < |px| ==> WordAt(Stream24(px), 2 * i) == Color24To565(px[i]) as int
  {
  }

  /** `writeScreen24(bitmap, size)`: the memory-write command, the converted
      colours of the first `size` entries, then the window reset to the full
      memory extent. `WriteScreen24Loop` is the loop that computes it. */
  function WriteScreen24(s: Driver, bitmap: seq<bv32>, size: u16): Driver
    requires size <= |bitmap|
  {
    HomeAddress(s.(trace := s.trace + [Cmd(RAMWR)] + Stream24(bitmap[..size])))
  }

  /** What `writeScreen24` sends: the memory-write command, then `size` colour
      words (each the `Color24To565` of its entry, by `Stream24`), then the
      window reset; no field other than the trace changes. */
  lemma WriteScreen24Shape(s: Driver, bitmap: seq<bv32>, size: u16)
    requires size <= |bitmap|
    ensures WriteScreen24(s, bitmap, size) ==
      s.(trace := s.trace + [Cmd(RAMWR)] + Stream24(bitmap[..size]) + HomeEvents(s.rotation))
  {
  }

  /** The loop of `writeScreen24`, one entry at a time with a 16-bit counter,
      produces the trace `WriteScreen24` describes. */
  method WriteScreen24Loop(s: Driver, bitmap: seq<bv32>, size: u16) returns (r: Driver)
    requires size <= |bitmap|
    ensures r == WriteScreen24(s, bitmap, size)
  {
    var trace := s.trace + [Cmd(RAMWR)];
    var px: u16 := 0;
    while px < size
      invariant px <= size
      invariant trace == s.trace + [Cmd(RAMWR)] + WordStream(Words565(bitmap[..px]))
    {
      var color := Color24To565(bitmap[px]) as int;
      trace := trace + WriteData16(color);
      ghost var w := Words565(bitmap[..px + 1]);
      assert w[..px] == Words565(bitmap[..px]) && w[px] == color;
      px := px + 1;
    }
    assert bitmap[..px] == bitmap[..size];
    r := HomeAddress(s.(trace := trace));
  }
}
