/**
 Window addressing: the column/page window subsequent pixel data fills, and the
 operations built on it.
 */
module Window {
  import opened Settings
  import opened Bus
  import opened State

  /** The memory column the chip is sent for logical column `x`: the panel
      offset is added (as a `uint16_t`) only at rotation 1. */
  function ColumnAddress(rot: int, x: u16): u16
  {
    if rot == 1 then ToU16(x + OFFSET) else x
  }

  /** The memory page (row) the chip is sent for logical row `y`: the panel
      offset is added (as a `uint16_t`) only at rotation 0. */
  function PageAddress(rot: int, y: u16): u16
  {
    if rot == 0 then ToU16(y + OFFSET) else y
  }

  /** `e` opens the memory window of columns `c0..c1` and pages `p0..p1` for
      writing: the column register with two words, the page register with two
      words, then the memory-write command. */
  predicate IsWindow(e: seq<Event>, c0: u16, c1: u16, p0: u16, p1: u16)
  {
    && |e| == 11
    && e[0] == Cmd(CLMADRS)
    && e[1].Data? && e[2].Data? && e[3].Data? && e[4].Data?
    && WordAt(e, 1) == c0 && WordAt(e, 3) == c1
    && e[5] == Cmd(PGEADRS)
    && e[6].Data? && e[7].Data? && e[8].Data? && e[9].Data?
    && WordAt(e, 6) == p0 && WordAt(e, 8) == p1
    && e[10] == Cmd(RAMWR)
  }

  /** `e` opens the window of the logical rectangle `(x0, y0)..(x1, y1)` under rotation `rot`. */
  predicate IsLogicalWindow(e: seq<Event>, rot: int, x0: u16, y0: u16, x1: u16, y1: u16)
  {
    IsWindow(e, ColumnAddress(rot, x0), ColumnAddress(rot, x1), PageAddress(rot, y0), PageAddress(rot, y1))
  }

  /** `e` resets the window to the full memory extent under rotation `rot`. */
  predicate IsHome(e: seq<Event>, rot: int)
  {
    IsLogicalWindow(e, rot, 0, 0, GRAMWIDTH, GRAMHEIGH)
  }

  /** The events that open the memory window: each bound goes out through
      `writedata16`. */
  function WindowEvents(c0: u16, c1: u16, p0: u16, p1: u16): (e: seq<Event>)
    ensures IsWindow(e, c0, c1, p0, p1)
  {
    var a, b, c, d := WriteData16(c0), WriteData16(c1), WriteData16(p0), WriteData16(p1);
    [Cmd(CLMADRS), a[0], a[1], b[0], b[1], Cmd(PGEADRS), c[0], c[1], d[0], d[1], Cmd(RAMWR)]
  }

  /** The window events are the column command and its two words, then the
      page command and its two words, then the memory write. */
  lemma WindowEventsWords(c0: u16, c1: u16, p0: u16, p1: u16)
    ensures WindowEvents(c0, c1, p0, p1) ==
      ([Cmd(CLMADRS)] + WriteData16(c0) + WriteData16(c1)) +
      ([Cmd(PGEADRS)] + WriteData16(p0) + WriteData16(p1) + [Cmd(RAMWR)])
  {
  }

  /** The events that open the logical rectangle `(x0, y0)..(x1, y1)` under rotation `rot`. */
  function LogicalWindow(rot: int, x0: u16, y0: u16, x1: u16, y1: u16): (e: seq<Event>)
    ensures IsLogicalWindow(e, rot, x0, y0, x1, y1)
  {
    WindowEvents(ColumnAddress(rot, x0), ColumnAddress(rot, x1), PageAddress(rot, y0), PageAddress(rot, y1))
  }

  /** The events that reset the window to the full memory extent. */
  function HomeEvents(rot: int): (e: seq<Event>)
    ensures IsHome(e, rot)
  {
    LogicalWindow(rot, 0, 0, GRAMWIDTH, GRAMHEIGH)
  }

  /** `setAddrWindow(x0, y0, x1, y1)`: sends the window, the panel offset going
      to the columns at rotation 1 and to the rows at rotation 0; no field
      changes. */
  function SetAddrWindow(s: Driver, x0: u16, y0: u16, x1: u16, y1: u16): (r: Driver)
    ensures r == s.(trace := s.trace + LogicalWindow(s.rotation, x0, y0, x1, y1))
  {
    var (c0, c1) :=
      if s.rotation == 0 || s.rotation > 1 then (x0, x1)
      else (ToU16(x0 + OFFSET), ToU16(x1 + OFFSET));
    var (p0, p1) :=
      if s.rotation == 0 then (ToU16(y0 + OFFSET), ToU16(y1 + OFFSET))
      else (y0, y1);
    s.(trace := s.trace + WindowEvents(c0, c1, p0, p1))
  }

  /** At rotations 2 and 3 the window is sent exactly as requested. */
  lemma NoOffsetAtRotations2And3(rot: int, x0: u16, y0: u16, x1: u16, y1: u16)
    requires rot == 2 || rot == 3
    ensures LogicalWindow(rot, x0, y0, x1, y1) == WindowEvents(x0, x1, y0, y1)
  {
  }

  /** The private `setAddr` forwards to `setAddrWindow`. */
  function SetAddr(s: Driver, x0: u16, y0: u16, x1: u16, y1: u16): (r: Driver)
    ensures r == s.(trace := s.trace + LogicalWindow(s.rotation, x0, y0, x1, y1))
  {
    SetAddrWindow(s, x0, y0, x1, y1)
  }

  /** `startPushData` opens the window through `setAddr`. */
  function StartPushData(s: Driver, x0: u16, y0: u16, x1: u16, y1: u16): (r: Driver)
    ensures r == s.(trace := s.trace + LogicalWindow(s.rotation, x0, y0, x1, y1))
  {
    SetAddr(s, x0, y0, x1, y1)
  }

  /** `pushData(color)`: one colour word, high byte first, into the open window. */
  function PushData(s: Driver, color: u16): (r: Driver)
    ensures OnlyTraceGrows(s, r)
    ensures var e := Appended(s, r); |e| == 2 && e[0].Data? && e[1].Data? && WordAt(e, 0) == color
  {
    s.(trace := s.trace + WriteData16(color))
  }

  /** `homeAddress()`: the window covering the whole controller memory. */
  function HomeAddress(s: Driver): (r: Driver)
    ensures r == s.(trace := s.trace + HomeEvents(s.rotation))
  {
    SetAddrWindow(s, 0, 0, GRAMWIDTH, GRAMHEIGH)
  }

  /** `boundaryCheck(x, y)`: true when the point lies at or beyond the logical
      width or height. Negative coordinates are not rejected here. */
  predicate BoundaryCheck(s: Driver, x: i16, y: i16)
  {
    x >= s.width || y >= s.height
  }

  /** `setCursor(x, y)`: nothing happens when the point fails the boundary
      check; otherwise the window from the origin to `(x, y)` is opened (a
      negative coordinate reaching `setAddrWindow` as its `uint16_t` bit
      pattern) and the cursor moves to `(x, y)`. */
  function SetCursor(s: Driver, x: i16, y: i16): (r: Driver)
    ensures x >= s.width || y >= s.height ==> r == s
    ensures x < s.width && y < s.height ==>
      r == s.(cursorX := x, cursorY := y,
              trace := s.trace + LogicalWindow(s.rotation, 0, 0, ToU16(x), ToU16(y)))
  {
    if BoundaryCheck(s, x, y) then s
    else SetAddrWindow(s, 0, 0, ToU16(x), ToU16(y)).(cursorX := x, cursorY := y)
  }

  /** `setCursor` opens a window anchored at the origin, not a one-pixel window:
      for a point inside the screen (one the boundary check passes, with
      no negative coordinate) the window spans columns `0..x` and rows
      `0..y` (at rotations 2 and 3, where no offset is added). */
  lemma SetCursorSpansFromOrigin(s: Driver, x: i16, y: i16)
    requires 0 <= x && 0 <= y && !BoundaryCheck(s, x, y)
    requires s.rotation == 2 || s.rotation == 3
    ensures SetCursor(s, x, y).trace == s.trace + WindowEvents(0, x, 0, y)
  {
    assert ToU16(x) == x && ToU16(y) == y;
    NoOffsetAtRotations2And3(s.rotation, 0, 0, x, y);
  }

  /** A negative coordinate passes the boundary check of `setCursor` and is
      sent as its `uint16_t` bit pattern: at rotations 2 and 3, `setCursor(x, 0)`
      with `x < 0` on a non-empty screen addresses column `x + 65536`
      (0xFFFF for -1). */
  lemma SetCursorAcceptsNegative(s: Driver, x: i16)
    requires x < 0 && 0 < s.height
    requires s.rotation == 2 || s.rotation == 3
    ensures SetCursor(s, x, 0).cursorX == x
    ensures SetCursor(s, x, 0).trace == s.trace + WindowEvents(0, x + 0x1_0000, 0, 0)
  {
    assert ToU16(x) == x + 0x1_0000 && ToU16(0) == 0;
    NoOffsetAtRotations2And3(s.rotation, 0, 0, x + 0x1_0000, 0);
  }
}
