/**
 The controller handle: everything the driver object remembers between calls,
 including the fields it inherits from the drawing base class (rotation,
 logical size, text cursor) and the file-level framebuffer, together with the
 trace of every bus event it has produced so far.
 */
module State {
  import opened Settings
  import opened Bus
  import opened AccessControl

  /** The framebuffer: `MEMSIZE` bytes, two per pixel, high byte first. */
  type Frame = f: seq<u8> | |f| == MEMSIZE witness seq(MEMSIZE, _ => 0)

  /** Field names follow the driver: `_cs`, `_rs`, `_rst`, `rotation`, `_width`,
      `_height`, `cursor_x`, `cursor_y`, `_Mactrl_Data`, `_colorspaceData`,
      `sleep`, `_initError` and `fbuff`. */
  datatype Driver = Driver(
    cs: u8,
    rs: u8,
    rst: u8,
    rotation: u8,
    width: Dim,
    height: Dim,
    cursorX: i16,
    cursorY: i16,
    madctl: bv8,
    colorspace: u8,
    sleep: u8,
    initError: u8,
    fb: Frame,
    trace: seq<Event>)

  /** The default reset pin of the constructor, which means "no reset pin". */
  const NO_RESET_PIN: u8 := 255

  /** The logical size for a rotation: rotation 1 swaps the native sides,
      rotations 0, 2 and 3 keep them. */
  function Dims(rot: int): (int, int)
  {
    if rot == 1 then (TFTHEIGHT, TFTWIDTH) else (TFTWIDTH, TFTHEIGHT)
  }

  /** The handle is consistent: the rotation is in range, the logical size is
      the one the rotation selects, and the access-control byte is the
      rotation's table byte under the current colour order. */
  predicate Consistent(s: Driver)
  {
    && s.rotation < 4
    && (s.width, s.height) == Dims(s.rotation)
    && s.madctl == Madctl(s.rotation, s.colorspace)
  }

  /** The access-control byte is the value last transmitted with `MADCTL`, and
      the trace does not end in a `MADCTL` command still waiting for its byte. */
  predicate MadctlSent(s: Driver)
  {
    && LastMadctl(s.trace) == Some(s.madctl as int)
    && 0 < |s.trace|
    && s.trace[|s.trace| - 1] != Cmd(MADCTL)
  }

  /** `TFT_ILI9163C(cspin, dcpin, rstpin = 255)`: records the pins and sends
      nothing. The drawing base class starts at rotation 0 with the native size
      and the cursor at the origin; the remaining fields and the framebuffer
      start at zero, as they do for a statically allocated driver. */
  function New(cs: u8, dc: u8, rst: u8 := NO_RESET_PIN): (s: Driver)
    ensures s.trace == [] && s.cs == cs && s.rs == dc && s.rst == rst
    ensures s.cursorX == 0 && s.cursorY == 0
    ensures (s.width, s.height) == Dims(s.rotation) && s.rotation == 0
  {
    Driver(cs, dc, rst, 0, TFTWIDTH, TFTHEIGHT, 0, 0, 0, 0, 0, 0,
           seq(MEMSIZE, _ => 0), [])
  }

  /** The events a step appended to the trace. */
  function Appended(before: Driver, after: Driver): seq<Event>
    requires |before.trace| <= |after.trace|
  {
    after.trace[|before.trace|..]
  }

  /** `after` extends the trace of `before` and keeps every other field. */
  predicate OnlyTraceGrows(before: Driver, after: Driver)
  {
    && |before.trace| <= |after.trace|
    && after.trace[..|before.trace|] == before.trace
    && after == before.(trace := after.trace)
  }
}
