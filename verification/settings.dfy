/**
 The build-time panel configuration of the ILI9163C driver and the C integer
 conversions the driver relies on.

 The panel constants live in a settings header that is not part of this model,
 so they are declared here without a value: every proof in the project holds
 for every choice of them that fits their types.
 */
module Settings {

  /** C `uint8_t`, `uint16_t` and `int16_t` as ranges of mathematical integers. */
  type u8 = x: int | 0 <= x < 0x100
  type u16 = x: int | 0 <= x < 0x1_0000
  type i16 = x: int | -0x8000 <= x < 0x8000

  /** A panel side in pixels; the framebuffer is sized for at most 128 x 128. */
  type Dim = x: int | 0 <= x <= 128

  /** `_TFTWIDTH` and `_TFTHEIGHT`: the native panel size in pixels. */
  const TFTWIDTH: Dim
  const TFTHEIGHT: Dim

  /** `_GRAMWIDTH` and `_GRAMHEIGH`: the extent of the controller's memory window. */
  const GRAMWIDTH: u16
  const GRAMHEIGH: u16

  /** `__OFFSET`: first memory row (or column) of the visible area. */
  const OFFSET: u16

  /** `__COLORSPC`: default colour order, 0 for RGB and anything else for BGR. */
  const COLORSPC: u8

  /** `MEMSIZE`: bytes in the framebuffer, two per pixel of a 128 x 128 grid. */
  const MEMSIZE: nat := 128 * 128 * 2

  /** Row stride of the framebuffer in pixels. */
  const STRIDE: nat := 128

  /** Conversion of an `int` to `uint16_t`: reduction modulo 2^16. */
  function ToU16(x: int): (r: u16)
    ensures (r - x) % 0x1_0000 == 0
    ensures 0 <= x < 0x1_0000 ==> r == x
  {
    x % 0x1_0000
  }

  /** Conversion of an `int` to `int16_t`: two's-complement narrowing, the value
      in [-2^15, 2^15) congruent to `x` modulo 2^16. */
  function ToI16(x: int): (r: i16)
    ensures (r - x) % 0x1_0000 == 0
    ensures -0x8000 <= x < 0x8000 ==> r == x
  {
    var m := x % 0x1_0000;
    if m < 0x8000 then m else m - 0x1_0000
  }
}
