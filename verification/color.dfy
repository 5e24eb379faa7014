/**
 Colour packing from the driver header: 8-bit channels and 24-bit colours to the
 controller's 16-bit 5-6-5 wire format (red in bits 15..11, green in bits 10..5,
 blue in bits 4..0).
 */
module Color {

  /** `BLACK` and `WHITE` from the header. */
  const BLACK: bv16 := 0x0000
  const WHITE: bv16 := 0xFFFF

  /** The three fields of a 5-6-5 word. */
  function Red(c: bv16): bv16 { c >> 11 }
  function Green(c: bv16): bv16 { (c >> 5) & 0x3F }
  function Blue(c: bv16): bv16 { c & 0x1F }

  /** The three 8-bit channels of a 0xRRGGBB colour held in 32 bits. */
  function Channel(c: bv32, shift: nat): bv32
    requires shift <= 16
  {
    (c >> shift) & 0xFF
  }

  /** `Color24To565`: each 8-bit channel is divided (red and blue by 8, green by 4)
      and the quotients are packed into disjoint fields. The C expression is
      computed in 32 bits and returned as `uint16_t`; the conversion at the end
      is checked to lose nothing, so the packed value fits in 16 bits. */
  function Color24To565(c: bv32): (r: bv16)
    ensures Red(r) as bv32 == Channel(c, 16) / 8
    ensures Green(r) as bv32 == Channel(c, 8) / 4
    ensures Blue(r) as bv32 == Channel(c, 0) / 8
  {
    ((((((c >> 16) & 0xFF) / 8) << 11) | ((((c >> 8) & 0xFF) / 4) << 5)) | ((c & 0xFF) / 8)) as bv16
  }

  /** `Color565`: masking a channel with 0xF8 (or 0xFC for green) and shifting it
      into place packs the same word as `Color24To565` of the 24-bit colour
      built from the three channels. */
  function Color565(red: bv8, green: bv8, blue: bv8): (r: bv16)
    ensures r == Color24To565(((red as bv32) << 16) | ((green as bv32) << 8) | (blue as bv32))
  {
    (((red & 0xF8) as bv16) << 8) | (((green & 0xFC) as bv16) << 3) | ((blue >> 3) as bv16)
  }

  /** Only the low 24 bits of the argument of `Color24To565` matter. */
  lemma Color24IgnoresHighByte(c: bv32)
    ensures Color24To565(c) == Color24To565(c & 0xFF_FFFF)
  {
  }

  /** 0xFF8000 packs to red 31, green 32, blue 0. */
  lemma Color24Orange()
    ensures Color24To565(0xFF8000) == 0xFC00
    ensures Red(0xFC00) == 31 && Green(0xFC00) == 32 && Blue(0xFC00) == 0
  {
  }

  /** The extreme channel values pack to the header's `BLACK` and `WHITE`. */
  lemma Color565BlackWhite()
    ensures Color565(0, 0, 0) == BLACK
    ensures Color565(255, 255, 255) == WHITE
  {
  }
}
