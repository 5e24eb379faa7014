/**
 The memory-access-control byte (register MADCTL): scan direction, axis exchange
 and colour order, bit 7 down to bit 0 as MY, MX, MV, ML, RGB, MH, D1, D0.

 The driver keeps this byte as a raw `uint8_t`; here it also has a record of
 named flags, so that the rotation table and the colour-order update can be
 stated in terms of what each bit means.
 */
module AccessControl {
  import opened Settings

  /** The eight bits of the register, by name. `bgr` is the colour-order bit:
      set for BGR, clear for RGB. */
  datatype Flags = Flags(
    my: bool,   // row address order: bottom to top
    mx: bool,   // column address order: right to left
    mv: bool,   // row/column exchange
    ml: bool,   // vertical refresh order
    bgr: bool,  // colour order
    mh: bool,   // horizontal refresh order
    d1: bool,
    d0: bool)

  function Bit(on: bool, mask: bv8): bv8
  {
    if on then mask else 0
  }

  /** The byte that carries the given flags. */
  function Pack(f: Flags): bv8
  {
    Bit(f.my, 0x80) | Bit(f.mx, 0x40) | Bit(f.mv, 0x20) | Bit(f.ml, 0x10) |
    Bit(f.bgr, 0x08) | Bit(f.mh, 0x04) | Bit(f.d1, 0x02) | Bit(f.d0, 0x01)
  }

  /** The flags a byte carries; the inverse of `Pack` on every byte. */
  function Unpack(b: bv8): (f: Flags)
    ensures Pack(f) == b
  {
    Flags(b & 0x80 != 0, b & 0x40 != 0, b & 0x20 != 0, b & 0x10 != 0,
          b & 0x08 != 0, b & 0x04 != 0, b & 0x02 != 0, b & 0x01 != 0)
  }

  /** Packing loses nothing: every flag record is recovered from its byte. */
  lemma UnpackPack(f: Flags)
    ensures Unpack(Pack(f)) == f
  {
  }

  /** `colorSpace(cspace)` applied to the byte `b`: bit 3 is cleared for
      `cspace < 1` and set otherwise; every other bit is kept. */
  function ColorSpace(b: bv8, cspace: u8): (r: bv8)
    ensures Unpack(r) == Unpack(b).(bgr := cspace >= 1)
  {
    if cspace < 1 then b & 0xF7 else b | 0x08
  }

  /** What each rotation asks of the panel: 0 is the native scan, 1 exchanges
      the axes and mirrors columns, 2 mirrors both axes, 3 exchanges the axes
      and mirrors rows. Every entry selects BGR order until the colour-order
      flag is applied. */
  function ScanMode(rot: int): Flags
    requires 0 <= rot < 4
  {
    var normal := Flags(false, false, false, false, true, false, false, false);
    if rot == 0 then normal
    else if rot == 1 then normal.(mx := true, mv := true)
    else if rot == 2 then normal.(my := true, mx := true)
    else normal.(my := true, mv := true)
  }

  /** The raw byte `setRotation` stores for each rotation. */
  function RotationTable(rot: int): (b: bv8)
    requires 0 <= rot < 4
    ensures Unpack(b) == ScanMode(rot)
  {
    match rot
    case 0 => 0x08
    case 1 => 0x68
    case 2 => 0xC8
    case 3 => 0xA8
  }

  /** The access-control byte for a rotation under a colour-order setting:
      the table byte with bit 3 replaced. */
  function Madctl(rot: int, cspace: u8): (b: bv8)
    requires 0 <= rot < 4
    ensures Unpack(b) == ScanMode(rot).(bgr := cspace >= 1)
  {
    ColorSpace(RotationTable(rot), cspace)
  }

  /** Distinct rotations select distinct scan modes, so the byte alone tells
      which rotation is in force, whatever the colour order. */
  lemma MadctlDeterminesRotation(r1: int, r2: int, cs1: u8, cs2: u8)
    requires 0 <= r1 < 4 && 0 <= r2 < 4
    requires Madctl(r1, cs1) == Madctl(r2, cs2)
    ensures r1 == r2
  {
    assert Unpack(Madctl(r1, cs1)) == Unpack(Madctl(r2, cs2));
  }
}
