/**
 Orientation state: `setRotation` and the colour-order update it re-applies.
 */
module Orientation {
  import opened Settings
  import opened Bus
  import opened AccessControl
  import opened State

  /** `setRotation(m)`: the rotation becomes `m % 4`, the logical size and the
      access-control byte follow from it, the colour-order bit is re-applied, and
      the byte is transmitted to `MADCTL`. */
  function SetRotation(s: Driver, m: u8): (r: Driver)
    ensures r.rotation == m % 4
    ensures (r.width, r.height) == Dims(r.rotation)
    ensures Unpack(r.madctl) == ScanMode(r.rotation).(bgr := s.colorspace >= 1)
    ensures r.trace == s.trace + [Cmd(MADCTL), Data(r.madctl as int)]
    ensures r == s.(rotation := r.rotation, width := r.width, height := r.height,
                    madctl := r.madctl, trace := r.trace)
  {
    var rotation := m % 4;
    var (table, width, height) :=
      match rotation
      case 0 => (0x08, TFTWIDTH, TFTHEIGHT)
      case 1 => (0x68, TFTHEIGHT, TFTWIDTH)
      case 2 => (0xC8, TFTWIDTH, TFTHEIGHT)
      case 3 => (0xA8, TFTWIDTH, TFTHEIGHT);
    var madctl := ColorSpace(table, s.colorspace);
    s.(rotation := rotation, width := width, height := height, madctl := madctl,
       trace := s.trace + [Cmd(MADCTL), Data(madctl as int)])
  }

  /** Only `m % 4` matters: `m` and `m + 4` (as a `uint8_t`) give the same
      handle and the same transmitted bytes. */
  lemma SetRotationModulo4(s: Driver, m: u8)
    ensures SetRotation(s, m) == SetRotation(s, (m + 4) % 256)
  {
  }

  /** After `setRotation` the handle is consistent and the byte in force on the
      chip is the one the handle holds. */
  lemma SetRotationConsistent(s: Driver, m: u8)
    ensures Consistent(SetRotation(s, m))
    ensures MadctlSent(SetRotation(s, m))
  {
    var r := SetRotation(s, m);
    assert Unpack(r.madctl) == Unpack(Madctl(r.rotation, r.colorspace));
    assert r.trace[|r.trace| - 2] == Cmd(MADCTL);
  }
}
