/**
 The register protocol encoder: the events the driver puts on the serial bus.

 `writecommand(c)` and `writedata(b)` each emit exactly one transfer, so they are
 the constructors `Cmd(c)` and `Data(b)` themselves; `writedata16` is the only
 encoder with content of its own.
 */
module Bus {
  import opened Settings

  /** The controller registers the driver addresses. The numeric codes live in
      a register header that is not part of this model, so they are symbolic. */
  datatype Command =
    | SWRESET | SLPIN | SLPOUT | NORML | DINVOF | DINVON | GAMMASET
    | DISPOFF | DISPON | IDLEOF | IDLEON | CLMADRS | PGEADRS | RAMWR
    | VSCLLDEF | MADCTL | VSSTADRS | PIXFMT | FRMCTR1 | DINVCTR | DFUNCTR
    | PWCTR1 | PWCTR2 | VCOMCTR1 | VCOMOFFS | GAMRSEL

  /** One observable step of the driver.
      - Cmd: a byte sent with the command/data line low (`writecommand`);
      - Data: a byte sent with the command/data line high (`writedata`);
      - Bulk: a block of data bytes sent in one transfer (`SPI.writeBytes`);
      - Delay: a blocking wait of the given milliseconds (`delay`);
      - ResetLine: a level driven on the reset pin;
      - FillScreen: a call into the drawing base class, whose code is not part of this model. */
  datatype Event =
    | Cmd(code: Command)
    | Data(byte: u8)
    | Bulk(bytes: seq<u8>)
    | Delay(ms: nat)
    | ResetLine(high: bool)
    | FillScreen(color: u16)

  /** The 16-bit word carried by two data bytes sent high byte first. */
  function Word(hi: u8, lo: u8): u16
  {
    hi * 256 + lo
  }

  /** `writedata16(d)`: two data transfers, the high byte of `d` first. */
  function WriteData16(d: u16): (e: seq<Event>)
    ensures |e| == 2 && e[0].Data? && e[1].Data?
    ensures Word(e[0].byte, e[1].byte) == d
  {
    [Data(d / 256), Data(d % 256)]
  }

  /** The value of the data word that starts at position `i` of a trace. */
  function WordAt(e: seq<Event>, i: nat): u16
    requires i + 1 < |e| && e[i].Data? && e[i + 1].Data?
  {
    Word(e[i].byte, e[i + 1].byte)
  }

  /** True when `e` holds no event of kind `Cmd(c)`. */
  predicate NoCommand(e: seq<Event>, c: Command)
  {
    forall i :: 0 <= i < |e| ==> e[i] != Cmd(c)
  }

  lemma AppendAssoc(a: seq<Event>, b: seq<Event>, c: seq<Event>)
    ensures a + b + c == a + (b + c)
  {
  }

  datatype Option<T> = None | Some(value: T)

  /** The byte sent with the most recent `MADCTL` command of a trace: the last
      `Cmd(MADCTL)` that is directly followed by a data byte. */
  function LastMadctl(t: seq<Event>): Option<u8>
  {
    if |t| < 2 then None
    else if t[|t| - 2] == Cmd(MADCTL) && t[|t| - 1].Data? then Some(t[|t| - 1].byte)
    else LastMadctl(t[..|t| - 1])
  }

  /** Appending events without a `MADCTL` command to a trace that does not end
      in a dangling `MADCTL` command leaves its last `MADCTL` value in force. */
  lemma {:induction false} LastMadctlAppend(t: seq<Event>, e: seq<Event>)
    requires NoCommand(e, MADCTL)
    requires |t| > 0 ==> t[|t| - 1] != Cmd(MADCTL)
    ensures LastMadctl(t + e) == LastMadctl(t)
    decreases |e|
  {
    if |e| == 0 {
      assert t + e == t;
    } else {
      var e' := e[..|e| - 1];
      LastMadctlAppend(t, e');
      assert (t + e)[..|t + e| - 1] == t + e';
      if |t + e| >= 2 {
        assert (t + e)[|t + e| - 2] != Cmd(MADCTL);
      }
    }
  }
}
