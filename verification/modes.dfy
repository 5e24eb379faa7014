/**
 Power and mode controls: the display, idle and inversion switches, sleep, and
 the two vertical-scroll registers.
 */
module Modes {
  import opened Settings
  import opened Bus
  import opened State

  /** `invertDisplay(i)`: one command, no state. */
  function InvertDisplay(s: Driver, on: bool): Driver
  {
    s.(trace := s.trace + [Cmd(if on then DINVON else DINVOF)])
  }

  /** `display(onOff)`: one command, no state. */
  function Display(s: Driver, on: bool): Driver
  {
    if on then s.(trace := s.trace + [Cmd(DISPON)])
    else s.(trace := s.trace + [Cmd(DISPOFF)])
  }

  /** `idleMode(onOff)`: one command, no state. */
  function IdleMode(s: Driver, on: bool): Driver
  {
    if on then s.(trace := s.trace + [Cmd(IDLEON)])
    else s.(trace := s.trace + [Cmd(IDLEOF)])
  }

  /** The three switches keep no state of their own: each sends one command
      selected by its argument and changes nothing else, so a repeated call is
      not recognised and sends the command again. */
  lemma SwitchesKeepNoState(s: Driver, on: bool)
    ensures Display(s, on).trace == s.trace + [Cmd(if on then DISPON else DISPOFF)]
    ensures IdleMode(s, on).trace == s.trace + [Cmd(if on then IDLEON else IDLEOF)]
    ensures InvertDisplay(s, on).trace == s.trace + [Cmd(if on then DINVON else DINVOF)]
    ensures OnlyTraceGrows(s, Display(s, on))
    ensures OnlyTraceGrows(s, IdleMode(s, on))
    ensures OnlyTraceGrows(s, InvertDisplay(s, on))
    ensures Display(Display(s, on), on).trace == s.trace + [Cmd(if on then DISPON else DISPOFF)] + [Cmd(if on then DISPON else DISPOFF)]
  {
  }

  /** The value of the `sleep` field that means "in the state `mode` asks for". */
  function SleepFlag(mode: bool): u8
  {
    if mode then 1 else 0
  }

  /** `sleepMode(mode)`: when the flag already records the requested state
      nothing happens; otherwise the flag is updated and the chip is sent to
      sleep (with a 5 ms settle time) or woken (with a 120 ms settle time). */
  function SleepMode(s: Driver, mode: bool): (r: Driver)
    ensures r.sleep == SleepFlag(mode)
    ensures s.sleep == SleepFlag(mode) ==> r == s
    ensures s.sleep != SleepFlag(mode) ==>
      && r.trace == s.trace + (if mode then [Cmd(SLPIN), Delay(5)] else [Cmd(SLPOUT), Delay(120)])
      && r == s.(sleep := r.sleep, trace := r.trace)
  {
    if mode then
      if s.sleep == 1 then s
      else s.(sleep := 1, trace := s.trace + [Cmd(SLPIN), Delay(5)])
    else
      if s.sleep == 0 then s
      else s.(sleep := 0, trace := s.trace + [Cmd(SLPOUT), Delay(120)])
  }

  /** Asking twice for the same sleep state is the same as asking once: the
      second call sends nothing. */
  lemma SleepModeIdempotent(s: Driver, mode: bool)
    ensures SleepMode(SleepMode(s, mode), mode) == SleepMode(s, mode)
  {
  }

  /** `scroll(adrs)`: the scroll start register is written with `adrs` plus the
      panel offset (as a `uint16_t`) exactly when `adrs` does not exceed
      `_GRAMHEIGH`; otherwise nothing is sent. */
  function Scroll(s: Driver, adrs: u16): (r: Driver)
    ensures OnlyTraceGrows(s, r)
    ensures |r.trace| > |s.trace| <==> adrs <= GRAMHEIGH
    ensures adrs <= GRAMHEIGH ==>
      var e := Appended(s, r);
      && |e| == 3 && e[0] == Cmd(VSSTADRS) && e[1].Data? && e[2].Data?
      && WordAt(e, 1) == ToU16(adrs + OFFSET)
  {
    if adrs <= GRAMHEIGH then
      s.(trace := s.trace + [Cmd(VSSTADRS)] + WriteData16(ToU16(adrs + OFFSET)))
    else s
  }

  /** `e` writes the vertical scroll definition: top fixed area, scroll area
      and bottom fixed area, one word each. */
  predicate IsScrollArea(e: seq<Event>, top: u16, vsa: u16, bottom: u16)
  {
    && |e| == 7
    && e[0] == Cmd(VSCLLDEF)
    && e[1].Data? && e[2].Data? && e[3].Data? && e[4].Data? && e[5].Data? && e[6].Data?
    && WordAt(e, 1) == top && WordAt(e, 3) == vsa && WordAt(e, 5) == bottom
  }

  /** `defineScrollArea(tfa, bfa)` as the driver computes it: `tfa` is advanced
      by the panel offset in 16 bits, and the scroll height
      `_GRAMHEIGH - tfa - bfa` is narrowed to `int16_t` before the sign test.
      The registers are written when the narrowed height is not negative. */
  function DefineScrollAreaAsWritten(s: Driver, tfa: u16, bfa: u16): (r: Driver)
    ensures OnlyTraceGrows(s, r)
    ensures var top := ToU16(tfa + OFFSET);
      var vsa := ToI16(GRAMHEIGH - top - bfa);
      && (vsa >= 0 ==> IsScrollArea(Appended(s, r), top, vsa, bfa))
      && (vsa < 0 ==> r == s)
  {
    var top := ToU16(tfa + OFFSET);
    var vsa := ToI16(GRAMHEIGH - top - bfa);
    if vsa >= 0 then
      s.(trace := s.trace + [Cmd(VSCLLDEF)] + WriteData16(top) + WriteData16(ToU16(vsa)) + WriteData16(bfa))
    else s
  }

  /** The narrowing defeats the guard: with `tfa = 0` and
      `bfa = _GRAMHEIGH - __OFFSET + 32769` the true scroll height is -32769,
      which narrows to 32767, so a descriptor whose three parts do not add up to
      `_GRAMHEIGH` is sent. The corrected `DefineScrollArea` sends nothing. */
  lemma ScrollGuardBypassed(s: Driver)
    requires -32769 <= GRAMHEIGH - OFFSET <= 32766
    ensures var bfa: u16 := GRAMHEIGH - OFFSET + 32769;
      var r := DefineScrollAreaAsWritten(s, 0, bfa);
      && GRAMHEIGH - OFFSET - bfa < 0
      && IsScrollArea(Appended(s, r), OFFSET, 32767, bfa)
      && OFFSET + 32767 + bfa != GRAMHEIGH
      && DefineScrollArea(s, 0, bfa) == s
  {
    var bfa: u16 := GRAMHEIGH - OFFSET + 32769;
    assert ToU16(0 + OFFSET) == OFFSET;
    assert GRAMHEIGH - OFFSET - bfa == -32769;
    assert ToI16(-32769) == 32767;
  }

  /** `defineScrollArea(tfa, bfa)` with the guard it evidently intends: the scroll
      height is computed without wrap-around, and the registers are written
      exactly when the top area (with the offset), the bottom area and a
      non-negative scroll height fill the memory height, which the three
      written words then add up to. */
  function DefineScrollArea(s: Driver, tfa: u16, bfa: u16): (r: Driver)
    ensures OnlyTraceGrows(s, r)
    ensures |r.trace| > |s.trace| <==> tfa + OFFSET + bfa <= GRAMHEIGH
    ensures |r.trace| > |s.trace| ==>
      && IsScrollArea(Appended(s, r), tfa + OFFSET, GRAMHEIGH - (tfa + OFFSET) - bfa, bfa)
      && WordAt(Appended(s, r), 1) + WordAt(Appended(s, r), 3) + WordAt(Appended(s, r), 5) == GRAMHEIGH
  {
    var top := tfa + OFFSET;
    var vsa := GRAMHEIGH - top - bfa;
    if vsa >= 0 then
      s.(trace := s.trace + [Cmd(VSCLLDEF)] + WriteData16(top) + WriteData16(vsa) + WriteData16(bfa))
    else s
  }

  /** Where no 16-bit wrap-around happens, the driver's computation and the
      corrected one agree. */
  lemma ScrollAreaAgreesWithoutWrap(s: Driver, tfa: u16, bfa: u16)
    requires tfa + OFFSET < 0x1_0000
    requires -0x8000 <= GRAMHEIGH - (tfa + OFFSET) - bfa < 0x8000
    ensures DefineScrollAreaAsWritten(s, tfa, bfa) == DefineScrollArea(s, tfa, bfa)
  {
  }
}
