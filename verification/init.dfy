/**
 Bring-up: `begin` and the fixed register sequence of `chipInit`.
 */
module Init {
  import opened Settings
  import opened Bus
  import opened Color
  import opened AccessControl
  import opened State
  import opened Orientation
  import Window

  /** The reset pulse `begin` drives when the driver has a reset pin: high,
      low, high, each level held for 500 ms. */
  function ResetPulse(rst: u8): seq<Event>
  {
    if rst != NO_RESET_PIN then
      [ResetLine(true), Delay(500), ResetLine(false), Delay(500), ResetLine(true), Delay(500)]
    else []
  }

  /** One register write of the bring-up script: the command, its parameter
      bytes, then a pause in milliseconds (0 for none). */
  datatype Step = Step(cmd: Command, params: seq<u8>, pause: nat)

  /** The two bytes `writedata16` sends for `w`, high byte first. */
  function Bytes16(w: u16): seq<u8>
  {
    [w / 256, w % 256]
  }

  /** Parameter bytes as data events. */
  function Datas(b: seq<u8>): (e: seq<Event>)
    ensures |e| == |b|
  {
    seq(|b|, i requires 0 <= i < |b| => Data(b[i]))
  }

  /** The events of one step. */
  function Emit(st: Step): seq<Event>
  {
    [Cmd(st.cmd)] + Datas(st.params) + (if st.pause > 0 then [Delay(st.pause)] else [])
  }

  /** The events of a script, step after step. */
  function Script(steps: seq<Step>): seq<Event>
  {
    if |steps| == 0 then [] else Emit(steps[0]) + Script(steps[1..])
  }

  /** The register writes of `chipInit` before the colour order and rotation
      are applied: software reset, wake-up, pixel format, gamma, the
      vendor-calibrated timing and power block, the full-extent column and page
      windows, and the default scroll area. */
  const INIT_STEPS: seq<Step> := [
    Step(SWRESET, [], 500),
    Step(SLPOUT, [], 5),
    Step(PIXFMT, [0x05], 5),
    Step(GAMMASET, [0x04], 1),
    Step(GAMRSEL, [0x01], 1),
    Step(NORML, [], 0),
    Step(DFUNCTR, [0xFF, 0x06], 0),
    Step(FRMCTR1, [0x08, 0x02], 1),
    Step(DINVCTR, [0x07], 1),
    Step(PWCTR1, [0x0A, 0x02], 1),
    Step(PWCTR2, [0x02], 1),
    Step(VCOMCTR1, [0x50, 99], 1),
    Step(VCOMOFFS, [0], 1),
    Step(CLMADRS, Bytes16(0) + Bytes16(GRAMWIDTH), 0),
    Step(PGEADRS, Bytes16(0) + Bytes16(GRAMHEIGH), 0),
    Step(VSCLLDEF, Bytes16(OFFSET) + Bytes16(ToU16(GRAMHEIGH - OFFSET)) + Bytes16(0), 0)
  ]

  /** The events of the register writes. */
  function InitRegisters(): seq<Event>
  {
    Script(INIT_STEPS)
  }

  /** `writedata16` is the two-byte parameter write. */
  lemma WordIsTwoBytes(w: u16)
    ensures Datas(Bytes16(w)) == WriteData16(w)
  {
  }

  /** A step with two word parameters sends its command and the two words as
      `writedata16` would. */
  lemma EmitWords(c: Command, a: u16, b: u16)
    ensures Emit(Step(c, Bytes16(a) + Bytes16(b), 0)) == [Cmd(c)] + WriteData16(a) + WriteData16(b)
  {
    WordIsTwoBytes(a);
    WordIsTwoBytes(b);
    assert Datas(Bytes16(a) + Bytes16(b)) == Datas(Bytes16(a)) + Datas(Bytes16(b));
  }

  /** The column and page writes of the script are the window `setAddrWindow`
      sends for the full memory extent, up to its closing memory-write command. */
  lemma InitWindowIsFullExtent()
    ensures Emit(INIT_STEPS[13]) + Emit(INIT_STEPS[14]) + [Cmd(RAMWR)] ==
            Window.WindowEvents(0, GRAMWIDTH, 0, GRAMHEIGH)
  {
    var c := Step(CLMADRS, Bytes16(0) + Bytes16(GRAMWIDTH), 0);
    var p := Step(PGEADRS, Bytes16(0) + Bytes16(GRAMHEIGH), 0);
    assert INIT_STEPS[13] == c && INIT_STEPS[14] == p;
    EmitWords(CLMADRS, 0, GRAMWIDTH);
    EmitWords(PGEADRS, 0, GRAMHEIGH);
    Window.WindowEventsWords(0, GRAMWIDTH, 0, GRAMHEIGH);
    AppendAssoc(Emit(c), Emit(p), [Cmd(RAMWR)]);
  }

  /** What `chipInit` sends after `setRotation(0)`: display on, memory write,
      and the clear to black done by the drawing base class. */
  function InitTail(): seq<Event>
  {
    [Cmd(DISPON), Delay(1), Cmd(RAMWR), Delay(1), FillScreen(BLACK as int)]
  }

  /** `chipInit()`: the register writes, the colour order applied to the
      access-control byte, rotation 0, then the tail. */
  function ChipInit(s: Driver): Driver
  {
    var t := s.(trace := s.trace + InitRegisters());
    var t := t.(madctl := ColorSpace(t.madctl, t.colorspace));
    var t := SetRotation(t, 0);
    t.(trace := t.trace + InitTail())
  }

  /** `begin()`: clears the sleep flag and the error code, pulses the reset pin
      when there is one, resets the access-control byte, loads the default
      colour order and runs `chipInit`. */
  function Begin(s: Driver): Driver
  {
    var t := s.(sleep := 0, initError := 0, trace := s.trace + ResetPulse(s.rst));
    ChipInit(t.(madctl := 0, colorspace := COLORSPC))
  }

  /** `errorCode()`. */
  function ErrorCode(s: Driver): u8
  {
    s.initError
  }

  /** The whole bring-up sequence `begin` appends for a driver whose reset pin is `rst`. */
  function BeginTrace(rst: u8): seq<Event>
  {
    ResetPulse(rst) + InitRegisters() + [Cmd(MADCTL), Data(Madctl(0, COLORSPC) as int)] + InitTail()
  }

  /** `begin` step by step: the state after `setRotation(0)` inside `chipInit`. */
  function BeforeTail(s: Driver): Driver
  {
    var t := s.(sleep := 0, initError := 0, trace := s.trace + ResetPulse(s.rst));
    var t := t.(madctl := 0, colorspace := COLORSPC);
    var t := t.(trace := t.trace + InitRegisters());
    var t := t.(madctl := ColorSpace(t.madctl, t.colorspace));
    SetRotation(t, 0)
  }

  lemma BeginSplit(s: Driver)
    ensures Begin(s) == BeforeTail(s).(trace := BeforeTail(s).trace + InitTail())
  {
  }

  /** `begin` ends awake, with error code 0, at rotation 0 with the native size
      and the access-control byte consistent; pins and cursor are untouched. */
  lemma BeginReady(s: Driver)
    ensures var r := Begin(s);
      && r.sleep == 0 && ErrorCode(r) == 0
      && r.rotation == 0 && (r.width, r.height) == (TFTWIDTH, TFTHEIGHT)
      && r.colorspace == COLORSPC
      && Consistent(r)
      && (r.cs, r.rs, r.rst, r.cursorX, r.cursorY) == (s.cs, s.rs, s.rst, s.cursorX, s.cursorY)
  {
    BeginSplit(s);
    SetRotationConsistent(BeforeTail(s), 0);
  }

  /** `begin` appends the fixed bring-up sequence. */
  lemma BeginAppends(s: Driver)
    ensures Begin(s).trace == s.trace + BeginTrace(s.rst)
  {
    BeginSplit(s);
    BeginReady(s);
    var rp, ir, md, tl := ResetPulse(s.rst), InitRegisters(), [Cmd(MADCTL), Data(Madctl(0, COLORSPC) as int)], InitTail();
    assert BeforeTail(s).trace == s.trace + rp + ir + md;
    calc {
      s.trace + rp + ir + md + tl;
      { AppendAssoc(s.trace, rp, ir); }
      s.trace + (rp + ir) + md + tl;
      { AppendAssoc(s.trace, rp + ir, md); }
      s.trace + (rp + ir + md) + tl;
      { AppendAssoc(s.trace, rp + ir + md, tl); }
      s.trace + (rp + ir + md + tl);
    }
  }

  /** The complete effect of `begin`, field by field. */
  lemma BeginIs(s: Driver)
    ensures Begin(s) == Driver(s.cs, s.rs, s.rst, 0, TFTWIDTH, TFTHEIGHT, s.cursorX, s.cursorY,
                               Madctl(0, COLORSPC), COLORSPC, 0, 0, s.fb, s.trace + BeginTrace(s.rst))
  {
    BeginReady(s);
    BeginAppends(s);
  }

  /** `e` drives the reset line somewhere. */
  predicate DrivesReset(e: seq<Event>)
  {
    exists i :: 0 <= i < |e| && e[i].ResetLine?
  }

  lemma {:induction false} DrivesResetAppend(a: seq<Event>, b: seq<Event>)
    ensures DrivesReset(a + b) <==> DrivesReset(a) || DrivesReset(b)
  {
    if DrivesReset(a + b) {
      var i :| 0 <= i < |a + b| && (a + b)[i].ResetLine?;
      if i >= |a| {
        assert b[i - |a|].ResetLine?;
      }
    }
    if DrivesReset(a) {
      var i :| 0 <= i < |a| && a[i].ResetLine?;
      assert (a + b)[i].ResetLine?;
    }
    if DrivesReset(b) {
      var i :| 0 <= i < |b| && b[i].ResetLine?;
      assert (a + b)[|a| + i].ResetLine?;
    }
  }

  /** A script only writes registers: it never touches the reset line. */
  lemma {:induction false} ScriptKeepsResetLine(steps: seq<Step>)
    ensures !DrivesReset(Script(steps))
  {
    if |steps| > 0 {
      var st := steps[0];
      ScriptKeepsResetLine(steps[1..]);
      assert !DrivesReset(Emit(st)) by {
        forall i | 0 <= i < |Emit(st)| ensures !Emit(st)[i].ResetLine? {
          if 0 < i <= |st.params| {
            assert Emit(st)[i] == Datas(st.params)[i - 1];
          }
        }
      }
      DrivesResetAppend(Emit(st), Script(steps[1..]));
    }
  }

  /** A script sends a command only when one of its steps names it. */
  lemma {:induction false} ScriptCommands(steps: seq<Step>, c: Command)
    requires forall k :: 0 <= k < |steps| ==> steps[k].cmd != c
    ensures NoCommand(Script(steps), c)
  {
    if |steps| > 0 {
      var st := steps[0];
      ScriptCommands(steps[1..], c);
      var e := Script(steps);
      forall i | 0 <= i < |e| ensures e[i] != Cmd(c) {
        if i < |Emit(st)| {
          if 0 < i <= |st.params| {
            assert Emit(st)[i] == Datas(st.params)[i - 1];
          }
        } else {
          assert e[i] == Script(steps[1..])[i - |Emit(st)|];
        }
      }
    }
  }

  /** The register writes never change the access-control byte. */
  lemma InitRegistersSkipMadctl()
    ensures NoCommand(InitRegisters(), MADCTL)
  {
    ScriptCommands(INIT_STEPS, MADCTL);
  }

  /** The reset pulse is sent exactly when the driver has a reset pin: the
      bring-up sequence drives the reset line if and only if `rst != 255`. */
  lemma ResetPulseOnlyWithPin(rst: u8)
    ensures DrivesReset(BeginTrace(rst)) <==> rst != NO_RESET_PIN
  {
    var rp, ir, md, tl := ResetPulse(rst), InitRegisters(), [Cmd(MADCTL), Data(Madctl(0, COLORSPC) as int)], InitTail();
    DrivesResetAppend(rp, ir);
    DrivesResetAppend(rp + ir, md);
    DrivesResetAppend(rp + ir + md, tl);
    ScriptKeepsResetLine(INIT_STEPS);
    assert !DrivesReset(md) by {
      forall i | 0 <= i < |md| ensures !md[i].ResetLine? { }
    }
    assert !DrivesReset(tl) by {
      forall i | 0 <= i < |tl| ensures !tl[i].ResetLine? { }
    }
    if rst != NO_RESET_PIN {
      assert rp[0].ResetLine?;
    }
  }

  /** A driver built with the constructor's default reset pin skips the pulse:
      its bring-up starts with the software reset. */
  lemma DefaultConstructorSkipsReset(cs: u8, dc: u8)
    ensures Begin(New(cs, dc)).trace[0] == Cmd(SWRESET)
  {
    BeginAppends(New(cs, dc));
    var rest := [Cmd(MADCTL), Data(Madctl(0, COLORSPC) as int)] + InitTail();
    AppendAssoc(ResetPulse(NO_RESET_PIN), InitRegisters(), rest);
    assert BeginTrace(NO_RESET_PIN) == InitRegisters() + rest;
    assert InitRegisters() == Emit(INIT_STEPS[0]) + Script(INIT_STEPS[1..]);
  }

  /** The state `begin` reaches does not depend on the state it starts from:
      two drivers with the same pins append the same sequence and end equal in
      every field but the trace, the cursor and the framebuffer. Calling
      `begin` again therefore reaches the same state again. */
  lemma BeginForgetsPriorState(s1: Driver, s2: Driver)
    requires (s1.cs, s1.rs, s1.rst) == (s2.cs, s2.rs, s2.rst)
    ensures Appended(s1, Begin(s1)) == Appended(s2, Begin(s2))
    ensures Begin(s1).(trace := [], cursorX := 0, cursorY := 0, fb := s2.fb) ==
            Begin(s2).(trace := [], cursorX := 0, cursorY := 0)
  {
    BeginIs(s1);
    BeginIs(s2);
  }

  /** Re-running `begin` appends the bring-up sequence once more and lands in
      the same state. */
  lemma BeginTwice(s: Driver)
    ensures Begin(Begin(s)).(trace := []) == Begin(s).(trace := [])
    ensures Begin(Begin(s)).trace == Begin(s).trace + BeginTrace(s.rst)
  {
    BeginIs(s);
    BeginIs(Begin(s));
  }
}
