/**
 The public interface of the driver as one step function over the handle, and
 the invariant every call keeps: the handle's rotation, logical size and
 access-control byte agree, and that byte is the one last sent to the chip.
 */
module Ops {
  import opened Settings
  import opened Bus
  import opened State
  import Orientation
  import Window
  import FrameStore
  import Modes
  import Init

  /** A call of one public member of the driver. */
  datatype Op =
    | Begin
    | SetRotation(m: u8)
    | SetAddrWindow(x0: u16, y0: u16, x1: u16, y1: u16)
    | StartPushData(x0: u16, y0: u16, x1: u16, y1: u16)
    | PushData(color: u16)
    | HomeAddress
    | SetCursor(x: i16, y: i16)
    | DrawPixel(x: i16, y: i16, color: u16)
    | Display(on: bool)
    | IdleMode(on: bool)
    | InvertDisplay(on: bool)
    | SleepMode(mode: bool)
    | DefineScrollArea(tfa: u16, bfa: u16)
    | Scroll(adrs: u16)
    | WriteFramebuffer
    | WriteScreen16(bitmap: seq<u8>, size: nat)
    | WriteScreen24(pixels: seq<bv32>, count: u16)

  /** The caller's obligation: a bitmap holds at least `size` entries. */
  predicate Allowed(op: Op)
  {
    match op
    case WriteScreen16(bitmap, size) => size <= |bitmap|
    case WriteScreen24(pixels, count) => count <= |pixels|
    case _ => true
  }

  /** The set-up and addressing calls. */
  predicate IsSetup(op: Op)
  {
    op.Begin? || op.SetRotation? || op.SetAddrWindow? || op.StartPushData? || op.HomeAddress? || op.SetCursor?
  }

  /** The calls that write pixel data. */
  predicate IsPixels(op: Op)
  {
    op.PushData? || op.DrawPixel? || op.WriteFramebuffer? || op.WriteScreen16? || op.WriteScreen24?
  }

  /** The effect of one call. */
  function Apply(s: Driver, op: Op): Driver
    requires Allowed(op)
  {
    if IsSetup(op) then ApplySetup(s, op)
    else if IsPixels(op) then ApplyPixels(s, op)
    else ApplyModes(s, op)
  }

  /** The effect of a set-up or addressing call. */
  function ApplySetup(s: Driver, op: Op): Driver
    requires IsSetup(op)
  {
    match op
    case Begin => Init.Begin(s)
    case SetRotation(m) => Orientation.SetRotation(s, m)
    case SetAddrWindow(x0, y0, x1, y1) => Window.SetAddrWindow(s, x0, y0, x1, y1)
    case StartPushData(x0, y0, x1, y1) => Window.StartPushData(s, x0, y0, x1, y1)
    case HomeAddress => Window.HomeAddress(s)
    case SetCursor(x, y) => Window.SetCursor(s, x, y)
  }

  /** The effect of a pixel call. */
  function ApplyPixels(s: Driver, op: Op): Driver
    requires IsPixels(op) && Allowed(op)
  {
    match op
    case PushData(color) => Window.PushData(s, color)
    case DrawPixel(x, y, color) => FrameStore.DrawPixel(s, x, y, color)
    case WriteFramebuffer => FrameStore.WriteFramebuffer(s)
    case WriteScreen16(bitmap, size) => FrameStore.WriteScreen16(s, bitmap, size)
    case WriteScreen24(pixels, count) => FrameStore.WriteScreen24(s, pixels, count)
  }

  /** The effect of a power, mode or scroll call. */
  function ApplyModes(s: Driver, op: Op): Driver
    requires !IsSetup(op) && !IsPixels(op)
  {
    match op
    case Display(on) => Modes.Display(s, on)
    case IdleMode(on) => Modes.IdleMode(s, on)
    case InvertDisplay(on) => Modes.InvertDisplay(s, on)
    case SleepMode(mode) => Modes.SleepMode(s, mode)
    case DefineScrollArea(tfa, bfa) => Modes.DefineScrollAreaAsWritten(s, tfa, bfa)
    case Scroll(adrs) => Modes.Scroll(s, adrs)
  }

  /** Every call of the sequence meets its obligation. */
  predicate AllAllowed(ops: seq<Op>)
  {
    |ops| == 0 || (Allowed(ops[0]) && AllAllowed(ops[1..]))
  }

  /** The effect of a sequence of calls, in order. */
  function Run(s: Driver, ops: seq<Op>): Driver
    requires AllAllowed(ops)
    decreases |ops|
  {
    if |ops| == 0 then s else Run(Apply(s, ops[0]), ops[1..])
  }

  /** The handle describes the chip: it is consistent, and its access-control
      byte is the one in force on the chip. */
  predicate Invariant(s: Driver)
  {
    Consistent(s) && MadctlSent(s)
  }

  /** `r` continues the trace of `s`. */
  predicate Extends(s: Driver, r: Driver)
  {
    |s.trace| <= |r.trace| && r.trace[..|s.trace|] == s.trace
  }

  lemma ExtendsTrans(a: Driver, b: Driver, c: Driver)
    requires Extends(a, b) && Extends(b, c)
    ensures Extends(a, c)
  {
    assert c.trace[..|a.trace|] == c.trace[..|b.trace|][..|a.trace|];
  }

  /** `r` keeps the rotation, size and colour settings of `s`. */
  predicate SameSetup(s: Driver, r: Driver)
  {
    && r.rotation == s.rotation && r.width == s.width && r.height == s.height
    && r.madctl == s.madctl && r.colorspace == s.colorspace
  }

  lemma NoCommandAppend(a: seq<Event>, b: seq<Event>, c: Command)
    ensures NoCommand(a + b, c) <==> NoCommand(a, c) && NoCommand(b, c)
  {
    if NoCommand(a, c) && NoCommand(b, c) {
      forall i | 0 <= i < |a + b| ensures (a + b)[i] != Cmd(c) {
        if i >= |a| {
          assert (a + b)[i] == b[i - |a|];
        }
      }
    }
    if NoCommand(a + b, c) {
      forall i | 0 <= i < |a| ensures a[i] != Cmd(c) {
        assert (a + b)[i] == a[i];
      }
      forall i | 0 <= i < |b| ensures b[i] != Cmd(c) {
        assert (a + b)[|a| + i] == b[i];
      }
    }
  }

  /** A window sends no `MADCTL` command. */
  lemma WindowSkipsMadctl(c0: u16, c1: u16, p0: u16, p1: u16)
    ensures NoCommand(Window.WindowEvents(c0, c1, p0, p1), MADCTL)
  {
    var e := Window.WindowEvents(c0, c1, p0, p1);
    forall i | 0 <= i < |e| ensures e[i] != Cmd(MADCTL) {
      if i < 5 {
        assert i == 0 || e[i].Data?;
      } else if i < 10 {
        assert i == 5 || e[i].Data?;
      }
    }
  }

  lemma LogicalWindowSkipsMadctl(rot: int, x0: u16, y0: u16, x1: u16, y1: u16)
    ensures NoCommand(Window.LogicalWindow(rot, x0, y0, x1, y1), MADCTL)
  {
    WindowSkipsMadctl(Window.ColumnAddress(rot, x0), Window.ColumnAddress(rot, x1),
                      Window.PageAddress(rot, y0), Window.PageAddress(rot, y1));
  }

  lemma HomeSkipsMadctl(rot: int)
    ensures NoCommand(Window.HomeEvents(rot), MADCTL)
  {
    LogicalWindowSkipsMadctl(rot, 0, 0, GRAMWIDTH, GRAMHEIGH);
  }

  /** A step that leaves the setup alone and appends events without a `MADCTL`
      command keeps the invariant: the last byte sent to `MADCTL` is still the
      handle's. */
  lemma {:induction false} KeepsInvariant(s: Driver, r: Driver, e: seq<Event>)
    requires Invariant(s) && SameSetup(s, r)
    requires r.trace == s.trace + e && NoCommand(e, MADCTL)
    ensures Invariant(r) && Extends(s, r)
  {
    LastMadctlAppend(s.trace, e);
    if |e| > 0 {
      assert r.trace[|r.trace| - 1] == e[|e| - 1];
    }
  }

  /** The same, for a step stated by what it appended. */
  lemma KeepsInvariantAppended(s: Driver, r: Driver)
    requires Invariant(s) && SameSetup(s, r) && Extends(s, r)
    requires NoCommand(Appended(s, r), MADCTL)
    ensures Invariant(r)
  {
    assert r.trace == s.trace + Appended(s, r);
    KeepsInvariant(s, r, Appended(s, r));
  }

  /** `begin` establishes the invariant from any state. */
  lemma BeginEstablishes(s: Driver)
    ensures Invariant(Init.Begin(s))
  {
    Init.BeginReady(s);
    Init.BeginSplit(s);
    var t := Init.BeforeTail(s);
    Orientation.SetRotationConsistent(t, 0);
    assert NoCommand(Init.InitTail(), MADCTL);
    KeepsInvariant(t, Init.Begin(s), Init.InitTail());
  }

  lemma HomeKeeps(s: Driver)
    requires Invariant(s)
    ensures Invariant(Window.HomeAddress(s)) && Extends(s, Window.HomeAddress(s))
  {
    HomeSkipsMadctl(s.rotation);
    KeepsInvariant(s, Window.HomeAddress(s), Window.HomeEvents(s.rotation));
  }

  lemma WriteFramebufferKeeps(s: Driver)
    requires Invariant(s)
    ensures Invariant(FrameStore.WriteFramebuffer(s)) && Extends(s, FrameStore.WriteFramebuffer(s))
  {
    var h := Window.HomeEvents(s.rotation);
    var b := [Cmd(RAMWR), Bulk(s.fb)];
    HomeSkipsMadctl(s.rotation);
    assert NoCommand(b, MADCTL);
    NoCommandAppend(h, b, MADCTL);
    NoCommandAppend(h + b, h, MADCTL);
    AppendAssoc(s.trace, h, b);
    AppendAssoc(s.trace, h + b, h);
    KeepsInvariant(s, FrameStore.WriteFramebuffer(s), h + b + h);
  }

  lemma WriteScreen16Keeps(s: Driver, bitmap: seq<u8>, size: nat)
    requires Invariant(s) && size <= |bitmap|
    ensures Invariant(FrameStore.WriteScreen16(s, bitmap, size))
    ensures Extends(s, FrameStore.WriteScreen16(s, bitmap, size))
  {
    var h := Window.HomeEvents(s.rotation);
    var b := [Cmd(RAMWR), Bulk(bitmap[..size])];
    HomeSkipsMadctl(s.rotation);
    assert NoCommand(b, MADCTL);
    NoCommandAppend(b, h, MADCTL);
    AppendAssoc(s.trace, b, h);
    KeepsInvariant(s, FrameStore.WriteScreen16(s, bitmap, size), b + h);
  }

  lemma WriteScreen24Keeps(s: Driver, pixels: seq<bv32>, count: u16)
    requires Invariant(s) && count <= |pixels|
    ensures Invariant(FrameStore.WriteScreen24(s, pixels, count))
    ensures Extends(s, FrameStore.WriteScreen24(s, pixels, count))
  {
    var words := FrameStore.Stream24(pixels[..count]);
    var h := Window.HomeEvents(s.rotation);
    FrameStore.WriteScreen24Shape(s, pixels, count);
    FrameStore.Stream24Words(pixels[..count]);
    HomeSkipsMadctl(s.rotation);
    assert NoCommand(words, MADCTL);
    NoCommandAppend([Cmd(RAMWR)], words, MADCTL);
    NoCommandAppend([Cmd(RAMWR)] + words, h, MADCTL);
    AppendAssoc(s.trace, [Cmd(RAMWR)], words);
    AppendAssoc(s.trace, [Cmd(RAMWR)] + words, h);
    KeepsInvariant(s, FrameStore.WriteScreen24(s, pixels, count), [Cmd(RAMWR)] + words + h);
  }

  /** The window-opening steps keep the invariant. */
  lemma WindowKeeps(s: Driver, x0: u16, y0: u16, x1: u16, y1: u16)
    requires Invariant(s)
    ensures Invariant(Window.SetAddrWindow(s, x0, y0, x1, y1))
    ensures Extends(s, Window.SetAddrWindow(s, x0, y0, x1, y1))
  {
    LogicalWindowSkipsMadctl(s.rotation, x0, y0, x1, y1);
    KeepsInvariant(s, Window.SetAddrWindow(s, x0, y0, x1, y1), Window.LogicalWindow(s.rotation, x0, y0, x1, y1));
  }

  lemma SetCursorKeeps(s: Driver, x: i16, y: i16)
    requires Invariant(s)
    ensures Invariant(Window.SetCursor(s, x, y)) && Extends(s, Window.SetCursor(s, x, y))
  {
    if !Window.BoundaryCheck(s, x, y) {
      LogicalWindowSkipsMadctl(s.rotation, 0, 0, ToU16(x), ToU16(y));
      KeepsInvariant(s, Window.SetCursor(s, x, y), Window.LogicalWindow(s.rotation, 0, 0, ToU16(x), ToU16(y)));
    }
  }

  lemma DisplayKeeps(s: Driver, on: bool)
    requires Invariant(s)
    ensures Invariant(Modes.Display(s, on)) && Extends(s, Modes.Display(s, on))
  {
    Modes.SwitchesKeepNoState(s, on);
    KeepsInvariant(s, Modes.Display(s, on), [Cmd(if on then DISPON else DISPOFF)]);
  }

  lemma IdleModeKeeps(s: Driver, on: bool)
    requires Invariant(s)
    ensures Invariant(Modes.IdleMode(s, on)) && Extends(s, Modes.IdleMode(s, on))
  {
    Modes.SwitchesKeepNoState(s, on);
    KeepsInvariant(s, Modes.IdleMode(s, on), [Cmd(if on then IDLEON else IDLEOF)]);
  }

  lemma InvertDisplayKeeps(s: Driver, on: bool)
    requires Invariant(s)
    ensures Invariant(Modes.InvertDisplay(s, on)) && Extends(s, Modes.InvertDisplay(s, on))
  {
    Modes.SwitchesKeepNoState(s, on);
    KeepsInvariant(s, Modes.InvertDisplay(s, on), [Cmd(if on then DINVON else DINVOF)]);
  }

  lemma SleepModeKeeps(s: Driver, mode: bool)
    requires Invariant(s)
    ensures Invariant(Modes.SleepMode(s, mode)) && Extends(s, Modes.SleepMode(s, mode))
  {
    if s.sleep != Modes.SleepFlag(mode) {
      var e := if mode then [Cmd(SLPIN), Delay(5)] else [Cmd(SLPOUT), Delay(120)];
      KeepsInvariant(s, Modes.SleepMode(s, mode), e);
    }
  }

  /** `defineScrollArea` as the driver computes it keeps the invariant. */
  lemma DefineScrollAreaKeeps(s: Driver, tfa: u16, bfa: u16)
    requires Invariant(s)
    ensures Invariant(Modes.DefineScrollAreaAsWritten(s, tfa, bfa))
    ensures Extends(s, Modes.DefineScrollAreaAsWritten(s, tfa, bfa))
  {
    var r := Modes.DefineScrollAreaAsWritten(s, tfa, bfa);
    if |r.trace| > |s.trace| {
      KeepsInvariantAppended(s, r);
    }
  }

  /** So does the corrected `defineScrollArea`. */
  lemma CorrectedScrollAreaKeeps(s: Driver, tfa: u16, bfa: u16)
    requires Invariant(s)
    ensures Invariant(Modes.DefineScrollArea(s, tfa, bfa)) && Extends(s, Modes.DefineScrollArea(s, tfa, bfa))
  {
    var r := Modes.DefineScrollArea(s, tfa, bfa);
    if |r.trace| > |s.trace| {
      KeepsInvariantAppended(s, r);
    }
  }

  lemma ScrollKeeps(s: Driver, adrs: u16)
    requires Invariant(s)
    ensures Invariant(Modes.Scroll(s, adrs)) && Extends(s, Modes.Scroll(s, adrs))
  {
    if adrs <= GRAMHEIGH {
      KeepsInvariantAppended(s, Modes.Scroll(s, adrs));
    }
  }

  lemma PushDataKeeps(s: Driver, color: u16)
    requires Invariant(s)
    ensures Invariant(Window.PushData(s, color)) && Extends(s, Window.PushData(s, color))
  {
    KeepsInvariantAppended(s, Window.PushData(s, color));
  }

  /** The set-up and addressing calls keep the invariant. */
  lemma SetupKeeps(s: Driver, op: Op)
    requires Invariant(s)
    requires IsSetup(op)
    ensures Invariant(ApplySetup(s, op)) && Extends(s, ApplySetup(s, op))
  {
    match op
    case Begin =>
      BeginEstablishes(s);
      Init.BeginAppends(s);
    case SetRotation(m) =>
      Orientation.SetRotationConsistent(s, m);
    case SetAddrWindow(x0, y0, x1, y1) =>
      WindowKeeps(s, x0, y0, x1, y1);
    case StartPushData(x0, y0, x1, y1) =>
      WindowKeeps(s, x0, y0, x1, y1);
      assert Window.StartPushData(s, x0, y0, x1, y1) == Window.SetAddrWindow(s, x0, y0, x1, y1);
    case HomeAddress =>
      HomeKeeps(s);
    case SetCursor(x, y) =>
      SetCursorKeeps(s, x, y);
  }

  /** The pixel calls keep the invariant. */
  lemma PixelsKeep(s: Driver, op: Op)
    requires Invariant(s) && Allowed(op)
    requires IsPixels(op)
    ensures Invariant(ApplyPixels(s, op)) && Extends(s, ApplyPixels(s, op))
  {
    match op
    case PushData(color) =>
      PushDataKeeps(s, color);
    case DrawPixel(x, y, color) =>
    case WriteFramebuffer =>
      WriteFramebufferKeeps(s);
    case WriteScreen16(bitmap, size) =>
      WriteScreen16Keeps(s, bitmap, size);
    case WriteScreen24(pixels, count) =>
      WriteScreen24Keeps(s, pixels, count);
  }

  /** The power, mode and scroll calls keep the invariant. */
  lemma ModesKeep(s: Driver, op: Op)
    requires Invariant(s)
    requires !IsSetup(op) && !IsPixels(op)
    ensures Invariant(ApplyModes(s, op)) && Extends(s, ApplyModes(s, op))
  {
    match op
    case Display(on) =>
      DisplayKeeps(s, on);
    case IdleMode(on) =>
      IdleModeKeeps(s, on);
    case InvertDisplay(on) =>
      InvertDisplayKeeps(s, on);
    case SleepMode(mode) =>
      SleepModeKeeps(s, mode);
    case DefineScrollArea(tfa, bfa) =>
      DefineScrollAreaKeeps(s, tfa, bfa);
    case Scroll(adrs) =>
      ScrollKeeps(s, adrs);
  }

  /** Every call keeps the invariant and only ever appends to the trace. */
  lemma ApplyKeeps(s: Driver, op: Op)
    requires Invariant(s) && Allowed(op)
    ensures Invariant(Apply(s, op)) && Extends(s, Apply(s, op))
  {
    if IsSetup(op) {
      SetupKeeps(s, op);
    } else if IsPixels(op) {
      PixelsKeep(s, op);
    } else {
      ModesKeep(s, op);
    }
  }

  /** Any sequence of calls keeps the invariant and only appends to the trace. */
  lemma {:induction false} RunKeeps(s: Driver, ops: seq<Op>)
    requires Invariant(s) && AllAllowed(ops)
    ensures Invariant(Run(s, ops)) && Extends(s, Run(s, ops))
    decreases |ops|
  {
    if |ops| > 0 {
      var t := Apply(s, ops[0]);
      ApplyKeeps(s, ops[0]);
      RunKeeps(t, ops[1..]);
      ExtendsTrans(s, t, Run(t, ops[1..]));
    }
  }

  /** From construction and `begin` on, whatever the application calls, the
      handle's rotation, size and access-control byte agree, and that byte is
      the one in force on the chip. */
  lemma {:induction false} AfterBegin(cs: u8, dc: u8, rst: u8, ops: seq<Op>)
    requires AllAllowed(ops)
    ensures Invariant(Run(Init.Begin(New(cs, dc, rst)), ops))
  {
    BeginEstablishes(New(cs, dc, rst));
    RunKeeps(Init.Begin(New(cs, dc, rst)), ops);
  }
}
