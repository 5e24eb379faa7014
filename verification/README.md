# ILI9163C TFT driver: a verified model of the driver logic

This project models the driver logic of the ILI9163C 128x128 TFT display
driver (`TFT_ILI9163C.cpp` and `TFT_ILI9163C.h`) in Dafny. The driver object is
an immutable record, `State.Driver`. It holds the pins, the rotation, the
logical width and height, the text cursor, the memory-access-control byte
(`_Mactrl_Data`), the colour order (`_colorspaceData`), the sleep flag, the
error code, the 32768-byte framebuffer `fbuff`, and the trace of every bus
event produced so far. Each public member of the driver is a pure function
from a handle to a new handle. The function appends the events the member
puts on the bus:

- `Cmd(c)` is a command byte (`writecommand`);
- `Data(b)` is a data byte (`writedata`);
- `Bulk(bytes)` is a block transfer;
- `Delay(ms)` is a blocking wait;
- `ResetLine(level)` is the reset pin;
- `FillScreen(color)` is the call into the drawing base class.

Register codes are symbolic, because the register header is not part of this
model. The panel constants `_TFTWIDTH`, `_TFTHEIGHT`, `_GRAMWIDTH`,
`_GRAMHEIGH`, `__OFFSET` and `__COLORSPC` come from a settings header that is
not part of this model either. They are declared without a value in module
`Settings`, so every result holds for every choice of them that fits their C
types. The sides of the panel are taken to be at most 128, the size the
framebuffer is laid out for.

The C integer behaviour is written out:

- Sums passed to `writedata16` wrap modulo 2^16 (`ToU16`).
- The scroll height of `defineScrollArea` is narrowed to `int16_t` (`ToI16`).
- `setRotation` takes `m % 4` of a `uint8_t`.
- `setCursor` passes negative `int16_t` coordinates to a `uint16_t` parameter.

Colour packing uses bit-vectors. The access-control byte is a `bv8`, which
also unpacks into named flags (`AccessControl.Flags`). This lets the rotation
table and the colour-order update be stated by what each bit means.

Modules, one per component of the driver:

- `Settings`: C integer types, panel constants, integer conversions.
- `Bus`: commands, events, `writedata16`, the last `MADCTL` byte of a trace.
- `Color`: `Color565`, `Color24To565`, `BLACK`, `WHITE`.
- `AccessControl`: the `MADCTL` byte, `colorSpace`, the rotation table.
- `State`: the driver handle, the constructor, the consistency predicates.
- `Orientation`: `setRotation`.
- `Window`: `setAddrWindow`, `setAddr`, `startPushData`, `pushData`,
  `homeAddress`, `boundaryCheck`, `setCursor`.
- `FrameStore`: `drawPixel`, `writeFramebuffer`, `writeScreen16`,
  `writeScreen24`.
- `Modes`: `display`, `idleMode`, `invertDisplay`, `sleepMode`,
  `defineScrollArea`, `scroll`.
- `Init`: `begin`, `chipInit`, `errorCode`.
- `Ops`: the whole public interface as one step function, with
  `defineScrollArea` as the driver computes it. It carries the
  invariant that the handle's rotation, size and access-control byte agree,
  and that this byte is the one last sent to the chip.

## Model

| member | source | states |
|---|---|---|
| Settings.ToU16 | TFT_ILI9163C.cpp:247 | A `uint16_t` conversion is congruent to its argument modulo 2^16 and is the identity on the `uint16_t` range. |
| Settings.ToI16 | TFT_ILI9163C.cpp:248 | An `int16_t` narrowing is congruent to its argument modulo 2^16 and is the identity on the `int16_t` range. |
| Bus.WriteData16 | TFT_ILI9163C.cpp:43-49 | `writedata16` is two data transfers whose high-byte-first word is the argument. |
| Bus.LastMadctlAppend | TFT_ILI9163C.cpp:381-383 | Appending events without a `MADCTL` command leaves the byte last sent with `MADCTL` in force. |
| Color.Color24To565 | TFT_ILI9163C.h:161 | The result fits in 16 bits. Its red, green and blue fields are the 8-bit channels of the argument divided by 8, 4 and 8. |
| Color.Color565 | TFT_ILI9163C.h:159 | Masking with 0xF8/0xFC/0xF8 and shifting gives the same word as `Color24To565` of the 24-bit colour built from the three channels. |
| Color.Color24IgnoresHighByte | TFT_ILI9163C.h:161 | Only the low 24 bits of the argument matter. |
| Color.Color24Orange | TFT_ILI9163C.h:161 | 0xFF8000 packs to 0xFC00: red 31, green 32, blue 0. |
| Color.Color565BlackWhite | TFT_ILI9163C.h:122-123 | All-zero channels pack to `BLACK` and all-0xFF channels pack to `WHITE`. |
| AccessControl.Unpack | TFT_ILI9163C.cpp:79-97 | Every access-control byte is recovered by packing its named flags (MY, MX, MV, ML, RGB, MH, D1, D0). |
| AccessControl.UnpackPack | TFT_ILI9163C.cpp:79-97 | Packing then unpacking flags gives them back, so byte and flags are in one-to-one correspondence. |
| AccessControl.ColorSpace | TFT_ILI9163C.cpp:204-210 | `colorSpace` sets the colour-order flag exactly when `cspace >= 1` and keeps the other seven flags. |
| AccessControl.RotationTable | TFT_ILI9163C.cpp:357-380 | The table bytes 0x08/0x68/0xC8/0xA8 mean: native scan; axis exchange with column mirror; both mirrors; axis exchange with row mirror. All four select BGR order. |
| AccessControl.Madctl | TFT_ILI9163C.cpp:357-384 | The byte for a rotation and colour setting is the rotation's scan mode with the colour-order flag replaced. |
| AccessControl.MadctlDeterminesRotation | TFT_ILI9163C.cpp:357-380 | Different rotations give different bytes under any colour setting. |
| State.New | TFT_ILI9163C.cpp:20-25 | The constructor records the three pins, sends nothing, puts the cursor at the origin, and starts at rotation 0 with the matching logical size. |
| Orientation.SetRotation | TFT_ILI9163C.cpp:357-384 | The rotation becomes `m % 4` and the size follows it (sides swapped only at rotation 1). The byte has that rotation's scan flags with the colour-order flag from `_colorspaceData`. Exactly `[MADCTL, byte]` is sent and nothing else changes. |
| Orientation.SetRotationModulo4 | TFT_ILI9163C.cpp:358 | `m` and `(m + 4) mod 256` give the same handle and the same bytes. |
| Orientation.SetRotationConsistent | TFT_ILI9163C.cpp:357-384 | After `setRotation` the handle is consistent, and its byte is the one last sent with `MADCTL`. |
| Window.WindowEvents | TFT_ILI9163C.cpp:336-355 | The events open a memory window: CLMADRS with the two column bounds as words, PGEADRS with the two page bounds as words, then RAMWR. |
| Window.LogicalWindow | TFT_ILI9163C.cpp:336-355 | The events open the memory window of a logical rectangle: the offset (mod 2^16) is added to both column bounds only at rotation 1 and to both page bounds only at rotation 0. |
| Window.HomeEvents | TFT_ILI9163C.cpp:303-305 | The events open the window `(0, 0)..(_GRAMWIDTH, _GRAMHEIGH)` under the given rotation. |
| Window.SetAddrWindow | TFT_ILI9163C.cpp:336-355 | Exactly the window of the logical rectangle under the current rotation is opened, as `LogicalWindow` describes it. No field changes. |
| Window.NoOffsetAtRotations2And3 | TFT_ILI9163C.cpp:338-350 | At rotations 2 and 3 the window is sent exactly as requested. |
| Window.SetAddr | TFT_ILI9163C.cpp:332-334 | `setAddr` opens the requested logical window under the current rotation, as `LogicalWindow` describes it, and changes no field. |
| Window.StartPushData | TFT_ILI9163C.cpp:264-266 | `startPushData` opens the requested logical window and changes no field. |
| Window.PushData | TFT_ILI9163C.cpp:268-270 | `pushData` sends exactly one data word, equal to the colour. |
| Window.HomeAddress | TFT_ILI9163C.cpp:303-305 | `homeAddress` opens the window `(0, 0)..(_GRAMWIDTH, _GRAMHEIGH)` under the current rotation. |
| Window.SetCursor | TFT_ILI9163C.cpp:307-312 | Nothing happens when `x >= _width` or `y >= _height`. Otherwise the window `(0, 0)..(x, y)` is opened with the coordinates as `uint16_t`, and the cursor moves to `(x, y)`. |
| Window.SetCursorSpansFromOrigin | TFT_ILI9163C.cpp:307-312 | For a point with non-negative coordinates that passes the boundary check, at rotations 2 and 3, the window sent spans columns `0..x` and rows `0..y`, not the one pixel. |
| Window.SetCursorAcceptsNegative | TFT_ILI9163C.cpp:327-330 | `boundaryCheck` lets a negative coordinate through: `setCursor(x, 0)` with `x < 0` moves the cursor to `x` and, at rotations 2 and 3, addresses column `x + 65536` (0xFFFF for -1). |
| FrameStore.PixelIndexInjective | TFT_ILI9163C.cpp:320-321 | Both byte indices of every grid pixel are below `MEMSIZE`, and distinct pixels own disjoint byte pairs. |
| FrameStore.DrawPixel | TFT_ILI9163C.cpp:314-325 | Off screen (negative or beyond the logical size) nothing changes. On screen exactly the two bytes at `2*(128*y+x)` change, to the colour's high and low byte. Nothing is sent. |
| FrameStore.DrawThenRead | TFT_ILI9163C.cpp:320-321 | Reading a drawn pixel back gives its colour. |
| FrameStore.DrawKeepsOtherPixels | TFT_ILI9163C.cpp:314-325 | Drawing one pixel leaves every other grid pixel as it was. |
| FrameStore.DrawPixelsCommute | TFT_ILI9163C.cpp:314-325 | Drawing two different pixels in either order gives the same handle. |
| FrameStore.WriteScreen16 | TFT_ILI9163C.cpp:294-301 | RAMWR, the first `size` bytes in one bulk transfer, then the full-extent window. No field changes. |
| FrameStore.WriteFramebuffer | TFT_ILI9163C.cpp:284-287 | The full-extent window, RAMWR, the whole framebuffer in one transfer, then the full-extent window again. |
| FrameStore.FlushCarriesPixel | TFT_ILI9163C.cpp:284-287 | A pixel drawn before a flush is carried by the bulk transfer at its offset. |
| FrameStore.WordStream | TFT_ILI9163C.cpp:275-279 | Words sent one `writedata16` after another are data transfers only, two per word, with word `i` at transfers `2i` and `2i + 1`. |
| FrameStore.Stream24Words | TFT_ILI9163C.cpp:275-279 | The loop body's output is one data word per entry, equal to `Color24To565` of that entry, in order. It contains no command. |
| FrameStore.WriteScreen24Shape | TFT_ILI9163C.cpp:272-281 | `writeScreen24` sends RAMWR, `size` converted colour words, then the full-extent window. No field changes. |
| FrameStore.WriteScreen24Loop | TFT_ILI9163C.cpp:272-281 | The loop with its 16-bit counter produces exactly the trace `WriteScreen24` describes. |
| Modes.SwitchesKeepNoState | TFT_ILI9163C.cpp:212-230 | `display`, `idleMode` and `invertDisplay` each send the one command their argument selects and change nothing else. A repeated call sends it again. |
| Modes.SleepMode | TFT_ILI9163C.cpp:232-244 | The sleep flag ends at the requested state. If it was already there, nothing changes. Otherwise `[SLPIN, 5 ms]` or `[SLPOUT, 120 ms]` is sent and only the flag changes. |
| Modes.SleepModeIdempotent | TFT_ILI9163C.cpp:232-244 | Requesting the same sleep state twice is the same as requesting it once. |
| Modes.Scroll | TFT_ILI9163C.cpp:257-262 | `[VSSTADRS, adrs + __OFFSET mod 2^16]` is sent exactly when `adrs <= _GRAMHEIGH`. Otherwise nothing is sent. |
| Modes.DefineScrollAreaAsWritten | TFT_ILI9163C.cpp:246-255 | As the driver computes it: with top = `tfa + __OFFSET` mod 2^16 and the height narrowed to `int16_t`, `[VSCLLDEF, top, height, bfa]` is sent when the narrowed height is non-negative. Otherwise nothing is sent. |
| Modes.ScrollGuardBypassed | TFT_ILI9163C.cpp:246-255 | With `tfa = 0` and `bfa = _GRAMHEIGH - __OFFSET + 32769` the true height is negative but narrows to 32767. A descriptor whose parts do not add up to `_GRAMHEIGH` is sent, while the corrected version sends nothing. |
| Modes.DefineScrollArea | TFT_ILI9163C.cpp:246-255 | Corrected: the descriptor is sent exactly when `tfa + __OFFSET + bfa <= _GRAMHEIGH`. Its three words then add up to `_GRAMHEIGH`. |
| Modes.ScrollAreaAgreesWithoutWrap | TFT_ILI9163C.cpp:246-255 | Where no 16-bit wrap-around occurs, the driver's computation and the corrected one agree. |
| Init.WordIsTwoBytes | TFT_ILI9163C.cpp:170-181 | A 16-bit parameter of the init script is the same pair of data bytes `writedata16` sends. |
| Init.InitWindowIsFullExtent | TFT_ILI9163C.cpp:176-182 | The column and page writes of `chipInit` are exactly the events `setAddrWindow` sends for the window `(0, 0)..(_GRAMWIDTH, _GRAMHEIGH)` without an offset, up to its memory-write command. |
| Init.ScriptKeepsResetLine | TFT_ILI9163C.cpp:109-197 | A register-write script never drives the reset line. |
| Init.ScriptCommands | TFT_ILI9163C.cpp:109-186 | A script sends a command only if one of its steps names it. |
| Init.InitRegistersSkipMadctl | TFT_ILI9163C.cpp:109-186 | The register writes of `chipInit` before `setRotation(0)` never write `MADCTL`. |
| Init.BeginReady | TFT_ILI9163C.cpp:56-102 | `begin` ends with sleep 0, `errorCode() == 0`, rotation 0, the native size, the default colour order and a consistent handle. Pins and cursor are untouched. |
| Init.BeginAppends | TFT_ILI9163C.cpp:56-197 | `begin` appends the fixed bring-up sequence: reset pulse (if any), the `chipInit` register writes, `[MADCTL, byte]`, display on, memory write, clear to black. |
| Init.BeginIs | TFT_ILI9163C.cpp:56-197 | The complete resulting handle of `begin`, field by field. |
| Init.ResetPulseOnlyWithPin | TFT_ILI9163C.cpp:69-77 | The bring-up sequence drives the reset line exactly when the reset pin is not 255. |
| Init.DefaultConstructorSkipsReset | TFT_ILI9163C.h:134 | With the constructor's default reset pin, `begin` skips the pulse and starts with the software reset. |
| Init.BeginForgetsPriorState | TFT_ILI9163C.cpp:56-102 | Two drivers with the same pins append the same sequence. They end equal in every field except the trace, the cursor and the framebuffer. |
| Init.BeginTwice | TFT_ILI9163C.cpp:56-102 | A second `begin` appends the sequence once more and reaches the same state. |
| Ops.KeepsInvariant | TFT_ILI9163C.cpp:357-384 | A step that keeps rotation, size and colour settings and sends no `MADCTL` keeps the chip's access-control byte equal to the handle's. |
| Ops.BeginEstablishes | TFT_ILI9163C.cpp:56-197 | After `begin`, from any state, the handle is consistent and its byte is the one in force on the chip. |
| Ops.HomeKeeps | TFT_ILI9163C.cpp:303-305 | `homeAddress` keeps that invariant and only appends. |
| Ops.WindowKeeps | TFT_ILI9163C.cpp:336-355 | `setAddrWindow` keeps that invariant and only appends. |
| Ops.SetCursorKeeps | TFT_ILI9163C.cpp:307-312 | `setCursor` keeps that invariant and only appends. |
| Ops.PushDataKeeps | TFT_ILI9163C.cpp:268-270 | `pushData` keeps that invariant and only appends. |
| Ops.WriteFramebufferKeeps | TFT_ILI9163C.cpp:284-287 | `writeFramebuffer` keeps that invariant and only appends. |
| Ops.WriteScreen16Keeps | TFT_ILI9163C.cpp:294-301 | `writeScreen16` keeps that invariant and only appends. |
| Ops.WriteScreen24Keeps | TFT_ILI9163C.cpp:272-281 | `writeScreen24` keeps that invariant and only appends. |
| Ops.DisplayKeeps | TFT_ILI9163C.cpp:216-222 | `display` keeps that invariant and only appends. |
| Ops.IdleModeKeeps | TFT_ILI9163C.cpp:224-230 | `idleMode` keeps that invariant and only appends. |
| Ops.InvertDisplayKeeps | TFT_ILI9163C.cpp:212-214 | `invertDisplay` keeps that invariant and only appends. |
| Ops.SleepModeKeeps | TFT_ILI9163C.cpp:232-244 | `sleepMode` keeps that invariant and only appends. |
| Ops.DefineScrollAreaKeeps | TFT_ILI9163C.cpp:246-255 | `defineScrollArea`, as the driver computes it (with the `int16_t` narrowing), keeps that invariant and only appends. |
| Ops.CorrectedScrollAreaKeeps | TFT_ILI9163C.cpp:246-255 | The corrected `defineScrollArea` keeps that invariant and only appends as well. |
| Ops.ScrollKeeps | TFT_ILI9163C.cpp:257-262 | `scroll` keeps that invariant and only appends. |
| Ops.ApplyKeeps | TFT_ILI9163C.cpp:204-384 | Every public member keeps the invariant and only ever appends to the trace. |
| Ops.RunKeeps | TFT_ILI9163C.cpp:204-384 | Any sequence of calls keeps the invariant and only appends. |
| Ops.AfterBegin | TFT_ILI9163C.cpp:56-384 | From construction and `begin` on, whatever the application calls, the handle's rotation, size and access-control byte agree, and that byte is the one in force on the chip. |

## Left out

- SPI and GPIO plumbing (`SPI.begin`, `setHwCs`, `setFrequency`, `SPISettings`, `pinMode`, the chip-select and data/command levels around each transfer): foreign hardware calls. Only the bytes they carry appear, as trace events.
- The duration of `delay()`: only its argument is recorded, as a `Delay` event.
- `fillScreen(BLACK)` at the end of `chipInit` dispatches into the drawing base class, which is not part of this model. It is the opaque event `FillScreen`, and its effect on the framebuffer is not modelled.
- Init.BeginIs: gives the framebuffer after `begin` as the one before it. In the driver, the base-class `fillScreen(BLACK)` presumably clears the on-screen pixels, but that code is not part of this model.
- The electrical meaning of the vendor-calibrated register values in `chipInit`: they are recorded as data bytes only.
- The commented-out gamma tables in `chipInit` (TFT_ILI9163C.cpp:137-147) are inactive.
- `writeRow` and `endPushData` are declared in the header but have no body in the driver.
- The code under `#ifndef FRAMEBUFFER` (the non-framebuffer `drawPixel` branch and the empty `writeFramebuffer`) is dead, because `FRAMEBUFFER` is defined at TFT_ILI9163C.cpp:8.
- `setBitrate` is a no-op. `volatile` and `__attribute__((aligned()))` have no modellable meaning.
- The default `size` arguments of `writeScreen16` and `writeScreen24` (TFT_ILI9163C.h:157-158) are not modelled; every call passes its size. The default of `writeScreen24`, `_TFTWIDTH*_TFTHEIGHT*2`, counts 32-bit entries, so for a bitmap with one entry per pixel it is twice the pixel count.
- FrameStore.WriteScreen16: `size` is a natural number bounded by the bitmap rather than a `uint32_t`. The driver reads `size` bytes from the address it is given, which the model expresses as the caller's obligation `size <= |bitmap|`.
- Color.Color24To565: the argument is a 32-bit bit pattern. The driver's parameter is an `int32_t`, whose right shifts may be arithmetic for negative values. The `& 0xFF` masks remove the difference.
- `fbuff` is one file-level array (TFT_ILI9163C.cpp:17) shared by every driver object. The model gives each handle its own `fb`, so two handles do not share one buffer, and drawing through one is not seen by the other.
- FrameStore.WriteScreen24: `WriteScreen24`, `WriteScreen24Shape` and `WriteScreen24Loop` require `size <= |bitmap|`. The driver reads `size` entries from the address it is given with no check, so reading past the bitmap is not modelled. The header default `_TFTWIDTH*_TFTHEIGHT*2` (TFT_ILI9163C.h:157-158) would read past a bitmap with one entry per pixel.
- State.New: sets the access-control byte, the colour order, the sleep flag and the error code to 0. The constructor (TFT_ILI9163C.cpp:20-25) does not set them, so they are zero only for an object with static storage. `begin` sets all four, so every result stated after `begin` is unaffected.
- Modes.DefineScrollArea: it also differs from the driver when `_GRAMHEIGH` is 32768 or more, where the narrowing rejects some small `tfa`/`bfa`. `ScrollAreaAgreesWithoutWrap` states where the two agree.
- The constructor's base-class fields (text size, colours, wrap) and the text cursor's use in drawing belong to the drawing base class. Only `cursor_x`/`cursor_y` as set by `setCursor` are modelled.
- Register command codes are symbolic, because the register header that defines them is not part of this model.

## Findings

| source | as written | input that shows it | evidently intended | confidence | as-written member | corrected member |
|---|---|---|---|---|---|---|
| TFT_ILI9163C.cpp:246-255 | The scroll height `_GRAMHEIGH - tfa - bfa` is narrowed to `int16_t` before the `vsa >= 0` test, so a large negative height wraps to a positive one and passes the guard. | `tfa = 0`, `bfa = _GRAMHEIGH - __OFFSET + 32769`: the true height is -32769 and is sent as 32767. | Write the scroll definition only when the top area (with offset), the bottom area and a non-negative height fill `_GRAMHEIGH`. | high, not executed | Modes.DefineScrollAreaAsWritten | Modes.DefineScrollArea |
