# CTR_Redshift colour pipeline, modelled in Dafny

CTR_Redshift is a port of Redshift to the Nintendo 3DS. It turns a colour
setting into a correction of the screen's hardware colour lookup table (LUT).
A setting is a colour temperature, three gammas and a brightness. This project
models the integer part of that pipeline in `main.c` and proves properties of it:

- `ClampCS` forces every field of the setting into its own range.
- `ApplyCS` builds the identity LUT of 256 packed `r, g, b, pad` words with a
  wrapping 8-bit counter. It expands every channel byte to 16 bits by
  replicating it (`b | b << 8`) into three 256-slot segments of one buffer. It
  runs the curve step over that buffer and truncates every value back to its
  high byte (`v >> 8`). Then it writes the LUT to the screen.
- `ReadAt`/`WriteAt` access one LUT slot through a register pair. They write
  the slot number to the index register, then read or write the data register.
  `screen & 1` picks the pair. `ReadAll`/`WriteAll` do this for slots 0 .. 255
  in increasing order.

Files, one module each:

- `bits.dfy` (`Bits`): the C integer semantics the code relies on. It has `u8`,
  `u16` and `u32`, shifts, a bitwise OR defined bit by bit, the truncation of a
  store into a narrower unsigned lvalue, and the wrapping `++` of a `u8`.
- `settings.dfy` (`Settings`): the mutable setting (`ColorSetting`, with the
  gammas in a 3-element array), its value view `Setting`, and `ClampCS`.
- `lut.dfy` (`Lut`): the codec. A LUT word and its struct view (`Pack`/`Unpack`),
  expansion (`Widen`), truncation (`Narrow`), the identity ramp, and the
  whole-table conversions `Expanded`/`Truncated` with their round trip.
- `port.dfy` (`Port`): the register protocol over `Gpu`, a fake device. The
  fake logs every 32-bit register access. For each register pair it keeps the
  selected slot and the 256 LUT words.
- `apply.dfy` (`Apply`): `ApplyCS`, its three loops over in-place arrays, and
  `Pipeline`, the LUT it writes.

The curve step `colorramp_fill` lives in a file that is not part of this
model, and it computes in floating point. It is a parameter `fill` of type
`(Setting, Curve) -> Curve`. Every result about `ApplyCS` holds for every
such curve step. `PipelineIdentity` specialises it to a curve step that
changes nothing.

The clamp bounds (`MIN_TEMP` .. `MAX_BRIGHTNESS`) come from a header that is
not part of this model. They are a `Limits` parameter. `ClampCS` is modelled
exactly as written, as two guarded assignments per field: first raise to the
minimum, then lower to the maximum. A range is non-empty when its minimum is
at most its maximum. If a range were empty, the second assignment would win
and the field would become the maximum.

## Model

| member | source | states |
|---|---|---|
| Settings.ClampGammas | main.c:92-97 | definition of the three gammas each clamped on its own to the gamma range; `ClampGamma` proves the six assignments leave exactly this, and `Clamp` uses it for the gamma field |
| Settings.Clamp | main.c:87-101 | definition of the setting `ClampCS` leaves, each field clamped to its own range; its properties are `ClampInRange`, `ClampIdempotent`, `ClampKeepsInRange` and `ClampPerField` |
| Settings.ClampInt | main.c:89-90 | lies in [lo, hi] when lo <= hi; a value already in range is unchanged; below the range it becomes lo, above it hi; with an empty range it becomes hi |
| Settings.ClampReal | main.c:92-100 | the same guarded pair on a gamma or the brightness: in range when lo <= hi, in-range values unchanged, below gives lo, above gives hi, empty range gives hi |
| Settings.ClampGamma | main.c:92-97 | the six gamma assignments leave each of the three gammas clamped on its own to the gamma range |
| Settings.ClampCS | main.c:87-101 | the setting afterwards is exactly `Clamp` of the setting before, and the gamma array is the same array |
| Settings.ClampInRange | main.c:87-101 | with non-empty ranges, temperature, all three gammas and brightness of the clamped setting lie within their bounds |
| Settings.ClampIdempotent | main.c:89-100 | clamping a clamped setting changes nothing, for any bounds |
| Settings.ClampKeepsInRange | main.c:89-100 | a setting whose fields are all in range is returned unchanged |
| Settings.ClampPerField | main.c:89-100 | each clamped field depends only on the same field of the input |
| Settings.DefaultSetting | main.c:181-186 | the default setting has the neutral temperature, all gammas 1.0 and brightness 1.0 |
| Settings.ColorSetting.Default | main.c:181-186 | a new setting object holds the default setting |
| Bits.Shl | main.c:123-133 | definition of `x << k` without truncation, `x * 2^k`; the lemma `OrDisjoint` and the contracts of `IdentityWord` and `Widen` state what the shifts contribute |
| Bits.Shr | main.c:143-145 | definition of `x >> k` on an unsigned value, `x / 2^k`; the contract of `Narrow` states what `v >> 8` stored into a `u8` is |
| Bits.BitOr | main.c:123-133 | definition of bitwise OR on unsigned values, bit by bit; `OrDisjoint` proves it is addition on operands with no common bits |
| Bits.LowByte | main.c:59 | `& 0xFF` (and any store into a `u8`) leaves values below 256 alone and otherwise keeps the value modulo 256 |
| Bits.LowHalf | main.c:131-133 | a store into a `u16` leaves values below 65536 alone and otherwise keeps the value modulo 65536 |
| Bits.Inc8 | main.c:125 | `++i` on a `u8` adds one below 255 and wraps 255 to 0 |
| Bits.OrDisjoint | main.c:123 | OR-ing a value below 2^k with `y << k` is their sum: the bit fields do not overlap |
| Lut.Pack | main.c:109-115 | definition of the `u32` word under the `r, g, b, z` struct, little-endian; `Unpack` and `UnpackPack` prove the two views are inverse |
| Lut.Unpack | main.c:109-115 | the struct view of a LUT word packs back to the same word |
| Lut.UnpackPack | main.c:109-115 | packing the four struct bytes into a word and reading them back gives every byte unchanged |
| Lut.IdentityWord | main.c:123 | the OR of `i`, `i << 8` and `i << 16` equals `i * 0x010101`, whose struct view is r = g = b = i with padding 0 |
| Lut.Widen | main.c:131-133 | the OR of `b` and `b << 8`, stored into a `u16`, is `b * 257`, the byte replicated into both halves |
| Lut.Narrow | main.c:143-145 | `v >> 8` stored into a `u8` is the high byte `v / 256`, the unique byte b with b*256 <= v < b*256 + 256 |
| Lut.NarrowWiden | main.c:131-145 | truncating the expansion of any byte gives back that byte |
| Lut.NarrowMonotone | main.c:143-145 | a larger 16-bit value never truncates to a smaller byte |
| Lut.WithRed | main.c:143 | storing into the red byte of a word changes exactly the red field of its struct view |
| Lut.WithGreen | main.c:144 | storing into the green byte of a word changes exactly the green field of its struct view |
| Lut.WithBlue | main.c:145 | storing into the blue byte of a word changes exactly the blue field of its struct view |
| Lut.IdentityRamp | main.c:121-125 | definition of the identity LUT, slot i holding `IdentityWord(i)`; `IdentityRampAt` states each slot's word and struct view |
| Lut.Expanded | main.c:129-135 | definition of the curve made by expanding each channel byte of every slot; `ExpandedIdentity` and `TruncateExpand` state its properties |
| Lut.Truncated | main.c:141-147 | definition of the LUT made by storing each channel value's high byte into its channel byte; `TruncatedAt` and `TruncateExpand` state its properties |
| Lut.Layout | main.c:131-133 | the flat curve buffer has 768 values, red at 0x000 + i, green at 0x100 + i and blue at 0x200 + i |
| Lut.Segments | main.c:138 | the three segments handed to the curve step lay out back to the same flat buffer |
| Lut.SegmentsLayout | main.c:131-138 | cutting a laid-out curve into its segments gives back the curve |
| Lut.IdentityRampAt | main.c:121-125 | slot i of the identity ramp is the word `i * 0x010101`: r = g = b = i and padding 0 |
| Lut.ExpandedIdentity | main.c:121-135 | expanding the identity ramp gives `i * 257` in every channel of slot i |
| Lut.TruncatedAt | main.c:141-147 | after truncation slot i holds the high byte of each channel value at i and keeps its padding byte |
| Lut.TruncateExpand | main.c:129-147 | truncating the expansion of any 256-word LUT gives back the same LUT, word for word |
| Port.Pair | main.c:52 | `screen & 1` selects pair 1 exactly for odd screen numbers, and pair 0 otherwise |
| Port.IndexReg | main.c:52 | the index register is 0x400580 for pair 1 and 0x400480 for pair 0 |
| Port.DataReg | main.c:53 | the data register is 0x400584 for pair 1 and 0x400484 for pair 0 |
| Port.Gpu.WriteHWReg | main.c:60-61 | a 32-bit register write is logged; an index write selects the value's low byte, a data write stores the value into the selected slot of that pair's LUT |
| Port.Gpu.ReadHWReg | main.c:53 | a 32-bit register read is logged, returns the fake's value for that register and changes no LUT and no selection |
| Port.WriteAtTrace | main.c:59-61 | definition of the two accesses of one slot write: the slot number stored to the index register, then the word stored to the data register; the contract of `WriteAt` states that these are the accesses it makes |
| Port.ReadAtTrace | main.c:51-53 | definition of the two accesses of one slot read: the slot number stored to the index register, then a load of the data register; the contract of `ReadAt` states that these are the accesses it makes |
| Port.WriteAllTrace | main.c:76-84 | definition of the accesses of a bulk write, one slot write per word for slots 0, 1, ... in turn; `WriteAllTraceAt` states its length and every access |
| Port.ReadAllTrace | main.c:65-73 | definition of the accesses of a bulk read, one slot read per slot 0, 1, ... in turn; `ReadAllTraceAt` states its length and every access |
| Port.WriteAllTraceAt | main.c:76-84 | a bulk write makes exactly 512 accesses, two per slot: access 2k writes k to the index register and access 2k+1 writes the k-th word to the data register |
| Port.ReadAllTraceAt | main.c:65-73 | a bulk read makes exactly 512 accesses, two per slot: access 2k writes k to the index register and access 2k+1 reads the k-th word from the data register |
| Port.WriteAt | main.c:57-62 | the index register gets `idx & 0xFF` before the data register gets the word; that slot of the selected pair's LUT becomes the word and nothing else changes |
| Port.ReadAt | main.c:49-54 | the index register gets `idx` before the data register is read; `dst` receives that slot's word; no LUT changes |
| Port.WriteAll | main.c:76-84 | the log grows by the bulk-write trace of the 256 words; the selected pair's LUT becomes those words; the other pair is untouched |
| Port.ReadAll | main.c:65-73 | `dst[k]` receives slot k for every k in 0 .. 255; no LUT changes; the log grows by the bulk-read trace of the values read |
| Apply.FillIdentity | main.c:121-125 | the loop over the wrapping `u8` counter fills all 256 slots with the identity ramp |
| Apply.ExpandLut | main.c:129-135 | the curve buffer becomes the expansion of the LUT, by channel segment |
| Apply.RunCurveStep | main.c:138 | the curve buffer becomes the curve step's output, laid out in the same three segments |
| Apply.TruncateLut | main.c:141-147 | the LUT becomes its truncation by the curve buffer: the high byte of each channel value, padding kept |
| Apply.ApplyCS | main.c:104-155 | the screen's LUT becomes `Pipeline(setting, fill)` whatever it held before; the log grows by the 256 slot writes in increasing order; the other screen is untouched |
| Apply.Pipeline | main.c:104-150 | definition of the LUT `ApplyCS` writes: the identity ramp expanded, passed through the curve step and truncated; `PipelineAt`, `PipelineIdentity`, `PipelineMonotone` and the contract of `ApplyCS` state its properties |
| Apply.PipelineAt | main.c:121-147 | slot i of the written LUT holds the high bytes of slot i of the curve step's output, and its padding byte is 0 |
| Apply.PipelineIdentity | main.c:121-150 | with a curve step that changes nothing, the LUT handed to `WriteAll` is exactly the identity ramp |
| Apply.IdentityWriteTrace | main.c:121-150 | with a curve step that changes nothing, the bulk write makes 512 accesses and slot k's data store carries `k * 0x010101` right after the index register is set to k |
| Apply.PipelineMonotone | main.c:141-147 | if one curve step's output is nowhere below another's at slot i, none of the written channel bytes at slot i is below the other's |

## Left out

- `colorramp_fill` and everything behind it: blackbody interpolation, power-law gamma and brightness in floating point. It is not part of this model; it is the parameter `fill`, and a `u16` curve keeps every output in [0, 65535].
- `GSPGPU_WriteHWRegs` / `GSPGPU_ReadHWRegs`, the memory-mapped register I/O. They are replaced by the fake `Gpu`. The fake assumes the index register does not advance by itself after a data access; the source writes the index before every access anyway. A read of any register other than the four LUT registers returns 0 in the fake.
- `malloc`/`free` of the two transient buffers: they are fresh Dafny arrays, and allocation failure is not modelled.
- IEEE float semantics in `ClampCS`: NaN comparisons and rounding. Gammas and brightness are reals.
- The constants `MIN_TEMP` .. `MAX_BRIGHTNESS` and `NEUTRAL_TEMP`, which come from a header that is not part of this model. They are parameters.
- The commented-out read-back of the current LUT before `ApplyCS` builds its identity ramp. `ReadAll` itself is modelled, but `ApplyCS` never calls it.
- The `main` loop: key polling, cursor movement, setting increments, console output and graphics setup. Only its default setting is modelled.
- Interruption of a bulk write part-way, and concurrent callers: the model runs every call to completion, one at a time.
- Apply.ApplyCS: states the LUT and the log after the call, but not that the transient buffers are released.

Behaviour of the code worth noting:

- A screen is any `int`. The register pair is chosen by `screen & 1`, so every odd screen number selects pair 1.
- `ReadAt` does not mask its index, while `WriteAt` masks with `0xFF`. Both indices are `u8`, so the two agree.
- The 256 slot writes are issued back to back with no atomicity. `ApplyCS` writes the whole LUT every time starting from the identity ramp, so the LUT never depends on what it held before.
