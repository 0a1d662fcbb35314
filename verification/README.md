# VixenSound CTS7 and the Game Boy register interpreter, in Dafny

This project models the sound core of VixenSound.

**CTS7 engine (`CTS7.h`).** CTS7 is an integer-only wavetable synthesiser for 8-bit AVR boards.
- It keeps a 256-byte `wave_ram`, organised as eight 32-sample slots.
- Each voice has a 16-bit phase accumulator, a tuning word, a `wave_mask`/`wave_select` pair that picks a window of the table, and an amplitude.
- A round-robin timer interrupt advances two voices per call and adds `sample * amplitude` into two 16-bit mixer sums.
- Once per full round it writes the high bytes of the sums to the two PWM DAC registers.
- `loadSineWave` fills one or two slots from a 17-point quarter-sine table.

**Game Boy layer (`GameboySoundDriver.h`).** This layer builds the engine with four voices and alternate stereo. It interprets Game Boy APU register writes:
- NR11–NR44 and the wave pattern RAM at FF30–FF3F, as numbered from FF10;
- an 8-step frame counter that clocks three volume envelopes;
- `begin`, which draws the 12.5/25/50/75 % duty waves into slots 0–3.

## Files

- `wrappers.dfy` holds `Option`.
- `wave_ram.dfy` (module `WaveRam`) holds:
  - the byte type;
  - the slot layout;
  - `LUT_QUARTER_SINE`;
  - the `loadSineWave` loop (`LoadSineWave`) and its reference table `LoadedSine`;
  - the sine-table properties.
- `cts7.dfy` (module `Cts7`) holds:
  - the configuration (voice count, stereo mode);
  - voices, gains, the mixer and the engine state;
  - the sample address;
  - the routed reference contribution of a voice;
  - the interrupt tick `Tick`;
  - the engine's `Begin`.
- `cts7_round.dfy` (module `Cts7Round`) holds `Run` (n ticks) and the whole-round theorem. After `voiceCount / 2` ticks from a round boundary:
  - every voice has advanced once;
  - the next tick outputs the high bytes of the summed reference contributions.
- `gameboy_driver.dfy` (module `GameboySound`) holds:
  - the driver state;
  - `Begin`, `Clock` and the envelope step;
  - the register decoder `Decode` and its inverse `Address`;
  - `Apply`, the effect of each decoded register;
  - `Write`, which is `Apply` after `Decode`.
- `gameboy_properties.dfy` (module `GameboyProperties`) holds the lemmas about the driver.

## Modelling choices

- **Integer widths.**
  - `phase`, `tune`, `fnum` and the register data are `bv16`, and `wave_select`/`wave_mask` are `bv8`, so `+=`, shifts and masks wrap as in the source.
  - Samples, amplitudes and envelope fields are integers in 0..255 (`Byte`). The amplitude update after an envelope step is written with an explicit `% 0x100`.
  - The mixer sums are integers in 0..65535, and every accumulation is reduced modulo 2^16.
  - A product of two bytes is below 2^16. So the 16-bit product equals the exact one modulo 2^16. On AVR the product is a signed 16-bit `int` and can overflow, but its bits are the same.
- **Configuration.** The engine is parametric in a `Config`:
  - the voice count, even, from 2 to 10;
  - `AlternateStereo` or `FullStereo`.

  With full stereo a gain is `Independent(left, right)`. Otherwise the three amplitude names of the voice union alias one byte: `Shared(amplitude)`. The Game Boy layer fixes `Config(4, AlternateStereo)`, because the header comment mentions full stereo but the symbol is never defined.
- **The interrupt tick** is a pure function from the engine state to the next state plus an optional pair of DAC bytes. At a round boundary the output is present.
- **Floating-point conversions.** `getFnumber` is floating point. `Write` takes it as a parameter `fnumber: nat -> bv16`, applied to the exact integer quotient the source computes: `32768 / (2048 - fnum)`, or `8190 / (2048 - fnum)` for the wave channel. So the trigger properties are exact about everything except that conversion.
- **Source quirks kept as written:**
  - the register number is rebased with a wrapping byte `+ 0x10`;
  - the channel-1 envelope case is the decimal label `12`, reached from 0xFC, so NR12 itself is ignored;
  - low-byte frequency writes do not mask `data`. This only affects the `fnum` shadow value: a trigger keeps just its low byte (GameboySoundDriver.h:132);
  - the NR42 volume is shifted right by only 2;
  - an increasing envelope at 255 wraps to 0.

## Model

Helpers without a row of their own are characterised by a row below:
- `GameboySound.Apply` by `GameboyProperties.WriteAt` and the register lemmas (PatternWrite to NoiseWrites);
- `GameboySound.TriggerChannel` by `GameboyProperties.TriggerOn` and `GameboyProperties.TriggerOff`;
- `GameboySound.ClockChannel` by `GameboySound.ClockFollowsTable`;
- `Cts7.MixFirst` and `Cts7.MixSecond` by `Cts7.MixFirstRoutes` and `Cts7.MixSecondRoutes`.

| member | source | states |
|---|---|---|
| WaveRam.LoadSineWave | CTS7.h:209-218 | The loop computes the reference table `LoadedSine`: written offsets hold the quarter-sine points (forward, backward, and their byte complements), and everything else is unchanged. |
| WaveRam.LoadedQuarter | CTS7.h:210-216 | Index `i` of quarter `q` in the window holds the table point at `i * stride` (read backwards in quarters 1 and 3, complemented in 2 and 3) when `i < 16 / stride`, and otherwise keeps the old value. |
| WaveRam.Load64Window | CTS7.h:209-217 | A 64-sample load changes no sample outside `slot .. slot+63`, and inside that window the result does not depend on the old contents. |
| WaveRam.QuarterMirror | CTS7.h:213-216 | The complemented quarters hold `256 - x` for the point `x` of the matching forward quarter, because every table point is at least 0x80. |
| WaveRam.Load64Mirror | CTS7.h:213-216 | After a 64-sample load, `wave_ram[slot+32+i] == 256 - wave_ram[slot+i]` for every i below 32. |
| WaveRam.LutAscending | CTS7.h:145 | The quarter-sine table is non-decreasing, and every point is at least 0x80. |
| WaveRam.Load64Rising | CTS7.h:145 | After a 64-sample load, samples `slot .. slot+16` rise from 0x80 to 0xFF without ever decreasing. |
| WaveRam.Load64Falling | CTS7.h:214 | Samples `slot+16 .. slot+31` never increase. |
| WaveRam.Load32Written | CTS7.h:210-216 | A 32-sample load writes offsets 0-7, 16-23, 32-39 and 48-55, each holding the point the 64-sample load stores at the even index `2i`. |
| WaveRam.Load32Untouched | CTS7.h:210-216 | A 32-sample load leaves every other sample unchanged. |
| Cts7.Advance | CTS7.h:240 | A tick changes only the voice's phase. Tune, wave select, mask and gain stay as they were. |
| Cts7.SampleAddress | CTS7.h:241 | The sample address always indexes the 256-byte buffer. Every bit of `wave_select` is set in it, and every other bit is the masked bit of the phase's high byte. |
| Cts7.Scaled | CTS7.h:243 | `out * amplitude` of two bytes fits in 16 bits, and it is zero exactly when the sample or the gain is zero. |
| Cts7.MixFirstRoutes | CTS7.h:243-246 | The first voice of a pair adds exactly its reference route: to the left sum only without full stereo, or to both sums with full stereo. |
| Cts7.MixSecondRoutes | CTS7.h:252-255 | The second voice of a pair adds exactly its reference route: to the right sum only without full stereo, or to both sums with full stereo. |
| Cts7.MixPair | CTS7.h:243-255 | Both voices of a pair, mixed in source order with 16-bit wrap, add their two reference contributions. |
| Cts7.StepPair | CTS7.h:240-256 | Processing a pair advances exactly voices `k` and `k+1`, leaves the others alone, adds their two reference contributions to the mixer, and moves the index by two. |
| Cts7.RoundStart | CTS7.h:225-236 | At `current_voice == VOICE_COUNT` the index wraps to 0 and both sums are cleared. Otherwise nothing changes. |
| Cts7.Tick | CTS7.h:222-257 | The invariant is kept. The index becomes `(old == VOICE_COUNT ? 0 : old) + 2`, so it stays even in 2..VOICE_COUNT. Output is present exactly at a round boundary and is `(left >> 8, right >> 8)` of the old sums. Only the two processed voices advance. The new mixer is the cleared-or-old sums plus their two contributions. |
| Cts7.Begin | CTS7.h:186-202 | Start-up gives a valid engine at index 0 with silent sums. Every voice has phase, tune, select and gain 0 and mask 0x3F. The buffer is a zeroed buffer after `loadSineWave(SLOT_0, LOAD_64)`, so it is zero beyond sample 63. |
| Cts7.BeginSine | CTS7.h:201 | After start-up, samples 0..16 are the quarter-sine points from 0x80 up to 0xFF, and sample `32+i` is 256 minus sample `i`. |
| Cts7Round.RoundMixFrame | CTS7.h:243-255 | The mix of the first `n` voices depends only on those voices. |
| Cts7Round.TickMixesPair | CTS7.h:225-255 | A tick's new sums are the cleared-or-old sums plus the routed samples of the two voices it leaves advanced. |
| Cts7Round.RoundProgress | CTS7.h:222-257 | After `n` ticks from a round boundary, the index is `2n`, exactly the first `2n` voices have advanced once, and the mixer holds their summed contributions. |
| Cts7Round.RoundOutput | CTS7.h:225-232 | `voiceCount / 2` ticks after a boundary, every voice has advanced once, and the next tick outputs the high bytes of the mix of all voices. |
| Cts7Round.PhaseWraps | CTS7.h:240 | The phase accumulator wraps modulo 2^16: 0xFFF0 + 0x20 gives 0x0010. |
| GameboySound.DutySample | GameboySoundDriver.h:57-62 | A duty-wave sample is 0 or the level 80. |
| GameboySound.Begin | GameboySoundDriver.h:44-75 | Slots 0-3 hold the four duty waves and the rest of the buffer is zero. Every voice has mask 31, with selects 0, 0, 0x80 and 0xA0. Frame, wave level and `fnum` are zero, and the envelopes are at their declared start. |
| GameboySound.StepEnvelope | GameboySoundDriver.h:80-85 | Period 0 changes nothing. A running counter only counts down. An expired counter reloads the period and moves a non-zero amplitude by one: a decreasing envelope subtracts exactly 1, and an increasing one adds 1 modulo 256. Amplitude 0 stays 0. |
| GameboySound.Clock | GameboySoundDriver.h:77-108 | The frame becomes 0 after 7 and otherwise steps by one. Buffer, mixer, `fnum`, length counters and wave level are unchanged. |
| GameboySound.ClockFollowsTable | GameboySoundDriver.h:79-104 | Exactly the envelope the frame table names (2 on frame 5, 0 on 6, 1 on 7) steps, against the amplitude of the voice it drives (3, 0, 1). That voice alone takes the new amplitude. |
| GameboySound.Decode | GameboySoundDriver.h:112-188 | Decoding always yields a well-formed register. |
| GameboySound.DutySelect | GameboySoundDriver.h:121 | `(data >> 1) & 0x60` is the base of the duty slot that bits 6-7 of `data` select. |
| GameboySound.FrequencyLowWrite | GameboySoundDriver.h:129 | A low write keeps the set bits 8-10 of `fnum` and ORs in all of `data` unmasked: outside bits 8-10 the result is `data`, and bits 8-10 are those of `fnum | data`. With `data < 256`, `data` becomes the low byte and `fnum` stays at most 0x7FF. |
| GameboySound.FrequencyHighWrite | GameboySoundDriver.h:132 | A high write leaves `fnum` at most 0x7FF, with its low byte kept and bits 8-10 equal to `data & 7`. |
| GameboySound.Divisor | GameboySoundDriver.h:136 | For an 11-bit `fnum` the divisor `2048 - fnum` is between 1 and 2048. |
| GameboySound.TriggerQuotient | GameboySoundDriver.h:136 | The trigger's quotient is the floor of the dividend (32768 for the pulse channels, 8190 for the wave channel as on line 172) over `2048 - fnum`, which is at least 1 for an 11-bit `fnum`. |
| GameboySound.Write | GameboySoundDriver.h:111-191 | A write keeps the driver well-formed and the frame counter unchanged. An unrecognised register changes nothing. |
| GameboyProperties.DecodeAddress | GameboySoundDriver.h:112-186 | Every recognised register is reached from its number: NR11 0x01, the decimal-12 case 0xFC, NR13 0x03, NR14 0x04, NR21 0x06, NR22 0x07, NR23 0x08, NR24 0x09, NR32 0x0C, NR33 0x0D, NR34 0x0E, NR42 0x11, NR43 0x12, NR44 0x13, pattern RAM 0x20-0x2F. |
| GameboyProperties.AddressDecode | GameboySoundDriver.h:112-188 | Any number that decodes to a register is that register's number, so the two maps are inverse. |
| GameboyProperties.EnvelopeCaseNumber | GameboySoundDriver.h:123 | The case labelled decimal 12 is reached only from 0xFC, and NR12 (0x02) is ignored. |
| GameboyProperties.WriteAt | GameboySoundDriver.h:111-191 | Writing a register's number applies exactly that register. |
| GameboyProperties.PatternWrite | GameboySoundDriver.h:113-116 | A pattern-RAM write stores the two 4-bit samples of `data`, each in the upper half of a byte, at `128+2k` and `128+2k+1`. Both lie in 128..159, and nothing else changes. |
| GameboyProperties.WaveVoiceInWindow | GameboySoundDriver.h:69-70 | The wave channel's voice, with mask 31 and select 0x80, only reads samples 128..159. |
| GameboyProperties.WaveVoiceCoversWindow | GameboySoundDriver.h:69-70 | The wave channel's voice reaches every sample in 128..159 at some phase. |
| GameboyProperties.TriggerOn | GameboySoundDriver.h:131-136 | A high write with bit 7 set loads bits 8-10 of `fnum` and keeps its low byte. Voice `c` restarts at phase 0, with the starting volume (the wave level for channel 3) and the tuning for `K / (2048 - fnum)`. Nothing else changes. |
| GameboyProperties.TriggerOff | GameboySoundDriver.h:137 | With bit 7 clear, only `fnum` changes and voice `c` is silenced. |
| GameboyProperties.FrequencyLowKeepsHigh | GameboySoundDriver.h:128-130 | A low write changes only `fnum[c]`. It keeps bits 8-10, and with a byte of data it stays at most 0x7FF. |
| GameboyProperties.DutyWrite | GameboySoundDriver.h:119-122 | NR11 and NR21 set only the duty select, to one of 0, 32, 64 or 96. NR11 also loads `length_load` with the low 6 bits. |
| GameboyProperties.WaveLevelCodes | GameboySoundDriver.h:158-163 | An NR32 write of exactly `code << 5` (code 0-3) sets the wave level to 0, 60, 30 or 15 respectively, and nothing else changes. |
| GameboyProperties.WaveLevelOther | GameboySoundDriver.h:158-163 | Any other NR32 value changes nothing. |
| GameboyProperties.EnvelopeWrites | GameboySoundDriver.h:123-127 | The decimal-12 case sets the starting volume (the 4-bit volume times 16), the period (3 bits) and the direction (bit 3). NR22 and NR42 set only a starting volume, with NR42's being the 4-bit volume times 4. |
| GameboyProperties.NoiseWrites | GameboySoundDriver.h:176-186 | NR43 sets voice 3's tuning word to `data`. NR44 sets voice 3's amplitude to envelope 2's starting volume when bit 7 is set, and to 0 otherwise. |
| GameboyProperties.FrameStep | GameboySoundDriver.h:97-107 | From a frame in 0..7 the counter moves to `(frame + 1) mod 8`. |
| GameboyProperties.FrameCycles | GameboySoundDriver.h:77-108 | After `n` clocks the frame is `(start + n) mod 8`. |
| GameboyProperties.EnvelopeOnItsFrame | GameboySoundDriver.h:79-104 | An envelope or its voice changes only on that envelope's frame: 5 for envelope 2 and voice 3, 6 for envelope 0 and voice 0, 7 for envelope 1 and voice 1. Voice 2 never changes. |
| GameboyProperties.QuietFrames | GameboySoundDriver.h:79-107 | From frame 0, the first five clocks change nothing but the frame counter. |
| GameboyProperties.FrameCycle | GameboySoundDriver.h:79-107 | From frame 0, eight clocks step each envelope exactly once against the amplitude of the voice it drives. That voice takes the stepped amplitude, and the frame is back at 0. |
| GameboyProperties.EnvelopeCycles | GameboySoundDriver.h:79-107 | From frame 0, `n` rounds of eight clocks give each envelope and its voice exactly `n` envelope steps, and end on frame 0. This is how the envelope-step lemmas below translate into calls of `clock()`. |
| GameboyProperties.EnvelopeCountdown | GameboySoundDriver.h:81 | A running counter counts down one envelope step at a time, leaving the amplitude alone. |
| GameboyProperties.DecreasingEnvelopeFades | GameboySoundDriver.h:80-85 | A decreasing envelope with a non-zero period brings any amplitude to 0, one unit every `period + 1` envelope steps (one envelope step per 8 clocks), without wrapping. |
| GameboyProperties.IncreasingEnvelopeWraps | GameboySoundDriver.h:84 | An increasing envelope at 255 steps to 0 by byte wrap-around and then stays silent. |
| GameboyProperties.PulseGroups | GameboySoundDriver.h:57-62 | Each pattern bit covers four samples, so a duty wave has four non-zero samples per set bit. |
| GameboyProperties.DutySlotCounts | GameboySoundDriver.h:52-62 | After `begin`, slots 0-3 hold 4, 8, 16 and 24 samples at level 80, which is 12.5, 25, 50 and 75 % of 32. Every other sample is 0. |

## Left out

- Floating-point pitch math is left out: `getFrequency`, `getFnumber` and `pitchToFnumber` (CTS7.h:206-208). The tuning word for a trigger is the parameter `fnumber`, applied to the exact integer quotient.
- Hardware set-up is left out: the timer registers, `pinMode`, and the DAC register bindings (CTS7.h:146-147, 187-200). The DAC bytes are the tick's output. `LUT_QUARTER_SINE` is a constant rather than a PROGMEM read.
- Interrupt concurrency is left out: preemption between the tick and `write`/`clock`, and torn 16-bit reads. Each operation is an atomic step.
- `CTS7_SET_DISABLE_STEREO` is left out. Its mixer union overlays `right` on a byte of `left`, which depends on memory layout.
- `CTS7_SET_HALF_WAVERAM` is left out. Its addresses can exceed the halved buffer. The model has the 256-byte buffer only.
- `CTS7_SET_HALF_REF_CLOCK` only changes a timer register and the float constant of `getFnumber`, so it has nothing to model.
- The preprocessor selection of the voice count and flags is replaced by `Config`.
- WaveRam.LoadSineWave: models the two documented sizes, LOAD_64 and LOAD_32. Other byte values of `size` are not modelled; 255 would divide by zero once incremented.
- WaveRam.LoadSineWave: requires the written window to fit in the buffer (`slot` at most 192 for LOAD_64 and 200 for LOAD_32). The source computes `i + 48 + slot` as an int, so a larger slot writes past `wave_ram`. That write is outside any defined behaviour, and the model does not describe it.
- LOAD_32 is documented as "32 samples of a sine wave" (CTS7.h:93-98), which reads as one 32-sample slot. The code (CTS7.h:210-216) instead writes offsets 0-7, 16-23, 32-39 and 48-55 of the 64-sample window and leaves 8-15, 24-31, 40-47 and 56-63 unchanged. The model follows the code (`WaveRam.Load32Written`, `WaveRam.Load32Untouched`).
- The sweep unit and length counting are left out. `Sweeper` and `LengthCounter` are declared in GameboySoundDriver.h:29-42 but never clocked. Only `length_load` is written (by NR11), and the model keeps it.
- temp_trash.h is not part of this model. It is a disconnected fragment that uses undefined names and voices beyond the fourth.
- The noise channel's sound is not modelled beyond what the source does, which is reading slot 5 as a wavetable.
