/**
  The Game Boy sound-register interpreter layered on CTS7: four voices in
  alternate stereo, duty-cycle wavetables in slots 0-3, the wave channel's
  pattern RAM in slot 4, three volume envelopes clocked by an 8-step frame
  counter, and the decoder that turns APU register writes into voice,
  envelope and frequency-register state.
*/
module GameboySound {
  import opened Wrappers
  import opened WaveRam
  import opened Cts7

  /** The engine build the driver selects: four voices, no full stereo. */
  const VoiceCount: nat := 4
  const GameboyConfig: Config := Config(VoiceCount, AlternateStereo)

  /** Start of the wave channel's 32-sample pattern RAM (slot 4). */
  const PatternBase: nat := 128

  /** One volume envelope unit. */
  datatype Envelope = Envelope(startingVolume: Byte, period: Byte, mode: Byte, counter: Byte)

  /** The declared initial envelope: volume 64, period 10, decreasing, counter 0. */
  const InitialEnvelope: Envelope := Envelope(64, 10, 0, 0)

  /** One length counter; only `length_load` is ever written. */
  datatype LengthCounter = LengthCounter(enabled: Byte, lengthLoad: Byte, counter: Byte)

  const InitialLengthCounter: LengthCounter := LengthCounter(0, 0, 0)

  /**
    The driver's state: the engine, envelopes for channels 1, 2 and 4
    (driving voices 0, 1 and 3), four length counters, the wave channel's
    output level, the frame counter and the three 11-bit frequency
    registers kept in 16-bit variables.
  */
  datatype Driver = Driver(
    engine: Engine,
    envelopes: seq<Envelope>,
    lengthCounters: seq<LengthCounter>,
    waveformAmplitude: Byte,
    currentFrame: Byte,
    fnum: seq<bv16>)
  {
    predicate Valid() {
      && engine.Valid(GameboyConfig)
      && |envelopes| == 3
      && |lengthCounters| == 4
      && |fnum| == 3
    }
  }

  /** The amplitude byte of voice `k`. */
  function AmplitudeOf(d: Driver, k: nat): Byte
    requires d.Valid() && k < VoiceCount
  {
    d.engine.voices[k].gain.Amplitude()
  }

  /** The driver with voice `k` replaced. */
  function WithVoice(d: Driver, k: nat, v: Voice): (r: Driver)
    requires d.Valid() && k < VoiceCount && v.gain.Fits(AlternateStereo)
    ensures r.Valid()
    ensures r.engine.voices == d.engine.voices[k := v]
    ensures r == d.(engine := d.engine.(voices := r.engine.voices))
  {
    d.(engine := d.engine.(voices := d.engine.voices[k := v]))
  }

  /** The driver with the amplitude of voice `k` set to `a`. */
  function WithAmplitude(d: Driver, k: nat, a: Byte): (r: Driver)
    requires d.Valid() && k < VoiceCount
    ensures r.Valid()
    ensures r.engine.voices == d.engine.voices[k := d.engine.voices[k].(gain := Shared(a))]
    ensures AmplitudeOf(r, k) == a
    ensures r == d.(engine := d.engine.(voices := r.engine.voices))
  {
    WithVoice(d, k, d.engine.voices[k].(gain := d.engine.voices[k].gain.WithAmplitude(a)))
  }

  // ---------------------------------------------------------------- begin

  /** The four duty patterns, one bit per 4 samples: 12.5%, 25%, 50%, 75%. */
  function DutyPattern(k: nat): bv8
    requires k < 4
  {
    match k
    case 0 => 0x40
    case 1 => 0xC0
    case 2 => 0xF0
    case _ => 0x3F
  }

  /** The high level of a duty wave. */
  const PulseLevel: Byte := 80

  /** Sample `i` of the duty wave for `pattern`: bit `7 - i/4` selects 80 or 0. */
  function DutySample(pattern: bv8, i: nat): (s: Byte)
    requires i < SlotSize
    ensures s == 0 || s == PulseLevel
  {
    if pattern & ((0x80 as bv8) >> (i / 4)) != 0 then PulseLevel else 0
  }

  /** The mask and select `begin` gives each voice: 32 samples from slots 0, 0, 4 and 5. */
  function InitialSelect(k: nat): bv8
    requires k < VoiceCount
  {
    if k == 2 then 0x80 else if k == 3 then 0xA0 else 0
  }

  /**
    `begin()`: the engine's own start-up, then the four duty waves written
    into slots 0-3 by one loop over the 32 sample positions, and every
    voice narrowed to 32 samples, voices 2 and 3 moved to slots 4 and 5.
  */
  method Begin() returns (d: Driver)
    ensures d.Valid()
    ensures d.currentFrame == 0 && d.waveformAmplitude == 0
    ensures d.fnum == [0, 0, 0]
    ensures d.envelopes == [InitialEnvelope, InitialEnvelope, InitialEnvelope]
    ensures d.engine.currentVoice == 0 && d.engine.mixer == SilentMixer
    ensures forall j :: 0 <= j < 4 * SlotSize ==>
      d.engine.waveRam[j] == DutySample(DutyPattern(j / SlotSize), j % SlotSize)
    ensures forall j :: 4 * SlotSize <= j < WaveRamSize ==> d.engine.waveRam[j] == 0
    ensures forall k :: 0 <= k < VoiceCount ==>
      d.engine.voices[k] == Voice(0, 0, InitialSelect(k), 31, Shared(0))
  {
    var e := Cts7.Begin(GameboyConfig);
    var ram := e.waveRam;
    for i := 0 to 32
      invariant |ram| == WaveRamSize
      invariant forall j :: 0 <= j < 4 * SlotSize && j % SlotSize < i ==>
        ram[j] == DutySample(DutyPattern(j / SlotSize), j % SlotSize)
      invariant forall j :: 4 * SlotSize <= j < WaveRamSize ==> ram[j] == 0
    {
      ram := ram[SlotBase(0) + i := DutySample(DutyPattern(0), i)];
      ram := ram[SlotBase(1) + i := DutySample(DutyPattern(1), i)];
      ram := ram[SlotBase(2) + i := DutySample(DutyPattern(2), i)];
      ram := ram[SlotBase(3) + i := DutySample(DutyPattern(3), i)];
    }
    var voices := seq(VoiceCount, k requires 0 <= k < VoiceCount => e.voices[k].(waveMask := 31, waveSelect := InitialSelect(k)));
    d := Driver(
      e.(waveRam := ram, voices := voices),
      [InitialEnvelope, InitialEnvelope, InitialEnvelope],
      [InitialLengthCounter, InitialLengthCounter, InitialLengthCounter, InitialLengthCounter],
      0, 0, [0, 0, 0]);
  }

  // ---------------------------------------------------------------- clock

  /** An envelope unit and the amplitude it drives, after one clock. */
  datatype EnvelopeStep = EnvelopeStep(envelope: Envelope, amplitude: Byte)

  /**
    One clock of an envelope.  A zero period disables it; otherwise a
    running counter counts down, and an expired one is reloaded with the
    period while a non-zero amplitude moves one step up (mode bit set) or
    down, in byte arithmetic.
  */
  function StepEnvelope(env: Envelope, amplitude: Byte): (s: EnvelopeStep)
    ensures s.envelope.(counter := env.counter) == env
    ensures env.period == 0 ==> s == EnvelopeStep(env, amplitude)
    ensures env.period != 0 && env.counter != 0 ==>
      s == EnvelopeStep(env.(counter := env.counter - 1), amplitude)
    ensures env.period != 0 && env.counter == 0 ==> s.envelope.counter == env.period
    ensures s.amplitude != amplitude ==> env.period != 0 && env.counter == 0
    ensures amplitude == 0 ==> s.amplitude == 0
    ensures env.mode == 0 ==> s.amplitude <= amplitude && amplitude - 1 <= s.amplitude
    ensures env.period != 0 && env.counter == 0 && env.mode != 0 && amplitude != 0 ==>
      s.amplitude == (amplitude + 1) % 0x100
    ensures env.period != 0 && env.counter == 0 && env.mode == 0 && amplitude != 0 ==>
      s.amplitude == amplitude - 1
  {
    if env.period == 0 then EnvelopeStep(env, amplitude)
    else if env.counter != 0 then EnvelopeStep(env.(counter := env.counter - 1), amplitude)
    else
      var a := if amplitude == 0 then amplitude
               else (amplitude + (if env.mode != 0 then 1 else -1)) % 0x100;
      EnvelopeStep(env.(counter := env.period), a)
  }

  /** Clock envelope `e` against the amplitude of voice `k`. */
  function ClockChannel(d: Driver, e: nat, k: nat): (r: Driver)
    requires d.Valid() && e < 3 && k < VoiceCount
    ensures r.Valid()
  {
    var s := StepEnvelope(d.envelopes[e], AmplitudeOf(d, k));
    WithAmplitude(d, k, s.amplitude).(envelopes := d.envelopes[e := s.envelope])
  }

  /** `current_frame++` on a byte. */
  function NextFrame(f: Byte): Byte {
    (f + 1) % 0x100
  }

  /** Reference table: the envelope clocked on each frame (2 on 5, 0 on 6, 1 on 7). */
  function EnvelopeOfFrame(f: Byte): (e: Option<nat>)
    ensures e.Some? ==> e.value < 3
  {
    if f == 5 then Some(2) else if f == 6 then Some(0) else if f == 7 then Some(1) else None
  }

  /** The voice an envelope drives: channel 4's envelope drives voice 3. */
  function VoiceOfEnvelope(e: nat): (k: nat)
    requires e < 3
    ensures k < VoiceCount
  {
    if e == 2 then 3 else e
  }

  /**
    `clock()`: on frames 5, 6 and 7 clock the envelope of voice 3, 0 and 1;
    frame 7 rolls the counter over to 0, any other frame steps it by one.
  */
  function Clock(d: Driver): (r: Driver)
    requires d.Valid()
    ensures r.Valid()
    ensures r.currentFrame == if d.currentFrame == 7 then 0 else (d.currentFrame + 1) % 0x100
    ensures r.engine.waveRam == d.engine.waveRam && r.engine.currentVoice == d.engine.currentVoice
    ensures r.engine.mixer == d.engine.mixer
    ensures r.fnum == d.fnum && r.lengthCounters == d.lengthCounters
    ensures r.waveformAmplitude == d.waveformAmplitude
  {
    if d.currentFrame == 5 then ClockChannel(d, 2, 3).(currentFrame := NextFrame(5))
    else if d.currentFrame == 6 then ClockChannel(d, 0, 0).(currentFrame := NextFrame(6))
    else if d.currentFrame == 7 then ClockChannel(d, 1, 1).(currentFrame := NextFrame(255))
    else d.(currentFrame := NextFrame(d.currentFrame))
  }

  /**
    What one clock does to the envelopes and voices, against the frame
    table: the envelope `EnvelopeOfFrame` names takes one step against the
    amplitude of the voice it drives, which takes the stepped amplitude;
    every other envelope and voice is unchanged.
  */
  lemma ClockFollowsTable(d: Driver)
    requires d.Valid()
    ensures forall e :: 0 <= e < 3 ==>
      Clock(d).envelopes[e] ==
        if EnvelopeOfFrame(d.currentFrame) == Some(e)
        then StepEnvelope(d.envelopes[e], AmplitudeOf(d, VoiceOfEnvelope(e))).envelope
        else d.envelopes[e]
    ensures forall k :: 0 <= k < VoiceCount ==>
      Clock(d).engine.voices[k] ==
        if EnvelopeOfFrame(d.currentFrame).Some? && VoiceOfEnvelope(EnvelopeOfFrame(d.currentFrame).value) == k
        then d.engine.voices[k].(gain := Shared(
          StepEnvelope(d.envelopes[EnvelopeOfFrame(d.currentFrame).value], AmplitudeOf(d, k)).amplitude))
        else d.engine.voices[k]
  {
  }

  // ---------------------------------------------------------------- write

  /**
    The registers the decoder recognises, after the `+0x10` rebasing of
    the register number onto the FF10-based sound block.
  */
  datatype Register =
    | WavePattern(pair: nat)  // FF30-FF3F: two 4-bit samples each
    | Duty(channel: nat)      // NR11 (with the length load) and NR21
    | EnvelopeZero            // the case labelled decimal 12, which the rebased number reaches from 0xFC
    | StartVolume1            // NR22: starting volume only
    | FrequencyLow(channel: nat)   // NR13, NR23, NR33
    | FrequencyHigh(channel: nat)  // NR14, NR24, NR34: frequency bits 8-10 and the trigger bit
    | WaveLevel               // NR32
    | NoiseVolume             // NR42: starting volume only
    | NoiseTune               // NR43, taken as the raw tuning word
    | NoiseTrigger            // NR44
    | Ignored
  {
    predicate Valid() {
      match this
      case WavePattern(k) => k < 16
      case Duty(c) => c < 2
      case FrequencyLow(c) => c < 3
      case FrequencyHigh(c) => c < 3
      case _ => true
    }
  }

  /** `reg += 0x10` on a byte, then the register it selects. */
  function Decode(reg: bv8): (r: Register)
    ensures r.Valid()
  {
    var a := reg + 0x10;
    if a & 0xF0 == 0x30 then WavePattern((a & 0x0F) as nat)
    else if a == 0x11 then Duty(0)
    else if a == 12 then EnvelopeZero
    else if a == 0x13 then FrequencyLow(0)
    else if a == 0x14 then FrequencyHigh(0)
    else if a == 0x16 then Duty(1)
    else if a == 0x17 then StartVolume1
    else if a == 0x18 then FrequencyLow(1)
    else if a == 0x19 then FrequencyHigh(1)
    else if a == 0x1C then WaveLevel
    else if a == 0x1D then FrequencyLow(2)
    else if a == 0x1E then FrequencyHigh(2)
    else if a == 0x22 then NoiseTune
    else if a == 0x21 then NoiseVolume
    else if a == 0x23 then NoiseTrigger
    else Ignored
  }

  /** The register number a caller passes to reach `r`: the inverse of `Decode`. */
  function Address(r: Register): bv8
    requires r.Valid() && r != Ignored
  {
    match r
    case WavePattern(k) => 0x20 + k as bv8
    case Duty(c) => if c == 0 then 0x01 else 0x06
    case EnvelopeZero => 0xFC
    case StartVolume1 => 0x07
    case FrequencyLow(c) => if c == 0 then 0x03 else if c == 1 then 0x08 else 0x0D
    case FrequencyHigh(c) => if c == 0 then 0x04 else if c == 1 then 0x09 else 0x0E
    case WaveLevel => 0x0C
    case NoiseVolume => 0x11
    case NoiseTune => 0x12
    case NoiseTrigger => 0x13
  }

  /** A 16-bit value already known to fit in a byte. */
  function ByteValue(x: bv16): (b: Byte)
    requires x < 0x100
  {
    x as int
  }

  /** `data & 0xF0`: the upper sample of a pattern byte, left in place. */
  function UpperNibble(data: bv16): (b: Byte)
    ensures b % 16 == 0
  {
    ByteValue(data & 0xF0)
  }

  /** `data << 4` stored in a byte: the lower sample moved up. */
  function LowerNibble(data: bv16): (b: Byte)
    ensures b % 16 == 0
  {
    ByteValue((data << 4) & 0xFF)
  }

  /** `(data >> 1) & 0x60`: bits 6-7 (the duty code) times 32, i.e. a duty slot's base. */
  function DutySelect(data: bv16): (s: bv8)
    ensures s as nat == SlotBase(((data >> 6) & 3) as nat)
  {
    ((data >> 1) & 0x60) as bv8
  }

  /** `fnum = (fnum & 0x700) | data`: the low byte written without masking `data`. */
  function FrequencyLowWrite(f: bv16, data: bv16): (g: bv16)
    ensures g & 0x700 & f == f & 0x700
    ensures g & !0x700 == data & !0x700 && g & 0x700 == (f | data) & 0x700
    ensures data < 0x100 ==> g & 0xFF == data && g >> 8 == (f >> 8) & 7 && g <= 0x7FF
  {
    (f & 0x700) | data
  }

  /** `fnum = (fnum & 0xFF) | ((data & 7) << 8)`: bits 8-10 from `data`, low byte kept. */
  function FrequencyHighWrite(f: bv16, data: bv16): (g: bv16)
    ensures g <= 0x7FF && g & 0xFF == f & 0xFF && g >> 8 == data & 7
  {
    (f & 0xFF) | ((data & 7) << 8)
  }

  /** `2048 - fnum` for an 11-bit frequency register: never zero. */
  function Divisor(f: bv16): (n: nat)
    requires f <= 0x7FF
    ensures 1 <= n <= 2048
  {
    2048 - f as nat
  }

  /** The dividend of channel `c`'s frequency conversion: 32768, or 8190 for the wave channel. */
  function Dividend(c: nat): nat {
    if c == 2 then 8190 else 32768
  }

  /**
    The integer quotient handed to the frequency conversion on a trigger:
    the dividend over `2048 - fnum`, rounded down.
  */
  function TriggerQuotient(c: nat, f: bv16): (q: nat)
    requires f <= 0x7FF
    ensures q * Divisor(f) <= Dividend(c) < (q + 1) * Divisor(f)
  {
    FloorDivision(Dividend(c), Divisor(f));
    Dividend(c) / Divisor(f)
  }

  lemma FloorDivision(x: nat, n: nat)
    requires n >= 1
    ensures x / n >= 0
    ensures (x / n) * n <= x < (x / n + 1) * n
  {
    assert x == (x / n) * n + x % n;
  }

  /** The amplitude a trigger of channel `c` loads. */
  function TriggerLevel(d: Driver, c: nat): Byte
    requires d.Valid() && c < 3
  {
    if c == 2 then d.waveformAmplitude else d.envelopes[c].startingVolume
  }

  /** NR32's output-level codes 0x00, 0x20, 0x40, 0x60 map to 0, 60, 30, 15; other values keep the level. */
  function WaveLevelOf(data: bv16, current: Byte): Byte {
    if data == 0x00 then 0
    else if data == 0x20 then 60
    else if data == 0x40 then 30
    else if data == 0x60 then 15
    else current
  }

  /** The write to frequency-high register of channel `c` (voice `c`). */
  function TriggerChannel(d: Driver, c: nat, data: bv16, fnumber: nat -> bv16): (r: Driver)
    requires d.Valid() && c < 3
    ensures r.Valid()
  {
    var f := FrequencyHighWrite(d.fnum[c], data);
    var d1 := d.(fnum := d.fnum[c := f]);
    if data & 0x80 != 0 then
      var v := d.engine.voices[c];
      WithVoice(d1, c, v.(gain := Shared(TriggerLevel(d, c)), phase := 0,
                          tune := fnumber(TriggerQuotient(c, f))))
    else WithAmplitude(d1, c, 0)
  }

  /** The state change one decoded register write makes. */
  function Apply(d: Driver, r: Register, data: bv16, fnumber: nat -> bv16): (n: Driver)
    requires d.Valid() && r.Valid()
    ensures n.Valid()
    ensures n.currentFrame == d.currentFrame
  {
    match r
    case WavePattern(k) =>
      var ram := d.engine.waveRam[PatternBase + 2 * k := UpperNibble(data)][PatternBase + 2 * k + 1 := LowerNibble(data)];
      d.(engine := d.engine.(waveRam := ram))
    case Duty(c) =>
      var d1 := WithVoice(d, c, d.engine.voices[c].(waveSelect := DutySelect(data)));
      if c == 0 then
        d1.(lengthCounters := d.lengthCounters[0 := d.lengthCounters[0].(lengthLoad := ByteValue(data & 0x3F))])
      else d1
    case EnvelopeZero =>
      var env := d.envelopes[0].(startingVolume := UpperNibble(data),
                                 period := ByteValue(data & 7), mode := ByteValue(data & 8));
      d.(envelopes := d.envelopes[0 := env])
    case StartVolume1 =>
      d.(envelopes := d.envelopes[1 := d.envelopes[1].(startingVolume := UpperNibble(data))])
    case FrequencyLow(c) =>
      d.(fnum := d.fnum[c := FrequencyLowWrite(d.fnum[c], data)])
    case FrequencyHigh(c) =>
      TriggerChannel(d, c, data, fnumber)
    case WaveLevel =>
      d.(waveformAmplitude := WaveLevelOf(data, d.waveformAmplitude))
    case NoiseTune =>
      WithVoice(d, 3, d.engine.voices[3].(tune := data))
    case NoiseVolume =>
      d.(envelopes := d.envelopes[2 := d.envelopes[2].(startingVolume := ByteValue((data & 0xF0) >> 2))])
    case NoiseTrigger =>
      WithAmplitude(d, 3, if data & 0x80 != 0 then d.envelopes[2].startingVolume else 0)
    case Ignored =>
      d
  }

  /**
    `write(reg, data)`: a register write as the sound-data player issues
    it.  `fnumber` stands for the floating-point frequency-to-tuning
    conversion, applied to the integer quotient the source computes.
  */
  function Write(d: Driver, reg: bv8, data: bv16, fnumber: nat -> bv16): (n: Driver)
    requires d.Valid()
    ensures n.Valid()
    ensures n.currentFrame == d.currentFrame
    ensures Decode(reg) == Ignored ==> n == d
  {
    Apply(d, Decode(reg), data, fnumber)
  }
}
