/**
  What the Game Boy register interpreter guarantees: the decoder's register
  map and its inverse, the effect of each register family, the pattern-RAM
  window the wave channel reads, the frame sequencer's cycle, the envelope
  rules over many clocks and the duty-cycle tables `begin` builds.
*/
module GameboyProperties {
  import opened Wrappers
  import opened WaveRam
  import opened Cts7
  import opened GameboySound

  // ------------------------------------------------------------ decoding

  /** Every recognised register is reached from the number `Address` gives. */
  lemma DecodeAddress(r: Register)
    requires r.Valid() && r != Ignored
    ensures Decode(Address(r)) == r
  {
    match r
    case WavePattern(k) => DecodePattern(k);
    case Duty(c) => if c == 0 { assert Decode(0x01) == r; } else { assert Decode(0x06) == r; }
    case EnvelopeZero => assert Decode(0xFC) == r;
    case StartVolume1 => assert Decode(0x07) == r;
    case FrequencyLow(c) =>
      if c == 0 { assert Decode(0x03) == r; }
      else if c == 1 { assert Decode(0x08) == r; }
      else { assert Decode(0x0D) == r; }
    case FrequencyHigh(c) =>
      if c == 0 { assert Decode(0x04) == r; }
      else if c == 1 { assert Decode(0x09) == r; }
      else { assert Decode(0x0E) == r; }
    case WaveLevel => assert Decode(0x0C) == r;
    case NoiseVolume => assert Decode(0x11) == r;
    case NoiseTune => assert Decode(0x12) == r;
    case NoiseTrigger => assert Decode(0x13) == r;
  }

  lemma DecodePattern(k: nat)
    requires k < 16
    ensures Decode(0x20 + k as bv8) == WavePattern(k)
  {
    var a: bv8 := 0x20 + k as bv8 + 0x10;
    assert a == 0x30 + k as bv8;
    assert a & 0xF0 == 0x30 && a & 0x0F == k as bv8;
  }

  /** A register number that decodes to something is that register's `Address`. */
  lemma AddressDecode(reg: bv8)
    requires Decode(reg) != Ignored
    ensures Address(Decode(reg)) == reg
  {
    var a := reg + 0x10;
    if a & 0xF0 == 0x30 {
      assert Decode(reg) == WavePattern((a & 0x0F) as nat);
    }
  }

  /**
    The rebasing wraps: the decimal-12 case is reached from 0xFC, and NR12
    (number 0x02, rebased to 0x12) is not recognised at all.
  */
  lemma EnvelopeCaseNumber()
    ensures Decode(0xFC) == EnvelopeZero
    ensures Decode(0x02) == Ignored
    ensures forall reg: bv8 :: Decode(reg) == EnvelopeZero ==> reg == 0xFC
  {
    forall reg: bv8 | Decode(reg) == EnvelopeZero
      ensures reg == 0xFC
    {
      AddressDecode(reg);
    }
  }

  /** Writing to a register's number applies exactly that register. */
  lemma WriteAt(d: Driver, r: Register, data: bv16, fnumber: nat -> bv16)
    requires d.Valid() && r.Valid() && r != Ignored
    ensures Write(d, Address(r), data, fnumber) == Apply(d, r, data, fnumber)
  {
    DecodeAddress(r);
  }

  // ------------------------------------------------------------ pattern RAM

  /** The two samples of a pattern byte: each 4-bit nibble lands in the upper half of its byte. */
  lemma NibbleBits(data: bv16)
    ensures data & 0xF0 == ((data >> 4) & 0x0F) << 4
    ensures (data << 4) & 0xFF == (data & 0x0F) << 4
  {
  }

  /**
    A write to FF30-FF3F (number `0x20 + k`) stores the first 4-bit sample
    of `data` at `128 + 2k` and the second at `128 + 2k + 1`, each moved to
    the upper half of its byte; those two bytes lie in the pattern window
    and nothing else changes.
  */
  lemma PatternWrite(d: Driver, reg: bv8, data: bv16, fnumber: nat -> bv16)
    requires d.Valid()
    requires (reg + 0x10) & 0xF0 == 0x30
    ensures var n := Write(d, reg, data, fnumber);
      var k := ((reg + 0x10) & 0x0F) as nat;
      && PatternBase <= PatternBase + 2 * k && PatternBase + 2 * k + 1 < PatternBase + SlotSize
      && n.engine.waveRam[PatternBase + 2 * k] == ByteValue(((data >> 4) & 0x0F) << 4)
      && n.engine.waveRam[PatternBase + 2 * k + 1] == ByteValue((data & 0x0F) << 4)
      && (forall j :: 0 <= j < WaveRamSize && j != PatternBase + 2 * k && j != PatternBase + 2 * k + 1 ==>
            n.engine.waveRam[j] == d.engine.waveRam[j])
      && n == d.(engine := d.engine.(waveRam := n.engine.waveRam))
  {
    var k := ((reg + 0x10) & 0x0F) as nat;
    assert Decode(reg) == WavePattern(k);
    NibbleBits(data);
  }

  /**
    The wave channel's voice (mask 31, select 0x80, as `begin` sets it)
    reads only the pattern window 128..159 ...
  */
  lemma WaveVoiceInWindow(v: Voice)
    requires v.waveMask == 31 && v.waveSelect == 0x80
    ensures PatternBase <= SampleAddress(v) as nat < PatternBase + SlotSize
  {
  }

  /** ... and reaches every sample of it at some phase. */
  lemma WaveVoiceCoversWindow(v: Voice, o: nat)
    requires v.waveMask == 31 && v.waveSelect == 0x80
    requires o < SlotSize
    ensures SampleAddress(v.(phase := (o as bv16) << 8)) as nat == PatternBase + o
  {
    var b: bv8 := o as bv8;
    assert ((o as bv16) << 8 >> 8) as bv8 == b;
    assert (b & 31) | 0x80 == b + 0x80 by {
      assert b < 32;
    }
    assert (b + 0x80) as nat == o + 128;
  }

  // ------------------------------------------------------------ triggers

  /**
    Frequency-high register of channel `c` with bit 7 set: bits 8-10 of the
    frequency register come from `data`, its low byte stays, and voice `c`
    restarts at phase 0 with the trigger level and the tuning word for
    `K / (2048 - fnum)`; nothing else changes.
  */
  lemma TriggerOn(d: Driver, c: nat, data: bv16, fnumber: nat -> bv16)
    requires d.Valid() && c < 3
    requires data & 0x80 != 0
    ensures var n := Apply(d, FrequencyHigh(c), data, fnumber);
      var f := FrequencyHighWrite(d.fnum[c], data);
      && f & 0xFF == d.fnum[c] & 0xFF && f >> 8 == data & 7 && f <= 0x7FF
      && n.engine.voices[c] == d.engine.voices[c].(
           phase := 0, gain := Shared(TriggerLevel(d, c)),
           tune := fnumber(TriggerQuotient(c, f)))
      && n == d.(fnum := d.fnum[c := f], engine := d.engine.(voices := n.engine.voices))
      && (forall k :: 0 <= k < VoiceCount && k != c ==> n.engine.voices[k] == d.engine.voices[k])
  {
  }

  /** With bit 7 clear, only the frequency bits are taken and voice `c` is silenced. */
  lemma TriggerOff(d: Driver, c: nat, data: bv16, fnumber: nat -> bv16)
    requires d.Valid() && c < 3
    requires data & 0x80 == 0
    ensures var n := Apply(d, FrequencyHigh(c), data, fnumber);
      && n.fnum == d.fnum[c := FrequencyHighWrite(d.fnum[c], data)]
      && n.engine.voices == d.engine.voices[c := d.engine.voices[c].(gain := Shared(0))]
      && n == d.(fnum := n.fnum, engine := d.engine.(voices := n.engine.voices))
  {
  }

  /**
    Frequency-low register of channel `c`: bits 8-10 of the frequency
    register survive; a byte-sized `data` becomes the low byte, so the
    register stays within 11 bits, as the trigger's divisor needs.
  */
  lemma FrequencyLowKeepsHigh(d: Driver, c: nat, data: bv16, fnumber: nat -> bv16)
    requires d.Valid() && c < 3
    ensures var n := Apply(d, FrequencyLow(c), data, fnumber);
      && n == d.(fnum := n.fnum)
      && (forall k :: 0 <= k < 3 && k != c ==> n.fnum[k] == d.fnum[k])
      && n.fnum[c] & d.fnum[c] & 0x700 == d.fnum[c] & 0x700
      && (data < 0x100 ==>
            n.fnum[c] & 0xFF == data && n.fnum[c] >> 8 == (d.fnum[c] >> 8) & 7 && n.fnum[c] <= 0x7FF)
  {
  }

  // ------------------------------------------------------------ other registers

  /**
    NR11 and NR21 move voice 0 or 1 to one of the four duty slots, chosen
    by bits 6-7 of `data`; NR11 also loads channel 1's length counter with
    the low 6 bits.
  */
  lemma DutyWrite(d: Driver, c: nat, data: bv16, fnumber: nat -> bv16)
    requires d.Valid() && c < 2
    ensures var n := Apply(d, Duty(c), data, fnumber);
      && n.engine.voices == d.engine.voices[c := d.engine.voices[c].(waveSelect := n.engine.voices[c].waveSelect)]
      && n.engine.voices[c].waveSelect in {0, 32, 64, 96}
      && n.engine.voices[c].waveSelect as nat == SlotBase(((data >> 6) & 3) as nat)
      && n.lengthCounters ==
           (if c == 0 then d.lengthCounters[0 := d.lengthCounters[0].(lengthLoad := ByteValue(data & 0x3F))]
            else d.lengthCounters)
      && n == d.(engine := d.engine.(voices := n.engine.voices), lengthCounters := n.lengthCounters)
  {
  }

  /**
    The NR32 output-level codes in bits 5-6 of `data`: code 0 mutes the
    wave channel, codes 1-3 give full level (60), half and quarter, i.e.
    60 shifted right by `code - 1`.
  */
  lemma WaveLevelCodes(d: Driver, code: nat, fnumber: nat -> bv16)
    requires d.Valid() && code < 4
    ensures var n := Apply(d, WaveLevel, (code as bv16) << 5, fnumber);
      && n == d.(waveformAmplitude := n.waveformAmplitude)
      && n.waveformAmplitude == [0, 60, 30, 15][code]
  {
  }

  /** Any other NR32 value leaves the wave channel's level as it was. */
  lemma WaveLevelOther(d: Driver, data: bv16, fnumber: nat -> bv16)
    requires d.Valid()
    requires data != 0x00 && data != 0x20 && data != 0x40 && data != 0x60
    ensures Apply(d, WaveLevel, data, fnumber) == d
  {
  }

  /**
    The decimal-12 case (number 0xFC) sets envelope 0's starting volume
    (the 4-bit volume times 16), period (3 bits) and direction (bit 3);
    NR22 only sets envelope 1's starting volume, and NR42 envelope 2's,
    there as the 4-bit volume times 4.
  */
  lemma EnvelopeWrites(d: Driver, data: bv16, fnumber: nat -> bv16)
    requires d.Valid()
    ensures var n := Apply(d, EnvelopeZero, data, fnumber);
      && n == d.(envelopes := d.envelopes[0 := n.envelopes[0]])
      && n.envelopes[0].startingVolume == ByteValue(((data >> 4) & 0x0F) << 4)
      && n.envelopes[0].period == ByteValue(data & 7)
      && (n.envelopes[0].mode != 0 <==> data & 8 != 0)
      && n.envelopes[0].counter == d.envelopes[0].counter
    ensures var n := Apply(d, StartVolume1, data, fnumber);
      n == d.(envelopes := d.envelopes[1 := d.envelopes[1].(startingVolume := ByteValue(((data >> 4) & 0x0F) << 4))])
    ensures var n := Apply(d, NoiseVolume, data, fnumber);
      && n == d.(envelopes := d.envelopes[2 := d.envelopes[2].(startingVolume := ByteValue(((data >> 4) & 0x0F) << 2))])
      && n.envelopes[2].startingVolume <= 60
  {
    NibbleBits(data);
    assert (data & 0xF0) >> 2 == ((data >> 4) & 0x0F) << 2;
  }

  /** NR43 takes `data` as voice 3's tuning word; NR44 gates voice 3 with envelope 2's starting volume. */
  lemma NoiseWrites(d: Driver, data: bv16, fnumber: nat -> bv16)
    requires d.Valid()
    ensures Apply(d, NoiseTune, data, fnumber) ==
      d.(engine := d.engine.(voices := d.engine.voices[3 := d.engine.voices[3].(tune := data)]))
    ensures Apply(d, NoiseTrigger, data, fnumber) ==
      d.(engine := d.engine.(voices := d.engine.voices[3 := d.engine.voices[3].(gain := Shared(
        if data & 0x80 != 0 then d.envelopes[2].startingVolume else 0))]))
  {
  }

  // ------------------------------------------------------------ frame sequencer

  /** `n` calls of `clock()`. */
  function Clocks(d: Driver, n: nat): (r: Driver)
    requires d.Valid()
    ensures r.Valid()
    ensures r.fnum == d.fnum && r.engine.waveRam == d.engine.waveRam
  {
    if n == 0 then d else Clock(Clocks(d, n - 1))
  }

  /** From any frame in 0..7 the sequencer counts modulo 8. */
  lemma FrameStep(d: Driver)
    requires d.Valid() && d.currentFrame <= 7
    ensures Clock(d).currentFrame == (d.currentFrame + 1) % 8
  {
  }

  /** After `n` clocks the frame is the start frame plus `n`, modulo 8. */
  lemma {:induction false} FrameCycles(d: Driver, n: nat)
    requires d.Valid() && d.currentFrame <= 7
    ensures Clocks(d, n).currentFrame == (d.currentFrame + n) % 8
  {
    if n > 0 {
      var p := Clocks(d, n - 1);
      var x := d.currentFrame + n - 1;
      FrameCycles(d, n - 1);
      assert p.currentFrame == x % 8;
      FrameStep(p);
      ModStep(x);
      assert Clocks(d, n).currentFrame == (x + 1) % 8;
    }
  }

  lemma ModStep(x: nat)
    ensures (x % 8 + 1) % 8 == (x + 1) % 8
  {
  }

  /**
    An envelope is clocked only on its own frame (envelope 2 on frame 5,
    envelope 0 on 6, envelope 1 on 7), and only the voice it drives sees
    an amplitude change.
  */
  lemma EnvelopeOnItsFrame(d: Driver, e: nat)
    requires d.Valid() && e < 3
    ensures var frame := if e == 2 then 5 else if e == 0 then 6 else 7;
      && (Clock(d).envelopes[e] != d.envelopes[e] ==> d.currentFrame == frame)
      && (Clock(d).engine.voices[VoiceOfEnvelope(e)] != d.engine.voices[VoiceOfEnvelope(e)] ==> d.currentFrame == frame)
    ensures Clock(d).engine.voices[2] == d.engine.voices[2]
  {
    ClockFollowsTable(d);
  }

  // ------------------------------------------------------------ envelopes

  /** `n` clocks of one envelope on its own. */
  function EnvelopeSteps(env: Envelope, a: Byte, n: nat): EnvelopeStep {
    if n == 0 then EnvelopeStep(env, a)
    else
      var s := EnvelopeSteps(env, a, n - 1);
      StepEnvelope(s.envelope, s.amplitude)
  }

  /** Clocks split at any point. */
  lemma {:induction false} EnvelopeStepsSplit(env: Envelope, a: Byte, m: nat, n: nat)
    ensures var s := EnvelopeSteps(env, a, m);
      EnvelopeSteps(env, a, m + n) == EnvelopeSteps(s.envelope, s.amplitude, n)
  {
    if n > 0 {
      EnvelopeStepsSplit(env, a, m, n - 1);
    }
  }

  /** A running counter counts down to zero without touching the amplitude. */
  lemma {:induction false} EnvelopeCountdown(env: Envelope, a: Byte, n: nat)
    requires env.period != 0 && n <= env.counter
    ensures EnvelopeSteps(env, a, n) == EnvelopeStep(env.(counter := env.counter - n), a)
  {
    if n > 0 {
      EnvelopeCountdown(env, a, n - 1);
    }
  }

  /** Clocks a decreasing envelope needs to silence amplitude `a` from counter `c`. */
  function FadeTime(c: nat, period: nat, a: nat): nat
    decreases a
  {
    if a == 0 then 0 else c + 1 + FadeTime(period, period, a - 1)
  }

  /**
    A decreasing envelope with a non-zero period brings any amplitude down
    to 0: one step every `period + 1` clocks after the counter first runs
    out, never wrapping below 0.
  */
  lemma {:induction false} DecreasingEnvelopeFades(env: Envelope, a: Byte)
    requires env.mode == 0 && env.period != 0
    decreases a
    ensures EnvelopeSteps(env, a, FadeTime(env.counter, env.period, a)).amplitude == 0
  {
    if a > 0 {
      var c: nat := env.counter;
      var rest := FadeTime(env.period, env.period, a - 1);
      EnvelopeCountdown(env, a, c);
      EnvelopeStepsSplit(env, a, c, 1);
      var s := EnvelopeSteps(env, a, c + 1);
      assert s == EnvelopeStep(env.(counter := env.period), a - 1);
      EnvelopeStepsSplit(env, a, c + 1, rest);
      DecreasingEnvelopeFades(env.(counter := env.period), a - 1);
    }
  }

  /** An increasing envelope at 255 steps to 0 (byte wrap-around) and then stays silent. */
  lemma IncreasingEnvelopeWraps(env: Envelope)
    requires env.period != 0 && env.counter == 0 && env.mode != 0
    ensures StepEnvelope(env, 255).amplitude == 0
    ensures StepEnvelope(StepEnvelope(env, 255).envelope, 0).amplitude == 0
  {
  }

  // ------------------------------------------------------------ envelope cycles

  /** `n` rounds of eight `clock()` calls. */
  function Cycles(d: Driver, n: nat): (r: Driver)
    requires d.Valid()
    ensures r.Valid()
  {
    if n == 0 then d else Clocks(Cycles(d, n - 1), 8)
  }

  /** Frames 0-4 only advance the frame counter. */
  lemma QuietClock(d: Driver)
    requires d.Valid() && d.currentFrame < 5
    ensures Clock(d) == d.(currentFrame := d.currentFrame + 1)
  {
  }

  /** From frame 0 the first five clocks only advance the frame counter. */
  lemma {:induction false} QuietFrames(d: Driver, n: nat)
    requires d.Valid() && d.currentFrame == 0 && n <= 5
    ensures Clocks(d, n) == d.(currentFrame := n)
  {
    if n > 0 {
      QuietFrames(d, n - 1);
      QuietClock(d.(currentFrame := n - 1));
    }
  }

  /**
    One 8-frame cycle from frame 0: every envelope takes exactly one step
    against the amplitude of the voice it drives, that voice takes the
    stepped amplitude, and the frame counter is back at 0.
  */
  lemma FrameCycle(d: Driver, e: nat)
    requires d.Valid() && d.currentFrame == 0 && e < 3
    ensures Clocks(d, 8).Valid() && Clocks(d, 8).currentFrame == 0
    ensures var s := StepEnvelope(d.envelopes[e], AmplitudeOf(d, VoiceOfEnvelope(e)));
      Clocks(d, 8).envelopes[e] == s.envelope && AmplitudeOf(Clocks(d, 8), VoiceOfEnvelope(e)) == s.amplitude
  {
    var d5 := Clocks(d, 5);
    QuietFrames(d, 5);
    var d6 := Clock(d5);
    var d7 := Clock(d6);
    var d8 := Clock(d7);
    assert Clocks(d, 6) == d6;
    assert Clocks(d, 7) == d7;
    assert Clocks(d, 8) == d8;
    ClockFollowsTable(d5);
    ClockFollowsTable(d6);
    ClockFollowsTable(d7);
  }

  /**
    The driver's clock against an envelope's own steps: from frame 0,
    `n` rounds of eight clocks give each envelope and the voice it drives
    exactly `n` envelope steps, and end on frame 0.
  */
  lemma {:induction false} EnvelopeCycles(d: Driver, e: nat, n: nat)
    requires d.Valid() && d.currentFrame == 0 && e < 3
    ensures Cycles(d, n).currentFrame == 0
    ensures var s := EnvelopeSteps(d.envelopes[e], AmplitudeOf(d, VoiceOfEnvelope(e)), n);
      Cycles(d, n).envelopes[e] == s.envelope && AmplitudeOf(Cycles(d, n), VoiceOfEnvelope(e)) == s.amplitude
  {
    if n > 0 {
      var p := Cycles(d, n - 1);
      EnvelopeCycles(d, e, n - 1);
      FrameCycle(p, e);
    }
  }

  // ------------------------------------------------------------ duty tables

  /** The number of non-zero samples in a table. */
  function NonZeroCount(s: seq<Byte>): (n: nat)
    ensures n <= |s|
  {
    if |s| == 0 then 0 else NonZeroCount(s[..|s| - 1]) + (if s[|s| - 1] != 0 then 1 else 0)
  }

  /** The number of set bits among the first `m` bits of a pattern, from the top. */
  function BitsSet(pattern: bv8, m: nat): nat
    requires m <= 8
  {
    if m == 0 then 0
    else BitsSet(pattern, m - 1) + (if pattern & ((0x80 as bv8) >> (m - 1)) != 0 then 1 else 0)
  }

  /** The number of non-zero samples among the first `n` of a duty wave. */
  function PulseCount(pattern: bv8, n: nat): nat
    requires n <= SlotSize
  {
    if n == 0 then 0 else PulseCount(pattern, n - 1) + (if DutySample(pattern, n - 1) != 0 then 1 else 0)
  }

  /** A table holding the first samples of a duty wave has that wave's count. */
  lemma {:induction false} TableCount(s: seq<Byte>, pattern: bv8)
    requires |s| <= SlotSize
    requires forall i :: 0 <= i < |s| ==> s[i] == DutySample(pattern, i)
    ensures NonZeroCount(s) == PulseCount(pattern, |s|)
  {
    if |s| > 0 {
      var p := s[..|s| - 1];
      assert forall i :: 0 <= i < |p| ==> p[i] == DutySample(pattern, i);
      TableCount(p, pattern);
    }
  }

  /** The four samples of group `g` all show bit `7 - g` of the pattern. */
  lemma DutyGroup(pattern: bv8, g: nat, i: nat)
    requires g < 8 && 4 * g <= i < 4 * g + 4
    ensures DutySample(pattern, i) == if pattern & ((0x80 as bv8) >> g) != 0 then PulseLevel else 0
  {
    assert i / 4 == g;
  }

  lemma PulseStep(pattern: bv8, n: nat)
    requires n < SlotSize
    ensures PulseCount(pattern, n + 1) == PulseCount(pattern, n) + if DutySample(pattern, n) != 0 then 1 else 0
  {
  }

  /** One group of four samples adds four pulses or none, as its bit says. */
  lemma GroupStep(pattern: bv8, g: nat)
    requires g < 8
    ensures PulseCount(pattern, 4 * g + 4) ==
      PulseCount(pattern, 4 * g) + if pattern & ((0x80 as bv8) >> g) != 0 then 4 else 0
  {
    var i := 4 * g;
    DutyGroup(pattern, g, i);
    DutyGroup(pattern, g, i + 1);
    DutyGroup(pattern, g, i + 2);
    DutyGroup(pattern, g, i + 3);
    PulseStep(pattern, i);
    PulseStep(pattern, i + 1);
    PulseStep(pattern, i + 2);
    PulseStep(pattern, i + 3);
  }

  /** Each pattern bit stands for four samples, so a duty wave has 4 non-zero samples per set bit. */
  lemma {:induction false} PulseGroups(pattern: bv8, m: nat)
    requires m <= 8
    ensures PulseCount(pattern, 4 * m) == 4 * BitsSet(pattern, m)
  {
    if m > 0 {
      PulseGroups(pattern, m - 1);
      GroupStep(pattern, m - 1);
    }
  }

  /** The patterns have 1, 2, 4 and 6 bits set. */
  lemma PatternBits(k: nat)
    requires k < 4
    ensures 4 * BitsSet(DutyPattern(k), 8) == [4, 8, 16, 24][k]
  {
    if k == 0 {
      assert BitsSet(0x40, 8) == 1;
    } else if k == 1 {
      assert BitsSet(0xC0, 8) == 2;
    } else if k == 2 {
      assert BitsSet(0xF0, 8) == 4;
    } else {
      assert BitsSet(0x3F, 8) == 6;
    }
  }

  /** Slot `k` of a buffer laid out as `begin` leaves it is duty wave `k`. */
  lemma SlotHoldsWave(ram: seq<Byte>, k: nat)
    requires IsWaveRam(ram) && k < 4
    requires forall j :: 0 <= j < 4 * SlotSize ==> ram[j] == DutySample(DutyPattern(j / SlotSize), j % SlotSize)
    ensures forall i :: 0 <= i < SlotSize ==> ram[SlotBase(k)..SlotBase(k) + SlotSize][i] == DutySample(DutyPattern(k), i)
  {
    var s := ram[SlotBase(k)..SlotBase(k) + SlotSize];
    forall i | 0 <= i < SlotSize
      ensures s[i] == DutySample(DutyPattern(k), i)
    {
      var j := SlotBase(k) + i;
      assert s[i] == ram[j];
      assert j / SlotSize == k && j % SlotSize == i;
    }
  }

  /**
    The four duty tables `begin` writes hold 4, 8, 16 and 24 samples at
    level 80 (12.5%, 25%, 50% and 75% of 32) and zeros elsewhere.
  */
  lemma DutySlotCounts(ram: seq<Byte>, k: nat)
    requires IsWaveRam(ram) && k < 4
    requires forall j :: 0 <= j < 4 * SlotSize ==> ram[j] == DutySample(DutyPattern(j / SlotSize), j % SlotSize)
    ensures NonZeroCount(ram[SlotBase(k)..SlotBase(k) + SlotSize]) == [4, 8, 16, 24][k]
    ensures forall j :: SlotBase(k) <= j < SlotBase(k) + SlotSize ==> ram[j] == 0 || ram[j] == PulseLevel
  {
    SlotHoldsWave(ram, k);
    TableCount(ram[SlotBase(k)..SlotBase(k) + SlotSize], DutyPattern(k));
    PulseGroups(DutyPattern(k), 8);
    PatternBits(k);
  }
}
