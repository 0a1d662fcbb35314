/**
  The CTS7 wavetable synthesis engine: voices with 16-bit phase
  accumulators, the mask-and-select wavetable addressing, the 16-bit
  mixer, and the round-robin sample tick that advances two voices per call
  and hands the two mixed bytes to the DAC once per full round.
*/
module Cts7 {
  import opened Wrappers
  import opened WaveRam

  /** How voices reach the two outputs. */
  datatype StereoMode =
    | AlternateStereo  // the first voice of each pair feeds the left sum, the second the right sum
    | FullStereo       // every voice feeds both sums with its own left and right gain

  /** The compile-time configuration. */
  datatype Config = Config(voiceCount: nat, stereo: StereoMode) {

    /** The voice counts the build accepts: 2, 4, 6, 8 or 10. */
    predicate Valid() {
      2 <= voiceCount <= 10 && voiceCount % 2 == 0
    }
  }

  /**
    A voice's gain.  Without full stereo, `amplitude_l`, `amplitude_r` and
    `amplitude` are three names of one byte; with full stereo, `amplitude`
    names `amplitude_l` and `amplitude_r` is a byte of its own.
  */
  datatype Gain = Shared(amplitude: Byte) | Independent(left: Byte, right: Byte) {

    function Left(): Byte {
      match this
      case Shared(a) => a
      case Independent(l, _) => l
    }

    function Right(): Byte {
      match this
      case Shared(a) => a
      case Independent(_, r) => r
    }

    /** The byte read and written under the name `amplitude`. */
    function Amplitude(): Byte {
      Left()
    }

    /** Assigning through the name `amplitude`. */
    function WithAmplitude(a: Byte): (g: Gain)
      ensures g.Amplitude() == a
      ensures g.Shared? == Shared?
      ensures Independent? ==> g.Right() == Right()
      ensures Shared? ==> g.Right() == a
    {
      match this
      case Shared(_) => Shared(a)
      case Independent(_, r) => Independent(a, r)
    }

    /** The gain layout the stereo mode compiles to. */
    predicate Fits(mode: StereoMode) {
      Independent? <==> mode == FullStereo
    }
  }

  /** One oscillator. */
  datatype Voice = Voice(phase: bv16, tune: bv16, waveSelect: bv8, waveMask: bv8, gain: Gain)

  /** The value of an unsigned 16-bit sum. */
  type Sum16 = x: int | 0 <= x < 0x1_0000

  /** Addition in an unsigned 16-bit variable: the true sum, modulo 2^16. */
  function Wrap16(x: int): Sum16 {
    x % 0x1_0000
  }

  /** The two 16-bit mixing sums, held as their numeric values. */
  datatype Mixer = Mixer(left: Sum16, right: Sum16)

  const SilentMixer: Mixer := Mixer(0, 0)

  /** The two bytes written to the DAC registers at the end of a round. */
  datatype DacOutput = DacOutput(left: Byte, right: Byte)

  /** The high byte of a sum, `sum >> 8`. */
  function HighByte(x: Sum16): (b: Byte)
    ensures b * 256 <= x < b * 256 + 256
  {
    x / 256
  }

  /** The whole synthesis state: wave RAM, voices, round-robin index and mixer. */
  datatype Engine = Engine(waveRam: seq<Byte>, voices: seq<Voice>, currentVoice: nat, mixer: Mixer) {

    /**
      The invariant the tick keeps: buffer and voice array of the configured
      sizes, the round-robin index even and at most the voice count, and
      each gain in the layout of the stereo mode.
    */
    predicate Valid(cfg: Config) {
      && cfg.Valid()
      && IsWaveRam(waveRam)
      && |voices| == cfg.voiceCount
      && currentVoice % 2 == 0
      && currentVoice <= cfg.voiceCount
      && forall k :: 0 <= k < |voices| ==> voices[k].gain.Fits(cfg.stereo)
    }
  }

  /** What one tick produces: the next state and, at a round boundary, the DAC bytes. */
  datatype TickResult = TickResult(engine: Engine, output: Option<DacOutput>)

  /** `phase += tune`, wrapping modulo 2^16; nothing else about the voice changes. */
  function Advance(v: Voice): (w: Voice)
    ensures w.(phase := v.phase) == v
    ensures w.gain == v.gain
  {
    v.(phase := v.phase + v.tune)
  }

  /**
    The wavetable address `((phase >> 8) & wave_mask) | wave_select`.  It is
    a byte, so it always indexes the 256-byte buffer; every bit of
    `wave_select` is set in it, and every other bit is the masked bit of the
    phase's high byte.
  */
  function SampleAddress(v: Voice): (a: bv8)
    ensures (a as nat) < WaveRamSize
    ensures a & v.waveSelect == v.waveSelect
    ensures a & !v.waveSelect == ((v.phase >> 8) as bv8) & v.waveMask & !v.waveSelect
  {
    (((v.phase >> 8) as bv8) & v.waveMask) | v.waveSelect
  }

  /** The sample a voice currently reads. */
  function Sample(ram: seq<Byte>, v: Voice): Byte
    requires IsWaveRam(ram)
  {
    ram[SampleAddress(v)]
  }

  lemma MulMono(a: nat, b: nat, c: nat)
    requires a <= c
    ensures a * b <= c * b
  {}

  /** A product of two bytes fits in 16 bits and is zero only when a factor is. */
  lemma ByteProduct(a: Byte, b: Byte)
    ensures a * b < 0x1_0000
    ensures a * b == 0 <==> a == 0 || b == 0
  {
    MulMono(a, b, 255);
    MulMono(b, 255, 255);
    if a != 0 && b != 0 {
      MulMono(1, b, a);
    }
  }

  /**
    `out * amplitude`: a byte times a byte is below 2^16, so the 16-bit
    product is exact; only the sums it is added to wrap.
  */
  function Scaled(sample: Byte, gain: Byte): (p: Sum16)
    ensures p == 0 <==> sample == 0 || gain == 0
  {
    ByteProduct(sample, gain);
    sample * gain
  }

  /** The mixer after the first voice of a pair adds its sample (source order: left, then right). */
  function MixFirst(cfg: Config, m: Mixer, out: Byte, v: Voice): Mixer {
    var m1 := m.(left := Wrap16(m.left + Scaled(out, v.gain.Left())));
    if cfg.stereo == FullStereo then m1.(right := Wrap16(m1.right + Scaled(out, v.gain.Right()))) else m1
  }

  /** The mixer after the second voice of a pair adds its sample (source order: right, then left). */
  function MixSecond(cfg: Config, m: Mixer, out: Byte, v: Voice): Mixer {
    var m1 := m.(right := Wrap16(m.right + Scaled(out, v.gain.Right())));
    if cfg.stereo == FullStereo then m1.(left := Wrap16(m1.left + Scaled(out, v.gain.Left()))) else m1
  }

  /** Component-wise sum of mixer values, wrapping modulo 2^16. */
  function Add(a: Mixer, b: Mixer): Mixer {
    Mixer(Wrap16(a.left + b.left), Wrap16(a.right + b.right))
  }

  /**
    Reference routing: what a voice reading sample `s` adds to the two sums
    as voice number `k`.  Full stereo sends it to both sides with its own
    gains; otherwise even voices feed only the left sum and odd voices only
    the right sum.
  */
  function Route(cfg: Config, s: Byte, v: Voice, k: nat): Mixer {
    match cfg.stereo
    case FullStereo => Mixer(Scaled(s, v.gain.Left()), Scaled(s, v.gain.Right()))
    case AlternateStereo =>
      if k % 2 == 0 then Mixer(Scaled(s, v.gain.Left()), 0) else Mixer(0, Scaled(s, v.gain.Right()))
  }

  /** What voice `k` (already advanced) adds to the sums. */
  function Contribution(cfg: Config, ram: seq<Byte>, v: Voice, k: nat): Mixer
    requires IsWaveRam(ram)
  {
    Route(cfg, Sample(ram, v), v, k)
  }

  /** The first voice of a pair mixes exactly its reference contribution. */
  lemma MixFirstRoutes(cfg: Config, m: Mixer, s: Byte, v: Voice, k: nat)
    requires k % 2 == 0
    ensures MixFirst(cfg, m, s, v) == Add(m, Route(cfg, s, v, k))
  {
  }

  /** The second voice of a pair mixes exactly its reference contribution. */
  lemma MixSecondRoutes(cfg: Config, m: Mixer, s: Byte, v: Voice, k: nat)
    requires k % 2 == 1
    ensures MixSecond(cfg, m, s, v) == Add(m, Route(cfg, s, v, k))
  {
  }

  /** Index of the first voice the tick advances. */
  function PairStart(cfg: Config, e: Engine): nat {
    if e.currentVoice == cfg.voiceCount then 0 else e.currentVoice
  }

  /**
    The mixer after the two voices of a pair, already advanced, add their
    samples in source order: exactly their two reference contributions.
  */
  function MixPair(cfg: Config, ram: seq<Byte>, m: Mixer, first: Voice, second: Voice, k: nat): (r: Mixer)
    requires IsWaveRam(ram) && k % 2 == 0
    ensures r == Add(Add(m, Contribution(cfg, ram, first, k)), Contribution(cfg, ram, second, k + 1))
  {
    var m1 := MixFirst(cfg, m, ram[SampleAddress(first)], first);
    MixFirstRoutes(cfg, m, ram[SampleAddress(first)], first, k);
    MixSecondRoutes(cfg, m1, ram[SampleAddress(second)], second, k + 1);
    MixSecond(cfg, m1, ram[SampleAddress(second)], second)
  }

  /**
    The work of one tick after the round check: advance voices
    `current_voice` and `current_voice + 1`, add their samples to the mixer
    and move the index past them.
  */
  function StepPair(cfg: Config, e: Engine): (r: Engine)
    requires e.Valid(cfg) && e.currentVoice < cfg.voiceCount
    ensures r.Valid(cfg)
    ensures r.waveRam == e.waveRam && r.currentVoice == e.currentVoice + 2
    ensures forall j :: 0 <= j < |e.voices| ==>
      r.voices[j] == if j == e.currentVoice || j == e.currentVoice + 1 then Advance(e.voices[j]) else e.voices[j]
    ensures r.mixer ==
      Add(Add(e.mixer, Contribution(cfg, e.waveRam, r.voices[e.currentVoice], e.currentVoice)),
          Contribution(cfg, e.waveRam, r.voices[e.currentVoice + 1], e.currentVoice + 1))
  {
    var k := e.currentVoice;
    var first := Advance(e.voices[k]);
    var second := Advance(e.voices[k + 1]);
    Engine(e.waveRam, e.voices[k := first][k + 1 := second], k + 2, MixPair(cfg, e.waveRam, e.mixer, first, second, k))
  }

  /**
    The state the tick works from: at a round boundary the sums are
    cleared and the index wraps to voice 0, otherwise nothing changes.
  */
  function RoundStart(cfg: Config, e: Engine): (r: Engine)
    requires e.Valid(cfg)
    ensures r.Valid(cfg) && r.currentVoice < cfg.voiceCount
    ensures r.currentVoice == PairStart(cfg, e)
    ensures r.waveRam == e.waveRam && r.voices == e.voices
    ensures r.mixer == if e.currentVoice == cfg.voiceCount then SilentMixer else e.mixer
  {
    if e.currentVoice == cfg.voiceCount then e.(currentVoice := 0, mixer := SilentMixer) else e
  }

  /**
    One timer-overflow interrupt.  At a round boundary it emits the high
    bytes of both sums and clears them; then it advances voice
    `current_voice` and the next one, adds their samples to the mixer and
    moves `current_voice` on by two.
  */
  function Tick(cfg: Config, e: Engine): (r: TickResult)
    requires e.Valid(cfg)
    ensures r.engine.Valid(cfg)
    ensures r.engine.currentVoice == PairStart(cfg, e) + 2
    ensures 2 <= r.engine.currentVoice <= cfg.voiceCount
    ensures r.output.Some? <==> e.currentVoice == cfg.voiceCount
    ensures r.output.Some? ==>
      r.output.value == DacOutput(HighByte(e.mixer.left), HighByte(e.mixer.right))
    ensures r.engine.waveRam == e.waveRam
    ensures forall k :: 0 <= k < |e.voices| ==>
      r.engine.voices[k] == if k == PairStart(cfg, e) || k == PairStart(cfg, e) + 1
                            then Advance(e.voices[k]) else e.voices[k]
    ensures r.engine.mixer ==
      Add(Add(if e.currentVoice == cfg.voiceCount then SilentMixer else e.mixer,
              Contribution(cfg, e.waveRam, r.engine.voices[PairStart(cfg, e)], PairStart(cfg, e))),
          Contribution(cfg, e.waveRam, r.engine.voices[PairStart(cfg, e) + 1], PairStart(cfg, e) + 1))
  {
    var output :=
      if e.currentVoice == cfg.voiceCount
      then Some(DacOutput(HighByte(e.mixer.left), HighByte(e.mixer.right)))
      else None;
    TickResult(StepPair(cfg, RoundStart(cfg, e)), output)
  }

  /** The voice state at power-on: all zero except the 64-sample mask 0x3F. */
  function InitialVoice(cfg: Config): (v: Voice)
    ensures v.phase == 0 && v.tune == 0 && v.waveSelect == 0 && v.waveMask == 0x3F
    ensures v.gain.Fits(cfg.stereo) && v.gain.Left() == 0 && v.gain.Right() == 0
  {
    Voice(0, 0, 0, 0x3F, if cfg.stereo == FullStereo then Independent(0, 0) else Shared(0))
  }

  /**
    `begin()`, without the timer and pin set-up: zeroed state with slot 0
    and slot 1 holding a 64-sample sine.
  */
  function Begin(cfg: Config): (e: Engine)
    requires cfg.Valid()
    ensures e.Valid(cfg)
    ensures e.currentVoice == 0 && e.mixer == SilentMixer
    ensures forall k :: 0 <= k < |e.voices| ==> e.voices[k] == InitialVoice(cfg)
    ensures e.waveRam == LoadedSine(seq(WaveRamSize, _ => 0), SlotBase(0), Load64)
    ensures forall j :: 64 <= j < WaveRamSize ==> e.waveRam[j] == 0
  {
    var zeros := seq(WaveRamSize, _ => 0);
    var ram := LoadedSine(zeros, SlotBase(0), Load64);
    assert forall j :: 64 <= j < WaveRamSize ==> ram[j] == 0 by {
      forall j | 64 <= j < WaveRamSize
        ensures ram[j] == 0
      {
        LoadedSineAt(zeros, 0, Load64, j);
      }
    }
    Engine(ram, seq(cfg.voiceCount, _ => InitialVoice(cfg)), 0, SilentMixer)
  }

  /**
    The start-up table in slots 0 and 1: samples 0..16 are the quarter-sine
    points from 0x80 up to 0xFF, and each sample of the second half is 256
    minus the matching sample of the first half.
  */
  lemma BeginSine(cfg: Config, a: nat, i: nat)
    requires cfg.Valid() && a <= 16 && i < 32
    ensures Begin(cfg).waveRam[a] == LutQuarterSine(a)
    ensures Begin(cfg).waveRam[0] == 0x80 && Begin(cfg).waveRam[16] == 0xFF
    ensures Begin(cfg).waveRam[32 + i] == 256 - Begin(cfg).waveRam[i]
  {
    var zeros: seq<Byte> := seq(WaveRamSize, _ => 0);
    Load64RisingSample(zeros, 0, a);
    Load64Rising(zeros, 0, 0, 16);
    Load64Mirror(zeros, 0, i);
  }
}
