/**
  Whole rounds of the CTS7 tick: starting from a round boundary,
  `voiceCount / 2` ticks advance every voice exactly once and leave the sum
  of all voices' routed samples in the mixer, and the tick after that hands
  the high bytes of those sums to the DAC.
*/
module Cts7Round {
  import opened Wrappers
  import opened WaveRam
  import opened Cts7

  /** The state after `n` ticks. */
  function Run(cfg: Config, e: Engine, n: nat): (r: Engine)
    requires e.Valid(cfg)
    ensures r.Valid(cfg)
    ensures r.waveRam == e.waveRam
  {
    if n == 0 then e else Tick(cfg, Run(cfg, e, n - 1)).engine
  }

  /**
    A state at a round boundary: either the previous round has just
    finished (`current_voice == voiceCount`), or nothing has been mixed yet
    (as after `begin`).
  */
  predicate AtRoundBoundary(cfg: Config, e: Engine) {
    e.currentVoice == cfg.voiceCount || (e.currentVoice == 0 && e.mixer == SilentMixer)
  }

  /** The voices with the first `n` of them advanced once. */
  function AdvancedPrefix(voices: seq<Voice>, n: nat): (r: seq<Voice>)
    ensures |r| == |voices|
    ensures forall k :: 0 <= k < |voices| ==> r[k] == if k < n then Advance(voices[k]) else voices[k]
  {
    seq(|voices|, k requires 0 <= k < |voices| => if k < n then Advance(voices[k]) else voices[k])
  }

  /** Reference mix: the routed samples of voices `0 .. n-1`, summed in voice order modulo 2^16. */
  function RoundMix(cfg: Config, ram: seq<Byte>, voices: seq<Voice>, n: nat): Mixer
    requires IsWaveRam(ram) && n <= |voices|
  {
    if n == 0 then SilentMixer
    else Add(RoundMix(cfg, ram, voices, n - 1), Contribution(cfg, ram, voices[n - 1], n - 1))
  }

  /** The mix of the first `n` voices reads only those voices. */
  lemma {:induction false} RoundMixFrame(cfg: Config, ram: seq<Byte>, vs: seq<Voice>, ws: seq<Voice>, n: nat)
    requires IsWaveRam(ram) && n <= |vs| && n <= |ws|
    requires forall k :: 0 <= k < n ==> vs[k] == ws[k]
    ensures RoundMix(cfg, ram, vs, n) == RoundMix(cfg, ram, ws, n)
  {
    if n > 0 {
      RoundMixFrame(cfg, ram, vs, ws, n - 1);
    }
  }

  /** The tick that processes voices `k` and `k + 1` advances them on top of the first `k`. */
  lemma TickExtendsPrefix(cfg: Config, p: Engine, voices: seq<Voice>, k: nat, next: nat)
    requires p.Valid(cfg) && |voices| == cfg.voiceCount
    requires PairStart(cfg, p) == k && next == k + 2 && next <= cfg.voiceCount
    requires p.voices == AdvancedPrefix(voices, k)
    ensures Tick(cfg, p).engine.voices == AdvancedPrefix(voices, next)
  {
    var r := Tick(cfg, p).engine;
    var vs := AdvancedPrefix(voices, next);
    forall j | 0 <= j < |vs|
      ensures r.voices[j] == vs[j]
    {
    }
  }

  /** Mixing two more voices extends the reference mix by two terms. */
  lemma RoundMixStep(cfg: Config, ram: seq<Byte>, before: seq<Voice>, after: seq<Voice>, k: nat, next: nat)
    requires IsWaveRam(ram) && next == k + 2 && next <= |before| == |after|
    requires forall j :: 0 <= j < k ==> before[j] == after[j]
    ensures RoundMix(cfg, ram, after, next) ==
      Add(Add(RoundMix(cfg, ram, before, k), Contribution(cfg, ram, after[k], k)),
          Contribution(cfg, ram, after[k + 1], k + 1))
  {
    RoundMixFrame(cfg, ram, before, after, k);
    assert RoundMix(cfg, ram, after, k + 1) ==
      Add(RoundMix(cfg, ram, after, k), Contribution(cfg, ram, after[k], k));
  }

  /** The tick that processes voices `k` and `k + 1` adds their contributions to the mix of the first `k`. */
  lemma TickExtendsMix(cfg: Config, p: Engine, voices: seq<Voice>, k: nat, next: nat)
    requires p.Valid(cfg) && |voices| == cfg.voiceCount
    requires PairStart(cfg, p) == k && next == k + 2 && next <= cfg.voiceCount
    requires (if p.currentVoice == cfg.voiceCount then SilentMixer else p.mixer) ==
      RoundMix(cfg, p.waveRam, AdvancedPrefix(voices, k), k)
    requires Tick(cfg, p).engine.voices == AdvancedPrefix(voices, next)
    ensures Tick(cfg, p).engine.mixer == RoundMix(cfg, p.waveRam, AdvancedPrefix(voices, next), next)
  {
    var after := AdvancedPrefix(voices, next);
    var base := RoundMix(cfg, p.waveRam, AdvancedPrefix(voices, k), k);
    assert Tick(cfg, p).engine.mixer ==
      Add(Add(base, Contribution(cfg, p.waveRam, after[k], k)), Contribution(cfg, p.waveRam, after[k + 1], k + 1)) by {
      TickMixesPair(cfg, p, after, k);
    }
    RoundMixStep(cfg, p.waveRam, AdvancedPrefix(voices, k), after, k, next);
  }

  /** The tick's mixer, in terms of the voices it leaves behind. */
  lemma TickMixesPair(cfg: Config, p: Engine, after: seq<Voice>, k: nat)
    requires p.Valid(cfg) && PairStart(cfg, p) == k && k + 2 <= cfg.voiceCount
    requires Tick(cfg, p).engine.voices == after
    ensures |after| == cfg.voiceCount
    ensures Tick(cfg, p).engine.mixer ==
      Add(Add(if p.currentVoice == cfg.voiceCount then SilentMixer else p.mixer,
              Contribution(cfg, p.waveRam, after[k], k)),
          Contribution(cfg, p.waveRam, after[k + 1], k + 1))
  {
  }

  /**
    One tick extends a partial round: if the voices before index `k` have
    advanced and been mixed, the tick that processes voices `k` and `k + 1`
    leaves the first `k + 2` voices advanced and mixed.
  */
  lemma TickExtendsRound(cfg: Config, p: Engine, voices: seq<Voice>, k: nat, next: nat)
    requires p.Valid(cfg) && |voices| == cfg.voiceCount
    requires PairStart(cfg, p) == k && next == k + 2 && next <= cfg.voiceCount
    requires p.voices == AdvancedPrefix(voices, k)
    requires (if p.currentVoice == cfg.voiceCount then SilentMixer else p.mixer) ==
      RoundMix(cfg, p.waveRam, AdvancedPrefix(voices, k), k)
    ensures Tick(cfg, p).engine.currentVoice == next
    ensures Tick(cfg, p).engine.voices == AdvancedPrefix(voices, next)
    ensures Tick(cfg, p).engine.mixer == RoundMix(cfg, p.waveRam, AdvancedPrefix(voices, next), next)
  {
    TickExtendsPrefix(cfg, p, voices, k, next);
    TickExtendsMix(cfg, p, voices, k, next);
  }

  /**
    From a round boundary, after `n` ticks (`1 <= n <= voiceCount / 2`) the
    index is `2 n`, exactly the first `2 n` voices have advanced (once
    each), and the mixer holds the reference mix of those voices.
  */
  lemma {:induction false} RoundProgress(cfg: Config, e: Engine, n: nat)
    requires e.Valid(cfg) && AtRoundBoundary(cfg, e)
    requires 1 <= n && 2 * n <= cfg.voiceCount
    ensures Run(cfg, e, n).currentVoice == 2 * n
    ensures Run(cfg, e, n).voices == AdvancedPrefix(e.voices, 2 * n)
    ensures Run(cfg, e, n).mixer == RoundMix(cfg, e.waveRam, AdvancedPrefix(e.voices, 2 * n), 2 * n)
  {
    var p := Run(cfg, e, n - 1);
    var k := 2 * (n - 1);
    assert Run(cfg, e, n) == Tick(cfg, p).engine;
    assert PairStart(cfg, p) == k && p.voices == AdvancedPrefix(e.voices, k)
      && (if p.currentVoice == cfg.voiceCount then SilentMixer else p.mixer) ==
         RoundMix(cfg, p.waveRam, AdvancedPrefix(e.voices, k), k) by {
      if n == 1 {
        assert e.voices == AdvancedPrefix(e.voices, 0);
      } else {
        RoundProgress(cfg, e, n - 1);
      }
    }
    TickExtendsRound(cfg, p, e.voices, k, 2 * n);
  }

  /**
    A complete round: from a round boundary, `voiceCount / 2` ticks later
    every voice has advanced its phase by its tune exactly once, the index
    is back at `voiceCount`, and the next tick outputs the high bytes of
    the mix of all voices.
  */
  lemma RoundOutput(cfg: Config, e: Engine)
    requires e.Valid(cfg) && AtRoundBoundary(cfg, e)
    ensures Run(cfg, e, cfg.voiceCount / 2).currentVoice == cfg.voiceCount
    ensures forall k :: 0 <= k < |e.voices| ==> Run(cfg, e, cfg.voiceCount / 2).voices[k] == Advance(e.voices[k])
    ensures Tick(cfg, Run(cfg, e, cfg.voiceCount / 2)).output ==
      Some(DacOutput(HighByte(RoundMix(cfg, e.waveRam, Run(cfg, e, cfg.voiceCount / 2).voices, cfg.voiceCount).left),
                     HighByte(RoundMix(cfg, e.waveRam, Run(cfg, e, cfg.voiceCount / 2).voices, cfg.voiceCount).right)))
  {
    RoundProgress(cfg, e, cfg.voiceCount / 2);
  }

  /** One wrap of the phase accumulator: 0xFFF0 + 0x20 is 0x0010. */
  lemma PhaseWraps(v: Voice)
    requires v.phase == 0xFFF0 && v.tune == 0x20
    ensures Advance(v).phase == 0x0010
  {
  }
}
