/**
  The CTS7 wavetable memory: a 256-byte buffer organised as eight slots of 32
  samples, and the quarter-sine loader that fills one or two slots of it.
*/
module WaveRam {

  /** The value of an unsigned byte. */
  type Byte = x: int | 0 <= x < 0x100

  /** `0 - x` computed in an unsigned byte. */
  function Negate(x: Byte): (y: Byte)
    ensures (x + y) % 0x100 == 0
  {
    (0x100 - x) % 0x100
  }

  /** Size of the wavetable buffer (the non-halved configuration). */
  const WaveRamSize: nat := 256

  /** Samples per slot; slot `k` starts at sample `32 * k`. */
  const SlotSize: nat := 32

  function SlotBase(k: nat): (b: nat)
    requires k < 8
    ensures b % SlotSize == 0 && b + SlotSize <= WaveRamSize
  {
    SlotSize * k
  }

  /**
    `LUT_QUARTER_SINE`: the rising quarter of a sine wave, 17 points from
    0x80 to 0xFF, read by index from program memory.
  */
  function LutQuarterSine(i: nat): Byte
    requires i <= 16
  {
    match i
    case 0 => 0x80
    case 1 => 0x8B
    case 2 => 0x98
    case 3 => 0xA4
    case 4 => 0xB0
    case 5 => 0xBB
    case 6 => 0xC6
    case 7 => 0xD0
    case 8 => 0xD9
    case 9 => 0xE2
    case 10 => 0xE9
    case 11 => 0xEF
    case 12 => 0xF5
    case 13 => 0xF9
    case 14 => 0xFC
    case 15 => 0xFE
    case _ => 0xFF
  }

  /** A wavetable buffer of the configured size. */
  predicate IsWaveRam(ram: seq<Byte>) {
    |ram| == WaveRamSize
  }

  /**
    The loader's `size` argument: LOAD_64 (enum value 0) fills 64 samples,
    LOAD_32 (enum value 1) fills 32.  The loader bumps the value by one and
    uses it as a stride through the table and as the divisor of the
    iteration count `16 / stride`.
  */
  datatype LoadSize = Load64 | Load32 {

    function Code(): Byte {
      if Load64? then 0 else 1
    }

    function Stride(): (k: nat)
      ensures k == Code() as nat + 1
    {
      if Load64? then 1 else 2
    }

    /** Points written per quarter: `16 / stride`. */
    function Count(): (n: nat)
      ensures n * Stride() == 16
    {
      if Load64? then 16 else 8
    }

    /** Table point read for index `i` of a quarter: `i * stride`. */
    function LutIndex(i: nat): (k: nat)
      requires i < Count()
      ensures k < 16
    {
      if Load64? then i else 2 * i
    }
  }

  /** Whether the loader writes offset `o` from its slot. */
  predicate Written(size: LoadSize, o: int) {
    0 <= o < 64 && o % 16 < size.Count()
  }

  /**
    The point iteration `i` stores in quarter `q` of the window: quarters 0
    and 1 read the table forwards and backwards, quarters 2 and 3 store the
    byte-truncated complement `0x100 - x` of the same points.
  */
  function QuarterPoint(size: LoadSize, q: nat, i: nat): Byte
    requires q < 4 && i < size.Count()
  {
    var i2 := size.LutIndex(i);
    if q == 0 then LutQuarterSine(i2)
    else if q == 1 then LutQuarterSine(16 - i2)
    else if q == 2 then Negate(LutQuarterSine(i2))
    else Negate(LutQuarterSine(16 - i2))
  }

  /** Value the loader stores at offset `o` from its slot. */
  function SineValue(size: LoadSize, o: int): Byte
    requires Written(size, o)
  {
    QuarterPoint(size, o / 16, o % 16)
  }

  /** The precondition of `loadSineWave`: the written window lies inside the buffer. */
  predicate LoadFits(slot: nat, size: LoadSize) {
    slot + 48 + size.Count() <= WaveRamSize
  }

  /**
    Sample `j` once the loader has run its first `i` iterations from `slot`:
    a written offset whose index in its quarter is below `i` holds its sine
    value, every other sample is as before.
  */
  function PartialSample(ram: seq<Byte>, slot: nat, size: LoadSize, i: nat, j: int): Byte
    requires IsWaveRam(ram) && 0 <= j < WaveRamSize
  {
    if Written(size, j - slot) && (j - slot) % 16 < i then SineValue(size, j - slot) else ram[j]
  }

  /**
    The wavetable after `loadSineWave(slot, size)`: the written offsets of the
    64-sample window hold the sine values, everything else is as before.
  */
  function LoadedSine(ram: seq<Byte>, slot: nat, size: LoadSize): (r: seq<Byte>)
    requires IsWaveRam(ram) && LoadFits(slot, size)
    ensures IsWaveRam(r)
  {
    seq(WaveRamSize, j requires 0 <= j < WaveRamSize => PartialSample(ram, slot, size, 16, j))
  }

  /** The wavetable after the loader's first `i` iterations. */
  ghost function PartialSine(ram: seq<Byte>, s: nat, size: LoadSize, i: nat): (r: seq<Byte>)
    requires IsWaveRam(ram) && LoadFits(s, size)
    ensures IsWaveRam(r)
  {
    seq(WaveRamSize, j requires 0 <= j < WaveRamSize => PartialSample(ram, s, size, i, j))
  }

  /** Offset `16 * q + i` of a window lies in quarter `q` at index `i`. */
  lemma WindowOffset(size: LoadSize, q: nat, i: nat)
    requires q < 4 && i < 16
    ensures (16 * q + i) % 16 == i && (16 * q + i < 16 <==> q == 0)
    ensures (16 * q + i < 32 <==> q <= 1) && (16 * q + i < 48 <==> q <= 2)
    ensures Written(size, 16 * q + i) <==> i < size.Count()
  {
  }

  /** Writing quarter `q` at index `i` stores that offset's sine value. */
  lemma QuarterValue(size: LoadSize, q: nat, i: nat)
    requires q < 4 && i < size.Count()
    ensures Written(size, 16 * q + i)
    ensures SineValue(size, 16 * q + i) == QuarterPoint(size, q, i)
  {
    WindowOffset(size, q, i);
    assert (16 * q + i) / 16 == q;
  }

  /** Sample `j` of the table after `i` iterations. */
  lemma PartialSineAt(ram: seq<Byte>, s: nat, size: LoadSize, i: nat, j: nat)
    requires IsWaveRam(ram) && LoadFits(s, size) && j < WaveRamSize
    ensures PartialSine(ram, s, size, i)[j] ==
      if Written(size, j - s) && (j - s) % 16 < i then SineValue(size, j - s) else ram[j]
  {
  }

  /** Iteration `i` changes exactly the four offsets `i`, `i + 16`, `i + 32` and `i + 48`. */
  lemma PartialSineStepAt(ram: seq<Byte>, s: nat, size: LoadSize, i: nat, j: nat)
    requires IsWaveRam(ram) && LoadFits(s, size)
    requires i < size.Count() && j < WaveRamSize
    ensures PartialSine(ram, s, size, i + 1)[j] ==
      if j == i + s then QuarterPoint(size, 0, i)
      else if j == i + 16 + s then QuarterPoint(size, 1, i)
      else if j == i + 32 + s then QuarterPoint(size, 2, i)
      else if j == i + 48 + s then QuarterPoint(size, 3, i)
      else PartialSine(ram, s, size, i)[j]
  {
    PartialSineAt(ram, s, size, i + 1, j);
    PartialSineAt(ram, s, size, i, j);
    var o := j - s;
    if 0 <= o < 64 {
      var q, k := o / 16, o % 16;
      assert o == 16 * q + k;
      WindowOffset(size, q, k);
      if k == i {
        QuarterValue(size, q, i);
      }
    }
  }

  /** One loop iteration stores the four points of index `i`. */
  lemma PartialSineStep(ram: seq<Byte>, s: nat, size: LoadSize, i: nat)
    requires IsWaveRam(ram) && LoadFits(s, size)
    requires i < size.Count()
    ensures PartialSine(ram, s, size, i + 1) ==
      PartialSine(ram, s, size, i)
        [i + s := QuarterPoint(size, 0, i)]
        [i + 16 + s := QuarterPoint(size, 1, i)]
        [i + 32 + s := QuarterPoint(size, 2, i)]
        [i + 48 + s := QuarterPoint(size, 3, i)]
  {
    var a := PartialSine(ram, s, size, i + 1);
    var b := PartialSine(ram, s, size, i)
        [i + s := QuarterPoint(size, 0, i)]
        [i + 16 + s := QuarterPoint(size, 1, i)]
        [i + 32 + s := QuarterPoint(size, 2, i)]
        [i + 48 + s := QuarterPoint(size, 3, i)];
    forall j | 0 <= j < WaveRamSize
      ensures a[j] == b[j]
    {
      PartialSineStepAt(ram, s, size, i, j);
    }
  }

  /** After all `16 / stride` iterations the loop has produced the loaded table. */
  lemma PartialSineDone(ram: seq<Byte>, s: nat, size: LoadSize)
    requires IsWaveRam(ram) && LoadFits(s, size)
    ensures PartialSine(ram, s, size, size.Count()) == LoadedSine(ram, s, size)
  {
    var a := PartialSine(ram, s, size, size.Count());
    var b := LoadedSine(ram, s, size);
    forall j | 0 <= j < WaveRamSize
      ensures a[j] == b[j]
    {
      if Written(size, j - s) {
        assert (j - s) % 16 < size.Count();
        assert a[j] == SineValue(size, j - s) == b[j];
      } else {
        assert a[j] == ram[j] == b[j];
      }
    }
  }

  /**
    The loader as the source writes it: the size code is bumped by one, and
    each of the `16 / stride` iterations stores one point in each of the
    four quarters of the window, reading table point `i * stride`.
  */
  method LoadSineWave(ram: seq<Byte>, slot: Byte, size: LoadSize) returns (r: seq<Byte>)
    requires IsWaveRam(ram) && LoadFits(slot as nat, size)
    ensures r == LoadedSine(ram, slot as nat, size)
  {
    var s := slot as nat;
    r := ram;
    var i: nat := 0;
    while i < size.Count()
      invariant i <= size.Count()
      invariant r == PartialSine(ram, s, size, i)
    {
      PartialSineStep(ram, s, size, i);
      var i2 := size.LutIndex(i);
      r := r[i + s := LutQuarterSine(i2)];
      r := r[i + 16 + s := LutQuarterSine(16 - i2)];
      r := r[i + 32 + s := Negate(LutQuarterSine(i2))];
      r := r[i + 48 + s := Negate(LutQuarterSine(16 - i2))];
      i := i + 1;
    }
    PartialSineDone(ram, s, size);
  }

  /** Adjacent points of the quarter-sine table never decrease. */
  lemma LutStepsUp(k: nat)
    requires k < 16
    ensures LutQuarterSine(k) <= LutQuarterSine(k + 1)
  {
  }

  /** The quarter-sine table is non-decreasing, so every point is at least 0x80. */
  lemma {:induction false} LutAscending(a: nat, b: nat)
    requires a <= b <= 16
    ensures LutQuarterSine(a) <= LutQuarterSine(b)
    ensures 0x80 <= LutQuarterSine(a)
  {
    if a < b {
      LutAscending(a, b - 1);
      LutStepsUp(b - 1);
    } else if a > 0 {
      LutAscending(0, a);
    }
  }

  /** Sample `j` of the loaded table, read off its offset in the window. */
  lemma LoadedSineAt(ram: seq<Byte>, slot: nat, size: LoadSize, j: nat)
    requires IsWaveRam(ram) && LoadFits(slot, size) && j < WaveRamSize
    ensures LoadedSine(ram, slot, size)[j] ==
      if Written(size, j - slot) then SineValue(size, j - slot) else ram[j]
  {
  }

  /**
    Sample `slot + 16 * q + i` after `loadSineWave(slot, size)`: written
    indices hold the quarter's table point (or its complement), the rest of
    each quarter is left as it was.
  */
  lemma LoadedQuarter(ram: seq<Byte>, slot: nat, size: LoadSize, q: nat, i: nat)
    requires IsWaveRam(ram) && LoadFits(slot, size)
    requires q < 4 && i < 16 && slot + 16 * q + i < WaveRamSize
    ensures LoadedSine(ram, slot, size)[slot + 16 * q + i] ==
      if i < size.Count() then QuarterPoint(size, q, i) else ram[slot + 16 * q + i]
  {
    LoadedSineAt(ram, slot, size, slot + 16 * q + i);
    WindowOffset(size, q, i);
    if i < size.Count() {
      QuarterValue(size, q, i);
    }
  }

  /**
    `loadSineWave(slot, LOAD_64)` rewrites the whole 64-sample window and
    nothing else: outside it the table is unchanged, inside it the result
    does not depend on the old contents.
  */
  lemma Load64Window(ram: seq<Byte>, ram': seq<Byte>, slot: nat, j: nat)
    requires IsWaveRam(ram) && IsWaveRam(ram') && slot + 64 <= WaveRamSize && j < WaveRamSize
    ensures LoadFits(slot, Load64)
    ensures !(slot <= j < slot + 64) ==> LoadedSine(ram, slot, Load64)[j] == ram[j]
    ensures slot <= j < slot + 64 ==> LoadedSine(ram, slot, Load64)[j] == LoadedSine(ram', slot, Load64)[j]
  {
    LoadedSineAt(ram, slot, Load64, j);
    LoadedSineAt(ram', slot, Load64, j);
    if slot <= j < slot + 64 {
      var o := j - slot;
      assert o == 16 * (o / 16) + o % 16;
      WindowOffset(Load64, o / 16, o % 16);
    }
  }

  /** Quarters 2 and 3 hold `256 - x` for the points `x` of quarters 0 and 1. */
  lemma QuarterMirror(size: LoadSize, q: nat, i: nat)
    requires q < 2 && i < size.Count()
    ensures QuarterPoint(size, q + 2, i) == 256 - QuarterPoint(size, q, i)
  {
    LutAscending(if q == 0 then size.LutIndex(i) else 16 - size.LutIndex(i), 16);
  }

  /**
    The second half of a 64-sample sine is the first half negated about
    0x80: `wave_ram[slot + 32 + i] == 256 - wave_ram[slot + i]`.
  */
  lemma Load64Mirror(ram: seq<Byte>, slot: nat, i: nat)
    requires IsWaveRam(ram) && slot + 64 <= WaveRamSize && i < 32
    ensures LoadFits(slot, Load64)
    ensures LoadedSine(ram, slot, Load64)[slot + 32 + i] == 256 - LoadedSine(ram, slot, Load64)[slot + i]
  {
    var q := if i < 16 then 0 else 1;
    LoadedQuarter(ram, slot, Load64, q, i - 16 * q);
    LoadedQuarter(ram, slot, Load64, q + 2, i - 16 * q);
    QuarterMirror(Load64, q, i - 16 * q);
  }

  /** Samples 0..16 of a 64-sample sine are the table points themselves. */
  lemma Load64RisingSample(ram: seq<Byte>, slot: nat, a: nat)
    requires IsWaveRam(ram) && slot + 64 <= WaveRamSize && a <= 16
    ensures LoadFits(slot, Load64)
    ensures LoadedSine(ram, slot, Load64)[slot + a] == LutQuarterSine(a)
  {
    if a < 16 {
      LoadedQuarter(ram, slot, Load64, 0, a);
    } else {
      LoadedQuarter(ram, slot, Load64, 1, 0);
    }
  }

  /** The first quarter rises from 0x80 to the peak 0xFF at offset 16. */
  lemma Load64Rising(ram: seq<Byte>, slot: nat, a: nat, b: nat)
    requires IsWaveRam(ram) && slot + 64 <= WaveRamSize
    requires a <= b <= 16
    ensures LoadFits(slot, Load64)
    ensures LoadedSine(ram, slot, Load64)[slot] == 0x80
    ensures LoadedSine(ram, slot, Load64)[slot + 16] == 0xFF
    ensures LoadedSine(ram, slot, Load64)[slot + a] <= LoadedSine(ram, slot, Load64)[slot + b]
  {
    Load64RisingSample(ram, slot, 0);
    Load64RisingSample(ram, slot, 16);
    Load64RisingSample(ram, slot, a);
    Load64RisingSample(ram, slot, b);
    LutAscending(a, b);
  }

  /** Samples 16..32 of a 64-sample sine read the table backwards. */
  lemma Load64FallingSample(ram: seq<Byte>, slot: nat, a: nat)
    requires IsWaveRam(ram) && slot + 64 <= WaveRamSize && 16 <= a < 32
    ensures LoadFits(slot, Load64)
    ensures LoadedSine(ram, slot, Load64)[slot + a] == LutQuarterSine(32 - a)
  {
    LoadedQuarter(ram, slot, Load64, 1, a - 16);
  }

  /** The second quarter falls from the peak back towards 0x80. */
  lemma Load64Falling(ram: seq<Byte>, slot: nat, a: nat, b: nat)
    requires IsWaveRam(ram) && slot + 64 <= WaveRamSize
    requires 16 <= a <= b < 32
    ensures LoadFits(slot, Load64)
    ensures LoadedSine(ram, slot, Load64)[slot + a] >= LoadedSine(ram, slot, Load64)[slot + b]
  {
    Load64FallingSample(ram, slot, a);
    Load64FallingSample(ram, slot, b);
    LutAscending(32 - b, 32 - a);
  }

  /**
    `loadSineWave(slot, LOAD_32)` writes offsets 0-7, 16-23, 32-39 and 48-55
    from `slot`, taking every other table point: index `i` of quarter `q`
    holds the point the 64-sample load stores at index `2 i` of that quarter.
  */
  lemma Load32Written(ram: seq<Byte>, slot: nat, q: nat, i: nat)
    requires IsWaveRam(ram) && slot + 56 <= WaveRamSize
    requires q < 4 && i < 8
    ensures LoadFits(slot, Load32)
    ensures LoadedSine(ram, slot, Load32)[slot + 16 * q + i] == QuarterPoint(Load64, q, 2 * i)
  {
    LoadedQuarter(ram, slot, Load32, q, i);
  }

  /** Every sample `loadSineWave(slot, LOAD_32)` does not write keeps its old value. */
  lemma Load32Untouched(ram: seq<Byte>, slot: nat, j: nat)
    requires IsWaveRam(ram) && slot + 56 <= WaveRamSize && j < WaveRamSize
    requires !(slot <= j < slot + 64 && (j - slot) % 16 < 8)
    ensures LoadFits(slot, Load32)
    ensures LoadedSine(ram, slot, Load32)[j] == ram[j]
  {
    LoadedSineAt(ram, slot, Load32, j);
  }
}
