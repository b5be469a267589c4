/**
  The resamplers of the media bridge and of the ringback sender, and the byte form of
  PCM buffers. Divisions truncate toward zero; conversions to int16 wrap.
 */
module Resample {
  import opened Basics
  import opened Ulaw

  /** Division as Go has it, for a positive divisor. */
  function Quot(a: int, b: int): int
    requires b > 0
  {
    if a >= 0 then a / b else -((-a) / b)
  }

  /** int16(x). */
  function Int16(x: int): Sample { (x + 0x8000) % 0x1_0000 - 0x8000 }

  lemma Int16Fits(x: int)
    requires -0x8000 <= x < 0x8000
    ensures Int16(x) == x
  {
  }

  // ---------------------------------------------------------------- one output sample

  /** The weighted mean of a sample and its neighbours, and the mean of two samples. */
  function Mean3(a: int, b: int, c: int): int { Quot(a + b * 2 + c, 4) }

  function Mean2(a: int, b: int): int { Quot(a + b, 2) }

  /** The filter of the 48 kHz decimators: a weighted mean of three neighbours, or the sample itself at the edges. */
  function Tap(input: seq<Sample>, idx: int): Sample
    requires 0 <= idx < |input|
  {
    if 0 < idx < |input| - 1 then Int16(Mean3(input[idx - 1], input[idx], input[idx + 1])) else input[idx]
  }

  /** The j-th of six points from `current` towards `next`. */
  function Point(current: int, next: int, j: int): int { current + Quot((next - current) * j, 6) }

  function Interpolated(current: int, next: int, j: int): Sample { Int16(Point(current, next, j)) }

  function NextOf(input: seq<Sample>, i: int): Sample
    requires 0 <= i < |input|
  {
    if i < |input| - 1 then input[i + 1] else input[i]
  }

  function Decimated(input: seq<Sample>, ratio: int): (r: seq<Sample>)
    requires ratio > 1
    ensures |r| == |input| / ratio
  {
    seq(|input| / ratio, i requires 0 <= i < |input| / ratio => (InRange(i, |input|, ratio); Tap(input, i * ratio)))
  }

  lemma InRange(i: int, n: int, ratio: int)
    requires ratio > 1 && 0 <= i < n / ratio
    ensures 0 <= i * ratio < n && i * ratio + ratio <= n
  {
    assert (i + 1) * ratio <= n / ratio * ratio <= n;
  }

  function Upsampled8to48(input: seq<Sample>): (r: seq<Sample>)
    ensures |r| == |input| * 6
  {
    seq(|input| * 6, k requires 0 <= k < |input| * 6 => Interpolated(input[k / 6], NextOf(input, k / 6), k % 6))
  }

  function Upsampled8to16(input: seq<Sample>): (r: seq<Sample>)
    ensures |r| == |input| * 2
  {
    seq(|input| * 2, k requires 0 <= k < |input| * 2 =>
      if k % 2 == 0 then input[k / 2] else Midpoint(input, k / 2))
  }

  /** The odd outputs of the 16 kHz interpolator; the last sample is repeated. */
  function Midpoint(input: seq<Sample>, i: int): Sample
    requires 0 <= i < |input|
  {
    if i + 1 < |input| then Int16(Mean2(input[i], input[i + 1])) else input[i]
  }

  function Downsampled16to8(input: seq<Sample>): (r: seq<Sample>)
    ensures |r| == |input| / 2
  {
    seq(|input| / 2, i requires 0 <= i < |input| / 2 => Int16(Mean2(input[2 * i], input[2 * i + 1])))
  }

  // ---------------------------------------------------------------- outputs stay among their inputs

  /** From b * x < b * y + b to x <= y. */
  lemma MulOrder(b: int, x: int, y: int)
    requires b > 0
    ensures b * x < b * y + b ==> x <= y
  {
    if x > y { assert b * x >= b * (y + 1); }
  }

  /** A truncated quotient stays between whole bounds of the exact one. */
  lemma QuotBetween(sum: int, b: int, lo: int, hi: int)
    requires b > 0 && b * lo <= sum <= b * hi
    ensures lo <= Quot(sum, b) <= hi
  {
    if sum >= 0 {
      var q := sum / b;
      assert b * q <= sum < b * q + b;
      MulOrder(b, lo, q);
      MulOrder(b, q, hi);
    } else {
      var q := (-sum) / b;
      assert b * q <= -sum < b * q + b;
      MulOrder(b, -hi, q);
      MulOrder(b, q, -lo);
    }
  }

  lemma Mean3Among(a: Sample, b: Sample, c: Sample)
    ensures Min(a, Min(b, c)) <= Mean3(a, b, c) <= Max(a, Max(b, c))
    ensures Int16(Mean3(a, b, c)) == Mean3(a, b, c)
  {
    QuotBetween(a + b * 2 + c, 4, Min(a, Min(b, c)), Max(a, Max(b, c)));
    Int16Fits(Mean3(a, b, c));
  }

  lemma Mean2Among(a: Sample, b: Sample)
    ensures Min(a, b) <= Mean2(a, b) <= Max(a, b)
    ensures Int16(Mean2(a, b)) == Mean2(a, b)
  {
    QuotBetween(a + b, 2, Min(a, b), Max(a, b));
    Int16Fits(Mean2(a, b));
  }

  lemma InterpolatedAmong(a: Sample, b: Sample, j: nat)
    requires j < 6
    ensures Min(a, b) <= Interpolated(a, b, j) <= Max(a, b)
    ensures Interpolated(a, b, j) == Point(a, b, j)
  {
    var d: int := b - a;
    assert d * j == if j == 0 then 0 else if j == 1 then d else if j == 2 then 2 * d else if j == 3 then 3 * d
                    else if j == 4 then 4 * d else 5 * d;
    QuotBetween(d * j, 6, Min(0, d), Max(0, d));
    Int16Fits(a + Quot(d * j, 6));
  }

  predicate Among3(x: int, a: int, b: int, c: int) { Min(a, Min(b, c)) <= x <= Max(a, Max(b, c)) }

  predicate Among2(x: int, a: int, b: int) { Min(a, b) <= x <= Max(a, b) }

  /** A decimated sample lies among the three samples it averages; at the edges it is the sample itself. */
  lemma DecimatedAmong(input: seq<Sample>, ratio: int, k: nat)
    requires ratio > 1 && k < |input| / ratio
    ensures 0 <= k * ratio < |input|
    ensures if 0 < k * ratio < |input| - 1
            then Among3(Decimated(input, ratio)[k], input[k * ratio - 1], input[k * ratio], input[k * ratio + 1])
            else Decimated(input, ratio)[k] == input[k * ratio]
  {
    InRange(k, |input|, ratio);
    var idx := k * ratio;
    if 0 < idx < |input| - 1 { Mean3Among(input[idx - 1], input[idx], input[idx + 1]); }
  }

  /** An upsampled sample lies between the two samples around it. */
  lemma UpsampledAmong(input: seq<Sample>, k: nat)
    requires k < |input| * 6
    ensures Among2(Upsampled8to48(input)[k], input[k / 6], NextOf(input, k / 6))
    ensures k % 6 == 0 ==> Upsampled8to48(input)[k] == input[k / 6]
  {
    InterpolatedAmong(input[k / 6], NextOf(input, k / 6), k % 6);
  }

  lemma Upsampled16Among(input: seq<Sample>, k: nat)
    requires k < |input| * 2
    ensures Among2(Upsampled8to16(input)[k], input[k / 2], NextOf(input, k / 2))
    ensures k % 2 == 0 ==> Upsampled8to16(input)[k] == input[k / 2]
  {
    if k / 2 + 1 < |input| { Mean2Among(input[k / 2], input[k / 2 + 1]); }
  }

  lemma Downsampled16Among(input: seq<Sample>, k: nat)
    requires k < |input| / 2
    ensures Among2(Downsampled16to8(input)[k], input[2 * k], input[2 * k + 1])
  {
    Mean2Among(input[2 * k], input[2 * k + 1]);
  }

  // ---------------------------------------------------------------- up and down again

  function Gap(a: int, b: int): int { Abs(a - b) }

  function StepBefore(input: seq<Sample>, i: int): int
    requires 0 <= i < |input|
  {
    if i == 0 then 0 else Gap(input[i], input[i - 1])
  }

  function StepAfter(input: seq<Sample>, i: int): int
    requires 0 <= i < |input|
  {
    Gap(NextOf(input, i), input[i])
  }

  function Through48(input: seq<Sample>): (r: seq<Sample>)
    ensures |r| == |input|
  {
    Decimated(Upsampled8to48(input), 6)
  }

  function Through16(input: seq<Sample>): (r: seq<Sample>)
    ensures |r| == |input|
  {
    Downsampled16to8(Upsampled8to16(input))
  }

  lemma UpsampledAt(input: seq<Sample>, i: nat, j: nat)
    requires i < |input| && j < 6
    ensures Upsampled8to48(input)[6 * i + j] == Interpolated(input[i], NextOf(input, i), j)
  {
    assert (6 * i + j) / 6 == i && (6 * i + j) % 6 == j;
  }

  lemma DecimatedAt(input: seq<Sample>, i: nat)
    requires i < |input| / 6
    ensures Decimated(input, 6)[i] == Tap(input, 6 * i)
  {
  }

  lemma UpsampledPoint(input: seq<Sample>, i: nat, j: nat)
    requires i < |input| && j < 6
    ensures Upsampled8to48(input)[6 * i + j] == Point(input[i], NextOf(input, i), j)
  {
    UpsampledAt(input, i, j);
    InterpolatedAmong(input[i], NextOf(input, i), j);
  }

  lemma TapAt(input: seq<Sample>, i: nat, a: int, b: int, c: int)
    requires 0 < i < |input| / 6
    requires input[6 * i - 1] == a && input[6 * i] == b && input[6 * i + 1] == c
    ensures Decimated(input, 6)[i] == Mean3(a, b, c)
  {
    Mean3Among(a, b, c);
  }

  /** The three upsampled values an inner sample is averaged from on the way back. */
  lemma Back48(input: seq<Sample>, i: nat)
    requires 0 < i < |input|
    ensures Through48(input)[i] ==
            Mean3(Point(input[i - 1], input[i], 5), input[i], Point(input[i], NextOf(input, i), 1))
  {
    UpsampledPoint(input, i - 1, 5);
    UpsampledPoint(input, i, 0);
    UpsampledPoint(input, i, 1);
    TapAt(Upsampled8to48(input), i,
          Point(input[i - 1], input[i], 5), input[i], Point(input[i], NextOf(input, i), 1));
  }

  /** 8 to 48 kHz and back: every sample returns within a 24th of its two steps, plus one; the first exactly. */
  lemma Through48kHz(input: seq<Sample>, i: nat)
    requires i < |input|
    ensures 24 * Gap(Through48(input)[i], input[i]) <= StepBefore(input, i) + StepAfter(input, i) + 24
    ensures i == 0 ==> Through48(input)[i] == input[i]
  {
    if i == 0 {
      DecimatedAt(Upsampled8to48(input), 0);
      UpsampledAt(input, 0, 0);
      InterpolatedAmong(input[0], NextOf(input, 0), 0);
    } else {
      Back48(input, i);
      Near48(input[i - 1], input[i], NextOf(input, i));
    }
  }

  lemma Near48(before: int, x: int, after: int)
    ensures var a, c := Point(before, x, 5), Point(x, after, 1);
            24 * Abs(Mean3(a, x, c) - x) <= Abs(x - before) + Abs(after - x) + 24
  {
    var p, q := Quot((x - before) * 5, 6), Quot((after - x) * 1, 6);
    var r := p - (x - before) + q;
    assert 6 * Abs(r) <= Abs(x - before) + Abs(after - x) + 5;
    assert before + p + x * 2 + (x + q) == 4 * x + r;
    NearQuot(x, r, 4);
  }

  /** Adding r to b copies of x moves their truncated mean by at most r / b, rounded away from zero. */
  lemma NearQuot(x: int, r: int, b: int)
    requires b > 0
    ensures b * Abs(Quot(b * x + r, b) - x) <= Abs(r) + b - 1
  {
    var s := b * x + r;
    if s >= 0 {
      var q := s / b;
      assert b * q <= s < b * q + b;
      assert b * (q - x) == b * q - b * x;
      if q >= x { assert Abs(q - x) == q - x; } else { assert b * (x - q) == b * x - b * q; }
    } else {
      var q := (-s) / b;
      assert b * q <= -s < b * q + b;
      assert b * (-q - x) == -(b * q) - b * x;
      if -q >= x { assert Abs(-q - x) == -q - x; } else { assert b * (x + q) == b * x + b * q; }
    }
  }

  /** 8 to 16 kHz and back: within a quarter of the step that follows, plus one; the last sample exactly. */
  lemma Through16kHz(input: seq<Sample>, i: nat)
    requires i < |input|
    ensures 4 * Gap(Through16(input)[i], input[i]) <= StepAfter(input, i) + 4
    ensures i == |input| - 1 ==> Through16(input)[i] == input[i]
  {
    var up := Upsampled8to16(input);
    var x := input[i];
    assert (2 * i) / 2 == i && (2 * i) % 2 == 0 && (2 * i + 1) / 2 == i && (2 * i + 1) % 2 == 1;
    assert up[2 * i] == x && up[2 * i + 1] == Midpoint(input, i);
    Mean2Among(up[2 * i], up[2 * i + 1]);
    if i + 1 < |input| {
      Mean2Among(x, input[i + 1]);
      Near16(x, input[i + 1]);
    }
  }

  lemma Near16(x: int, after: int)
    ensures 4 * Abs(Mean2(x, Mean2(x, after)) - x) <= Abs(after - x) + 4
  {
    NearQuot(x, after - x, 2);
    NearQuot(x, Mean2(x, after) - x, 2);
  }

  // ---------------------------------------------------------------- PCM as bytes

  function ToBytes(pcm: seq<Sample>): (r: seq<Byte>)
    ensures |r| == 2 * |pcm|
  {
    seq(2 * |pcm|, k requires 0 <= k < 2 * |pcm| =>
      if k % 2 == 0 then pcm[k / 2] % 256 else (pcm[k / 2] / 256) % 256)
  }

  function Word(lo: int, hi: int): Sample { Int16(lo + 256 * hi) }

  function FromBytes(data: seq<Byte>): (r: seq<Sample>)
    ensures |r| == |data| / 2
  {
    seq(|data| / 2, i requires 0 <= i < |data| / 2 => Word(data[2 * i], data[2 * i + 1]))
  }

  /** Samples survive their byte form. */
  lemma SamplesSurvive(pcm: seq<Sample>)
    ensures FromBytes(ToBytes(pcm)) == pcm
  {
    forall i | 0 <= i < |pcm| ensures FromBytes(ToBytes(pcm))[i] == pcm[i] {
      assert (2 * i) / 2 == i && (2 * i) % 2 == 0 && (2 * i + 1) / 2 == i && (2 * i + 1) % 2 == 1;
      SampleSurvives(pcm[i]);
    }
  }

  lemma SampleSurvives(x: Sample)
    ensures Word(x % 256, (x / 256) % 256) == x
  {
    var h := x / 256;
    assert x == 256 * h + x % 256 && -128 <= h < 128;
    assert h % 256 == if h < 0 then h + 256 else h;
  }

  /** Bytes survive their sample form, except that an odd last byte is dropped. */
  lemma BytesSurvive(data: seq<Byte>)
    ensures ToBytes(FromBytes(data)) == data[..|data| / 2 * 2]
  {
    forall k | 0 <= k < |data| / 2 * 2 ensures ToBytes(FromBytes(data))[k] == data[k] {
      ByteSurvives(data[k / 2 * 2], data[k / 2 * 2 + 1]);
    }
  }

  lemma ByteSurvives(lo: Byte, hi: Byte)
    ensures Word(lo, hi) % 256 == lo && (Word(lo, hi) / 256) % 256 == hi
  {
    var x := Word(lo, hi);
    assert x == if hi < 128 then lo + 256 * hi else lo + 256 * (hi - 256);
  }
}
