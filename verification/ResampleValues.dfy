/** The exact value of every resampled sample and of every PCM byte, told without the functions that compute them. */
module ResampleValues {
  import opened Basics
  import opened Ulaw
  import opened Resample

  /** x is sum / b rounded toward zero. */
  predicate RoundsToZero(x: int, sum: int, b: int) {
    if sum >= 0 then b * x <= sum < b * x + b else b * x - b < sum <= b * x
  }

  /** x is the weighted mean of three samples, or the mean of two. */
  predicate IsMean3(x: int, before: int, own: int, after: int) { RoundsToZero(x, before + 2 * own + after, 4) }

  predicate IsMean2(x: int, a: int, b: int) { RoundsToZero(x, a + b, 2) }

  /** x lies j sixths of the way from one sample to the next. */
  predicate IsPoint(x: int, current: int, next: int, j: int) { RoundsToZero(x - current, (next - current) * j, 6) }

  /** There is only one such x. */
  lemma RoundsToOne(x: int, y: int, sum: int, b: int)
    requires b > 0 && RoundsToZero(x, sum, b) && RoundsToZero(y, sum, b)
    ensures x == y
  {
    MulOrder(b, x, y);
    MulOrder(b, y, x);
  }

  lemma QuotRounds(sum: int, b: int)
    requires b > 0
    ensures RoundsToZero(Quot(sum, b), sum, b)
  {
    if sum < 0 {
      var q := (-sum) / b;
      assert b * q <= -sum < b * q + b;
      assert b * -q == -(b * q);
    }
  }

  lemma MeanOfThree(a: int, b: int, c: int)
    requires -0x8000 <= a < 0x8000 && -0x8000 <= b < 0x8000 && -0x8000 <= c < 0x8000
    ensures IsMean3(Int16(Mean3(a, b, c)), a, b, c)
  {
    Mean3Among(a, b, c);
    QuotRounds(a + b * 2 + c, 4);
  }

  lemma MeanOfTwo(a: int, b: int)
    requires -0x8000 <= a < 0x8000 && -0x8000 <= b < 0x8000
    ensures IsMean2(Int16(Mean2(a, b)), a, b)
  {
    Mean2Among(a, b);
    QuotRounds(a + b, 2);
  }

  lemma PointBetween(current: int, next: int, j: nat)
    requires -0x8000 <= current < 0x8000 && -0x8000 <= next < 0x8000 && j < 6
    ensures IsPoint(Interpolated(current, next, j), current, next, j)
  {
    InterpolatedAmong(current, next, j);
    QuotRounds((next - current) * j, 6);
  }

  /** A decimated sample is the mean of its neighbours and twice itself; at the edges it is the sample itself. */
  lemma DecimatedExactly(input: seq<Sample>, ratio: int, k: nat)
    requires ratio > 1 && k < |input| / ratio
    ensures 0 <= k * ratio < |input|
    ensures var out, i := Decimated(input, ratio)[k], k * ratio;
            if 0 < i < |input| - 1 then IsMean3(out, input[i - 1], input[i], input[i + 1])
            else out == input[i]
  {
    InRange(k, |input|, ratio);
    var i := k * ratio;
    if 0 < i < |input| - 1 {
      MeanOfThree(input[i - 1], input[i], input[i + 1]);
    }
  }

  /** An upsampled sample lies its share of sixths of the step to the next sample away from its own. */
  lemma UpsampledExactly(input: seq<Sample>, k: nat)
    requires k < |input| * 6
    ensures var current := input[k / 6];
            var next := if k / 6 + 1 < |input| then input[k / 6 + 1] else current;
            IsPoint(Upsampled8to48(input)[k], current, next, k % 6)
  {
    PointBetween(input[k / 6], NextOf(input, k / 6), k % 6);
  }

  /** Even 16 kHz samples are the input's; odd ones are means, the last a repetition. */
  lemma Upsampled16Exactly(input: seq<Sample>, k: nat)
    requires k < |input| * 2
    ensures var out, i := Upsampled8to16(input)[k], k / 2;
            if k % 2 == 1 && i + 1 < |input| then IsMean2(out, input[i], input[i + 1]) else out == input[i]
  {
    if k / 2 + 1 < |input| { MeanOfTwo(input[k / 2], input[k / 2 + 1]); }
  }

  /** An 8 kHz sample is the mean of its two. */
  lemma Downsampled16Exactly(input: seq<Sample>, k: nat)
    requires k < |input| / 2
    ensures IsMean2(Downsampled16to8(input)[k], input[2 * k], input[2 * k + 1])
  {
    MeanOfTwo(input[2 * k], input[2 * k + 1]);
  }

  predicate IsTwosComplement(x: int, low: int, high: int) {
    low + 256 * high == if x < 0 then x + 0x1_0000 else x
  }

  /** The byte form is little-endian two's complement: low byte first, 2^16 added to a negative sample. */
  lemma BytesExactly(pcm: seq<Sample>, i: nat)
    requires i < |pcm|
    ensures IsTwosComplement(pcm[i], ToBytes(pcm)[2 * i], ToBytes(pcm)[2 * i + 1])
  {
    assert (2 * i) / 2 == i && (2 * i) % 2 == 0 && (2 * i + 1) / 2 == i && (2 * i + 1) % 2 == 1;
    var x := pcm[i];
    var h := x / 256;
    assert x == 256 * h + x % 256 && -128 <= h < 128;
    assert h % 256 == if h < 0 then h + 256 else h;
  }

  /** Code bytes descend from the largest value at 0x80 to zero at 0xFF, by the step of their segment. */
  lemma CodesDescend(u: Byte)
    requires 0x80 <= u < 0xFF
    ensures var segment := (0xFF - u) / 16;
            Decode(u) - Decode(u + 1) ==
            if u % 16 == 15 then 3 * Pow2(segment + 1) else Pow2(segment + 3)
  {
    var segment := (0xFF - u) / 16;
    var m := (0xFF - u) % 16;
    assert 0xFF - u == 16 * segment + m && segment < 8;
    assert u % 16 == 15 - m;
    assert Exponent(u) == segment;
    if m > 0 {
      assert (0xFF - (u + 1)) / 16 == segment && (0xFF - (u + 1)) % 16 == m - 1;
      assert Decode(u) == Magnitude(segment, m) && Decode(u + 1) == Magnitude(segment, m - 1);
    } else {
      assert (0xFF - (u + 1)) / 16 == segment - 1 && (0xFF - (u + 1)) % 16 == 15;
      assert Decode(u) == Magnitude(segment, 0) && Decode(u + 1) == Magnitude(segment - 1, 15);
    }
    StepOfSegment(segment, m);
  }

  lemma StepOfSegment(e: int, m: int)
    requires 0 <= e < 8 && 0 <= m < 16
    ensures m > 0 ==> Magnitude(e, m) - Magnitude(e, m - 1) == Pow2(e + 3)
    ensures m == 0 && e > 0 ==> Magnitude(e, 0) - Magnitude(e - 1, 15) == 3 * Pow2(e + 1)
  {
    var q := Pow2(e + 1);
    assert Pow2(e + 2) == 2 * q && Pow2(e + 3) == 4 * q;
    if m > 0 {
      assert (2 * m + 33) * (2 * q) - (2 * (m - 1) + 33) * (2 * q) == 4 * q;
    } else {
      assert e > 0 ==> 33 * (2 * q) - 63 * q == 3 * q;
    }
  }

  /** The lower half is the mirror image of the upper; with CodesDescend and CodeEnds every code is determined. */
  lemma CodesMirror(u: Byte)
    requires u < 0x80
    ensures Decode(u) == -Decode(u + 0x80)
  {
    assert (0xFF - u) % 16 == (0xFF - (u + 0x80)) % 16;
    assert (0xFF - u) / 16 == (0xFF - (u + 0x80)) / 16 + 8;
  }

  lemma CodeEnds()
    ensures Decode(0xFF) == 0 && Decode(0x80) == 32124 && Decode(0x00) == -32124
  {
  }
}
