/**
  G.711 mu-law companding (ITU-T G.711, Tables 2a and 2b): the bridge's encoder and
  decoder, and the second encoder in the ringback sender.

  Samples are 16 bits wide, so negating -32768 gives -32768 back; the encoders are
  modelled on every sample, that one included.
 */
module Ulaw {
  import opened Basics

  const BIAS := 132
  const CLIP := 32635

  /** Two to the power e, for the exponents the codec uses. */
  function Pow2(e: int): int {
    if e <= 0 then 1 else if e == 1 then 2 else if e == 2 then 4 else if e == 3 then 8 else if e == 4 then 16
    else if e == 5 then 32 else if e == 6 then 64 else if e == 7 then 128 else if e == 8 then 256
    else if e == 9 then 512
    else 1024
  }

  /** The segment table, entry by entry over its runs of equal entries. */
  function ExpLut(i: int): int
    requires 0 <= i < 256
  {
    if i < 2 then 0 else if i < 4 then 1 else if i < 8 then 2 else if i < 16 then 3
    else if i < 32 then 4 else if i < 64 then 5 else if i < 128 then 6 else 7
  }

  /** The table is the position of the leading bit. */
  lemma SegmentIsFloorLog2(i: int)
    requires 1 <= i < 256
    ensures Pow2(ExpLut(i)) <= i < Pow2(ExpLut(i) + 1)
  {
  }

  function Negate16(x: Sample): Sample { if x == -0x8000 then x else -x }

  // ---------------------------------------------------------------- one sample

  /** The biased, clipped magnitude: what LinearToUlaw has in `sample` after its additions. */
  function Biased(sample: Sample): int {
    Min(if sample < 0 then Negate16(sample) else sample, CLIP) + BIAS
  }

  function Segment(biased: int): int { ExpLut((biased / 128) % 256) }

  function Mantissa(biased: int): int { (biased / Pow2(Segment(biased) + 3)) % 16 }

  function Encode(sample: Sample): Byte {
    255 - ((if sample < 0 then 128 else 0) + Segment(Biased(sample)) * 16 + Mantissa(Biased(sample)))
  }

  function Magnitude(exponent: int, mantissa: int): int { (2 * mantissa + 33) * Pow2(exponent + 2) - BIAS }

  function Exponent(u: Byte): int { (255 - u) / 16 % 8 }

  function Decode(u: Byte): int {
    var m := Magnitude(Exponent(u), (255 - u) % 16);
    if 255 - u >= 128 then -m else m
  }

  // ---------------------------------------------------------------- quantisation

  /** The biased magnitudes of a segment are those with its leading bit. */
  lemma SegmentBounds(b: int)
    requires BIAS <= b <= CLIP + BIAS
    ensures 0 <= Segment(b) <= 7
    ensures 128 * Pow2(Segment(b)) <= b < 256 * Pow2(Segment(b))
  {
    var i := b / 128;
    assert 128 * i <= b < 128 * i + 128 && i % 256 == i;
  }

  /** Inside a segment the mantissa counts whole steps past the leading bit; Magnitude is the middle of the step. */
  lemma MiddleOfStep(b: int, e: int)
    requires 0 <= e <= 7 && 128 * Pow2(e) <= b < 256 * Pow2(e)
    ensures var m := (b / Pow2(e + 3)) % 16;
            Magnitude(e, m) + BIAS - Pow2(e + 2) <= b < Magnitude(e, m) + BIAS + Pow2(e + 2)
  {
    var k := b / Pow2(e + 3);
    if e == 0 { assert 8 * k <= b < 8 * k + 8; }
    else if e == 1 { assert 16 * k <= b < 16 * k + 16; }
    else if e == 2 { assert 32 * k <= b < 32 * k + 32; }
    else if e == 3 { assert 64 * k <= b < 64 * k + 64; }
    else if e == 4 { assert 128 * k <= b < 128 * k + 128; }
    else if e == 5 { assert 256 * k <= b < 256 * k + 256; }
    else if e == 6 { assert 512 * k <= b < 512 * k + 512; }
    else { assert 1024 * k <= b < 1024 * k + 1024; }
    assert 16 <= k < 32 && k % 16 == k - 16;
  }

  /** A biased magnitude lies within half a step of the magnitude its segment and mantissa name. */
  lemma InItsStep(b: int)
    requires BIAS <= b <= CLIP + BIAS
    ensures 0 <= Segment(b) <= 7 && 0 <= Mantissa(b) <= 15
    ensures var r := Magnitude(Segment(b), Mantissa(b)) + BIAS;
            r - Pow2(Segment(b) + 2) <= b < r + Pow2(Segment(b) + 2)
  {
    SegmentBounds(b);
    MiddleOfStep(b, Segment(b));
  }

  /** The fields of a code byte come apart again. */
  lemma Unpack(sign: bool, e: int, m: int, u: int)
    requires 0 <= e <= 7 && 0 <= m <= 15
    requires u == 255 - ((if sign then 128 else 0) + e * 16 + m)
    ensures 0 <= u < 256 && Exponent(u) == e && (255 - u) % 16 == m && (255 - u >= 128 <==> sign)
  {
    assert (255 - u) / 16 == (if sign then 8 else 0) + e;
  }

  lemma DecodeOfEncode(sample: Sample)
    requires sample != -0x8000
    ensures Exponent(Encode(sample)) == Segment(Biased(sample))
    ensures var m := Magnitude(Segment(Biased(sample)), Mantissa(Biased(sample)));
            Decode(Encode(sample)) == if sample < 0 then -m else m
  {
    var b := Biased(sample);
    InItsStep(b);
    Unpack(sample < 0, Segment(b), Mantissa(b), Encode(sample));
  }

  function Clipped(sample: Sample): int { if sample > CLIP then CLIP else if sample < -CLIP then -CLIP else sample }

  /** Within half a step of the clipped sample, on every sample but -32768, whose sign is lost with its magnitude. */
  lemma HalfStepExactly(sample: Sample)
    ensures Abs(Decode(Encode(sample)) - Clipped(sample)) <= Pow2(Exponent(Encode(sample)) + 2) <==> sample != -0x8000
  {
    if sample != -0x8000 {
      DecodeOfEncode(sample);
      InItsStep(Biased(sample));
    } else {
      LostSample();
    }
  }

  lemma LostSample()
    ensures Encode(-0x8000) == 0x7F && Decode(0x7F) == 0 && Clipped(-0x8000) == -CLIP
  {
    assert Biased(-0x8000) == -32636;
    assert -32636 / 128 == -255 && -255 % 256 == 1;
    assert -32636 / 8 == -4080 && -4080 % 16 == 0;
  }

  // ---------------------------------------------------------------- order

  lemma SteppedMagnitudesOrdered(b: int, c: int)
    requires BIAS <= b <= c <= CLIP + BIAS
    ensures 0 <= Magnitude(Segment(b), Mantissa(b)) <= Magnitude(Segment(c), Mantissa(c))
  {
    SegmentBounds(b);
    SegmentBounds(c);
    var e, f := Segment(b), Segment(c);
    assert b / 128 <= c / 128 < 256;
    assert b / 128 % 256 == b / 128 && c / 128 % 256 == c / 128;
    if e == f {
      MantissasOrdered(b, c, e);
      SameSegment(e, Mantissa(b), Mantissa(c));
    } else {
      HigherSegment(e, f, Mantissa(b), Mantissa(c));
    }
  }

  lemma MantissasOrdered(b: int, c: int, e: int)
    requires 0 <= e <= 7 && 128 * Pow2(e) <= b <= c < 256 * Pow2(e)
    ensures (b / Pow2(e + 3)) % 16 <= (c / Pow2(e + 3)) % 16
  {
    var k, l := b / Pow2(e + 3), c / Pow2(e + 3);
    if e == 0 { assert 8 * k <= b < 8 * k + 8 && 8 * l <= c < 8 * l + 8; }
    else if e == 1 { assert 16 * k <= b < 16 * k + 16 && 16 * l <= c < 16 * l + 16; }
    else if e == 2 { assert 32 * k <= b < 32 * k + 32 && 32 * l <= c < 32 * l + 32; }
    else if e == 3 { assert 64 * k <= b < 64 * k + 64 && 64 * l <= c < 64 * l + 64; }
    else if e == 4 { assert 128 * k <= b < 128 * k + 128 && 128 * l <= c < 128 * l + 128; }
    else if e == 5 { assert 256 * k <= b < 256 * k + 256 && 256 * l <= c < 256 * l + 256; }
    else if e == 6 { assert 512 * k <= b < 512 * k + 512 && 512 * l <= c < 512 * l + 512; }
    else { assert 1024 * k <= b < 1024 * k + 1024 && 1024 * l <= c < 1024 * l + 1024; }
    assert 16 <= k <= l < 32;
    assert k % 16 == k - 16 && l % 16 == l - 16;
  }

  lemma SameSegment(e: int, m: int, n: int)
    requires 0 <= e <= 7 && 0 <= m <= n <= 15
    ensures 0 <= Magnitude(e, m) <= Magnitude(e, n)
  {
  }

  lemma HigherSegment(e: int, f: int, m: int, n: int)
    requires 0 <= e < f <= 7 && 0 <= m <= 15 && 0 <= n <= 15
    ensures 0 <= Magnitude(e, m) <= Magnitude(f, n)
  {
    assert Pow2(e + 2) * 2 <= Pow2(f + 2);
    assert (2 * m + 33) * Pow2(e + 2) <= 63 * Pow2(e + 2);
    assert 33 * Pow2(f + 2) <= (2 * n + 33) * Pow2(f + 2);
    SameSegment(e, 0, m);
  }

  /** A louder sample never decodes softer. */
  lemma CompandingMonotone(s: Sample, t: Sample)
    requires -0x8000 < s <= t
    ensures Decode(Encode(s)) <= Decode(Encode(t))
  {
    DecodeOfEncode(s);
    DecodeOfEncode(t);
    if 0 <= s {
      SteppedMagnitudesOrdered(Biased(s), Biased(t));
    } else if t < 0 {
      SteppedMagnitudesOrdered(Biased(t), Biased(s));
    } else {
      SteppedMagnitudesOrdered(Biased(s), Biased(s));
      SteppedMagnitudesOrdered(Biased(t), Biased(t));
    }
  }

  /** A sample decodes to zero or more exactly from -3 up: -1 to -3 fall in the step around zero. */
  lemma DecodesNonNegativeExactly(t: Sample)
    requires t != -0x8000
    ensures Decode(Encode(t)) >= 0 <==> t >= -3
  {
    DecodeOfEncode(t);
    InItsStep(Biased(t));
    if t < -3 {
      InItsStep(136);
      SteppedMagnitudesOrdered(136, Biased(t));
    } else if t < 0 {
      assert Biased(t) / 128 == 1 && Biased(t) / 8 == 16;
    } else {
      SteppedMagnitudesOrdered(Biased(t), Biased(t));
    }
  }

  /**
    Companding keeps the order of two samples unless the lower is -32768, which decodes to
    zero, and the other is below -3.
   */
  lemma CompandingMonotoneExactly(s: Sample, t: Sample)
    requires s <= t
    ensures Decode(Encode(s)) <= Decode(Encode(t)) <==> s != -0x8000 || t == -0x8000 || t >= -3
  {
    if s != -0x8000 {
      CompandingMonotone(s, t);
    } else if t != -0x8000 {
      LostSample();
      DecodesNonNegativeExactly(t);
    }
  }

  // ---------------------------------------------------------------- code bytes

  lemma MiddleEncodesBack(e: int, m: int)
    requires 0 <= e <= 7 && 0 <= m <= 15
    ensures BIAS <= Magnitude(e, m) + BIAS <= CLIP + BIAS
    ensures Segment(Magnitude(e, m) + BIAS) == e && Mantissa(Magnitude(e, m) + BIAS) == m
  {
    var b := Magnitude(e, m) + BIAS;
    var half := Pow2(e + 2);
    assert b == (2 * m + 33) * half;
    if e == 0 { assert b == 8 * (m + 16) + 4; }
    else if e == 1 { assert b == 16 * (m + 16) + 8; }
    else if e == 2 { assert b == 32 * (m + 16) + 16; }
    else if e == 3 { assert b == 64 * (m + 16) + 32; }
    else if e == 4 { assert b == 128 * (m + 16) + 64; }
    else if e == 5 { assert b == 256 * (m + 16) + 128; }
    else if e == 6 { assert b == 512 * (m + 16) + 256; }
    else { assert b == 1024 * (m + 16) + 512; }
    assert b / Pow2(e + 3) == m + 16;
  }

  /** Every code byte but 0x7F, the negative zero, is the code of the sample it stands for. */
  lemma EncodeOfDecode(u: Byte)
    ensures -0x8000 < Decode(u) < 0x8000
    ensures Encode(Decode(u)) == u <==> u != 0x7F
    ensures u == 0x7F ==> Encode(Decode(u)) == 0xFF
  {
    var e, m := Exponent(u), (255 - u) % 16;
    var c := (255 - u) / 16;
    assert 255 - u == 16 * c + m && 0 <= c < 16 && e == if c < 8 then c else c - 8;
    MiddleEncodesBack(e, m);
    SameSegment(e, 0, m);
    assert Biased(Decode(u)) == Magnitude(e, m) + BIAS;
    if Magnitude(e, m) == 0 { ZeroMagnitude(e, m); }
  }

  lemma ZeroMagnitude(e: int, m: int)
    requires 0 <= e <= 7 && 0 <= m <= 15 && Magnitude(e, m) == 0
    ensures e == 0 && m == 0
  {
    if e > 0 { HigherSegmentPositive(e, m); }
  }

  lemma HigherSegmentPositive(e: int, m: int)
    requires 1 <= e <= 7 && 0 <= m <= 15
    ensures Magnitude(e, m) > 0
  {
    assert Pow2(e + 2) >= 8;
    assert (2 * m + 33) * Pow2(e + 2) >= 33 * 8;
  }

  // ---------------------------------------------------------------- buffers

  function EncodeAll(pcm: seq<Sample>): (r: seq<Byte>)
    ensures |r| == |pcm|
  {
    seq(|pcm|, i requires 0 <= i < |pcm| => Encode(pcm[i]))
  }

  function DecodeAll(bytes: seq<Byte>): (r: seq<Sample>)
    ensures |r| == |bytes|
  {
    seq(|bytes|, i requires 0 <= i < |bytes| => (EncodeOfDecode(bytes[i]); Decode(bytes[i])))
  }

  /** Coding a decoded buffer once more changes nothing that can be heard. */
  lemma DecodingIsStable(bytes: seq<Byte>)
    ensures DecodeAll(EncodeAll(DecodeAll(bytes))) == DecodeAll(bytes)
  {
    forall i | 0 <= i < |bytes| ensures DecodeAll(EncodeAll(DecodeAll(bytes)))[i] == DecodeAll(bytes)[i] {
      EncodeOfDecode(bytes[i]);
      NegativeZero();
    }
  }

  lemma NegativeZero()
    ensures Decode(0x7F) == 0 == Decode(0xFF)
  {
  }

  method LinearToUlaw(pcm: Sample) returns (u: Byte)
    ensures u == Encode(pcm)
  {
    var sign, sample := 0, pcm;
    if sample < 0 {
      sign := 0x80;
      sample := Negate16(sample);
    }
    if sample > CLIP { sample := CLIP; }
    sample := sample + BIAS;
    var exponent := ExpLut((sample / 128) % 256);
    var mantissa := (sample / Pow2(exponent + 3)) % 16;
    u := 255 - (sign + exponent * 16 + mantissa);
  }

  method EncodeUlaw(pcm: seq<Sample>) returns (encoded: array<Byte>)
    ensures fresh(encoded) && encoded[..] == EncodeAll(pcm)
  {
    encoded := new Byte[|pcm|];
    for i := 0 to |pcm|
      invariant encoded[..i] == EncodeAll(pcm)[..i]
    {
      encoded[i] := LinearToUlaw(pcm[i]);
    }
  }

  /** The loop body of the ringback encoder; its table lookup panics on the negative index that -32768 leads to. */
  method RingbackSample(pcm: Sample) returns (u: Option<Byte>)
    ensures u == if pcm == -0x8000 then None else Some(Encode(pcm))
  {
    var sign, sample := 0, pcm;
    if sample < 0 {
      sign := 0x80;
      sample := Negate16(sample);
    }
    if sample > CLIP { sample := CLIP; }
    sample := sample + BIAS;
    var index := sample / 128;
    if index < 0 || 256 <= index { return None; }
    var exponent := ExpLut(index);
    var mantissa := (sample / Pow2(exponent + 3)) % 16;
    u := Some(255 - (sign + exponent * 16 + mantissa));
  }

  /** The ringback encoder agrees with the bridge's on every buffer without -32768, and panics on the others. */
  method RingbackEncodeUlaw(pcm: seq<Sample>) returns (encoded: Option<seq<Byte>>)
    ensures encoded == if -0x8000 in pcm then None else Some(EncodeAll(pcm))
  {
    var out: seq<Byte> := [];
    for i := 0 to |pcm|
      invariant -0x8000 !in pcm[..i]
      invariant |out| == i && forall j :: 0 <= j < i ==> out[j] == Encode(pcm[j])
    {
      var u := RingbackSample(pcm[i]);
      if u.None? { return None; }
      out := out + [u.value];
    }
    assert pcm[..|pcm|] == pcm && out == EncodeAll(pcm);
    encoded := Some(out);
  }

  /** The decoding table filled once, and a buffer decoded through it. */
  method BuildTable() returns (table: array<Sample>)
    ensures fresh(table) && table.Length == 256
    ensures forall u: Byte :: table[u] == Decode(u)
  {
    table := new Sample[256];
    for i := 0 to 256
      invariant forall u: Byte :: u < i ==> table[u] == Decode(u)
    {
      EncodeOfDecode(i);
      table[i] := Decode(i);
    }
  }

  method DecodeUlaw(table: array<Sample>, bytes: seq<Byte>) returns (pcm: array<Sample>)
    requires table.Length == 256 && forall u: Byte :: table[u] == Decode(u)
    ensures fresh(pcm) && pcm[..] == DecodeAll(bytes)
  {
    pcm := new Sample[|bytes|];
    for i := 0 to |bytes|
      invariant pcm[..i] == DecodeAll(bytes)[..i]
    {
      pcm[i] := table[bytes[i]];
    }
  }
}
