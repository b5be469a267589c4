/** The loops that fill the output buffers, each proved to write the buffer Resample names. */
module ResampleLoops {
  import opened Basics
  import opened Resample
  import opened Ulaw

  /** The 48 kHz decimators, by six to 8 kHz (bridge and ringback) and by three to 16 kHz (ringback). */
  method Decimate(input: seq<Sample>, ratio: int) returns (output: array<Sample>)
    requires ratio > 1
    ensures fresh(output) && output[..] == Decimated(input, ratio)
  {
    var outputLen := |input| / ratio;
    output := new Sample[outputLen];
    for i := 0 to outputLen
      invariant forall k :: 0 <= k < i ==> output[k] == Decimated(input, ratio)[k]
    {
      var idx := i * ratio;
      InRange(i, |input|, ratio);
      if 0 < idx < |input| - 1 {
        output[i] := Int16(Mean3(input[idx - 1], input[idx], input[idx + 1]));
      } else {
        output[i] := input[idx];
      }
    }
  }

  method Upsample8to48(input: seq<Sample>) returns (output: array<Sample>)
    ensures fresh(output) && output[..] == Upsampled8to48(input)
  {
    output := new Sample[|input| * 6];
    for i := 0 to |input|
      invariant forall k :: 0 <= k < 6 * i ==> output[k] == Upsampled8to48(input)[k]
    {
      var current := input[i];
      var next := current;
      if i < |input| - 1 { next := input[i + 1]; }
      for j := 0 to 6
        invariant forall k :: 0 <= k < 6 * i + j ==> output[k] == Upsampled8to48(input)[k]
      {
        UpsampledAt(input, i, j);
        output[6 * i + j] := Int16(Point(current, next, j));
      }
    }
  }

  method Upsample8to16(input: seq<Sample>) returns (output: array<Sample>)
    ensures fresh(output) && output[..] == Upsampled8to16(input)
  {
    output := new Sample[|input| * 2];
    for i := 0 to |input|
      invariant forall k :: 0 <= k < 2 * i ==> output[k] == Upsampled8to16(input)[k]
    {
      output[2 * i] := input[i];
      if i + 1 < |input| {
        output[2 * i + 1] := Int16(Mean2(input[i], input[i + 1]));
      } else {
        output[2 * i + 1] := input[i];
      }
    }
  }

  method Downsample16to8(input: seq<Sample>) returns (output: array<Sample>)
    ensures fresh(output) && output[..] == Downsampled16to8(input)
  {
    output := new Sample[|input| / 2];
    for i := 0 to |input| / 2
      invariant forall k :: 0 <= k < i ==> output[k] == Downsampled16to8(input)[k]
    {
      // The source's guard idx + 1 < len(input) holds at every i, so its other branch is left out.
      output[i] := Int16(Mean2(input[2 * i], input[2 * i + 1]));
    }
  }

  method Pcm16ToBytes(pcm: seq<Sample>) returns (buf: array<Byte>)
    ensures fresh(buf) && buf[..] == ToBytes(pcm)
  {
    buf := new Byte[2 * |pcm|];
    for i := 0 to |pcm|
      invariant forall k :: 0 <= k < 2 * i ==> buf[k] == ToBytes(pcm)[k]
    {
      buf[2 * i] := pcm[i] % 256;
      buf[2 * i + 1] := (pcm[i] / 256) % 256;
    }
  }

  method BytesToPcm16(data: seq<Byte>) returns (pcm: array<Sample>)
    ensures fresh(pcm) && pcm[..] == FromBytes(data)
  {
    pcm := new Sample[|data| / 2];
    for i := 0 to |data| / 2
      invariant forall k :: 0 <= k < i ==> pcm[k] == FromBytes(data)[k]
    {
      pcm[i] := Word(data[2 * i], data[2 * i + 1]);
    }
  }
}
