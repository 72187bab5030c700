/** The pure part of `create_wav`: time points, sine samples, truncation to
    an integer and packing into one signed byte, and the wave file value that
    results. Floating point is modelled by reals and `sin` by any function
    bounded in [-1, 1]. */
module Synthesis {

  /** The module-level sample rate `sr`; it fixes the frame count and the
      header's frame rate whatever `sample_rate` a caller passes. */
  const SampleRate: int := 44100
  /** Seconds of signal per file (the local `t` of `create_wav`). */
  const Seconds: int := 20
  /** Frames per file: `sr * t`. */
  const FrameCount: nat := SampleRate * Seconds
  /** `np.pi` as a double. */
  const Pi: real := 3.141592653589793
  /** Channels and sample width that the header declares. */
  const Channels: int := 1
  const SampleWidth: int := 2

  /** Stand-in for `np.sin`: any function whose values lie in [-1, 1]. */
  type Sine = f: real -> real | forall x :: -1.0 <= f(x) <= 1.0 witness (x: real) => 0.0

  function Abs(x: int): int { if x < 0 then -x else x }

  /** The `i`-th entry of `np.arange(n) * period`, with `period = 1 / sample_rate`. */
  function TimePoint(i: int, sampleRate: real): real
    requires sampleRate != 0.0
  {
    i as real * (1.0 / sampleRate)
  }

  /** `t_seq`: evenly spaced time points from 0, `j - i` periods apart for
      points `i` and `j`; how many there are does not depend on the sample
      rate. */
  function TimePoints(sampleRate: real): (t: seq<real>)
    requires sampleRate != 0.0
    ensures |t| == FrameCount
    ensures t[0] == 0.0
    ensures forall i, j :: 0 <= i <= j < |t| ==> t[j] - t[i] == (j - i) as real * (1.0 / sampleRate)
  {
    seq(FrameCount, i => TimePoint(i, sampleRate))
  }

  /** Angular frequency `2*pi*freq`. */
  function Omega(freq: real): real { 2.0 * Pi * freq }

  /** `omega * t_seq[i]`, the argument of the sine for frame `i`. */
  function Phase(freq: real, sampleRate: real, i: int): real
    requires sampleRate != 0.0
  {
    Omega(freq) * TimePoint(i, sampleRate)
  }

  /** `amplitude * np.sin(omega * t_seq)`, one value per time point. */
  function Samples(freq: real, sampleRate: real, amplitude: int, sine: Sine): (y: seq<real>)
    requires sampleRate != 0.0
    ensures |y| == FrameCount
  {
    seq(FrameCount, i => amplitude as real * sine(Phase(freq, sampleRate, i)))
  }

  /** The argument of the sine for frame `i`, and so for sample `i`, is
      `omega` times the `i`-th time point. */
  lemma PhaseAtTimePoint(freq: real, sampleRate: real, i: int)
    requires sampleRate != 0.0 && 0 <= i < FrameCount
    ensures Phase(freq, sampleRate, i) == Omega(freq) * TimePoints(sampleRate)[i]
  {
    assert TimePoints(sampleRate)[i] == TimePoint(i, sampleRate);
  }

  /** A sine value scaled by a whole amplitude stays within the amplitude. */
  lemma {:induction false} ScaledSineBound(amplitude: int, s: real)
    requires -1.0 <= s <= 1.0
    ensures -(Abs(amplitude) as real) <= amplitude as real * s <= Abs(amplitude) as real
    decreases Abs(amplitude)
  {
    if amplitude > 0 {
      ScaledSineBound(amplitude - 1, s);
      var prev := (amplitude - 1) as real * s;
      assert -(amplitude as real - 1.0) <= prev <= amplitude as real - 1.0;
      assert amplitude as real * s == prev + s;
    } else if amplitude < 0 {
      ScaledSineBound(amplitude + 1, s);
      var prev := (amplitude + 1) as real * s;
      assert amplitude as real + 1.0 <= prev <= -(amplitude as real) - 1.0;
      assert amplitude as real * s == prev - s;
    }
  }

  lemma SamplesWithinAmplitude(freq: real, sampleRate: real, amplitude: int, sine: Sine)
    requires sampleRate != 0.0
    ensures forall i :: 0 <= i < FrameCount ==>
      -(Abs(amplitude) as real) <= Samples(freq, sampleRate, amplitude, sine)[i] <= Abs(amplitude) as real
  {
    var y := Samples(freq, sampleRate, amplitude, sine);
    forall i | 0 <= i < FrameCount
      ensures -(Abs(amplitude) as real) <= y[i] <= Abs(amplitude) as real
    {
      var s := sine(Phase(freq, sampleRate, i));
      assert y[i] == amplitude as real * s;
      ScaledSineBound(amplitude, s);
    }
  }

  /** Python's `int(x)` on a float: truncation toward zero, so the result is
      the integer nearest zero among those less than one away from `x`. */
  function Truncate(x: real): (r: int)
    ensures 0.0 <= x ==> 0 <= r && r as real <= x < r as real + 1.0
    ensures x < 0.0 ==> r <= 0 && r as real - 1.0 < x <= r as real
  {
    if x >= 0.0 then x.Floor else -((-x).Floor)
  }

  /** Unlike the floor, truncation is symmetric about zero. */
  lemma TruncateIsOdd(x: real)
    ensures Truncate(-x) == -Truncate(x)
  {
  }

  /** The integer frame values `int(i)` for each sample `i` of `y`. */
  function Frames(freq: real, sampleRate: real, amplitude: int, sine: Sine): (v: seq<int>)
    requires sampleRate != 0.0
    ensures |v| == FrameCount
  {
    var y := Samples(freq, sampleRate, amplitude, sine);
    seq(FrameCount, i requires 0 <= i < FrameCount => Truncate(y[i]))
  }

  lemma FrameIsTruncatedSample(freq: real, sampleRate: real, amplitude: int, sine: Sine, i: int)
    requires sampleRate != 0.0 && 0 <= i < FrameCount
    ensures Frames(freq, sampleRate, amplitude, sine)[i] == Truncate(Samples(freq, sampleRate, amplitude, sine)[i])
  {
  }

  /** Every frame lies within the amplitude: with the source's amplitudes
      (20, or 5 to 20) every frame is between -20 and 20. */
  lemma {:induction false} FramesWithinAmplitude(freq: real, sampleRate: real, amplitude: int, sine: Sine)
    requires sampleRate != 0.0
    ensures forall i :: 0 <= i < FrameCount ==>
      -Abs(amplitude) <= Frames(freq, sampleRate, amplitude, sine)[i] <= Abs(amplitude)
  {
    SamplesWithinAmplitude(freq, sampleRate, amplitude, sine);
  }

  /** An unsigned byte, as stored in the file. */
  newtype byte = x: int | 0 <= x < 256

  /** `struct.pack("b", v)`: one byte in two's complement, or `struct.error`. */
  datatype PackResult = Packed(b: byte) | StructError

  function PackSigned(v: int): (r: PackResult)
    ensures r.Packed? <==> -128 <= v <= 127
  {
    if -128 <= v < 0 then Packed((v + 256) as byte)
    else if 0 <= v <= 127 then Packed(v as byte)
    else StructError
  }

  /** `struct.unpack("b", ...)`: the inverse reading of one byte. */
  function UnpackSigned(b: byte): (v: int)
    ensures -128 <= v <= 127
  {
    if b < 128 then b as int else b as int - 256
  }

  lemma PackThenUnpack(v: int)
    requires -128 <= v <= 127
    ensures PackSigned(v).Packed? && UnpackSigned(PackSigned(v).b) == v
  {
  }

  lemma UnpackThenPack(b: byte)
    ensures PackSigned(UnpackSigned(b)) == Packed(b)
  {
  }

  predicate AllFit(v: seq<int>)
  {
    forall i :: 0 <= i < |v| ==> -128 <= v[i] <= 127
  }

  /** With an amplitude of at most 127 in magnitude, `struct.pack` accepts
      every frame. */
  lemma FramesFit(freq: real, sampleRate: real, amplitude: int, sine: Sine)
    requires sampleRate != 0.0
    requires -127 <= amplitude <= 127
    ensures AllFit(Frames(freq, sampleRate, amplitude, sine))
  {
    FramesWithinAmplitude(freq, sampleRate, amplitude, sine);
  }

  /** The frame payload: one packed byte per value, in order. */
  function Encode(v: seq<int>): (bytes: seq<byte>)
    requires AllFit(v)
    ensures |bytes| == |v|
    ensures forall i :: 0 <= i < |v| ==> UnpackSigned(bytes[i]) == v[i]
  {
    seq(|v|, i requires 0 <= i < |v| => PackSigned(v[i]).b)
  }

  /** Packing one more value extends the payload by that value's byte. */
  lemma EncodeAppend(v: seq<int>, x: int)
    requires AllFit(v) && -128 <= x <= 127
    ensures AllFit(v + [x])
    ensures Encode(v + [x]) == Encode(v) + [PackSigned(x).b]
  {
    assert forall i :: 0 <= i < |v| ==> (v + [x])[i] == v[i];
  }

  /** Packing frame `i` after frames `0..i-1` gives the payload of frames
      `0..i`. */
  lemma EncodePrefixStep(v: seq<int>, i: nat)
    requires i < |v| && AllFit(v[..i]) && -128 <= v[i] <= 127
    ensures AllFit(v[..i + 1])
    ensures Encode(v[..i + 1]) == Encode(v[..i]) + [PackSigned(v[i]).b]
  {
    assert v[..i + 1] == v[..i] + [v[i]];
    EncodeAppend(v[..i], v[i]);
  }

  /** A closed wave file: header fields and the raw frame bytes. */
  datatype Wav = Wav(channels: int, sampleWidth: int, frameRate: int, data: seq<byte>)

  /** The file `create_wav` leaves behind after writing `v`. */
  function WavOf(v: seq<int>): (w: Wav)
    requires AllFit(v)
    ensures w.channels == Channels && w.sampleWidth == SampleWidth && w.frameRate == SampleRate
    ensures |w.data| == |v| && forall i :: 0 <= i < |v| ==> UnpackSigned(w.data[i]) == v[i]
  {
    Wav(Channels, SampleWidth, SampleRate, Encode(v))
  }

  /** The complete file for a tone at the module sample rate. */
  function ToneFile(freq: real, amplitude: int, sine: Sine): (w: Wav)
    requires -127 <= amplitude <= 127
    ensures w.channels == 1 && w.sampleWidth == 2 && w.frameRate == 44100
    ensures |w.data| == FrameCount
  {
    FramesFit(freq, SampleRate as real, amplitude, sine);
    WavOf(Frames(freq, SampleRate as real, amplitude, sine))
  }

  /** A tone file holds 882000 one-byte frames, each reading back as the
      truncated sample, while its header declares mono, two bytes per sample
      and 44100 Hz; a reader that trusts the header therefore sees 441000
      frames. */
  lemma {:induction false} ToneFileLayout(freq: real, amplitude: int, sine: Sine)
    requires -127 <= amplitude <= 127
    ensures var w := ToneFile(freq, amplitude, sine);
      w.channels == 1 && w.sampleWidth == 2 && w.frameRate == 44100 &&
      |w.data| == 882000 &&
      |w.data| / (w.channels * w.sampleWidth) == 441000 &&
      forall i :: 0 <= i < |w.data| ==>
        UnpackSigned(w.data[i]) == Frames(freq, SampleRate as real, amplitude, sine)[i] &&
        -Abs(amplitude) <= UnpackSigned(w.data[i]) <= Abs(amplitude)
  {
    FramesWithinAmplitude(freq, SampleRate as real, amplitude, sine);
  }
}
