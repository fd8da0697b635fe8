/** The mu-law encoder of the background streamer: `muLawEncode` and
    `encodeMuLawBuffer`. Unlike the outbound encoder it clamps the input sample to
    the int16 range but not the biased magnitude, so a biased magnitude of 0x8000
    or more has none of the tested bits 14..8 set and lands in segment 0. */
module AudioCodec {
  import opened Pcm
  import opened MuLaw

  /** The byte `muLawEncode(x)` returns; the code's top bit is clear exactly for
      negative inputs. */
  function ClampedEncoding(x: int): (b: byte)
    ensures b < 128 <==> x < 0
  {
    var c := ClampInt(x);
    var sign := if c < 0 then 0x80 else 0;
    var v := Abs(c) + Bias;
    var e := Segment(v % 32768);
    var m := Mantissa(v, e);
    255 - (sign + 16 * e + m)
  }

  /** muLawEncode, with its exponent loop. */
  method MuLawEncode(x: int) returns (b: byte)
    ensures b == ClampedEncoding(x)
  {
    var sample := x;
    if sample > 32767 {
      sample := 32767;
    }
    if sample < -32768 {
      sample := -32768;
    }
    var sign := if sample < 0 then 0x80 else 0;
    if sign != 0 {
      sample := -sample;
    }
    var value := sample + Bias;
    var exponent := FindSegment(value);
    var mantissa := Mantissa(value, exponent);
    b := 255 - (sign + 16 * exponent + mantissa);
  }

  /** The bytes encodeMuLawBuffer returns: one code byte per sample, in order. */
  function MuLawBuffer(pcm: seq<int>): (p: seq<byte>)
    ensures |p| == |pcm|
  {
    seq(|pcm|, k requires 0 <= k < |pcm| => ClampedEncoding(pcm[k]))
  }

  /** encodeMuLawBuffer, with its loop over the samples. */
  method EncodeMuLawBuffer(pcm: seq<int>) returns (out: seq<byte>)
    ensures |out| == |pcm|
    ensures forall i :: 0 <= i < |pcm| ==> out[i] == ClampedEncoding(pcm[i])
    ensures out == MuLawBuffer(pcm)
  {
    var buf := new byte[|pcm|];
    var i := 0;
    while i < |pcm|
      invariant 0 <= i <= |pcm|
      invariant forall k :: 0 <= k < i ==> buf[k] == ClampedEncoding(pcm[k])
    {
      buf[i] := MuLawEncode(pcm[i]);
      i := i + 1;
    }
    out := buf[..];
  }

  /** Up to the knee |x| <= 32635 the two encoders agree byte for byte. */
  lemma AgreesBelowKnee(x: int)
    requires -32635 <= x <= 32635
    ensures ClampedEncoding(x) == Encoding(x)
  {
    var v := Abs(x) + Bias;
    assert ClampInt(x) == x;
    assert v % 32768 == v;
  }

  /** Past the knee (|clamped x| > 32635) the biased magnitude is 0x8000 or more,
      the exponent ends at 0, and the code decodes to at most 252 in magnitude:
      a loud sample becomes a near-silent one. */
  lemma LoudSampleCollapses(x: int)
    requires Abs(ClampInt(x)) > 32635
    ensures ExponentOf(ClampedEncoding(x)) == 0
    ensures Abs(Decode(ClampedEncoding(x))) <= 252
  {
    Pow2Table();
    var c := ClampInt(x);
    var v := Abs(c) + Bias;
    assert 32768 <= v <= 32900;
    assert Segment(v % 32768) == 0;
    var m := (v / 8) % 16;
    FieldsOfCode(if c < 0 then 0x80 else 0, 0, m);
  }

  /** The full-scale positive sample, which the outbound encoder maps to magnitude
      32256, comes out of this encoder as 132. */
  lemma FullScaleDecodesTo132()
    ensures Decode(ClampedEncoding(32767)) == 132
    ensures Decode(Encoding(32767)) == 32256
  {
    Pow2Table();
    assert ClampedEncoding(32767) == 255;
    Saturation(32767);
  }
}
