/** The mu-law codec of the outbound media stream: `mulawDecode` and `mulawEncode`
    (the same text appears in the outbound handler and in its test copy).
    It is the G.711 bias-0x84 scheme, with one departure kept as written:
    the decoder adds the bias back but never subtracts it. */
module MuLaw {
  import opened Pcm

  const Bias := 0x84
  const Clip := 0x7FFF

  /** The exponent field (bits 6-4) of a complemented code byte. */
  function ExponentOf(b: byte): nat
  {
    ((255 - b) / 16) % 8
  }

  /** The magnitude `((m << 3) + 0x84) << e` that the decoder rebuilds from the fields. */
  function Magnitude(e: nat, m: nat): (mag: nat)
    requires e <= 7 && m <= 15
    ensures 132 <= mag <= 32256
  {
    MagnitudeBounds(e, m);
    (m * 8 + Bias) * Pow2(e)
  }

  lemma MagnitudeBounds(e: nat, m: nat)
    requires e <= 7 && m <= 15
    ensures 132 <= (m * 8 + Bias) * Pow2(e) <= 32256
  {
    Pow2Table();
    if e == 0 {
    } else if e == 1 {
    } else if e == 2 {
    } else if e == 3 {
    } else if e == 4 {
    } else if e == 5 {
    } else if e == 6 {
    } else {
    }
  }

  /** mulawDecode: complement the byte, split it into sign, exponent and mantissa,
      and rebuild the biased magnitude. Because the bias is never subtracted,
      no byte decodes to 0. */
  function Decode(b: byte): (s: int)
    ensures s < 0 <==> b < 128
    ensures 132 <= Abs(s) <= 32256
  {
    var u := 255 - b;
    var e := (u / 16) % 8;
    var m := u % 16;
    var mag := Magnitude(e, m);
    if u >= 128 then 0 - mag else mag
  }

  /** The G.711 segment of a biased magnitude: the position of its highest set bit
      among bits 14..8, counted from bit 7, or 0 when none of them is set. */
  function Segment(w: int): (e: nat)
    requires 0 <= w < 32768
    ensures e <= 7
    ensures w < Pow2(e + 8)
    ensures e > 0 ==> Pow2(e + 7) <= w
  {
    Pow2Table();
    if w >= 0x4000 then 7
    else if w >= 0x2000 then 6
    else if w >= 0x1000 then 5
    else if w >= 0x800 then 4
    else if w >= 0x400 then 3
    else if w >= 0x200 then 2
    else if w >= 0x100 then 1
    else 0
  }

  /** A biased magnitude lies in exactly one band, so the band pins the segment down. */
  lemma SegmentOfBand(w: int, e: nat)
    requires 0 <= w < 32768 && e <= 7
    requires w < Pow2(e + 8)
    requires e > 0 ==> Pow2(e + 7) <= w
    ensures Segment(w) == e
  {
    var s := Segment(w);
    if s > e {
      Pow2Monotone(e + 8, s + 7);
    } else if s < e {
      Pow2Monotone(s + 8, e + 7);
    }
  }

  /** Removing bit 15 of a value in 0x8000..0xFFFF keeps its bit at any power of two
      p with 2 * p * c == 0x8000. */
  lemma LowBitOfHighValue(v: int, p: int, c: int)
    requires p > 0 && c > 0 && 32768 == 2 * (p * c) && 32768 <= v < 65536
    ensures (v / p) % 2 == ((v - 32768) / p) % 2
  {
    var w := v - 32768;
    var q, r := w / p, w % p;
    assert v == p * (q + 2 * c) + r;
    DivModUnique(v, p, q + 2 * c, r);
    DivModUnique(q + 2 * c, 2, q / 2 + c, q % 2);
  }

  /** The bit that the search tests, seen on v % 0x8000. */
  lemma TestedBit(v: int, k: nat)
    requires 0 <= v < 65536 && k <= 14
    ensures (v / Pow2(k)) % 2 == ((v % 32768) / Pow2(k)) % 2
  {
    if v >= 32768 {
      DivModUnique(v, 32768, 1, v - 32768);
      Pow2Add(k, 14 - k);
      assert Pow2(14) == 16384;
      LowBitOfHighValue(v, Pow2(k), Pow2(14 - k));
    } else {
      DivModUnique(v, 32768, 0, v);
    }
  }

  /** Below 2p, the bit at p is set exactly from p upwards. */
  lemma BitAt(w: int, p: int)
    requires p > 0 && 0 <= w < 2 * p
    ensures (w / p) % 2 == 1 <==> w >= p
  {
    if w >= p {
      DivModUnique(w, p, 1, w - p);
    } else {
      DivModUnique(w, p, 0, w);
    }
  }

  lemma SegmentStep(v: int, e: nat)
    requires 0 <= v < 65536 && 1 <= e <= 7
    requires v % 32768 < Pow2(e + 8)
    requires (v / Pow2(e + 7)) % 2 == 0
    ensures v % 32768 < Pow2(e + 7)
  {
    TestedBit(v, e + 7);
    BitAt(v % 32768, Pow2(e + 7));
  }

  lemma SegmentExit(v: int, e: nat)
    requires 0 <= v < 65536 && e <= 7
    requires v % 32768 < Pow2(e + 8)
    requires e > 0 ==> (v / Pow2(e + 7)) % 2 == 1
    ensures e == Segment(v % 32768)
  {
    if e > 0 {
      TestedBit(v, e + 7);
      BitAt(v % 32768, Pow2(e + 7));
    }
    SegmentOfBand(v % 32768, e);
  }

  /** The exponent search loop of both encoders: start at exponent 7 with mask 0x4000
      and step down while the masked bit is clear and the exponent is positive.
      Bits of `v` at 15 and above are never tested. */
  method FindSegment(v: int) returns (e: nat)
    requires 0 <= v < 65536
    ensures e == Segment(v % 32768)
  {
    Pow2Table();
    e := 7;
    var mask := 0x4000;
    while (v / mask) % 2 == 0 && e > 0
      invariant e <= 7
      invariant mask == Pow2(e + 7)
      invariant v % 32768 < Pow2(e + 8)
      decreases e
    {
      SegmentStep(v, e);
      e := e - 1;
      mask := mask / 2;
    }
    SegmentExit(v, e);
  }

  /** The mantissa field of a code, `(v >> (e + 3)) & 0x0F`. */
  function Mantissa(v: int, e: nat): (m: nat)
    requires v >= 0
    ensures m <= 15
  {
    (v / Pow2(e + 3)) % 16
  }

  /** The byte `mulawEncode(x)` returns: sign, bias, clip at 0x7FFF, segment, mantissa,
      complement. The code byte's top bit is clear exactly for negative inputs, so
      decoding preserves the sign class of the input. */
  function Encoding(x: int): (b: byte)
    ensures b < 128 <==> x < 0
  {
    var sign := if x < 0 then 0x80 else 0;
    var mag := Abs(x);
    var v := if mag + Bias > Clip then Clip else mag + Bias;
    var e := Segment(v);
    var m := Mantissa(v, e);
    255 - (sign + 16 * e + m)
  }

  /** mulawEncode, with its exponent loop. */
  method Encode(x: int) returns (b: byte)
    ensures b == Encoding(x)
  {
    var sample := x;
    var sign := 0;
    if sample < 0 {
      sign := 0x80;
      sample := -sample;
    }
    sample := sample + Bias;
    if sample > Clip {
      sample := Clip;
    }
    assert sample == (if Abs(x) + Bias > Clip then Clip else Abs(x) + Bias);
    var exponent := FindSegment(sample);
    assert sample % 32768 == sample;
    var mantissa := Mantissa(sample, exponent);
    b := 255 - (sign + 16 * exponent + mantissa);
  }

  /** A code byte decodes to a negative sample exactly when it encodes a negative input,
      and its exponent field is one of the eight segments. */
  lemma SignRoundTrip(x: int)
    ensures Decode(Encoding(x)) < 0 <==> x < 0
    ensures ExponentOf(Encoding(x)) == Segment(if Abs(x) + Bias > Clip then Clip else Abs(x) + Bias)
  {
    var v := if Abs(x) + Bias > Clip then Clip else Abs(x) + Bias;
    FieldsOfCode(if x < 0 then 0x80 else 0, Segment(v), Mantissa(v, Segment(v)));
  }

  /** The third loop of both mixers: one outbound code per sample. */
  function EncodeAll(pcm: seq<int16>): (out: seq<byte>)
    ensures |out| == |pcm|
    ensures forall i :: 0 <= i < |pcm| ==> out[i] == Encoding(pcm[i])
  {
    seq(|pcm|, i requires 0 <= i < |pcm| => Encoding(pcm[i]))
  }

  lemma EncodeAllSplit(p: seq<int16>, q: seq<int16>)
    ensures EncodeAll(p + q) == EncodeAll(p) + EncodeAll(q)
  {
    assert forall i :: 0 <= i < |p + q| ==> EncodeAll(p + q)[i] == (EncodeAll(p) + EncodeAll(q))[i];
  }

  /** The third loop of both mixers: encode each sample into the output Buffer. */
  method EncodeSamples(pcm: array<int16>) returns (out: seq<byte>)
    ensures out == EncodeAll(pcm[..])
  {
    var buf := new byte[pcm.Length];
    var i := 0;
    while i < pcm.Length
      invariant 0 <= i <= pcm.Length
      invariant forall k :: 0 <= k < i ==> buf[k] == Encoding(pcm[k])
    {
      buf[i] := Encode(pcm[i]);
      i := i + 1;
    }
    out := buf[..];
  }

  /** Decoding the fields of a composed code byte gives them back. */
  lemma FieldsOfCode(sign: nat, e: nat, m: nat)
    requires (sign == 0 || sign == 128) && e <= 7 && m <= 15
    ensures ExponentOf(255 - (sign + 16 * e + m)) == e
    ensures Abs(Decode(255 - (sign + 16 * e + m))) == Magnitude(e, m)
  {
    var u := sign + 16 * e + m;
    if sign == 0 {
      DivModUnique(u, 16, e, m);
      DivModUnique(e, 8, 0, e);
    } else {
      DivModUnique(u, 16, 8 + e, m);
      DivModUnique(8 + e, 8, 1, e);
    }
  }

  /** Quantisation within one segment: the rebuilt magnitude is within 2^(e+2) of the
      biased input, from below strictly. */
  lemma SegmentRoundTrip(v: int)
    requires 128 <= v <= 32767
    ensures var e := Segment(v);
            var m := Mantissa(v, e);
            m <= 15 && v - Magnitude(e, m) < Pow2(e + 2) && Magnitude(e, m) - v <= Pow2(e + 2)
  {
    var e := Segment(v);
    var p := Pow2(e);
    Pow2Add(2, e);
    Pow2Add(3, e);
    Pow2Add(4, e + 3);
    Pow2Add(5, e + 3);
    assert Pow2(2) == 4 && Pow2(3) == 8 && Pow2(4) == 16 && Pow2(5) == 32;
    assert Pow2(e + 3) == 8 * p;
    var q := v / (8 * p);
    assert 16 <= q < 32 by {
      if e == 0 {
        assert Pow2(3) == 8;
      }
      QuotientBand(v, 8 * p);
    }
    var m := q % 16;
    assert m == q - 16;
    assert Magnitude(e, m) == (m * 8 + Bias) * p;
    QuantisationError(v, p, q);
  }

  /** A value in [16d, 32d) has quotient 16..31 by d. */
  lemma QuotientBand(v: int, d: int)
    requires d > 0 && 16 * d <= v < 32 * d
    ensures 16 <= v / d < 32
  {
    var q, r := v / d, v % d;
    assert v == d * q + r;
    if q < 16 {
      MulAtLeast(d, 16 - q);
    } else if q >= 32 {
      MulAtLeast(d, q - 31);
    }
  }

  /** With q = v / 8p in 16..31, ((q - 16) * 8 + 132) * p is v up to 4p. */
  lemma QuantisationError(v: int, p: int, q: int)
    requires p > 0 && v >= 0 && 16 <= q < 32 && q == v / (8 * p)
    ensures v - ((q - 16) * 8 + Bias) * p < 4 * p
    ensures ((q - 16) * 8 + Bias) * p - v <= 4 * p
  {
    var r := v % (8 * p);
    assert v == (8 * p) * q + r;
    assert ((q - 16) * 8 + Bias) * p == 8 * p * q + 4 * p;
  }

  /** Round-trip bound: below the clip point, with e the exponent of the code,
      |decode(encode(x))| - (|x| + 132) lies in (-2^(e+2), 2^(e+2)]; in particular
      0 comes back as 132, the bias that the decoder never removes. */
  lemma RoundTripBound(x: int)
    requires -32635 <= x <= 32635
    ensures var e := ExponentOf(Encoding(x));
            (Abs(x) + Bias) - Abs(Decode(Encoding(x))) < Pow2(e + 2) &&
            Abs(Decode(Encoding(x))) - (Abs(x) + Bias) <= Pow2(e + 2)
    ensures x == 0 ==> Decode(Encoding(x)) == 132
  {
    var sign := if x < 0 then 0x80 else 0;
    var v := Abs(x) + Bias;
    var e := Segment(v);
    var m := Mantissa(v, e);
    assert Encoding(x) == 255 - (sign + 16 * e + m);
    assert v - Magnitude(e, m) < Pow2(e + 2) && Magnitude(e, m) - v <= Pow2(e + 2) by {
      SegmentRoundTrip(v);
    }
    FieldsOfCode(sign, e, m);
    if x == 0 {
      ZeroCode();
    }
  }

  lemma ZeroCode()
    ensures Decode(Encoding(0)) == 132
  {
    Pow2Table();
    assert Segment(Bias) == 0;
    assert Encoding(0) == 255;
  }

  /** Above the clip point every input encodes to the top code of its sign class,
      which decodes to magnitude 32256. */
  lemma Saturation(x: int)
    requires Abs(x) > 32635
    ensures Abs(Decode(Encoding(x))) == 32256
    ensures ExponentOf(Encoding(x)) == 7
  {
    Pow2Table();
    var sign := if x < 0 then 0x80 else 0;
    assert Segment(Clip) == 7;
    assert (Clip / Pow2(10)) % 16 == 15;
    assert Encoding(x) == 255 - (sign + 16 * 7 + 15);
    FieldsOfCode(sign, 7, 15);
  }
}
