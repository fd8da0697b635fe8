/** The filter-free `mixChunk` of the test copy of the outbound handler: decode each
    voice byte, add the next background sample scaled by 0.3, clamp, store into an
    Int16Array (truncating toward zero) and re-encode. Its only state is the
    background cursor. */
module TestMixer {
  import opened Pcm
  import opened MuLaw
  import opened Cursor
  import opened Scan

  const VoiceVol: real := 1.0
  const BgVol: real := 0.3

  /** Loop 1: the decoded voice samples as an Int16Array holds them. */
  function VoicePass(chunk: seq<byte>): (pcm: seq<int16>)
    ensures |pcm| == |chunk|
    ensures forall i :: 0 <= i < |chunk| ==> pcm[i] == Decode(chunk[i])
  {
    seq(|chunk|, i requires 0 <= i < |chunk| => ToInt16(Decode(chunk[i]) as real * VoiceVol))
  }

  /** One mixed sample: voice plus scaled background, clamped, then stored. The store
      never wraps, so the value is the clamped sum truncated toward zero. */
  function MixSample(voice: int16, bgSample: int16): (r: int16)
    ensures r == Trunc(ClampReal(voice as real + bgSample as real * BgVol))
  {
    ToInt16(ClampReal(voice as real + bgSample as real * BgVol))
  }

  /** Loop 2, one sample: read the background at the wrapped cursor and mix it in. */
  function BgFn(bg: seq<byte>): (int, int16) --> (int16, int)
  {
    (off: int, v: int16) requires CursorOk(|bg|, off) =>
      var at := ReadPos(off, |bg|);
      (MixSample(v, ReadInt16LE(bg, at)), at + 2)
  }

  function InTrack(bg: seq<byte>): int -> bool
  {
    (off: int) => CursorOk(|bg|, off)
  }

  lemma BgClosed(bg: seq<byte>)
    ensures Closed(BgFn(bg), InTrack(bg))
  {
  }

  /** Loop 2, one read per sample, following the cursor. */
  function BgPass(bg: seq<byte>, off: int, pcm: seq<int16>): (r: (seq<int16>, int))
    requires CursorOk(|bg|, off)
    ensures |r.0| == |pcm| && CursorOk(|bg|, r.1)
  {
    BgClosed(bg);
    Run(BgFn(bg), InTrack(bg), off, pcm)
  }

  /** After n samples the cursor is where n reads from the entry cursor leave it. */
  lemma {:induction false} BgPassCursor(bg: seq<byte>, off: int, pcm: seq<int16>)
    requires CursorOk(|bg|, off)
    ensures BgPass(bg, off, pcm).1 == CursorAfter(off, |pcm|, |bg|)
    decreases |pcm|
  {
    if pcm != [] {
      var init := pcm[..|pcm| - 1];
      BgPassCursor(bg, off, init);
      var last := BgPass(bg, off, init);
      assert BgPass(bg, off, pcm).1 == ReadPos(last.1, |bg|) + 2;
    }
  }

  /** The value of `mixChunk(chunk)` and the cursor it leaves, from the cursor at entry. */
  function Mixed(bg: seq<byte>, off: int, chunk: seq<byte>): (r: (seq<byte>, int))
    requires CursorOk(|bg|, off)
    ensures |r.0| == |chunk| && CursorOk(|bg|, r.1)
  {
    var mix := BgPass(bg, off, VoicePass(chunk));
    (EncodeAll(mix.0), mix.1)
  }

  /** Sample k of loop 2 mixes voice sample k with background sample
      (off / 2 + k) mod (|bg| / 2). */
  lemma BgPassAt(bg: seq<byte>, off: int, pcm: seq<int16>, k: nat)
    requires CursorOk(|bg|, off) && k < |pcm|
    ensures BgPass(bg, off, pcm).0[k] == MixSample(pcm[k], ReadInt16LE(bg, SamplePos(off, k, |bg|)))
  {
    BgClosed(bg);
    RunNext(BgFn(bg), InTrack(bg), off, pcm, k);
    BgPassCursor(bg, off, pcm[..k]);
    ReadPositions(off, k, |bg|);
  }

  /** Closed form of the mixer: output byte k depends only on input byte k and
      background sample (off / 2 + k) mod (|bg| / 2), where off is the byte cursor at
      entry; the cursor ends one sample past the last read, or where it was for an
      empty chunk. */
  lemma MixedClosedForm(bg: seq<byte>, off: int, chunk: seq<byte>)
    requires CursorOk(|bg|, off)
    ensures forall k :: 0 <= k < |chunk| ==>
      Mixed(bg, off, chunk).0[k] ==
      Encoding(MixSample(Decode(chunk[k]), ReadInt16LE(bg, SamplePos(off, k, |bg|))))
    ensures Mixed(bg, off, chunk).1 == if chunk == [] then off else SamplePos(off, |chunk| - 1, |bg|) + 2
  {
    forall k | 0 <= k < |chunk|
      ensures Mixed(bg, off, chunk).0[k] ==
        Encoding(MixSample(Decode(chunk[k]), ReadInt16LE(bg, SamplePos(off, k, |bg|))))
    {
      MixedAt(bg, off, chunk, k);
    }
    assert Mixed(bg, off, chunk).1 == if chunk == [] then off else SamplePos(off, |chunk| - 1, |bg|) + 2 by {
      var voice := VoicePass(chunk);
      assert Mixed(bg, off, chunk).1 == BgPass(bg, off, voice).1;
      BgPassCursor(bg, off, voice);
      if chunk != [] {
        ReadPositions(off, |voice|, |bg|);
      }
    }
  }

  lemma MixedAt(bg: seq<byte>, off: int, chunk: seq<byte>, k: nat)
    requires CursorOk(|bg|, off) && k < |chunk|
    ensures Mixed(bg, off, chunk).0[k] ==
      Encoding(MixSample(Decode(chunk[k]), ReadInt16LE(bg, SamplePos(off, k, |bg|))))
  {
    var voice := VoicePass(chunk);
    var mix := BgPass(bg, off, voice);
    assert Mixed(bg, off, chunk).0[k] == Encoding(mix.0[k]);
    BgPassAt(bg, off, voice, k);
    assert voice[k] == Decode(chunk[k]);
  }

  /** Chunk boundaries do not matter: mixing a and then b, with the cursor carried
      over, gives the bytes and the cursor of mixing a + b at once. */
  lemma MixedSplit(bg: seq<byte>, off: int, a: seq<byte>, b: seq<byte>)
    requires CursorOk(|bg|, off)
    ensures Mixed(bg, off, a + b).0 == Mixed(bg, off, a).0 + Mixed(bg, Mixed(bg, off, a).1, b).0
    ensures Mixed(bg, off, a + b).1 == Mixed(bg, Mixed(bg, off, a).1, b).1
  {
    var va, vb := VoicePass(a), VoicePass(b);
    assert VoicePass(a + b) == va + vb;
    BgClosed(bg);
    RunSplit(BgFn(bg), InTrack(bg), off, va, vb);
    var mid := BgPass(bg, off, va).1;
    EncodeAllSplit(BgPass(bg, off, va).0, BgPass(bg, mid, vb).0);
  }

  /** The module-level mixer state of the test handler: the background track and its cursor. */
  class Mixer {
    const bg: seq<byte>
    var bgOffset: int

    ghost predicate Valid()
      reads this
    {
      CursorOk(|bg|, bgOffset)
    }

    constructor (track: seq<byte>)
      requires |track| > 0 && |track| % 2 == 0
      ensures Valid() && bg == track && bgOffset == 0
    {
      bg := track;
      bgOffset := 0;
    }

    /** The second loop of mixChunk: add the scaled background sample to each voice
        sample in place, clamping and advancing the cursor. */
    method MixBackground(pcm: array<int16>)
      requires Valid()
      modifies this, pcm
      ensures Valid()
      ensures pcm[..] == BgPass(bg, old(bgOffset), old(pcm[..])).0
      ensures bgOffset == BgPass(bg, old(bgOffset), old(pcm[..])).1
    {
      ghost var voice := pcm[..];
      ghost var start := bgOffset;
      var i := 0;
      while i < pcm.Length
        invariant 0 <= i <= pcm.Length
        invariant bgOffset == CursorAfter(start, i, |bg|)
        invariant forall k :: 0 <= k < i ==> pcm[k] == MixSample(voice[k], ReadInt16LE(bg, SamplePos(start, k, |bg|)))
        invariant forall k :: i <= k < pcm.Length ==> pcm[k] == voice[k]
      {
        ReadPositions(start, i, |bg|);
        if bgOffset >= |bg| {
          bgOffset := 0;
        }
        ghost var at := bgOffset;
        var bgSample := ReadInt16LE(bg, bgOffset) as real * BgVol;
        bgOffset := bgOffset + 2;
        var mixed := pcm[i] as real + bgSample;
        if mixed > 32767.0 {
          mixed := 32767.0;
        }
        if mixed < -32768.0 {
          mixed := -32768.0;
        }
        assert mixed == ClampReal(voice[i] as real + ReadInt16LE(bg, at) as real * BgVol);
        pcm[i] := ToInt16(mixed);
        i := i + 1;
      }
      forall k | 0 <= k < pcm.Length
        ensures pcm[k] == BgPass(bg, start, voice).0[k]
      {
        BgPassAt(bg, start, voice, k);
      }
      ghost var spec := BgPass(bg, start, voice);
      BgPassCursor(bg, start, voice);
      assert |spec.0| == pcm.Length;
      assert pcm[..] == spec.0;
    }

    /** mixChunk: decode into an Int16Array, mix the background in place, encode. */
    method MixChunk(ulawChunk: seq<byte>) returns (out: seq<byte>)
      requires Valid()
      modifies this
      ensures Valid()
      ensures (out, bgOffset) == Mixed(bg, old(bgOffset), ulawChunk)
    {
      var pcm := DecodeVoice(ulawChunk);
      MixBackground(pcm);
      out := EncodeSamples(pcm);
    }
  }

  /** The first loop of mixChunk: decode each code byte into a fresh Int16Array. */
  method DecodeVoice(ulawChunk: seq<byte>) returns (pcm: array<int16>)
    ensures fresh(pcm)
    ensures pcm[..] == VoicePass(ulawChunk)
  {
    pcm := new int16[|ulawChunk|];
    var i := 0;
    while i < |ulawChunk|
      invariant 0 <= i <= |ulawChunk|
      invariant forall k :: 0 <= k < i ==> pcm[k] == VoicePass(ulawChunk)[k]
    {
      pcm[i] := ToInt16(Decode(ulawChunk[i]) as real * VoiceVol);
      i := i + 1;
    }
  }
}
