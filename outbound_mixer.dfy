/** The `mixChunk` of the outbound media stream. It works like the test mixer, with
    three more floating-point stages: a one-pole low-pass on the voice and on the
    background, a DC blocker on the mix, and a tanh soft limiter before the hard clamp.
    All filter states live between calls, next to the background cursor.
    Arithmetic is exact (`real`); `Math.tanh` is a parameter. */
module OutboundMixer {
  import opened Pcm
  import opened MuLaw
  import opened Cursor
  import opened Scan

  const VoiceVol: real := 1.0
  const BgVol: real := 0.35
  const VoiceAlpha: real := 0.18
  const BgAlpha: real := 0.3
  const DcCoeff: real := 0.995
  const Threshold: real := 26000.0
  const Knee: real := 5000.0
  const Headroom: real := 6767.0

  /** Largest decoded voice magnitude, largest scaled background magnitude, and their sum. */
  const VoiceBound: real := 32256.0
  const BgBound: real := 11468.8
  const MixBound: real := 43724.8

  function RAbs(x: real): real
  {
    if x < 0.0 then -x else x
  }

  lemma MulNonNegative(x: real, y: real)
    requires x >= 0.0 && y >= 0.0
    ensures x * y >= 0.0
  {
  }

  /** A fraction a of d lies between 0 and d. */
  lemma Fraction(a: real, d: real, p: real)
    requires 0.0 <= a <= 1.0 && p == a * d
    ensures d >= 0.0 ==> 0.0 <= p <= d
    ensures d <= 0.0 ==> d <= p <= 0.0
  {
    assert p + (1.0 - a) * d == d;
    if d >= 0.0 {
      MulNonNegative(a, d);
      MulNonNegative(1.0 - a, d);
    } else {
      MulNonNegative(a, -d);
      MulNonNegative(1.0 - a, -d);
    }
  }

  /** The product a * d for a fraction a: between 0 and d. */
  function Part(a: real, d: real): (r: real)
    requires 0.0 <= a <= 1.0
    ensures d >= 0.0 ==> 0.0 <= r <= d
    ensures d <= 0.0 ==> d <= r <= 0.0
  {
    var p := a * d;
    Fraction(a, d, p);
    p
  }

  /** lowPassFilter: move from `previous` toward `current` by the fraction alpha;
      the result lies between the two. */
  function LowPass(current: real, previous: real, alpha: real): (r: real)
    requires 0.0 <= alpha <= 1.0
    ensures previous <= current ==> previous <= r <= current
    ensures current <= previous ==> current <= r <= previous
  {
    previous + Part(alpha, current - previous)
  }

  /** The state removeDCOffset keeps after seeing `sample`: a weighted average of the
      old state and the sample, so it lies between the two. */
  function DcNext(state: real, sample: real): (r: real)
    ensures state <= sample ==> state <= r <= sample
    ensures sample <= state ==> sample <= r <= state
  {
    state * DcCoeff + sample * (1.0 - DcCoeff)
  }

  /** softLimit: the identity up to the threshold 26000 in magnitude; beyond it the
      excess is bent by tanh into a band of width 6767. */
  function SoftLimit(tanh: real -> real, x: real): (r: real)
    ensures -Threshold <= x <= Threshold ==> r == x
  {
    if x > Threshold then Threshold + tanh((x - Threshold) / Knee) * Headroom
    else if x < -Threshold then -Threshold + tanh((x + Threshold) / Knee) * Headroom
    else x
  }

  /** 26000 + 6767 == 32767: with a tanh strictly inside (-1, 1), the soft limiter already
      keeps every sample strictly inside (-32767, 32767), so the hard clamp after it
      never changes a value. */
  lemma SoftLimitInsideClamp(tanh: real -> real, x: real)
    requires forall y :: -1.0 < tanh(y) < 1.0
    ensures -32767.0 < SoftLimit(tanh, x) < 32767.0
    ensures ClampReal(SoftLimit(tanh, x)) == SoftLimit(tanh, x)
  {
    if x > Threshold {
      var t := tanh((x - Threshold) / Knee);
      assert -1.0 < t < 1.0;
    } else if x < -Threshold {
      var t := tanh((x + Threshold) / Knee);
      assert -1.0 < t < 1.0;
    }
  }

  /** The state loop 2 keeps: the background cursor, the background filter state and
      the DC estimate. */
  datatype BgState = BgState(offset: int, prevBg: real, dc: real)

  /** The whole state mixChunk keeps between calls: the voice filter state and the state
      of loop 2. */
  datatype State = State(prevVoice: real, mix: BgState)

  /** The state at load time and after resetBackgroundOffset. */
  const Initial: State := State(0.0, BgState(0, 0.0, 0.0))

  /** The invariant of loop 2's state: a valid cursor, and each filter state bounded by
      the largest input that filter can see. */
  predicate BgOk(len: int, b: BgState)
  {
    CursorOk(len, b.offset) && RAbs(b.prevBg) <= BgBound && RAbs(b.dc) <= MixBound
  }

  predicate StateOk(len: int, s: State)
  {
    RAbs(s.prevVoice) <= VoiceBound && BgOk(len, s.mix)
  }

  /** A voice sample as loop 1 leaves it in the Int16Array. */
  predicate VoiceSampleOk(v: int16)
  {
    -32256 <= v <= 32256
  }

  /** Loop 1, one byte: decode and smooth. */
  function VoiceStep(prev: real, b: byte): (s: real)
    ensures RAbs(prev) <= VoiceBound ==> RAbs(s) <= VoiceBound
  {
    LowPass(Decode(b) as real * VoiceVol, prev, VoiceAlpha)
  }

  /** Storing a smoothed voice sample into the Int16Array truncates it; it never wraps. */
  lemma VoiceStore(s: real)
    requires RAbs(s) <= VoiceBound
    ensures ToInt16(s) == Trunc(s) && VoiceSampleOk(ToInt16(s))
  {
  }

  /** Loop 1 as a step of a pass: the stored sample and the new filter state. */
  function VoiceFn(): (real, byte) -> (int16, real)
  {
    (prev: real, b: byte) => (ToInt16(VoiceStep(prev, b)), VoiceStep(prev, b))
  }

  function AnyReal(x: real): bool
  {
    true
  }

  /** Loop 1: the Int16Array it fills and the voice filter state it leaves. */
  function VoicePass(prev: real, chunk: seq<byte>): (r: (seq<int16>, real))
    ensures |r.0| == |chunk|
  {
    assert Closed(VoiceFn(), AnyReal);
    Run(VoiceFn(), AnyReal, prev, chunk)
  }

  /** Loop 2, one sample: read the background at the wrapped cursor, scale and smooth
      it, add the voice, take the DC offset off, soft-limit, clamp, round, store. */
  function BgStep(bg: seq<byte>, b: BgState, v: int16, tanh: real -> real): (r: (int16, BgState))
    requires CursorOk(|bg|, b.offset)
    ensures r.1.offset == ReadPos(b.offset, |bg|) + 2 && CursorOk(|bg|, r.1.offset)
  {
    var at := ReadPos(b.offset, |bg|);
    var raw := ReadInt16LE(bg, at) as real * BgVol;
    var smooth := LowPass(raw, b.prevBg, BgAlpha);
    var mixed := v as real + smooth;
    var out := Wrap16(Round(ClampReal(SoftLimit(tanh, mixed - b.dc))));
    (out, BgState(at + 2, smooth, DcNext(b.dc, mixed)))
  }

  /** The value loop 2 stores is the clamped, soft-limited sample rounded half up:
      within half a unit of it, and never wrapped. */
  lemma BgStepStore(bg: seq<byte>, b: BgState, v: int16, tanh: real -> real)
    requires CursorOk(|bg|, b.offset)
    ensures var at := ReadPos(b.offset, |bg|);
            var mixed := v as real + LowPass(ReadInt16LE(bg, at) as real * BgVol, b.prevBg, BgAlpha);
            var clamped := ClampReal(SoftLimit(tanh, mixed - b.dc));
            BgStep(bg, b, v, tanh).0 == Round(clamped) &&
            clamped - 0.5 < BgStep(bg, b, v, tanh).0 as real <= clamped + 0.5
  {
  }

  /** Loop 2 as a step of a pass, defined on states whose cursor is valid. */
  function BgFn(bg: seq<byte>, tanh: real -> real): (BgState, int16) --> (int16, BgState)
  {
    (b: BgState, v: int16) requires CursorOk(|bg|, b.offset) => BgStep(bg, b, v, tanh)
  }

  function InTrack(bg: seq<byte>): BgState -> bool
  {
    (b: BgState) => CursorOk(|bg|, b.offset)
  }

  lemma BgClosed(bg: seq<byte>, tanh: real -> real)
    ensures Closed(BgFn(bg, tanh), InTrack(bg))
  {
  }

  /** Loop 2: the samples it stores and the state it leaves. */
  function BgPass(bg: seq<byte>, b: BgState, pcm: seq<int16>, tanh: real -> real): (r: (seq<int16>, BgState))
    requires CursorOk(|bg|, b.offset)
    ensures |r.0| == |pcm| && CursorOk(|bg|, r.1.offset)
  {
    BgClosed(bg, tanh);
    Run(BgFn(bg, tanh), InTrack(bg), b, pcm)
  }

  /** The value of `mixChunk(chunk)` and the state it leaves, from state `s` at entry. */
  function Mixed(bg: seq<byte>, s: State, chunk: seq<byte>, tanh: real -> real): (r: (seq<byte>, State))
    requires CursorOk(|bg|, s.mix.offset)
    ensures |r.0| == |chunk|
  {
    var voice := VoicePass(s.prevVoice, chunk);
    var mix := BgPass(bg, s.mix, voice.0, tanh);
    (EncodeAll(mix.0), State(voice.1, mix.1))
  }

  /** Loop 1 keeps the voice filter state within the decoded range, so every stored
      voice sample is a truncation that did not wrap. */
  lemma {:induction false} VoicePassBounded(prev: real, chunk: seq<byte>)
    requires RAbs(prev) <= VoiceBound
    ensures RAbs(VoicePass(prev, chunk).1) <= VoiceBound
    ensures forall i :: 0 <= i < |chunk| ==> VoiceSampleOk(VoicePass(prev, chunk).0[i])
    decreases |chunk|
  {
    if chunk != [] {
      var init := chunk[..|chunk| - 1];
      VoicePassBounded(prev, init);
      var last := VoicePass(prev, init);
      var s := VoiceStep(last.1, chunk[|chunk| - 1]);
      VoiceStore(s);
      assert VoicePass(prev, chunk) == (last.0 + [ToInt16(s)], s);
    }
  }

  /** One step of loop 2 keeps the bounds of its state. */
  lemma BgStepBounded(bg: seq<byte>, b: BgState, v: int16, tanh: real -> real)
    requires BgOk(|bg|, b) && VoiceSampleOk(v)
    ensures BgOk(|bg|, BgStep(bg, b, v, tanh).1)
  {
  }

  /** Loop 2 keeps the bounds of its state over voice samples within the decoded range. */
  lemma {:induction false} BgPassBounded(bg: seq<byte>, b: BgState, pcm: seq<int16>, tanh: real -> real)
    requires BgOk(|bg|, b) && forall i :: 0 <= i < |pcm| ==> VoiceSampleOk(pcm[i])
    ensures BgOk(|bg|, BgPass(bg, b, pcm, tanh).1)
    decreases |pcm|
  {
    if pcm != [] {
      var init := pcm[..|pcm| - 1];
      assert forall i :: 0 <= i < |init| ==> init[i] == pcm[i];
      BgPassBounded(bg, b, init, tanh);
      var last := BgPass(bg, b, init, tanh);
      BgStepBounded(bg, last.1, pcm[|pcm| - 1], tanh);
      assert BgPass(bg, b, pcm, tanh).1 == BgStep(bg, last.1, pcm[|pcm| - 1], tanh).1;
    }
  }

  /** mixChunk keeps the state invariant. */
  lemma MixedBounded(bg: seq<byte>, s: State, chunk: seq<byte>, tanh: real -> real)
    requires StateOk(|bg|, s)
    ensures StateOk(|bg|, Mixed(bg, s, chunk, tanh).1)
  {
    var voice := VoicePass(s.prevVoice, chunk);
    VoicePassBounded(s.prevVoice, chunk);
    BgPassBounded(bg, s.mix, voice.0, tanh);
  }

  /** Loop 2 reads the track at the cursor positions, one per sample: after n samples the
      cursor is where n reads from the entry cursor leave it. */
  lemma {:induction false} BgPassCursor(bg: seq<byte>, b: BgState, pcm: seq<int16>, tanh: real -> real)
    requires CursorOk(|bg|, b.offset)
    ensures BgPass(bg, b, pcm, tanh).1.offset == CursorAfter(b.offset, |pcm|, |bg|)
    decreases |pcm|
  {
    if pcm != [] {
      var init := pcm[..|pcm| - 1];
      BgPassCursor(bg, b, init, tanh);
      var last := BgPass(bg, b, init, tanh);
      assert BgPass(bg, b, pcm, tanh).1 == BgStep(bg, last.1, pcm[|pcm| - 1], tanh).1;
    }
  }

  /** Sample k of loop 2 reads background sample (off / 2 + k) mod (|bg| / 2): it is the
      voice sample plus that background sample scaled and smoothed, with the DC offset
      taken off, soft-limited, clamped and rounded, where the filter states are those
      the first k samples leave. */
  lemma BgPassAt(bg: seq<byte>, b: BgState, pcm: seq<int16>, k: nat, tanh: real -> real)
    requires CursorOk(|bg|, b.offset) && k < |pcm|
    ensures var before := BgPass(bg, b, pcm[..k], tanh).1;
            var smooth := LowPass(ReadInt16LE(bg, SamplePos(b.offset, k, |bg|)) as real * BgVol, before.prevBg, BgAlpha);
            ReadPos(before.offset, |bg|) == SamplePos(b.offset, k, |bg|) &&
            BgPass(bg, b, pcm, tanh).0[k] == Round(ClampReal(SoftLimit(tanh, pcm[k] as real + smooth - before.dc)))
  {
    var before := BgPass(bg, b, pcm[..k], tanh).1;
    var at := SamplePos(b.offset, k, |bg|);
    assert BgPass(bg, b, pcm, tanh).0[k] == BgStep(bg, before, pcm[k], tanh).0 by {
      BgPassNext(bg, b, pcm, k, tanh);
    }
    assert ReadPos(before.offset, |bg|) == at by {
      BgPassCursor(bg, b, pcm[..k], tanh);
      ReadPositions(b.offset, k, |bg|);
    }
    BgStepAt(bg, before, pcm[k], tanh, at);
  }

  /** One step of loop 2 once the read position is known. */
  lemma BgStepAt(bg: seq<byte>, b: BgState, v: int16, tanh: real -> real, at: int)
    requires CursorOk(|bg|, b.offset) && at == ReadPos(b.offset, |bg|)
    ensures BgStep(bg, b, v, tanh).0 ==
      Round(ClampReal(SoftLimit(tanh, v as real + LowPass(ReadInt16LE(bg, at) as real * BgVol, b.prevBg, BgAlpha) - b.dc)))
  {
    BgStepStore(bg, b, v, tanh);
  }

  /** The background reads of one call: the k-th read of the chunk is at sample
      (off / 2 + k) mod (|bg| / 2), so the cursor ends one sample past the last read. */
  lemma MixedCursor(bg: seq<byte>, s: State, chunk: seq<byte>, tanh: real -> real)
    requires CursorOk(|bg|, s.mix.offset)
    ensures forall k :: 0 <= k < |chunk| ==>
      ReadPos(BgPass(bg, s.mix, VoicePass(s.prevVoice, chunk).0[..k], tanh).1.offset, |bg|) == SamplePos(s.mix.offset, k, |bg|)
    ensures Mixed(bg, s, chunk, tanh).1.mix.offset ==
      if chunk == [] then s.mix.offset else SamplePos(s.mix.offset, |chunk| - 1, |bg|) + 2
  {
    var voice := VoicePass(s.prevVoice, chunk);
    forall k | 0 <= k < |chunk|
      ensures ReadPos(BgPass(bg, s.mix, voice.0[..k], tanh).1.offset, |bg|) == SamplePos(s.mix.offset, k, |bg|)
    {
      BgPassCursor(bg, s.mix, voice.0[..k], tanh);
      ReadPositions(s.mix.offset, k, |bg|);
    }
    BgPassCursor(bg, s.mix, voice.0, tanh);
    if chunk != [] {
      ReadPositions(s.mix.offset, |chunk|, |bg|);
    }
  }

  /** One step of loop 1 in terms of the whole pass: the i-th stored sample, and the
      filter state after i + 1 bytes. */
  lemma VoicePassNext(prev: real, chunk: seq<byte>, i: nat)
    requires i < |chunk|
    ensures VoicePass(prev, chunk).0[i] == ToInt16(VoiceStep(VoicePass(prev, chunk[..i]).1, chunk[i]))
    ensures VoicePass(prev, chunk[..i + 1]).1 == VoiceStep(VoicePass(prev, chunk[..i]).1, chunk[i])
  {
    assert Closed(VoiceFn(), AnyReal);
    RunNext(VoiceFn(), AnyReal, prev, chunk, i);
  }

  /** One step of loop 2 in terms of the whole pass. */
  lemma BgPassNext(bg: seq<byte>, b: BgState, pcm: seq<int16>, i: nat, tanh: real -> real)
    requires CursorOk(|bg|, b.offset) && i < |pcm|
    ensures BgPass(bg, b, pcm, tanh).0[i] == BgStep(bg, BgPass(bg, b, pcm[..i], tanh).1, pcm[i], tanh).0
    ensures BgPass(bg, b, pcm[..i + 1], tanh).1 == BgStep(bg, BgPass(bg, b, pcm[..i], tanh).1, pcm[i], tanh).1
  {
    BgClosed(bg, tanh);
    RunNext(BgFn(bg, tanh), InTrack(bg), b, pcm, i);
  }

  /** Chunk boundaries do not matter: mixing a and then b, with the cursor and all three
      filter states carried over, gives the bytes and the state of mixing a + b at once. */
  lemma MixedSplit(bg: seq<byte>, s: State, a: seq<byte>, b: seq<byte>, tanh: real -> real)
    requires CursorOk(|bg|, s.mix.offset)
    ensures Mixed(bg, s, a + b, tanh).0 == Mixed(bg, s, a, tanh).0 + Mixed(bg, Mixed(bg, s, a, tanh).1, b, tanh).0
    ensures Mixed(bg, s, a + b, tanh).1 == Mixed(bg, Mixed(bg, s, a, tanh).1, b, tanh).1
  {
    assert Closed(VoiceFn(), AnyReal);
    BgClosed(bg, tanh);
    var va := VoicePass(s.prevVoice, a);
    var vb := VoicePass(va.1, b);
    RunSplit(VoiceFn(), AnyReal, s.prevVoice, a, b);
    var ma := BgPass(bg, s.mix, va.0, tanh);
    var mb := BgPass(bg, ma.1, vb.0, tanh);
    RunSplit(BgFn(bg, tanh), InTrack(bg), s.mix, va.0, vb.0);
    EncodeAllSplit(ma.0, mb.0);
  }

  /** The module-level state of the outbound handler: the background track, its
      cursor and the three filter states. */
  class Mixer {
    const bg: seq<byte>
    var bgOffset: int
    var prevVoiceSample: real
    var prevBgSample: real
    var dcFilterState: real

    function Background(): BgState
      reads this
    {
      BgState(bgOffset, prevBgSample, dcFilterState)
    }

    function Current(): State
      reads this
    {
      State(prevVoiceSample, Background())
    }

    ghost predicate Valid()
      reads this
    {
      StateOk(|bg|, Current())
    }

    constructor (track: seq<byte>)
      requires |track| > 0 && |track| % 2 == 0
      ensures Valid() && bg == track && Current() == Initial
    {
      bg := track;
      bgOffset := 0;
      prevVoiceSample := 0.0;
      prevBgSample := 0.0;
      dcFilterState := 0.0;
    }

    /** resetBackgroundOffset: the cursor and the three filter states go back to 0. */
    method ResetBackgroundOffset()
      modifies this
      ensures Current() == Initial
      ensures |bg| > 0 && |bg| % 2 == 0 ==> Valid()
    {
      bgOffset := 0;
      prevVoiceSample := 0.0;
      prevBgSample := 0.0;
      dcFilterState := 0.0;
    }

    /** removeDCOffset: the sample minus the running DC estimate, which then moves
        toward the sample. */
    method RemoveDCOffset(sample: real) returns (filtered: real)
      modifies this
      ensures filtered == sample - old(dcFilterState)
      ensures dcFilterState == DcNext(old(dcFilterState), sample)
      ensures bgOffset == old(bgOffset) && prevVoiceSample == old(prevVoiceSample) && prevBgSample == old(prevBgSample)
    {
      filtered := sample - dcFilterState;
      dcFilterState := dcFilterState * DcCoeff + sample * (1.0 - DcCoeff);
    }

    /** The first loop of mixChunk: decode and smooth each byte into a fresh Int16Array. */
    method DecodeVoice(ulawChunk: seq<byte>) returns (pcm: array<int16>)
      modifies this
      ensures fresh(pcm)
      ensures (pcm[..], prevVoiceSample) == VoicePass(old(prevVoiceSample), ulawChunk)
      ensures Background() == old(Background())
    {
      ghost var start := prevVoiceSample;
      ghost var whole := VoicePass(start, ulawChunk);
      pcm := new int16[|ulawChunk|];
      var i := 0;
      while i < |ulawChunk|
        invariant 0 <= i <= |ulawChunk|
        invariant prevVoiceSample == VoicePass(start, ulawChunk[..i]).1
        invariant forall k :: 0 <= k < i ==> pcm[k] == whole.0[k]
        invariant Background() == old(Background())
      {
        VoicePassNext(start, ulawChunk, i);
        var decoded := Decode(ulawChunk[i]) as real * VoiceVol;
        var smoothed := LowPass(decoded, prevVoiceSample, VoiceAlpha);
        prevVoiceSample := smoothed;
        pcm[i] := ToInt16(smoothed);
        i := i + 1;
      }
      assert ulawChunk[..|ulawChunk|] == ulawChunk;
      assert pcm[..] == whole.0;
    }

    /** The body of the second loop of mixChunk for one voice sample. */
    method MixStep(voice: int16, tanh: real -> real) returns (out: int16)
      requires CursorOk(|bg|, bgOffset)
      modifies this
      ensures (out, Background()) == BgStep(bg, old(Background()), voice, tanh)
      ensures prevVoiceSample == old(prevVoiceSample)
    {
      if bgOffset >= |bg| {
        bgOffset := 0;
      }
      var rawBgSample := ReadInt16LE(bg, bgOffset) as real * BgVol;
      bgOffset := bgOffset + 2;
      var smoothBg := LowPass(rawBgSample, prevBgSample, BgAlpha);
      prevBgSample := smoothBg;
      var mixed := voice as real + smoothBg;
      mixed := RemoveDCOffset(mixed);
      mixed := SoftLimit(tanh, mixed);
      if mixed > 32767.0 {
        mixed := 32767.0;
      }
      if mixed < -32768.0 {
        mixed := -32768.0;
      }
      out := Wrap16(Round(mixed));
    }

    /** One iteration of the second loop of mixChunk: mix sample i in place. Stated over
        the whole pass from the state `start` at loop entry over the voice samples
        `voice`: the stored sample is element i of that pass, and the state is the one
        the pass leaves after i + 1 samples. */
    method MixAt(pcm: array<int16>, i: nat, tanh: real -> real, ghost start: BgState, ghost voice: seq<int16>)
      requires CursorOk(|bg|, start.offset) && i < pcm.Length == |voice| && pcm[i] == voice[i]
      requires Background() == BgPass(bg, start, voice[..i], tanh).1
      modifies this, pcm
      ensures pcm[i] == BgPass(bg, start, voice, tanh).0[i]
      ensures forall k :: 0 <= k < pcm.Length && k != i ==> pcm[k] == old(pcm[k])
      ensures Background() == BgPass(bg, start, voice[..i + 1], tanh).1
      ensures prevVoiceSample == old(prevVoiceSample)
    {
      BgPassNext(bg, start, voice, i, tanh);
      var sample := MixStep(pcm[i], tanh);
      pcm[i] := sample;
    }

    /** The second loop of mixChunk, over the Int16Array in place. */
    method MixBackground(pcm: array<int16>, tanh: real -> real)
      requires CursorOk(|bg|, bgOffset)
      modifies this, pcm
      ensures (pcm[..], Background()) == BgPass(bg, old(Background()), old(pcm[..]), tanh)
      ensures prevVoiceSample == old(prevVoiceSample)
    {
      ghost var start := Background();
      ghost var voice := pcm[..];
      ghost var whole := BgPass(bg, start, voice, tanh);
      var i := 0;
      while i < pcm.Length
        invariant 0 <= i <= pcm.Length
        invariant Background() == BgPass(bg, start, voice[..i], tanh).1
        invariant forall k :: 0 <= k < i ==> pcm[k] == whole.0[k]
        invariant forall k :: i <= k < pcm.Length ==> pcm[k] == voice[k]
        invariant prevVoiceSample == old(prevVoiceSample)
      {
        MixAt(pcm, i, tanh, start, voice);
        i := i + 1;
      }
      assert voice[..pcm.Length] == voice;
      assert pcm[..] == whole.0;
    }

    /** mixChunk: decode and smooth, mix the background in place, encode. */
    method MixChunk(ulawChunk: seq<byte>, tanh: real -> real) returns (out: seq<byte>)
      requires Valid()
      modifies this
      ensures Valid()
      ensures (out, Current()) == Mixed(bg, old(Current()), ulawChunk, tanh)
    {
      MixedBounded(bg, Current(), ulawChunk, tanh);
      var pcm := DecodeVoice(ulawChunk);
      MixBackground(pcm, tanh);
      out := EncodeSamples(pcm);
    }
  }
}
