/** The background scheduler: `BackgroundController`, a pair of flags shared by every
    handler, and the frame loop of `streamBackgroundToTwilio`, which sends a raw 16-bit
    mono track to the call in frames of 160 samples (320 bytes), mu-law encoded.

    The loaded file is held as its 16-bit samples; frames sit at byte offsets that
    are multiples of 320, and the volume stage writes the scaled samples back into
    the loaded buffer, which the next lap of a looped track reads again. */
module BackgroundStream {
  import opened Pcm
  import opened AudioCodec
  import opened Wrappers
  import opened FrameLoop

  /** BackgroundController: `running` says a frame loop is live, `cancel` that a stop
      has been requested. */
  class Controller {
    var running: bool
    var cancel: bool

    /** A frame loop may go on: the condition of its `while`. */
    predicate Active()
      reads this
    {
      running && !cancel
    }

    constructor ()
      ensures !running && !cancel
    {
      running := false;
      cancel := false;
    }

    /** start(): ignored while a loop is active; otherwise marks a loop running with no
        stop pending. Either way a loop is active afterwards, which fixes both flags. */
    method Start()
      modifies this
      ensures Active()
    {
      if running && !cancel {
        return;
      }
      running := true;
      cancel := false;
    }

    /** stop(): ignored when a stop is already pending; otherwise requests one.
        `running` is left alone: only the frame loop clears it, as it exits. */
    method Stop()
      modifies this
      ensures cancel && running == old(running)
    {
      if cancel == true {
        return;
      }
      cancel := true;
    }
  }

  /** The Twilio side of a call as the streamer sees it: the stream id and whether the
      socket is there. An empty stream id is falsy in JavaScript and counts as missing. */
  datatype Connection = Connection(streamSid: string, hasSocket: bool)

  predicate Usable(conn: Option<Connection>)
  {
    conn.Some? && conn.value.streamSid != [] && conn.value.hasSocket
  }

  /** The volume stage on one sample: scale, clamp, store into the Int16Array. The
      clamp comes first, so the store truncates toward zero and never wraps. */
  function ScaleSample(x: int16, vol: real): (r: int16)
    ensures r == Trunc(ClampReal(x as real * vol))
  {
    ToInt16(ClampReal(x as real * vol))
  }

  /** At volume 1 the volume stage leaves a sample as it is, which is why the loop skips
      it then. */
  lemma UnitVolume(x: int16)
    ensures ScaleSample(x, 1.0) == x
  {
    assert ClampReal(x as real * 1.0) == x as real;
  }

  /** The buffer after the volume stage has run over the frame of samples starting at
      sample `first`: those samples scaled, every other one as it was. */
  function ScaleFrame(buf: seq<int16>, first: nat, vol: real): (r: seq<int16>)
    ensures |r| == |buf|
    ensures forall j :: first <= j < first + Samples && j < |buf| ==> r[j] == ScaleSample(buf[j], vol)
    ensures forall j :: 0 <= j < |buf| && !(first <= j < first + Samples) ==> r[j] == buf[j]
  {
    seq(|buf|, j requires 0 <= j < |buf| => if first <= j < first + Samples then ScaleSample(buf[j], vol) else buf[j])
  }

  /** The payload of the frame starting at sample `first`. */
  function Payload(buf: seq<int16>, first: nat): (p: seq<byte>)
    requires first + Samples <= |buf|
    ensures |p| == Samples
    ensures forall j :: 0 <= j < Samples ==> p[j] == ClampedEncoding(buf[first + j])
  {
    MuLawBuffer(buf[first..first + Samples])
  }

  /** What the loop body does with frame i before the send: scale it in place unless
      the volume is 1, then encode it. */
  function FrameStep(vol: real): Step
  {
    (buf: seq<int16>, i: nat) requires Samples * i + Samples <= |buf| =>
      var first := Samples * i;
      var scaled := if vol != 1.0 then ScaleFrame(buf, first, vol) else buf;
      (Payload(scaled, first), scaled)
  }

  lemma FrameStepSound(vol: real)
    ensures Sound(FrameStep(vol))
  {
    forall buf: seq<int16>, i: nat | Samples * i + Samples <= |buf|
      ensures FrameStep(vol).requires(buf, i)
      ensures |FrameStep(vol)(buf, i).0| == Samples && |FrameStep(vol)(buf, i).1| == |buf|
    {
      var scaled := if vol != 1.0 then ScaleFrame(buf, Samples * i, vol) else buf;
      assert FrameStep(vol)(buf, i) == (Payload(scaled, Samples * i), scaled);
    }
  }

  /** The frame loop of streamBackgroundToTwilio from frame n. */
  function Stream(buf: seq<int16>, n: nat, vol: real, loop: bool, stops: seq<bool>): (r: (seq<Frame>, Exit, seq<int16>))
    requires Fits(buf, loop)
    ensures |r.2| == |buf| && r.1 != Refused
  {
    FrameStepSound(vol);
    Run(FrameStep(vol), buf, n, loop, stops)
  }

  /** An unlooped track with no stop request sends exactly floor(bytes / 320) frames,
      frame k read at byte offset 320 k with 160 code bytes, and then reaches the end
      of the track, provided the pauses are followed that far. Frame k carries the
      samples 160 k .. 160 k + 159 of the track, each scaled once. */
  lemma UnloopedStream(buf: seq<int16>, vol: real, stops: seq<bool>)
    requires |stops| >= 2 * |buf| / FrameBytes
    requires forall k :: 0 <= k < |stops| ==> !stops[k]
    ensures var r := Stream(buf, 0, vol, false, stops);
            |r.0| == 2 * |buf| / FrameBytes && r.1 == EndOfTrack &&
            forall k :: 0 <= k < |r.0| ==> r.0[k].offset == FrameBytes * k && |r.0[k].payload| == Samples
    ensures var r := Stream(buf, 0, vol, false, stops);
            forall k, j :: 0 <= k < |r.0| && 0 <= j < Samples ==>
              Samples * k + j < |buf| && r.0[k].payload[j] == ClampedEncoding(ScaleSample(buf[Samples * k + j], vol))
  {
    FrameStepSound(vol);
    RunFollowsSchedule(FrameStep(vol), buf, 0, false, stops);
    UnloopedFrames(2 * |buf|, 0, stops);
    FrameStepScales(vol);
    UnloopedPayloadsFrom(FrameStep(vol), vol, buf, 0, stops);
  }

  /** A looped track of F whole frames (and less than a frame left over), followed for
      two laps with no stop request: frame k of the first lap and frame F + k of the
      second are both read at byte offset 320 k; the first carries frame k scaled once,
      the second the same samples scaled twice, because the volume stage wrote the
      scaled samples back into the loaded buffer. */
  lemma LoopedLaps(buf: seq<int16>, vol: real, stops: seq<bool>, F: nat)
    requires F >= 1 && Samples * F <= |buf| < Samples * F + Samples
    requires |stops| >= 2 * F - 1 && forall k :: 0 <= k < |stops| ==> !stops[k]
    ensures |Stream(buf, 0, vol, true, stops).0| == |stops| + 1
    ensures var r := Stream(buf, 0, vol, true, stops);
            forall k, j :: 0 <= k < F && 0 <= j < Samples ==>
              Samples * k + j < |buf| && r.0[k].offset == FrameBytes * k && |r.0[k].payload| == Samples &&
              r.0[k].payload[j] == ClampedEncoding(ScaleSample(buf[Samples * k + j], vol))
    ensures var r := Stream(buf, 0, vol, true, stops);
            forall m, j :: F <= m < 2 * F && 0 <= j < Samples ==>
              Samples * (m - F) + j < |buf| && r.0[m].offset == FrameBytes * (m - F) && |r.0[m].payload| == Samples &&
              r.0[m].payload[j] == ClampedEncoding(ScaleSample(ScaleSample(buf[Samples * (m - F) + j], vol), vol))
  {
    FrameStepSound(vol);
    FrameStepScales(vol);
    var r := Stream(buf, 0, vol, true, stops);
    assert Lapped(buf, buf, vol, F, 0, 0);
    LapFrames(FrameStep(vol), buf, buf, vol, F, 0, 0, 0, stops);
    forall k | 0 <= k < F
      ensures Samples * k + Samples <= |buf| && r.0[k].offset == FrameBytes * k && |r.0[k].payload| == Samples
      ensures forall j :: 0 <= j < Samples ==> r.0[k].payload[j] == ClampedEncoding(ScaleSample(buf[Samples * k + j], vol))
    {
      assert FrameOk(r.0[k], buf, vol, F, 0 + k);
      FirstLap(r.0[k], buf, vol, F, k);
    }
    forall m | F <= m < 2 * F
      ensures Samples * (m - F) + Samples <= |buf| && r.0[m].offset == FrameBytes * (m - F) && |r.0[m].payload| == Samples
      ensures forall j :: 0 <= j < Samples ==>
        r.0[m].payload[j] == ClampedEncoding(ScaleSample(ScaleSample(buf[Samples * (m - F) + j], vol), vol))
    {
      assert FrameOk(r.0[m], buf, vol, F, 0 + m);
      SecondLap(r.0[m], buf, vol, F, m);
    }
  }

  /** Frame p of the first lap, spelt out. */
  lemma FirstLap(f: Frame, orig: seq<int16>, vol: real, F: nat, p: nat)
    requires p < F && FrameOk(f, orig, vol, F, p)
    ensures Samples * p + Samples <= |orig| && f.offset == FrameBytes * p && |f.payload| == Samples
    ensures forall j :: 0 <= j < Samples ==> f.payload[j] == ClampedEncoding(ScaleSample(orig[Samples * p + j], vol))
  {
    forall j | 0 <= j < Samples
      ensures f.payload[j] == ClampedEncoding(ScaleSample(orig[Samples * p + j], vol))
    {
      assert Scaled(orig[Samples * p + j], vol, 1) == ScaleSample(orig[Samples * p + j], vol);
    }
  }

  /** Frame p of the second lap, spelt out. */
  lemma SecondLap(f: Frame, orig: seq<int16>, vol: real, F: nat, p: nat)
    requires F <= p && FrameOk(f, orig, vol, F, p)
    ensures Samples * (p - F) + Samples <= |orig| && f.offset == FrameBytes * (p - F) && |f.payload| == Samples
    ensures forall j :: 0 <= j < Samples ==>
      f.payload[j] == ClampedEncoding(ScaleSample(ScaleSample(orig[Samples * (p - F) + j], vol), vol))
  {
    forall j | 0 <= j < Samples
      ensures f.payload[j] == ClampedEncoding(ScaleSample(ScaleSample(orig[Samples * (p - F) + j], vol), vol))
    {
      var x := orig[Samples * (p - F) + j];
      assert Scaled(x, vol, 2) == ScaleSample(Scaled(x, vol, 1), vol) == ScaleSample(ScaleSample(x, vol), vol);
    }
  }

  /** What one pass of the loop body does at frame i of `buf`: the frame's samples
      scaled once, every other sample left alone, and the payload encoding the scaled
      frame. */
  ghost predicate ScalesFrame(y: (seq<byte>, seq<int16>), buf: seq<int16>, i: nat, vol: real)
  {
    |y.0| == Samples && |y.1| == |buf| &&
    (forall idx :: Samples * i <= idx < Samples * i + Samples && idx < |buf| ==> y.1[idx] == ScaleSample(buf[idx], vol)) &&
    (forall j :: 0 <= j < Samples && Samples * i + j < |y.1| ==> y.0[j] == ClampedEncoding(y.1[Samples * i + j])) &&
    forall idx :: 0 <= idx < |buf| && !(Samples * i <= idx < Samples * i + Samples) ==> y.1[idx] == buf[idx]
  }

  /** The step does at frame i of `buf` what the loop body does. */
  ghost predicate StepOk(step: Step, vol: real, buf: seq<int16>, i: nat)
  {
    Samples * i + Samples <= |buf| ==> step.requires(buf, i) && ScalesFrame(step(buf, i), buf, i, vol)
  }

  /** A step that does to every frame what the loop body does. */
  ghost predicate ScalingStep(step: Step, vol: real)
  {
    forall buf: seq<int16>, i: nat :: StepOk(step, vol, buf, i)
  }

  /** Both volume branches of the loop body scale the frame once: at volume 1 skipping
      the stage is the same as running it. */
  lemma FrameStepScales(vol: real)
    ensures ScalingStep(FrameStep(vol), vol)
  {
    forall buf: seq<int16>, i: nat
      ensures StepOk(FrameStep(vol), vol, buf, i)
    {
      if Samples * i + Samples <= |buf| {
        var scaled := if vol != 1.0 then ScaleFrame(buf, Samples * i, vol) else buf;
        assert FrameStep(vol)(buf, i) == (Payload(scaled, Samples * i), scaled);
        if vol == 1.0 {
          forall idx | Samples * i <= idx < Samples * i + Samples
            ensures buf[idx] == ScaleSample(buf[idx], vol)
          {
            UnitVolume(buf[idx]);
          }
        }
      }
    }
  }

  /** Frame k of `frames` carries the encoding of the samples of frame n + k of `buf`,
      each scaled once. */
  ghost predicate ScaledOnce(frames: seq<Frame>, buf: seq<int16>, n: nat, vol: real)
  {
    (forall k :: 0 <= k < |frames| ==> |frames[k].payload| == Samples && Samples * (n + k) + Samples <= |buf|) &&
    forall k, j {:trigger frames[k].payload[j]} :: 0 <= k < |frames| && 0 <= j < Samples ==>
      frames[k].payload[j] == ClampedEncoding(ScaleSample(buf[Samples * (n + k) + j], vol))
  }

  /** The bookkeeping of one unlooped pass, on values alone: the frame just sent
      carries frame n scaled once, and the buffer the rest reads agrees with `buf`
      from frame n + 1 on. */
  lemma ScaledOnceCons(f: Frame, rest: seq<Frame>, buf: seq<int16>, next: seq<int16>, n: nat, vol: real)
    requires Samples * n + Samples <= |buf| && |next| == |buf| && |f.payload| == Samples
    requires forall j :: 0 <= j < Samples ==> f.payload[j] == ClampedEncoding(ScaleSample(buf[Samples * n + j], vol))
    requires forall idx :: Samples * n + Samples <= idx < |buf| ==> next[idx] == buf[idx]
    requires ScaledOnce(rest, next, n + 1, vol)
    ensures ScaledOnce([f] + rest, buf, n, vol)
  {
    var all := [f] + rest;
    forall k | 0 <= k < |all|
      ensures |all[k].payload| == Samples && Samples * (n + k) + Samples <= |buf|
    {
      if k > 0 {
        assert all[k] == rest[k - 1] && n + 1 + (k - 1) == n + k;
      }
    }
    forall k, j | 0 <= k < |all| && 0 <= j < Samples
      ensures all[k].payload[j] == ClampedEncoding(ScaleSample(buf[Samples * (n + k) + j], vol))
    {
      if k > 0 {
        assert all[k] == rest[k - 1];
        assert rest[k - 1].payload[j] == ClampedEncoding(ScaleSample(next[Samples * (n + 1 + (k - 1)) + j], vol));
        assert Samples * (n + 1 + (k - 1)) + j == Samples * (n + k) + j;
      } else {
        assert all[0] == f;
      }
    }
  }

  /** An unlooped pass from frame n: frame k carries the encoding of the samples
      160 (n + k) .. 160 (n + k) + 159 of `buf`, each scaled once. */
  lemma {:induction false} UnloopedPayloadsFrom(step: Step, vol: real, buf: seq<int16>, n: nat, stops: seq<bool>)
    requires Sound(step) && ScalingStep(step, vol)
    ensures ScaledOnce(Run(step, buf, n, false, stops).0, buf, n, vol)
    decreases |stops|
  {
    if Samples * n + Samples <= |buf| {
      var y := step(buf, n);
      var f := Frame(FrameBytes * n, y.0);
      RunNext(step, buf, n, false, stops, n);
      assert StepOk(step, vol, buf, n);
      forall j | 0 <= j < Samples
        ensures f.payload[j] == ClampedEncoding(ScaleSample(buf[Samples * n + j], vol))
      {
        assert y.1[Samples * n + j] == ScaleSample(buf[Samples * n + j], vol);
      }
      if stops != [] && !stops[0] {
        UnloopedPayloadsFrom(step, vol, y.1, n + 1, stops[1..]);
        ScaledOnceCons(f, Run(step, y.1, n + 1, false, stops[1..]).0, buf, y.1, n, vol);
      } else {
        ScaledOnceCons(f, [], buf, y.1, n, vol);
        assert [f] + [] == [f];
      }
    } else {
      assert FrameAt(2 * |buf|, n, false) == None;
    }
  }

  /** A sample after t passes of the volume stage. */
  function Scaled(x: int16, vol: real, t: nat): int16
  {
    if t == 0 then x else ScaleSample(Scaled(x, vol, t - 1), vol)
  }

  /** The buffer of a looped track of F whole frames with the cursor at frame n of lap
      t: the frames before n scaled t + 1 times, the others t times. */
  ghost predicate Lapped(cur: seq<int16>, orig: seq<int16>, vol: real, F: nat, n: nat, t: nat)
  {
    |cur| == |orig| && Samples * F <= |orig| && n <= F &&
    (forall idx :: 0 <= idx < Samples * n ==> cur[idx] == Scaled(orig[idx], vol, t + 1)) &&
    (forall idx :: Samples * n <= idx < Samples * F ==> cur[idx] == Scaled(orig[idx], vol, t))
  }

  /** f is frame p of a run over a looped track of F whole frames: on the first lap it
      is read at 320 p and carries frame p scaled once, on the second lap it is read at
      320 (p - F) and carries frame p - F scaled twice. */
  ghost predicate FrameOk(f: Frame, orig: seq<int16>, vol: real, F: nat, p: nat)
  {
    var at := if p < F then p else p - F;
    Samples * at + Samples <= |orig| && |f.payload| == Samples && f.offset == FrameBytes * at &&
    forall j :: 0 <= j < Samples ==>
      f.payload[j] == ClampedEncoding(Scaled(orig[Samples * at + j], vol, if p < F then 1 else 2))
  }

  /** A frame read at frame `at` of the track and carrying it scaled `times` times is
      frame p of the run when p names that frame and that lap. */
  lemma FrameOkAt(f: Frame, orig: seq<int16>, vol: real, F: nat, p: nat, at: nat, times: nat)
    requires at == (if p < F then p else p - F) && times == (if p < F then 1 else 2)
    requires Samples * at + Samples <= |orig| && |f.payload| == Samples && f.offset == FrameBytes * at
    requires forall j :: 0 <= j < Samples ==> f.payload[j] == ClampedEncoding(Scaled(orig[Samples * at + j], vol, times))
    ensures FrameOk(f, orig, vol, F, p)
  {
  }

  /** Frame m of `frames` is frame g + m of the run, for the first two laps. */
  ghost predicate LapsFrom(frames: seq<Frame>, orig: seq<int16>, vol: real, F: nat, g: nat)
  {
    forall m :: 0 <= m < |frames| && g + m < 2 * F ==> FrameOk(frames[m], orig, vol, F, g + m)
  }

  /** The bookkeeping of one looped pass, on values alone. */
  lemma LapsCons(f: Frame, rest: seq<Frame>, orig: seq<int16>, vol: real, F: nat, g: nat)
    requires g < 2 * F ==> FrameOk(f, orig, vol, F, g)
    requires LapsFrom(rest, orig, vol, F, g + 1)
    ensures LapsFrom([f] + rest, orig, vol, F, g)
  {
    var all := [f] + rest;
    forall m | 0 <= m < |all| && g + m < 2 * F
      ensures FrameOk(all[m], orig, vol, F, g + m)
    {
      if m > 0 {
        assert all[m] == rest[m - 1] && g + 1 + (m - 1) == g + m;
      }
    }
  }

  /** At the end of a lap every frame has been scaled once more: the next lap starts
      at frame 0. */
  lemma LappedWrap(cur: seq<int16>, orig: seq<int16>, vol: real, F: nat, t: nat)
    requires Lapped(cur, orig, vol, F, F, t)
    ensures Lapped(cur, orig, vol, F, 0, t + 1)
  {
  }

  /** Nothing is claimed beyond the second lap. */
  lemma LapsPast(frames: seq<Frame>, orig: seq<int16>, vol: real, F: nat, g: nat)
    requires g >= 2 * F
    ensures LapsFrom(frames, orig, vol, F, g)
  {
  }

  /** The buffer after one looped pass at frame i of lap `lap`. */
  lemma LappedStep(cur: seq<int16>, next: seq<int16>, orig: seq<int16>, vol: real, F: nat, i: nat, lap: nat)
    requires i < F && Lapped(cur, orig, vol, F, i, lap) && |next| == |cur|
    requires forall idx :: Samples * i <= idx < Samples * i + Samples && idx < |cur| ==> next[idx] == ScaleSample(cur[idx], vol)
    requires forall idx :: 0 <= idx < |cur| && !(Samples * i <= idx < Samples * i + Samples) ==> next[idx] == cur[idx]
    ensures Lapped(next, orig, vol, F, i + 1, lap)
  {
  }

  /** A looped track of F whole frames, followed with no stop request, with the cursor
      at frame n of lap t (0 the first, 1 the second) and g = t F + n frames sent so
      far: the run from here is frames g, g + 1, ... of the whole run, as LapsFrom
      says, one frame per pause and one more. */
  lemma {:induction false} LapFrames(step: Step, orig: seq<int16>, cur: seq<int16>, vol: real, F: nat, n: nat, t: nat, g: nat, stops: seq<bool>)
    requires Sound(step) && ScalingStep(step, vol)
    requires F >= 1 && |orig| < Samples * F + Samples && t <= 1 && g == (if t == 0 then 0 else F) + n
    requires Lapped(cur, orig, vol, F, n, t)
    requires forall k :: 0 <= k < |stops| ==> !stops[k]
    ensures |Run(step, cur, n, true, stops).0| == |stops| + 1
    ensures LapsFrom(Run(step, cur, n, true, stops).0, orig, vol, F, g)
    decreases |stops|, if n == F then 1 else 0
  {
    if n == F {
      if t == 0 {
        LappedWrap(cur, orig, vol, F, t);
        LapFrames(step, orig, cur, vol, F, 0, 1, g, stops);
        RunWrap(step, cur, F, stops);
      } else {
        LapCount(step, cur, n, stops);
        LapsPast(Run(step, cur, n, true, stops).0, orig, vol, F, g);
      }
    } else {
      LapHead(step, orig, cur, vol, F, n, t, g);
      if stops != [] {
        LapFrames(step, orig, step(cur, n).1, vol, F, n + 1, t, g + 1, stops[1..]);
      }
      LapLink(step, orig, cur, vol, F, n, g, stops);
    }
  }

  /** At the end of a lap the cursor reads frame 0 again, as a run from frame 0 does. */
  lemma RunWrap(step: Step, buf: seq<int16>, F: nat, stops: seq<bool>)
    requires Sound(step) && F >= 1 && Samples * F <= |buf| < Samples * F + Samples
    ensures Run(step, buf, F, true, stops) == Run(step, buf, 0, true, stops)
  {
    assert FrameAt(2 * |buf|, F, true) == Some(0) == FrameAt(2 * |buf|, 0, true);
  }

  /** One looped pass inside a lap, linked to the rest of the run: the frame sent here
      and the run from the next frame make up the run from here. */
  lemma LapLink(step: Step, orig: seq<int16>, cur: seq<int16>, vol: real, F: nat, n: nat, g: nat, stops: seq<bool>)
    requires Sound(step) && Samples * F <= |cur| && n < F
    requires forall k :: 0 <= k < |stops| ==> !stops[k]
    requires g < 2 * F ==> FrameOk(Frame(FrameBytes * n, step(cur, n).0), orig, vol, F, g)
    requires stops != [] ==>
      |Run(step, step(cur, n).1, n + 1, true, stops[1..]).0| == |stops| &&
      LapsFrom(Run(step, step(cur, n).1, n + 1, true, stops[1..]).0, orig, vol, F, g + 1)
    ensures |Run(step, cur, n, true, stops).0| == |stops| + 1
    ensures LapsFrom(Run(step, cur, n, true, stops).0, orig, vol, F, g)
  {
    assert FrameAt(2 * |cur|, n, true) == Some(n);
    var f := Frame(FrameBytes * n, step(cur, n).0);
    RunNext(step, cur, n, true, stops, n);
    var rest := if stops != [] then Run(step, step(cur, n).1, n + 1, true, stops[1..]).0 else [];
    if stops != [] {
      assert !stops[0];
    } else {
      assert LapsFrom(rest, orig, vol, F, g + 1);
    }
    assert Run(step, cur, n, true, stops).0 == [f] + rest;
    if g < 2 * F {
      LapsCons(f, rest, orig, vol, F, g);
    } else {
      LapsPast([f] + rest, orig, vol, F, g);
    }
  }

  /** The frame sent at frame i of lap `lap` carries that frame scaled lap + 1 times,
      and leaves the buffer lapped up to frame i + 1. */
  lemma LapHead(step: Step, orig: seq<int16>, cur: seq<int16>, vol: real, F: nat, i: nat, lap: nat, g: nat)
    requires Sound(step) && ScalingStep(step, vol)
    requires i < F && lap <= 1 && g == (if lap == 0 then 0 else F) + i
    requires Lapped(cur, orig, vol, F, i, lap)
    ensures FrameOk(Frame(FrameBytes * i, step(cur, i).0), orig, vol, F, g)
    ensures Lapped(step(cur, i).1, orig, vol, F, i + 1, lap)
  {
    var y := step(cur, i);
    assert StepOk(step, vol, cur, i);
    forall j | 0 <= j < Samples
      ensures y.0[j] == ClampedEncoding(Scaled(orig[Samples * i + j], vol, lap + 1))
    {
      assert cur[Samples * i + j] == Scaled(orig[Samples * i + j], vol, lap);
      assert y.1[Samples * i + j] == ScaleSample(cur[Samples * i + j], vol);
    }
    FrameOkAt(Frame(FrameBytes * i, y.0), orig, vol, F, g, i, lap + 1);
    LappedStep(cur, y.1, orig, vol, F, i, lap);
  }

  /** A looped pass with no stop request sends one frame per pause and one more. */
  lemma {:induction false} LapCount(step: Step, buf: seq<int16>, n: nat, stops: seq<bool>)
    requires Sound(step) && Samples <= |buf|
    requires forall k :: 0 <= k < |stops| ==> !stops[k]
    ensures |Run(step, buf, n, true, stops).0| == |stops| + 1
    decreases |stops|
  {
    var i := if FrameBytes * n + FrameBytes > 2 * |buf| then 0 else n;
    RunNext(step, buf, n, true, stops, i);
    if stops != [] {
      LapCount(step, step(buf, i).1, i + 1, stops[1..]);
    }
  }

  /** A looped track: each frame is read where the previous one ended unless a whole
      frame no longer fits there, and then at offset 0; with the first stop requested
      in the k-th pause, exactly k + 1 frames are sent and the loop ends cancelled. */
  lemma LoopedStream(buf: seq<int16>, vol: real, stops: seq<bool>, k: nat)
    requires Samples <= |buf|
    requires k < |stops| && stops[k] && forall i :: 0 <= i < k ==> !stops[i]
    ensures var r := Stream(buf, 0, vol, true, stops);
            |r.0| == k + 1 && r.1 == Cancelled && r.0[0].offset == 0 &&
            forall j :: 0 <= j < k ==>
              r.0[j + 1].offset == (if r.0[j].offset + 2 * FrameBytes > 2 * |buf| then 0 else r.0[j].offset + FrameBytes)
  {
    FrameStepSound(vol);
    RunFollowsSchedule(FrameStep(vol), buf, 0, true, stops);
    LoopedOffsets(2 * |buf|, 0, stops);
    LoopedStop(2 * |buf|, 0, stops, k);
  }

  /** The volume stage writes back into the loaded buffer: on a looped one-frame track,
      the second frame carries every sample scaled twice. */
  lemma SecondLapScaledTwice(buf: seq<int16>, vol: real)
    requires |buf| == Samples && vol != 1.0
    ensures var r := Stream(buf, 0, vol, true, [false, true]);
            |r.0| == 2 && r.1 == Cancelled &&
            forall k :: 0 <= k < Samples ==>
              r.0[1].payload[k] == ClampedEncoding(ScaleSample(ScaleSample(buf[k], vol), vol))
  {
    var once := ScaleFrame(buf, 0, vol);
    var twice := ScaleFrame(once, 0, vol);
    assert [false, true][1..] == [true];
    var r := Stream(buf, 0, vol, true, [false, true]);
    assert Stream(once, 1, vol, true, [true]) == ([Frame(0, Payload(twice, 0))], Cancelled, twice);
    assert r.0 == [Frame(0, Payload(once, 0)), Frame(0, Payload(twice, 0))];
    assert twice[0..Samples] == twice;
  }

  /** The volume stage on the sample at `i`: scale, clip to the int16 range, store. */
  method ScaleAt(pcmBuf: array<int16>, i: nat, volumeFactor: real)
    requires i < pcmBuf.Length
    modifies pcmBuf
    ensures pcmBuf[i] == ScaleSample(old(pcmBuf[i]), volumeFactor)
    ensures forall j :: 0 <= j < pcmBuf.Length && j != i ==> pcmBuf[j] == old(pcmBuf[j])
  {
    var v := pcmBuf[i] as real * volumeFactor;
    if v > 32767.0 {
      v := 32767.0;
    }
    if v < -32768.0 {
      v := -32768.0;
    }
    pcmBuf[i] := ToInt16(v);
  }

  /** The volume stage of one frame, in place over the samples from `first`. */
  method ScaleInPlace(pcmBuf: array<int16>, first: nat, volumeFactor: real)
    requires first + Samples <= pcmBuf.Length
    modifies pcmBuf
    ensures pcmBuf[..] == ScaleFrame(old(pcmBuf[..]), first, volumeFactor)
  {
    ghost var before := pcmBuf[..];
    var i := 0;
    while i < Samples
      invariant 0 <= i <= Samples
      invariant forall j :: 0 <= j < pcmBuf.Length ==>
        pcmBuf[j] == if first <= j < first + i then ScaleSample(before[j], volumeFactor) else before[j]
    {
      ScaleAt(pcmBuf, first + i, volumeFactor);
      i := i + 1;
    }
    assert pcmBuf[..] == ScaleFrame(before, first, volumeFactor);
  }

  /** One pass of the loop body up to the send, with the cursor at byte offset
      `offset`, frame n: pick the frame, scale it if the volume is not 1, and encode
      it. None when an unlooped track has run out. */
  method NextFrame(pcmBuf: array<int16>, offset: nat, volumeFactor: real, loop: bool, ghost n: nat) returns (frame: Option<Frame>)
    requires offset == FrameBytes * n && Fits(pcmBuf[..], loop)
    modifies pcmBuf
    ensures match FrameAt(2 * pcmBuf.Length, n, loop)
      case None => frame == None && pcmBuf[..] == old(pcmBuf[..])
      case Some(i) =>
        var scaled := if volumeFactor != 1.0 then ScaleFrame(old(pcmBuf[..]), Samples * i, volumeFactor) else old(pcmBuf[..]);
        frame == Some(Frame(FrameBytes * i, Payload(scaled, Samples * i))) && pcmBuf[..] == scaled
  {
    var at := offset;
    ghost var i := n;
    if at + FrameBytes > 2 * pcmBuf.Length {
      if loop {
        at := 0;
        i := 0;
      } else {
        return None;
      }
    }
    DivModUnique(at, 2, Samples * i, 0);
    var first := at / 2;
    if volumeFactor != 1.0 {
      ScaleInPlace(pcmBuf, first, volumeFactor);
    }
    var payload := EncodeMuLawBuffer(pcmBuf[first..first + Samples]);
    assert pcmBuf[first..first + Samples] == pcmBuf[..][first..first + Samples];
    frame := Some(Frame(at, payload));
  }

  /** One pass of the frame loop, from the frame pick to the pause after the send, in
      which another handler calls stop() when `rest[0]` says so: the frame it sends,
      the frame index it was read at, and how it leaves the rest of the loop, in terms
      of Stream. */
  method SendFrame(ctl: Controller, pcmBuf: array<int16>, offset: nat, volumeFactor: real, loop: bool, rest: seq<bool>, ghost n: nat)
    returns (next: Option<Frame>, ghost i: nat)
    requires offset == FrameBytes * n && Fits(pcmBuf[..], loop) && ctl.Active()
    modifies ctl, pcmBuf
    ensures ctl.running
    ensures var r := Stream(old(pcmBuf[..]), n, volumeFactor, loop, rest);
      match next
      case None => r == ([], EndOfTrack, pcmBuf[..]) && !ctl.cancel
      case Some(f) =>
        f.offset == FrameBytes * i &&
        if rest == [] then r == ([f], Unobserved, pcmBuf[..]) && !ctl.cancel
        else if rest[0] then r == ([f], Cancelled, pcmBuf[..]) && ctl.cancel
        else
          var tail := Stream(pcmBuf[..], i + 1, volumeFactor, loop, rest[1..]);
          r == ([f] + tail.0, tail.1, tail.2) && !ctl.cancel
  {
    next := NextFrame(pcmBuf, offset, volumeFactor, loop, n);
    i := if FrameBytes * n + FrameBytes > 2 * pcmBuf.Length then 0 else n;
    // The 10 ms pause: another handler may call stop() here.
    if next.Some? && rest != [] && rest[0] {
      ctl.Stop();
    }
  }

  /** The whole run `spec` is the frames `done` already sent followed by the run `r`
      still to come. */
  predicate Pending(spec: (seq<Frame>, Exit, seq<int16>), done: seq<Frame>, r: (seq<Frame>, Exit, seq<int16>))
  {
    spec.0 == done + r.0 && spec.1 == r.1 && spec.2 == r.2
  }

  /** The bookkeeping of one pass of the loop: a frame moves from what is left to
      send to what has been sent, on values alone. */
  lemma Shift(spec: (seq<Frame>, Exit, seq<int16>), done: seq<Frame>, f: Frame,
              r: (seq<Frame>, Exit, seq<int16>), tail: (seq<Frame>, Exit, seq<int16>))
    requires r == ([f] + tail.0, tail.1, tail.2) && Pending(spec, done, r)
    ensures Pending(spec, done + [f], tail)
  {
    assert done + ([f] + tail.0) == (done + [f]) + tail.0;
  }

  /** streamBackgroundToTwilio over the loaded track `pcmBuf`, following the loop over
      the pauses of `stops`. Refused, it touches nothing; otherwise it sends what
      Stream says, from offset 0, and leaves the controller stopped, or still active
      when the model stops following it. */
  method StreamBackground(ctl: Controller, conn: Option<Connection>, pcmBuf: array<int16>, volumeFactor: real, loop: bool, stops: seq<bool>)
    returns (frames: seq<Frame>, exit: Exit)
    requires Fits(pcmBuf[..], loop)
    modifies ctl, pcmBuf
    ensures !Usable(conn) ==>
      frames == [] && exit == Refused && ctl.running == old(ctl.running) && ctl.cancel == old(ctl.cancel) && pcmBuf[..] == old(pcmBuf[..])
    ensures Usable(conn) ==> (frames, exit, pcmBuf[..]) == Stream(old(pcmBuf[..]), 0, volumeFactor, loop, stops)
    ensures Usable(conn) && exit == Unobserved ==> ctl.Active()
    ensures Usable(conn) && exit != Unobserved ==> !ctl.running && (ctl.cancel <==> exit == Cancelled)
  {
    if !Usable(conn) {
      return [], Refused;
    }
    ctl.Start();
    frames, exit := RunFrames(ctl, pcmBuf, volumeFactor, loop, stops);
  }

  /** The `while` loop of streamBackgroundToTwilio and the store to `running` after it. */
  method RunFrames(ctl: Controller, pcmBuf: array<int16>, volumeFactor: real, loop: bool, stops: seq<bool>)
    returns (frames: seq<Frame>, exit: Exit)
    requires Fits(pcmBuf[..], loop) && ctl.Active()
    modifies ctl, pcmBuf
    ensures (frames, exit, pcmBuf[..]) == Stream(old(pcmBuf[..]), 0, volumeFactor, loop, stops)
    ensures exit == Unobserved ==> ctl.Active()
    ensures exit != Unobserved ==> !ctl.running && (ctl.cancel <==> exit == Cancelled)
  {
    ghost var spec := Stream(pcmBuf[..], 0, volumeFactor, loop, stops);
    var offset: nat := 0;
    ghost var n: nat := 0;
    var k := 0;
    assert stops[0..] == stops;
    frames := [];
    exit := EndOfTrack;
    while ctl.running && !ctl.cancel
      invariant 0 <= k <= |stops| && offset == FrameBytes * n && Fits(pcmBuf[..], loop)
      invariant ctl.running && exit == EndOfTrack
      invariant !ctl.cancel ==> Pending(spec, frames, Stream(pcmBuf[..], n, volumeFactor, loop, stops[k..]))
      invariant ctl.cancel ==> spec == (frames, Cancelled, pcmBuf[..])
      decreases |stops| - k
    {
      ghost var old_frames := frames;
      ghost var old_buf := pcmBuf[..];
      var next;
      ghost var i;
      next, i := SendFrame(ctl, pcmBuf, offset, volumeFactor, loop, stops[k..], n);
      if next == None {
        assert old_frames + [] == frames;
        break;
      }
      var frame := next.value;
      ghost var here := Stream(old_buf, n, volumeFactor, loop, stops[k..]);
      frames := frames + [frame];
      offset := frame.offset + FrameBytes;
      n := i + 1;
      if k == |stops| {
        return frames, Unobserved;
      }
      assert stops[k..][1..] == stops[k + 1..];
      if !ctl.cancel {
        ghost var tail := Stream(pcmBuf[..], n, volumeFactor, loop, stops[k + 1..]);
        Shift(spec, old_frames, frame, here, tail);
      }
      k := k + 1;
    }
    if ctl.cancel {
      exit := Cancelled;
    }
    ctl.running := false;
  }
}
