/** The frame loop of the background streamer, apart from what it does to the audio:
    where each frame is read, when the loop wraps, ends or is cancelled. The work on
    one frame (the volume stage and the encoding) is a parameter, so that the
    properties of the schedule are proved once, for any such step. */
module FrameLoop {
  import opened Pcm
  import opened Wrappers

  /** One frame is 20 ms of 8 kHz audio: 160 samples, 320 bytes. */
  const Samples: nat := 160
  const FrameBytes: nat := 320

  /** One frame sent: the byte offset it was read from (the one logged with it) and
      its mu-law payload. */
  datatype Frame = Frame(offset: nat, payload: seq<byte>)

  /** How a call of streamBackgroundToTwilio ends: refused for a missing connection,
      at the end of an unlooped track, after a stop request, or still running when
      the model stops following it. */
  datatype Exit = Refused | EndOfTrack | Cancelled | Unobserved

  /** The work on the frame at index i of the loaded buffer: its payload and the
      buffer the loop goes on with. */
  type Step = (seq<int16>, nat) --> (seq<byte>, seq<int16>)

  /** A step is defined on every frame that lies in the buffer, yields a payload of
      one code byte per sample and keeps the buffer's length. */
  ghost predicate Sound(step: Step)
  {
    forall buf: seq<int16>, i: nat :: Samples * i + Samples <= |buf| ==>
      step.requires(buf, i) && |step(buf, i).0| == Samples && |step(buf, i).1| == |buf|
  }

  /** Where the next frame is read when the cursor stands at frame n, byte offset
      320 n, of a track of `len` bytes: there while a whole frame fits, else back at
      frame 0 for a looped track; None when an unlooped track has run out. */
  function FrameAt(len: nat, n: nat, loop: bool): (r: Option<nat>)
    ensures r.None? <==> !loop && FrameBytes * n + FrameBytes > len
    ensures r.Some? ==> r.value == n || r.value == 0
    ensures r.Some? && (loop ==> len >= FrameBytes) ==> FrameBytes * r.value + FrameBytes <= len
  {
    if FrameBytes * n + FrameBytes > len then (if loop then Some(0) else None) else Some(n)
  }

  /** A looped track must hold one whole frame, which is read again on every lap. */
  predicate Fits(buf: seq<int16>, loop: bool)
  {
    loop ==> Samples <= |buf|
  }

  /** The frame loop from frame n over the loaded buffer `buf`: the frames sent, how
      the loop ends, and the buffer left behind. `stops[k]` says whether some other
      handler calls stop() during the pause after the k-th frame from here; the loop
      is followed over |stops| pauses. */
  function Run(step: Step, buf: seq<int16>, n: nat, loop: bool, stops: seq<bool>): (r: (seq<Frame>, Exit, seq<int16>))
    requires Sound(step) && Fits(buf, loop)
    ensures |r.2| == |buf| && r.1 != Refused
    decreases |stops|
  {
    match FrameAt(2 * |buf|, n, loop)
    case None => ([], EndOfTrack, buf)
    case Some(i) =>
      var y := step(buf, i);
      var frame := Frame(FrameBytes * i, y.0);
      if stops == [] then ([frame], Unobserved, y.1)
      else if stops[0] then ([frame], Cancelled, y.1)
      else
        var rest := Run(step, y.1, i + 1, loop, stops[1..]);
        ([frame] + rest.0, rest.1, rest.2)
  }

  /** One pass of the loop, unfolded: the frame read at i comes first, and the rest
      of the run goes on from frame i + 1 over the buffer the step left behind. */
  lemma RunNext(step: Step, buf: seq<int16>, n: nat, loop: bool, stops: seq<bool>, i: nat)
    requires Sound(step) && Fits(buf, loop) && FrameAt(2 * |buf|, n, loop) == Some(i)
    ensures Samples * i + Samples <= |buf|
    ensures var y := step(buf, i);
            Run(step, buf, n, loop, stops).0 ==
              [Frame(FrameBytes * i, y.0)] +
              (if stops != [] && !stops[0] then Run(step, y.1, i + 1, loop, stops[1..]).0 else [])
  {
    var y := step(buf, i);
    if stops == [] || stops[0] {
      assert [Frame(FrameBytes * i, y.0)] + [] == [Frame(FrameBytes * i, y.0)];
    }
  }

  /** The byte offsets the frame loop reads its frames from, and how it ends: the
      part of Stream that does not depend on the audio. */
  function Schedule(len: nat, n: nat, loop: bool, stops: seq<bool>): (r: (seq<nat>, Exit))
    ensures |r.0| <= |stops| + 1 && r.1 != Refused
    ensures r.1 == Unobserved <==> |r.0| == |stops| + 1
    ensures r.1 == EndOfTrack ==> !loop
    decreases |stops|
  {
    match FrameAt(len, n, loop)
    case None => ([], EndOfTrack)
    case Some(i) =>
      if stops == [] then ([FrameBytes * i], Unobserved)
      else if stops[0] then ([FrameBytes * i], Cancelled)
      else
        var rest := Schedule(len, i + 1, loop, stops[1..]);
        ([FrameBytes * i] + rest.0, rest.1)
  }

  /** Frame k was read at offsets[k] and carries 160 code bytes. */
  predicate Follows(frames: seq<Frame>, offsets: seq<nat>)
  {
    |frames| == |offsets| &&
    forall k :: 0 <= k < |frames| ==> frames[k].offset == offsets[k] && |frames[k].payload| == Samples
  }

  lemma FollowsCons(f: Frame, frames: seq<Frame>, offsets: seq<nat>)
    requires |f.payload| == Samples && Follows(frames, offsets)
    ensures Follows([f] + frames, [f.offset] + offsets)
  {
  }

  /** The frames of a pass are read at the offsets of Schedule, each carries 160
      code bytes, and the pass ends as Schedule says, whatever the step does to the
      audio. */
  lemma {:induction false} RunFollowsSchedule(step: Step, buf: seq<int16>, n: nat, loop: bool, stops: seq<bool>)
    requires Sound(step) && Fits(buf, loop)
    ensures var r := Run(step, buf, n, loop, stops);
            var s := Schedule(2 * |buf|, n, loop, stops);
            Follows(r.0, s.0) && r.1 == s.1
    decreases |stops|
  {
    var start := FrameAt(2 * |buf|, n, loop);
    if start.Some? && stops != [] && !stops[0] {
      var i := start.value;
      var y := step(buf, i);
      var rest := Run(step, y.1, i + 1, loop, stops[1..]);
      var srest := Schedule(2 * |buf|, i + 1, loop, stops[1..]);
      assert Follows(rest.0, srest.0) && rest.1 == srest.1 by {
        RunFollowsSchedule(step, y.1, i + 1, loop, stops[1..]);
      }
      FollowsCons(Frame(FrameBytes * i, y.0), rest.0, srest.0);
      assert Run(step, buf, n, loop, stops) == ([Frame(FrameBytes * i, y.0)] + rest.0, rest.1, rest.2);
      assert Schedule(2 * |buf|, n, loop, stops) == ([FrameBytes * i] + srest.0, srest.1);
    }
  }

  /** Every frame the schedule reads is a whole frame inside the track, at a multiple
      of 320. */
  lemma {:induction false} ScheduleInTrack(len: nat, n: nat, loop: bool, stops: seq<bool>)
    requires loop ==> len >= FrameBytes
    ensures forall k :: 0 <= k < |Schedule(len, n, loop, stops).0| ==>
      var at := Schedule(len, n, loop, stops).0[k];
      at % FrameBytes == 0 && at + FrameBytes <= len
    decreases |stops|
  {
    var start := FrameAt(len, n, loop);
    if start.Some? {
      var i := start.value;
      DivModUnique(FrameBytes * i, FrameBytes, i, 0);
      if stops != [] && !stops[0] {
        ScheduleInTrack(len, i + 1, loop, stops[1..]);
        var rest := Schedule(len, i + 1, loop, stops[1..]);
        assert Schedule(len, n, loop, stops).0 == [FrameBytes * i] + rest.0;
      }
    }
  }

  /** An unlooped track with no stop request: from frame j on, it reads exactly the
      remaining floor(len / 320) - j frames, at byte offsets 320 j, 320 (j + 1), ...,
      and ends at the end of the track, provided the pauses are followed that far. */
  lemma {:induction false} UnloopedFrames(len: nat, j: nat, stops: seq<bool>)
    requires j <= len / FrameBytes
    requires |stops| >= len / FrameBytes - j
    requires forall k :: 0 <= k < |stops| ==> !stops[k]
    ensures var s := Schedule(len, j, false, stops);
            |s.0| == len / FrameBytes - j && s.1 == EndOfTrack &&
            forall k :: 0 <= k < |s.0| ==> s.0[k] == FrameBytes * (j + k)
    decreases |stops|
  {
    var n := len / FrameBytes;
    if j < n {
      assert FrameBytes * j + FrameBytes <= len by {
        assert FrameBytes * (j + 1) <= FrameBytes * n;
      }
      UnloopedFrames(len, j + 1, stops[1..]);
      var rest := Schedule(len, j + 1, false, stops[1..]);
      assert Schedule(len, j, false, stops) == ([FrameBytes * j] + rest.0, rest.1);
    } else {
      assert FrameBytes * j + FrameBytes > len by {
        assert len < FrameBytes * (n + 1);
      }
    }
  }

  /** A looped track: each frame is read where the previous one ended unless a whole
      frame no longer fits there, and then exactly at offset 0. */
  lemma {:induction false} LoopedOffsets(len: nat, n: nat, stops: seq<bool>)
    ensures var s := Schedule(len, n, true, stops).0;
            |s| > 0 &&
            s[0] == (if FrameBytes * n + FrameBytes > len then 0 else FrameBytes * n) &&
            forall k :: 0 <= k < |s| - 1 ==>
              s[k + 1] == (if s[k] + 2 * FrameBytes > len then 0 else s[k] + FrameBytes)
    decreases |stops|
  {
    var i := if FrameBytes * n + FrameBytes > len then 0 else n;
    if stops != [] && !stops[0] {
      LoopedOffsets(len, i + 1, stops[1..]);
      var rest := Schedule(len, i + 1, true, stops[1..]).0;
      var s := Schedule(len, n, true, stops).0;
      assert s == [FrameBytes * i] + rest;
      forall k | 0 <= k < |s| - 1
        ensures s[k + 1] == (if s[k] + 2 * FrameBytes > len then 0 else s[k] + FrameBytes)
      {
        if k > 0 {
          assert s[k + 1] == rest[k] && s[k] == rest[k - 1];
        }
      }
    }
  }

  /** A looped track stops only on request: with the first stop requested in the k-th
      pause it reads exactly k + 1 frames and ends cancelled. */
  lemma {:induction false} LoopedStop(len: nat, n: nat, stops: seq<bool>, k: nat)
    requires k < |stops| && stops[k] && forall i :: 0 <= i < k ==> !stops[i]
    ensures |Schedule(len, n, true, stops).0| == k + 1
    ensures Schedule(len, n, true, stops).1 == Cancelled
    decreases k
  {
    if k > 0 {
      var i := if FrameBytes * n + FrameBytes > len then 0 else n;
      LoopedStop(len, i + 1, stops[1..], k - 1);
    }
  }

}
