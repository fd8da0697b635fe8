# Voice agent with office background: the audio and call-control core

This project is a Dafny model of the sample-level core of a Twilio/ElevenLabs voice
agent that plays an office ambience under the agent's voice. It has four parts.

- **The mu-law codec** (modules `MuLaw` and `AudioCodec`). `mulawDecode` and
  `mulawEncode` of the outbound handler are covered by `MuLaw`. The copies in
  `test-outbound.js` are the same text and are covered by the same members. The
  background streamer's `muLawEncode` and `encodeMuLawBuffer` are covered by
  `AudioCodec`. Two departures from G.711 are kept as written:
  - the decoder never subtracts the 0x84 bias, so 0 comes back as 132;
  - the streamer's encoder clamps the sample but not the biased magnitude, so
    loud samples fall into segment 0.
- **The two chunk mixers** (modules `Cursor`, `Scan`, `TestMixer` and
  `OutboundMixer`). Each `mixChunk` decodes a chunk of caller-bound agent audio,
  adds a background track read at a wrapping byte cursor, and re-encodes it.
  - The outbound mixer has three more stages: a one-pole low-pass on the voice and on
    the background, a DC blocker, and a tanh soft limiter. The two low-pass memories
    and the DC blocker's estimate are kept between calls; the soft limiter has no
    state.
  - Each mixer is a class whose methods fill an `array<int16>` in place. Each method
    is proved equal to a pure pass (`Mixed`).
  - The lemmas about the passes cover the output length and the cursor positions.
    They also show that chunk boundaries do not matter, and that every filter state
    stays within bounds, so no Int16Array store ever wraps.
- **The background scheduler** (modules `FrameLoop` and `BackgroundStream`). These
  model the two-flag `BackgroundController` and the frame loop of
  `streamBackgroundToTwilio`.
  - The loop sends 160-sample frames read at byte offsets that step by 320. At the
    end of the track it either wraps to offset 0 or stops.
  - It scales each frame in place, so a looped track is re-scaled on every lap.
  - It leaves when a stop is requested. A stop request comes from other handlers,
    during the pause after a send. The sequence `stops` stands for them.
- **The agent/mark counter protocol** of the outbound media-stream handler (module
  `MediaSession`). Agent chunks count up `eleven_AUDIO_COUNT` and Twilio marks count
  up `twilio_AUDIO_COUNT`. The mark that finds the two equal resumes the background,
  or ends the call when the agent socket has closed.
  - A pure transition function gives the new state and the abstract actions for each
    message.
  - A `Session` class has one method per message and appends its actions to a log.

Arithmetic is exact: PCM samples are `int16` and bytes are `byte`, both subset types of
`int`. Floating-point stages use `real`. `Math.tanh` is a parameter of the outbound mixer.

The streamer sends floor(bytes / 320) frames of 160 samples (20 ms of audio each) per
lap, and pauses 10 ms after each send; the pause is not timed here.

A mark that arrives while the counters are idle (-1 against 0) is not ignored: it
raises the mark counter to 1, so the counters are off by one for the next utterance.
After one agent chunk no number of marks resumes the background or ends the call;
after k >= 2 chunks the (k - 1)-th mark already resumes it. The model follows the
code here (`IdleMarkDesyncs`, `IdleMarkResumesEarly`).

## Model

| member | source | states |
|---|---|---|
| Pcm.ClampInt | audioUtil.js:146-147 | An integer is saturated into the int16 range: unchanged inside it, the nearer bound outside it. |
| Pcm.ClampReal | outbound-calls.js:118-119 | The hard clamp always lands in [-32768, 32767] and leaves in-range values unchanged. |
| Pcm.Trunc | outbound-calls.js:91 | The integer part kept by an Int16Array store lies within one unit of the value, on the side of zero. |
| Pcm.Wrap16 | test-outbound.js:53 | The ToInt16 wrap is congruent to its input modulo 65536 and is the identity on the int16 range. |
| Pcm.ToInt16 | test-outbound.js:53 | Storing a value that is strictly inside (-32769, 32768) keeps its truncation toward zero. |
| Pcm.Round | outbound-calls.js:121 | Math.round gives an integer within half a unit of its argument, with halves going up. |
| Pcm.ReadInt16LE | outbound-calls.js:101 | The sample read is the little-endian byte pair, taken modulo 65536 into the signed range. |
| MuLaw.Magnitude | outbound-calls.js:20 | The rebuilt magnitude ((m << 3) + 0x84) << e lies in [132, 32256] for every field value. |
| MuLaw.Decode | outbound-calls.js:15-22 | A byte decodes to a negative sample exactly when it is below 128, and the magnitude is in [132, 32256], so never 0. |
| MuLaw.FieldsOfCode | outbound-calls.js:16-20 | Decoding a byte composed of a sign, exponent e and mantissa m gives back exponent e and magnitude ((m << 3) + 132) << e. |
| MuLaw.Segment | outbound-calls.js:37-38 | The exponent is the band of the biased magnitude w: w < 2^(e+8), and 2^(e+7) <= w when e > 0. |
| MuLaw.SegmentOfBand | outbound-calls.js:37-38 | The band pins the exponent down uniquely. |
| MuLaw.FindSegment | outbound-calls.js:37-38 | The mask loop ends at the segment of v mod 0x8000: bits 15 and up are never tested. |
| MuLaw.Mantissa | outbound-calls.js:40 | The mantissa field is a 4-bit value. |
| MuLaw.Encoding | outbound-calls.js:25-42 | The code byte has its top bit clear exactly for negative inputs. |
| MuLaw.Encode | outbound-calls.js:25-42 | The encoder with its exponent loop returns the byte that Encoding defines. |
| MuLaw.EncodeAll | outbound-calls.js:125-128 | The encode loop's output has one byte per sample, and byte i is the code of sample i. |
| MuLaw.SignRoundTrip | outbound-calls.js:15-42 | decode(encode(x)) < 0 holds exactly when x < 0, and the exponent field of the code is the segment of the clipped biased magnitude. |
| MuLaw.SegmentRoundTrip | outbound-calls.js:34-40 | Within one segment, the magnitude rebuilt from the code is within 2^(e+2) of the biased input (strictly from below). |
| MuLaw.RoundTripBound | test-outbound.js:9-34 | For abs(x) <= 32635, abs(decode(encode(x))) - (abs(x) + 132) lies in (-2^(e+2), 2^(e+2)], where e is the code's exponent; 0 decodes to 132. |
| MuLaw.ZeroCode | outbound-calls.js:20 | The silent sample makes a round trip to 132, the bias that is never removed. |
| MuLaw.Saturation | outbound-calls.js:34-35 | Past the clip point, every input encodes to the top code of its sign class, with exponent 7 and magnitude 32256. |
| MuLaw.EncodeSamples | outbound-calls.js:125-128 | The encode loop writes, in order, the code of each sample of the Int16Array. |
| MuLaw.EncodeAllSplit | test-outbound.js:73-76 | Encoding a concatenation of sample runs is the concatenation of their encodings. |
| AudioCodec.ClampedEncoding | audioUtil.js:145-161 | The streamer's code byte has its top bit clear exactly for negative inputs. |
| AudioCodec.MuLawEncode | audioUtil.js:145-162 | muLawEncode, with its clamp and its exponent loop, returns the byte ClampedEncoding defines. |
| AudioCodec.MuLawBuffer | audioUtil.js:164-170 | The encoded buffer has one byte per sample. |
| AudioCodec.EncodeMuLawBuffer | audioUtil.js:164-170 | The loop's output has the input's length, and byte i is muLawEncode(pcm[i]). |
| AudioCodec.AgreesBelowKnee | audioUtil.js:145-162 | For abs(x) <= 32635 the streamer's encoder gives the same byte as the outbound encoder. |
| AudioCodec.LoudSampleCollapses | audioUtil.js:153-161 | When the clamped abs(x) exceeds 32635, the exponent ends at 0 and the code decodes to magnitude at most 252. |
| AudioCodec.FullScaleDecodesTo132 | audioUtil.js:145-161 | Full-scale 32767 comes back as 132 through the streamer's encoder, against 32256 through the outbound one. |
| Cursor.ReadPos | test-outbound.js:58-60 | After the wrap check, both bytes of the read lie inside the track, at an even offset. |
| Cursor.CursorAfter | test-outbound.js:57-61 | The cursor stays even and within the track, and is at least 2 after any read. |
| Cursor.SamplePos | test-outbound.js:58-60 | The closed-form read position is an even in-track offset. |
| Cursor.ModStep | test-outbound.js:58-61 | Advancing by one sample modulo the track's sample count wraps exactly at the end. |
| Cursor.ReadPositions | test-outbound.js:57-61 | The k-th read from cursor off is at sample (off / 2 + k) mod (len / 2), and after n > 0 reads the cursor is one sample past the last read. |
| Scan.Run | outbound-calls.js:86-122 | A sample loop that carries a state produces one output per input and keeps the state invariant. |
| Scan.RunSplit | outbound-calls.js:86-122 | Running over p + q is running over p and then over q from the state p left. |
| Scan.RunNext | outbound-calls.js:86-122 | Output i of a pass is the step applied at the state left by the first i inputs. |
| TestMixer.VoicePass | test-outbound.js:52-54 | The decode loop stores each decoded sample unchanged: no truncation or wrap happens. |
| TestMixer.MixSample | test-outbound.js:63-69 | A mixed sample is the clamped sum, truncated toward zero and never wrapped. |
| TestMixer.BgPass | test-outbound.js:57-70 | The mix loop gives one sample per voice sample and leaves a valid cursor. |
| TestMixer.BgPassCursor | test-outbound.js:58-61 | After n samples the cursor is where n reads from the entry cursor leave it. |
| TestMixer.BgPassAt | test-outbound.js:57-70 | Sample k mixes voice sample k with background sample (off / 2 + k) mod (len(bg) / 2). |
| TestMixer.Mixed | test-outbound.js:47-79 | mixChunk returns exactly as many bytes as it was given, including none, and leaves a valid cursor. |
| TestMixer.MixedClosedForm | test-outbound.js:47-79 | Output byte k depends only on input byte k and on background sample (off / 2 + k) mod (len(bg) / 2), where off is the cursor at entry; the cursor ends one sample past the last read. |
| TestMixer.MixedAt | test-outbound.js:47-79 | Byte k of the output is encode(mix(decode(b_k), background sample at position k)). |
| TestMixer.MixedSplit | test-outbound.js:47-79 | Mixing a and then b, with the cursor carried over, gives the bytes and cursor of mixing a + b. |
| TestMixer.Mixer.constructor | test-outbound.js:37-38 | The mixer starts on the loaded track with the cursor at 0. |
| TestMixer.Mixer.MixBackground | test-outbound.js:57-70 | The in-place mix loop leaves the array and the cursor as the pure pass does. |
| TestMixer.Mixer.MixChunk | test-outbound.js:47-79 | mixChunk returns the bytes Mixed defines and moves the cursor to where Mixed leaves it. |
| TestMixer.DecodeVoice | test-outbound.js:48-54 | The decode loop fills a fresh Int16Array with the decoded chunk. |
| OutboundMixer.LowPass | outbound-calls.js:54-56 | The filtered value lies between the previous value and the current one. |
| OutboundMixer.DcNext | outbound-calls.js:61 | The new DC estimate lies between the old estimate and the sample. |
| OutboundMixer.SoftLimit | outbound-calls.js:65-78 | The limiter is the identity within +-26000. |
| OutboundMixer.SoftLimitInsideClamp | outbound-calls.js:65-78 | For any tanh strictly inside (-1, 1), the limiter's output is strictly inside (-32767, 32767), so the hard clamp after it never changes a value. |
| OutboundMixer.VoiceStep | outbound-calls.js:87-90 | Smoothing a decoded byte keeps the voice filter state within the decoded range. |
| OutboundMixer.VoiceStore | outbound-calls.js:91 | Storing the smoothed voice truncates it toward zero and never wraps. |
| OutboundMixer.VoicePass | outbound-calls.js:86-92 | The voice loop stores one sample per input byte. |
| OutboundMixer.BgStep | outbound-calls.js:97-121 | One background step reads at the wrapped cursor and moves it on by 2, staying inside the track. |
| OutboundMixer.BgStepStore | outbound-calls.js:109-121 | The stored sample is the clamped, soft-limited mix rounded half up: within half a unit of it, and never wrapped. |
| OutboundMixer.BgPass | outbound-calls.js:95-122 | The mix loop gives one sample per voice sample and leaves a valid cursor. |
| OutboundMixer.Mixed | outbound-calls.js:81-131 | mixChunk returns exactly as many bytes as it was given, including none. |
| OutboundMixer.VoicePassBounded | outbound-calls.js:86-92 | The voice loop keeps its filter state within +-32256, so every stored voice sample is within the decoded range. |
| OutboundMixer.BgStepBounded | outbound-calls.js:101-112 | One background step keeps the background and DC filter states within their bounds. |
| OutboundMixer.BgPassBounded | outbound-calls.js:95-122 | The mix loop keeps the cursor valid and both filter states bounded. |
| OutboundMixer.MixedBounded | outbound-calls.js:81-131 | mixChunk preserves the invariant of all four pieces of mixer state. |
| OutboundMixer.BgPassCursor | outbound-calls.js:97-102 | After n samples the cursor is where n reads from the entry cursor leave it. |
| OutboundMixer.BgStepAt | outbound-calls.js:97-121 | Once the wrapped read position is known, the stored sample is the voice plus the scaled, smoothed background sample read there, less the DC estimate, soft-limited, clamped and rounded half up. |
| OutboundMixer.BgPassAt | outbound-calls.js:95-122 | Sample k of the mix loop reads background sample (off / 2 + k) mod (len(bg) / 2), off being the cursor at entry, and stores voice sample k plus it, smoothed, less the DC estimate, soft-limited, clamped and rounded, at the filter states the first k samples leave. |
| OutboundMixer.MixedCursor | outbound-calls.js:95-102 | The k-th read of a call is at sample (off / 2 + k) mod (len(bg) / 2), and the cursor ends one sample past the last read. |
| OutboundMixer.VoicePassNext | outbound-calls.js:86-92 | Voice sample i is the step taken at the filter state left by the first i bytes. |
| OutboundMixer.BgPassNext | outbound-calls.js:95-122 | Mixed sample i is the step taken at the state left by the first i samples. |
| OutboundMixer.MixedSplit | outbound-calls.js:81-131 | Mixing a and then b, with the cursor and all three filter states carried over, gives the bytes and state of mixing a + b. |
| OutboundMixer.Mixer.constructor | outbound-calls.js:44-52 | At load time the cursor and the three filter states are 0. |
| OutboundMixer.Mixer.ResetBackgroundOffset | outbound-calls.js:133-138 | The cursor and the three filter states go back to 0, and the track is untouched. |
| OutboundMixer.Mixer.RemoveDCOffset | outbound-calls.js:58-63 | It returns the sample minus the old DC estimate and moves the estimate by DcNext; nothing else changes. |
| OutboundMixer.Mixer.DecodeVoice | outbound-calls.js:82-92 | The voice loop fills a fresh array and leaves the voice filter state as the pure pass does, with the background state untouched. |
| OutboundMixer.Mixer.MixStep | outbound-calls.js:96-121 | One iteration's body gives the stored sample and the new background state of BgStep. |
| OutboundMixer.Mixer.MixAt | outbound-calls.js:96-121 | Iteration i stores element i of the pure pass and leaves the state the pass has after i + 1 samples. |
| OutboundMixer.Mixer.MixBackground | outbound-calls.js:95-122 | The in-place mix loop leaves the array and the background state as the pure pass does. |
| OutboundMixer.Mixer.MixChunk | outbound-calls.js:81-131 | mixChunk returns the bytes Mixed defines, leaves the state Mixed defines, and keeps the state invariant. |
| FrameLoop.Run | audioUtil.js:227-276 | However the frame work treats the audio, the loop keeps the buffer's length and never ends refused. |
| FrameLoop.FrameAt | audioUtil.js:229-236 | A frame is read exactly unless an unlooped track has no whole frame left; it is the current frame or frame 0, and a whole frame inside the track. |
| FrameLoop.RunNext | audioUtil.js:229-276 | One pass reads the frame FrameAt picks, sends it first, and the loop goes on from the next frame over the buffer the pass left, unless a stop was requested in the pause. |
| FrameLoop.Schedule | audioUtil.js:227-276 | At most one offset per pause and one more; the loop is still going after the last pause exactly when it read that many; it ends at the end of the track only when it does not loop. |
| FrameLoop.RunFollowsSchedule | audioUtil.js:227-273 | The frames sent are read at the offsets of the schedule, each one carries 160 code bytes, and the loop ends as the schedule says. |
| FrameLoop.ScheduleInTrack | audioUtil.js:229-244 | Every frame read is a whole frame inside the track, at a multiple of 320. |
| FrameLoop.UnloopedFrames | audioUtil.js:229-236 | With no loop and no stop, exactly floor(len / 320) - j frames are read from frame j on, at offsets 320 j, 320 (j + 1), and so on, and the loop ends at the end of the track. |
| FrameLoop.LoopedOffsets | audioUtil.js:229-233 | With a loop, each offset follows the previous one by 320 unless a whole frame no longer fits, and then it is exactly 0. |
| FrameLoop.LoopedStop | audioUtil.js:227-276 | With a loop, the first stop requested in pause k gives exactly k + 1 frames and a cancelled exit. |
| BackgroundStream.Controller.constructor | audioUtil.js:179-181 | Both flags start false. |
| BackgroundStream.Controller.Start | audioUtil.js:183-191 | After start(), whether or not it was ignored, a loop is running and no stop is pending. |
| BackgroundStream.Controller.Stop | audioUtil.js:193-200 | After stop(), a stop is pending and `running` is as it was. |
| BackgroundStream.ScaleSample | audioUtil.js:248-255 | The volume stage stores the scaled sample clamped and truncated toward zero, never wrapped. |
| BackgroundStream.UnitVolume | audioUtil.js:247-257 | At volume 1 the volume stage would leave every sample unchanged, so skipping it changes nothing. |
| BackgroundStream.ScaleFrame | audioUtil.js:247-257 | The volume stage over a frame scales exactly its 160 samples and leaves every other sample of the buffer as it was. |
| BackgroundStream.Payload | audioUtil.js:240-260 | The payload of a frame is 160 bytes, byte j the streamer's code of sample j of the frame. |
| BackgroundStream.FrameStepScales | audioUtil.js:240-260 | With or without the volume stage, the loop body sends frame i scaled once and writes the scaled samples back, leaving every other sample as it was. |
| BackgroundStream.FrameStepSound | audioUtil.js:240-260 | The work on one frame yields 160 code bytes and keeps the buffer's length. |
| BackgroundStream.Stream | audioUtil.js:227-276 | The frame loop keeps the loaded buffer's length and never ends refused. |
| BackgroundStream.UnloopedStream | audioUtil.js:219-260 | With no loop and no stop, exactly floor(bytes / 320) frames are sent, frame k from offset 320 k carrying the codes of samples 160 k .. 160 k + 159 scaled once, and the loop ends at the end of the track. |
| BackgroundStream.UnloopedPayloadsFrom | audioUtil.js:227-276 | An unlooped run from frame n sends in frame k the codes of samples 160 (n + k) .. 160 (n + k) + 159, each scaled once. |
| BackgroundStream.LapFrames | audioUtil.js:227-276 | A looped run over a track of F whole frames, from frame n of the first or second lap, sends one frame per pause and one more, each as the lap it belongs to says. |
| BackgroundStream.LoopedLaps | audioUtil.js:227-276 | On a looped track of F whole frames with no stop, frame k of the first lap and frame F + k of the second are both read at offset 320 k; the first carries frame k scaled once, the second the same samples scaled twice. |
| BackgroundStream.LoopedStream | audioUtil.js:227-237 | With a loop, the first frame is at offset 0, and each later one follows by 320 or wraps to exactly 0; a first stop in pause k gives exactly k + 1 frames. |
| BackgroundStream.SecondLapScaledTwice | audioUtil.js:240-257 | Because the scaled samples are written back, the second lap of a looped one-frame track sends every sample scaled twice. |
| BackgroundStream.ScaleAt | audioUtil.js:249-255 | The volume stage rewrites sample i and no other. |
| BackgroundStream.ScaleInPlace | audioUtil.js:247-257 | The volume loop scales exactly the 160 samples of the frame, in place. |
| BackgroundStream.NextFrame | audioUtil.js:229-260 | The loop body up to the send picks the frame as the schedule does, scales it only when the volume is not 1, and encodes it; an unlooped track that has run out changes nothing. |
| BackgroundStream.SendFrame | audioUtil.js:229-275 | One pass of the loop sends the first frame of Stream, and a stop during its pause sets `cancel`. |
| BackgroundStream.StreamBackground | audioUtil.js:203-280 | Without a usable connection it sends nothing and touches nothing. Otherwise it sends the frames of Stream from offset 0 and, on exit, clears `running`; `cancel` is then set exactly when the exit was a stop. |
| BackgroundStream.RunFrames | audioUtil.js:227-278 | The while loop sends the frames of Stream and clears `running` when it leaves. |
| MediaSession.ReplaySplit | outbound-calls.js:438-537 | Handling a + b is handling a and then b from where a left off. |
| MediaSession.Reset | outbound-calls.js:497-498 | The reset puts both counters back to idle (-1 and 0) and keeps the stream and call ids. |
| MediaSession.EndIfCall | outbound-calls.js:500-502 | The call is ended exactly when there is a call id. |
| MediaSession.Resume | outbound-calls.js:491-508 | The resuming mark first stops the old loop; it restarts the background exactly when the agent is open, and ends the call exactly when the agent is gone and there is a call. |
| MediaSession.Handle | outbound-calls.js:264-547 | Only the start message changes the stream and call ids. |
| MediaSession.HandleShape | outbound-calls.js:264-547 | Each message resets the counters, leaves them, or raises one of them by one; it takes at most two actions; only a mark restarts the background; only a mark or caller audio ends the call, and only when there is a call. |
| MediaSession.ReplayActions | outbound-calls.js:264-547 | A sequence of messages takes at most two actions per message. |
| MediaSession.ReplayKeepsIds | outbound-calls.js:450-455 | Without a start message, the stream and call ids never change. |
| MediaSession.HandleKeepsSane | outbound-calls.js:264-547 | No message moves either counter below its initial value (-1 and 0). |
| MediaSession.ReplayKeepsSane | outbound-calls.js:264-547 | The counters stay at or above (-1, 0) over any sequence of messages. |
| MediaSession.AudioBeforeStart | outbound-calls.js:303-375 | Agent audio before the stream id is known is neither counted nor played. |
| MediaSession.ChunksCount | outbound-calls.js:303-371 | k agent chunks raise the agent counter by k, each stopping the background and playing. |
| MediaSession.MarksCount | outbound-calls.js:509-511 | Marks that arrive while the agent counter is ahead only raise the mark counter. |
| MediaSession.ChunksThenFewerMarks | outbound-calls.js:491-511 | From idle, k chunks and then j < k marks leave the counters at (k - 1, j) with nothing resumed. |
| MediaSession.ChunksThenMarks | outbound-calls.js:491-508 | From idle, k >= 1 chunks and then k marks: the k-th mark stops the background, then restarts it or ends the call, and the counters are back at (-1, 0). |
| MediaSession.MarkOutcome | outbound-calls.js:491-511 | A mark restarts the background exactly when the counters are equal and the agent is open. It ends the call exactly when they are equal, the agent is gone and there is a call. Otherwise it raises the mark counter. |
| MediaSession.IdleMark | outbound-calls.js:491-511 | A mark while idle (-1 against 0) resumes nothing and sets the mark counter to 1. |
| MediaSession.MediaOutcome | outbound-calls.js:465-484 | Caller audio ends the call exactly when the counters are idle, the agent is not open and there is a call; it never moves the counters. |
| MediaSession.IdleMarkDisarmsHangUp | outbound-calls.js:465-511 | After a mark while idle, caller audio with the agent gone no longer ends the call. |
| MediaSession.MarksAhead | outbound-calls.js:509-511 | While the mark counter is ahead of the agent counter, marks only raise it and never resume anything. |
| MediaSession.IdleMarkReplay | outbound-calls.js:491-511 | A single mark while idle sets the mark counter to 1 and takes no action. |
| MediaSession.IdleMarkDesyncs | outbound-calls.js:303-371 | After a mark while idle and one agent chunk, any number of marks leaves only the chunk's actions, with the mark counter one ahead: the background never resumes. |
| MediaSession.IdleMarkResumesEarly | outbound-calls.js:491-511 | After a mark while idle and k >= 2 agent chunks, the (k - 1)-th mark resumes the background or ends the call and resets the counters. |
| MediaSession.ResetEvents | outbound-calls.js:516-547 | stop, an error while handling a Twilio message, and the socket closing each reset the counters to (-1, 0) and stop the background; stop and close also close an open agent socket. |
| MediaSession.Session.constructor | outbound-calls.js:264-270 | A session starts with the counters at (-1, 0), no ids and an empty log. |
| MediaSession.Session.OnStart | outbound-calls.js:450-455 | The start message records the stream and call ids. |
| MediaSession.Session.OnAgentAudio | outbound-calls.js:303-371 | An agent audio message updates the counters and the log as Handle says. |
| MediaSession.Session.OnMedia | outbound-calls.js:465-484 | A media message updates the state and the log as Handle says. |
| MediaSession.Session.OnMark | outbound-calls.js:489-512 | A mark message updates the counters and the log as Handle says. |
| MediaSession.Session.OnStop | outbound-calls.js:516-525 | The stop message updates the state and the log as Handle says. |
| MediaSession.Session.OnMalformed | outbound-calls.js:530-536 | The error path of the Twilio handler updates the state and the log as Handle says. |
| MediaSession.Session.OnClose | outbound-calls.js:539-547 | The Twilio socket closing updates the state and the log as Handle says. |

## Left out

- WebSocket, JSON, base64, HTTP/TwiML routes, the signed-URL fetch and the Twilio REST client: these are I/O. They are reduced to the abstract actions of `MediaSession.Action` and to the `Frame` values the streamer sends.
- `mixWithBackground` and everything ffmpeg does: a foreign library.
- The ambient generators (`generateWhiteNoise`, pink noise, office ambience) and `sendNoiseChunk`: random and transcendental floating point.
- IEEE double rounding: the filter, volume and mix stages are computed in exact `real` arithmetic, and `Math.tanh` is a parameter.
- Reading the track from disk: the background track is a given byte sequence (mixers) or sample array (streamer).
- The 10 ms pause and all timing: the pauses are loop-iteration boundaries at which `stops` says whether another handler called stop().
- Overlapping frame loops: a stop() followed at once by a fresh start() lets the older loop go on through the shared controller. Handlers and loops are modelled as sequential steps only.
- The ElevenLabs `interruption`, `agent_response` and `ping` handlers, the console logs and `frameCount`: they do not touch the modelled state.
- index.js, inbound-calls.js, tooling.js and the database connection are not part of this model.
- FrameLoop.Run: the loop is followed over len(stops) pauses only; a run still going after them ends `Unobserved`.
- BackgroundStream.StreamBackground: requires a looped track to hold at least one whole frame. On a shorter looped track the Int16Array view throws or reads past the file, and neither path is modelled.
- BackgroundStream.StreamBackground: the track is held as 16-bit samples, so an odd trailing byte, an odd byteOffset of the Buffer and a Buffer that shares Node's pool are not modelled.
- TestMixer.Mixer.constructor: requires a non-empty track of even length. Otherwise readInt16LE throws, and that error path is not modelled.
- OutboundMixer.Mixer.constructor: requires a non-empty track of even length, for the same reason.
- MediaSession.Session.OnMedia: a media message whose payload is missing throws inside the handler before it reaches the catch. That partial effect is not modelled; the catch is the separate `Malformed` message.
- MediaSession.Session.OnAgentAudio: the mixed chunk, the marks and the messages sent are one abstract `Speak` action. The mixing is modelled separately by `OutboundMixer`.
