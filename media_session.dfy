/** The counter protocol of the outbound media-stream handler. Each agent audio chunk
    is played to the caller followed by a Twilio mark, and `eleven_AUDIO_COUNT`
    counts the chunks sent; `twilio_AUDIO_COUNT` counts the marks Twilio echoes back.
    The mark that finds both counters equal means the agent has finished speaking:
    the background is resumed, or the call ended when the agent socket has closed.

    The sockets, the JSON messages and the Twilio REST client are reduced to the
    events a handler receives and the abstract actions it takes. Whether the
    ElevenLabs socket is open is an input of the events whose handler looks at it. */
module MediaSession {
  /** What a handler does to the world, in order. */
  datatype Action =
    | StopBg     // BackgroundController.stop()
    | StartBg    // streamBackgroundToTwilio(...) on the office loop
    | Speak      // the mixed agent chunk and its marks, sent to Twilio
    | Forward    // the caller's audio, sent on to the agent
    | EndCall    // the call updated to "completed"
    | CloseAgent // the ElevenLabs socket closed

  /** The messages the handler reacts to. `agentOpen` is whether the ElevenLabs
      socket is open when the message is handled; `payload` whether an agent audio
      message carries audio in either of the two shapes the handler accepts. */
  datatype Event =
    | Start(streamSid: string, callSid: string)
    | AgentAudio(payload: bool)
    | Media(agentOpen: bool)
    | Mark(agentOpen: bool)
    | Stop(agentOpen: bool)
    | Malformed
    | Closed(agentOpen: bool)

  /** The closure state of one media stream. An empty id is falsy in JavaScript and
      stands for a missing one. */
  datatype SessionState = SessionState(eleven: int, twilio: int, streamSid: string, callSid: string)

  const Initial := SessionState(-1, 0, [], [])

  /** No chunk is outstanding: the counters as they start and as every reset leaves them. */
  predicate Idle(s: SessionState)
  {
    s.eleven == -1 && s.twilio == 0
  }

  /** The reset of stop, error, close and the resuming mark: both counters back to
      idle, the ids kept. */
  function Reset(s: SessionState): (r: SessionState)
    ensures Idle(r) && r.streamSid == s.streamSid && r.callSid == s.callSid
  {
    s.(eleven := -1, twilio := 0)
  }

  /** EndCall when there is a call to end. */
  function EndIfCall(s: SessionState): (r: seq<Action>)
    ensures |r| <= 1 && (EndCall in r <==> s.callSid != [])
  {
    if s.callSid != [] then [EndCall] else []
  }

  /** What the mark that finds the counters equal does: stop the old background loop,
      then resume it if the agent is still connected, or end the call if not. */
  function Resume(s: SessionState, open: bool): (r: seq<Action>)
    ensures |r| >= 1 && r[0] == StopBg
    ensures StartBg in r <==> open
    ensures EndCall in r <==> !open && s.callSid != []
  {
    [StopBg] + (if open then [StartBg] else EndIfCall(s))
  }

  /** One message handled: the new state and the actions taken. Only the start message
      changes the ids. */
  function Handle(s: SessionState, ev: Event): (r: (SessionState, seq<Action>))
    ensures !ev.Start? ==> r.0.streamSid == s.streamSid && r.0.callSid == s.callSid
  {
    match ev
    case Start(sid, call) => (s.(streamSid := sid, callSid := call), [])
    case AgentAudio(payload) =>
      if s.streamSid != [] && payload then (s.(eleven := s.eleven + 1), [StopBg, Speak]) else (s, [])
    case Media(open) =>
      if Idle(s) && !open then (Reset(s), EndIfCall(s))
      else if open then (s, [Forward])
      else (s, [])
    case Mark(open) =>
      if s.eleven == s.twilio then (Reset(s), Resume(s, open))
      else (s.(twilio := s.twilio + 1), [])
    case Stop(open) => (Reset(s), [StopBg] + (if open then [CloseAgent] else []))
    case Malformed => (Reset(s), [StopBg])
    case Closed(open) => (Reset(s), [StopBg] + (if open then [CloseAgent] else []))
  }

  /** A sequence of messages handled in order: the final state and all actions. */
  function Replay(s: SessionState, evs: seq<Event>): (SessionState, seq<Action>)
    decreases |evs|
  {
    if evs == [] then (s, [])
    else
      var p := Replay(s, evs[..|evs| - 1]);
      var h := Handle(p.0, evs[|evs| - 1]);
      (h.0, p.1 + h.1)
  }

  /** Handling a + b is handling a and then b from where a left off. */
  lemma {:induction false} ReplaySplit(s: SessionState, a: seq<Event>, b: seq<Event>)
    ensures Replay(s, a + b).0 == Replay(Replay(s, a).0, b).0
    ensures Replay(s, a + b).1 == Replay(s, a).1 + Replay(Replay(s, a).0, b).1
    decreases |b|
  {
    if b == [] {
      assert a + b == a;
    } else {
      var init := b[..|b| - 1];
      ReplaySplit(s, a, init);
      var ab := a + b;
      assert ab[..|ab| - 1] == a + init && ab[|ab| - 1] == b[|b| - 1];
      var mid := Replay(s, a);
      var whole := Replay(s, a + init);
      var part := Replay(mid.0, init);
      var h := Handle(part.0, b[|b| - 1]);
      assert Replay(s, ab) == (h.0, whole.1 + h.1);
      assert Replay(mid.0, b) == (h.0, part.1 + h.1);
      assert whole.1 + h.1 == mid.1 + (part.1 + h.1);
    }
  }

  /** Every message either resets the counters, leaves them, or moves exactly one of
      them up by one; at most two actions are taken; only a mark restarts the
      background, and only a mark or caller audio ends the call, and only when there
      is a call. */
  lemma HandleShape(s: SessionState, ev: Event)
    ensures var r := Handle(s, ev);
            Idle(r.0) || (r.0.eleven == s.eleven && r.0.twilio == s.twilio) ||
            (r.0.eleven == s.eleven + 1 && r.0.twilio == s.twilio) ||
            (r.0.eleven == s.eleven && r.0.twilio == s.twilio + 1)
    ensures |Handle(s, ev).1| <= 2
    ensures StartBg in Handle(s, ev).1 ==> ev.Mark?
    ensures EndCall in Handle(s, ev).1 ==> (ev.Mark? || ev.Media?) && s.callSid != []
  {
  }

  /** Handling a sequence of messages takes at most two actions per message. */
  lemma {:induction false} ReplayActions(s: SessionState, evs: seq<Event>)
    ensures |Replay(s, evs).1| <= 2 * |evs|
    decreases |evs|
  {
    if evs != [] {
      ReplayActions(s, evs[..|evs| - 1]);
      HandleShape(Replay(s, evs[..|evs| - 1]).0, evs[|evs| - 1]);
    }
  }

  /** Without a start message, the stream and call ids never change. */
  lemma {:induction false} ReplayKeepsIds(s: SessionState, evs: seq<Event>)
    requires forall i :: 0 <= i < |evs| ==> !evs[i].Start?
    ensures Replay(s, evs).0.streamSid == s.streamSid && Replay(s, evs).0.callSid == s.callSid
    decreases |evs|
  {
    if evs != [] {
      ReplayKeepsIds(s, evs[..|evs| - 1]);
    }
  }

  /** The counters never drop below their starting values. */
  predicate Sane(s: SessionState)
  {
    s.eleven >= -1 && s.twilio >= 0
  }

  lemma HandleKeepsSane(s: SessionState, ev: Event)
    requires Sane(s)
    ensures Sane(Handle(s, ev).0)
  {
  }

  lemma {:induction false} ReplayKeepsSane(s: SessionState, evs: seq<Event>)
    requires Sane(s)
    ensures Sane(Replay(s, evs).0)
    decreases |evs|
  {
    if evs != [] {
      ReplayKeepsSane(s, evs[..|evs| - 1]);
      HandleKeepsSane(Replay(s, evs[..|evs| - 1]).0, evs[|evs| - 1]);
    }
  }

  /** Agent audio that arrives before the stream id is known is dropped: nothing is
      counted or sent. */
  lemma AudioBeforeStart(s: SessionState, payload: bool)
    requires s.streamSid == []
    ensures Handle(s, AgentAudio(payload)) == (s, [])
  {
  }

  function Chunks(k: nat): seq<Event>
  {
    seq(k, _ => AgentAudio(true))
  }

  function Marks(k: nat, open: bool): seq<Event>
  {
    seq(k, _ => Mark(open))
  }

  /** The actions of k agent chunks: each stops the background and is played. */
  function SpeakLog(k: nat): seq<Action>
  {
    if k == 0 then [] else SpeakLog(k - 1) + [StopBg, Speak]
  }

  /** k agent chunks move the agent counter up by k and touch nothing else. */
  lemma {:induction false} ChunksCount(s: SessionState, k: nat)
    requires s.streamSid != []
    ensures Replay(s, Chunks(k)) == (s.(eleven := s.eleven + k), SpeakLog(k))
  {
    if k > 0 {
      assert Chunks(k)[..k - 1] == Chunks(k - 1);
      ChunksCount(s, k - 1);
    }
  }

  /** Marks that arrive while the agent counter is ahead only move the mark counter:
      with j marks and the mark counter j or more behind, nothing is resumed. */
  lemma {:induction false} MarksCount(s: SessionState, j: nat, open: bool)
    requires s.twilio + j <= s.eleven
    ensures Replay(s, Marks(j, open)) == (s.(twilio := s.twilio + j), [])
  {
    if j > 0 {
      assert Marks(j, open)[..j - 1] == Marks(j - 1, open);
      MarksCount(s, j - 1, open);
      var mid := s.(twilio := s.twilio + j - 1);
      assert Handle(mid, Mark(open)) == (s.(twilio := s.twilio + j), []);
      var none: seq<Action> := [];
      assert none + none == none;
    }
  }

  /** From idle, k agent chunks and then fewer than k marks: the counters stand at
      (k - 1, j) and the background has not been resumed. */
  lemma ChunksThenFewerMarks(s: SessionState, k: nat, j: nat, open: bool)
    requires Idle(s) && s.streamSid != [] && j < k
    ensures Replay(s, Chunks(k) + Marks(j, open)) == (s.(eleven := k - 1, twilio := j), SpeakLog(k))
  {
    var spoken := s.(eleven := k - 1);
    ChunksCount(s, k);
    assert Replay(s, Chunks(k)) == (spoken, SpeakLog(k));
    MarksCount(spoken, j, open);
    assert Replay(spoken, Marks(j, open)) == (spoken.(twilio := j), []);
    ReplaySplit(s, Chunks(k), Marks(j, open));
    assert SpeakLog(k) + [] == SpeakLog(k);
  }

  /** From idle, k >= 1 agent chunks and then k marks: the first k - 1 marks only
      count, the k-th finds the counters equal and resumes the background (or ends
      the call), and the counters are back at idle. */
  lemma ChunksThenMarks(s: SessionState, k: nat, open: bool)
    requires Idle(s) && s.streamSid != [] && k >= 1
    ensures Replay(s, Chunks(k) + Marks(k, open)) == (s, SpeakLog(k) + Resume(s, open))
  {
    var evs := Chunks(k) + Marks(k, open);
    assert evs[..|evs| - 1] == Chunks(k) + Marks(k - 1, open);
    assert evs[|evs| - 1] == Mark(open);
    ChunksThenFewerMarks(s, k, k - 1, open);
    var before := s.(eleven := k - 1, twilio := k - 1);
    assert Replay(s, evs[..|evs| - 1]) == (before, SpeakLog(k));
    assert Handle(before, Mark(open)) == (s, Resume(s, open));
  }

  /** A mark resumes the background exactly when the counters are equal and the agent
      is connected; it ends the call exactly when they are equal, the agent is gone
      and there is a call. */
  lemma MarkOutcome(s: SessionState, open: bool)
    ensures StartBg in Handle(s, Mark(open)).1 <==> s.eleven == s.twilio && open
    ensures EndCall in Handle(s, Mark(open)).1 <==> s.eleven == s.twilio && !open && s.callSid != []
    ensures s.eleven == s.twilio ==> Idle(Handle(s, Mark(open)).0)
    ensures s.eleven != s.twilio ==> Handle(s, Mark(open)).0 == s.(twilio := s.twilio + 1)
  {
  }

  /** A mark while idle (-1 against 0) does not resume anything; it moves the mark
      counter to 1. */
  lemma IdleMark(s: SessionState, open: bool)
    requires Idle(s)
    ensures Handle(s, Mark(open)) == (s.(twilio := 1), [])
  {
  }

  /** Caller audio ends the call exactly when the counters are idle, the agent socket
      is not open and there is a call; caller audio never moves the counters. */
  lemma MediaOutcome(s: SessionState, open: bool)
    ensures EndCall in Handle(s, Media(open)).1 <==> Idle(s) && !open && s.callSid != []
    ensures Handle(s, Media(open)).0 == s
  {
  }

  /** After a mark that arrived while idle, caller audio no longer ends the call
      when the agent is gone, until some event resets the counters. */
  lemma IdleMarkDisarmsHangUp(s: SessionState)
    requires Idle(s)
    ensures EndCall !in Handle(Handle(s, Mark(false)).0, Media(false)).1
  {
    IdleMark(s, false);
  }

  /** Marks that arrive while the mark counter is ahead of the agent counter never find
      them equal: each only moves the mark counter. */
  lemma {:induction false} MarksAhead(s: SessionState, j: nat, open: bool)
    requires s.twilio > s.eleven
    ensures Replay(s, Marks(j, open)) == (s.(twilio := s.twilio + j), [])
  {
    if j > 0 {
      assert Marks(j, open)[..j - 1] == Marks(j - 1, open);
      MarksAhead(s, j - 1, open);
      var mid := s.(twilio := s.twilio + j - 1);
      assert Handle(mid, Mark(open)) == (s.(twilio := s.twilio + j), []);
      var none: seq<Action> := [];
      assert none + none == none;
    }
  }

  /** A single mark while idle, as the whole of a replay. */
  lemma IdleMarkReplay(s: SessionState, open: bool)
    requires Idle(s)
    ensures Replay(s, [Mark(open)]) == (s.(twilio := 1), [])
  {
    var evs := [Mark(open)];
    assert evs[..0] == [] && evs[0] == Mark(open);
    IdleMark(s, open);
    var none: seq<Action> := [];
    assert none + none == none;
    assert Replay(s, evs) == (s.(twilio := 1), none + none);
  }

  /** A mark while idle, then one agent chunk: the counters stand at (0, 1), and no
      number of marks afterwards resumes the background or ends the call. */
  lemma IdleMarkDesyncs(s: SessionState, j: nat, open: bool)
    requires Idle(s) && s.streamSid != []
    ensures Replay(s, [Mark(open), AgentAudio(true)] + Marks(j, open)) ==
            (s.(eleven := 0, twilio := j + 1), [StopBg, Speak])
  {
    var pre := [Mark(open), AgentAudio(true)];
    var marked := s.(twilio := 1);
    IdleMarkReplay(s, open);
    assert pre[..1] == [Mark(open)] && pre[1] == AgentAudio(true);
    var ahead := s.(eleven := 0, twilio := 1);
    assert Handle(marked, AgentAudio(true)) == (ahead, [StopBg, Speak]);
    var none: seq<Action> := [];
    assert none + [StopBg, Speak] == [StopBg, Speak] + none == [StopBg, Speak];
    assert Replay(s, pre) == (ahead, [StopBg, Speak]);
    MarksAhead(ahead, j, open);
    ReplaySplit(s, pre, Marks(j, open));
  }

  /** A mark while idle, then k >= 2 agent chunks: the (k - 1)-th mark already finds
      the counters equal and resumes the background (or ends the call) while the last
      chunk is still unacknowledged. */
  lemma IdleMarkResumesEarly(s: SessionState, k: nat, open: bool)
    requires Idle(s) && s.streamSid != [] && k >= 2
    ensures Replay(s, [Mark(open)] + Chunks(k) + Marks(k - 1, open)) ==
            (s, SpeakLog(k) + Resume(s, open))
  {
    var marked := s.(twilio := 1);
    IdleMarkReplay(s, open);
    ChunksCount(marked, k);
    var spoken := marked.(eleven := k - 1);
    MarksCount(spoken, k - 2, open);
    var before := spoken.(twilio := k - 1);
    var ms := Marks(k - 1, open);
    assert ms[..|ms| - 1] == Marks(k - 2, open) && ms[|ms| - 1] == Mark(open);
    assert Replay(spoken, ms[..|ms| - 1]) == (before, []);
    assert Handle(before, Mark(open)) == (s, Resume(s, open));
    var none: seq<Action> := [];
    assert none + Resume(s, open) == Resume(s, open) && none + SpeakLog(k) == SpeakLog(k);
    assert Replay(spoken, ms) == (s, Resume(s, open));
    ReplaySplit(s, [Mark(open)], Chunks(k));
    assert Replay(s, [Mark(open)] + Chunks(k)) == (spoken, SpeakLog(k));
    ReplaySplit(s, [Mark(open)] + Chunks(k), ms);
  }

  /** stop, a message that cannot be handled, and the socket closing each reset the
      counters and stop the background, whatever the state. */
  lemma ResetEvents(s: SessionState, open: bool)
    ensures Handle(s, Stop(open)) == (Reset(s), [StopBg] + (if open then [CloseAgent] else []))
    ensures Handle(s, Malformed) == (Reset(s), [StopBg])
    ensures Handle(s, Closed(open)) == (Reset(s), [StopBg] + (if open then [CloseAgent] else []))
    ensures Idle(Reset(s)) && Reset(s).streamSid == s.streamSid && Reset(s).callSid == s.callSid
  {
  }

  /** The handler's closure variables, with one method per message. */
  class Session {
    var elevenAudioCount: int
    var twilioAudioCount: int
    var streamSid: string
    var callSid: string
    /** Every action taken so far, in order. */
    var log: seq<Action>

    function State(): SessionState
      reads this
    {
      SessionState(elevenAudioCount, twilioAudioCount, streamSid, callSid)
    }

    constructor ()
      ensures State() == Initial && log == []
    {
      elevenAudioCount := -1;
      twilioAudioCount := 0;
      streamSid := [];
      callSid := [];
      log := [];
    }

    /** The Twilio `start` message. */
    method OnStart(sid: string, call: string)
      modifies this
      ensures State() == Handle(old(State()), Start(sid, call)).0
      ensures log == old(log) + Handle(old(State()), Start(sid, call)).1
    {
      streamSid := sid;
      callSid := call;
    }

    /** An ElevenLabs `audio` message. */
    method OnAgentAudio(payload: bool)
      modifies this
      ensures State() == Handle(old(State()), AgentAudio(payload)).0
      ensures log == old(log) + Handle(old(State()), AgentAudio(payload)).1
    {
      if streamSid != [] {
        if payload {
          log := log + [StopBg];
          log := log + [Speak];
          elevenAudioCount := elevenAudioCount + 1;
        }
      }
    }

    /** The Twilio `media` message: the caller's audio. */
    method OnMedia(agentOpen: bool)
      modifies this
      ensures State() == Handle(old(State()), Media(agentOpen)).0
      ensures log == old(log) + Handle(old(State()), Media(agentOpen)).1
    {
      if twilioAudioCount == 0 && elevenAudioCount == -1 {
        if !agentOpen {
          twilioAudioCount := 0;
          elevenAudioCount := -1;
          if callSid != [] {
            log := log + [EndCall];
          }
          return;
        }
      }
      if agentOpen {
        log := log + [Forward];
      }
    }

    /** The Twilio `mark` message: one played chunk acknowledged. */
    method OnMark(agentOpen: bool)
      modifies this
      ensures State() == Handle(old(State()), Mark(agentOpen)).0
      ensures log == old(log) + Handle(old(State()), Mark(agentOpen)).1
    {
      if elevenAudioCount == twilioAudioCount {
        log := log + [StopBg];
        if !agentOpen {
          twilioAudioCount := 0;
          elevenAudioCount := -1;
          if callSid != [] {
            log := log + [EndCall];
          }
          return;
        }
        log := log + [StartBg];
        twilioAudioCount := 0;
        elevenAudioCount := -1;
      } else {
        twilioAudioCount := twilioAudioCount + 1;
      }
    }

    /** The Twilio `stop` message. */
    method OnStop(agentOpen: bool)
      modifies this
      ensures State() == Handle(old(State()), Stop(agentOpen)).0
      ensures log == old(log) + Handle(old(State()), Stop(agentOpen)).1
    {
      twilioAudioCount := 0;
      elevenAudioCount := -1;
      log := log + [StopBg];
      if agentOpen {
        log := log + [CloseAgent];
      }
    }

    /** The catch of the Twilio message handler. */
    method OnMalformed()
      modifies this
      ensures State() == Handle(old(State()), Malformed).0
      ensures log == old(log) + Handle(old(State()), Malformed).1
    {
      log := log + [StopBg];
      twilioAudioCount := 0;
      elevenAudioCount := -1;
    }

    /** The Twilio socket's `close`. */
    method OnClose(agentOpen: bool)
      modifies this
      ensures State() == Handle(old(State()), Closed(agentOpen)).0
      ensures log == old(log) + Handle(old(State()), Closed(agentOpen)).1
    {
      log := log + [StopBg];
      twilioAudioCount := 0;
      elevenAudioCount := -1;
      if agentOpen {
        log := log + [CloseAgent];
      }
    }
  }
}
