/**
 * What a `UserSession` of backend/socket_vad_service.py promises, proved
 * about the state functions of module SocketVad: the frame size, the
 * ensemble vote, the frame loop (exactly the complete frames, in order, with
 * the counters that follow), the chunk decision, and over any sequence of
 * session operations the strict alternation of speech-start and speech-end
 * events, each end reporting the time since its start.
 */
module SocketVadProperties {
  import opened Common
  import opened SocketVad
  import AA = AudioAnalysis

  // ---------------------------------------------------------------- configuration

  /** The default configuration (16 kHz, 30 ms, two bytes a sample) gives frames of 960 bytes. */
  lemma DefaultFrameSize()
    ensures FrameSize(DefaultSessionConfig) == 960
  {
  }

  /** `dict.update` with the same keys twice is the same as once. */
  lemma MergeSessionConfigTwice(c: SessionConfig, p: SessionPatch)
    ensures MergeSessionConfig(MergeSessionConfig(c, p), p) == MergeSessionConfig(c, p)
  {
  }

  /** Once expired, a session stays expired as time goes on. */
  lemma ExpiredStaysExpired(s: Session, now: int, later: int)
    requires Expired(s, now) && now <= later
    ensures Expired(s, later)
  {
  }

  // ---------------------------------------------------------------- the ensemble

  /** With non-negative weights, some of them enabled, the ensemble score is a share: between 0 and 1. */
  lemma EnsembleScoreInUnitInterval(c: SessionConfig, rms: bool, webrtc: bool, silero: bool)
    requires c.rmsWeight >= 0.0 && c.webrtcWeight >= 0.0 && c.sileroWeight >= 0.0
    requires TotalWeight(c) > 0.0
    ensures 0.0 <= Ensemble(c, rms, webrtc, silero).score <= 1.0
  {
    var total := TotalWeight(c);
    var votes := WeightedVotes(c, rms, webrtc, silero);
    assert 0.0 <= votes <= total;
    QuotientBetween(votes, total, 0.0, 1.0);
  }

  /** With the default weights (0.2, 0.4, 0.4) the ensemble says speech exactly when two of the three detectors do. */
  lemma DefaultEnsembleIsMajority(rms: bool, webrtc: bool, silero: bool)
    ensures Ensemble(DefaultSessionConfig, rms, webrtc, silero).isSpeech
            <==> (rms && webrtc) || (rms && silero) || (webrtc && silero)
  {
  }

  /** A vote for speech from every enabled detector makes speech; a vote from none makes silence. */
  lemma EnsembleUnanimous(c: SessionConfig, vote: bool)
    requires c.rmsWeight >= 0.0 && c.webrtcWeight >= 0.0 && c.sileroWeight >= 0.0
    requires TotalWeight(c) > 0.0
    ensures Ensemble(c, vote, vote, vote).isSpeech == vote
  {
    if vote {
      assert WeightedVotes(c, true, true, true) == TotalWeight(c);
      QuotientBetween(TotalWeight(c), TotalWeight(c), 1.0, 1.0);
    }
  }

  // ---------------------------------------------------------------- the frame history

  /** `pop(0)` when full, then `append`: the history is the newest `MaxFrames` frames, the new one last. */
  lemma PushFrameKeepsNewest(frames: seq<AudioFrame>, f: AudioFrame)
    requires |frames| <= MaxFrames
    ensures PushFrame(frames, f) == Last(frames + [f], MaxFrames)
    ensures PushFrame(frames, f)[|PushFrame(frames, f)| - 1] == f
  {
    var r := PushFrame(frames, f);
    var l := Last(frames + [f], MaxFrames);
    assert |r| == |l|;
    forall k | 0 <= k < |r|
      ensures r[k] == l[k]
    {
      if |frames| >= MaxFrames {
        assert r[k] == (frames + [f])[k + 1];
      }
    }
  }

  // ---------------------------------------------------------------- one frame

  /**
   * `_process_frame` counts the frame, counts it as speech exactly when the
   * ensemble says so, stamps the result with the chunk's time and leaves
   * the speaking state alone.
   */
  lemma FrameProcessedCounts(s: Session, frame: seq<byte>, ts: int, o: Oracles)
    requires SessionValid(s)
    ensures var (next, r) := FrameProcessed(s, frame, ts, o);
            && next.totalFrames == s.totalFrames + 1
            && next.speechFrames == s.speechFrames + (if r.isSpeech then 1 else 0)
            && r.timestamp == ts
            && next.frames == PushFrame(s.frames, AudioFrame(frame, r.rmsLevel, ts, r.isSpeechRms, r.isSpeechWebrtc, r.isSpeechSilero, r.isSpeech))
  {
  }

  /** The ensemble verdict of a frame result is the ensemble of its own three votes. */
  lemma FrameProcessedVerdict(s: Session, frame: seq<byte>, ts: int, o: Oracles)
    requires SessionValid(s)
    ensures var r := FrameProcessed(s, frame, ts, o).1;
            Ensemble(s.config, r.isSpeechRms, r.isSpeechWebrtc, r.isSpeechSilero) == Verdict(r.isSpeech, r.ensembleScore)
  {
  }

  // ---------------------------------------------------------------- the frame loop

  /** The complete frames of `data` from byte `i` on, in order. */
  function Frames(data: seq<byte>, i: nat, size: nat): (fs: seq<seq<byte>>)
    requires size > 0
    ensures forall k :: 0 <= k < |fs| ==> |fs[k]| == size
    decreases |data| - i
  {
    if FrameEnd(i, size) > |data| then [] else [data[i..FrameEnd(i, size)]] + Frames(data, FrameEnd(i, size), size)
  }

  function Flatten(fs: seq<seq<byte>>): seq<byte> {
    if fs == [] then [] else fs[0] + Flatten(fs[1..])
  }

  /**
   * The frames are exactly the complete frames: laid end to end they are a
   * prefix of `data[i..]`, what is left is shorter than a frame, and so there
   * are as many as whole frames fit.
   */
  lemma {:induction false} FramesCoverData(data: seq<byte>, i: nat, size: nat)
    requires size > 0 && i <= |data|
    ensures var fs := Frames(data, i, size);
            && Flatten(fs) <= data[i..]
            && |Flatten(fs)| == |fs| * size
            && |data| - i - |Flatten(fs)| < size
    decreases |data| - i
  {
    var fs := Frames(data, i, size);
    if FrameEnd(i, size) <= |data| {
      var j := FrameEnd(i, size);
      var rest := Frames(data, j, size);
      FramesCoverData(data, j, size);
      ConsParts(data[i..j], rest);
      assert Flatten(fs) == data[i..j] + Flatten(rest);
      assert data[i..] == data[i..j] + data[j..];
      PrefixAfter(data[i..j], Flatten(rest), data[j..]);
      assert |fs| * size == |rest| * size + size;
    }
  }

  lemma PrefixAfter<T>(a: seq<T>, b: seq<T>, c: seq<T>)
    requires b <= c
    ensures a + b <= a + c
  {
    assert (a + c)[..|a + b|] == a + b;
  }

  /** The number of frames is the number of whole frames that fit: ⌊(|data| - i) / size⌋. */
  lemma FrameCount(data: seq<byte>, i: nat, size: nat)
    requires size > 0 && i <= |data|
    ensures |Frames(data, i, size)| * size <= |data| - i < (|Frames(data, i, size)| + 1) * size
  {
    FramesCoverData(data, i, size);
    var fs := Frames(data, i, size);
    assert |Flatten(fs)| <= |data[i..]|;
  }

  /** Each frame in turn goes through `_process_frame`: the reference the frame loop is measured against. */
  function FramesOver(s: Session, fs: seq<seq<byte>>, ts: int, o: Oracles): (r: (Session, seq<FrameResult>))
    requires SessionValid(s)
    ensures SessionValid(r.0)
    decreases |fs|
  {
    if fs == [] then (s, [])
    else
      var first := FrameProcessed(s, fs[0], ts, o);
      var rest := FramesOver(first.0, fs[1..], ts, o);
      (rest.0, [first.1] + rest.1)
  }

  lemma ConsParts<T>(x: T, rest: seq<T>)
    ensures ([x] + rest)[0] == x && ([x] + rest)[1..] == rest && ([x] + rest) != []
  {
  }

  /** The frame loop processes exactly the complete frames of the chunk, in order, and nothing else. */
  lemma {:induction false} FramesRunIsFramesOver(s: Session, data: seq<byte>, i: nat, size: nat, ts: int, o: Oracles)
    requires SessionValid(s) && size > 0
    ensures FramesRun(s, data, i, size, ts, o) == FramesOver(s, Frames(data, i, size), ts, o)
    decreases |data| - i
  {
    if FrameEnd(i, size) <= |data| {
      var j := FrameEnd(i, size);
      var first := FrameProcessed(s, data[i..j], ts, o);
      FramesRunIsFramesOver(first.0, data, j, size, ts, o);
      ConsParts(data[i..j], Frames(data, j, size));
      assert FramesRun(s, data, i, size, ts, o) == FramesFrom(s, data, i, size, ts, o);
    }
  }

  /** The number of results that say speech, split at the first. */
  lemma SpeechCountCons(r: FrameResult, rs: seq<FrameResult>)
    ensures SpeechCount([r] + rs) == (if r.isSpeech then 1 else 0) + SpeechCount(rs)
  {
    ConsParts(r, rs);
  }

  /**
   * Over the frames: one result per frame, each stamped with the chunk's
   * time; the frame counter grows by the number of frames, the speech
   * counter by the number of speech results; the speaking state is untouched.
   */
  lemma {:induction false} FramesOverCounts(s: Session, fs: seq<seq<byte>>, ts: int, o: Oracles)
    requires SessionValid(s)
    ensures var (next, rs) := FramesOver(s, fs, ts, o);
            && |rs| == |fs|
            && (forall k :: 0 <= k < |rs| ==> rs[k].timestamp == ts)
            && next.totalFrames == s.totalFrames + |fs|
            && next.speechFrames == s.speechFrames + SpeechCount(rs)
            && next.isSpeaking == s.isSpeaking && next.speechStartTime == s.speechStartTime
            && next.lastActivity == s.lastActivity
            && next.id == s.id && next.config == s.config && next.frameSize == s.frameSize
    decreases |fs|
  {
    if fs != [] {
      var first := FrameProcessed(s, fs[0], ts, o);
      FrameProcessedCounts(s, fs[0], ts, o);
      FramesOverCounts(first.0, fs[1..], ts, o);
      var rest := FramesOver(first.0, fs[1..], ts, o);
      SpeechCountCons(first.1, rest.1);
      ConsParts(first.1, rest.1);
    }
  }

  /**
   * `process_audio_chunk`'s loop: one result per complete frame, that is
   * ⌊(|data| - i) / size⌋ of them; the counters grow accordingly; the
   * speaking state waits for the decision.
   */
  lemma FramesRunCounts(s: Session, data: seq<byte>, i: nat, size: nat, ts: int, o: Oracles)
    requires SessionValid(s) && size > 0 && i <= |data|
    ensures var (next, rs) := FramesRun(s, data, i, size, ts, o);
            && |rs| * size <= |data| - i < (|rs| + 1) * size
            && (forall k :: 0 <= k < |rs| ==> rs[k].timestamp == ts)
            && next.totalFrames == s.totalFrames + |rs|
            && next.speechFrames == s.speechFrames + SpeechCount(rs)
            && next.isSpeaking == s.isSpeaking && next.speechStartTime == s.speechStartTime
            && next.id == s.id && next.config == s.config && next.frameSize == s.frameSize
  {
    FramesRunIsFramesOver(s, data, i, size, ts, o);
    FrameCount(data, i, size);
    FramesOverCounts(s, Frames(data, i, size), ts, o);
  }

  // ---------------------------------------------------------------- the chunk decision

  /** A start only from silence on a majority of speech frames; it records the start time. */
  lemma DecidedStart(s: Session, rs: seq<FrameResult>, ts: int)
    ensures var (next, resp) := Decided(s, rs, ts);
            resp.SpeechStart? <==> rs != [] && MostlySpeech(rs) && !s.isSpeaking
    ensures var (next, resp) := Decided(s, rs, ts);
            resp.SpeechStart? ==> next.isSpeaking && next.speechStartTime == ts && resp.timestamp == ts
                                  && resp.confidence == SpeechCount(rs) as real / |rs| as real
  {
  }

  /** An end only from speech on a minority of speech frames; its duration is the time since the start. */
  lemma DecidedEnd(s: Session, rs: seq<FrameResult>, ts: int)
    ensures var (next, resp) := Decided(s, rs, ts);
            resp.SpeechEnd? <==> rs != [] && !MostlySpeech(rs) && s.isSpeaking
    ensures var (next, resp) := Decided(s, rs, ts);
            resp.SpeechEnd? ==> !next.isSpeaking && next.speechEndTime == ts
                                && resp.durationMs == ts - s.speechStartTime
  {
  }

  /** With no complete frame in the chunk nothing changes and an update reports the current state. */
  lemma DecidedWithoutFrames(s: Session, ts: int)
    ensures Decided(s, [], ts) == (s, VadUpdate(ts, s.isSpeaking, s.id))
  {
  }

  /** Undecodable audio is an error that changes nothing but the activity time. */
  lemma InvalidAudioChangesOnlyActivity(s: Session, now: int, o: Oracles)
    requires SessionValid(s)
    ensures ChunkProcessed(s, None, now, o) == (s.(lastActivity := now), InvalidAudio)
  {
  }

  /** A chunk shorter than one frame processes nothing and reports the unchanged speaking state. */
  lemma ShortChunkIsUpdate(s: Session, data: seq<byte>, now: int, o: Oracles)
    requires SessionValid(s) && |data| < s.frameSize
    ensures ChunkProcessed(s, Some(data), now, o) == (s.(lastActivity := now), VadUpdate(now, s.isSpeaking, s.id))
  {
    assert FrameEnd(0, s.frameSize) > |data|;
  }

  /** A chunk changes neither the session's id nor its configuration, and always reports that id. */
  lemma ChunkKeepsIdentity(s: Session, decoded: Option<seq<byte>>, now: int, o: Oracles)
    requires SessionValid(s)
    ensures var (next, resp) := ChunkProcessed(s, decoded, now, o);
            && next.id == s.id && next.config == s.config && next.frameSize == s.frameSize
            && (resp.InvalidAudio? || resp.sessionId == s.id)
  {
    if decoded.Some? {
      FramesRunCounts(s.(lastActivity := now), decoded.value, 0, s.frameSize, now, o);
    }
  }

  // ---------------------------------------------------------------- configuration updates

  /** `update_vad_config({})` changes nothing. */
  lemma NoChangesKeepSession(s: Session, now: int)
    requires SessionValid(s)
    ensures VadConfigUpdated(s, NoChanges, now) == (s, Done)
  {
    assert MergeSessionConfig(s.config, NoChanges) == s.config;
  }

  /**
   * `update_vad_config` raises exactly when WebRTC's detector is to be
   * recreated with a mode outside 0..3, or when a sample rate is given,
   * Silero is (now) enabled and the session never created a Silero
   * detector. A rejected mode comes first and leaves everything but the
   * merged keys as it was; a missing Silero detector leaves the keys merged
   * and WebRTC's detector recreated, and nothing else changed.
   */
  lemma VadConfigUpdateFails(s: Session, p: SessionPatch, now: int)
    requires SessionValid(s)
    ensures var (next, status) := VadConfigUpdated(s, p, now);
            var c := MergeSessionConfig(s.config, p);
            && (status.Error? <==> RejectedMode(c, p) || (p.sampleRate.Some? && c.useSileroVad && s.silero.None?))
            && (RejectedMode(c, p) ==> status == Error(InvalidModeMessage) && next == s.(config := c))
            && (status.Error? && !RejectedMode(c, p) ==> status == Error(NoSileroMessage))
            && (status.Error? ==> next.detector == s.detector && next.silero == s.silero)
  {
  }

  /**
   * A successful `update_vad_config`: the keys are merged; WebRTC's detector
   * follows a new aggressiveness (which success implies is a valid mode),
   * Silero's a new sample rate, the energy detector a new sensitivity
   * factor, and `recalibrate` restarts its calibration; the speech state,
   * the frame history and the counters are kept.
   */
  lemma VadConfigUpdateApplies(s: Session, p: SessionPatch, now: int)
    requires SessionValid(s)
    ensures var (next, status) := VadConfigUpdated(s, p, now);
            var c := MergeSessionConfig(s.config, p);
            status == Done ==>
              && next.config == c
              && (p.aggressiveness.Some? && c.useWebrtcVad ==> ValidMode(c.aggressiveness) && next.webrtc == Some(c.aggressiveness))
              && (p.aggressiveness.None? || !c.useWebrtcVad ==> next.webrtc == s.webrtc)
              && (p.sampleRate.Some? && c.useSileroVad ==> next.silero.Some? && next.silero.value.config.sampleRate == c.sampleRate)
              && (p.sampleRate.None? || !c.useSileroVad ==> next.silero == s.silero)
              && (p.initialSensitivityFactor.Some? ==> next.detector.sensitivityFactor == p.initialSensitivityFactor.value)
              && (p.recalibrate == Some(true) ==> next.detector.isCalibrating && next.detector.samples == [])
              && (p.initialSensitivityFactor.None? && p.recalibrate != Some(true) ==> next.detector == s.detector)
              && next.isSpeaking == s.isSpeaking && next.frames == s.frames
              && next.totalFrames == s.totalFrames && next.speechFrames == s.speechFrames
              && next.id == s.id && next.frameSize == s.frameSize
  {
  }

  // ---------------------------------------------------------------- sequences of session operations

  /** The operations that change a session. */
  datatype SessionOp =
    | Chunk(decoded: Option<seq<byte>>, now: int)
    | Configure(patch: SessionPatch, now: int)
    | Recalibrate(now: int)
    | Touch(now: int)

  /** One operation: the next state and the responses it returned. */
  function Apply(s: Session, op: SessionOp, o: Oracles): (r: (Session, seq<ChunkResponse>))
    requires SessionValid(s)
    ensures SessionValid(r.0)
  {
    match op
    case Chunk(decoded, now) =>
      var (next, resp) := ChunkProcessed(s, decoded, now, o);
      (next, [resp])
    case Configure(patch, now) => (VadConfigUpdated(s, patch, now).0, [])
    case Recalibrate(now) => (s.(detector := AA.StartedCalibration(s.detector, now)), [])
    case Touch(now) => (s.(lastActivity := now), [])
  }

  function Run(s: Session, ops: seq<SessionOp>, o: Oracles): (r: Session)
    requires SessionValid(s)
    ensures SessionValid(r)
    decreases |ops|
  {
    if ops == [] then s else Run(Apply(s, ops[0], o).0, ops[1..], o)
  }

  /** Every response returned while performing `ops`, in order. */
  function RunResponses(s: Session, ops: seq<SessionOp>, o: Oracles): seq<ChunkResponse>
    requires SessionValid(s)
    decreases |ops|
  {
    if ops == [] then []
    else
      var (next, rs) := Apply(s, ops[0], o);
      rs + RunResponses(next, ops[1..], o)
  }

  /** The speech-start and speech-end responses among `rs`, in order. */
  function SpeechEvents(rs: seq<ChunkResponse>): (evs: seq<ChunkResponse>)
    ensures forall k :: 0 <= k < |evs| ==> evs[k].SpeechStart? || evs[k].SpeechEnd?
  {
    if rs == [] then []
    else (if rs[0].SpeechStart? || rs[0].SpeechEnd? then [rs[0]] else []) + SpeechEvents(rs[1..])
  }

  /** Whether a session is speaking, and since when. */
  datatype Speech = Speech(speaking: bool, since: int)

  function SpeechOf(s: Session): Speech {
    Speech(s.isSpeaking, s.speechStartTime)
  }

  /**
   * `evs` take the speech state from `from` to `to`: a start only while
   * silent, an end only while speaking, strictly alternating, and each end
   * lasting from the start before it.
   */
  predicate Alternating(evs: seq<ChunkResponse>, from: Speech, to: Speech)
    decreases |evs|
  {
    if evs == [] then from == to
    else if from.speaking then
      evs[0].SpeechEnd? && evs[0].durationMs == evs[0].timestamp - from.since
      && Alternating(evs[1..], Speech(false, from.since), to)
    else
      evs[0].SpeechStart? && Alternating(evs[1..], Speech(true, evs[0].timestamp), to)
  }

  /** The decision's events are the change of the speech state it makes. */
  lemma DecidedAlternates(s: Session, rs: seq<FrameResult>, ts: int)
    ensures var (next, resp) := Decided(s, rs, ts);
            Alternating(SpeechEvents([resp]), SpeechOf(s), SpeechOf(next))
  {
    var (next, resp) := Decided(s, rs, ts);
    assert [resp][1..] == [];
    if resp.SpeechStart? || resp.SpeechEnd? {
      assert SpeechEvents([resp]) == [resp];
    } else {
      assert SpeechEvents([resp]) == [];
    }
  }

  /** One operation's events are the change of the speech state it makes. */
  lemma ApplyAlternates(s: Session, op: SessionOp, o: Oracles)
    requires SessionValid(s)
    ensures var (next, rs) := Apply(s, op, o);
            Alternating(SpeechEvents(rs), SpeechOf(s), SpeechOf(next))
  {
    match op
    case Chunk(decoded, now) =>
      var active := s.(lastActivity := now);
      if decoded.Some? {
        var run := FramesRun(active, decoded.value, 0, s.frameSize, now, o);
        DecidedAlternates(run.0, run.1, now);
      } else {
        assert SpeechEvents([InvalidAudio]) == [];
      }
    case Configure(patch, now) =>
      assert SpeechEvents([]) == [];
    case Recalibrate(now) =>
    case Touch(now) =>
  }

  lemma {:induction false} SpeechEventsAppend(a: seq<ChunkResponse>, b: seq<ChunkResponse>)
    ensures SpeechEvents(a + b) == SpeechEvents(a) + SpeechEvents(b)
    decreases |a|
  {
    if a == [] {
      assert a + b == b;
    } else {
      assert (a + b)[1..] == a[1..] + b;
      SpeechEventsAppend(a[1..], b);
    }
  }

  lemma {:induction false} AlternatingAppend(x: seq<ChunkResponse>, y: seq<ChunkResponse>, a: Speech, b: Speech, c: Speech)
    requires Alternating(x, a, b) && Alternating(y, b, c)
    ensures Alternating(x + y, a, c)
    decreases |x|
  {
    if x == [] {
      assert x + y == y;
    } else {
      assert (x + y)[1..] == x[1..] + y;
      if a.speaking {
        AlternatingAppend(x[1..], y, Speech(false, a.since), b, c);
      } else {
        AlternatingAppend(x[1..], y, Speech(true, x[0].timestamp), b, c);
      }
    }
  }

  /**
   * Over any sequence of chunks and configuration changes the speech-start
   * and speech-end events strictly alternate, and every end reports the time
   * since the start before it.
   */
  lemma {:induction false} ChunkEventsAlternate(s: Session, ops: seq<SessionOp>, o: Oracles)
    requires SessionValid(s)
    ensures Alternating(SpeechEvents(RunResponses(s, ops, o)), SpeechOf(s), SpeechOf(Run(s, ops, o)))
    decreases |ops|
  {
    if ops == [] {
      assert RunResponses(s, ops, o) == [];
    } else {
      var (next, rs) := Apply(s, ops[0], o);
      ApplyAlternates(s, ops[0], o);
      ChunkEventsAlternate(next, ops[1..], o);
      SpeechEventsAppend(rs, RunResponses(next, ops[1..], o));
      AlternatingAppend(SpeechEvents(rs), SpeechEvents(RunResponses(next, ops[1..], o)),
                        SpeechOf(s), SpeechOf(next), SpeechOf(Run(s, ops, o)));
    }
  }

  /** A new session is silent, so its first speech event, if any, is a start. */
  lemma FirstChunkEventIsStart(id: string, c: SessionConfig, now: int, o: Oracles, ops: seq<SessionOp>)
    requires FrameSize(c) > 0
    ensures var evs := SpeechEvents(RunResponses(NewSession(id, c, now, o), ops, o));
            evs != [] ==> evs[0].SpeechStart?
  {
    ChunkEventsAlternate(NewSession(id, c, now, o), ops, o);
  }
}
