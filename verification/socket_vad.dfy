/**
 * One client's voice-activity session, after `UserSession` in
 * backend/socket_vad_service.py. A chunk of PCM bytes is cut into fixed-size
 * frames; each frame is judged by up to three detectors (the adaptive energy
 * detector, WebRTC's VAD and Silero), whose votes are combined as a weighted
 * average; a majority of speech frames in the chunk turns the session's
 * speaking state on, a minority turns it off.
 *
 * What the model cannot see is passed in as `Oracles`: the RMS level of a
 * frame, WebRTC's vote, the standard deviation the energy detector uses and
 * the Silero model (with whether loading it succeeds, the same for every
 * attempt a session makes).
 */
module SocketVad {
  import opened Common
  import AA = AudioAnalysis
  import SV = SileroVad

  /** The computations the sessions take as given. */
  datatype Oracles = Oracles(
    rmsOf: seq<byte> -> real,
    webrtcVote: (seq<byte>, int, int) -> bool,
    stdevOf: seq<real> -> real,
    hubLoads: bool,
    model: (seq<real>, int) -> real)

  // ---------------------------------------------------------------- configuration

  /** The configuration keys the session logic reads (`buffer_size` is unused and `debug` only prints). */
  datatype SessionConfig = SessionConfig(
    sampleRate: int,
    frameDurationMs: int,
    aggressiveness: int,
    useWebrtcVad: bool,
    useRmsVad: bool,
    useSileroVad: bool,
    webrtcWeight: real,
    rmsWeight: real,
    sileroWeight: real,
    sessionTimeoutMs: int)

  const DefaultSessionConfig := SessionConfig(16000, 30, 2, true, true, true, 0.4, 0.2, 0.4, 300000)

  /**
   * A partial configuration, as passed to the service and to
   * `update_vad_config`; the last two keys are only read by the latter.
   */
  datatype SessionPatch = SessionPatch(
    sampleRate: Option<int>,
    frameDurationMs: Option<int>,
    aggressiveness: Option<int>,
    useWebrtcVad: Option<bool>,
    useRmsVad: Option<bool>,
    useSileroVad: Option<bool>,
    webrtcWeight: Option<real>,
    rmsWeight: Option<real>,
    sileroWeight: Option<real>,
    sessionTimeoutMs: Option<int>,
    initialSensitivityFactor: Option<real>,
    recalibrate: Option<bool>)

  /** A patch with no keys. */
  const NoChanges := SessionPatch(None, None, None, None, None, None, None, None, None, None, None, None)

  function MergeSessionConfig(c: SessionConfig, p: SessionPatch): (r: SessionConfig)
    ensures p == NoChanges ==> r == c
  {
    SessionConfig(
      p.sampleRate.GetOr(c.sampleRate),
      p.frameDurationMs.GetOr(c.frameDurationMs),
      p.aggressiveness.GetOr(c.aggressiveness),
      p.useWebrtcVad.GetOr(c.useWebrtcVad),
      p.useRmsVad.GetOr(c.useRmsVad),
      p.useSileroVad.GetOr(c.useSileroVad),
      p.webrtcWeight.GetOr(c.webrtcWeight),
      p.rmsWeight.GetOr(c.rmsWeight),
      p.sileroWeight.GetOr(c.sileroWeight),
      p.sessionTimeoutMs.GetOr(c.sessionTimeoutMs))
  }

  /** Python's `int()` of a quotient: division truncating toward zero. */
  function TruncDiv(a: int, b: int): (q: int)
    requires b > 0
    ensures a >= 0 ==> 0 <= q && q * b <= a < (q + 1) * b
    ensures a < 0 ==> q <= 0 && (q - 1) * b < a <= q * b
  {
    var n := if a >= 0 then a else -a;
    DivBracket(n, b);
    if a >= 0 then n / b else -(n / b)
  }

  /** Euclidean division of a non-negative number brackets it between consecutive multiples of the divisor. */
  lemma DivBracket(n: int, b: int)
    requires n >= 0 && b > 0
    ensures 0 <= n / b && (n / b) * b <= n < (n / b) * b + b
    ensures (-(n / b)) * b == -((n / b) * b) && (-(n / b) - 1) * b == -((n / b) * b) - b
    ensures (n / b + 1) * b == (n / b) * b + b
  {
    var k := n / b;
    assert n == k * b + n % b;
  }

  /** Bytes per frame: sample rate times frame duration in seconds times two bytes per sample, truncated. */
  function FrameSize(c: SessionConfig): (n: int)
    ensures c.sampleRate >= 0 && c.frameDurationMs >= 0 ==>
              n >= 0 && n * 1000 <= c.sampleRate * c.frameDurationMs * 2 < (n + 1) * 1000
  {
    TruncDiv(c.sampleRate * c.frameDurationMs * 2, 1000)
  }

  // ---------------------------------------------------------------- the ensemble

  function Vote(enabled: bool, vote: bool, weight: real): real {
    if enabled && vote then weight else 0.0
  }

  function Weight(enabled: bool, weight: real): real {
    if enabled then weight else 0.0
  }

  /** The total weight of the detectors the configuration enables. */
  function TotalWeight(c: SessionConfig): real {
    Weight(c.useRmsVad, c.rmsWeight) + Weight(c.useWebrtcVad, c.webrtcWeight) + Weight(c.useSileroVad, c.sileroWeight)
  }

  /** The weight of the enabled detectors that voted for speech. */
  function WeightedVotes(c: SessionConfig, rms: bool, webrtc: bool, silero: bool): real {
    Vote(c.useRmsVad, rms, c.rmsWeight) + Vote(c.useWebrtcVad, webrtc, c.webrtcWeight)
      + Vote(c.useSileroVad, silero, c.sileroWeight)
  }

  /** The ensemble's verdict and score: the weighted share of speech votes against 0.5, or the RMS vote when nothing carries weight. */
  datatype Verdict = Verdict(isSpeech: bool, score: real)

  function Ensemble(c: SessionConfig, rms: bool, webrtc: bool, silero: bool): (v: Verdict)
    ensures TotalWeight(c) <= 0.0 ==> v == Verdict(rms, 0.0)
    ensures TotalWeight(c) > 0.0 ==> (v.isSpeech <==> v.score > 0.5)
  {
    var total := TotalWeight(c);
    if total > 0.0 then
      var score := WeightedVotes(c, rms, webrtc, silero) / total;
      Verdict(score > 0.5, score)
    else
      Verdict(rms, 0.0)
  }

  // ---------------------------------------------------------------- frames

  /** The record kept for each processed frame. */
  datatype AudioFrame = AudioFrame(
    data: seq<byte>,
    rmsLevel: real,
    timestamp: int,
    isSpeechRms: bool,
    isSpeechWebrtc: bool,
    isSpeechSilero: bool,
    isSpeechEnsemble: bool)

  /** What `_process_frame` returns. */
  datatype FrameResult = FrameResult(
    rmsLevel: real,
    isSpeechRms: bool,
    isSpeechWebrtc: bool,
    isSpeechSilero: bool,
    sileroConfidence: real,
    isSpeech: bool,
    ensembleScore: real,
    timestamp: int)

  const MaxFrames: nat := 100

  /** One `pop(0)` when the history is full, then the new frame at the end. */
  function PushFrame(frames: seq<AudioFrame>, f: AudioFrame): (r: seq<AudioFrame>)
    ensures |r| == (if |frames| >= MaxFrames then |frames| else |frames| + 1)
  {
    if |frames| >= MaxFrames then frames[1..] + [f] else frames + [f]
  }

  // ---------------------------------------------------------------- session state

  /** The state of one `UserSession`, with its detectors' states. */
  datatype Session = Session(
    id: string,
    createdAt: int,
    lastActivity: int,
    config: SessionConfig,
    detector: AA.Detector,
    webrtc: Option<int>,
    silero: Option<SV.Silero>,
    isSpeaking: bool,
    speechStartTime: int,
    speechEndTime: int,
    frames: seq<AudioFrame>,
    totalFrames: nat,
    speechFrames: nat,
    frameSize: nat)

  /**
   * What every reachable session satisfies: the detectors' own invariants, a
   * frame history of at most `MaxFrames`, no more speech frames than frames,
   * and a positive frame size.
   */
  predicate SessionValid(s: Session) {
    && AA.WellFormed(s.detector)
    && (s.silero.Some? ==> SV.SileroValid(s.silero.value))
    && |s.frames| <= MaxFrames
    && s.speechFrames <= s.totalFrames
    && s.frameSize > 0
  }

  /** The configuration a session gives its Silero detector. */
  function SileroPatchFor(c: SessionConfig): SV.SileroPatch {
    SV.SileroPatch(Some(c.sampleRate), None, None, None)
  }

  /**
   * `UserSession(session_id, config)` at time `now`: the detectors the
   * configuration enables, not speaking, no frames, and the frame size.
   */
  function NewSession(id: string, c: SessionConfig, now: int, o: Oracles): (s: Session)
    requires FrameSize(c) > 0
    ensures SessionValid(s) && s.id == id && s.config == c && s.frameSize == FrameSize(c)
    ensures !s.isSpeaking && s.frames == [] && s.totalFrames == 0 && s.speechFrames == 0
    ensures s.lastActivity == now
    ensures s.webrtc.Some? <==> c.useWebrtcVad
    ensures s.silero.Some? <==> c.useSileroVad
  {
    Session(id, now, now, c,
            AA.Initial(AA.MergeConfig(AA.DefaultConfig, AA.EmptyPatch), now),
            if c.useWebrtcVad then Some(c.aggressiveness) else None,
            if c.useSileroVad then Some(SV.Created(SileroPatchFor(c), o.hubLoads)) else None,
            false, 0, 0, [], 0, 0, FrameSize(c))
  }

  /** `is_expired()` at time `now`: inactive for longer than the timeout. */
  predicate Expired(s: Session, now: int)
    ensures s.lastActivity >= now && s.config.sessionTimeoutMs >= 0 ==> !Expired(s, now)
  {
    now - s.lastActivity > s.config.sessionTimeoutMs
  }

  /** Silero's verdict on a frame: its new state, its vote and its confidence (a detector it lacks votes no). */
  datatype SileroOutcome = SileroOutcome(state: Option<SV.Silero>, isSpeech: bool, confidence: real)

  function SileroJudged(s: Session, frame: seq<byte>, o: Oracles): (r: SileroOutcome)
    requires SessionValid(s)
    ensures r.state.Some? <==> s.silero.Some?
    ensures r.state.Some? ==> SV.SileroValid(r.state.value)
    ensures !(s.silero.Some? && |frame| == s.frameSize) ==> r == SileroOutcome(s.silero, false, 0.0)
  {
    if s.silero.Some? && |frame| == s.frameSize then
      var p := SV.Processed(s.silero.value, SV.Pcm16(frame), o.hubLoads, o.model);
      SileroOutcome(Some(p.0), p.1.Speech(), p.1.Confidence())
    else
      SileroOutcome(s.silero, false, 0.0)
  }

  /** WebRTC's vote on a frame: only a session that has the detector and only on a full frame. */
  function WebrtcJudged(s: Session, frame: seq<byte>, o: Oracles): (speech: bool)
    ensures speech ==> s.webrtc.Some? && |frame| == s.frameSize
  {
    s.webrtc.Some? && |frame| == s.frameSize && o.webrtcVote(frame, s.config.sampleRate, s.webrtc.value)
  }

  /**
   * `_process_frame(frame, timestamp)`: the frame is counted, its RMS level
   * goes to the energy detector, WebRTC and Silero vote, the ensemble decides,
   * and the frame joins the history.
   */
  function FrameProcessed(s: Session, frame: seq<byte>, ts: int, o: Oracles): (r: (Session, FrameResult))
    requires SessionValid(s)
    ensures SessionValid(r.0)
    ensures r.0 == s.(totalFrames := r.0.totalFrames, detector := r.0.detector, silero := r.0.silero,
                      frames := r.0.frames, speechFrames := r.0.speechFrames)
  {
    var level := o.rmsOf(frame);
    var analysed := Analysed(s, level, ts, o);
    var webrtc := WebrtcJudged(s, frame, o);
    var silero := SileroJudged(s, frame, o);
    var v := Ensemble(s.config, analysed.1.isSpeech, webrtc, silero.isSpeech);
    var f := AudioFrame(frame, level, ts, analysed.1.isSpeech, webrtc, silero.isSpeech, v.isSpeech);
    (Recorded(analysed.0.(silero := silero.state), f),
     FrameResult(level, analysed.1.isSpeech, webrtc, silero.isSpeech, silero.confidence, v.isSpeech, v.score, ts))
  }

  /** The frame is counted and its level goes to the energy detector, whose verdict is the RMS vote. */
  function Analysed(s: Session, level: real, ts: int, o: Oracles): (r: (Session, AA.AnalysisResult))
    requires SessionValid(s)
    ensures SessionValid(r.0)
    ensures r.0 == s.(totalFrames := s.totalFrames + 1, detector := r.0.detector)
  {
    var step := AA.SampleAdded(s.detector, level, Some(ts), ts, o.stdevOf);
    (s.(totalFrames := s.totalFrames + 1, detector := step.next), step.result)
  }

  /** The frame joins the bounded history and, when the ensemble said speech, the speech count. */
  function Recorded(s: Session, f: AudioFrame): (r: Session)
    requires SessionValid(s) && s.speechFrames < s.totalFrames
    ensures SessionValid(r)
    ensures r == s.(frames := PushFrame(s.frames, f), speechFrames := r.speechFrames)
    ensures r.speechFrames == if f.isSpeechEnsemble then s.speechFrames + 1 else s.speechFrames
  {
    s.(frames := PushFrame(s.frames, f), speechFrames := if f.isSpeechEnsemble then s.speechFrames + 1 else s.speechFrames)
  }

  /** The byte just past the frame of `size` bytes that starts at byte `i`. */
  function FrameEnd(i: nat, size: nat): nat {
    i + size
  }

  /**
   * The frame loop over `data` from byte `i` on: each complete frame of
   * `size` bytes is processed in turn, with its result in order; a trailing
   * partial frame is skipped.
   */
  function FramesRun(s: Session, data: seq<byte>, i: nat, size: nat, ts: int, o: Oracles): (r: (Session, seq<FrameResult>))
    requires SessionValid(s) && size > 0
    ensures SessionValid(r.0)
    ensures r.0 == s.(totalFrames := r.0.totalFrames, detector := r.0.detector, silero := r.0.silero,
                      frames := r.0.frames, speechFrames := r.0.speechFrames)
    ensures FrameEnd(i, size) > |data| ==> r == (s, [])
    decreases |data| - i, 1
  {
    if FrameEnd(i, size) > |data| then (s, []) else FramesFrom(s, data, i, size, ts, o)
  }

  /** The frame loop from byte `i` on, when a complete frame starts there. */
  function FramesFrom(s: Session, data: seq<byte>, i: nat, size: nat, ts: int, o: Oracles): (r: (Session, seq<FrameResult>))
    requires SessionValid(s) && size > 0 && FrameEnd(i, size) <= |data|
    ensures SessionValid(r.0)
    ensures r.0 == s.(totalFrames := r.0.totalFrames, detector := r.0.detector, silero := r.0.silero,
                      frames := r.0.frames, speechFrames := r.0.speechFrames)
    decreases |data| - i, 0
  {
    var j := FrameEnd(i, size);
    var first := FrameProcessed(s, data[i..j], ts, o);
    var rest := FramesRun(first.0, data, j, size, ts, o);
    (rest.0, [first.1] + rest.1)
  }

  /** The frame loop from byte `i` is the frame that starts there, then the loop from the next frame on. */
  lemma FramesRunStep(s: Session, data: seq<byte>, i: nat, size: nat, ts: int, o: Oracles,
                      next: Session, r: FrameResult, done: seq<FrameResult>)
    requires SessionValid(s) && size > 0 && FrameEnd(i, size) <= |data|
    requires (next, r) == FrameProcessed(s, data[i..FrameEnd(i, size)], ts, o)
    ensures SessionValid(next)
    ensures FramesRun(s, data, i, size, ts, o).0 == FramesRun(next, data, FrameEnd(i, size), size, ts, o).0
    ensures done + FramesRun(s, data, i, size, ts, o).1 == (done + [r]) + FramesRun(next, data, FrameEnd(i, size), size, ts, o).1
  {
    var rest := FramesRun(next, data, FrameEnd(i, size), size, ts, o);
    assert FramesRun(s, data, i, size, ts, o) == FramesFrom(s, data, i, size, ts, o) == (rest.0, [r] + rest.1);
    assert done + ([r] + rest.1) == (done + [r]) + rest.1;
  }

  /** The number of results that judged their frame to be speech. */
  function SpeechCount(rs: seq<FrameResult>): (n: nat)
    ensures n <= |rs|
  {
    if rs == [] then 0 else (if rs[0].isSpeech then 1 else 0) + SpeechCount(rs[1..])
  }

  // ---------------------------------------------------------------- chunks

  /** What `process_audio_chunk` (and the service's `process_audio`) returns. */
  datatype ChunkResponse =
    | InvalidAudio
    | SpeechStart(timestamp: int, confidence: real, sessionId: string)
    | SpeechEnd(timestamp: int, durationMs: int, sessionId: string)
    | VadUpdate(timestamp: int, isSpeaking: bool, sessionId: string)
    | SessionNotFound(sessionId: string)
  {
    /** The `error` key of the two error responses. */
    function ErrorMessage(): (m: string)
      requires InvalidAudio? || SessionNotFound?
      ensures InvalidAudio? ==> m == "Invalid audio data format"
      ensures SessionNotFound? ==> |m| == |sessionId| + 18 && m[8..8 + |sessionId|] == sessionId
    {
      if InvalidAudio? then "Invalid audio data format" else "Session " + sessionId + " not found"
    }
  }

  /** The chunk's speech ratio is above one half. */
  predicate MostlySpeech(rs: seq<FrameResult>)
    requires rs != []
  {
    SpeechCount(rs) as real / |rs| as real > 0.5
  }

  /**
   * The end of `process_audio_chunk`: a speaking state that the chunk's
   * majority contradicts flips, with a start or an end event; otherwise an
   * update reports the unchanged state.
   */
  function Decided(s: Session, rs: seq<FrameResult>, ts: int): (r: (Session, ChunkResponse))
    ensures r.1.SpeechStart? || r.1.SpeechEnd? || r.1.VadUpdate?
    ensures r.1.VadUpdate? ==> r.0 == s && r.1 == VadUpdate(ts, s.isSpeaking, s.id)
    ensures r.0 == s.(isSpeaking := r.0.isSpeaking, speechStartTime := r.0.speechStartTime,
                      speechEndTime := r.0.speechEndTime)
  {
    if rs != [] && MostlySpeech(rs) && !s.isSpeaking then
      (s.(isSpeaking := true, speechStartTime := ts),
       SpeechStart(ts, SpeechCount(rs) as real / |rs| as real, s.id))
    else if rs != [] && !MostlySpeech(rs) && s.isSpeaking then
      (s.(isSpeaking := false, speechEndTime := ts), SpeechEnd(ts, ts - s.speechStartTime, s.id))
    else
      (s, VadUpdate(ts, s.isSpeaking, s.id))
  }

  /**
   * `process_audio_chunk(audio_data)` at time `now`, given the outcome of
   * base64 decoding: the activity time is refreshed; undecodable data is an
   * error; otherwise every complete frame is processed and the majority decides.
   */
  function ChunkProcessed(s: Session, decoded: Option<seq<byte>>, now: int, o: Oracles): (r: (Session, ChunkResponse))
    requires SessionValid(s)
    ensures SessionValid(r.0) && r.0.lastActivity == now
  {
    var active := s.(lastActivity := now);
    match decoded
    case None => (active, InvalidAudio)
    case Some(data) =>
      var run := FramesRun(active, data, 0, s.frameSize, now, o);
      Decided(run.0, run.1, now)
  }

  /** The message Python raises when `update_vad_config` reaches a Silero detector the session never created. */
  const NoSileroMessage := "'NoneType' object has no attribute 'update_config'"

  /** The `ValueError` `webrtcvad.Vad` raises for a mode it does not know (the library's exact text is not part of this model). */
  const InvalidModeMessage := "invalid webrtcvad mode"

  /** The aggressiveness modes `webrtcvad.Vad` accepts. */
  predicate ValidMode(a: int) {
    0 <= a <= 3
  }

  /** Whether a patch makes `update_vad_config` recreate WebRTC's detector with a mode the library rejects; `c` is the merged configuration. */
  predicate RejectedMode(c: SessionConfig, p: SessionPatch) {
    p.aggressiveness.Some? && c.useWebrtcVad && !ValidMode(c.aggressiveness)
  }

  /**
   * `update_vad_config(config)` at time `now`: the keys are merged; a new
   * aggressiveness recreates WebRTC's detector (an error, after the merge,
   * for a mode outside 0..3), a new sample rate reaches Silero (an error
   * when the session has none), the sensitivity factor reaches the energy
   * detector, and `recalibrate` restarts its calibration.
   */
  function VadConfigUpdated(s: Session, p: SessionPatch, now: int): (r: (Session, Status))
    requires SessionValid(s)
    ensures SessionValid(r.0) && r.0.config == MergeSessionConfig(s.config, p)
  {
    var s1 := ConfigMerged(s, p);
    if RejectedMode(s1.config, p) then
      (s1, Error(InvalidModeMessage))
    else if p.sampleRate.Some? && s1.config.useSileroVad && s1.silero.None? then
      (s1, Error(NoSileroMessage))
    else
      (Recalibrated(Sensitized(SileroRated(s1, p), p), p, now), Done)
  }

  /**
   * The keys are merged, and a new aggressiveness recreates WebRTC's
   * detector when it is enabled and the library accepts the mode; when it
   * rejects it, the old detector stays.
   */
  function ConfigMerged(s: Session, p: SessionPatch): (r: Session)
    requires SessionValid(s)
    ensures SessionValid(r) && r == s.(config := MergeSessionConfig(s.config, p), webrtc := r.webrtc)
    ensures r.webrtc == if p.aggressiveness.Some? && r.config.useWebrtcVad && ValidMode(r.config.aggressiveness)
                        then Some(r.config.aggressiveness) else s.webrtc
  {
    var c := MergeSessionConfig(s.config, p);
    s.(config := c, webrtc := if p.aggressiveness.Some? && c.useWebrtcVad && ValidMode(c.aggressiveness)
                              then Some(c.aggressiveness) else s.webrtc)
  }

  /** A new sample rate reaches Silero when it is enabled. */
  function SileroRated(s: Session, p: SessionPatch): (r: Session)
    requires SessionValid(s) && (p.sampleRate.Some? && s.config.useSileroVad ==> s.silero.Some?)
    ensures SessionValid(r) && r == s.(silero := r.silero)
  {
    if p.sampleRate.Some? && s.config.useSileroVad
    then s.(silero := Some(SV.SileroConfigUpdated(s.silero.value, SileroPatchFor(s.config))))
    else s
  }

  /** A new sensitivity factor reaches the energy detector. */
  function Sensitized(s: Session, p: SessionPatch): (r: Session)
    requires SessionValid(s)
    ensures SessionValid(r) && r == s.(detector := r.detector)
  {
    if p.initialSensitivityFactor.Some?
    then s.(detector := AA.ConfigUpdated(s.detector, SensitivityPatch(p)))
    else s
  }

  /** `recalibrate` restarts the energy detector's calibration. */
  function Recalibrated(s: Session, p: SessionPatch, now: int): (r: Session)
    requires SessionValid(s)
    ensures SessionValid(r) && r == s.(detector := r.detector)
  {
    if p.recalibrate == Some(true)
    then s.(detector := AA.StartedCalibration(s.detector, now))
    else s
  }

  /** The part of a session patch that is passed on to the energy detector. */
  function SensitivityPatch(p: SessionPatch): AA.ConfigPatch {
    AA.EmptyPatch.(initialSensitivityFactor := p.initialSensitivityFactor)
  }

  // ---------------------------------------------------------------- the session object

  /** `UserSession`. */
  class UserSession {
    const id: string
    const createdAt: int
    var lastActivity: int
    var config: SessionConfig
    const audio: AA.AudioAnalysisService
    var webrtc: Option<int>
    const silero: SV.SileroVadService?
    var isSpeaking: bool
    var speechStartTime: int
    var speechEndTime: int
    var frames: seq<AudioFrame>
    var totalFrames: nat
    var speechFrames: nat
    const frameSize: nat
    const oracles: Oracles
    ghost var Repr: set<object>

    function State(): Session
      reads this, audio, silero
    {
      Session(id, createdAt, lastActivity, config, audio.State(), webrtc,
              if silero == null then None else Some(silero.State()),
              isSpeaking, speechStartTime, speechEndTime, frames, totalFrames, speechFrames, frameSize)
    }

    ghost predicate Valid()
      reads this, audio, silero
    {
      && this in Repr && audio in Repr && (silero != null ==> silero in Repr)
      && Repr <= {this, audio, silero}
      && audio.Valid() && audio.stdevOf == oracles.stdevOf
      && (silero != null ==> silero.Valid() && silero.model == oracles.model)
      && SessionValid(State())
    }

    /** `UserSession(session_id, config)` at time `now`. */
    constructor (id: string, c: SessionConfig, now: int, oracles: Oracles)
      requires FrameSize(c) > 0
      ensures Valid() && fresh(Repr) && State() == NewSession(id, c, now, oracles) && this.oracles == oracles
    {
      this.id := id;
      createdAt := now;
      lastActivity := now;
      config := c;
      audio := new AA.AudioAnalysisService(AA.EmptyPatch, now, oracles.stdevOf);
      webrtc := if c.useWebrtcVad then Some(c.aggressiveness) else None;
      var s: SV.SileroVadService? := null;
      if c.useSileroVad {
        s := new SV.SileroVadService(SileroPatchFor(c), oracles.hubLoads, oracles.model);
      }
      silero := s;
      isSpeaking := false;
      speechStartTime := 0;
      speechEndTime := 0;
      frames := [];
      totalFrames := 0;
      speechFrames := 0;
      frameSize := FrameSize(c);
      this.oracles := oracles;
      new;
      if s == null {
        Repr := {this, audio};
      } else {
        Repr := {this, audio, s};
      }
    }

    /** `is_expired()` at time `now`. */
    predicate IsExpired(now: int)
      reads this
      ensures lastActivity >= now && config.sessionTimeoutMs >= 0 ==> !IsExpired(now)
    {
      now - lastActivity > config.sessionTimeoutMs
    }

    /** `update_activity()` at time `now`. */
    method UpdateActivity(now: int)
      requires Valid()
      modifies this
      ensures Valid() && State() == old(State()).(lastActivity := now)
    {
      lastActivity := now;
    }

    /** `_process_frame(frame_data, timestamp)`. */
    method ProcessFrame(frame: seq<byte>, ts: int) returns (r: FrameResult)
      requires Valid()
      modifies this, audio, silero
      ensures Valid()
      ensures (State(), r) == FrameProcessed(old(State()), frame, ts, oracles)
    {
      var level := oracles.rmsOf(frame);
      var webrtcVote := webrtc.Some? && |frame| == frameSize && oracles.webrtcVote(frame, config.sampleRate, webrtc.value);
      var analysis := AnalyseLevel(level, ts);
      var sileroVote, confidence := JudgeWithSilero(frame);
      var v := Ensemble(config, analysis.isSpeech, webrtcVote, sileroVote);
      RecordFrame(AudioFrame(frame, level, ts, analysis.isSpeech, webrtcVote, sileroVote, v.isSpeech));
      r := FrameResult(level, analysis.isSpeech, webrtcVote, sileroVote, confidence, v.isSpeech, v.score, ts);
    }

    /** The frame is counted and its RMS level handed to the energy detector. */
    method AnalyseLevel(level: real, ts: int) returns (result: AA.AnalysisResult)
      requires Valid()
      modifies this, audio
      ensures Valid()
      ensures (State(), result) == Analysed(old(State()), level, ts, oracles)
    {
      ghost var s0 := State();
      ghost var target := Analysed(s0, level, ts, oracles);
      totalFrames := totalFrames + 1;
      result := audio.AddAudioSample(level, Some(ts), ts);
      assert audio.State() == target.0.detector;
      assert silero == null || silero.State() == s0.silero.value;
      assert State() == target.0;
    }

    /** The Silero part of `_process_frame`. */
    method JudgeWithSilero(frame: seq<byte>) returns (isSpeech: bool, confidence: real)
      requires Valid()
      modifies silero
      ensures Valid()
      ensures var outcome := SileroJudged(old(State()), frame, oracles);
              && State() == old(State()).(silero := outcome.state)
              && isSpeech == outcome.isSpeech && confidence == outcome.confidence
    {
      isSpeech, confidence := false, 0.0;
      if silero != null && |frame| == frameSize {
        var result := silero.ProcessAudio(SV.Pcm16(frame), oracles.hubLoads);
        isSpeech, confidence := result.Speech(), result.Confidence();
      }
    }

    /** The frame joins the history. */
    method RecordFrame(f: AudioFrame)
      requires Valid() && speechFrames < totalFrames
      modifies this
      ensures Valid() && State() == Recorded(old(State()), f)
    {
      frames := PushFrame(frames, f);
      if f.isSpeechEnsemble {
        speechFrames := speechFrames + 1;
      }
    }

    /**
     * `process_audio_chunk(audio_data)` at time `now`, given the outcome of
     * base64 decoding (`None` when it raises).
     */
    method ProcessAudioChunk(decoded: Option<seq<byte>>, now: int) returns (r: ChunkResponse)
      requires Valid()
      modifies this, audio, silero
      ensures Valid()
      ensures (State(), r) == ChunkProcessed(old(State()), decoded, now, oracles)
    {
      lastActivity := now;
      if decoded.None? {
        return InvalidAudio;
      }
      var results := ProcessFrames(decoded.value, now);
      r := Decide(results, now);
    }

    /** The frame loop of `process_audio_chunk`: every complete frame, in order. */
    method ProcessFrames(data: seq<byte>, now: int) returns (results: seq<FrameResult>)
      requires Valid()
      modifies this, audio, silero
      ensures Valid()
      ensures (State(), results) == FramesRun(old(State()), data, 0, frameSize, now, oracles)
    {
      ghost var cur := State();
      ghost var all := FramesRun(cur, data, 0, frameSize, now, oracles);
      results := [];
      var i: nat := 0;
      while i < |data|
        invariant Valid() && cur == State()
        invariant all.0 == FramesRun(cur, data, i, frameSize, now, oracles).0
        invariant all.1 == results + FramesRun(cur, data, i, frameSize, now, oracles).1
        decreases |data| - i
      {
        var j := FrameEnd(i, frameSize);
        if j <= |data| {
          var result := ProcessFrame(data[i..j], now);
          ghost var next := State();
          FramesRunStep(cur, data, i, frameSize, now, oracles, next, result, results);
          cur, results := next, results + [result];
        }
        i := j;
      }
      assert results + [] == results;
    }

    /** The closing decision of `process_audio_chunk`. */
    method Decide(results: seq<FrameResult>, now: int) returns (r: ChunkResponse)
      requires Valid()
      modifies this
      ensures Valid()
      ensures (State(), r) == Decided(old(State()), results, now)
    {
      if results != [] {
        var speech := 0;
        var k := 0;
        while k < |results|
          invariant 0 <= k <= |results|
          invariant speech + SpeechCount(results[k..]) == SpeechCount(results)
        {
          assert results[k..] == [results[k]] + results[k + 1..];
          if results[k].isSpeech {
            speech := speech + 1;
          }
          k := k + 1;
        }
        var ratio := speech as real / |results| as real;
        var nowSpeaking := ratio > 0.5;
        if nowSpeaking && !isSpeaking {
          isSpeaking := true;
          speechStartTime := now;
          return SpeechStart(now, ratio, id);
        } else if !nowSpeaking && isSpeaking {
          isSpeaking := false;
          speechEndTime := now;
          return SpeechEnd(now, speechEndTime - speechStartTime, id);
        }
      }
      r := VadUpdate(now, isSpeaking, id);
    }

    /** `force_recalibration()` at time `now`. */
    method ForceRecalibration(now: int)
      requires Valid()
      modifies audio
      ensures Valid()
      ensures State() == old(State()).(detector := AA.StartedCalibration(old(State()).detector, now))
    {
      audio.ForceRecalibration(now);
    }

    /** `update_vad_config(config)` at time `now`; the error is the exception Python raises. */
    method UpdateVadConfig(p: SessionPatch, now: int) returns (status: Status)
      requires Valid()
      modifies this, audio, silero
      ensures Valid()
      ensures (State(), status) == VadConfigUpdated(old(State()), p, now)
    {
      MergeConfig(p);
      if RejectedMode(config, p) {
        return Error(InvalidModeMessage);
      }
      if p.sampleRate.Some? && config.useSileroVad && silero == null {
        return Error(NoSileroMessage);
      }
      RateSilero(p);
      SensitizeAudio(p);
      if p.recalibrate == Some(true) {
        ForceRecalibration(now);
      }
      status := Done;
    }

    method MergeConfig(p: SessionPatch)
      requires Valid()
      modifies this
      ensures Valid() && State() == ConfigMerged(old(State()), p)
    {
      config := MergeSessionConfig(config, p);
      if p.aggressiveness.Some? && config.useWebrtcVad && ValidMode(config.aggressiveness) {
        webrtc := Some(config.aggressiveness);
      }
    }

    method RateSilero(p: SessionPatch)
      requires Valid() && (p.sampleRate.Some? && config.useSileroVad ==> silero != null)
      modifies silero
      ensures Valid() && State() == SileroRated(old(State()), p)
    {
      if p.sampleRate.Some? && config.useSileroVad {
        silero.UpdateConfig(SileroPatchFor(config));
      }
    }

    method SensitizeAudio(p: SessionPatch)
      requires Valid()
      modifies audio
      ensures Valid() && State() == Sensitized(old(State()), p)
    {
      if p.initialSensitivityFactor.Some? {
        audio.UpdateConfig(SensitivityPatch(p));
      }
    }
  }
}
