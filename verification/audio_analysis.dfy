/**
 * The adaptive energy detector of backend/audio_analysis_service.py.
 *
 * `Detector` is the abstract state of one `AudioAnalysisService`; the functions
 * below give the state each operation leaves behind (and the events it emits),
 * and the class `AudioAnalysisService` updates its fields step by step and is
 * proved to agree with them. `statistics.stdev` is not modelled: it is the
 * function `stdevOf` the service is constructed with.
 */
module AudioAnalysis {
  import opened Common

  /** The event types of `AudioAnalysisEvent`. */
  datatype EventKind = CalibrationStart | CalibrationComplete | SpeechStart | SpeechEnd | ThresholdChanged

  function EventName(e: EventKind): string {
    match e
    case CalibrationStart => "calibration-start"
    case CalibrationComplete => "calibration-complete"
    case SpeechStart => "speech-start"
    case SpeechEnd => "speech-end"
    case ThresholdChanged => "threshold-changed"
  }

  /** The event type named `name`, if there is one. */
  function ParseEvent(name: string): (r: Option<EventKind>)
    ensures r.Some? ==> EventName(r.value) == name
    ensures r.None? ==> forall e :: EventName(e) != name
  {
    if name == "calibration-start" then Some(CalibrationStart)
    else if name == "calibration-complete" then Some(CalibrationComplete)
    else if name == "speech-start" then Some(SpeechStart)
    else if name == "speech-end" then Some(SpeechEnd)
    else if name == "threshold-changed" then Some(ThresholdChanged)
    else None
  }

  /** The configuration keys the detector reads (`debug` only controls printing and is left out). */
  datatype Config = Config(
    initialSensitivityFactor: real,
    calibrationDurationMs: int,
    recalibrationIntervalMs: int,
    silenceDurationForRecalMs: int,
    maxSampleHistory: nat,
    smoothingFactor: real,
    consecutiveFramesThreshold: int)

  const DefaultConfig := Config(1.5, 2000, 5000, 2000, 50, 0.1, 2)

  /** A partial configuration, as passed to `update_config`: absent keys keep their value. */
  datatype ConfigPatch = ConfigPatch(
    initialSensitivityFactor: Option<real>,
    calibrationDurationMs: Option<int>,
    recalibrationIntervalMs: Option<int>,
    silenceDurationForRecalMs: Option<int>,
    maxSampleHistory: Option<nat>,
    smoothingFactor: Option<real>,
    consecutiveFramesThreshold: Option<int>)

  const EmptyPatch := ConfigPatch(None, None, None, None, None, None, None)

  function MergeConfig(c: Config, p: ConfigPatch): (r: Config)
    ensures p == EmptyPatch ==> r == c
  {
    Config(
      p.initialSensitivityFactor.GetOr(c.initialSensitivityFactor),
      p.calibrationDurationMs.GetOr(c.calibrationDurationMs),
      p.recalibrationIntervalMs.GetOr(c.recalibrationIntervalMs),
      p.silenceDurationForRecalMs.GetOr(c.silenceDurationForRecalMs),
      p.maxSampleHistory.GetOr(c.maxSampleHistory),
      p.smoothingFactor.GetOr(c.smoothingFactor),
      p.consecutiveFramesThreshold.GetOr(c.consecutiveFramesThreshold))
  }

  /** The state of one detector: every field of `AudioAnalysisService` except its listeners. */
  datatype Detector = Detector(
    config: Config,
    samples: seq<real>,
    noiseFloor: real,
    stdDev: real,
    sensitivityFactor: real,
    lastCalibrationTime: int,
    calibrationComplete: bool,
    isCalibrating: bool,
    lastIsSpeech: bool,
    speechRun: nat,
    silenceRun: nat,
    lastSpeechTime: int,
    lastSilenceTime: int)

  /**
   * What every reachable state satisfies: the detector is calibrating exactly
   * when calibration is not complete, and the two run counters are never both
   * non-zero.
   */
  predicate WellFormed(d: Detector) {
    && d.isCalibrating == !d.calibrationComplete
    && (d.speechRun == 0 || d.silenceRun == 0)
  }

  /** `get_noise_profile()` */
  datatype NoiseProfile = NoiseProfile(
    noiseFloor: real,
    stdDev: real,
    sensitivityFactor: real,
    threshold: real,
    calibrationComplete: bool,
    lastCalibrationTime: int,
    samplesCount: nat,
    recentLevels: seq<real>)

  /** The dictionary `add_audio_sample` returns. */
  datatype AnalysisResult = AnalysisResult(
    level: real,
    threshold: real,
    isSpeech: bool,
    profile: NoiseProfile,
    timestamp: int)

  /** The state after an operation, its result and the events it emitted, in order. */
  datatype SampleStep = SampleStep(next: Detector, result: AnalysisResult, events: seq<EventKind>)

  // ---------------------------------------------------------------- statistics

  function Sum(s: seq<real>): real {
    if s == [] then 0.0 else s[0] + Sum(s[1..])
  }

  /** `statistics.mean` */
  function Mean(s: seq<real>): real
    requires |s| > 0
  {
    Sum(s) / |s| as real
  }

  function SumOfSquares(s: seq<real>): real {
    if s == [] then 0.0 else s[0] * s[0] + SumOfSquares(s[1..])
  }

  /** `sqrt` returns the non-negative square root of every non-negative number. */
  ghost predicate IsSquareRoot(sqrt: real -> real) {
    forall x :: x >= 0.0 ==> sqrt(x) >= 0.0 && sqrt(x) * sqrt(x) == x
  }

  lemma {:induction false} SumOfSquaresNonNegative(s: seq<real>)
    ensures SumOfSquares(s) >= 0.0
    decreases |s|
  {
    if s != [] {
      SumOfSquaresNonNegative(s[1..]);
      assert s[0] * s[0] >= 0.0;
    }
  }

  /**
   * `calculate_rms`: 0 for no samples, otherwise the root mean square, i.e.
   * the non-negative number whose square, times the number of samples, is the
   * sum of the squares. The square root is the parameter `sqrt`, as
   * floating-point square roots are not modelled.
   */
  function CalculateRms(samples: seq<real>, sqrt: real -> real): (r: real)
    requires IsSquareRoot(sqrt)
    ensures samples == [] ==> r == 0.0
    ensures samples != [] ==> r >= 0.0 && r * r * |samples| as real == SumOfSquares(samples)
  {
    if samples == [] then 0.0
    else
      SumOfSquaresNonNegative(samples);
      var ms := MeanSquare(samples);
      assert ms * |samples| as real == SumOfSquares(samples);
      assert sqrt(ms) * sqrt(ms) == ms;
      sqrt(ms)
  }

  function MeanSquare(samples: seq<real>): real
    requires samples != []
  {
    SumOfSquares(samples) / |samples| as real
  }

  // ---------------------------------------------------------------- threshold

  /** `get_current_threshold()`: 0.1 until calibration completes, then floor + deviation * factor. */
  function CurrentThreshold(d: Detector): (t: real)
    ensures !d.calibrationComplete ==> t == 0.1
    ensures d.calibrationComplete && d.stdDev >= 0.0 && d.sensitivityFactor >= 0.0 ==> t >= d.noiseFloor
  {
    if !d.calibrationComplete then 0.1 else d.noiseFloor + d.stdDev * d.sensitivityFactor
  }

  /** `is_speech_detected(level)`: the stored state for no level, else whether the level is above the threshold. */
  function IsSpeechDetected(d: Detector, level: Option<real>): (speech: bool)
    ensures level.None? ==> speech == d.lastIsSpeech
    ensures level.Some? && !d.calibrationComplete ==> (speech <==> level.value > 0.1)
    ensures (level.Some? && d.calibrationComplete && d.stdDev >= 0.0 && d.sensitivityFactor >= 0.0
             && level.value <= d.noiseFloor) ==> !speech
  {
    match level
    case None => d.lastIsSpeech
    case Some(x) => x > CurrentThreshold(d)
  }

  /** `get_noise_profile()`: `recent_levels` holds the last five samples (all of them when fewer). */
  function Profile(d: Detector): (p: NoiseProfile)
    ensures p.threshold == CurrentThreshold(d) && p.samplesCount == |d.samples|
    ensures |p.recentLevels| == Min(5, |d.samples|)
    ensures forall j :: 0 <= j < |p.recentLevels| ==> p.recentLevels[j] == d.samples[|d.samples| - |p.recentLevels| + j]
  {
    NoiseProfile(d.noiseFloor, d.stdDev, d.sensitivityFactor, CurrentThreshold(d),
                 d.calibrationComplete, d.lastCalibrationTime, |d.samples|,
                 if |d.samples| > 5 then d.samples[|d.samples| - 5..] else d.samples)
  }

  // ---------------------------------------------------------------- calibration

  /** The state `__init__` builds before it starts the first calibration. */
  function Constructed(cfg: Config): Detector {
    Detector(cfg, [], 0.0, 0.0, cfg.initialSensitivityFactor, 0, false, true, false, 0, 0, 0, 0)
  }

  /**
   * `_start_calibration()` at wall-clock time `now` (it also emits CalibrationStart):
   * the history is emptied and the detector calibrates again; the noise profile,
   * the run counters and the speech state are kept.
   */
  function StartedCalibration(d: Detector, now: int): (r: Detector)
    ensures r.isCalibrating && !r.calibrationComplete && r.samples == [] && r.lastCalibrationTime == now
    ensures r == d.(isCalibrating := true, calibrationComplete := false, samples := [], lastCalibrationTime := now)
  {
    d.(isCalibrating := true, calibrationComplete := false, samples := [], lastCalibrationTime := now)
  }

  /**
   * `_complete_calibration()` (it also emits CalibrationComplete): with at least
   * five samples the noise floor becomes their mean and the deviation their
   * `stdevOf`; with fewer the defaults 0.02 and 0.01 are used. Nothing else changes.
   */
  function CompletedCalibration(d: Detector, stdevOf: seq<real> -> real): (r: Detector)
    ensures r.calibrationComplete && !r.isCalibrating
    ensures |d.samples| < 5 ==> r.noiseFloor == 0.02 && r.stdDev == 0.01
    ensures |d.samples| >= 5 ==> r.noiseFloor == Mean(d.samples) && r.stdDev == stdevOf(d.samples)
    ensures r == d.(noiseFloor := r.noiseFloor, stdDev := r.stdDev, isCalibrating := false, calibrationComplete := true)
  {
    var d1 :=
      if |d.samples| >= 5 then
        d.(noiseFloor := Mean(d.samples), stdDev := if |d.samples| > 1 then stdevOf(d.samples) else 0.01)
      else
        d.(noiseFloor := 0.02, stdDev := 0.01);
    d1.(isCalibrating := false, calibrationComplete := true)
  }

  /** The detector right after `__init__`: constructed, then calibrating from `now`. */
  function Initial(cfg: Config, now: int): (d: Detector)
    ensures WellFormed(d) && d.config == cfg && d.isCalibrating && d.samples == []
    ensures !d.lastIsSpeech && d.speechRun == 0 && d.silenceRun == 0
    ensures d.sensitivityFactor == cfg.initialSensitivityFactor
  {
    StartedCalibration(Constructed(cfg), now)
  }

  // ---------------------------------------------------------------- adaptation

  /** Replace the sensitivity factor by `proposed` when it moves by more than 0.1. */
  function ApplyFactor(d: Detector, proposed: real): (Detector, seq<EventKind>) {
    if Abs(proposed - d.sensitivityFactor) > 0.1 then
      (d.(sensitivityFactor := proposed), [ThresholdChanged])
    else
      (d, [])
  }

  /**
   * `_adjust_sensitivity_factor()`: a stable background (deviation below 0.01)
   * proposes `min(2.5, f * 1.1)`, a variable one (above 0.1) `max(1.2, f * 0.9)`;
   * the factor takes the proposal only when it differs by more than 0.1, and
   * then ThresholdChanged is emitted. Nothing but the factor ever changes.
   */
  function AdjustedSensitivity(d: Detector): (r: (Detector, seq<EventKind>))
    ensures r.0 == d.(sensitivityFactor := r.0.sensitivityFactor)
    ensures r.0.sensitivityFactor != d.sensitivityFactor <==> r.1 == [ThresholdChanged]
    ensures r.1 == [] || r.1 == [ThresholdChanged]
    ensures r.0.sensitivityFactor != d.sensitivityFactor ==>
              Abs(r.0.sensitivityFactor - d.sensitivityFactor) > 0.1 &&
              (d.stdDev < 0.01 ==> r.0.sensitivityFactor == RealMin(2.5, d.sensitivityFactor * 1.1)) &&
              (d.stdDev >= 0.01 ==> d.stdDev > 0.1 && r.0.sensitivityFactor == RealMax(1.2, d.sensitivityFactor * 0.9))
    ensures 0.01 <= d.stdDev <= 0.1 ==> r == (d, [])
  {
    if d.stdDev < 0.01 then ApplyFactor(d, RealMin(2.5, d.sensitivityFactor * 1.1))
    else if d.stdDev > 0.1 then ApplyFactor(d, RealMax(1.2, d.sensitivityFactor * 0.9))
    else (d, [])
  }

  /** Exponential smoothing: `current` moved towards `target` by the fraction `s`. */
  function Blend(current: real, target: real, s: real): real {
    current * (1.0 - s) + target * s
  }

  /**
   * The noise estimate `_recalibrate_from_recent_silence()` takes from the recent
   * samples `recent` (non-empty) at wall-clock time `now`, before the sensitivity
   * factor is adjusted: the floor is blended towards their mean, the deviation
   * re-estimated from them when there are at least two.
   */
  function Reestimated(d: Detector, recent: seq<real>, now: int, stdevOf: seq<real> -> real): (r: Detector)
    requires recent != []
    ensures r == d.(noiseFloor := r.noiseFloor, stdDev := r.stdDev, lastCalibrationTime := now)
    ensures r.noiseFloor == Blend(d.noiseFloor, Mean(recent), d.config.smoothingFactor)
    ensures |recent| == 1 ==> r.stdDev == d.stdDev
    ensures |recent| > 1 ==> r.stdDev == stdevOf(recent)
  {
    d.(noiseFloor := Blend(d.noiseFloor, Mean(recent), d.config.smoothingFactor),
       stdDev := if |recent| > 1 then stdevOf(recent) else d.stdDev,
       lastCalibrationTime := now)
  }

  /**
   * `_recalibrate_from_recent_silence()` at wall-clock time `now`: when there are
   * samples, the noise is re-estimated from the last (at most) ten and the
   * sensitivity factor is then adjusted; with none, nothing happens.
   */
  function Recalibrated(d: Detector, now: int, stdevOf: seq<real> -> real): (r: (Detector, seq<EventKind>))
    ensures r.1 == [] || r.1 == [ThresholdChanged]
    ensures d.samples == [] ==> r == (d, [])
    ensures d.samples != [] ==> r == AdjustedSensitivity(Reestimated(d, Last(d.samples, 10), now, stdevOf))
  {
    var recent := Last(d.samples, 10);
    if recent == [] then (d, [])
    else AdjustedSensitivity(Reestimated(d, recent, now, stdevOf))
  }

  /** `update_config(config)`: merge the keys; a new initial sensitivity factor takes effect at once. */
  function ConfigUpdated(d: Detector, p: ConfigPatch): (r: Detector)
    ensures r.config == MergeConfig(d.config, p)
    ensures r.sensitivityFactor == (if p.initialSensitivityFactor.Some? then p.initialSensitivityFactor.value else d.sensitivityFactor)
    ensures r == d.(config := r.config, sensitivityFactor := r.sensitivityFactor)
  {
    var d1 := d.(config := MergeConfig(d.config, p));
    if p.initialSensitivityFactor.Some? then d1.(sensitivityFactor := p.initialSensitivityFactor.value) else d1
  }

  // ---------------------------------------------------------------- sample history

  /**
   * The history update as written at audio_analysis_service.py:149-151: append,
   * then drop ONE oldest sample when the history is over the limit.
   */
  function AppendEvictOnce(history: seq<real>, level: real, limit: nat): (r: seq<real>)
    ensures |history| <= limit ==> |r| <= limit
    ensures |history| > limit ==> |r| == |history|
  {
    var h := history + [level];
    if |h| > limit then h[1..] else h
  }

  /**
   * The history update the model uses: append, then keep the newest `limit`
   * samples, so the history is bounded however long calibration ran.
   */
  function KeepLatest(history: seq<real>, level: real, limit: nat): (r: seq<real>)
    ensures |r| == Min(limit, |history| + 1) && |r| <= limit
    ensures forall j :: 0 <= j < |r| ==> r[j] == (history + [level])[|history| + 1 - |r| + j]
    ensures limit > 0 ==> r[|r| - 1] == level
    ensures |history| < limit ==> r == history + [level]
  {
    var h := history + [level];
    if |h| > limit then h[|h| - limit..] else h
  }

  // ---------------------------------------------------------------- add_audio_sample

  /** The events that report a change of the speech state. */
  predicate IsSpeechEvent(e: EventKind) {
    e == SpeechStart || e == SpeechEnd
  }

  /** The speech-start and speech-end events of `evs`, in order. */
  function SpeechOnly(evs: seq<EventKind>): (r: seq<EventKind>)
    ensures |r| <= |evs|
    ensures forall i :: 0 <= i < |r| ==> IsSpeechEvent(r[i])
  {
    if evs == [] then []
    else (if IsSpeechEvent(evs[0]) then [evs[0]] else []) + SpeechOnly(evs[1..])
  }

  /** The speech-event list of a step that turns `before` into `after`. */
  function Transition(before: bool, after: bool): seq<EventKind> {
    if before == after then [] else if after then [SpeechStart] else [SpeechEnd]
  }

  /** The post-calibration bookkeeping of one classified sample. */
  function Counted(d: Detector, level: real, ts: int): (r: Detector)
    ensures r == d.(samples := r.samples, speechRun := r.speechRun, silenceRun := r.silenceRun,
                    lastSpeechTime := r.lastSpeechTime, lastSilenceTime := r.lastSilenceTime)
    ensures r.samples == KeepLatest(d.samples, level, d.config.maxSampleHistory)
    ensures CurrentThreshold(r) == CurrentThreshold(d)
    ensures level > CurrentThreshold(d) ==> r.speechRun == d.speechRun + 1 && r.silenceRun == 0
    ensures level <= CurrentThreshold(d) ==> r.speechRun == 0 && r.silenceRun == d.silenceRun + 1
  {
    var history := KeepLatest(d.samples, level, d.config.maxSampleHistory);
    if level > CurrentThreshold(d) then
      d.(samples := history, speechRun := d.speechRun + 1, silenceRun := 0, lastSpeechTime := ts)
    else
      d.(samples := history, speechRun := 0, silenceRun := d.silenceRun + 1, lastSilenceTime := ts)
  }

  /**
   * `add_audio_sample` while calibrating: the sample is appended, the result is
   * silence with threshold 0, and calibration completes once the calibration
   * duration has elapsed since it started.
   */
  function CalibrationSample(d: Detector, level: real, ts: int, stdevOf: seq<real> -> real): (r: SampleStep)
    requires WellFormed(d) && d.isCalibrating
    ensures WellFormed(r.next) && r.next.config == d.config
    ensures r.next.samples == d.samples + [level]
    ensures r.result == AnalysisResult(level, 0.0, false, Profile(r.next), ts)
    ensures r.next.isCalibrating <==> ts - d.lastCalibrationTime < d.config.calibrationDurationMs
    ensures r.next.lastIsSpeech == d.lastIsSpeech && SpeechOnly(r.events) == []
  {
    var d1 := d.(samples := d.samples + [level]);
    var elapsed := ts - d1.lastCalibrationTime;
    if elapsed >= d1.config.calibrationDurationMs then
      var d2 := CompletedCalibration(d1, stdevOf);
      assert SpeechOnly([CalibrationComplete]) == [];
      SampleStep(d2, AnalysisResult(level, 0.0, false, Profile(d2), ts), [CalibrationComplete])
    else
      SampleStep(d1, AnalysisResult(level, 0.0, false, Profile(d1), ts), [])
  }

  /** The step of a calibrated detector that neither starts nor ends speech: perhaps a recalibration. */
  function QuietSample(d: Detector, level: real, threshold: real, ts: int, now: int, stdevOf: seq<real> -> real): (r: SampleStep)
    ensures r.next == d.(noiseFloor := r.next.noiseFloor, stdDev := r.next.stdDev,
                         sensitivityFactor := r.next.sensitivityFactor,
                         lastCalibrationTime := r.next.lastCalibrationTime)
    ensures r.result == AnalysisResult(level, threshold, d.lastIsSpeech, Profile(r.next), ts)
    ensures r.events == [] || r.events == [ThresholdChanged]
    ensures SpeechOnly(r.events) == []
  {
    var silenceDuration := ts - d.lastSpeechTime;
    var recal :=
      level <= threshold && silenceDuration > d.config.silenceDurationForRecalMs &&
      ts - d.lastCalibrationTime > d.config.recalibrationIntervalMs;
    var (d2, events) := if recal then Recalibrated(d, now, stdevOf) else (d, []);
    assert SpeechOnly([ThresholdChanged]) == [];
    SampleStep(d2, AnalysisResult(level, threshold, d2.lastIsSpeech, Profile(d2), ts), events)
  }

  /**
   * `add_audio_sample` once calibrated: the sample is counted, then speech
   * starts after enough speech frames, ends after enough silent frames, or
   * the step is quiet (and may recalibrate). Its properties are proved in
   * AudioAnalysisProperties.
   */
  function ClassifiedSample(d: Detector, level: real, ts: int, now: int, stdevOf: seq<real> -> real): (r: SampleStep)
    requires WellFormed(d) && !d.isCalibrating
    ensures WellFormed(r.next) && !r.next.isCalibrating && r.next.config == d.config
  {
    Judged(Counted(d, level, ts), level, CurrentThreshold(d), ts, now, stdevOf)
  }

  /**
   * The second half of `add_audio_sample` once calibrated (lines 172-212): `d`
   * has counted the sample, which was judged against `threshold`.
   */
  function Judged(d: Detector, level: real, threshold: real, ts: int, now: int, stdevOf: seq<real> -> real): (r: SampleStep)
    requires WellFormed(d) && !d.isCalibrating
    ensures WellFormed(r.next) && !r.next.isCalibrating && r.next.config == d.config
  {
    var k := d.config.consecutiveFramesThreshold;
    if d.speechRun >= k && !d.lastIsSpeech then
      var d2 := d.(lastIsSpeech := true);
      SampleStep(d2, AnalysisResult(level, threshold, true, Profile(d2), ts), [SpeechStart])
    else if level <= threshold && d.lastIsSpeech && d.silenceRun >= k then
      var d2 := d.(lastIsSpeech := false);
      SampleStep(d2, AnalysisResult(level, threshold, false, Profile(d2), ts), [SpeechEnd])
    else
      QuietSample(d, level, threshold, ts, now, stdevOf)
  }

  /**
   * `add_audio_sample(level, timestamp)` with wall-clock time `now` (used when
   * no timestamp is given, and by recalibration).
   */
  function SampleAdded(d: Detector, level: real, timestamp: Option<int>, now: int,
                       stdevOf: seq<real> -> real): (r: SampleStep)
    requires WellFormed(d)
    ensures WellFormed(r.next) && r.next.config == d.config
  {
    var ts := timestamp.GetOr(now);
    if d.isCalibrating then CalibrationSample(d, level, ts, stdevOf)
    else ClassifiedSample(d, level, ts, now, stdevOf)
  }

  // ---------------------------------------------------------------- listeners

  /** A registered callback, known only by its identity. */
  type Callback = nat

  const AllEvents: set<EventKind> := {CalibrationStart, CalibrationComplete, SpeechStart, SpeechEnd, ThresholdChanged}

  const NoListeners: map<EventKind, seq<Callback>> :=
    map[CalibrationStart := [], CalibrationComplete := [], SpeechStart := [], SpeechEnd := [], ThresholdChanged := []]

  /** `list.remove(x)`: the first occurrence of `x` is removed; callers check membership first. */
  function RemoveFirst(s: seq<Callback>, x: Callback): (r: seq<Callback>)
    ensures x !in s ==> r == s
    ensures x in s ==> |r| == |s| - 1 && multiset(r) == multiset(s) - multiset{x}
  {
    if s == [] then []
    else
      assert s == [s[0]] + s[1..];
      if s[0] == x then s[1..] else [s[0]] + RemoveFirst(s[1..], x)
  }

  /** The error `add_event_listener` and `remove_event_listener` raise for an unknown name. */
  function UnknownEvent(name: string): (s: Status)
    ensures s.Error? && |s.message| > |name| && s.message[|s.message| - |name|..] == name
  {
    Error("Unknown event type: " + name)
  }

  // ---------------------------------------------------------------- the service object

  /**
   * `AudioAnalysisService`. `emitted` records the events passed to `_emit_event`,
   * in order; invoking the listeners is not modelled.
   */
  class AudioAnalysisService {
    var config: Config
    var samples: seq<real>
    var noiseFloor: real
    var stdDev: real
    var sensitivityFactor: real
    var lastCalibrationTime: int
    var calibrationComplete: bool
    var isCalibrating: bool
    var lastIsSpeech: bool
    var consecutiveSpeechFrames: nat
    var consecutiveSilenceFrames: nat
    var lastSpeechTime: int
    var lastSilenceTime: int
    var listeners: map<EventKind, seq<Callback>>
    var emitted: seq<EventKind>
    const stdevOf: seq<real> -> real

    function State(): Detector
      reads this
    {
      Detector(config, samples, noiseFloor, stdDev, sensitivityFactor, lastCalibrationTime,
               calibrationComplete, isCalibrating, lastIsSpeech, consecutiveSpeechFrames,
               consecutiveSilenceFrames, lastSpeechTime, lastSilenceTime)
    }

    ghost predicate Valid()
      reads this
    {
      WellFormed(State()) && listeners.Keys == AllEvents
    }

    /** `__init__(config)` at wall-clock time `now`: defaults merged with `patch`, then calibration starts. */
    constructor (patch: ConfigPatch, now: int, stdevOf: seq<real> -> real)
      ensures Valid()
      ensures State() == Initial(MergeConfig(DefaultConfig, patch), now)
      ensures listeners == NoListeners && emitted == [CalibrationStart]
      ensures this.stdevOf == stdevOf
    {
      var cfg := MergeConfig(DefaultConfig, patch);
      config := cfg;
      samples := [];
      noiseFloor := 0.0;
      stdDev := 0.0;
      sensitivityFactor := cfg.initialSensitivityFactor;
      lastCalibrationTime := 0;
      calibrationComplete := false;
      isCalibrating := true;
      lastIsSpeech := false;
      consecutiveSpeechFrames := 0;
      consecutiveSilenceFrames := 0;
      lastSpeechTime := 0;
      lastSilenceTime := 0;
      listeners := NoListeners;
      emitted := [];
      this.stdevOf := stdevOf;
      new;
      StartCalibration(now);
    }

    method StartCalibration(now: int)
      requires Valid()
      modifies this
      ensures Valid()
      ensures State() == StartedCalibration(old(State()), now)
      ensures emitted == old(emitted) + [CalibrationStart] && listeners == old(listeners)
    {
      ghost var target := StartedCalibration(State(), now);
      isCalibrating := true;
      calibrationComplete := false;
      samples := [];
      lastCalibrationTime := now;
      emitted := emitted + [CalibrationStart];
      assert State() == target;
    }

    method CompleteCalibration()
      requires Valid()
      modifies this
      ensures Valid()
      ensures State() == CompletedCalibration(old(State()), stdevOf)
      ensures emitted == old(emitted) + [CalibrationComplete] && listeners == old(listeners)
    {
      ghost var target := CompletedCalibration(State(), stdevOf);
      if |samples| >= 5 {
        noiseFloor := Mean(samples);
        stdDev := if |samples| > 1 then stdevOf(samples) else 0.01;
      } else {
        noiseFloor := 0.02;
        stdDev := 0.01;
      }
      isCalibrating := false;
      calibrationComplete := true;
      emitted := emitted + [CalibrationComplete];
      assert State() == target;
    }

    method AddAudioSample(level: real, timestamp: Option<int>, now: int) returns (r: AnalysisResult)
      requires Valid()
      modifies this
      ensures Valid()
      ensures var step := SampleAdded(old(State()), level, timestamp, now, stdevOf);
              State() == step.next && r == step.result && emitted == old(emitted) + step.events
      ensures listeners == old(listeners)
    {
      var ts := timestamp.GetOr(now);
      if isCalibrating {
        r := AddCalibrationSample(level, ts);
      } else {
        r := AddClassifiedSample(level, ts, now);
      }
    }

    /** The calibration branch of `add_audio_sample` (lines 131-146). */
    method AddCalibrationSample(level: real, ts: int) returns (r: AnalysisResult)
      requires Valid() && isCalibrating
      modifies this
      ensures Valid()
      ensures var step := CalibrationSample(old(State()), level, ts, stdevOf);
              State() == step.next && r == step.result && emitted == old(emitted) + step.events
      ensures listeners == old(listeners)
    {
      samples := samples + [level];
      var elapsed := ts - lastCalibrationTime;
      if elapsed >= config.calibrationDurationMs {
        CompleteCalibration();
      }
      r := AnalysisResult(level, 0.0, false, Profile(State()), ts);
    }

    /** The branch of `add_audio_sample` after calibration (lines 148-212). */
    method AddClassifiedSample(level: real, ts: int, now: int) returns (r: AnalysisResult)
      requires Valid() && !isCalibrating
      modifies this
      ensures Valid()
      ensures var step := ClassifiedSample(old(State()), level, ts, now, stdevOf);
              State() == step.next && r == step.result && emitted == old(emitted) + step.events
      ensures listeners == old(listeners)
    {
      var threshold := CountSample(level, ts);
      r := JudgeSample(level, threshold, ts, now);
    }

    /** The speech-state update of `add_audio_sample` after calibration (lines 172-212). */
    method JudgeSample(level: real, threshold: real, ts: int, now: int) returns (r: AnalysisResult)
      requires Valid() && !isCalibrating
      modifies this
      ensures Valid()
      ensures var step := Judged(old(State()), level, threshold, ts, now, stdevOf);
              State() == step.next && r == step.result && emitted == old(emitted) + step.events
      ensures listeners == old(listeners)
    {
      var k := config.consecutiveFramesThreshold;
      if consecutiveSpeechFrames >= k && !lastIsSpeech {
        lastIsSpeech := true;
        emitted := emitted + [SpeechStart];
        r := AnalysisResult(level, threshold, true, Profile(State()), ts);
      } else if level <= threshold && lastIsSpeech && consecutiveSilenceFrames >= k {
        lastIsSpeech := false;
        emitted := emitted + [SpeechEnd];
        r := AnalysisResult(level, threshold, false, Profile(State()), ts);
      } else {
        r := QuietTail(level, ts, now, threshold);
      }
    }

    /**
     * The sample bookkeeping of `add_audio_sample` after calibration (lines 148-170):
     * the bounded history and the run counters; returns the threshold the sample is judged by.
     */
    method CountSample(level: real, ts: int) returns (threshold: real)
      requires Valid() && !isCalibrating
      modifies this
      ensures Valid() && !isCalibrating
      ensures State() == Counted(old(State()), level, ts) && threshold == CurrentThreshold(old(State()))
      ensures emitted == old(emitted) && listeners == old(listeners)
    {
      ghost var d := State();
      PushSample(level);
      threshold := CurrentThreshold(State());
      if level > threshold {
        consecutiveSpeechFrames := consecutiveSpeechFrames + 1;
        consecutiveSilenceFrames := 0;
        lastSpeechTime := ts;
      } else {
        consecutiveSpeechFrames := 0;
        consecutiveSilenceFrames := consecutiveSilenceFrames + 1;
        lastSilenceTime := ts;
      }
    }

    /** Appending a sample to the bounded history (lines 148-151, with the trim corrected; see `KeepLatest`). */
    method PushSample(level: real)
      requires Valid()
      modifies this
      ensures Valid()
      ensures State() == old(State()).(samples := KeepLatest(old(samples), level, config.maxSampleHistory))
      ensures emitted == old(emitted) && listeners == old(listeners)
    {
      ghost var d := State();
      var h := samples + [level];
      if |h| > config.maxSampleHistory {
        h := h[|h| - config.maxSampleHistory..];
      }
      assert h == KeepLatest(d.samples, level, d.config.maxSampleHistory);
      samples := h;
      assert State() == d.(samples := h);
    }

    /** The end of `add_audio_sample` when the speech state does not change (lines 200-212). */
    method QuietTail(level: real, ts: int, now: int, threshold: real) returns (r: AnalysisResult)
      requires Valid()
      modifies this
      ensures Valid()
      ensures var step := QuietSample(old(State()), level, threshold, ts, now, stdevOf);
              State() == step.next && r == step.result && emitted == old(emitted) + step.events
      ensures listeners == old(listeners)
    {
      var silenceDuration := ts - lastSpeechTime;
      if level <= threshold && silenceDuration > config.silenceDurationForRecalMs &&
         ts - lastCalibrationTime > config.recalibrationIntervalMs {
        RecalibrateFromRecentSilence(now);
      }
      r := AnalysisResult(level, threshold, lastIsSpeech, Profile(State()), ts);
    }

    method RecalibrateFromRecentSilence(now: int)
      requires Valid()
      modifies this
      ensures Valid()
      ensures var step := Recalibrated(old(State()), now, stdevOf);
              State() == step.0 && emitted == old(emitted) + step.1
      ensures listeners == old(listeners)
    {
      var silenceSamples := Last(samples, 10);
      if silenceSamples != [] {
        ReestimateNoise(silenceSamples, now);
        AdjustSensitivityFactor();
      }
    }

    /** The re-estimation step of `_recalibrate_from_recent_silence` (lines 225-233). */
    method ReestimateNoise(recent: seq<real>, now: int)
      requires Valid() && recent != []
      modifies this
      ensures Valid()
      ensures State() == Reestimated(old(State()), recent, now, stdevOf)
      ensures emitted == old(emitted) && listeners == old(listeners)
    {
      ghost var target := Reestimated(State(), recent, now, stdevOf);
      noiseFloor := Blend(noiseFloor, Mean(recent), config.smoothingFactor);
      stdDev := if |recent| > 1 then stdevOf(recent) else stdDev;
      lastCalibrationTime := now;
      assert State() == target;
    }

    method AdjustSensitivityFactor()
      requires Valid()
      modifies this
      ensures Valid()
      ensures var step := AdjustedSensitivity(old(State()));
              State() == step.0 && emitted == old(emitted) + step.1
      ensures listeners == old(listeners)
    {
      var newFactor;
      if stdDev < 0.01 {
        newFactor := RealMin(2.5, sensitivityFactor * 1.1);
      } else if stdDev > 0.1 {
        newFactor := RealMax(1.2, sensitivityFactor * 0.9);
      } else {
        return;
      }
      if Abs(newFactor - sensitivityFactor) > 0.1 {
        sensitivityFactor := newFactor;
        emitted := emitted + [ThresholdChanged];
      }
    }

    method ForceRecalibration(now: int)
      requires Valid()
      modifies this
      ensures Valid()
      ensures State() == StartedCalibration(old(State()), now)
      ensures emitted == old(emitted) + [CalibrationStart] && listeners == old(listeners)
    {
      StartCalibration(now);
    }

    method UpdateConfig(patch: ConfigPatch)
      requires Valid()
      modifies this
      ensures Valid()
      ensures State() == ConfigUpdated(old(State()), patch)
      ensures emitted == old(emitted) && listeners == old(listeners)
    {
      config := MergeConfig(config, patch);
      if patch.initialSensitivityFactor.Some? {
        sensitivityFactor := patch.initialSensitivityFactor.value;
      }
    }

    /** `add_event_listener(event, callback)`: appends the callback, or raises for an unknown event name. */
    method AddEventListener(event: string, callback: Callback) returns (status: Status)
      requires Valid()
      modifies this
      ensures Valid() && State() == old(State()) && emitted == old(emitted)
      ensures ParseEvent(event).None? ==> status == UnknownEvent(event) && listeners == old(listeners)
      ensures ParseEvent(event).Some? ==>
                var e := ParseEvent(event).value;
                status == Done && listeners == old(listeners)[e := old(listeners)[e] + [callback]]
    {
      var kind := ParseEvent(event);
      if kind.Some? {
        listeners := listeners[kind.value := listeners[kind.value] + [callback]];
        status := Done;
      } else {
        status := UnknownEvent(event);
      }
    }

    /** `remove_event_listener(event, callback)`: removes its first registration, or raises for an unknown name. */
    method RemoveEventListener(event: string, callback: Callback) returns (status: Status)
      requires Valid()
      modifies this
      ensures Valid() && State() == old(State()) && emitted == old(emitted)
      ensures ParseEvent(event).None? ==> status == UnknownEvent(event) && listeners == old(listeners)
      ensures ParseEvent(event).Some? ==>
                var e := ParseEvent(event).value;
                status == Done && listeners == old(listeners)[e := RemoveFirst(old(listeners)[e], callback)]
    {
      var kind := ParseEvent(event);
      if kind.Some? {
        if callback in listeners[kind.value] {
          listeners := listeners[kind.value := RemoveFirst(listeners[kind.value], callback)];
        }
        status := Done;
      } else {
        status := UnknownEvent(event);
      }
    }
  }
}
