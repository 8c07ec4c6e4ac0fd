/**
 * What the adaptive energy detector of backend/audio_analysis_service.py
 * promises, proved about the state functions of module AudioAnalysis: per
 * sample (history bound, counters, speech transitions, results) and over any
 * sequence of operations (speech-start and speech-end strictly alternate).
 */
module AudioAnalysisProperties {
  import opened Common
  import opened AudioAnalysis

  // ---------------------------------------------------------------- one calibrated sample

  /** The judging half of a step touches neither the history nor the run counters. */
  lemma JudgedKeepsCounts(d: Detector, level: real, threshold: real, ts: int, now: int, stdevOf: seq<real> -> real)
    requires WellFormed(d) && !d.isCalibrating
    ensures var r := Judged(d, level, threshold, ts, now, stdevOf);
            && r.next.samples == d.samples
            && r.next.speechRun == d.speechRun && r.next.silenceRun == d.silenceRun
            && r.result.threshold == threshold && r.result.level == level && r.result.timestamp == ts
            && r.result.isSpeech == r.next.lastIsSpeech && r.result.profile == Profile(r.next)
  {
  }

  /**
   * After calibration the history holds the newest samples and never more
   * than `max_sample_history` of them, the new one last.
   */
  lemma ClassifiedHistoryBounded(d: Detector, level: real, ts: int, now: int, stdevOf: seq<real> -> real)
    requires WellFormed(d) && !d.isCalibrating
    ensures var r := ClassifiedSample(d, level, ts, now, stdevOf);
            && r.next.samples == KeepLatest(d.samples, level, d.config.maxSampleHistory)
            && |r.next.samples| <= d.config.maxSampleHistory
            && (d.config.maxSampleHistory > 0 ==> r.next.samples[|r.next.samples| - 1] == level)
  {
    JudgedKeepsCounts(Counted(d, level, ts), level, CurrentThreshold(d), ts, now, stdevOf);
  }

  /**
   * After a calibrated sample exactly one run counter is zero and the other
   * has grown by one: the speech run for a level above the threshold, the
   * silence run otherwise.
   */
  lemma ClassifiedCounters(d: Detector, level: real, ts: int, now: int, stdevOf: seq<real> -> real)
    requires WellFormed(d) && !d.isCalibrating
    ensures var r := ClassifiedSample(d, level, ts, now, stdevOf);
            && (r.next.speechRun == 0) != (r.next.silenceRun == 0)
            && (level > CurrentThreshold(d) ==> r.next.speechRun == d.speechRun + 1 && r.next.silenceRun == 0)
            && (level <= CurrentThreshold(d) ==> r.next.speechRun == 0 && r.next.silenceRun == d.silenceRun + 1)
  {
    JudgedKeepsCounts(Counted(d, level, ts), level, CurrentThreshold(d), ts, now, stdevOf);
  }

  /**
   * The result reports the level, the threshold in force before the sample,
   * the timestamp, the detector's speech state after it and its noise profile.
   */
  lemma ClassifiedResult(d: Detector, level: real, ts: int, now: int, stdevOf: seq<real> -> real)
    requires WellFormed(d) && !d.isCalibrating
    ensures var r := ClassifiedSample(d, level, ts, now, stdevOf);
            && r.result.level == level && r.result.timestamp == ts
            && r.result.threshold == CurrentThreshold(d)
            && r.result.isSpeech == r.next.lastIsSpeech == IsSpeechDetected(r.next, None)
            && r.result.profile == Profile(r.next)
  {
    JudgedKeepsCounts(Counted(d, level, ts), level, CurrentThreshold(d), ts, now, stdevOf);
  }

  /** The judging half of a step emits exactly the speech event that matches the change it makes. */
  lemma JudgedTransitions(d: Detector, level: real, threshold: real, ts: int, now: int, stdevOf: seq<real> -> real)
    requires WellFormed(d) && !d.isCalibrating
    ensures var r := Judged(d, level, threshold, ts, now, stdevOf);
            var k := d.config.consecutiveFramesThreshold;
            && SpeechOnly(r.events) == Transition(d.lastIsSpeech, r.next.lastIsSpeech)
            && (SpeechStart in r.events <==> !d.lastIsSpeech && r.next.lastIsSpeech)
            && (SpeechEnd in r.events <==> d.lastIsSpeech && !r.next.lastIsSpeech)
            && (SpeechStart in r.events ==> d.speechRun >= k)
            && (SpeechEnd in r.events ==> level <= threshold && d.silenceRun >= k)
  {
    var k := d.config.consecutiveFramesThreshold;
    if d.speechRun >= k && !d.lastIsSpeech {
      assert SpeechOnly([SpeechStart]) == [SpeechStart];
    } else if level <= threshold && d.lastIsSpeech && d.silenceRun >= k {
      assert SpeechOnly([SpeechEnd]) == [SpeechEnd];
    } else {
      var q := QuietSample(d, level, threshold, ts, now, stdevOf);
      assert q.next.lastIsSpeech == d.lastIsSpeech;
      assert SpeechStart !in q.events && SpeechEnd !in q.events;
    }
  }

  /**
   * The speech events of a calibrated sample are exactly the change of the
   * speech state; speech starts only from silence after enough speech frames,
   * and ends only from speech on a silent frame after enough silent frames.
   */
  lemma ClassifiedTransitions(d: Detector, level: real, ts: int, now: int, stdevOf: seq<real> -> real)
    requires WellFormed(d) && !d.isCalibrating
    ensures var r := ClassifiedSample(d, level, ts, now, stdevOf);
            var k := d.config.consecutiveFramesThreshold;
            && SpeechOnly(r.events) == Transition(d.lastIsSpeech, r.next.lastIsSpeech)
            && (SpeechStart in r.events <==> !d.lastIsSpeech && r.next.lastIsSpeech)
            && (SpeechEnd in r.events <==> d.lastIsSpeech && !r.next.lastIsSpeech)
            && (SpeechStart in r.events ==> r.next.speechRun >= k)
            && (SpeechEnd in r.events ==> level <= CurrentThreshold(d) && r.next.silenceRun >= k)
  {
    var d1 := Counted(d, level, ts);
    JudgedKeepsCounts(d1, level, CurrentThreshold(d), ts, now, stdevOf);
    JudgedTransitions(d1, level, CurrentThreshold(d), ts, now, stdevOf);
  }

  // ---------------------------------------------------------------- one sample, either phase

  /** While calibrating every sample is kept and reported as silence with threshold 0. */
  lemma CalibratingSampleIsSilence(d: Detector, level: real, timestamp: Option<int>, now: int,
                                   stdevOf: seq<real> -> real)
    requires WellFormed(d) && d.isCalibrating
    ensures var r := SampleAdded(d, level, timestamp, now, stdevOf);
            && r.next.samples == d.samples + [level]
            && !r.result.isSpeech && r.result.threshold == 0.0
            && r.result.level == level && r.result.timestamp == timestamp.GetOr(now)
            && r.next.lastIsSpeech == d.lastIsSpeech && SpeechOnly(r.events) == []
  {
  }

  /**
   * Calibration ends with the first sample whose timestamp is at least the
   * calibration duration after calibration started; the noise profile then
   * comes from all samples collected, or the defaults when there are fewer than five.
   */
  lemma CalibrationCompletes(d: Detector, level: real, timestamp: Option<int>, now: int,
                             stdevOf: seq<real> -> real)
    requires WellFormed(d) && d.isCalibrating
    ensures var r := SampleAdded(d, level, timestamp, now, stdevOf);
            var collected := d.samples + [level];
            && (r.next.calibrationComplete <==> timestamp.GetOr(now) - d.lastCalibrationTime >= d.config.calibrationDurationMs)
            && (r.next.calibrationComplete ==>
                  && r.events == [CalibrationComplete]
                  && (|collected| < 5 ==> r.next.noiseFloor == 0.02 && r.next.stdDev == 0.01)
                  && (|collected| >= 5 ==> r.next.noiseFloor == Mean(collected) && r.next.stdDev == stdevOf(collected)))
            && (!r.next.calibrationComplete ==> r.events == [])
  {
  }

  /** `add_audio_sample` after calibration is the calibrated step with the timestamp defaulted to `now`. */
  lemma CalibratedSampleAdded(d: Detector, level: real, timestamp: Option<int>, now: int,
                              stdevOf: seq<real> -> real)
    requires WellFormed(d) && !d.isCalibrating
    ensures SampleAdded(d, level, timestamp, now, stdevOf) ==
            ClassifiedSample(d, level, timestamp.GetOr(now), now, stdevOf)
  {
  }

  // ---------------------------------------------------------------- sequences of operations

  /** The operations that change a detector. */
  datatype Op =
    | AddSample(level: real, timestamp: Option<int>, now: int)
    | ForceRecalibration(now: int)
    | UpdateConfig(patch: ConfigPatch)

  /** One operation: the next state and the events it emitted. */
  function Apply(d: Detector, op: Op, stdevOf: seq<real> -> real): (r: (Detector, seq<EventKind>))
    requires WellFormed(d)
    ensures WellFormed(r.0)
  {
    match op
    case AddSample(level, timestamp, now) =>
      var step := SampleAdded(d, level, timestamp, now, stdevOf);
      (step.next, step.events)
    case ForceRecalibration(now) => (StartedCalibration(d, now), [CalibrationStart])
    case UpdateConfig(patch) => (ConfigUpdated(d, patch), [])
  }

  /** The state after `ops`, starting from `d`. */
  function Run(d: Detector, ops: seq<Op>, stdevOf: seq<real> -> real): (r: Detector)
    requires WellFormed(d)
    ensures WellFormed(r)
    decreases |ops|
  {
    if ops == [] then d else Run(Apply(d, ops[0], stdevOf).0, ops[1..], stdevOf)
  }

  /** Every event emitted while performing `ops`, in order. */
  function RunEvents(d: Detector, ops: seq<Op>, stdevOf: seq<real> -> real): seq<EventKind>
    requires WellFormed(d)
    decreases |ops|
  {
    if ops == [] then []
    else
      var (next, events) := Apply(d, ops[0], stdevOf);
      events + RunEvents(next, ops[1..], stdevOf)
  }

  /**
   * `evs` are speech events that take the speech state from `from` to `to`:
   * starts and ends strictly alternate, a start only from silence, an end
   * only from speech.
   */
  predicate Alternating(evs: seq<EventKind>, from: bool, to: bool)
    decreases |evs|
  {
    if evs == [] then from == to
    else evs[0] == (if from then SpeechEnd else SpeechStart) && Alternating(evs[1..], !from, to)
  }

  /** One operation's speech events are the change of the speech state it makes. */
  lemma ApplyTransition(d: Detector, op: Op, stdevOf: seq<real> -> real)
    requires WellFormed(d)
    ensures var (next, events) := Apply(d, op, stdevOf);
            SpeechOnly(events) == Transition(d.lastIsSpeech, next.lastIsSpeech)
  {
    match op
    case AddSample(level, timestamp, now) =>
      if d.isCalibrating {
        CalibratingSampleIsSilence(d, level, timestamp, now, stdevOf);
      } else {
        ClassifiedTransitions(d, level, timestamp.GetOr(now), now, stdevOf);
      }
    case ForceRecalibration(now) =>
      assert SpeechOnly([CalibrationStart]) == [];
    case UpdateConfig(patch) =>
  }

  lemma {:induction false} SpeechOnlyAppend(a: seq<EventKind>, b: seq<EventKind>)
    ensures SpeechOnly(a + b) == SpeechOnly(a) + SpeechOnly(b)
    decreases |a|
  {
    if a == [] {
      assert a + b == b;
    } else {
      assert (a + b)[1..] == a[1..] + b;
      SpeechOnlyAppend(a[1..], b);
    }
  }

  lemma TransitionAlternates(a: bool, b: bool)
    ensures Alternating(Transition(a, b), a, b)
  {
    if a != b {
      assert Transition(a, b)[1..] == [];
    }
  }

  lemma {:induction false} AlternatingAppend(x: seq<EventKind>, y: seq<EventKind>, a: bool, b: bool, c: bool)
    requires Alternating(x, a, b) && Alternating(y, b, c)
    ensures Alternating(x + y, a, c)
    decreases |x|
  {
    if x == [] {
      assert x + y == y;
    } else {
      assert (x + y)[1..] == x[1..] + y;
      AlternatingAppend(x[1..], y, !a, b, c);
    }
  }

  /**
   * Over any sequence of operations the speech-start and speech-end events
   * strictly alternate, each matching the speech state it leaves.
   */
  lemma {:induction false} SpeechEventsAlternate(d: Detector, ops: seq<Op>, stdevOf: seq<real> -> real)
    requires WellFormed(d)
    ensures Alternating(SpeechOnly(RunEvents(d, ops, stdevOf)), d.lastIsSpeech, Run(d, ops, stdevOf).lastIsSpeech)
    decreases |ops|
  {
    if ops == [] {
      assert RunEvents(d, ops, stdevOf) == [];
    } else {
      var (next, events) := Apply(d, ops[0], stdevOf);
      ApplyTransition(d, ops[0], stdevOf);
      TransitionAlternates(d.lastIsSpeech, next.lastIsSpeech);
      SpeechEventsAlternate(next, ops[1..], stdevOf);
      SpeechOnlyAppend(events, RunEvents(next, ops[1..], stdevOf));
      AlternatingAppend(SpeechOnly(events), SpeechOnly(RunEvents(next, ops[1..], stdevOf)),
                        d.lastIsSpeech, next.lastIsSpeech, Run(d, ops, stdevOf).lastIsSpeech);
    }
  }

  /** A new detector starts silent, so its first speech event, if any, is a speech-start. */
  lemma FirstSpeechEventIsStart(cfg: Config, now: int, ops: seq<Op>, stdevOf: seq<real> -> real)
    ensures var evs := SpeechOnly(RunEvents(Initial(cfg, now), ops, stdevOf));
            evs != [] ==> evs[0] == SpeechStart
  {
    SpeechEventsAlternate(Initial(cfg, now), ops, stdevOf);
  }

  // ---------------------------------------------------------------- adaptation

  lemma {:induction false} SumBounds(s: seq<real>, lo: real, hi: real)
    requires forall i :: 0 <= i < |s| ==> lo <= s[i] <= hi
    ensures |s| as real * lo <= Sum(s) <= |s| as real * hi
    decreases |s|
  {
    if s != [] {
      SumBounds(s[1..], lo, hi);
    }
  }

  /** The mean of samples that all lie in [lo, hi] lies in [lo, hi]. */
  lemma MeanBounds(s: seq<real>, lo: real, hi: real)
    requires s != []
    requires forall i :: 0 <= i < |s| ==> lo <= s[i] <= hi
    ensures lo <= Mean(s) <= hi
  {
    SumBounds(s, lo, hi);
    QuotientBetween(Sum(s), |s| as real, lo, hi);
  }

  lemma ProductNonNegative(x: real, y: real)
    requires x >= 0.0 && y >= 0.0
    ensures x * y >= 0.0
  {
  }

  /** With a smoothing factor in [0, 1] the blended value lies between the old value and the target. */
  lemma BlendBetween(current: real, target: real, s: real)
    requires 0.0 <= s <= 1.0
    ensures RealMin(current, target) <= Blend(current, target, s) <= RealMax(current, target)
  {
    var b := Blend(current, target, s);
    assert b == current + (target - current) * s;
    assert b == target - (target - current) * (1.0 - s);
    if current <= target {
      ProductNonNegative(target - current, s);
      ProductNonNegative(target - current, 1.0 - s);
    } else {
      ProductNonNegative(current - target, s);
      ProductNonNegative(current - target, 1.0 - s);
    }
  }

  /**
   * Recalibration moves the noise floor towards the recent samples: when they
   * all lie in [lo, hi] and so does the old floor, so does the new floor.
   */
  lemma RecalibratedFloorBounded(d: Detector, now: int, stdevOf: seq<real> -> real, lo: real, hi: real)
    requires 0.0 <= d.config.smoothingFactor <= 1.0
    requires lo <= d.noiseFloor <= hi
    requires forall i :: 0 <= i < |d.samples| ==> lo <= d.samples[i] <= hi
    ensures lo <= Recalibrated(d, now, stdevOf).0.noiseFloor <= hi
  {
    if d.samples != [] {
      var recent := Last(d.samples, 10);
      assert forall i :: 0 <= i < |recent| ==> recent[i] == d.samples[|d.samples| - |recent| + i];
      MeanBounds(recent, lo, hi);
      BlendBetween(d.noiseFloor, Mean(recent), d.config.smoothingFactor);
    }
  }

  /** A sensitivity factor in [1.2, 2.5] stays there under adjustment. */
  lemma AdjustmentKeepsFactorInRange(d: Detector)
    requires 1.2 <= d.sensitivityFactor <= 2.5
    ensures 1.2 <= AdjustedSensitivity(d).0.sensitivityFactor <= 2.5
  {
  }

  /** After an adjustment that changes the factor, it is within the clamp on the side it moved towards. */
  lemma AdjustmentClamps(d: Detector)
    ensures var f := AdjustedSensitivity(d).0.sensitivityFactor;
            && (d.stdDev < 0.01 ==> f <= RealMax(2.5, d.sensitivityFactor))
            && (d.stdDev > 0.1 ==> f >= RealMin(1.2, d.sensitivityFactor))
  {
  }

  // ---------------------------------------------------------------- the history update

  /** The history update as written never shrinks a history that is over the limit back to it. */
  lemma AppendEvictOnceStaysOver()
    ensures var h := seq(51, i => 0.0);
            |AppendEvictOnce(h, 0.5, 50)| == 51
  {
  }

  /** Within the limit, the corrected update and the one as written agree. */
  lemma KeepLatestAgreesWithinLimit(history: seq<real>, level: real, limit: nat)
    requires |history| <= limit
    ensures KeepLatest(history, level, limit) == AppendEvictOnce(history, level, limit)
  {
  }

  // ---------------------------------------------------------------- threshold

  /**
   * The threshold is 0.1 before calibration completes and at least the noise
   * floor after it (for a non-negative deviation and factor); a level counts
   * as speech exactly when it is above the threshold, so a louder level is
   * speech whenever a quieter one is; without a level the stored state answers.
   */
  lemma DetectionAgainstThreshold(d: Detector, quiet: real, loud: real)
    requires quiet <= loud
    ensures !d.calibrationComplete ==> CurrentThreshold(d) == 0.1
    ensures d.calibrationComplete && d.stdDev >= 0.0 && d.sensitivityFactor >= 0.0 ==> CurrentThreshold(d) >= d.noiseFloor
    ensures IsSpeechDetected(d, Some(quiet)) <==> quiet > CurrentThreshold(d)
    ensures IsSpeechDetected(d, Some(quiet)) ==> IsSpeechDetected(d, Some(loud))
    ensures IsSpeechDetected(d, None) == d.lastIsSpeech
  {
    if d.stdDev >= 0.0 && d.sensitivityFactor >= 0.0 {
      ProductNonNegative(d.stdDev, d.sensitivityFactor);
    }
  }

  // ---------------------------------------------------------------- listeners and RMS

  /** Every event name parses back to its event. */
  lemma ParseEventName(e: EventKind)
    ensures ParseEvent(EventName(e)) == Some(e)
  {
  }

  /** Removing a callback just added to a list that did not hold it gives back that list. */
  lemma {:induction false} RemoveAfterAdd(s: seq<Callback>, x: Callback)
    requires x !in s
    ensures RemoveFirst(s + [x], x) == s
    decreases |s|
  {
    if s != [] {
      assert (s + [x])[1..] == s[1..] + [x];
      RemoveAfterAdd(s[1..], x);
    }
  }

  lemma {:induction false} SumOfSquaresConstant(s: seq<real>, c: real)
    requires forall i :: 0 <= i < |s| ==> s[i] == c
    ensures SumOfSquares(s) == |s| as real * (c * c)
    decreases |s|
  {
    if s != [] {
      SumOfSquaresConstant(s[1..], c);
    }
  }

  /** Two non-negative numbers with the same square are equal. */
  lemma SameSquare(x: real, y: real)
    requires x >= 0.0 && y >= 0.0 && x * x == y * y
    ensures x == y
  {
    if x < y {
      SquareGrows(x, y);
    } else if y < x {
      SquareGrows(y, x);
    }
  }

  lemma SquareGrows(a: real, b: real)
    requires 0.0 <= a < b
    ensures a * a < b * b
  {
    ProductNonNegative(a, b - a);
    assert b * (b - a) > 0.0;
    assert b * b == a * a + a * (b - a) + b * (b - a);
  }

  /** The RMS of a steady level is that level. */
  lemma RmsOfSteadyLevel(samples: seq<real>, c: real, sqrt: real -> real)
    requires IsSquareRoot(sqrt) && samples != [] && c >= 0.0
    requires forall i :: 0 <= i < |samples| ==> samples[i] == c
    ensures CalculateRms(samples, sqrt) == c
  {
    var r := CalculateRms(samples, sqrt);
    var n := |samples| as real;
    SumOfSquaresConstant(samples, c);
    assert n * (r * r) == n * (c * c);
    assert r * r == c * c;
    SameSquare(r, c);
  }

  /** `calculate_rms` takes the square root of a non-negative mean square. */
  lemma RmsArgumentNonNegative(samples: seq<real>)
    requires samples != []
    ensures MeanSquare(samples) >= 0.0
  {
    SumOfSquaresNonNegative(samples);
  }

  /** `dict.update` with the same keys twice is the same as once. */
  lemma MergeConfigTwice(c: Config, p: ConfigPatch)
    ensures MergeConfig(MergeConfig(c, p), p) == MergeConfig(c, p)
  {
  }
}
