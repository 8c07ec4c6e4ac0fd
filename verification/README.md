# Server-side voice activity detection, modelled in Dafny

This project models the voice-activity-detection (VAD) core of a speech
back end. There are three pieces.

- `AudioAnalysisService` (`backend/audio_analysis_service.py`) is an adaptive
  noise-floor detector. It calibrates on the first seconds of audio: the
  noise floor is the mean level and the deviation is the standard deviation.
  After that it classifies each level against `noise_floor + std_dev *
  sensitivity_factor`. It needs a run of consecutive frames before it
  switches between speech and silence. While quiet it re-estimates the floor
  from recent silence and nudges the sensitivity factor.
- `SileroVADService` (`backend/silero_vad_service.py`) wraps a neural VAD
  model. It decodes 16-bit PCM, buffers samples until the model's window
  (512 or 256 samples) is full, and scores the window. It then keeps half of
  the window as overlap and counts its predictions.
- `SocketVADService` and `UserSession` (`backend/socket_vad_service.py`) hold
  one session per WebSocket client. Each session cuts a decoded chunk into
  fixed-size frames and judges every frame three ways: RMS against the
  adaptive threshold, WebRTC VAD and Silero. It takes a weighted vote per
  frame, then turns the chunk's majority into `speech_start`, `speech_end`
  or `vad_update` events. The service creates, touches, expires and removes
  sessions.

Files:

- `common.dfy`: `Option`, `Status`, bytes and small helpers.
- `audio_analysis.dfy`: the detector's state as a datatype, one function per
  step, and the class `AudioAnalysisService`. The class's methods update the
  fields in place and are proved against those functions.
- `silero_vad.dfy`: the same pattern for `SileroVadService`.
- `socket_vad.dfy`: frames, the ensemble vote, sessions as values, and the
  class `UserSession`. A `UserSession` owns an `AudioAnalysisService` and an
  optional `SileroVadService`.
- `session_registry.dfy`: the class `SocketVadService`. It holds a map from
  ids to `UserSession` objects with disjoint footprints, and keeps a ghost
  map of their states. Each method is proved against a function on that map.
- `*_properties.dfy`: lemmas about the functions above, covering:
  - speech events alternate and the first one is a start;
  - the history bound;
  - the noise floor stays between the levels it was estimated from;
  - the sensitivity factor is clamped;
  - PCM round-trips;
  - the sliding windows Silero scores;
  - the frames a chunk is cut into;
  - the ensemble vote;
  - the configuration update's error case;
  - registry idempotence and the undo of a create.

Things the model takes as parameters:

- Time is a parameter `now` and a uuid is a parameter `freshId`.
- The base64 decoding of a chunk arrives already done, as an
  `Option<seq<byte>>` (`None` when decoding failed).
- Foreign computations are parameters: numpy's RMS, `statistics.stdev`, the
  WebRTC vote, whether the torch hub loads, and the Silero model's score.

A reader might expect otherwise in the points below; the model follows the
code. The one exception is the trim of the level history: the model keeps
the corrected rule described under "## Findings" and "## Left out". The
points where it follows the code:

- The threshold is `noise_floor + std_dev * factor`, not `noise_floor *
  factor`.
- A chunk's trailing partial frame is dropped. It is not carried over to
  the next chunk.
- Speech ends when a chunk's majority of frames is silent. There is no
  silence-duration debounce.
- An expired session that is asked for again is replaced by a fresh session
  under the same id. Its noise profile is not resumed.
- Calibration completes when its duration has elapsed. It uses the plain
  mean of the collected levels, or fixed defaults when fewer than five
  levels were collected.

## Model

| member | source | states |
|---|---|---|
| AudioAnalysis.ParseEvent | backend/audio_analysis_service.py:15-21 | an event name is accepted exactly when it is one of the five event names, and the kind returned has that name |
| AudioAnalysisProperties.ParseEventName | backend/audio_analysis_service.py:15-21 | every event kind's name parses back to that kind |
| AudioAnalysis.CalculateRms | backend/audio_analysis_service.py:359-363 | given a true square root, the RMS of no samples is 0.0; otherwise it is the non-negative number whose square, times the number of samples, is the sum of the squares |
| AudioAnalysisProperties.RmsOfSteadyLevel | backend/audio_analysis_service.py:359-363 | the RMS of any number of copies of one non-negative level is that level |
| AudioAnalysisProperties.RmsArgumentNonNegative | backend/audio_analysis_service.py:363 | the mean square handed to the square root is never negative |
| AudioAnalysis.Profile | backend/audio_analysis_service.py:266-277 | the profile reports the current threshold, the history length and the last min(5, n) levels in order |
| AudioAnalysis.CurrentThreshold | backend/audio_analysis_service.py:258-264 | the threshold is 0.1 until calibration completes, and afterwards never below the noise floor for a non-negative deviation and factor (DetectionAgainstThreshold relates it to detection) |
| AudioAnalysis.IsSpeechDetected | backend/audio_analysis_service.py:279-292 | without a level the stored speech state answers; before calibration a level is speech exactly above 0.1; after it a level at or below the noise floor is never speech |
| AudioAnalysis.MergeConfig | backend/audio_analysis_service.py:49-51 | `dict.update` of the detector configuration: a patch with no keys leaves it unchanged (MergeConfigTwice: applying a patch twice is applying it once) |
| AudioAnalysisProperties.MergeConfigTwice | backend/audio_analysis_service.py:304-306 | updating the configuration twice with the same keys gives the same configuration as once |
| AudioAnalysis.Initial | backend/audio_analysis_service.py:41-77 | a new detector has the given configuration and factor, is calibrating with an empty history, and is not speaking |
| AudioAnalysis.StartedCalibration | backend/audio_analysis_service.py:79-86 | starting calibration clears the history, marks it incomplete and stamps the time; nothing else changes |
| AudioAnalysis.CompletedCalibration | backend/audio_analysis_service.py:91-113 | completion sets floor and deviation to the mean and stdev of at least five levels, or to 0.02 and 0.01 otherwise; nothing else changes |
| AudioAnalysis.AdjustedSensitivity | backend/audio_analysis_service.py:237-256 | the factor changes only when the move exceeds 0.1, up towards 2.5 under a 0.01 deviation and down towards 1.2 over 0.1; a ThresholdChanged event is emitted exactly when it changes |
| AudioAnalysis.Reestimated | backend/audio_analysis_service.py:216-230 | the floor moves to the smoothed blend of the old floor and the recent mean; the deviation is the recent stdev when more than one level is used |
| AudioAnalysis.Recalibrated | backend/audio_analysis_service.py:214-235 | with no history nothing happens; otherwise the last ten levels are used to re-estimate and then adjust the factor |
| AudioAnalysis.ConfigUpdated | backend/audio_analysis_service.py:304-310 | the configuration is merged and a given initial factor replaces the current one; nothing else changes |
| AudioAnalysis.AppendEvictOnce | backend/audio_analysis_service.py:148-151 | as written: one eviction keeps a history within the limit but leaves an over-long history as long as it was |
| AudioAnalysis.KeepLatest | backend/audio_analysis_service.py:148-151 | the history keeps exactly the latest min(limit, n + 1) levels in order, ending with the new one |
| AudioAnalysis.Counted | backend/audio_analysis_service.py:148-167 | the history keeps the latest levels within the limit (the corrected trim); a level above the threshold extends the speech run and resets the silence run, and vice versa; the threshold itself does not move |
| AudioAnalysis.CalibrationSample | backend/audio_analysis_service.py:130-146 | during calibration a level is recorded, the answer is silence with threshold 0.0, and calibration stays on exactly while its duration has not elapsed |
| AudioAnalysis.QuietSample | backend/audio_analysis_service.py:198-212 | a quiet step changes only floor, deviation, factor and calibration time, emits at most ThresholdChanged and reports the unchanged speech state |
| AudioAnalysis.ClassifiedSample | backend/audio_analysis_service.py:148-212 | classification keeps the detector well formed, calibrated and its configuration unchanged |
| AudioAnalysis.Judged | backend/audio_analysis_service.py:169-212 | the speech/silence decision keeps the detector well formed and calibrated |
| AudioAnalysis.SampleAdded | backend/audio_analysis_service.py:115-212 | adding a level keeps the detector well formed and its configuration unchanged |
| AudioAnalysis.RemoveFirst | backend/audio_analysis_service.py:319-325 | removal takes out one occurrence of the callback when present, and changes nothing otherwise |
| AudioAnalysis.AudioAnalysisService.constructor | backend/audio_analysis_service.py:41-77 | the new service holds the initial detector, no listeners, and has announced the start of calibration |
| AudioAnalysis.AudioAnalysisService.StartCalibration | backend/audio_analysis_service.py:79-89 | the fields become the started-calibration state and a calibration_start event is emitted |
| AudioAnalysis.AudioAnalysisService.CompleteCalibration | backend/audio_analysis_service.py:91-113 | the fields become the completed-calibration state and a calibration_complete event is emitted |
| AudioAnalysis.AudioAnalysisService.AddAudioSample | backend/audio_analysis_service.py:115-212 | the fields, the result and the emitted events are those of SampleAdded; listeners are untouched |
| AudioAnalysis.AudioAnalysisService.AddCalibrationSample | backend/audio_analysis_service.py:130-146 | the step taken while calibrating is CalibrationSample |
| AudioAnalysis.AudioAnalysisService.AddClassifiedSample | backend/audio_analysis_service.py:148-212 | the step taken once calibrated is ClassifiedSample |
| AudioAnalysis.AudioAnalysisService.JudgeSample | backend/audio_analysis_service.py:169-212 | the decision step is Judged |
| AudioAnalysis.AudioAnalysisService.CountSample | backend/audio_analysis_service.py:148-167 | the history and run counters follow Counted, and the threshold read before counting is returned |
| AudioAnalysis.AudioAnalysisService.PushSample | backend/audio_analysis_service.py:148-151 | the history becomes the latest levels within the limit (the corrected trim); nothing else changes |
| AudioAnalysis.AudioAnalysisService.QuietTail | backend/audio_analysis_service.py:198-212 | the quiet-period step is QuietSample |
| AudioAnalysis.AudioAnalysisService.RecalibrateFromRecentSilence | backend/audio_analysis_service.py:214-235 | the fields and events follow Recalibrated |
| AudioAnalysis.AudioAnalysisService.ReestimateNoise | backend/audio_analysis_service.py:216-230 | the fields follow Reestimated and no event is emitted |
| AudioAnalysis.AudioAnalysisService.AdjustSensitivityFactor | backend/audio_analysis_service.py:237-256 | the fields and events follow AdjustedSensitivity |
| AudioAnalysis.AudioAnalysisService.ForceRecalibration | backend/audio_analysis_service.py:300-302 | a forced recalibration restarts calibration and announces it |
| AudioAnalysis.AudioAnalysisService.UpdateConfig | backend/audio_analysis_service.py:304-310 | the fields follow ConfigUpdated and no event is emitted |
| AudioAnalysis.AudioAnalysisService.AddEventListener | backend/audio_analysis_service.py:312-317 | a known event gets the callback appended; an unknown event is an error and nothing changes |
| AudioAnalysis.AudioAnalysisService.RemoveEventListener | backend/audio_analysis_service.py:319-325 | a known event loses one occurrence of the callback; an unknown event is an error and nothing changes |
| AudioAnalysis.UnknownEvent | backend/audio_analysis_service.py:315-317 | the error for an unknown event name is an error whose message ends with that name, as the `ValueError` of :317 and :325 says |
| AudioAnalysisProperties.JudgedKeepsCounts | backend/audio_analysis_service.py:169-212 | the decision step keeps history and run counters and reports the level, timestamp, threshold and new speech state |
| AudioAnalysisProperties.ClassifiedHistoryBounded | backend/audio_analysis_service.py:148-151 | after a classified level the history is within max_sample_history and ends with that level |
| AudioAnalysisProperties.ClassifiedCounters | backend/audio_analysis_service.py:159-167 | exactly one of the speech and silence runs is non-zero, and the one matching the level grew by one |
| AudioAnalysisProperties.ClassifiedResult | backend/audio_analysis_service.py:153-212 | the answer carries the level, timestamp and the threshold in force, and its speech flag is the stored state |
| AudioAnalysisProperties.JudgedTransitions | backend/audio_analysis_service.py:169-196 | speech_start is emitted exactly on a silence-to-speech switch and only after enough loud frames; speech_end likewise, after enough quiet frames |
| AudioAnalysisProperties.ClassifiedTransitions | backend/audio_analysis_service.py:148-196 | the same transition rule holds for a whole classified step |
| AudioAnalysisProperties.CalibratingSampleIsSilence | backend/audio_analysis_service.py:130-146 | while calibrating every level is recorded and reported as silence, and no speech event is emitted |
| AudioAnalysisProperties.CalibrationCompletes | backend/audio_analysis_service.py:130-137 | calibration completes exactly when its duration has elapsed, emits calibration_complete and takes floor and deviation from the collected levels |
| AudioAnalysisProperties.CalibratedSampleAdded | backend/audio_analysis_service.py:126-128 | once calibrated, adding a level is classification at the given or current time |
| AudioAnalysisProperties.ApplyTransition | backend/audio_analysis_service.py:169-196 | every operation's speech events are exactly the transition between the speech states before and after it |
| AudioAnalysisProperties.SpeechEventsAlternate | backend/audio_analysis_service.py:172-196 | over any sequence of operations speech_start and speech_end alternate, from the first state to the last |
| AudioAnalysisProperties.FirstSpeechEventIsStart | backend/audio_analysis_service.py:59-61 | from a new detector the first speech event is always speech_start |
| AudioAnalysisProperties.MeanBounds | backend/audio_analysis_service.py:224 | the mean of levels lies between their lower and upper bounds |
| AudioAnalysisProperties.BlendBetween | backend/audio_analysis_service.py:225-226 | smoothing with a factor in [0, 1] lands between the old floor and the new estimate |
| AudioAnalysisProperties.RecalibratedFloorBounded | backend/audio_analysis_service.py:214-226 | re-estimation keeps the noise floor within any bounds containing the old floor and the history |
| AudioAnalysisProperties.AdjustmentKeepsFactorInRange | backend/audio_analysis_service.py:240-244 | a factor in [1.2, 2.5] stays in that range after adjustment |
| AudioAnalysisProperties.AdjustmentClamps | backend/audio_analysis_service.py:240-249 | raising never passes 2.5 unless already above it; lowering never passes 1.2 unless already below it |
| AudioAnalysisProperties.AppendEvictOnceStaysOver | backend/audio_analysis_service.py:149-151 | a 51-level history with limit 50 is still 51 long after one step of the code as written |
| AudioAnalysisProperties.KeepLatestAgreesWithinLimit | backend/audio_analysis_service.py:149-151 | within the limit, the corrected history update is the one as written |
| AudioAnalysisProperties.DetectionAgainstThreshold | backend/audio_analysis_service.py:258-292 | the threshold is 0.1 before calibration and at least the floor after it; a level is speech exactly when it is above the threshold, so a louder level is speech whenever a quieter one is; without a level the stored state answers |
| AudioAnalysisProperties.RemoveAfterAdd | backend/audio_analysis_service.py:312-323 | removing a callback just added restores the previous listener list |
| SileroVad.RequiredSamples | backend/silero_vad_service.py:66 | the window is 512 samples exactly at 16 kHz, and 256 otherwise |
| SileroVad.MergeSileroConfig | backend/silero_vad_service.py:52-54 | `dict.update` of the Silero configuration: a patch with no keys leaves it unchanged |
| SileroVadProperties.MergeSileroConfigTwice | backend/silero_vad_service.py:356-358 | updating the Silero configuration twice with the same keys gives the same configuration as once |
| SileroVad.Int16 | backend/silero_vad_service.py:235 | two bytes decode to a signed 16-bit value |
| SileroVad.DecodePcm16 | backend/silero_vad_service.py:233-235 | an odd number of bytes is rejected; otherwise each byte pair becomes its little-endian int16 divided by 32768 |
| SileroVadProperties.DecodeEncode | backend/silero_vad_service.py:235 | encoding int16 values as little-endian bytes and decoding them gives back each value divided by 32768 |
| SileroVadProperties.Int16OfBytes | backend/silero_vad_service.py:235 | the low and high bytes of an int16 decode to that value |
| SileroVadProperties.DecodedInRange | backend/silero_vad_service.py:235 | every decoded sample lies in [-1, 1) |
| SileroVad.PreparedInput | backend/silero_vad_service.py:186-207 | the prepared input has exactly the required length: the available prefix, padded with zeros |
| SileroVad.Trimmed | backend/silero_vad_service.py:172-184 | trimming drops exactly the used prefix, or empties the buffer when all of it was used |
| SileroVad.Loaded | backend/silero_vad_service.py:145-154 | the model is loaded afterwards exactly when it already was, or a non-ONNX hub load succeeds |
| SileroVad.Created | backend/silero_vad_service.py:48-76 | a new detector has the merged configuration, an empty buffer and zero counts |
| SileroVad.Decoded | backend/silero_vad_service.py:233-237 | bytes are PCM-decoded; samples pass through unchanged |
| SileroVad.Inferred | backend/silero_vad_service.py:253-278 | the model scores the first window, speech means a score above threshold, the positive count follows, and half the window is trimmed |
| SileroVad.Processed | backend/silero_vad_service.py:209-301 | every call counts one prediction and keeps the state valid and its configuration |
| SileroVad.Buffered | backend/silero_vad_service.py:239-278 | buffering keeps the prediction count, window size and load state |
| SileroVad.SileroConfigUpdated | backend/silero_vad_service.py:354-364 | a changed sample rate clears the buffer and resets the window size; an unchanged one keeps both; counts are untouched |
| SileroVad.Stats | backend/silero_vad_service.py:366-383 | the positive rate is a percentage (0 without predictions) and positives never exceed predictions |
| SileroVad.SileroVadService.constructor | backend/silero_vad_service.py:48-76 | the fields hold the created state |
| SileroVad.SileroVadService.EnsureModelLoaded | backend/silero_vad_service.py:145-154 | the fields follow Loaded for this call's load outcome, so a model that failed to load is tried again and can load later; the answer is the load state |
| SileroVad.SileroVadService.AddToBuffer | backend/silero_vad_service.py:156-170 | the buffer grows by the new samples and is returned |
| SileroVad.SileroVadService.TrimBuffer | backend/silero_vad_service.py:172-184 | the buffer becomes its trimmed form |
| SileroVad.SileroVadService.ProcessAudio | backend/silero_vad_service.py:209-301 | state and answer follow Processed, with this call's load outcome |
| SileroVad.SileroVadService.BufferAudio | backend/silero_vad_service.py:239-278 | state and answer follow Buffered |
| SileroVad.SileroVadService.Infer | backend/silero_vad_service.py:253-278 | state and answer follow Inferred |
| SileroVad.SileroVadService.UpdateConfig | backend/silero_vad_service.py:354-364 | the fields follow SileroConfigUpdated |
| SileroVad.SileroVadService.GetStats | backend/silero_vad_service.py:366-383 | the reported rate is a percentage and positives never exceed predictions |
| SileroVadProperties.ProcessedFailures | backend/silero_vad_service.py:219-301 | "model not loaded" happens exactly when no model can be loaded, and a decoding failure exactly for odd-length bytes; both leave buffer and positives alone and answer silence |
| SileroVadProperties.ProcessedDecodable | backend/silero_vad_service.py:219-240 | with a loadable model and decodable input, processing is counting and then buffering the decoded samples |
| SileroVadProperties.BufferedKeeps | backend/silero_vad_service.py:239-251 | below the window size the samples are only buffered and the answer reports the buffered and required counts |
| SileroVadProperties.BufferedScores | backend/silero_vad_service.py:253-278 | at or above the window size the first window is scored and the buffer keeps everything after its first half |
| SileroVadProperties.SlidingWindows | backend/silero_vad_service.py:239-278 | over any chunk sequence the scores are the model applied to consecutive windows of the concatenated stream, advancing by half a window each, and the buffer is the rest |
| SileroVadProperties.BacklogGrows | backend/silero_vad_service.py:276-278 | with equal-sized chunks the buffer shrinks by at most half a window per chunk, so chunks larger than that make it grow without bound |
| SocketVad.TruncDiv | backend/socket_vad_service.py:97-99 | the quotient is the multiple of the divisor nearest zero without passing the dividend (q·b ≤ a < (q+1)·b for a ≥ 0, (q−1)·b < a ≤ q·b below), as int() truncates |
| SocketVad.FrameSize | backend/socket_vad_service.py:95-99 | the frame size is the whole number of bytes in one frame of 16-bit samples, rounded down |
| SocketVadProperties.DefaultFrameSize | backend/socket_vad_service.py:96-99 | the default configuration gives 960-byte frames |
| SocketVad.MergeSessionConfig | backend/socket_vad_service.py:62-64 | `dict.update` of the session configuration over its defaults: a patch with no keys leaves it unchanged |
| SocketVadProperties.MergeSessionConfigTwice | backend/socket_vad_service.py:291-293 | updating the session configuration twice with the same keys gives the same configuration as once |
| SocketVad.Expired | backend/socket_vad_service.py:107-110 | a session whose last activity is not before `now` is never expired under a non-negative timeout (ExpiredRemovedExactly uses it for cleanup) |
| SocketVadProperties.ExpiredStaysExpired | backend/socket_vad_service.py:107-110 | once a session is expired it stays expired at every later time |
| SocketVad.Ensemble | backend/socket_vad_service.py:223-249 | with no weight the RMS vote decides with score 0; otherwise speech means a weighted score above 0.5 |
| SocketVadProperties.EnsembleScoreInUnitInterval | backend/socket_vad_service.py:243-246 | with non-negative weights the ensemble score lies in [0, 1] |
| SocketVadProperties.DefaultEnsembleIsMajority | backend/socket_vad_service.py:223-249 | with the default weights the ensemble is a two-of-three majority |
| SocketVadProperties.EnsembleUnanimous | backend/socket_vad_service.py:223-249 | when all three detectors agree, the ensemble agrees |
| SocketVad.PushFrame | backend/socket_vad_service.py:262-264 | the frame history grows by one up to 100 frames and then stays at its length |
| SocketVadProperties.PushFrameKeepsNewest | backend/socket_vad_service.py:262-264 | the frame history is the newest 100 frames, ending with the new one |
| SocketVad.NewSession | backend/socket_vad_service.py:51-99 | a new session has the id, configuration and frame size, no frames or speech, and WebRTC and Silero detectors exactly when enabled |
| SocketVad.SileroJudged | backend/socket_vad_service.py:211-221 | Silero is consulted only when present and the frame is whole; otherwise it answers silence with confidence 0 and is left alone |
| SocketVad.WebrtcJudged | backend/socket_vad_service.py:202-209 | WebRTC votes speech only for a session that has the detector and only on a whole frame |
| SocketVad.FrameProcessed | backend/socket_vad_service.py:181-279 | a frame changes only counters, detectors and frame history |
| SocketVad.Analysed | backend/socket_vad_service.py:192-200 | analysing a level counts one frame and changes only the detector |
| SocketVad.Recorded | backend/socket_vad_service.py:251-267 | the frame is appended to the history and counted as speech exactly when the ensemble said so |
| SocketVad.FramesRun | backend/socket_vad_service.py:137-143 | the frame loop changes only counters, detectors and history, and does nothing once no whole frame is left |
| SocketVad.FramesFrom | backend/socket_vad_service.py:137-143 | the loop body from a whole frame keeps the same frame of change |
| SocketVad.FramesRunStep | backend/socket_vad_service.py:139-143 | the loop is the first frame's processing followed by the loop from the next offset |
| SocketVad.SpeechCount | backend/socket_vad_service.py:148 | the speech frames counted are at most the frames judged |
| SocketVad.Decided | backend/socket_vad_service.py:145-179 | the chunk answer is a start, an end or an update; an update leaves the session unchanged; only the speaking state and its times change |
| SocketVad.ChunkProcessed | backend/socket_vad_service.py:116-179 | every chunk, valid or not, stamps the session's activity time and keeps it valid |
| SocketVad.ChunkResponse.ErrorMessage | backend/socket_vad_service.py:133-135 | undecodable audio answers "Invalid audio data format"; an unknown session (:414) answers a message 18 characters longer than the id, holding the id after "Session " |
| SocketVad.VadConfigUpdated | backend/socket_vad_service.py:289-316 | the configuration is always merged and the session stays valid, also when the update fails on a rejected WebRTC mode or a missing Silero detector |
| SocketVad.ConfigMerged | backend/socket_vad_service.py:292-297 | the keys are merged, and the WebRTC detector is rebuilt exactly when aggressiveness is given, WebRTC is on and the mode is in 0..3; otherwise the old detector stays |
| SocketVad.SileroRated | backend/socket_vad_service.py:299-303 | only the Silero detector changes |
| SocketVad.Sensitized | backend/socket_vad_service.py:305-313 | only the noise detector changes |
| SocketVad.Recalibrated | backend/socket_vad_service.py:315-316 | only the noise detector changes |
| SocketVad.UserSession.constructor | backend/socket_vad_service.py:51-105 | the fields hold NewSession's state, in fresh objects |
| SocketVad.UserSession.IsExpired | backend/socket_vad_service.py:107-110 | a session active at or after `now` is not expired under a non-negative timeout; the registry proves it agrees with Expired on the session's state |
| SocketVad.UserSession.UpdateActivity | backend/socket_vad_service.py:112-114 | only the activity time changes |
| SocketVad.UserSession.ProcessFrame | backend/socket_vad_service.py:181-279 | state and answer follow FrameProcessed |
| SocketVad.UserSession.AnalyseLevel | backend/socket_vad_service.py:192-200 | state and answer follow Analysed |
| SocketVad.UserSession.JudgeWithSilero | backend/socket_vad_service.py:211-221 | the Silero state and vote follow SileroJudged |
| SocketVad.UserSession.RecordFrame | backend/socket_vad_service.py:251-267 | the fields follow Recorded |
| SocketVad.UserSession.ProcessAudioChunk | backend/socket_vad_service.py:116-179 | state and answer follow ChunkProcessed |
| SocketVad.UserSession.ProcessFrames | backend/socket_vad_service.py:137-143 | state and frame results follow FramesRun from offset 0 |
| SocketVad.UserSession.Decide | backend/socket_vad_service.py:145-179 | state and answer follow Decided |
| SocketVad.UserSession.ForceRecalibration | backend/socket_vad_service.py:285-287 | only the noise detector changes, to a restarted calibration |
| SocketVad.UserSession.UpdateVadConfig | backend/socket_vad_service.py:289-316 | state and status follow VadConfigUpdated |
| SocketVad.UserSession.MergeConfig | backend/socket_vad_service.py:292-297 | the fields follow ConfigMerged |
| SocketVad.UserSession.RateSilero | backend/socket_vad_service.py:299-303 | the fields follow SileroRated |
| SocketVad.UserSession.SensitizeAudio | backend/socket_vad_service.py:305-313 | the fields follow Sensitized |
| SocketVadProperties.FrameProcessedCounts | backend/socket_vad_service.py:181-279 | a frame adds one to the total, one to the speech count exactly when judged speech, and its record to the history |
| SocketVadProperties.FrameProcessedVerdict | backend/socket_vad_service.py:223-249 | a frame's verdict and score are the ensemble of its three votes |
| SocketVadProperties.FramesCoverData | backend/socket_vad_service.py:137-143 | the frames are consecutive whole slices of the data, and less than one frame is left over |
| SocketVadProperties.FrameCount | backend/socket_vad_service.py:137-143 | the number of frames is the data length divided by the frame size, rounded down |
| SocketVadProperties.FramesRunIsFramesOver | backend/socket_vad_service.py:137-143 | the offset loop processes exactly those frames, in order |
| SocketVadProperties.FramesOverCounts | backend/socket_vad_service.py:137-143 | processing frames adds one to the total per frame and one speech frame per speech verdict, stamps all with the chunk time, and keeps speaking state, identity and configuration |
| SocketVadProperties.FramesRunCounts | backend/socket_vad_service.py:137-143 | the loop yields one result per whole frame, with the same counts |
| SocketVadProperties.DecidedStart | backend/socket_vad_service.py:145-162 | speech_start happens exactly when a silent session gets a majority of speech frames; the confidence is the speech ratio |
| SocketVadProperties.DecidedEnd | backend/socket_vad_service.py:163-171 | speech_end happens exactly when a speaking session gets no majority; the duration runs from the start time |
| SocketVadProperties.DecidedWithoutFrames | backend/socket_vad_service.py:173-179 | with no frames the answer is an update and nothing changes |
| SocketVadProperties.InvalidAudioChangesOnlyActivity | backend/socket_vad_service.py:126-135 | undecodable audio answers an error and only touches the activity time |
| SocketVadProperties.ShortChunkIsUpdate | backend/socket_vad_service.py:137-179 | a chunk shorter than one frame answers an update and only touches the activity time |
| SocketVadProperties.ChunkKeepsIdentity | backend/socket_vad_service.py:116-179 | a chunk keeps the session's id, configuration and frame size, and every answer but the error names the session |
| SocketVadProperties.NoChangesKeepSession | backend/socket_vad_service.py:289-293 | an empty configuration update changes nothing and succeeds |
| SocketVadProperties.VadConfigUpdateFails | backend/socket_vad_service.py:289-303 | the update fails exactly when WebRTC is to be rebuilt with a mode outside 0..3 (then only the keys are merged) or when a sample rate is given with Silero enabled but no Silero detector exists; on failure neither the energy nor the Silero detector changes |
| SocketVadProperties.VadConfigUpdateApplies | backend/socket_vad_service.py:289-316 | a successful update merges the configuration, rebuilds WebRTC with a valid mode and re-rates Silero only when asked, applies the factor and recalibration, and keeps speech state, frames and counters |
| SocketVadProperties.DecidedAlternates | backend/socket_vad_service.py:145-171 | a chunk's speech event is the switch between the speaking states before and after it |
| SocketVadProperties.ApplyAlternates | backend/socket_vad_service.py:116-179 | every session operation's events are the switch between its speaking states |
| SocketVadProperties.ChunkEventsAlternate | backend/socket_vad_service.py:145-171 | over any sequence of operations speech_start and speech_end alternate |
| SocketVadProperties.FirstChunkEventIsStart | backend/socket_vad_service.py:154-162 | for a new session the first speech event is speech_start |
| SessionRegistry.Opened | backend/socket_vad_service.py:376-397 | the id handed back is the given one or the fresh one, it is filed, other sessions are untouched and its activity time is now |
| SessionRegistry.AudioProcessed | backend/socket_vad_service.py:399-414 | only the addressed session changes; an unknown id answers "not found" and changes nothing |
| SessionRegistry.ExpiredRemoved | backend/socket_vad_service.py:416-428 | cleanup keeps exactly the sessions that have not expired, unchanged |
| SessionRegistry.Removed | backend/socket_vad_service.py:447-452 | removal drops only that id and reports whether it was there |
| SessionRegistry.SocketVadService.constructor | backend/socket_vad_service.py:358-368 | a new registry is empty and has the merged configuration |
| SessionRegistry.SocketVadService.GetOrCreateSession | backend/socket_vad_service.py:376-397 | the session map and id follow Opened, and the session object returned is the one filed |
| SessionRegistry.SocketVadService.TouchSession | backend/socket_vad_service.py:387-391 | a live session only has its activity time moved |
| SessionRegistry.SocketVadService.CreateSession | backend/socket_vad_service.py:393-397 | a new session is filed under the id |
| SessionRegistry.SocketVadService.ProcessAudio | backend/socket_vad_service.py:399-414 | the session map and answer follow AudioProcessed |
| SessionRegistry.SocketVadService.ForwardChunk | backend/socket_vad_service.py:410-412 | the addressed session's state and answer follow ChunkProcessed; no other session changes |
| SessionRegistry.SocketVadService.CleanupExpiredSessions | backend/socket_vad_service.py:416-437 | the session map follows ExpiredRemoved |
| SessionRegistry.SocketVadService.RemoveAll | backend/socket_vad_service.py:426-428 | the given ids are removed and nothing else |
| SessionRegistry.SocketVadService.ExpiredIds | backend/socket_vad_service.py:420-424 | the ids returned are exactly those of expired sessions |
| SessionRegistry.SocketVadService.SessionCount | backend/socket_vad_service.py:439-441 | the count is the number of sessions filed |
| SessionRegistry.SocketVadService.GetSession | backend/socket_vad_service.py:443-445 | a session is returned exactly when its id is filed, and it is that session |
| SessionRegistry.SocketVadService.RemoveSession | backend/socket_vad_service.py:447-452 | the session map and answer follow Removed |
| SessionRegistryProperties.OpenedKeyed | backend/socket_vad_service.py:393-397 | getting or creating keeps every session valid and filed under its own id |
| SessionRegistryProperties.AudioProcessedKeyed | backend/socket_vad_service.py:399-414 | processing keeps every session filed under its own id, and every answer but the error names the id asked for |
| SessionRegistryProperties.ExpiredRemovedKeyed | backend/socket_vad_service.py:416-428 | cleanup keeps every session filed under its own id |
| SessionRegistryProperties.RemovedKeyed | backend/socket_vad_service.py:447-452 | removal keeps every session filed under its own id |
| SessionRegistryProperties.OpenedSession | backend/socket_vad_service.py:376-397 | a live session comes back with only its activity time moved; otherwise a fresh session with no frames or speech is created now |
| SessionRegistryProperties.ReopenedIsSame | backend/socket_vad_service.py:386-391 | asking again, at the same time, for the id just handed back returns it and leaves the registry as it is |
| SessionRegistryProperties.ExpiredRemovedIdempotent | backend/socket_vad_service.py:416-428 | a second cleanup at the same time removes nothing more |
| SessionRegistryProperties.OpenedSurvivesCleanup | backend/socket_vad_service.py:107-110 | a session just got or created survives a cleanup at the same time |
| SessionRegistryProperties.ExpiredRemovedExactly | backend/socket_vad_service.py:107-110 | a session is removed exactly when it has been idle longer than its timeout |
| SessionRegistryProperties.RemovedUndoesCreate | backend/socket_vad_service.py:447-452 | removing a session just created under an unused id restores the registry |
| SessionRegistryProperties.RemovedTwice | backend/socket_vad_service.py:447-452 | a second removal of the same id finds nothing and changes nothing |

## Left out

- Counted: the history is trimmed with the corrected rule `KeepLatest` (at most `max_sample_history` levels), not with the single `pop(0)` the code does. After a calibration that collected more than the limit (67 levels at the defaults, limit 50), the code's `samples_count` stays at 67 while the model reports 50. When `max_sample_history` is below 10, the window `_recalibrate_from_recent_silence` averages differs as well. This carries into `ClassifiedSample`, `SampleAdded`, `AddAudioSample` and `SocketVad.Analysed`. `AppendEvictOnce` models the code as written; see "## Findings".
- PushSample: the history update uses the corrected rule `KeepLatest`, not the code's single `pop(0)`, with the same visible differences as `Counted`.
- A session's load outcome for Silero (`Oracles.hubLoads`) is fixed for the session's life. A session whose Silero model failed to load therefore never loads it later. The Silero class itself takes the outcome per call.
- `SileroVADService.__new__` makes the Silero service a process-wide singleton. Here each session owns its own detector. Shared buffering and counts across sessions are not modelled.
- The torch hub, ONNX and device handling in `_load_model` is left out. Whether a load attempt succeeds is the parameter `hubLoads` of each `EnsureModelLoaded` and `ProcessAudio` call, and the model's mean speech probability for a window is the function parameter `model`. Load and inference timing (`load_time_ms`, `avg_inference_time_ms`), `device` and `threshold` in the stats are not modelled.
- `get_speech_timestamps_from_buffer` is not part of this model: it only calls into the foreign helper.
- Exceptions other than odd-length PCM inside Silero's `process_audio` are not modelled. Tensor conversion and model failures are not modelled either.
- The `webrtcvad` vote is a parameter. Its exception, which the code catches as "not speech", is folded into that vote.
- The numpy RMS of a frame and `statistics.stdev` are parameters of the model.
- Floating point is modelled as exact reals. `frame_size` is modelled as the exact product truncated. It agrees with the code only where the floating-point product is exact, which covers the usual rates and durations (16000 Hz at 30 ms gives 960). Elsewhere the two can differ: at 100 Hz and 290 ms the code computes 57.99999999999999 and gets 57, while the model gets 58.
- An odd frame size would make `np.frombuffer` raise inside `_process_frame`. The RMS parameter does not model that exception.
- A configuration whose frame size is zero or negative is excluded by the constructors' preconditions. With zero, the Python loop `range(0, n, 0)` raises; with a negative size the loop is empty and every chunk answers `vad_update`.
- NewSession: a session is always created. The code raises at backend/socket_vad_service.py:73-74 when WebRTC is on and `aggressiveness` is outside 0..3, because `webrtcvad.Vad` rejects the mode; the model instead creates a session whose WebRTC mode is that value. The service's only instance (backend/socket_vad_service.py:455) uses the default mode 2. `update_vad_config` does model the same raise.
- `process_audio_chunk` reads the clock twice: once for `update_activity` and once for the timestamp. The model uses one `now` for both.
- The `threading.Timer` that schedules cleanup every 60 seconds is not modelled. Cleanup is an operation called with `now`, and the catch-all around it is not modelled.
- Debug printing is not modelled, and neither are `get_debug_state`, `get_noise_profile` on the session and the `is_calibrating` getter. They only read state that `Profile` and the classes expose.
- `_emit_event` does not call listener callbacks. Emitted events are recorded in the field `emitted` in order, and callbacks are opaque values.
- `debug` and `buffer_size` configuration keys have no effect on the modelled behaviour and are not modelled.
- The WebSocket transport and the HTTP/API handlers that call this core are not part of this model.

## Findings

| source | as written | input that shows it | evidently intended | confidence | as-written member | corrected member |
|---|---|---|---|---|---|---|
| backend/audio_analysis_service.py:149-151 | once the history exceeds `max_sample_history`, one `pop(0)` per new level keeps it at its length. Calibration appends with no limit, so the history can enter classification already over the limit | a 51-level history with limit 50, which a 2000 ms calibration at 30 ms frames (about 67 levels) produces, is still 51 long after the next level | the history holds at most `max_sample_history` levels, the latest ones | not executed | AudioAnalysisProperties.AppendEvictOnceStaysOver | AudioAnalysis.KeepLatest |
