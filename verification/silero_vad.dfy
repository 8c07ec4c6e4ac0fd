/**
 * The sample buffer of backend/silero_vad_service.py. Incoming audio is
 * appended to a buffer; once it holds a full window (512 samples at 16 kHz,
 * 256 otherwise) the first window goes to the neural model and the buffer
 * drops half a window, so consecutive windows overlap by half.
 *
 * The model itself is not modelled: `model(window, sampleRate)` is the mean
 * speech probability it returns, and `hubLoads` says whether fetching it from
 * torch hub succeeds.
 */
module SileroVad {
  import opened Common

  /** The configuration keys the buffer logic reads (the speech-timestamp keys, device and paths are left out). */
  datatype SileroConfig = SileroConfig(sampleRate: int, useOnnx: bool, threshold: real, cacheModel: bool)

  const DefaultSileroConfig := SileroConfig(16000, false, 0.5, true)

  /** A partial configuration, as passed to `__init__` and `update_config`. */
  datatype SileroPatch = SileroPatch(
    sampleRate: Option<int>,
    useOnnx: Option<bool>,
    threshold: Option<real>,
    cacheModel: Option<bool>)

  /** A patch with no keys. */
  const NoSileroChanges := SileroPatch(None, None, None, None)

  function MergeSileroConfig(c: SileroConfig, p: SileroPatch): (r: SileroConfig)
    ensures p == NoSileroChanges ==> r == c
  {
    SileroConfig(
      p.sampleRate.GetOr(c.sampleRate),
      p.useOnnx.GetOr(c.useOnnx),
      p.threshold.GetOr(c.threshold),
      p.cacheModel.GetOr(c.cacheModel))
  }

  /** The window the model requires: 512 samples at 16 kHz and 256 at any other rate. */
  function RequiredSamples(sampleRate: int): (n: nat)
    ensures n == 512 <==> sampleRate == 16000
    ensures n == 256 <==> sampleRate != 16000
  {
    if sampleRate == 16000 then 512 else 256
  }

  // ---------------------------------------------------------------- PCM decoding

  /** The signed 16-bit value of a little-endian byte pair. */
  function Int16(lo: byte, hi: byte): (v: int)
    ensures -32768 <= v < 32768
  {
    var u := lo as int + 256 * hi as int;
    if u >= 32768 then u - 65536 else u
  }

  /**
   * `np.frombuffer(data, dtype=np.int16) / 32768.0`: each byte pair becomes a
   * sample in [-1, 1); a buffer of odd length is refused (numpy raises).
   */
  function DecodePcm16(data: seq<byte>): (r: Option<seq<real>>)
    ensures r.None? <==> |data| % 2 == 1
    ensures r.Some? ==> |r.value| == |data| / 2
    ensures r.Some? ==> forall i :: 0 <= i < |r.value| ==>
              r.value[i] == Int16(data[2 * i], data[2 * i + 1]) as real / 32768.0
    decreases |data|
  {
    if |data| % 2 == 1 then None
    else if data == [] then Some([])
    else
      var rest := DecodePcm16(data[2..]).value;
      Some([Int16(data[0], data[1]) as real / 32768.0] + rest)
  }

  /** The audio `process_audio` accepts: raw 16-bit PCM bytes or an array of samples. */
  datatype AudioInput = Pcm16(bytes: seq<byte>) | Samples(values: seq<real>)

  /** The message numpy raises for a byte buffer of odd length. */
  const OddBufferMessage := "buffer size must be a multiple of element size"

  // ---------------------------------------------------------------- buffer operations

  /**
   * `_prepare_exact_size_input`: exactly `required` samples, the input
   * followed by zeros when it is shorter, else its prefix; and the number of
   * input samples used.
   */
  function PreparedInput(audio: seq<real>, required: nat): (r: (seq<real>, nat))
    ensures |r.0| == required
    ensures r.1 == Min(|audio|, required)
    ensures r.0[..r.1] == audio[..r.1]
    ensures forall i :: r.1 <= i < required ==> r.0[i] == 0.0
  {
    if |audio| < required then (audio + seq(required - |audio|, _ => 0.0), |audio|)
    else (audio[..required], required)
  }

  /** `_trim_buffer(used)`: the buffer without its first `used` samples (empty when it has no more). */
  function Trimmed(buffer: seq<real>, used: nat): (r: seq<real>)
    ensures used >= |buffer| ==> r == []
    ensures used < |buffer| ==> |r| == |buffer| - used && buffer == buffer[..used] + r
  {
    if used >= |buffer| then [] else buffer[used..]
  }

  // ---------------------------------------------------------------- results and state

  /** The dictionaries `process_audio` returns. */
  datatype SileroResult =
    | ModelNotLoaded
    | Failed(message: string)
    | Buffering(bufferSamples: nat, requiredSamples: nat)
    | Detected(isSpeech: bool, confidence: real, bufferSamples: nat)
  {
    /** The `is_speech` key: false on every path but a detection. */
    function Speech(): bool {
      Detected? && isSpeech
    }

    /** The `confidence` key: 0.0 on every path but a detection. */
    function Confidence(): real {
      if Detected? then confidence else 0.0
    }
  }

  /** The state of one `SileroVADService`, without the model object and the timing statistics. */
  datatype Silero = Silero(
    config: SileroConfig,
    modelLoaded: bool,
    buffer: seq<real>,
    required: nat,
    total: nat,
    positive: nat)

  /**
   * What every reachable state satisfies: the window size matches the sample
   * rate, and positive predictions never outnumber predictions.
   */
  predicate SileroValid(s: Silero) {
    && s.required == RequiredSamples(s.config.sampleRate)
    && s.positive <= s.total
  }

  /** `ensure_model_loaded()`: an unloaded model is loaded; ONNX always fails, torch hub as `hubLoads` says. */
  function Loaded(s: Silero, hubLoads: bool): (r: Silero)
    ensures r == s.(modelLoaded := r.modelLoaded)
    ensures r.modelLoaded <==> s.modelLoaded || (!s.config.useOnnx && hubLoads)
  {
    if s.modelLoaded then s else s.(modelLoaded := !s.config.useOnnx && hubLoads)
  }

  /** `__init__(config)`: defaults merged with `patch`, an empty buffer, and the model loaded when caching is on. */
  function Created(p: SileroPatch, hubLoads: bool): (s: Silero)
    ensures SileroValid(s) && s.buffer == [] && s.total == 0 && s.positive == 0
    ensures s.config == MergeSileroConfig(DefaultSileroConfig, p)
  {
    var cfg := MergeSileroConfig(DefaultSileroConfig, p);
    var s := Silero(cfg, false, [], RequiredSamples(cfg.sampleRate), 0, 0);
    if cfg.cacheModel then Loaded(s, hubLoads) else s
  }

  /** The samples an input stands for, or the error its decoding raises. */
  function Decoded(input: AudioInput): (r: Option<seq<real>>)
    ensures input.Samples? ==> r == Some(input.values)
    ensures input.Pcm16? ==> r == DecodePcm16(input.bytes)
  {
    match input
    case Samples(v) => Some(v)
    case Pcm16(b) => DecodePcm16(b)
  }

  /**
   * The inference step of `process_audio` once the buffer `combined` holds at
   * least a window: the first window is scored, a score above the threshold
   * is speech, and the buffer drops half a window.
   */
  function Inferred(s: Silero, combined: seq<real>, model: (seq<real>, int) -> real): (r: (Silero, SileroResult))
    requires |combined| >= s.required && s.positive < s.total
    ensures var (window, used) := PreparedInput(combined, s.required);
            && used == s.required && window == combined[..s.required]
            && r.1 == Detected(model(window, s.config.sampleRate) > s.config.threshold,
                               model(window, s.config.sampleRate), |r.0.buffer|)
            && r.0 == s.(buffer := Trimmed(combined, used / 2),
                         positive := if r.1.isSpeech then s.positive + 1 else s.positive)
  {
    var (window, used) := PreparedInput(combined, s.required);
    var confidence := model(window, s.config.sampleRate);
    var isSpeech := confidence > s.config.threshold;
    var next := s.(buffer := Trimmed(combined, used / 2),
                   positive := if isSpeech then s.positive + 1 else s.positive);
    (next, Detected(isSpeech, confidence, |next.buffer|))
  }

  /**
   * `process_audio(audio_data)`: the prediction is counted first; without a
   * model nothing else happens; an undecodable input leaves the buffer as it
   * was; otherwise the input is buffered and, once a window is available, scored.
   */
  function Processed(s: Silero, input: AudioInput, hubLoads: bool, model: (seq<real>, int) -> real): (r: (Silero, SileroResult))
    requires SileroValid(s)
    ensures SileroValid(r.0) && r.0.total == s.total + 1 && r.0.config == s.config
  {
    var counted := Loaded(s.(total := s.total + 1), hubLoads);
    if !counted.modelLoaded then (counted, ModelNotLoaded)
    else
      match Decoded(input)
      case None => (counted, Failed(OddBufferMessage))
      case Some(audio) => Buffered(counted, audio, model)
  }

  /**
   * The decoded audio joins the buffer; with less than a window nothing is
   * scored, otherwise the first window is.
   */
  function Buffered(s: Silero, audio: seq<real>, model: (seq<real>, int) -> real): (r: (Silero, SileroResult))
    requires SileroValid(s) && s.positive < s.total
    ensures SileroValid(r.0) && r.0.total == s.total && r.0.config == s.config
    ensures r.0.required == s.required && r.0.modelLoaded == s.modelLoaded
  {
    var combined := s.buffer + audio;
    if |combined| < s.required then
      (s.(buffer := combined), Buffering(|combined|, s.required))
    else
      Inferred(s, combined, model)
  }

  /** `update_config(new_config)`: the keys are merged; a new sample rate resizes the window and clears the buffer. */
  function SileroConfigUpdated(s: Silero, p: SileroPatch): (r: Silero)
    requires SileroValid(s)
    ensures SileroValid(r) && r.config == MergeSileroConfig(s.config, p)
    ensures r.config.sampleRate != s.config.sampleRate ==> r.buffer == []
    ensures r.config.sampleRate == s.config.sampleRate ==> r.buffer == s.buffer && r.required == s.required
    ensures r.modelLoaded == s.modelLoaded && r.total == s.total && r.positive == s.positive
  {
    var cfg := MergeSileroConfig(s.config, p);
    if cfg.sampleRate != s.config.sampleRate then
      s.(config := cfg, required := RequiredSamples(cfg.sampleRate), buffer := [])
    else
      s.(config := cfg)
  }

  /** The counters and sizes `get_stats` reports (timings, device and load time are left out). */
  datatype SileroStats = SileroStats(
    totalPredictions: nat,
    positivePredictions: nat,
    positiveRate: real,
    modelLoaded: bool,
    threshold: real,
    bufferSize: nat,
    requiredSamples: nat)

  /** `get_stats()`: the positive rate is a percentage, 0 before any prediction. */
  function Stats(s: Silero): (r: SileroStats)
    requires SileroValid(s)
    ensures s.total == 0 ==> r.positiveRate == 0.0
    ensures 0.0 <= r.positiveRate <= 100.0
    ensures r.positivePredictions <= r.totalPredictions
    ensures r.bufferSize == |s.buffer| && r.requiredSamples == s.required
  {
    var rate :=
      if s.total > 0 then
        QuotientBetween(s.positive as real, s.total as real, 0.0, 1.0);
        s.positive as real / s.total as real * 100.0
      else 0.0;
    SileroStats(s.total, s.positive, rate, s.modelLoaded, s.config.threshold, |s.buffer|, s.required)
  }

  // ---------------------------------------------------------------- the service object

  /**
   * `SileroVADService`. The source makes it a process-wide singleton; here
   * every session creates and owns an instance of its own.
   */
  class SileroVadService {
    var config: SileroConfig
    var modelLoaded: bool
    var buffer: seq<real>
    var required: nat
    var total: nat
    var positive: nat
    const model: (seq<real>, int) -> real

    function State(): Silero
      reads this
    {
      Silero(config, modelLoaded, buffer, required, total, positive)
    }

    ghost predicate Valid()
      reads this
    {
      SileroValid(State())
    }

    /** `__init__(config)`. */
    constructor (patch: SileroPatch, hubLoads: bool, model: (seq<real>, int) -> real)
      ensures Valid() && State() == Created(patch, hubLoads)
      ensures this.model == model
    {
      var cfg := MergeSileroConfig(DefaultSileroConfig, patch);
      config := cfg;
      modelLoaded := false;
      buffer := [];
      required := RequiredSamples(cfg.sampleRate);
      total := 0;
      positive := 0;
      this.model := model;
      new;
      if config.cacheModel {
        var _ := EnsureModelLoaded(hubLoads);
      }
    }

    /**
     * `ensure_model_loaded()`, with `_load_model()` reduced to whether this
     * attempt succeeds (`hubLoads`); a failed load is attempted again on the
     * next call.
     */
    method EnsureModelLoaded(hubLoads: bool) returns (loaded: bool)
      requires Valid()
      modifies this
      ensures Valid() && State() == Loaded(old(State()), hubLoads)
      ensures loaded == modelLoaded
    {
      if !modelLoaded {
        modelLoaded := !config.useOnnx && hubLoads;
      }
      loaded := modelLoaded;
    }

    /** `_add_to_buffer(audio)`: the buffer followed by the new samples, in order. */
    method AddToBuffer(audio: seq<real>) returns (combined: seq<real>)
      requires Valid()
      modifies this
      ensures Valid() && State() == old(State()).(buffer := old(buffer) + audio)
      ensures combined == buffer
    {
      buffer := buffer + audio;
      combined := buffer;
    }

    /** `_trim_buffer(used)`. */
    method TrimBuffer(used: nat)
      requires Valid()
      modifies this
      ensures Valid() && State() == old(State()).(buffer := Trimmed(old(buffer), used))
    {
      if used >= |buffer| {
        buffer := [];
      } else {
        buffer := buffer[used..];
      }
    }

    /** `process_audio(audio_data)`; `hubLoads` is whether a load attempted by this call succeeds. */
    method ProcessAudio(input: AudioInput, hubLoads: bool) returns (r: SileroResult)
      requires Valid()
      modifies this
      ensures Valid()
      ensures (State(), r) == Processed(old(State()), input, hubLoads, model)
    {
      total := total + 1;
      var loaded := EnsureModelLoaded(hubLoads);
      if !loaded {
        return ModelNotLoaded;
      }
      var audio := Decoded(input);
      if audio.None? {
        return Failed(OddBufferMessage);
      }
      r := BufferAudio(audio.value);
    }

    /** The buffering half of `process_audio`, once the model is loaded and the input decoded. */
    method BufferAudio(audio: seq<real>) returns (r: SileroResult)
      requires Valid() && positive < total
      modifies this
      ensures Valid()
      ensures (State(), r) == Buffered(old(State()), audio, model)
    {
      var combined := AddToBuffer(audio);
      if |combined| < required {
        return Buffering(|combined|, required);
      }
      r := Infer(combined);
    }

    /** The inference and trimming half of `process_audio`. */
    method Infer(combined: seq<real>) returns (r: SileroResult)
      requires Valid() && |combined| >= required && buffer == combined && positive < total
      modifies this
      ensures Valid()
      ensures (State(), r) == Inferred(old(State()), combined, model)
    {
      var (window, used) := PreparedInput(combined, required);
      var confidence := model(window, config.sampleRate);
      var isSpeech := confidence > config.threshold;
      if isSpeech {
        positive := positive + 1;
      }
      TrimBuffer(used / 2);
      r := Detected(isSpeech, confidence, |buffer|);
    }

    /** `update_config(new_config)`. */
    method UpdateConfig(patch: SileroPatch)
      requires Valid()
      modifies this
      ensures Valid() && State() == SileroConfigUpdated(old(State()), patch)
    {
      var oldRate := config.sampleRate;
      config := MergeSileroConfig(config, patch);
      if oldRate != config.sampleRate {
        required := RequiredSamples(config.sampleRate);
        buffer := [];
      }
    }

    /** `get_stats()`. */
    function GetStats(): (r: SileroStats)
      requires Valid()
      reads this
      ensures 0.0 <= r.positiveRate <= 100.0 && r.positivePredictions <= r.totalPredictions
    {
      Stats(State())
    }
  }
}
