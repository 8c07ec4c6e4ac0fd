/**
 * What the Silero buffer promises: every outcome of `process_audio` and what
 * it does to the buffer, the PCM decoding round trip, and, over a stream of
 * chunks, that the model sees windows of the stream that overlap by half a
 * window — so that chunks longer than half a window leave a growing backlog.
 */
module SileroVadProperties {
  import opened Common
  import opened SileroVad

  // ---------------------------------------------------------------- one call

  /** The paths of `process_audio` that do not reach the buffer leave it as it was. */
  lemma ProcessedFailures(s: Silero, input: AudioInput, hubLoads: bool, model: (seq<real>, int) -> real)
    requires SileroValid(s)
    ensures var r := Processed(s, input, hubLoads, model);
            && (r.1 == ModelNotLoaded <==> !(s.modelLoaded || (!s.config.useOnnx && hubLoads)))
            && (r.1.Failed? <==> r.1 != ModelNotLoaded && input.Pcm16? && |input.bytes| % 2 == 1)
            && (r.1.ModelNotLoaded? || r.1.Failed? ==>
                  r.0.buffer == s.buffer && r.0.positive == s.positive && !r.1.Speech() && r.1.Confidence() == 0.0)
  {
    if !(s.modelLoaded || (!s.config.useOnnx && hubLoads)) {
      NotLoadedPath(s, input, hubLoads, model);
    } else if Decoded(input).None? {
      OddLengthPath(s, input, hubLoads, model);
    } else {
      DecodablePath(s, input, hubLoads, model);
    }
  }

  /** Without a model, `process_audio` answers "not loaded" and touches only the count. */
  lemma NotLoadedPath(s: Silero, input: AudioInput, hubLoads: bool, model: (seq<real>, int) -> real)
    requires SileroValid(s) && !(s.modelLoaded || (!s.config.useOnnx && hubLoads))
    ensures Processed(s, input, hubLoads, model) == (s.(total := s.total + 1), ModelNotLoaded)
  {
  }

  /** With a model, undecodable input is odd-length PCM and fails, touching only the count and the load flag. */
  lemma OddLengthPath(s: Silero, input: AudioInput, hubLoads: bool, model: (seq<real>, int) -> real)
    requires SileroValid(s) && (s.modelLoaded || (!s.config.useOnnx && hubLoads)) && Decoded(input).None?
    ensures input.Pcm16? && |input.bytes| % 2 == 1
    ensures Processed(s, input, hubLoads, model) == (s.(total := s.total + 1, modelLoaded := true), Failed(OddBufferMessage))
  {
  }

  /** With a model and decodable input, the answer is buffering or a detection. */
  lemma DecodablePath(s: Silero, input: AudioInput, hubLoads: bool, model: (seq<real>, int) -> real)
    requires SileroValid(s) && (s.modelLoaded || (!s.config.useOnnx && hubLoads)) && Decoded(input).Some?
    ensures !(input.Pcm16? && |input.bytes| % 2 == 1)
    ensures var r := Processed(s, input, hubLoads, model);
            r.1.Buffering? || r.1.Detected?
  {
    ProcessedDecodable(s, input, hubLoads, model);
    var counted := s.(total := s.total + 1, modelLoaded := true);
    var audio := Decoded(input).value;
    if |counted.buffer| + |audio| >= counted.required {
      assert Buffered(counted, audio, model).1.Detected?;
    }
  }

  /** Once the model is loaded and the input decodes, `process_audio` is the buffering step on the counted state. */
  lemma ProcessedDecodable(s: Silero, input: AudioInput, hubLoads: bool, model: (seq<real>, int) -> real)
    requires SileroValid(s) && Decoded(input).Some?
    requires s.modelLoaded || (!s.config.useOnnx && hubLoads)
    ensures var counted := s.(total := s.total + 1, modelLoaded := true);
            Processed(s, input, hubLoads, model) == Buffered(counted, Decoded(input).value, model)
  {
  }

  /** With less than a window, all of the audio is kept behind the buffer and nothing is scored. */
  lemma BufferedKeeps(s: Silero, audio: seq<real>, model: (seq<real>, int) -> real)
    requires SileroValid(s) && s.positive < s.total
    ensures var r := Buffered(s, audio, model);
            && (r.1.Buffering? <==> |s.buffer| + |audio| < s.required)
            && (r.1.Detected? <==> |s.buffer| + |audio| >= s.required)
            && (r.1.Buffering? ==>
                  && r.0.buffer == s.buffer + audio
                  && r.1.bufferSamples == |r.0.buffer| < r.1.requiredSamples == s.required
                  && r.0.positive == s.positive)
  {
  }

  /**
   * With a full window available, the model scores the first `required`
   * samples, speech means a score above the threshold, and the buffer drops
   * exactly half a window.
   */
  lemma BufferedScores(s: Silero, audio: seq<real>, model: (seq<real>, int) -> real)
    requires SileroValid(s) && s.positive < s.total
    requires |s.buffer| + |audio| >= s.required
    ensures var r := Buffered(s, audio, model);
            var combined := s.buffer + audio;
            && r.1.Detected?
            && r.1.confidence == model(combined[..s.required], s.config.sampleRate)
            && (r.1.isSpeech <==> r.1.confidence > s.config.threshold)
            && r.0.buffer == combined[s.required / 2..]
            && r.1.bufferSamples == |r.0.buffer|
            && r.0.positive == (if r.1.isSpeech then s.positive + 1 else s.positive)
  {
    var combined := s.buffer + audio;
    assert Trimmed(combined, s.required / 2) == combined[s.required / 2..];
  }

  // ---------------------------------------------------------------- PCM round trip

  /** The low byte of a 16-bit two's-complement value. */
  function Low(v: int): byte {
    (v % 65536 % 256) as byte
  }

  /** The high byte of a 16-bit two's-complement value. */
  function High(v: int): byte {
    (v % 65536 / 256) as byte
  }

  /** Little-endian 16-bit PCM bytes of the given sample values (the inverse of the decoding's byte pairing). */
  function EncodePcm16(vs: seq<int>): (r: seq<byte>)
    ensures |r| == 2 * |vs|
    ensures forall i :: 0 <= i < |vs| ==> r[2 * i] == Low(vs[i]) && r[2 * i + 1] == High(vs[i])
  {
    if vs == [] then []
    else [Low(vs[0]), High(vs[0])] + EncodePcm16(vs[1..])
  }

  lemma DoubleIsEven(n: nat)
    ensures (2 * n) % 2 == 0 && (2 * n) / 2 == n
  {
  }

  lemma Int16OfBytes(v: int)
    requires -32768 <= v < 32768
    ensures Int16(Low(v), High(v)) == v
  {
  }

  /** Decoding the bytes of in-range values gives back each value divided by 32768. */
  lemma DecodeEncode(vs: seq<int>)
    requires forall i :: 0 <= i < |vs| ==> -32768 <= vs[i] < 32768
    ensures DecodePcm16(EncodePcm16(vs)) == Some(seq(|vs|, i requires 0 <= i < |vs| => vs[i] as real / 32768.0))
  {
    var bytes := EncodePcm16(vs);
    DoubleIsEven(|vs|);
    var r := DecodePcm16(bytes);
    var expected := seq(|vs|, i requires 0 <= i < |vs| => vs[i] as real / 32768.0);
    assert |r.value| == |expected|;
    forall i | 0 <= i < |vs|
      ensures r.value[i] == expected[i]
    {
      Int16OfBytes(vs[i]);
    }
    assert r.value == expected;
  }

  /** Every decoded sample lies in [-1, 1). */
  lemma DecodedInRange(data: seq<byte>)
    requires DecodePcm16(data).Some?
    ensures forall x :: x in DecodePcm16(data).value ==> -1.0 <= x < 1.0
  {
    var vs := DecodePcm16(data).value;
    forall x | x in vs
      ensures -1.0 <= x < 1.0
    {
      var i :| 0 <= i < |vs| && vs[i] == x;
      var v := Int16(data[2 * i], data[2 * i + 1]);
      assert x == v as real / 32768.0;
    }
  }

  // ---------------------------------------------------------------- streams of chunks

  /** Successive `process_audio` calls on sample arrays, with every result in order. */
  function Feed(s: Silero, chunks: seq<seq<real>>, hubLoads: bool, model: (seq<real>, int) -> real): (r: (Silero, seq<SileroResult>))
    requires SileroValid(s)
    ensures SileroValid(r.0) && |r.1| == |chunks| && r.0.config == s.config
    decreases |chunks|
  {
    if chunks == [] then (s, [])
    else
      var step := Processed(s, Samples(chunks[0]), hubLoads, model);
      var rest := Feed(step.0, chunks[1..], hubLoads, model);
      (rest.0, [step.1] + rest.1)
  }

  /** The confidences of the results that scored a window, in order. */
  function Scores(rs: seq<SileroResult>): (r: seq<real>)
    ensures |r| <= |rs|
  {
    if rs == [] then []
    else if rs[0].Detected? then [rs[0].confidence] + Scores(rs[1..])
    else Scores(rs[1..])
  }

  /** All samples of the chunks, in order. */
  function Flatten(chunks: seq<seq<real>>): (r: seq<real>)
    ensures |r| == TotalLength(chunks)
  {
    if chunks == [] then [] else chunks[0] + Flatten(chunks[1..])
  }

  function TotalLength(chunks: seq<seq<real>>): nat {
    if chunks == [] then 0 else |chunks[0]| + TotalLength(chunks[1..])
  }

  /** Where the j-th window starts when each scoring drops h samples. */
  function Start(j: nat, h: nat): nat {
    j * h
  }

  lemma ProductStep(j: nat, h: nat)
    ensures Start(j + 1, h) == Start(j, h) + h
  {
  }

  /** A window of a stream that has lost its first `h` samples is a window of the stream, `h` further on. */
  lemma Shifted(stream: seq<real>, h: nat, p: nat, n: nat)
    requires h + p + n <= |stream|
    ensures stream[h..][p..p + n] == stream[h + p..h + p + n]
    ensures h + p + n == |stream| ==> stream[h..][p..] == stream[h + p..]
  {
  }

  lemma ProductMonotone(a: nat, b: nat, h: nat)
    requires a <= b
    ensures Start(a, h) <= Start(b, h)
  {
  }

  /**
   * `scores` are the model's verdicts on the windows of `stream` that start
   * every `h` samples, each `required` samples long, and `rest` is what is
   * left of the stream after the last such start.
   */
  ghost predicate Windows(stream: seq<real>, h: nat, required: nat, model: (seq<real>, int) -> real, rate: int,
                          scores: seq<real>, rest: seq<real>)
  {
    && Start(|scores|, h) <= |stream|
    && rest == stream[Start(|scores|, h)..]
    && forall j :: 0 <= j < |scores| ==>
         Start(j, h) + required <= |stream| &&
         scores[j] == model(stream[Start(j, h)..Start(j, h) + required], rate)
  }

  /**
   * Sliding windows. Feeding chunks to a loaded model, the j-th score is the
   * model's verdict on the `required` samples of the stream (the old buffer
   * followed by all chunks) that start at j times half a window, and what is
   * left in the buffer is the stream after the last such start.
   */
  lemma {:induction false} SlidingWindows(s: Silero, chunks: seq<seq<real>>, hubLoads: bool, model: (seq<real>, int) -> real)
    requires SileroValid(s) && s.modelLoaded
    ensures var r := Feed(s, chunks, hubLoads, model);
            && r.0.required == s.required && r.0.modelLoaded
            && Windows(s.buffer + Flatten(chunks), s.required / 2, s.required, model, s.config.sampleRate,
                       Scores(r.1), r.0.buffer)
    decreases |chunks|
  {
    if chunks == [] {
      assert Flatten(chunks) == [];
      assert Start(0, s.required / 2) == 0;
    } else {
      var s1, detected, confidence := FeedStep(s, chunks, hubLoads, model);
      SlidingWindows(s1, chunks[1..], hubLoads, model);
      var rest := Feed(s1, chunks[1..], hubLoads, model);
      SlideStep(s.buffer, chunks[0], Flatten(chunks[1..]), s1.buffer, detected, confidence,
                s.required / 2, s.required, model, s.config.sampleRate, Scores(rest.1), rest.0.buffer);
    }
  }

  /** One chunk of `SlidingWindows`, on the samples alone: either nothing is scored or one window is and `h` samples go. */
  lemma SlideStep(buffer: seq<real>, chunk: seq<real>, later: seq<real>, buffer1: seq<real>,
                  detected: bool, confidence: real, h: nat, required: nat, model: (seq<real>, int) -> real, rate: int,
                  scores1: seq<real>, rest: seq<real>)
    requires h <= required
    requires detected <==> |buffer| + |chunk| >= required
    requires !detected ==> buffer1 == buffer + chunk
    requires detected ==> buffer1 == (buffer + chunk)[h..] && confidence == model((buffer + chunk)[..required], rate)
    requires Windows(buffer1 + later, h, required, model, rate, scores1, rest)
    ensures Windows(buffer + (chunk + later), h, required, model, rate,
                    (if detected then [confidence] else []) + scores1, rest)
  {
    var stream := buffer + (chunk + later);
    var combined := buffer + chunk;
    assert stream == combined + later;
    if !detected {
      assert [] + scores1 == scores1;
    } else {
      assert buffer1 + later == stream[h..];
      assert combined[..required] == stream[..required];
      SlideOnce(stream, h, required, model, rate, buffer1 + later, scores1, rest);
    }
  }

  /**
   * The inductive step of `SlidingWindows`: scoring the first window and
   * dropping `h` samples turns the windows of the shorter stream into the
   * windows of the longer one.
   */
  lemma SlideOnce(stream: seq<real>, h: nat, required: nat, model: (seq<real>, int) -> real, rate: int,
                  stream1: seq<real>, later: seq<real>, rest: seq<real>)
    requires h <= required <= |stream| && stream1 == stream[h..]
    requires Windows(stream1, h, required, model, rate, later, rest)
    ensures Windows(stream, h, required, model, rate, [model(stream[..required], rate)] + later, rest)
  {
    var scores := [model(stream[..required], rate)] + later;
    var a := Start(|later|, h);
    ProductStep(|later|, h);
    Shifted(stream, h, a, |stream| - h - a);
    forall j | 0 <= j < |scores|
      ensures Start(j, h) + required <= |stream|
      ensures scores[j] == model(stream[Start(j, h)..Start(j, h) + required], rate)
    {
      if j == 0 {
        assert Start(j, h) == 0;
      } else {
        var p := Start(j - 1, h);
        ProductStep(j - 1, h);
        assert scores[j] == later[j - 1] == model(stream1[p..p + required], rate);
        Shifted(stream, h, p, required);
      }
    }
  }

  /**
   * One call of `Feed`: the first chunk joins the buffer and, when that makes
   * a full window, the window is scored and half of it dropped; the other
   * chunks follow from the resulting state `s1`.
   */
  lemma FeedStep(s: Silero, chunks: seq<seq<real>>, hubLoads: bool, model: (seq<real>, int) -> real)
    returns (s1: Silero, detected: bool, confidence: real)
    requires SileroValid(s) && s.modelLoaded && chunks != []
    ensures SileroValid(s1) && s1.modelLoaded && s1.required == s.required && s1.config == s.config
    ensures Feed(s, chunks, hubLoads, model).0 == Feed(s1, chunks[1..], hubLoads, model).0
    ensures Scores(Feed(s, chunks, hubLoads, model).1)
            == (if detected then [confidence] else []) + Scores(Feed(s1, chunks[1..], hubLoads, model).1)
    ensures Flatten(chunks) == chunks[0] + Flatten(chunks[1..])
    ensures detected <==> |s.buffer| + |chunks[0]| >= s.required
    ensures !detected ==> s1.buffer == s.buffer + chunks[0]
    ensures detected ==> && s1.buffer == (s.buffer + chunks[0])[s.required / 2..]
                         && confidence == model((s.buffer + chunks[0])[..s.required], s.config.sampleRate)
  {
    var counted := s.(total := s.total + 1, modelLoaded := true);
    ProcessedDecodable(s, Samples(chunks[0]), hubLoads, model);
    var step := Buffered(counted, chunks[0], model);
    var r := Feed(s, chunks, hubLoads, model);
    assert r.1[1..] == Feed(step.0, chunks[1..], hubLoads, model).1;
    BufferedKeeps(counted, chunks[0], model);
    if |s.buffer| + |chunks[0]| >= s.required {
      BufferedScores(counted, chunks[0], model);
    }
    s1, detected, confidence := step.0, step.1.Detected?, step.1.Confidence();
  }

  lemma {:induction false} FlattenUniform(chunks: seq<seq<real>>, m: nat)
    requires forall i :: 0 <= i < |chunks| ==> |chunks[i]| == m
    ensures TotalLength(chunks) == |chunks| * m
    decreases |chunks|
  {
    if chunks != [] {
      FlattenUniform(chunks[1..], m);
      ProductStep(|chunks| - 1, m);
    }
  }

  /**
   * One window at most is scored per call, so chunks of `m` samples with `m`
   * above half a window leave at least `m - required/2` more samples in the
   * buffer per call: the backlog, and the delay between a sample's arrival
   * and its scoring, grow without bound.
   */
  lemma BacklogGrows(s: Silero, chunks: seq<seq<real>>, m: nat, hubLoads: bool, model: (seq<real>, int) -> real)
    requires SileroValid(s) && s.modelLoaded
    requires forall i :: 0 <= i < |chunks| ==> |chunks[i]| == m
    ensures |Feed(s, chunks, hubLoads, model).0.buffer| >= |s.buffer| + |chunks| * m - |chunks| * (s.required / 2)
  {
    var r := Feed(s, chunks, hubLoads, model);
    SlidingWindows(s, chunks, hubLoads, model);
    FlattenUniform(chunks, m);
    ProductMonotone(|Scores(r.1)|, |chunks|, s.required / 2);
  }

  /** `dict.update` with the same keys twice is the same as once. */
  lemma MergeSileroConfigTwice(c: SileroConfig, p: SileroPatch)
    ensures MergeSileroConfig(MergeSileroConfig(c, p), p) == MergeSileroConfig(c, p)
  {
  }
}
