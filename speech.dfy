/** generate_speech_segment_kokoro: reject blank text, run the synthesis
    engine with the fixed voice settings, collect the audio of every segment
    it yields in yield order, concatenate, trim and fade with the fixed
    parameters, and hand the samples to the WAV encoder. The engine and the
    encoder are foreign code and enter the model as parameters. */
module KokoroSpeech {
  import opened Numeric
  import opened TrimFade
  import opened Text

  /** One item the engine yields: graphemes, phonemes and the samples. */
  datatype Segment = Segment(graphemes: string, phonemes: string, audio: seq<real>)

  /** What one engine run produces: the segments it yields, in order, and
      whether it raises once they are exhausted. */
  datatype Generation = Generation(segments: seq<Segment>, raises: bool)

  /** The arguments of one engine call. */
  datatype Request = Request(text: string, voice: string, speed: real, splitPattern: string)

  const Voice: string := "af_bella"
  const Speed: real := 0.8
  const SplitPattern: string := "\\n+"
  const SampleRate: nat := 24000
  const Threshold: real := 0.01
  const FadeDuration: real := 0.05

  /** The engine call the service makes for text. */
  function KokoroRequest(text: string): (q: Request)
    ensures q.text == text && q.voice == "af_bella" && q.speed == 0.8 && q.splitPattern == "\\n+"
  {
    Request(text, Voice, Speed, SplitPattern)
  }

  /** The synthesis engine as the service sees it: a fixed producer of
      segments per request, and the log of the requests made to it. */
  class Engine {
    const pipeline: Request -> Generation
    var requests: seq<Request>

    constructor (pipeline: Request -> Generation)
      ensures this.pipeline == pipeline && requests == []
    {
      this.pipeline := pipeline;
      requests := [];
    }

    /** One invocation: records the request and returns what the engine produces for it. */
    method Run(req: Request) returns (g: Generation)
      modifies this
      ensures g == pipeline(req)
      ensures requests == old(requests) + [req]
    {
      requests := requests + [req];
      g := pipeline(req);
    }
  }

  /** The audio field of every segment, in yield order. */
  function AudioOf(segments: seq<Segment>): (r: seq<seq<real>>)
    ensures |r| == |segments|
  {
    seq(|segments|, k requires 0 <= k < |segments| => segments[k].audio)
  }

  /** The loop that appends the audio of each yielded segment to audio_segments. */
  method CollectAudio(g: Generation) returns (audio: seq<seq<real>>)
    ensures |audio| == |g.segments|
    ensures forall k :: 0 <= k < |audio| ==> audio[k] == g.segments[k].audio
  {
    audio := [];
    for i := 0 to |g.segments|
      invariant |audio| == i
      invariant forall k :: 0 <= k < i ==> audio[k] == g.segments[k].audio
    {
      audio := audio + [g.segments[i].audio];
    }
  }

  /** np.concatenate: the parts one after another. */
  function Concat(parts: seq<seq<real>>): (r: seq<real>)
    ensures |r| == TotalLength(parts)
  {
    if parts == [] then [] else parts[0] + Concat(parts[1..])
  }

  function TotalLength(parts: seq<seq<real>>): nat
  {
    if parts == [] then 0 else |parts[0]| + TotalLength(parts[1..])
  }

  /** Concatenation splits along any split of the parts. */
  lemma {:induction false} ConcatAppend(p: seq<seq<real>>, q: seq<seq<real>>)
    ensures Concat(p + q) == Concat(p) + Concat(q)
  {
    if p == [] {
      assert p + q == q;
    } else {
      assert (p + q)[1..] == p[1..] + q;
      ConcatAppend(p[1..], q);
    }
  }

  /** The concatenation is silent exactly when every part is: no sample of it
      is loud unless some sample of some part is. */
  lemma {:induction false} ConcatQuiet(parts: seq<seq<real>>, threshold: real)
    ensures (forall i :: 0 <= i < |Concat(parts)| ==> !Loud(Concat(parts)[i], threshold)) <==>
            (forall k, i :: 0 <= k < |parts| && 0 <= i < |parts[k]| ==> !Loud(parts[k][i], threshold))
  {
    if parts != [] {
      ConcatQuiet(parts[1..], threshold);
      var c := Concat(parts);
      var h := parts[0];
      var rest := Concat(parts[1..]);
      assert c == h + rest;
      assert forall i :: 0 <= i < |h| ==> c[i] == h[i];
      assert forall i :: 0 <= i < |rest| ==> c[|h| + i] == rest[i];
      assert forall k :: 1 <= k < |parts| ==> parts[k] == parts[1..][k - 1];
      if forall i :: 0 <= i < |c| ==> !Loud(c[i], threshold) {
        forall k, i | 0 <= k < |parts| && 0 <= i < |parts[k]| ensures !Loud(parts[k][i], threshold) {
          if k > 0 {
            assert parts[k][i] == parts[1..][k - 1][i];
          }
        }
      }
      if forall k, i :: 0 <= k < |parts| && 0 <= i < |parts[k]| ==> !Loud(parts[k][i], threshold) {
        forall i | 0 <= i < |c| ensures !Loud(c[i], threshold) {
          if i >= |h| {
            assert c[i] == rest[i - |h|];
            forall k, j | 0 <= k < |parts[1..]| && 0 <= j < |parts[1..][k]|
              ensures !Loud(parts[1..][k][j], threshold)
            {
              assert parts[1..][k] == parts[k + 1];
            }
          }
        }
      }
    }
  }

  /** Why a call raises: the engine itself, or numpy inside trim_and_fade. */
  datatype Failure = EngineFailure | FadeFailure(error: FadeError)

  /** The outcome of generate_speech_segment_kokoro: None, the WAV bytes, or
      the exception it re-raises. */
  datatype Response = NoAudio | Audio(wav: seq<bv8>) | Raised(failure: Failure)

  /** `not text.strip()`: the text has nothing to say, which is the case
      exactly when every character of it is whitespace. */
  predicate Blank(text: string)
    ensures Blank(text) <==> forall i :: 0 <= i < |text| ==> IsSpace(text[i])
  {
    StripEmptyIffAllSpace(text);
    Strip(text) == []
  }

  /** The buffer holds exactly one sample above the threshold. */
  ghost predicate SingleLoud(s: seq<real>, threshold: real) {
    exists i :: 0 <= i < |s| && Loud(s[i], threshold) &&
      forall j :: 0 <= j < |s| && j != i ==> !Loud(s[j], threshold)
  }

  /** What the service returns once the engine has produced g: the engine's
      exception, None for no segments, or the encoded result of trimming and
      fading the concatenated audio with the fixed parameters, whose only
      failure is a buffer with a single loud sample. */
  function Synthesize(g: Generation, encode: (seq<real>, nat) -> seq<bv8>): (r: Response)
    ensures r.NoAudio? <==> !g.raises && g.segments == []
    ensures r == Raised(EngineFailure) <==> g.raises
    ensures r.Raised? && r.failure.FadeFailure? <==>
      !g.raises && g.segments != [] && SingleLoud(Concat(AudioOf(g.segments)), Threshold)
    ensures r.Raised? && r.failure.FadeFailure? ==> r.failure.error == BroadcastMismatch(1)
  {
    if g.raises then Raised(EngineFailure)
    else if g.segments == [] then NoAudio
    else
      var full := Concat(AudioOf(g.segments));
      var trimmed := TrimAndFade(full, SampleRate, Threshold, FadeDuration);
      FixedParametersFail(full);
      if trimmed.Err? then Raised(FadeFailure(trimmed.error))
      else Audio(encode(trimmed.value, SampleRate))
  }

  /** What generate_speech_segment_kokoro returns for text, given the engine's
      behaviour and the WAV encoder (samples, sample rate) -> bytes: None
      exactly when the text is all whitespace or the engine yields nothing. */
  function SpeechFor(text: string, pipeline: Request -> Generation, encode: (seq<real>, nat) -> seq<bv8>)
    : (r: Response)
    ensures r.NoAudio? <==>
      (forall i :: 0 <= i < |text| ==> IsSpace(text[i])) ||
      (!pipeline(KokoroRequest(text)).raises && pipeline(KokoroRequest(text)).segments == [])
  {
    if Blank(text) then NoAudio else Synthesize(pipeline(KokoroRequest(text)), encode)
  }

  /** The service: blank text is answered without calling the engine; any
      other text makes exactly one engine call, with the fixed voice, speed
      and split pattern, and the answer is SpeechFor's. */
  method GenerateSpeech(engine: Engine, text: string, encode: (seq<real>, nat) -> seq<bv8>)
    returns (r: Response)
    modifies engine
    ensures r == SpeechFor(text, engine.pipeline, encode)
    ensures Blank(text) ==> engine.requests == old(engine.requests)
    ensures !Blank(text) ==> engine.requests == old(engine.requests) + [KokoroRequest(text)]
  {
    if Strip(text) == [] {
      return NoAudio;
    }
    var g := engine.Run(KokoroRequest(text));
    r := PostProcess(g, encode);
  }

  /** The service's work once the engine has been called: collect the audio
      of every yielded segment, concatenate it into a fresh array, trim and
      fade that array in place and encode the kept samples. */
  method PostProcess(g: Generation, encode: (seq<real>, nat) -> seq<bv8>) returns (r: Response)
    ensures r == Synthesize(g, encode)
  {
    var audio := CollectAudio(g);
    if g.raises {
      return Raised(EngineFailure);
    }
    if |audio| == 0 {
      return NoAudio;
    }
    assert audio == AudioOf(g.segments);
    var full := Concat(audio);
    var a := new real[|full|](i requires 0 <= i < |full| => full[i]);
    assert a[..] == full;
    var o := TrimAndFadeInPlace(a, SampleRate, Threshold, FadeDuration);
    match o
    case Silent =>
      r := Audio(encode(a[..], SampleRate));
    case Failed(e) =>
      r := Raised(FadeFailure(e));
    case Trimmed(start, end, _) =>
      r := Audio(encode(a[start..end], SampleRate));
  }

  /** When every segment the engine yields is silent, the samples reach the
      encoder exactly as concatenated: trim_and_fade hands its input back. */
  lemma SilentSegments(g: Generation, encode: (seq<real>, nat) -> seq<bv8>)
    requires !g.raises && g.segments != []
    requires forall k, i :: 0 <= k < |g.segments| && 0 <= i < |g.segments[k].audio| ==>
      !Loud(g.segments[k].audio[i], Threshold)
    ensures Synthesize(g, encode) == Audio(encode(Concat(AudioOf(g.segments)), SampleRate))
  {
    var parts := AudioOf(g.segments);
    assert forall k :: 0 <= k < |parts| ==> parts[k] == g.segments[k].audio;
    ConcatQuiet(parts, Threshold);
  }

  /** What reaches the encoder when the concatenated audio has a loud span
      [start, end) of at least two samples: that span, faded over 1200
      samples (or half the span when that is shorter), each sample the
      concatenation's sample at the same offset from start times its gain. */
  lemma LoudSegments(g: Generation, encode: (seq<real>, nat) -> seq<bv8>, full: seq<real>,
                      start: nat, end: nat, fade: nat)
    requires !g.raises && g.segments != []
    requires full == Concat(AudioOf(g.segments))
    requires LoudSpan(full, Threshold) == Sound(start, end) && end - start >= 2
    requires fade == Min(1200, (end - start) / 2)
    ensures 1 <= fade && 2 * fade <= end - start
    ensures Synthesize(g, encode) == Audio(encode(Faded(full[start..end], fade), SampleRate))
    ensures |Faded(full[start..end], fade)| == end - start
    ensures forall i :: 0 <= i < end - start ==>
      Faded(full[start..end], fade)[i] == Amplify(full[start + i], Envelope(fade, end - start, i))
  {
    PlanOfSpan(full, SampleRate, Threshold, FadeDuration, start, end);
    FixedFadeLength(end - start);
    assert Plan(full, SampleRate, Threshold, FadeDuration) == Trimmed(start, end, fade);
    TrimmedOutput(full, SampleRate, Threshold, FadeDuration, start, end, fade);
  }

  /** With the service's parameters the fade is 1200 samples (0.05 s at
      24000 Hz), or half the trimmed length when that is shorter. */
  lemma FixedFadeLength(trimmedLength: nat)
    ensures FadeLength(FadeDuration, SampleRate, trimmedLength) == Min(1200, trimmedLength / 2)
  {
    assert FadeDuration * SampleRate as real == 1200.0;
  }

  /** With the service's parameters trim_and_fade raises exactly when the
      buffer holds a single loud sample; the fade is then 0 and numpy reports
      a broadcast mismatch over a one-sample slice. */
  lemma FixedParametersFail(s: seq<real>)
    ensures TrimAndFade(s, SampleRate, Threshold, FadeDuration).Err? <==> SingleLoud(s, Threshold)
    ensures TrimAndFade(s, SampleRate, Threshold, FadeDuration).Err? ==>
      TrimAndFade(s, SampleRate, Threshold, FadeDuration).error == BroadcastMismatch(1)
  {
    if SingleLoud(s, Threshold) {
      SingleLoudFails(s);
    }
    if TrimAndFade(s, SampleRate, Threshold, FadeDuration).Err? {
      FailureIsSingleLoud(s);
    }
  }

  lemma SingleLoudFails(s: seq<real>)
    requires SingleLoud(s, Threshold)
    ensures TrimAndFade(s, SampleRate, Threshold, FadeDuration) == Err(BroadcastMismatch(1))
  {
    var i :| 0 <= i < |s| && Loud(s[i], Threshold) &&
      forall j :: 0 <= j < |s| && j != i ==> !Loud(s[j], Threshold);
    assert IsLoudSpan(s, Threshold, i, i + 1);
    PlanOfSpan(s, SampleRate, Threshold, FadeDuration, i, i + 1);
    FixedFadeLength(1);
  }

  lemma FailureIsSingleLoud(s: seq<real>)
    requires TrimAndFade(s, SampleRate, Threshold, FadeDuration).Err?
    ensures SingleLoud(s, Threshold)
  {
    var span := LoudSpan(s, Threshold);
    assert span.Sound?;
    PlanOfSpan(s, SampleRate, Threshold, FadeDuration, span.start, span.end);
    FixedFadeLength(span.end - span.start);
    assert span.end == span.start + 1;
    assert forall j :: 0 <= j < |s| && j != span.start ==> !Loud(s[j], Threshold);
  }

  /** A silent first segment of 1000 samples followed by 2000 samples at
      amplitude 0.5: the result is the second segment alone, with a fade of
      1000 samples at each end, so 2000 samples that start and end at exactly
      0 and never exceed 0.5 in magnitude. */
  lemma TwoSegmentScenario(text: string, pipeline: Request -> Generation, encode: (seq<real>, nat) -> seq<bv8>,
                           b1: seq<real>, b2: seq<real>)
    requires !Blank(text)
    requires |b1| == 1000 && forall i :: 0 <= i < |b1| ==> b1[i] == 0.0
    requires |b2| == 2000 && forall i :: 0 <= i < |b2| ==> b2[i] == 0.5
    requires pipeline(KokoroRequest(text)) == Generation([Segment("hello", "", b1), Segment("world", "", b2)], false)
    ensures SpeechFor(text, pipeline, encode) == Audio(encode(Faded(b2, 1000), SampleRate))
    ensures |Faded(b2, 1000)| == 2000
    ensures Faded(b2, 1000)[0] == 0.0 && Faded(b2, 1000)[1999] == 0.0
    ensures forall i :: 0 <= i < 2000 ==> Abs(Faded(b2, 1000)[i]) <= 0.5
  {
    ScenarioSynthesize(pipeline(KokoroRequest(text)), encode, b1, b2);
    FadedEnds(b2, 1000);
    FadedPeak(b2, 1000, 0.5);
  }

  /** The engine's two segments, once collected, give the second segment faded over 1000 samples. */
  lemma ScenarioSynthesize(g: Generation, encode: (seq<real>, nat) -> seq<bv8>, b1: seq<real>, b2: seq<real>)
    requires |b1| == 1000 && forall i :: 0 <= i < |b1| ==> b1[i] == 0.0
    requires |b2| == 2000 && forall i :: 0 <= i < |b2| ==> b2[i] == 0.5
    requires g == Generation([Segment("hello", "", b1), Segment("world", "", b2)], false)
    ensures Synthesize(g, encode) == Audio(encode(Faded(b2, 1000), SampleRate))
  {
    assert AudioOf(g.segments) == [b1, b2];
    ScenarioBuffer(b1, b2);
    ScenarioTrim(Concat([b1, b2]), b2);
  }

  /** trim_and_fade on the two-segment buffer keeps the second segment, faded over 1000 samples. */
  lemma ScenarioTrim(full: seq<real>, b2: seq<real>)
    requires IsLoudSpan(full, Threshold, 1000, 3000) && full[1000..3000] == b2
    ensures TrimAndFade(full, SampleRate, Threshold, FadeDuration) == Ok(Faded(b2, 1000))
  {
    PlanOfSpan(full, SampleRate, Threshold, FadeDuration, 1000, 3000);
    FixedFadeLength(2000);
  }

  /** The concatenated buffer of the two-segment run: its loud span is exactly the second segment. */
  lemma ScenarioBuffer(b1: seq<real>, b2: seq<real>)
    requires |b1| == 1000 && forall i :: 0 <= i < |b1| ==> b1[i] == 0.0
    requires |b2| == 2000 && forall i :: 0 <= i < |b2| ==> b2[i] == 0.5
    ensures IsLoudSpan(Concat([b1, b2]), Threshold, 1000, 3000)
    ensures Concat([b1, b2])[1000..3000] == b2
  {
    var full := Concat([b1, b2]);
    assert full == b1 + b2 by {
      assert [b1, b2][1..] == [b2];
      assert Concat([b2]) == b2 + Concat([]);
    }
    assert forall i :: 0 <= i < 1000 ==> full[i] == b1[i];
    assert full[1000] == b2[0] && full[2999] == b2[1999];
    assert full[1000..3000] == b2;
  }
}
