# Kokoro speech post-processing, modelled in Dafny

This project models the speech-generation core of the Kokoro text-to-speech
service in `utils/tts/kokoro/kokoro_api.py`. It has two parts.

- **`trim_and_fade`** cuts leading and trailing silence off a buffer of
  samples, then shapes both ends of what is left with linear fades:
  - A sample is *loud* when its magnitude is strictly above the threshold.
  - The kept region runs from the first loud sample to the last one.
  - The fade length is `int(fade_duration * sample_rate)`, clamped to half
    the region's length.
  - The first `fade` samples are multiplied by `np.linspace(0, 1, fade)`.
  - The last `fade` samples are multiplied by `np.linspace(1, 0, fade)`.
  - The slice is a numpy view, so the multiplications write into the
    caller's buffer.
- **`generate_speech_segment_kokoro`** runs the service:
  - Text that is empty after `str.strip()` gets `None`, and the engine is
    never called.
  - Otherwise the engine is called once, with voice `af_bella`, speed 0.8
    and split pattern `\n+`.
  - The audio of every segment the engine yields is collected in yield
    order.
  - No segments gives `None`.
  - Otherwise the segments are concatenated, passed to `trim_and_fade`
    with sample rate 24000, threshold 0.01 and fade duration 0.05, and
    encoded as WAV.
  - Every exception propagates to the caller.

Files:

- `numeric.dfy` (module `Numeric`) holds the numeric primitives:
  - `Trunc`: Python's `int()` on a float, which truncates toward zero;
  - `Linspace`: `np.linspace` with `endpoint=True`;
  - `Amplify`: one element of the in-place `*=`;
  - lemmas on the shape of the two ramps.
- `trim_fade.dfy` (module `TrimFade`) models `trim_and_fade`:
  - `Plan` is the pure decision: silent, the kept span and its fade, or the
    error numpy raises. It is built on `LoudSpan`, the `np.where` search.
  - `TrimAndFade` is the value returned to the caller.
  - `TrimAndFadeInPlace` is the same operation on a Dafny `array`. It
    writes both fades through element-wise `forall` updates, matching
    numpy's vectorised `*=`, and is proved against `Plan` and `BufferAfter`.
- `text.dfy` (module `Text`) models `str.isspace`, `lstrip`, `rstrip` and
  `strip`.
- `speech.dfy` (module `KokoroSpeech`) models the service:
  - the engine is a class that records every request it receives;
  - the segment-collecting loop is `CollectAudio`;
  - `np.concatenate` is `Concat`;
  - the whole call is `SpeechFor` (pure) and `GenerateSpeech` (the method
    that drives the engine), which hands the engine's output to
    `PostProcess` (the loop, the array and the in-place trim);
  - what reaches the encoder is stated by `SilentSegments` (nothing loud)
    and `LoudSegments` (a loud span of two or more samples).

Where numpy raises, the model returns an explicit error:

- **`NegativeFadeLength`**: `np.linspace` raises on a negative count. This
  happens at line 45, before anything is written.
- **`BroadcastMismatch`**: with a fade length of 0, line 48 writes nothing.
  Line 49 then addresses the whole slice through `[-0:]`, and multiplying
  it by an empty ramp raises.

With the service's fixed parameters the fade is `min(1200, len // 2)`
samples, so it is 0 exactly when the loud region is one sample long. Then
line 48 writes nothing, line 49's `[-0:]` is the whole one-sample slice,
and numpy raises because the empty ramp cannot be broadcast into it. A
buffer with exactly one loud sample is therefore the only failing input,
and the model returns `BroadcastMismatch(1)` for it (`FixedParametersFail`).

## Model

| member | source | states |
|---|---|---|
| Numeric.Abs | utils/tts/kokoro/kokoro_api.py:33 | `np.abs` of a sample is its magnitude: never negative, and equal to the sample or its negation |
| Numeric.Trunc | utils/tts/kokoro/kokoro_api.py:42 | `int()` of a float truncates toward zero: the result is within 1 of x, on the zero side |
| Numeric.Min | utils/tts/kokoro/kokoro_api.py:43 | `min` is at most each argument and equals one of them |
| Numeric.Fraction | utils/tts/kokoro/kokoro_api.py:45-46 | linspace's position i/(n-1) lies in [0, 1], is 0 at the first index and 1 at the last |
| Numeric.FractionMonotone | utils/tts/kokoro/kokoro_api.py:45-46 | linspace positions never decrease with the index |
| Numeric.Linspace | utils/tts/kokoro/kokoro_api.py:45-46 | `np.linspace(a, b, n)` has exactly n values (none for n = 0) |
| Numeric.RampAt | utils/tts/kokoro/kokoro_api.py:45-46 | value i of `linspace(0, 1, n)` is i/(n-1), value i of `linspace(1, 0, n)` is 1 - i/(n-1); a one-value ramp is its start |
| Numeric.RampShape | utils/tts/kokoro/kokoro_api.py:45-46 | the fade-in ramp rises from exactly 0 toward 1; the fade-out ramp falls from exactly 1 toward 0; both reach their far end when n >= 2 and stay within [0, 1] |
| Numeric.ScaleBetween | utils/tts/kokoro/kokoro_api.py:48-49 | a sample times a gain in [0, 1] lies between 0 and the sample |
| Numeric.Amplify | utils/tts/kokoro/kokoro_api.py:48-49 | one element of the in-place `*=`: a gain of 1 leaves the sample as it was, and a gain of 0 silences it |
| Numeric.GainShrinks | utils/tts/kokoro/kokoro_api.py:48-49 | multiplying by a fade gain never increases a sample's magnitude |
| TrimFade.Loud | utils/tts/kokoro/kokoro_api.py:33 | `np.abs(x) > threshold` holds exactly when the sample lies above the threshold or below its negation |
| TrimFade.AboveThreshold | utils/tts/kokoro/kokoro_api.py:33 | `np.where(np.abs(audio) > threshold)[0]` lists exactly the loud indices, strictly increasing |
| TrimFade.FadeLength | utils/tts/kokoro/kokoro_api.py:42-43 | the fade is `int(fade_duration*sample_rate)` or half the region, whichever is smaller, so `2*fade <= len` and the two fades never overlap |
| TrimFade.LoudSpan | utils/tts/kokoro/kokoro_api.py:33-38 | no span exactly when no sample is loud; otherwise [start, end) runs from the first loud sample to the last, and everything outside it is quiet |
| TrimFade.LoudSpanUnique | utils/tts/kokoro/kokoro_api.py:37-38 | start_idx and end_idx are determined by the buffer |
| TrimFade.LoudSpanOf | utils/tts/kokoro/kokoro_api.py:33-38 | whenever [start, end) runs from the buffer's first loud sample to its last, the search returns exactly that span |
| TrimFade.Plan | utils/tts/kokoro/kokoro_api.py:33-49 | Silent exactly when nothing is loud; a kept region is the loud span, with the clamped fade length, and that fade is at least 1 |
| TrimFade.PlanOfSpan | utils/tts/kokoro/kokoro_api.py:37-49 | given the loud span, a negative fade fails in linspace, a zero fade fails with a broadcast error over the span's length, and any other fade keeps the span |
| TrimFade.FadeIn | utils/tts/kokoro/kokoro_api.py:45 | `np.linspace(0, 1, n)` has n gains, starts at exactly 0 and, for n >= 2, ends at exactly 1 |
| TrimFade.FadeOut | utils/tts/kokoro/kokoro_api.py:46 | `np.linspace(1, 0, n)` has n gains, starts at exactly 1 and, for n >= 2, ends at exactly 0 |
| TrimFade.Scale | utils/tts/kokoro/kokoro_api.py:48-49 | element-wise product keeps the length |
| TrimFade.ApplyFadeIn | utils/tts/kokoro/kokoro_api.py:48 | `trimmed[:n] *= fade_in` keeps the length |
| TrimFade.ApplyFadeOut | utils/tts/kokoro/kokoro_api.py:49 | `trimmed[-n:] *= fade_out` keeps the length |
| TrimFade.Faded | utils/tts/kokoro/kokoro_api.py:48-49 | both fades keep the region's length |
| TrimFade.ApplyFadeInAt | utils/tts/kokoro/kokoro_api.py:48 | the first n samples are multiplied by the rising ramp; the rest are unchanged |
| TrimFade.ApplyFadeOutAt | utils/tts/kokoro/kokoro_api.py:49 | the last n samples are multiplied by the falling ramp; the rest are unchanged |
| TrimFade.Envelope | utils/tts/kokoro/kokoro_api.py:45-49 | every gain lies in [0, 1]; samples in [fade, len - fade) get gain exactly 1 and keep their values |
| TrimFade.FadedAt | utils/tts/kokoro/kokoro_api.py:45-49 | each faded sample is the region's sample times its envelope gain |
| TrimFade.FadedAll | utils/tts/kokoro/kokoro_api.py:45-49 | FadedAt for every index of the region |
| TrimFade.EnvelopeShape | utils/tts/kokoro/kokoro_api.py:45-49 | gain 0 at the first sample; gain 0 at the last sample when fade >= 2, and 1 when fade == 1; never falls over the fade-in, never rises over the fade-out |
| TrimFade.FadedEnds | utils/tts/kokoro/kokoro_api.py:45-49 | with fade >= 2, the first and last output samples are exactly 0 |
| TrimFade.FadedPeak | utils/tts/kokoro/kokoro_api.py:48-49 | fading never raises a region's peak magnitude |
| TrimFade.TrimAndFade | utils/tts/kokoro/kokoro_api.py:19-51 | an all-quiet buffer comes back unchanged; the length changes only when something is loud; it errs exactly when Plan fails |
| TrimFade.TrimmedOutput | utils/tts/kokoro/kokoro_api.py:37-51 | a kept result has length end - start; each sample is the input sample at the same offset from start times its gain, and is never louder than it |
| TrimFade.BufferAfter | utils/tts/kokoro/kokoro_api.py:39-49 | the caller's buffer after the writes through the slice view `audio[start_idx:end_idx]`: same length; unchanged when silent or when numpy raises; when trimmed, no position outside [start, end) is written |
| TrimFade.BufferAfterSlice | utils/tts/kokoro/kokoro_api.py:39-51 | after a trimmed call, the view `audio[start_idx:end_idx]` of the caller's buffer is exactly the faded region that is returned |
| TrimFade.BufferAfterAt | utils/tts/kokoro/kokoro_api.py:39-49 | after a trimmed call, buffer positions outside [start, end) hold their old values; inside, each holds the old value times its gain |
| TrimFade.FadesWritten | utils/tts/kokoro/kokoro_api.py:48-49 | the two element-wise in-place fades leave the caller's buffer exactly as BufferAfter describes |
| TrimFade.FadeWrittenAt | utils/tts/kokoro/kokoro_api.py:48-49 | FadesWritten at one index |
| TrimFade.TrimAndFadeInPlace | utils/tts/kokoro/kokoro_api.py:19-51 | the outcome is Plan's. The array afterwards is BufferAfter: untouched when silent or failing, faded only inside [start, end) when trimmed. The returned view `a[start..end]` equals TrimAndFade's value |
| Text.IsSpace | utils/tts/kokoro/kokoro_api.py:58 | `str.isspace` holds for exactly Python's 29 whitespace code points: tab to carriage return, U+001C to space, U+2000 to U+200A, and U+0085, U+00A0, U+1680, U+2028, U+2029, U+202F, U+205F and U+3000 |
| Text.TrimStart | utils/tts/kokoro/kokoro_api.py:58 | the result is a suffix of s; every removed character is whitespace; the result does not start with whitespace |
| Text.TrimEnd | utils/tts/kokoro/kokoro_api.py:58 | the result is a prefix of s; every removed character is whitespace; the result does not end with whitespace |
| Text.Strip | utils/tts/kokoro/kokoro_api.py:58 | the result is the lstripped text without its trailing whitespace, and neither starts nor ends with whitespace |
| Text.StripEmptyIffAllSpace | utils/tts/kokoro/kokoro_api.py:58 | `text.strip()` is empty exactly when every character satisfies `str.isspace` |
| Text.StripIdempotent | utils/tts/kokoro/kokoro_api.py:58 | stripping twice is stripping once |
| Text.TrimStartUnchanged | utils/tts/kokoro/kokoro_api.py:58 | lstrip leaves text that does not start with whitespace alone |
| Text.TrimEndUnchanged | utils/tts/kokoro/kokoro_api.py:58 | rstrip leaves text that does not end with whitespace alone |
| KokoroSpeech.KokoroRequest | utils/tts/kokoro/kokoro_api.py:63-68 | the engine gets the text, voice `af_bella`, speed 0.8 and split pattern `\n+` |
| KokoroSpeech.Engine.constructor | utils/tts/kokoro/kokoro_api.py:16 | a fresh engine has received no requests |
| KokoroSpeech.Engine.Run | utils/tts/kokoro/kokoro_api.py:63-68 | one invocation returns what the engine produces for the request and appends the request to the log |
| KokoroSpeech.AudioOf | utils/tts/kokoro/kokoro_api.py:70-72 | one audio buffer per segment |
| KokoroSpeech.CollectAudio | utils/tts/kokoro/kokoro_api.py:69-72 | the loop collects every segment's audio, in yield order |
| KokoroSpeech.Concat | utils/tts/kokoro/kokoro_api.py:78 | the concatenation's length is the sum of the segments' lengths |
| KokoroSpeech.ConcatAppend | utils/tts/kokoro/kokoro_api.py:78 | concatenation respects order: the concatenation of p + q is that of p followed by that of q |
| KokoroSpeech.ConcatQuiet | utils/tts/kokoro/kokoro_api.py:78 | the concatenation has no loud sample exactly when no segment has one |
| KokoroSpeech.Blank | utils/tts/kokoro/kokoro_api.py:58 | `not text.strip()` holds exactly when every character of the text is whitespace |
| KokoroSpeech.Synthesize | utils/tts/kokoro/kokoro_api.py:69-87 | after the engine runs: None exactly when it yields nothing; the engine's exception exactly when it raises; a post-processing failure exactly when the concatenation has a single loud sample, and that failure is a broadcast error over one sample. What the encoder receives otherwise is stated by SilentSegments and LoudSegments |
| KokoroSpeech.SpeechFor | utils/tts/kokoro/kokoro_api.py:53-91 | the call returns None exactly when the text is all whitespace, or the engine neither raises nor yields |
| KokoroSpeech.GenerateSpeech | utils/tts/kokoro/kokoro_api.py:53-91 | returns SpeechFor's answer, through PostProcess once the engine has run. Blank text leaves the engine's request log untouched. Any other text adds exactly one request, with the fixed voice settings |
| KokoroSpeech.PostProcess | utils/tts/kokoro/kokoro_api.py:69-87 | the imperative half after the engine call (collecting loop, fresh array, in-place trim and fade, encoding) returns exactly Synthesize's answer |
| KokoroSpeech.SilentSegments | utils/tts/kokoro/kokoro_api.py:78-80 | if every yielded segment is silent, the encoder receives the concatenation unchanged |
| KokoroSpeech.LoudSegments | utils/tts/kokoro/kokoro_api.py:78-87 | when the concatenation's loud span [start, end) has at least two samples, the encoder receives end - start samples at 24000 Hz, sample i being the concatenation's sample start + i times its envelope gain, with a fade of min(1200, (end - start) // 2) >= 1 samples |
| KokoroSpeech.FixedFadeLength | utils/tts/kokoro/kokoro_api.py:80 | with fade_duration 0.05 and sample_rate 24000, the fade is min(1200, len // 2) |
| KokoroSpeech.FixedParametersFail | utils/tts/kokoro/kokoro_api.py:80 | with the service's parameters, trim_and_fade raises exactly when one sample alone is loud, and then with a broadcast error over one sample |
| KokoroSpeech.SingleLoudFails | utils/tts/kokoro/kokoro_api.py:80 | a buffer with one loud sample makes trim_and_fade raise |
| KokoroSpeech.FailureIsSingleLoud | utils/tts/kokoro/kokoro_api.py:80 | trim_and_fade raises only on a buffer with one loud sample |
| KokoroSpeech.TwoSegmentScenario | utils/tts/kokoro/kokoro_api.py:69-87 | 1000 silent samples followed by 2000 samples of 0.5 encode, at 24000 Hz, the second segment faded over 1000 samples: 2000 samples, first and last exactly 0, peak at most 0.5 |
| KokoroSpeech.ScenarioSynthesize | utils/tts/kokoro/kokoro_api.py:69-87 | the two-segment run, once collected, is encoded as the faded second segment |
| KokoroSpeech.ScenarioTrim | utils/tts/kokoro/kokoro_api.py:80 | a buffer whose loud span is [1000, 3000) is cut to that span and faded over 1000 samples |
| KokoroSpeech.ScenarioBuffer | utils/tts/kokoro/kokoro_api.py:78 | the concatenation of the two segments has loud span [1000, 3000), which holds the second segment |

## Left out

- The `kokoro_lock` mutual exclusion (lines 17 and 62) is concurrency. The model is sequential.
- `KPipeline` construction and internals (line 16) are a foreign neural model. The engine is a fixed function from request to generation.
  - A generation is the list of segments the engine yields, plus whether it raises once they are exhausted.
  - Every segment is assumed to carry a sample buffer; a segment without audio is not modelled.
- WAV encoding through `soundfile.write` and `BytesIO` (lines 83-87) is a foreign library. It is the `encode` parameter, which receives the samples and the rate 24000. Failures inside the encoder are not modelled.
- The Flask route, JSON parsing, HTTP status mapping and thread bootstrap (lines 93-115) are framework glue. The input text is always a string.
- `print` diagnostics (lines 59, 75, 90) are not modelled. The re-raise at line 91 is modelled as a `Raised` response carrying the cause.
- IEEE-754 arithmetic is not modelled; samples and products are exact reals. In particular `0.05 * 24000` is exactly 1200, and the ramps' values are exact quotients.
- Array dtypes, torch tensors from the engine and numpy's casting rules are not modelled. Samples are reals throughout.
- Silent input: `trim_and_fade` hands back the caller's own array object. The model returns an equal value. `TrimAndFadeInPlace` shows the array is left unwritten, but the model does not track object identity.
- `aurel.py` and `load_openai_api_key.py` are not part of this model. They contain no logic beyond loading configuration.
