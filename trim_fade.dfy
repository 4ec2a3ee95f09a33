/** trim_and_fade: cut the leading and trailing silence off a buffer of
    samples and shape the ends of what is left with linear fades.

    The decision part (where the loud region starts and ends, how long the
    fades are, whether numpy raises) is the pure function Plan, built on
    LoudSpan; the value the caller gets back is TrimAndFade; the in-place
    writes through the slice view into the caller's array are the method
    TrimAndFadeInPlace. */
module TrimFade {
  import opened Numeric

  datatype Result<T, E> = Ok(value: T) | Err(error: E)

  /** The two ways the fade step raises inside numpy. */
  datatype FadeError =
    | NegativeFadeLength(count: int)   // np.linspace refuses a negative sample count
    | BroadcastMismatch(length: nat)   // a zero fade makes `[-0:]` the whole slice, which a
                                       // length-0 ramp cannot be multiplied into

  /** What one call decides: the buffer is silent and comes back as it is, or
      the loud region [start, end) is kept with `fade` samples of ramp at each
      end, or numpy raises. */
  datatype Outcome =
    | Silent
    | Trimmed(start: nat, end: nat, fade: nat)
    | Failed(error: FadeError)

  /** A sample counts as sound when its magnitude is strictly above the threshold. */
  predicate Loud(x: real, threshold: real)
    ensures Loud(x, threshold) <==> x > threshold || x < -threshold
  {
    Abs(x) > threshold
  }

  /** [start, end) runs from the first loud sample of s to its last one, inclusive. */
  ghost predicate IsLoudSpan(s: seq<real>, threshold: real, start: int, end: int) {
    && 0 <= start < end <= |s|
    && Loud(s[start], threshold)
    && Loud(s[end - 1], threshold)
    && (forall i :: 0 <= i < start ==> !Loud(s[i], threshold))
    && (forall i :: end <= i < |s| ==> !Loud(s[i], threshold))
  }

  /** np.where(np.abs(audio) > threshold)[0]: the indices of the loud samples, ascending. */
  function AboveThreshold(s: seq<real>, threshold: real): (r: seq<nat>)
    ensures forall k :: 0 <= k < |r| ==> r[k] < |s| && Loud(s[r[k]], threshold)
    ensures forall i :: 0 <= i < |s| && Loud(s[i], threshold) ==> i in r
    ensures forall j, k :: 0 <= j < k < |r| ==> r[j] < r[k]
  {
    if s == [] then []
    else
      var last := |s| - 1;
      var before := AboveThreshold(s[..last], threshold);
      assert forall i :: 0 <= i < last ==> s[..last][i] == s[i];
      var r := before + (if Loud(s[last], threshold) then [last] else []);
      assert forall k :: 0 <= k < |before| ==> r[k] == before[k] < last;
      assert forall k :: |before| <= k < |r| ==> r[k] == last;
      r
  }

  /** The fade length in samples: int(fade_duration * sample_rate), clamped to
      half the trimmed length. */
  function FadeLength(fadeDuration: real, sampleRate: int, trimmedLength: nat): (n: int)
    ensures 2 * n <= trimmedLength
    ensures n <= Trunc(fadeDuration * sampleRate as real)
    ensures n == Trunc(fadeDuration * sampleRate as real) || n == trimmedLength / 2
  {
    Min(Trunc(fadeDuration * sampleRate as real), trimmedLength / 2)
  }

  /** Where the sound is: no sample is loud, or [start, end) runs from the
      first loud sample to the last (start_idx and end_idx). */
  datatype Span = NoSound | Sound(start: nat, end: nat)

  /** np.where on the magnitudes, reduced to its first and last index. */
  function LoudSpan(s: seq<real>, threshold: real): (r: Span)
    ensures r.NoSound? <==> forall i :: 0 <= i < |s| ==> !Loud(s[i], threshold)
    ensures r.Sound? ==> IsLoudSpan(s, threshold, r.start, r.end)
  {
    var above := AboveThreshold(s, threshold);
    if |above| == 0 then NoSound
    else
      var start, end := above[0], above[|above| - 1] + 1;
      assert forall i :: 0 <= i < |s| && Loud(s[i], threshold) ==> start <= i < end by {
        forall i | 0 <= i < |s| && Loud(s[i], threshold) ensures start <= i < end {
          var k :| 0 <= k < |above| && above[k] == i;
        }
      }
      Sound(start, end)
  }

  /** A loud span, when there is one, is unique: the first and last loud samples fix it. */
  lemma LoudSpanUnique(s: seq<real>, threshold: real, a: int, b: int, c: int, d: int)
    requires IsLoudSpan(s, threshold, a, b) && IsLoudSpan(s, threshold, c, d)
    ensures a == c && b == d
  {
  }

  /** What trim_and_fade does with the samples s: the silent case, the kept
      region and its fade length, or the error numpy raises. */
  function Plan(s: seq<real>, sampleRate: int, threshold: real, fadeDuration: real): (o: Outcome)
    ensures o.Silent? <==> forall i :: 0 <= i < |s| ==> !Loud(s[i], threshold)
    ensures o.Trimmed? ==>
      && IsLoudSpan(s, threshold, o.start, o.end)
      && o.fade == FadeLength(fadeDuration, sampleRate, o.end - o.start)
      && 1 <= o.fade
  {
    match LoudSpan(s, threshold)
    case NoSound => Silent
    case Sound(start, end) =>
      var n := FadeLength(fadeDuration, sampleRate, end - start);
      if n < 0 then Failed(NegativeFadeLength(n))
      else if n == 0 then Failed(BroadcastMismatch(end - start))
      else Trimmed(start, end, n)
  }

  /** The loud span alone decides the outcome: its length fixes the fade
      length, and the fade length decides between the kept region and the
      two errors. */
  lemma PlanOfSpan(s: seq<real>, sampleRate: int, threshold: real, fadeDuration: real, start: nat, end: nat)
    requires IsLoudSpan(s, threshold, start, end)
    ensures var n := FadeLength(fadeDuration, sampleRate, end - start);
      Plan(s, sampleRate, threshold, fadeDuration) ==
        if n < 0 then Failed(NegativeFadeLength(n))
        else if n == 0 then Failed(BroadcastMismatch(end - start))
        else Trimmed(start, end, n)
  {
    LoudSpanOf(s, threshold, start, end);
  }

  /** LoudSpan finds any loud span there is. */
  lemma LoudSpanOf(s: seq<real>, threshold: real, start: nat, end: nat)
    requires IsLoudSpan(s, threshold, start, end)
    ensures LoudSpan(s, threshold) == Sound(start, end)
  {
    var span := LoudSpan(s, threshold);
    assert Loud(s[start], threshold);
    LoudSpanUnique(s, threshold, span.start, span.end, start, end);
  }

  /** The rising ramp np.linspace(0, 1, n): n gains starting at exactly 0 and,
      when there are at least two, ending at exactly 1. */
  function FadeIn(n: nat): (r: seq<real>)
    ensures |r| == n
    ensures n >= 1 ==> r[0] == 0.0
    ensures n >= 2 ==> r[n - 1] == 1.0
  {
    if n == 0 then [] else RampShape(n, 0, n - 1); Linspace(0.0, 1.0, n)
  }

  /** The falling ramp np.linspace(1, 0, n): n gains starting at exactly 1 and,
      when there are at least two, ending at exactly 0. */
  function FadeOut(n: nat): (r: seq<real>)
    ensures |r| == n
    ensures n >= 1 ==> r[0] == 1.0
    ensures n >= 2 ==> r[n - 1] == 0.0
  {
    if n == 0 then [] else RampShape(n, 0, n - 1); Linspace(1.0, 0.0, n)
  }

  /** Element-wise product, as numpy's `*` on two arrays of one shape. */
  function Scale(xs: seq<real>, gains: seq<real>): (r: seq<real>)
    requires |gains| == |xs|
    ensures |r| == |xs|
  {
    seq(|xs|, i requires 0 <= i < |xs| => Amplify(xs[i], gains[i]))
  }

  /** `trimmed[:n] *= fade_in`. */
  function ApplyFadeIn(t: seq<real>, n: nat): (r: seq<real>)
    requires n <= |t|
    ensures |r| == |t|
  {
    Scale(t[..n], FadeIn(n)) + t[n..]
  }

  /** `trimmed[-n:] *= fade_out` for n >= 1 (for n = 0 numpy raises instead). */
  function ApplyFadeOut(t: seq<real>, n: nat): (r: seq<real>)
    requires 1 <= n <= |t|
    ensures |r| == |t|
  {
    t[..|t| - n] + Scale(t[|t| - n..], FadeOut(n))
  }

  /** The trimmed region after both fades, applied in the source's order. */
  function Faded(t: seq<real>, n: nat): (r: seq<real>)
    requires 1 <= n && 2 * n <= |t|
    ensures |r| == |t|
  {
    ApplyFadeOut(ApplyFadeIn(t, n), n)
  }

  /** The gain sample i of a faded region of length len ends up multiplied by. */
  function Envelope(n: nat, len: nat, i: nat): (g: real)
    requires 2 * n <= len && i < len
    ensures 0.0 <= g <= 1.0
    ensures n <= i < len - n ==> g == 1.0
  {
    if i < n then RampShape(n, i, i); FadeIn(n)[i]
    else if i >= len - n then RampShape(n, i - (len - n), i - (len - n)); FadeOut(n)[i - (len - n)]
    else 1.0
  }

  /** Each faded sample is the trimmed sample times its envelope gain: the two
      ramps never overlap, and the middle is left as it was. */
  lemma FadedAt(t: seq<real>, n: nat, i: nat)
    requires 1 <= n && 2 * n <= |t| && i < |t|
    ensures Faded(t, n)[i] == Amplify(t[i], Envelope(n, |t|, i))
  {
    var len := |t|;
    var u := ApplyFadeIn(t, n);
    assert Faded(t, n) == ApplyFadeOut(u, n);
    if i < n {
      assert u[i] == Amplify(t[i], FadeIn(n)[i]) by { ApplyFadeInAt(t, n, i); }
      assert Faded(t, n)[i] == u[i] by { ApplyFadeOutAt(u, n, i); }
    } else if i >= len - n {
      assert u[i] == t[i] by { ApplyFadeInAt(t, n, i); }
      assert Faded(t, n)[i] == Amplify(u[i], FadeOut(n)[i - (len - n)]) by { ApplyFadeOutAt(u, n, i); }
    } else {
      assert u[i] == t[i] by { ApplyFadeInAt(t, n, i); }
      assert Faded(t, n)[i] == u[i] by { ApplyFadeOutAt(u, n, i); }
    }
  }

  lemma ApplyFadeInAt(t: seq<real>, n: nat, i: nat)
    requires n <= |t| && i < |t|
    ensures ApplyFadeIn(t, n)[i] == if i < n then Amplify(t[i], FadeIn(n)[i]) else t[i]
  {
    var head := Scale(t[..n], FadeIn(n));
    assert ApplyFadeIn(t, n) == head + t[n..];
    if i < n {
      assert ApplyFadeIn(t, n)[i] == head[i];
    }
  }

  lemma ApplyFadeOutAt(u: seq<real>, n: nat, i: nat)
    requires 1 <= n <= |u| && i < |u|
    ensures ApplyFadeOut(u, n)[i] == if i >= |u| - n then Amplify(u[i], FadeOut(n)[i - (|u| - n)]) else u[i]
  {
    var m := |u| - n;
    var tail := Scale(u[m..], FadeOut(n));
    assert ApplyFadeOut(u, n) == u[..m] + tail;
    if i >= m {
      assert ApplyFadeOut(u, n)[i] == tail[i - m];
    }
  }

  lemma FadedAll(t: seq<real>, n: nat)
    requires 1 <= n && 2 * n <= |t|
    ensures forall i :: 0 <= i < |t| ==> Faded(t, n)[i] == Amplify(t[i], Envelope(n, |t|, i))
  {
    forall i | 0 <= i < |t| ensures Faded(t, n)[i] == Amplify(t[i], Envelope(n, |t|, i)) {
      FadedAt(t, n, i);
    }
  }

  /** The shape of the envelope: it rises over the first n samples, falls over
      the last n, starts at exactly 0, and with n >= 2 also ends at exactly 0
      (with n == 1 the falling ramp is [1.0] and leaves the last sample alone). */
  lemma EnvelopeShape(n: nat, len: nat)
    requires 1 <= n && 2 * n <= len
    ensures Envelope(n, len, 0) == 0.0
    ensures n >= 2 ==> Envelope(n, len, len - 1) == 0.0
    ensures n == 1 ==> Envelope(n, len, len - 1) == 1.0
    ensures forall i, j :: 0 <= i <= j < n ==> Envelope(n, len, i) <= Envelope(n, len, j)
    ensures forall i, j :: len - n <= i <= j < len ==> Envelope(n, len, j) <= Envelope(n, len, i)
  {
    RampShape(n, 0, n - 1);
    forall i, j | 0 <= i <= j < n ensures Envelope(n, len, i) <= Envelope(n, len, j) {
      RampShape(n, i, j);
    }
    forall i, j | len - n <= i <= j < len ensures Envelope(n, len, j) <= Envelope(n, len, i) {
      RampShape(n, i - (len - n), j - (len - n));
    }
  }

  /** With at least two samples of fade, the faded region starts and ends at
      exactly 0. */
  lemma FadedEnds(t: seq<real>, n: nat)
    requires 2 <= n && 2 * n <= |t|
    ensures Faded(t, n)[0] == 0.0 && Faded(t, n)[|t| - 1] == 0.0
  {
    EnvelopeShape(n, |t|);
    FadedAt(t, n, 0);
    FadedAt(t, n, |t| - 1);
  }

  /** Fading never raises the peak magnitude of a region. */
  lemma FadedPeak(t: seq<real>, n: nat, peak: real)
    requires 1 <= n && 2 * n <= |t|
    requires forall i :: 0 <= i < |t| ==> Abs(t[i]) <= peak
    ensures forall i :: 0 <= i < |t| ==> Abs(Faded(t, n)[i]) <= peak
  {
    FadedAll(t, n);
    forall i | 0 <= i < |t| ensures Abs(Faded(t, n)[i]) <= peak {
      GainShrinks(t[i], Envelope(n, |t|, i));
    }
  }

  /** The samples trim_and_fade hands back: the input itself when it is
      silent, the faded loud region otherwise, or the error numpy raises. */
  function TrimAndFade(s: seq<real>, sampleRate: int, threshold: real, fadeDuration: real)
    : (r: Result<seq<real>, FadeError>)
    ensures r.Ok? && |r.value| != |s| ==> exists i :: 0 <= i < |s| && Loud(s[i], threshold)
    ensures (forall i :: 0 <= i < |s| ==> !Loud(s[i], threshold)) ==> r == Ok(s)
    ensures r.Err? <==> Plan(s, sampleRate, threshold, fadeDuration).Failed?
  {
    match Plan(s, sampleRate, threshold, fadeDuration)
    case Silent => Ok(s)
    case Failed(e) => Err(e)
    case Trimmed(start, end, n) => Ok(Faded(s[start..end], n))
  }

  /** When a loud region is kept, the result is that region, sample for
      sample, times the fade envelope, and never louder than the input. */
  lemma TrimmedOutput(s: seq<real>, sampleRate: int, threshold: real, fadeDuration: real,
                       start: nat, end: nat, n: nat)
    requires Plan(s, sampleRate, threshold, fadeDuration) == Trimmed(start, end, n)
    ensures TrimAndFade(s, sampleRate, threshold, fadeDuration).Ok?
    ensures |TrimAndFade(s, sampleRate, threshold, fadeDuration).value| == end - start
    ensures forall i :: 0 <= i < end - start ==>
      TrimAndFade(s, sampleRate, threshold, fadeDuration).value[i] == Amplify(s[start + i], Envelope(n, end - start, i))
    ensures forall i :: 0 <= i < end - start ==>
      Abs(TrimAndFade(s, sampleRate, threshold, fadeDuration).value[i]) <= Abs(s[start + i])
  {
    assert TrimAndFade(s, sampleRate, threshold, fadeDuration) == Ok(Faded(s[start..end], n));
    FadedRegion(s, start, end, n);
  }

  /** TrimmedOutput's sample-by-sample step, stated on the slice alone. */
  lemma FadedRegion(s: seq<real>, start: nat, end: nat, n: nat)
    requires start <= end <= |s| && 1 <= n && 2 * n <= end - start
    ensures forall i :: 0 <= i < end - start ==>
      Faded(s[start..end], n)[i] == Amplify(s[start + i], Envelope(n, end - start, i))
    ensures forall i :: 0 <= i < end - start ==> Abs(Faded(s[start..end], n)[i]) <= Abs(s[start + i])
  {
    var t := s[start..end];
    FadedAll(t, n);
    forall i | 0 <= i < end - start
      ensures Faded(t, n)[i] == Amplify(s[start + i], Envelope(n, end - start, i))
      ensures Abs(Faded(t, n)[i]) <= Abs(s[start + i])
    {
      assert t[i] == s[start + i];
      GainShrinks(t[i], Envelope(n, end - start, i));
    }
  }

  /** The caller's buffer after the call: outside [start, end) nothing is
      written, inside it the faded region; when numpy raises, nothing has
      been written yet. */
  function BufferAfter(s: seq<real>, o: Outcome): (r: seq<real>)
    requires o.Trimmed? ==> o.start <= o.end <= |s| && 1 <= o.fade && 2 * o.fade <= o.end - o.start
    ensures |r| == |s|
    ensures !o.Trimmed? ==> r == s
    ensures o.Trimmed? ==> forall i :: 0 <= i < |s| && !(o.start <= i < o.end) ==> r[i] == s[i]
  {
    match o
    case Trimmed(start, end, n) => s[..start] + Faded(s[start..end], n) + s[end..]
    case _ => s
  }

  /** The view a[start..end] of the caller's buffer after a trimmed call is
      exactly the faded region. */
  lemma BufferAfterSlice(s: seq<real>, start: nat, end: nat, n: nat)
    requires start <= end <= |s| && 1 <= n && 2 * n <= end - start
    ensures BufferAfter(s, Trimmed(start, end, n))[start..end] == Faded(s[start..end], n)
  {
    assert BufferAfter(s, Trimmed(start, end, n)) == s[..start] + Faded(s[start..end], n) + s[end..];
  }

  /** Sample i of the caller's buffer after a trimmed call: inside the kept
      region the input sample times its gain, elsewhere the input sample. */
  lemma BufferAfterAt(s: seq<real>, start: nat, end: nat, n: nat, i: nat)
    requires start <= end <= |s| && 1 <= n && 2 * n <= end - start && i < |s|
    ensures |BufferAfter(s, Trimmed(start, end, n))| == |s|
    ensures BufferAfter(s, Trimmed(start, end, n))[i] ==
      if start <= i < end then Amplify(s[i], Envelope(n, end - start, i - start)) else s[i]
  {
    var b := BufferAfter(s, Trimmed(start, end, n));
    var f := Faded(s[start..end], n);
    assert b == s[..start] + f + s[end..];
    if start <= i < end {
      var j := i - start;
      assert b[i] == f[j];
      FadedRegion(s, start, end, n);
      assert start + j == i;
    } else if i >= end {
      assert b[i] == s[end..][i - end];
    }
  }

  /** The two in-place fades, element by element, leave the caller's buffer
      as BufferAfter says: mid is the buffer after `[:n] *= fade_in`, fin
      after `[-n:] *= fade_out`. */
  lemma FadesWritten(s: seq<real>, mid: seq<real>, fin: seq<real>, start: nat, end: nat, n: nat)
    requires |mid| == |s| && |fin| == |s|
    requires start <= end <= |s| && 1 <= n && 2 * n <= end - start
    requires forall i :: start <= i < start + n ==> mid[i] == Amplify(s[i], FadeIn(n)[i - start])
    requires forall i :: 0 <= i < |s| && !(start <= i < start + n) ==> mid[i] == s[i]
    requires forall i :: end - n <= i < end ==> fin[i] == Amplify(mid[i], FadeOut(n)[i - (end - n)])
    requires forall i :: 0 <= i < |s| && !(end - n <= i < end) ==> fin[i] == mid[i]
    ensures fin == BufferAfter(s, Trimmed(start, end, n))
  {
    forall i | 0 <= i < |s| ensures fin[i] == BufferAfter(s, Trimmed(start, end, n))[i] {
      BufferAfterAt(s, start, end, n, i);
      FadeWrittenAt(s, mid, fin, start, end, n, i);
    }
  }

  lemma FadeWrittenAt(s: seq<real>, mid: seq<real>, fin: seq<real>, start: nat, end: nat, n: nat, i: nat)
    requires |mid| == |s| && |fin| == |s| && i < |s|
    requires start <= end <= |s| && 1 <= n && 2 * n <= end - start
    requires start <= i < start + n ==> mid[i] == Amplify(s[i], FadeIn(n)[i - start])
    requires !(start <= i < start + n) ==> mid[i] == s[i]
    requires end - n <= i < end ==> fin[i] == Amplify(mid[i], FadeOut(n)[i - (end - n)])
    requires !(end - n <= i < end) ==> fin[i] == mid[i]
    ensures fin[i] == if start <= i < end then Amplify(s[i], Envelope(n, end - start, i - start)) else s[i]
  {
    var len := end - start;
    if start <= i < start + n {
      assert Envelope(n, len, i - start) == FadeIn(n)[i - start];
    } else if end - n <= i < end {
      assert (i - start) - (len - n) == i - (end - n);
      assert Envelope(n, len, i - start) == FadeOut(n)[i - (end - n)];
    }
  }

  /** trim_and_fade on the caller's array. Returns the outcome; on Trimmed the
      returned audio is the view a[start..end], and the fades have been
      written through it into a. */
  method TrimAndFadeInPlace(a: array<real>, sampleRate: int, threshold: real, fadeDuration: real)
    returns (o: Outcome)
    modifies a
    ensures o == Plan(old(a[..]), sampleRate, threshold, fadeDuration)
    ensures a[..] == BufferAfter(old(a[..]), o)
    ensures o.Silent? ==> TrimAndFade(old(a[..]), sampleRate, threshold, fadeDuration) == Ok(a[..])
    ensures o.Trimmed? ==> TrimAndFade(old(a[..]), sampleRate, threshold, fadeDuration) == Ok(a[o.start..o.end])
    ensures o.Failed? ==> TrimAndFade(old(a[..]), sampleRate, threshold, fadeDuration) == Err(o.error)
  {
    ghost var s := a[..];
    o := Plan(a[..], sampleRate, threshold, fadeDuration);
    // On Silent nothing is written; on Failed numpy raises before any sample
    // changes (np.linspace refuses a negative count, and with a zero fade
    // `trimmed[:n] *= fade_in` writes nothing before `trimmed[-n:] *= fade_out`
    // raises).
    if o.Trimmed? {
      var start, end, n := o.start, o.end, o.fade;
      var fadeIn := FadeIn(n);
      var fadeOut := FadeOut(n);
      forall i | start <= i < start + n {
        a[i] := Amplify(a[i], fadeIn[i - start]);
      }
      ghost var mid := a[..];
      forall i | end - n <= i < end {
        a[i] := Amplify(a[i], fadeOut[i - (end - n)]);
      }
      FadesWritten(s, mid, a[..], start, end, n);
      BufferAfterSlice(s, start, end, n);
    }
  }
}
