/**
  The length and guard structure of the signal helpers of augment_data_2.py. Samples are reals; the
  floating-point signal processing (resampling, speed change, Butterworth filters, RIR convolution,
  RMS-based gains) is a record of caller-supplied functions, constrained only by the facts about
  lengths that the library calls guarantee. What is modelled exactly is everything around them:
  tiling, random windows, placement, numpy broadcasting, peak normalisation and the conversion of
  millisecond VAD segments to clamped sample indices.
*/
module AugSignal {
  import opened Wrappers
  import opened PyNum
  import opened Rng

  type Samples = seq<real>

  /** A sample rate in Hz. */
  type Rate = r: int | r > 0 witness 1

  /** A decoded, mono audio file. */
  datatype Audio = Audio(sr: Rate, samples: Samples)

  /** The two filters `butter_filter` is asked for. */
  datatype Band = Bandpass(low: real, high: real) | Lowpass(high: real)

  /** `resample_poly`: a signal is empty after resampling exactly when it was empty before. */
  type Resampler = f: (Samples, Rate, Rate) -> Samples
    | forall x: Samples, a: Rate, b: Rate :: |f(x, a, b)| > 0 <==> |x| > 0
    witness (x: Samples, a: Rate, b: Rate) => x

  /** `sosfiltfilt` / `sosfilt`: the output has the input's length. */
  type Filter = f: (Samples, Band) -> Samples
    | forall x: Samples, b: Band :: |f(x, b)| == |x|
    witness (x: Samples, b: Band) => x

  /** The signal processing the model leaves to the caller. */
  datatype Dsp = Dsp(
    resample: Resampler,                         // resample(y, sr_from, sr_to) for sr_from != sr_to
    changeSpeed: (Samples, real) -> Samples,     // resample_poly by the speed fraction
    filter: Filter,                              // butter_filter
    convolve: (Samples, Samples) -> Samples,     // fftconvolve(..., 'full') with the RMS re-scale
    silent: Samples -> bool,                     // rms(x) < 1e-10
    gain: (Samples, Samples, real) -> real)      // rs / (rn * 10 ** (db / 20))

  // ---------------------------------------------------------------------------------------------
  // np.tile and its truncation

  /** `np.tile(x, ceil(n / max(1, len(x))))[:n]`: `x` repeated and cut to exactly `n` samples (nothing
      when `x` is empty). Written as "x, then the rest" so that its meaning is stated without `%`:
      the result starts with `x` and repeats with period `|x|`. */
  function TileTo(x: Samples, n: nat): (r: Samples)
    ensures x != [] ==> |r| == n
    ensures x == [] ==> r == []
    ensures forall i :: 0 <= i < n && i < |x| ==> r[i] == x[i]
    ensures x != [] ==> forall i :: 0 <= i < n - |x| ==> r[i + |x|] == r[i]
    ensures forall i :: 0 <= i < |r| ==> r[i] in x
    decreases n
  {
    if x == [] then []
    else if n <= |x| then x[..n]
    else
      var rest := TileTo(x, n - |x|);
      var r := x + rest;
      assert forall i :: 0 <= i < n - |x| ==> r[i + |x|] == r[i] by {
        forall i | 0 <= i < n - |x| ensures r[i + |x|] == r[i] {
          if i >= |x| { assert rest[i] == rest[(i - |x|) + |x|]; }
        }
      }
      r
  }

  /** Repeating a signal that is already long enough keeps a prefix of it. */
  lemma TileToPrefix(x: Samples, n: nat)
    requires n <= |x|
    ensures TileTo(x, n) == x[..n]
  {
  }

  /** A window `x[s .. s + n)`. */
  function Window(x: Samples, s: nat, n: nat): Samples
    requires s + n <= |x|
  {
    x[s..s + n]
  }

  /** `w` is a contiguous window of `x`. */
  ghost predicate IsWindowOf(w: Samples, x: Samples) {
    exists s: nat :: s + |w| <= |x| && w == Window(x, s, |w|)
  }

  // ---------------------------------------------------------------------------------------------
  // load_random_segment

  /** A result that also carries the generator state after the draws it made. */
  datatype Drawn<T> = Drawn(result: Result<T>, next: Gen)

  /** How many source frames `load_random_segment` reads for `targetLen` output samples. */
  function NeedSrc(targetLen: nat, srSrc: Rate, srTarget: Rate): (need: nat)
    ensures targetLen > 0 ==> need > 0
    ensures srSrc == srTarget ==> need == targetLen
  {
    if srSrc == srTarget then targetLen
    else
      var c := CeilDiv(targetLen * srSrc, srTarget);
      assert targetLen > 0 ==> c > 0 by {
        if targetLen > 0 { assert targetLen * srSrc > 0; }
      }
      if c < 0 then 0 else c
  }

  /** The frames read from the file: `need` consecutive frames from a random start in
      `[0, frames - need]` when the file is long enough, otherwise the whole file. */
  function ReadWindow(samples: Samples, need: nat, g: Gen): (r: (Samples, Gen))
    ensures |samples| >= need ==> |r.0| == need && IsWindowOf(r.0, samples)
    ensures |samples| < need ==> r == (samples, g)
  {
    if |samples| >= need then
      var d := Integers(g, 0, |samples| - need + 1);
      assert samples[d.value..d.value + need] == Window(samples, d.value, need);
      (samples[d.value..d.value + need], d.next)
    else (samples, g)
  }

  /** `np.clip(seg, -1.0, 1.0)` */
  function ClipUnit(x: Samples): (r: Samples)
    ensures |r| == |x|
    ensures forall i :: 0 <= i < |x| ==> -1.0 <= r[i] <= 1.0
    ensures forall i :: 0 <= i < |x| && -1.0 <= x[i] <= 1.0 ==> r[i] == x[i]
  {
    seq(|x|, i requires 0 <= i < |x| => if x[i] < -1.0 then -1.0 else if x[i] > 1.0 then 1.0 else x[i])
  }

  /** Clipping commutes with taking a window, so a window of the clipped file is the clipped window. */
  lemma ClipWindow(x: Samples, w: Samples)
    requires IsWindowOf(w, x)
    ensures IsWindowOf(ClipUnit(w), ClipUnit(x))
  {
    var s: nat :| s + |w| <= |x| && w == Window(x, s, |w|);
    assert ClipUnit(w) == Window(ClipUnit(x), s, |w|);
  }

  /** The second length fix: repeat a short signal, or take a random window of a long one. */
  function FitRandom(seg: Samples, n: nat, g: Gen): (r: (Samples, Gen))
    ensures seg != [] || n == 0 ==> |r.0| == n
    ensures 0 < |seg| < n ==> r == (TileTo(seg, n), g)
    ensures |seg| > n ==> IsWindowOf(r.0, seg)
    ensures |seg| == n ==> r == (seg, g)
  {
    if |seg| < n then (TileTo(seg, n), g)
    else if |seg| > n then
      var d := Integers(g, 0, |seg| - n + 1);
      assert seg[d.value..d.value + n] == Window(seg, d.value, n);
      (seg[d.value..d.value + n], d.next)
    else (seg, g)
  }

  /** `load_random_segment`: exactly `targetLen` samples drawn from the file; zeros for a file with
      no frames; IOError (with nothing drawn) for a file that cannot be opened. At the target rate every
      sample lies in `[-1, 1]`. */
  function LoadRandomSegment(src: Option<Audio>, targetLen: nat, srTarget: Rate, g: Gen, resample: Resampler): (d: Drawn<Samples>)
    ensures src.None? ==> d == Drawn(Err(IOError), g)
    ensures src.Some? ==> d.result.Ok? && |d.result.value| == targetLen
    ensures src.Some? && src.value.samples == [] ==> d == Drawn(Ok(seq(targetLen, _ => 0.0)), g)
    ensures src.Some? && src.value.sr == srTarget ==>
      forall i :: 0 <= i < targetLen ==> -1.0 <= d.result.value[i] <= 1.0
  {
    match src
    case None => Drawn(Err(IOError), g)
    case Some(a) =>
      if a.samples == [] then Drawn(Ok(seq(targetLen, _ => 0.0)), g)
      else
        var need := NeedSrc(targetLen, a.sr, srTarget);
        var (raw, g1) := ReadWindow(a.samples, need, g);
        var seg := ClipUnit(raw);
        var seg' := if a.sr != srTarget then resample(seg, a.sr, srTarget) else seg;
        var (out, g2) := FitRandom(seg', targetLen, g1);
        assert a.sr == srTarget ==> forall i :: 0 <= i < targetLen ==> -1.0 <= out[i] <= 1.0 by {
          if a.sr == srTarget {
            assert forall v :: v in seg ==> -1.0 <= v <= 1.0;
          }
        }
        Drawn(Ok(out), g2)
  }

  /** With the file at the target rate and at least `targetLen` frames long, the segment is a contiguous
      window of the clipped file. */
  lemma LoadRandomSegmentWindow(a: Audio, targetLen: nat, g: Gen, resample: Resampler)
    requires |a.samples| >= targetLen
    ensures IsWindowOf(LoadRandomSegment(Some(a), targetLen, a.sr, g, resample).result.value, ClipUnit(a.samples))
  {
    if a.samples == [] {
      assert seq(targetLen, _ => 0.0) == Window(ClipUnit(a.samples), 0, 0);
    } else {
      var (raw, g1) := ReadWindow(a.samples, targetLen, g);
      ClipWindow(a.samples, raw);
    }
  }

  /** With the file at the target rate but shorter than `targetLen`, the segment is the whole clipped
      file repeated. */
  lemma LoadRandomSegmentTiled(a: Audio, targetLen: nat, g: Gen, resample: Resampler)
    requires 0 < |a.samples| < targetLen
    ensures LoadRandomSegment(Some(a), targetLen, a.sr, g, resample) == Drawn(Ok(TileTo(ClipUnit(a.samples), targetLen)), g)
  {
  }

  // ---------------------------------------------------------------------------------------------
  // placement, impulse responses, speed and filters

  /** `place_with_offset`: a start that keeps `[start, start + segLen)` inside `[0, L)`. */
  function PlaceWithOffset(L: nat, segLen: nat, g: Gen): (d: Draw<int>)
    ensures 0 <= d.value
    ensures segLen <= L ==> d.value + segLen <= L
    ensures segLen >= L ==> d == Draw(0, g)
  {
    if segLen >= L then Draw(0, g) else Integers(g, 0, L - segLen + 1)
  }

  lemma DivBelowOne(x: real, m: real)
    requires Abs(x) <= m
    ensures Abs(x / (m + 0.000000001)) < 1.0
  {
    var d := m + 0.000000001;
    var q := x / d;
    assert q * d == x;
    if q >= 1.0 {
      MulNonneg(q - 1.0, d);
      assert false;
    } else if q <= -1.0 {
      MulNonneg(-q - 1.0, d);
      assert false;
    }
  }

  lemma MulNonneg(a: real, b: real)
    requires a >= 0.0 && b >= 0.0
    ensures a * b >= 0.0
  {
  }

  /** `load_random_rir`: the response, read and clipped to `[-1, 1]`, at the target rate, scaled so its peak is below 1. An unreadable
      file raises IOError; an empty one makes `np.max` raise ValueError. */
  function LoadRandomRir(src: Option<Audio>, srTarget: Rate, resample: Resampler): (r: Result<Samples>)
    ensures src.None? ==> r == Err(IOError)
    ensures src.Some? && src.value.samples == [] ==> r == Err(ValueError)
    ensures src.Some? && src.value.samples != [] ==> r.Ok? && r.value != []
    ensures r.Ok? ==> forall i :: 0 <= i < |r.value| ==> Abs(r.value[i]) < 1.0
  {
    match src
    case None => Err(IOError)
    case Some(a) =>
      var clipped := ClipUnit(a.samples);
      var y := if a.sr != srTarget then resample(clipped, a.sr, srTarget) else clipped;
      if y == [] then Err(ValueError)
      else
        var m := MaxAbs(y);
        var out := seq(|y|, i requires 0 <= i < |y| => y[i] / (m + 0.000000001));
        forall i | 0 <= i < |y| ensures Abs(out[i]) < 1.0 { DivBelowOne(y[i], m); }
        Ok(out)
  }

  /** `volume * rir` */
  function ScaleBy(v: real, x: Samples): (r: Samples)
    ensures |r| == |x| && forall i :: 0 <= i < |x| ==> r[i] == v * x[i]
  {
    seq(|x|, i requires 0 <= i < |x| => v * x[i])
  }

  /** `convolve_rir`: an empty response leaves the signal as it is. */
  function ConvolveRir(dsp: Dsp, y: Samples, rir: Samples): (r: Samples)
    ensures rir == [] ==> r == y
  {
    if rir == [] then y else dsp.convolve(y, rir)
  }

  /** `change_speed`: the factor is clamped to `[0.5, 2.0]` before resampling. */
  function ChangeSpeed(dsp: Dsp, y: Samples, speed: real): Samples
  {
    var s := if speed < 0.5 then 0.5 else if speed > 2.0 then 2.0 else speed;
    dsp.changeSpeed(y, s)
  }

  // ---------------------------------------------------------------------------------------------
  // mixing

  /** `a + gain * b` with numpy broadcasting: equal lengths add elementwise, a length-1 operand is
      repeated, and any other mismatch raises ValueError. */
  function AddScaled(a: Samples, gain: real, b: Samples): (r: Result<Samples>)
    ensures |a| == |b| ==> r.Ok? && |r.value| == |a| && forall i :: 0 <= i < |a| ==> r.value[i] == a[i] + gain * b[i]
    ensures |a| != |b| && |a| != 1 && |b| != 1 ==> r == Err(ValueError)
  {
    if |a| == |b| then Ok(seq(|a|, i requires 0 <= i < |a| => a[i] + gain * b[i]))
    else if |a| == 1 then Ok(seq(|b|, i requires 0 <= i < |b| => a[0] + gain * b[i]))
    else if |b| == 1 then Ok(seq(|a|, i requires 0 <= i < |a| => a[i] + gain * b[0]))
    else Err(ValueError)
  }

  /** The secondary as it is added: tiled to the speech's length when shorter, as it is otherwise. */
  function Extended(sec: Samples, n: nat): Samples
  {
    if |sec| < n then TileTo(sec, n) else sec
  }

  /** `mix_background_at_snr` / `mix_interferers_at_sir`: a silent secondary leaves the speech as it is;
      otherwise a shorter secondary is tiled to the speech's length and added with the given gain, and
      numpy broadcasting decides the remaining length mismatches. */
  function MixAtRatio(speech: Samples, sec: Samples, silent: bool, gain: real): (r: Result<Samples>)
    ensures silent ==> r == Ok(speech)
    ensures !silent && 0 < |sec| <= |speech| ==>
      var e := Extended(sec, |speech|);
      r.Ok? && |r.value| == |speech| && |e| == |speech| && forall i :: 0 <= i < |speech| ==> r.value[i] == speech[i] + gain * e[i]
    ensures !silent && |sec| == 0 < |speech| ==> r == Err(ZeroDivisionError)
    ensures !silent && |sec| > |speech| > 1 ==> r == Err(ValueError)
  {
    if silent then Ok(speech)
    else if |sec| < |speech| && |sec| == 0 then Err(ZeroDivisionError)
    else AddScaled(speech, gain, Extended(sec, |speech|))
  }

  /** Mixing a secondary of the speech's own length never fails and keeps the length. */
  lemma MixSameLength(speech: Samples, sec: Samples, silent: bool, gain: real)
    requires |sec| == |speech|
    ensures MixAtRatio(speech, sec, silent, gain).Ok?
    ensures |MixAtRatio(speech, sec, silent, gain).value| == |speech|
  {
  }

  lemma ScaleBelowMargin(x: real, p: real, margin: real)
    requires p > 0.0 && Abs(x) <= p && margin >= 0.0
    ensures Abs((margin / p) * x) <= margin
  {
    var k := margin / p;
    assert k * p == margin;
    MulNonneg(k, p - Abs(x));
  }

  lemma ScaledBelowMargin(x: Samples, p: real, margin: real, k: real)
    requires p > 0.0 && margin >= 0.0 && k == margin / p
    requires forall i :: 0 <= i < |x| ==> Abs(x[i]) <= p
    ensures forall i :: 0 <= i < |x| ==> Abs(ScaleBy(k, x)[i]) <= margin
  {
    var out := ScaleBy(k, x);
    forall i | 0 <= i < |x| ensures Abs(out[i]) <= margin {
      ScaleBelowMargin(x[i], p, margin);
    }
  }

  /** `peak_normalize`: when the peak (plus 1e-12) exceeds 1, every sample is scaled by `margin / peak`;
      otherwise the signal is left as it is. An empty signal makes `np.max` raise ValueError. */
  function PeakNormalize(x: Samples, margin: real): (r: Result<Samples>)
    ensures x == [] ==> r == Err(ValueError)
    ensures x != [] ==> r.Ok? && |r.value| == |x|
    ensures x != [] && MaxAbs(x) + 0.000000000001 <= 1.0 ==> r == Ok(x)
  {
    if x == [] then Err(ValueError)
    else
      var peak := MaxAbs(x) + 0.000000000001;
      if peak > 1.0 then Ok(ScaleBy(margin / peak, x)) else Ok(x)
  }

  /** After `peak_normalize` with a non-negative margin, every sample is below 1 in magnitude (the signal
      was left alone) or at most the margin (it was scaled down). */
  lemma PeakNormalizeBound(x: Samples, margin: real)
    requires x != [] && margin >= 0.0
    ensures forall i :: 0 <= i < |x| ==>
      Abs(PeakNormalize(x, margin).value[i]) < 1.0 || Abs(PeakNormalize(x, margin).value[i]) <= margin
  {
    var peak := MaxAbs(x) + 0.000000000001;
    var r := PeakNormalize(x, margin).value;
    if peak > 1.0 {
      assert r == ScaleBy(margin / peak, x);
      ScaledBelowMargin(x, peak, margin, margin / peak);
    } else {
      assert r == x;
      forall i | 0 <= i < |x| ensures Abs(r[i]) < 1.0 {
        assert Abs(x[i]) <= MaxAbs(x);
      }
    }
  }

  // ---------------------------------------------------------------------------------------------
  // VAD segments

  /** A VAD segment in milliseconds, as a `[start, end]` list or as a dict with optional keys. */
  datatype VadSeg = AsList(startMs: int, endMs: int) | AsDict(start: Option<int>, end: Option<int>)

  function SegStartMs(seg: VadSeg): int {
    match seg
    case AsList(s, _) => s
    case AsDict(s, _) => if s.Some? then s.value else 0
  }

  function SegEndMs(seg: VadSeg): int {
    match seg
    case AsList(_, e) => e
    case AsDict(_, e) => if e.Some? then e.value else 0
  }

  /** `seg_ms_to_samples`: start and end rounded to the nearest sample, then clamped so that
      `0 <= s <= e <= total`; a rounded value already in range is kept. */
  function SegMsToSamples(seg: VadSeg, sr: Rate, total: nat): (r: (int, int))
    ensures 0 <= r.0 <= r.1 <= total
    ensures var s := RoundHalfEven(SegStartMs(seg) * sr, 1000); 0 <= s <= total ==> r.0 == s
    ensures var e := RoundHalfEven(SegEndMs(seg) * sr, 1000); r.0 <= e <= total ==> r.1 == e
  {
    var s := RoundHalfEven(SegStartMs(seg) * sr, 1000);
    var e := RoundHalfEven(SegEndMs(seg) * sr, 1000);
    var s' := Max(0, Min(total, s));
    var e' := Max(s', Min(total, e));
    (s', e')
  }
}
