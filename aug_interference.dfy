/**
  `build_interference_sum` of augment_data_2.py: draw between one and `max_interferers` interfering
  utterances, give each a random length, speed, filter and impulse response, and add each into a
  zero buffer of the speech's length at a random offset.
*/
module AugInterference {
  import opened Wrappers
  import opened PyStr
  import opened PyNum
  import opened Rng
  import opened AugSignal
  import opened AugManifest

  /** The command-line knobs `build_interference_sum` is called with. */
  datatype InterfParams = InterfParams(
    overlapMin: real, overlapMax: real, maxInterferers: int,
    speedProb: real, speedMin: real, speedMax: real,
    filterProb: real, rirProb: real, rirVolume: real)

  /** One interferer added at `start`. */
  datatype Placement = Placement(start: nat, raw: Samples)

  // ---------------------------------------------------------------------------------------------
  // the specification of the sum: every sample is the sum of the interferers covering it

  predicate Covers(p: Placement, j: int) {
    p.start <= j < p.start + |p.raw|
  }

  /** What placement `p` contributes to sample `j`. */
  function At(p: Placement, j: int): real {
    if Covers(p, j) then p.raw[j - p.start] else 0.0
  }

  function CoverSum(ps: seq<Placement>, j: int): real
  {
    if ps == [] then 0.0 else CoverSum(ps[..|ps| - 1], j) + At(ps[|ps| - 1], j)
  }

  /** The buffer after adding every placement into `np.zeros(L)`. */
  function Superpose(L: nat, ps: seq<Placement>): (r: seq<real>)
    ensures |r| == L
  {
    seq(L, j requires 0 <= j < L => CoverSum(ps, j))
  }

  /** A sample no interferer covers stays silent. */
  lemma {:induction false} SuperposeUncovered(L: nat, ps: seq<Placement>, j: nat)
    requires j < L
    requires forall k :: 0 <= k < |ps| ==> !Covers(ps[k], j)
    ensures Superpose(L, ps)[j] == 0.0
  {
    CoverSumUncovered(ps, j);
  }

  lemma {:induction false} CoverSumUncovered(ps: seq<Placement>, j: int)
    requires forall k :: 0 <= k < |ps| ==> !Covers(ps[k], j)
    ensures CoverSum(ps, j) == 0.0
    decreases |ps|
  {
    if ps != [] {
      var init := ps[..|ps| - 1];
      forall k | 0 <= k < |init| ensures !Covers(init[k], j) { assert init[k] == ps[k]; }
      CoverSumUncovered(init, j);
    }
  }

  /** A sample exactly one interferer covers is that interferer's sample. */
  lemma {:induction false} SuperposeOnly(L: nat, ps: seq<Placement>, j: nat, k: nat)
    requires j < L && k < |ps| && Covers(ps[k], j)
    requires forall i :: 0 <= i < |ps| && i != k ==> !Covers(ps[i], j)
    ensures Superpose(L, ps)[j] == ps[k].raw[j - ps[k].start]
  {
    CoverSumOnly(ps, j, k);
  }

  lemma {:induction false} CoverSumOnly(ps: seq<Placement>, j: int, k: nat)
    requires k < |ps| && Covers(ps[k], j)
    requires forall i :: 0 <= i < |ps| && i != k ==> !Covers(ps[i], j)
    ensures CoverSum(ps, j) == ps[k].raw[j - ps[k].start]
    decreases |ps|
  {
    var init := ps[..|ps| - 1];
    if k == |ps| - 1 {
      forall i | 0 <= i < |init| ensures !Covers(init[i], j) { assert init[i] == ps[i]; }
      CoverSumUncovered(init, j);
    } else {
      assert init[k] == ps[k];
      forall i | 0 <= i < |init| && i != k ensures !Covers(init[i], j) { assert init[i] == ps[i]; }
      CoverSumOnly(init, j, k);
    }
  }

  // ---------------------------------------------------------------------------------------------
  // one interferer

  /** `int(np.clip(int(frac * L), 1, L))`: between 1 and `L` samples (0 when `L` is 0). */
  function SegLen(L: nat, frac: real): (n: nat)
    ensures L >= 1 ==> 1 <= n <= L
    ensures L == 0 ==> n == 0
    ensures L >= 1 && 1 <= Trunc(frac * L as real) <= L ==> n == Trunc(frac * L as real)
  {
    Clip(Trunc(frac * L as real), 1, L)
  }

  /** With probability `speed_prob`, resample by a factor drawn from `[speed_min, speed_max)`. */
  function SpeedStep(raw: Samples, p: InterfParams, dsp: Dsp, g: Gen): (r: (Samples, Gen))
  {
    var d := Random(g);
    if d.value < p.speedProb then
      var f := Uniform(d.next, p.speedMin, p.speedMax);
      (ChangeSpeed(dsp, raw, f.value), f.next)
    else (raw, d.next)
  }

  /** With probability `filter_prob`, a 300-3400 Hz band-pass (probability 0.7) or a low-pass with the
      corner drawn from `[2500, 5000)`; filtering keeps the length. */
  function FilterStep(raw: Samples, p: InterfParams, dsp: Dsp, g: Gen): (r: (Samples, Gen))
    ensures |r.0| == |raw|
  {
    var d := Random(g);
    if d.value < p.filterProb then
      var b := Random(d.next);
      if b.value < 0.7 then (dsp.filter(raw, Bandpass(300.0, 3400.0)), b.next)
      else
        var f := Uniform(b.next, 2500.0, 5000.0);
        (dsp.filter(raw, Lowpass(f.value)), f.next)
    else (raw, d.next)
  }

  /** When impulse responses are given, with probability `rir_prob` convolve with one of them scaled by
      `rir_volume`; no draw is made without a list. */
  function RirStep(raw: Samples, sr: Rate, p: InterfParams, rirs: seq<Pair>, audio: String -> Option<Audio>,
                   dsp: Dsp, g: Gen): (d: Drawn<Samples>)
    ensures rirs == [] ==> d == Drawn(Ok(raw), g)
  {
    if rirs == [] then Drawn(Ok(raw), g)
    else
      var u := Random(g);
      if !(u.value < p.rirProb) then Drawn(Ok(raw), u.next)
      else
        var k := Integers(u.next, 0, |rirs|);
        match LoadRandomRir(audio(rirs[k.value].path), sr, dsp.resample)
        case Err(e) => Drawn(Err(e), k.next)
        case Ok(rir) => Drawn(Ok(ConvolveRir(dsp, raw, ScaleBy(p.rirVolume, rir))), k.next)
  }

  /** The last length fix: cut a long signal to its first `n` samples, repeat a short one. */
  function FitTruncate(raw: Samples, n: nat): (r: Samples)
    ensures raw != [] || n == 0 ==> |r| == n
    ensures |raw| >= n ==> r == raw[..n]
    ensures 0 < |raw| < n ==> r == TileTo(raw, n)
  {
    if |raw| > n then raw[..n]
    else if |raw| < n then TileTo(raw, n)
    else raw
  }

  /** A placement inside a buffer of `L` samples, non-empty when the buffer is. */
  predicate Fits(L: nat, p: Placement) {
    p.start + |p.raw| <= L && (L >= 1 ==> |p.raw| >= 1)
  }

  /** One pass of the loop body: pick an interferer, load `SegLen` samples of it, speed, fit, filter,
      convolve, fit again and place it. The pick raises ValueError on an empty pool; an empty signal
      left by the speed change or the convolution makes the `+=` raise ValueError. */
  function Interferer(L: nat, sr: Rate, pool: seq<Pair>, p: InterfParams, rirs: seq<Pair>,
                      audio: String -> Option<Audio>, dsp: Dsp, g: Gen): (d: Drawn<Placement>)
    ensures pool == [] ==> d.result == Err(ValueError)
    ensures pool != [] && (forall q :: q in pool ==> audio(q.path).None?) ==> d.result == Err(IOError)
    ensures d.result.Ok? ==> Fits(L, d.result.value)
  {
    if pool == [] then Drawn(Err(ValueError), g)
    else
      var pick := Integers(g, 0, |pool|);
      var u := Uniform(pick.next, p.overlapMin, p.overlapMax);
      var n := SegLen(L, u.value);
      var ld := LoadRandomSegment(audio(pool[pick.value].path), n, sr, u.next, dsp.resample);
      if ld.result.Err? then Drawn(Err(ld.result.error), ld.next)
      else
        var (sped, g1) := SpeedStep(ld.result.value, p, dsp, ld.next);
        var (fit, g2) := FitRandom(sped, n, g1);
        var (flt, g3) := FilterStep(fit, p, dsp, g2);
        var rd := RirStep(flt, sr, p, rirs, audio, dsp, g3);
        if rd.result.Err? then Drawn(Err(rd.result.error), rd.next)
        else
          var raw := FitTruncate(rd.result.value, n);
          var st := PlaceWithOffset(L, n, rd.next);
          if |raw| != n then Drawn(Err(ValueError), st.next)
          else Drawn(Ok(Placement(st.value as nat, raw)), st.next)
  }

  /** The loop body as a function of the generator state. */
  function Step(L: nat, sr: Rate, pool: seq<Pair>, p: InterfParams, rirs: seq<Pair>,
                audio: String -> Option<Audio>, dsp: Dsp): (step: Gen -> Drawn<Placement>)
    ensures forall g :: step(g) == Interferer(L, sr, pool, p, rirs, audio, dsp, g)
  {
    g => Interferer(L, sr, pool, p, rirs, audio, dsp, g)
  }

  /** The first `k` passes of the loop: the placements so far, or the error that ended it. */
  function Passes(k: nat, step: Gen -> Drawn<Placement>, g: Gen): (d: Drawn<seq<Placement>>)
    ensures d.result.Ok? ==> |d.result.value| == k
  {
    if k == 0 then Drawn(Ok([]), g)
    else
      var prev := Passes(k - 1, step, g);
      if prev.result.Err? then prev
      else
        var d := step(prev.next);
        if d.result.Err? then Drawn(Err(d.result.error), d.next)
        else Drawn(Ok(prev.result.value + [d.result.value]), d.next)
  }

  /** Once a pass raises, the loop ends with that error. */
  lemma {:induction false} PassesErrPersists(k: nat, n: nat, step: Gen -> Drawn<Placement>, g: Gen)
    requires k <= n && Passes(k, step, g).result.Err?
    ensures Passes(n, step, g) == Passes(k, step, g)
    decreases n - k
  {
    if k < n {
      PassesErrPersists(k, n - 1, step, g);
    }
  }

  /** Every placement the passes keep is one the step produced, so it fits when every step's does. */
  lemma {:induction false} PassesFit(k: nat, L: nat, step: Gen -> Drawn<Placement>, g: Gen)
    requires forall h :: step(h).result.Ok? ==> Fits(L, step(h).result.value)
    ensures Passes(k, step, g).result.Ok? ==> forall i :: 0 <= i < k ==> Fits(L, Passes(k, step, g).result.value[i])
  {
    if k > 0 {
      PassesFit(k - 1, L, step, g);
    }
  }

  /** The whole draw: `K` from `[1, max_interferers]` (ValueError when that range is empty), then `K` passes. */
  function Placements(L: nat, sr: Rate, pool: seq<Pair>, p: InterfParams, rirs: seq<Pair>,
                      audio: String -> Option<Audio>, dsp: Dsp, g: Gen): (d: Drawn<seq<Placement>>)
  {
    if p.maxInterferers < 1 then Drawn(Err(ValueError), g)
    else
      var kd := Integers(g, 1, p.maxInterferers + 1);
      Passes(kd.value, Step(L, sr, pool, p, rirs, audio, dsp), kd.next)
  }

  /** Between one and `max_interferers` interferers, each inside the buffer; ValueError when
      `max_interferers < 1` or the pool is empty. */
  lemma PlacementsShape(L: nat, sr: Rate, pool: seq<Pair>, p: InterfParams, rirs: seq<Pair>,
                        audio: String -> Option<Audio>, dsp: Dsp, g: Gen)
    ensures var d := Placements(L, sr, pool, p, rirs, audio, dsp, g);
      && (p.maxInterferers < 1 || pool == [] ==> d.result == Err(ValueError))
      && (d.result.Ok? ==> (1 <= |d.result.value| <= p.maxInterferers
                           && forall i :: 0 <= i < |d.result.value| ==> Fits(L, d.result.value[i])))
  {
    PlacementsEmptyPool(L, sr, pool, p, rirs, audio, dsp, g);
    PlacementsFit(L, sr, pool, p, rirs, audio, dsp, g);
  }

  /** With no interferer to pick the draw raises ValueError. */
  lemma PlacementsEmptyPool(L: nat, sr: Rate, pool: seq<Pair>, p: InterfParams, rirs: seq<Pair>,
                            audio: String -> Option<Audio>, dsp: Dsp, g: Gen)
    ensures p.maxInterferers < 1 || pool == [] ==> Placements(L, sr, pool, p, rirs, audio, dsp, g).result == Err(ValueError)
  {
    if p.maxInterferers >= 1 && pool == [] {
      var kd := Integers(g, 1, p.maxInterferers + 1);
      var step := Step(L, sr, pool, p, rirs, audio, dsp);
      assert Passes(1, step, kd.next).result == Err(ValueError) by {
        assert step(Passes(0, step, kd.next).next).result == Err(ValueError);
      }
      PassesErrPersists(1, kd.value, step, kd.next);
    }
  }

  /** A successful draw holds between one and `max_interferers` placements, each inside the buffer. */
  lemma PlacementsFit(L: nat, sr: Rate, pool: seq<Pair>, p: InterfParams, rirs: seq<Pair>,
                      audio: String -> Option<Audio>, dsp: Dsp, g: Gen)
    ensures var d := Placements(L, sr, pool, p, rirs, audio, dsp, g);
      d.result.Ok? ==> (1 <= |d.result.value| <= p.maxInterferers
                        && forall i :: 0 <= i < |d.result.value| ==> Fits(L, d.result.value[i]))
  {
    var d := Placements(L, sr, pool, p, rirs, audio, dsp, g);
    if d.result.Ok? {
      var kd := Integers(g, 1, p.maxInterferers + 1);
      var step := Step(L, sr, pool, p, rirs, audio, dsp);
      assert d == Passes(kd.value, step, kd.next);
      StepFits(L, sr, pool, p, rirs, audio, dsp);
      PassesFit(kd.value, L, step, kd.next);
    }
  }

  /** Every pass that succeeds places its interferer inside the buffer. */
  lemma StepFits(L: nat, sr: Rate, pool: seq<Pair>, p: InterfParams, rirs: seq<Pair>,
                 audio: String -> Option<Audio>, dsp: Dsp)
    ensures var step := Step(L, sr, pool, p, rirs, audio, dsp);
      forall h :: step(h).result.Ok? ==> Fits(L, step(h).result.value)
  {
  }

  // ---------------------------------------------------------------------------------------------
  // the method: a zero buffer and `out[start:start + seg_len] += raw`

  /** `build_interference_sum`: the buffer it returns is the superposition of the drawn placements; on
      error, the error of the pass that raised. */
  method BuildInterferenceSum(L: nat, sr: Rate, pool: seq<Pair>, p: InterfParams, rirs: seq<Pair>,
                              audio: String -> Option<Audio>, dsp: Dsp, g: Gen)
    returns (res: Result<seq<real>>, h: Gen)
    ensures var d := Placements(L, sr, pool, p, rirs, audio, dsp, g);
      && h == d.next
      && (d.result.Err? ==> res == Err(d.result.error))
      && (d.result.Ok? ==> res == Ok(Superpose(L, d.result.value)))
  {
    if p.maxInterferers < 1 {
      return Err(ValueError), g;
    }
    var kd := Integers(g, 1, p.maxInterferers + 1);
    var step := Step(L, sr, pool, p, rirs, audio, dsp);
    res, h := SumPasses(L, kd.value, step, kd.next);
  }

  /** The loop of `build_interference_sum` over a zero buffer, for any loop body. */
  method SumPasses(L: nat, n: nat, step: Gen -> Drawn<Placement>, g: Gen) returns (res: Result<seq<real>>, h: Gen)
    requires forall h :: step(h).result.Ok? ==> Fits(L, step(h).result.value)
    ensures var d := Passes(n, step, g);
      && h == d.next
      && (d.result.Err? ==> res == Err(d.result.error))
      && (d.result.Ok? ==> res == Ok(Superpose(L, d.result.value)))
  {
    var out := new real[L](_ => 0.0);
    ghost var placed: seq<Placement> := [];
    h := g;
    var k := 0;
    while k < n
      invariant 0 <= k <= n
      invariant Passes(k, step, g) == Drawn(Ok(placed), h)
      invariant forall j :: 0 <= j < L ==> out[j] == CoverSum(placed, j)
    {
      var d := step(h);
      if d.result.Err? {
        PassesErrPersists(k + 1, n, step, g);
        return Err(d.result.error), d.next;
      }
      var pl := d.result.value;
      AddInto(out, pl, placed);
      placed := placed + [pl];
      h := d.next;
      k := k + 1;
    }
    assert out[..] == Superpose(L, placed);
    res := Ok(out[..]);
  }

  /** `out[start:start + len(raw)] += raw` on a buffer holding the superposition of `placed`. */
  method AddInto(out: array<real>, pl: Placement, ghost placed: seq<Placement>)
    requires pl.start + |pl.raw| <= out.Length
    requires forall j :: 0 <= j < out.Length ==> out[j] == CoverSum(placed, j)
    modifies out
    ensures forall j :: 0 <= j < out.Length ==> out[j] == CoverSum(placed + [pl], j)
  {
    var i := 0;
    while i < |pl.raw|
      invariant 0 <= i <= |pl.raw|
      invariant forall j :: 0 <= j < out.Length ==>
        out[j] == CoverSum(placed, j) + (if pl.start <= j < pl.start + i then pl.raw[j - pl.start] else 0.0)
    {
      out[pl.start + i] := out[pl.start + i] + pl.raw[i];
      i := i + 1;
    }
    assert (placed + [pl])[..|placed|] == placed;
  }
}
