/**
  `main` and `process_one` of augment_data_2.py: validate the arguments, read the manifests, and for
  every training utterance produce `--copies` augmented copies. Each copy mixes a background and a sum
  of interferers into every VAD span of the utterance, is peak-normalised and written, and is listed in
  the output `wav.scp` and `text`.
*/
module AugPipeline {
  import opened Wrappers
  import opened PyStr
  import opened PyNum
  import opened Rng
  import opened Seqs
  import opened Digits
  import opened AugManifest
  import opened AugSignal
  import opened AugInterference

  /** The command-line arguments; an empty `bgScp` / `rirScp` stands for the option not given. */
  datatype Args = Args(
    inDir: String, outDir: String, inScpName: String, inTextName: String,
    outScpName: String, outTextName: String, interfereScp: String,
    sirMin: real, sirMax: real, maxInterferers: int, overlapMin: real, overlapMax: real,
    bgScp: String, snrMin: real, snrMax: real, bgProb: real,
    speedProb: real, speedMin: real, speedMax: real, filterProb: real,
    rirScp: String, rirProb: real, copies: int, peakMargin: real, seed: int, rirVolume: real)

  /** An order in which `as_completed` can hand back `n` futures: each index exactly once. */
  type Completion = f: nat -> seq<nat> | forall n: nat :: multiset(f(n)) == multiset(Range(n))
    witness (n: nat) => Range(n)

  /** Everything outside the script: the text files it reads (as lines, `None` when a file cannot be
      opened), the audio files (decoded to mono), the VAD (`None` when it raises), whether writing a
      path succeeds, the words `default_rng(seed)` produces, and the signal processing. The order in
      which the worker threads finish is a `Completion` given beside it. */
  datatype Env = Env(
    files: String -> Option<seq<String>>,
    audio: String -> Option<Audio>,
    vad: String -> Option<seq<VadSeg>>,
    writeOk: String -> bool,
    stream: int -> (nat -> nat),
    dsp: Dsp)

  /** What `main` has read once it starts producing copies. */
  datatype Inputs = Inputs(train: seq<Pair>, texts: map<String, String>, pool: seq<Pair>, bgs: seq<Pair>, rirs: seq<Pair>)

  /** Why `main` stops without producing anything: one of its checks, or an exception it does not catch. */
  datatype Abort = BadCopies | BadSir | BadSnr | BadOverlap | EmptyTrain | EmptyText | EmptyInterferers | Crash(error: PyError)

  datatype Startup = Stopped(reason: Abort) | Ready(inputs: Inputs)

  /** One copy written to disk: its manifest entry and the samples written. */
  datatype WrittenCopy = WrittenCopy(entry: Produced, audio: Samples)

  datatype Outcome = Aborted(reason: Abort) | Done(written: seq<WrittenCopy>, scp: seq<String>, text: seq<String>)

  // ---------------------------------------------------------------------------------------------
  // start-up

  /** The argument checks, in the order `main` makes them. */
  function Validate(a: Args): (r: Option<Abort>)
    ensures r.None? <==> a.copies >= 1 && a.sirMin <= a.sirMax && a.snrMin <= a.snrMax
                         && 0.0 <= a.overlapMin <= a.overlapMax <= 1.0
    ensures a.copies < 1 ==> r == Some(BadCopies)
    ensures a.copies >= 1 && a.sirMax < a.sirMin ==> r == Some(BadSir)
  {
    if a.copies < 1 then Some(BadCopies)
    else if a.sirMax < a.sirMin then Some(BadSir)
    else if a.snrMax < a.snrMin then Some(BadSnr)
    else if !(0.0 <= a.overlapMin <= a.overlapMax <= 1.0) then Some(BadOverlap)
    else None
  }

  /** `read_scp` of a path; opening a missing file raises. */
  function ScpFile(files: String -> Option<seq<String>>, path: String): Result<seq<Pair>>
  {
    match files(path)
    case None => Err(IOError)
    case Some(lines) => Ok(ScpPairs(lines))
  }

  /** `read_scp(p) if p else []` */
  function OptionalScpFile(files: String -> Option<seq<String>>, path: String): Result<seq<Pair>>
  {
    if path == [] then Ok([]) else ScpFile(files, path)
  }

  function TextFile(files: String -> Option<seq<String>>, path: String): Result<map<String, String>>
  {
    match files(path)
    case None => Err(IOError)
    case Some(lines) => TextMap(lines)
  }

  /** `main` up to the thread pool: the argument checks, then the manifests, each empty one ending the
      run with its own message. */
  function Start(a: Args, files: String -> Option<seq<String>>): (r: Startup)
    ensures r.Ready? ==> Validate(a).None? && r.inputs.train != [] && |r.inputs.texts| > 0 && r.inputs.pool != []
  {
    if Validate(a).Some? then Stopped(Validate(a).value)
    else
      match ScpFile(files, PathJoin(a.inDir, a.inScpName))
      case Err(e) => Stopped(Crash(e))
      case Ok(train) =>
        if train == [] then Stopped(EmptyTrain)
        else
          match TextFile(files, PathJoin(a.inDir, a.inTextName))
          case Err(e) => Stopped(Crash(e))
          case Ok(texts) =>
            if |texts| == 0 then Stopped(EmptyText)
            else
              match ScpFile(files, a.interfereScp)
              case Err(e) => Stopped(Crash(e))
              case Ok(pool) =>
                if pool == [] then Stopped(EmptyInterferers)
                else
                  match OptionalScpFile(files, a.bgScp)
                  case Err(e) => Stopped(Crash(e))
                  case Ok(bgs) =>
                    match OptionalScpFile(files, a.rirScp)
                    case Err(e) => Stopped(Crash(e))
                    case Ok(rirs) => Ready(Inputs(train, texts, pool, bgs, rirs))
  }

  /** A run with valid arguments and readable manifests stops early exactly when the training list, the
      transcript dict or the interferer list comes out empty. */
  lemma StartEmptyManifests(a: Args, files: String -> Option<seq<String>>, train: seq<String>, text: seq<String>, pool: seq<String>)
    requires Validate(a).None?
    requires files(PathJoin(a.inDir, a.inScpName)) == Some(train)
    requires files(PathJoin(a.inDir, a.inTextName)) == Some(text) && TextMap(text).Ok?
    requires files(a.interfereScp) == Some(pool)
    requires a.bgScp == [] && a.rirScp == []
    ensures Start(a, files).Ready? <==> ScpPairs(train) != [] && |TextMap(text).value| > 0 && ScpPairs(pool) != []
    ensures ScpPairs(train) == [] ==> Start(a, files) == Stopped(EmptyTrain)
    ensures ScpPairs(train) != [] && |TextMap(text).value| == 0 ==> Start(a, files) == Stopped(EmptyText)
  {
  }

  // ---------------------------------------------------------------------------------------------
  // one span of one copy

  function ParamsOf(a: Args): InterfParams {
    InterfParams(a.overlapMin, a.overlapMax, a.maxInterferers, a.speedProb, a.speedMin, a.speedMax,
                 a.filterProb, a.rirProb, a.rirVolume)
  }

  /** With background files and probability `bg_prob`, mix a random segment of a random one at an SNR
      drawn from `[snr_min, snr_max)`; an unreadable file leaves the span as it is. */
  function BackgroundStep(view: Samples, a: Args, inp: Inputs, env: Env, sr: Rate, g: Gen): (r: (Samples, Gen))
    ensures |r.0| == |view|
    ensures inp.bgs == [] ==> r == (view, g)
  {
    if inp.bgs == [] then (view, g)
    else
      var u := Random(g);
      if !(u.value < a.bgProb) then (view, u.next)
      else
        var k := Integers(u.next, 0, |inp.bgs|);
        var ld := LoadRandomSegment(env.audio(inp.bgs[k.value].path), |view|, sr, k.next, env.dsp.resample);
        if ld.result.Err? then (view, ld.next)
        else
          var bg := ld.result.value;
          var snr := Uniform(ld.next, a.snrMin, a.snrMax);
          MixSameLength(view, bg, env.dsp.silent(bg), env.dsp.gain(view, bg, snr.value));
          var m := MixAtRatio(view, bg, env.dsp.silent(bg), env.dsp.gain(view, bg, snr.value));
          (m.value, snr.next)
  }

  /** The background, then the interferers at an SIR drawn from `[sir_min, sir_max)`; when building the
      interference sum raises, the span keeps what the background step made of it. */
  function SpanMix(view: Samples, a: Args, inp: Inputs, env: Env, sr: Rate, g: Gen): (r: (Samples, Gen))
    ensures |r.0| == |view|
  {
    var (v1, g1) := BackgroundStep(view, a, inp, env, sr, g);
    var d := Placements(|view|, sr, inp.pool, ParamsOf(a), inp.rirs, env.audio, env.dsp, g1);
    if d.result.Err? then (v1, d.next)
    else
      var isum := Superpose(|view|, d.result.value);
      var sir := Uniform(d.next, a.sirMin, a.sirMax);
      var silent := env.dsp.silent(isum);
      var beta := env.dsp.gain(v1, isum, sir.value);
      MixSameLength(v1, isum, silent, beta);
      (MixAtRatio(v1, isum, silent, beta).value, sir.next)
  }

  /** The span step as a value, for the loop over spans; applying it is `SpanMix`. */
  function SpanStep(a: Args, inp: Inputs, env: Env, sr: Rate): (f: (Samples, Gen) -> (Samples, Gen))
    ensures KeepsLength(f)
  {
    (v, g) => SpanMix(v, a, inp, env, sr, g)
  }

  /** The body of the span loop, calling `build_interference_sum`. */
  method ProcessSpan(view: Samples, a: Args, inp: Inputs, env: Env, sr: Rate, g: Gen) returns (r: Samples, h: Gen)
    ensures (r, h) == SpanStep(a, inp, env, sr)(view, g)
  {
    var v1, g1;
    v1, g1 := BackgroundStep(view, a, inp, env, sr, g).0, BackgroundStep(view, a, inp, env, sr, g).1;
    var isum, g2 := BuildInterferenceSum(|view|, sr, inp.pool, ParamsOf(a), inp.rirs, env.audio, env.dsp, g1);
    if isum.Err? {
      return v1, g2;
    }
    var sir := Uniform(g2, a.sirMin, a.sirMax);
    var silent := env.dsp.silent(isum.value);
    var beta := env.dsp.gain(v1, isum.value, sir.value);
    MixSameLength(v1, isum.value, silent, beta);
    r := MixAtRatio(v1, isum.value, silent, beta).value;
    h := sir.next;
  }

  // ---------------------------------------------------------------------------------------------
  // the loop over the spans of one copy

  ghost predicate KeepsLength(mix: (Samples, Gen) -> (Samples, Gen)) {
    forall v, g :: |mix(v, g).0| == |v|
  }

  /** Spans as `seg_ms_to_samples` makes them: `0 <= s <= e <= L`. */
  ghost predicate ValidSpans(spans: seq<(int, int)>, L: nat) {
    forall k :: 0 <= k < |spans| ==> 0 <= spans[k].0 <= spans[k].1 <= L
  }

  /** `mixed[s:e] = mix(mixed[s:e].copy())`, skipped for an empty span. */
  function ApplySpan(x: Samples, s: int, e: int, mix: (Samples, Gen) -> (Samples, Gen), g: Gen): (r: (Samples, Gen))
    requires 0 <= s <= e <= |x| && KeepsLength(mix)
    ensures |r.0| == |x|
    ensures forall i :: 0 <= i < |x| && !(s <= i < e) ==> r.0[i] == x[i]
    ensures e == s ==> r == (x, g)
  {
    if e - s <= 0 then (x, g)
    else
      var (v, g1) := mix(x[s..e], g);
      (x[..s] + v + x[e..], g1)
  }

  /** The spans of one copy, in order, each seeing what the earlier ones wrote. */
  function CopyMix(x: Samples, spans: seq<(int, int)>, mix: (Samples, Gen) -> (Samples, Gen), g: Gen): (r: (Samples, Gen))
    requires ValidSpans(spans, |x|) && KeepsLength(mix)
    ensures |r.0| == |x|
    decreases |spans|
  {
    if spans == [] then (x, g)
    else
      var (x1, g1) := ApplySpan(x, spans[0].0, spans[0].1, mix, g);
      CopyMix(x1, spans[1..], mix, g1)
  }

  /** A sample outside every span is the speech sample it started as. */
  lemma {:induction false} CopyMixOutside(x: Samples, spans: seq<(int, int)>, mix: (Samples, Gen) -> (Samples, Gen), g: Gen, i: nat)
    requires ValidSpans(spans, |x|) && KeepsLength(mix) && i < |x|
    requires forall k :: 0 <= k < |spans| ==> !(spans[k].0 <= i < spans[k].1)
    ensures CopyMix(x, spans, mix, g).0[i] == x[i]
    decreases |spans|
  {
    if spans != [] {
      var (x1, g1) := ApplySpan(x, spans[0].0, spans[0].1, mix, g);
      assert forall k :: 0 <= k < |spans| - 1 ==> spans[1..][k] == spans[k + 1];
      CopyMixOutside(x1, spans[1..], mix, g1, i);
    }
  }

  /** Two span steps that agree on every span and generator mix a copy alike. */
  lemma {:induction false} CopyMixAgree(x: Samples, spans: seq<(int, int)>, mix1: (Samples, Gen) -> (Samples, Gen),
                                        mix2: (Samples, Gen) -> (Samples, Gen), g: Gen)
    requires ValidSpans(spans, |x|) && KeepsLength(mix1) && KeepsLength(mix2)
    requires forall v, h :: mix1(v, h) == mix2(v, h)
    ensures CopyMix(x, spans, mix1, g) == CopyMix(x, spans, mix2, g)
    decreases |spans|
  {
    if spans != [] {
      var (x1, g1) := ApplySpan(x, spans[0].0, spans[0].1, mix1, g);
      assert ApplySpan(x, spans[0].0, spans[0].1, mix2, g) == (x1, g1);
      CopyMixAgree(x1, spans[1..], mix1, mix2, g1);
    }
  }

  /** The span loop of `process_one` on the copy's buffer. */
  method MixCopy(mixed: array<real>, spans: seq<(int, int)>, a: Args, inp: Inputs, env: Env, sr: Rate, g: Gen) returns (h: Gen)
    requires ValidSpans(spans, mixed.Length)
    modifies mixed
    ensures (mixed[..], h) == CopyMix(old(mixed[..]), spans, SpanStep(a, inp, env, sr), g)
  {
    ghost var mix := SpanStep(a, inp, env, sr);
    h := g;
    var k := 0;
    while k < |spans|
      invariant 0 <= k <= |spans|
      invariant ValidSpans(spans[k..], mixed.Length)
      invariant CopyMix(old(mixed[..]), spans, mix, g) == CopyMix(mixed[..], spans[k..], mix, h)
    {
      assert spans[k..][0] == spans[k] && spans[k..][1..] == spans[k + 1..];
      h := MixSpan(mixed, spans[k].0, spans[k].1, a, inp, env, sr, h);
      k := k + 1;
    }
  }

  /** One pass of the span loop: the span of the buffer replaced by its mix, an empty span skipped. */
  method MixSpan(mixed: array<real>, s: int, e: int, a: Args, inp: Inputs, env: Env, sr: Rate, g: Gen) returns (h: Gen)
    requires 0 <= s <= e <= mixed.Length
    modifies mixed
    ensures (mixed[..], h) == ApplySpan(old(mixed[..]), s, e, SpanStep(a, inp, env, sr), g)
  {
    h := g;
    if e - s > 0 {
      var v, h1 := ProcessSpan(mixed[s..e], a, inp, env, sr, g);
      WriteBack(mixed, s, v);
      h := h1;
    }
  }

  /** `mixed[s:s + len(v)] = v` */
  method WriteBack(mixed: array<real>, s: nat, v: Samples)
    requires s + |v| <= mixed.Length
    modifies mixed
    ensures mixed[..] == old(mixed[..])[..s] + v + old(mixed[..])[s + |v|..]
  {
    ghost var before := mixed[..];
    var i := 0;
    while i < |v|
      invariant 0 <= i <= |v|
      invariant forall j :: 0 <= j < mixed.Length ==> mixed[j] == (if s <= j < s + i then v[j - s] else before[j])
    {
      mixed[s + i] := v[i];
      i := i + 1;
    }
    assert mixed[..] == before[..s] + v + before[s + |v|..];
  }

  // ---------------------------------------------------------------------------------------------
  // process_one

  /** The stride between the seeds of consecutive utterances. */
  const SeedStride := 1315423911

  /** The id of copy `c` (counted from 0): `_aug1`, `_aug2`, ... whatever the number of copies. */
  function AugName(utt: String, c: nat): String {
    utt + "_aug" + NatToString(c + 1)
  }

  /** Different copies of an utterance get different ids. */
  lemma AugNameInjective(utt: String, c1: nat, c2: nat)
    requires AugName(utt, c1) == AugName(utt, c2)
    ensures c1 == c2
  {
    var p := utt + "_aug";
    assert AugName(utt, c1)[|p|..] == NatToString(c1 + 1);
    assert AugName(utt, c2)[|p|..] == NatToString(c2 + 1);
  }

  /** The spans of an utterance: its VAD segments in samples, or the whole utterance when the VAD found
      nothing or raised. */
  function SpansOf(vad: Option<seq<VadSeg>>, sr: Rate, L: nat): (r: seq<(int, int)>)
    ensures ValidSpans(r, L) && r != []
    ensures (vad.None? || vad.value == []) ==> r == [(0, L)]
  {
    var segs := if vad.Some? then vad.value else [];
    var ss := seq(|segs|, k requires 0 <= k < |segs| => SegMsToSamples(segs[k], sr, L));
    if ss == [] then [(0, L)] else ss
  }

  /** What `process_one` has in hand before its copy loop: the transcript, the speech clipped to
      `[-1, 1]`, its rate and its spans. */
  datatype Prep = Prep(text: String, speech: Samples, sr: Rate, spans: seq<(int, int)>)

  /** The first part of `process_one`: nothing for an utterance without a transcript, with an
      unreadable wav or with an empty one. */
  function Prepare(pair: Pair, inp: Inputs, env: Env): (r: Option<Prep>)
    ensures r.Some? <==> pair.utt in inp.texts && env.audio(pair.path).Some? && |env.audio(pair.path).value.samples| > 0
    ensures r.Some? ==> && r.value.text == inp.texts[pair.utt]
                        && |r.value.speech| == |env.audio(pair.path).value.samples|
                        && ValidSpans(r.value.spans, |r.value.speech|)
  {
    if pair.utt !in inp.texts then None
    else
      match env.audio(pair.path)
      case None => None
      case Some(au) =>
        var speech := ClipUnit(au.samples);
        if |speech| == 0 then None
        else Some(Prep(inp.texts[pair.utt], speech, au.sr, SpansOf(env.vad(pair.path), au.sr, |speech|)))
  }

  /** The samples of copy `c` after the span loop, mixed from the copy's own seed. */
  function MixedCopy(c: nat, p: Prep, base: int, a: Args, inp: Inputs, env: Env): (r: Samples)
    requires ValidSpans(p.spans, |p.speech|)
    ensures |r| == |p.speech|
  {
    CopyMix(p.speech, p.spans, SpanStep(a, inp, env, p.sr), Gen(env.stream(base + c + 1), 0)).0
  }

  /** The outcome of copy `c`: mixed, normalised, and kept when writing it succeeds. */
  function CopyOutcome(c: nat, utt: String, p: Prep, base: int, a: Args, inp: Inputs, env: Env): (r: Option<WrittenCopy>)
    requires ValidSpans(p.spans, |p.speech|)
    ensures r.Some? ==> r.value.entry.utt == AugName(utt, c) && r.value.entry.text == p.text
                        && r.value.entry.path == PathJoin(PathJoin(a.outDir, "wav"), AugName(utt, c) + ".wav")
                        && |r.value.audio| == |p.speech|
  {
    var name := AugName(utt, c);
    var path := PathJoin(PathJoin(a.outDir, "wav"), name + ".wav");
    match PeakNormalize(MixedCopy(c, p, base, a, inp, env), a.peakMargin)
    case Err(_) => None
    case Ok(out) => if env.writeOk(path) then Some(WrittenCopy(Produced(name, path, p.text), out)) else None
  }

  /** The written samples of a copy are its mixture, peak-normalised. */
  lemma CopyOutcomeAudio(c: nat, utt: String, p: Prep, base: int, a: Args, inp: Inputs, env: Env)
    requires ValidSpans(p.spans, |p.speech|) && CopyOutcome(c, utt, p, base, a, inp, env).Some?
    ensures MixedCopy(c, p, base, a, inp, env) != []
    ensures CopyOutcome(c, utt, p, base, a, inp, env).value.audio == PeakNormalize(MixedCopy(c, p, base, a, inp, env), a.peakMargin).value
  {
  }

  /** Copy `c` draws only from the generator seeded with `base + c + 1`: random streams that agree on
      that seed give the same copy, whatever the other seeds produce. */
  lemma CopySeed(c: nat, utt: String, p: Prep, base: int, a: Args, inp: Inputs, env: Env, s: int -> (nat -> nat))
    requires ValidSpans(p.spans, |p.speech|) && s(base + c + 1) == env.stream(base + c + 1)
    ensures CopyOutcome(c, utt, p, base, a, inp, env.(stream := s)) == CopyOutcome(c, utt, p, base, a, inp, env)
  {
    var env' := env.(stream := s);
    forall v, h ensures SpanStep(a, inp, env', p.sr)(v, h) == SpanStep(a, inp, env, p.sr)(v, h) {
      assert BackgroundStep(v, a, inp, env', p.sr, h) == BackgroundStep(v, a, inp, env, p.sr, h);
    }
    CopyMixAgree(p.speech, p.spans, SpanStep(a, inp, env', p.sr), SpanStep(a, inp, env, p.sr), Gen(s(base + c + 1), 0));
  }

  /** A written copy has every sample below 1 in magnitude or at most `peak_margin`. */
  lemma CopyPeak(c: nat, utt: String, p: Prep, base: int, a: Args, inp: Inputs, env: Env)
    requires ValidSpans(p.spans, |p.speech|) && CopyOutcome(c, utt, p, base, a, inp, env).Some? && a.peakMargin >= 0.0
    ensures var w := CopyOutcome(c, utt, p, base, a, inp, env).value;
      forall i :: 0 <= i < |w.audio| ==> Abs(w.audio[i]) < 1.0 || Abs(w.audio[i]) <= a.peakMargin
  {
    CopyOutcomeAudio(c, utt, p, base, a, inp, env);
    PeakNormalizeBound(MixedCopy(c, p, base, a, inp, env), a.peakMargin);
  }

  function CopyFn(utt: String, p: Prep, base: int, a: Args, inp: Inputs, env: Env): (f: nat -> Option<WrittenCopy>)
    requires ValidSpans(p.spans, |p.speech|)
  {
    (c: nat) => CopyOutcome(c, utt, p, base, a, inp, env)
  }

  /** The seed base of the `idx`-th utterance. */
  function SeedBase(a: Args, idx: nat): int {
    a.seed + idx * SeedStride
  }

  /** `base_seed + c + 1`, the seed of copy `c` of the `idx`-th utterance. */
  function CopySeedOf(a: Args, idx: nat, c: nat): int {
    SeedBase(a, idx) + c + 1
  }

  /** The copy loop of `process_one`: the copies that were written, in copy order. A negative seed makes
      `default_rng` raise. */
  function Copies(idx: nat, utt: String, p: Prep, a: Args, inp: Inputs, env: Env): Result<seq<WrittenCopy>>
    requires ValidSpans(p.spans, |p.speech|)
  {
    var n: nat := if a.copies < 0 then 0 else a.copies;
    if n > 0 && SeedBase(a, idx) + 1 < 0 then Err(ValueError)
    else Ok(FilterMap(CopyFn(utt, p, SeedBase(a, idx), a, inp, env), Range(n)))
  }

  /** `process_one(idx, pair)` */
  function ProcessOneSpec(idx: nat, pair: Pair, a: Args, inp: Inputs, env: Env): Result<seq<WrittenCopy>>
  {
    match Prepare(pair, inp, env)
    case None => Ok([])
    case Some(p) => Copies(idx, pair.utt, p, a, inp, env)
  }

  /** The copies of one utterance: at most `copies` of them, with pairwise different ids, each named
      after its copy number, carrying the transcript and holding as many samples as the speech. */
  lemma {:induction false} CopiesShape(idx: nat, utt: String, p: Prep, a: Args, inp: Inputs, env: Env)
    requires ValidSpans(p.spans, |p.speech|) && Copies(idx, utt, p, a, inp, env).Ok?
    ensures var ws := Copies(idx, utt, p, a, inp, env).value;
      && |ws| <= (if a.copies < 0 then 0 else a.copies)
      && (forall i, j :: 0 <= i < j < |ws| ==> ws[i].entry.utt != ws[j].entry.utt)
      && (forall k :: 0 <= k < |ws| ==>
            && (exists c: nat :: c < a.copies && ws[k].entry.utt == AugName(utt, c))
            && ws[k].entry.text == p.text && |ws[k].audio| == |p.speech|)
  {
    var n: nat := if a.copies < 0 then 0 else a.copies;
    var f := CopyFn(utt, p, SeedBase(a, idx), a, inp, env);
    assert Copies(idx, utt, p, a, inp, env).value == FilterMap(f, Range(n));
    CopiesDistinct(utt, p, SeedBase(a, idx), a, inp, env, n);
    var ws := FilterMap(f, Range(n));
    forall k | 0 <= k < |ws|
      ensures exists c: nat :: c < a.copies && ws[k].entry.utt == AugName(utt, c)
      ensures ws[k].entry.text == p.text && |ws[k].audio| == |p.speech|
    {
      var c := CopyOf(f, n, ws[k]);
      assert CopyOutcome(c, utt, p, SeedBase(a, idx), a, inp, env) == Some(ws[k]);
    }
  }

  /** The copy number that produced a written copy. */
  lemma CopyOf(f: nat -> Option<WrittenCopy>, n: nat, w: WrittenCopy) returns (c: nat)
    requires w in FilterMap(f, Range(n))
    ensures c < n && f(c) == Some(w)
  {
    FilterMapMembers(f, Range(n), w);
    var j :| 0 <= j < n && f(Range(n)[j]) == Some(w);
    c := j;
  }

  /** Different copy numbers name different copies. */
  lemma CopiesDistinct(utt: String, p: Prep, base: int, a: Args, inp: Inputs, env: Env, n: nat)
    requires ValidSpans(p.spans, |p.speech|)
    ensures var ws := FilterMap(CopyFn(utt, p, base, a, inp, env), Range(n));
      forall i, j :: 0 <= i < j < |ws| ==> ws[i].entry.utt != ws[j].entry.utt
  {
    var f := CopyFn(utt, p, base, a, inp, env);
    var key := (w: WrittenCopy) => w.entry.utt;
    forall c1: nat, c2: nat | f(c1).Some? && f(c2).Some? && key(f(c1).value) == key(f(c2).value) ensures c1 == c2 {
      AugNameInjective(utt, c1, c2);
    }
    FilterMapDistinct(f, key, Range(n));
  }

  /** The copies of the `idx`-th utterance draw only from the generators seeded with
      `seed + idx * 1315423911 + c + 1` for `c` in `range(copies)`: random streams that agree on those
      seeds give the same copies, whatever the other seeds, and so the other utterances, produce. */
  lemma ProcessOneSeeds(idx: nat, pair: Pair, a: Args, inp: Inputs, env: Env, s: int -> (nat -> nat))
    requires forall c: nat :: c < a.copies ==> s(CopySeedOf(a, idx, c)) == env.stream(CopySeedOf(a, idx, c))
    ensures ProcessOneSpec(idx, pair, a, inp, env.(stream := s)) == ProcessOneSpec(idx, pair, a, inp, env)
  {
    var env' := env.(stream := s);
    assert Prepare(pair, inp, env') == Prepare(pair, inp, env);
    if Prepare(pair, inp, env).Some? {
      var p := Prepare(pair, inp, env).value;
      var n: nat := if a.copies < 0 then 0 else a.copies;
      var f, f' := CopyFn(pair.utt, p, SeedBase(a, idx), a, inp, env), CopyFn(pair.utt, p, SeedBase(a, idx), a, inp, env');
      forall i | 0 <= i < n ensures f'(Range(n)[i]) == f(Range(n)[i]) {
        assert s(CopySeedOf(a, idx, i)) == env.stream(CopySeedOf(a, idx, i));
        CopySeed(i, pair.utt, p, SeedBase(a, idx), a, inp, env, s);
      }
      FilterMapAgree(f', f, Range(n));
    }
  }

  /** What `process_one` returns: at most `copies` entries, with pairwise different ids, each named after
      its copy number, carrying the utterance's transcript, and holding as many samples as the
      utterance. */
  lemma ProcessOneCopies(idx: nat, pair: Pair, a: Args, inp: Inputs, env: Env)
    requires ProcessOneSpec(idx, pair, a, inp, env).Ok?
    ensures var ws := ProcessOneSpec(idx, pair, a, inp, env).value;
      && |ws| <= (if a.copies < 0 then 0 else a.copies)
      && (forall i, j :: 0 <= i < j < |ws| ==> ws[i].entry.utt != ws[j].entry.utt)
      && (forall k :: 0 <= k < |ws| ==>
            && (exists c: nat :: c < a.copies && ws[k].entry.utt == AugName(pair.utt, c))
            && pair.utt in inp.texts && ws[k].entry.text == inp.texts[pair.utt]
            && env.audio(pair.path).Some? && |ws[k].audio| == |env.audio(pair.path).value.samples|)
  {
    var p := Prepare(pair, inp, env);
    if p.Some? {
      CopiesShape(idx, pair.utt, p.value, a, inp, env);
    }
  }

  /** Every sample of every copy is below 1 in magnitude or at most `peak_margin`. */
  lemma {:induction false} CopiesPeak(idx: nat, utt: String, p: Prep, a: Args, inp: Inputs, env: Env)
    requires ValidSpans(p.spans, |p.speech|) && Copies(idx, utt, p, a, inp, env).Ok? && a.peakMargin >= 0.0
    ensures var ws := Copies(idx, utt, p, a, inp, env).value;
      forall k, i :: 0 <= k < |ws| && 0 <= i < |ws[k].audio| ==> Abs(ws[k].audio[i]) < 1.0 || Abs(ws[k].audio[i]) <= a.peakMargin
  {
    var n: nat := if a.copies < 0 then 0 else a.copies;
    var f := CopyFn(utt, p, SeedBase(a, idx), a, inp, env);
    var ws := FilterMap(f, Range(n));
    forall k | 0 <= k < |ws|
      ensures forall i :: 0 <= i < |ws[k].audio| ==> Abs(ws[k].audio[i]) < 1.0 || Abs(ws[k].audio[i]) <= a.peakMargin
    {
      var c := CopyOf(f, n, ws[k]);
      CopyPeak(c, utt, p, SeedBase(a, idx), a, inp, env);
    }
  }

  /** Every sample `process_one` writes is below 1 in magnitude or at most `peak_margin`. */
  lemma ProcessOnePeak(idx: nat, pair: Pair, a: Args, inp: Inputs, env: Env)
    requires ProcessOneSpec(idx, pair, a, inp, env).Ok? && a.peakMargin >= 0.0
    ensures var ws := ProcessOneSpec(idx, pair, a, inp, env).value;
      forall k, i :: 0 <= k < |ws| && 0 <= i < |ws[k].audio| ==> Abs(ws[k].audio[i]) < 1.0 || Abs(ws[k].audio[i]) <= a.peakMargin
  {
    var p := Prepare(pair, inp, env);
    if p.Some? {
      CopiesPeak(idx, pair.utt, p.value, a, inp, env);
    }
  }

  /** One pass of the copy loop: a fresh buffer holding the speech, the span loop, the normalisation
      and the write. */
  method ProduceCopy(c: nat, utt: String, p: Prep, base: int, a: Args, inp: Inputs, env: Env) returns (w: Option<WrittenCopy>)
    requires ValidSpans(p.spans, |p.speech|)
    ensures w == CopyFn(utt, p, base, a, inp, env)(c)
  {
    var L := |p.speech|;
    var mixed := new real[L](i requires 0 <= i < L => p.speech[i]);
    assert mixed[..] == p.speech;
    var _ := MixCopy(mixed, p.spans, a, inp, env, p.sr, Gen(env.stream(base + c + 1), 0));
    assert mixed[..] == MixedCopy(c, p, base, a, inp, env);
    var name := AugName(utt, c);
    var path := PathJoin(PathJoin(a.outDir, "wav"), name + ".wav");
    var pk := PeakNormalize(mixed[..], a.peakMargin);
    if pk.Ok? && env.writeOk(path) {
      w := Some(WrittenCopy(Produced(name, path, p.text), pk.value));
    } else {
      w := None;
    }
  }

  /** The copy loop of `process_one`. */
  method ProduceCopies(idx: nat, utt: String, p: Prep, a: Args, inp: Inputs, env: Env) returns (outs: Result<seq<WrittenCopy>>)
    requires ValidSpans(p.spans, |p.speech|)
    ensures outs == Copies(idx, utt, p, a, inp, env)
  {
    var base := a.seed + idx * SeedStride;
    var n: nat := if a.copies < 0 then 0 else a.copies;
    if n > 0 && base + 1 < 0 {
      return Err(ValueError);
    }
    ghost var f := CopyFn(utt, p, base, a, inp, env);
    var written: seq<WrittenCopy> := [];
    for c := 0 to n
      invariant written == FilterMap(f, Range(n)[..c])
    {
      var w := ProduceCopy(c, utt, p, base, a, inp, env);
      FilterMapStep(f, Range(n), c);
      if w.Some? {
        written := written + [w.value];
      }
    }
    assert Range(n)[..n] == Range(n);
    return Ok(written);
  }

  /** `process_one` */
  method ProcessOne(idx: nat, pair: Pair, a: Args, inp: Inputs, env: Env) returns (outs: Result<seq<WrittenCopy>>)
    ensures outs == ProcessOneSpec(idx, pair, a, inp, env)
  {
    if pair.utt !in inp.texts {
      return Ok([]);
    }
    var au := env.audio(pair.path);
    if au.None? {
      return Ok([]);
    }
    var speech := ClipUnit(au.value.samples);
    if |speech| == 0 {
      return Ok([]);
    }
    var p := Prep(inp.texts[pair.utt], speech, au.value.sr, SpansOf(env.vad(pair.path), au.value.sr, |speech|));
    assert Prepare(pair, inp, env) == Some(p);
    outs := ProduceCopies(idx, pair.utt, p, a, inp, env);
  }

  // ---------------------------------------------------------------------------------------------
  // main

  /** `process_one` of the `idx`-th training pair. */
  function JobFn(a: Args, inp: Inputs, env: Env): (f: nat -> Result<seq<WrittenCopy>>)
  {
    (idx: nat) => if idx < |inp.train| then ProcessOneSpec(idx, inp.train[idx], a, inp, env) else Ok([])
  }

  /** The manifest lines of the gathered copies. */
  function Finish(ws: seq<WrittenCopy>): (o: Outcome)
    ensures o.Done? && o.written == ws && |o.scp| == |o.text| == |ws|
    ensures forall k :: 0 <= k < |ws| ==> o.scp[k] == ScpLine(ws[k].entry) && o.text[k] == TextLine(ws[k].entry)
  {
    Done(ws, seq(|ws|, k requires 0 <= k < |ws| => ScpLine(ws[k].entry)),
             seq(|ws|, k requires 0 <= k < |ws| => TextLine(ws[k].entry)))
  }

  /** The whole run: start-up, every training pair's copies gathered in completion order (the first
      exception a future re-raises ends the run), then one `wav.scp` and one `text` line per copy. */
  function RunSpec(a: Args, env: Env, completion: Completion): (o: Outcome)
  {
    match Start(a, env.files)
    case Stopped(r) => Aborted(r)
    case Ready(inp) =>
      match ConcatAll(JobFn(a, inp, env), completion(|inp.train|))
      case Err(e) => Aborted(Crash(e))
      case Ok(ws) => Finish(ws)
  }

  /** A finished run lists one `wav.scp` and one `text` line per written copy, in the order the copies
      were gathered; a run that stops early writes nothing. */
  lemma RunManifests(a: Args, env: Env, completion: Completion)
    ensures var o := RunSpec(a, env, completion);
      && (o.Done? ==> |o.scp| == |o.text| == |o.written|)
      && (o.Done? ==> forall k :: 0 <= k < |o.written| ==>
            o.scp[k] == ScpLine(o.written[k].entry) && o.text[k] == TextLine(o.written[k].entry))
      && (Start(a, env.files).Stopped? ==> o == Aborted(Start(a, env.files).reason))
  {
  }

  /** Gathering in any two completion orders of the same jobs: both succeed or both fail, and when they
      succeed they hold the same copies. */
  lemma {:induction false} GatherOrderIrrelevant<B>(f: nat -> Result<seq<B>>, o1: seq<nat>, o2: seq<nat>, n: nat)
    requires multiset(o1) == multiset(Range(n)) && multiset(o2) == multiset(Range(n))
    ensures ConcatAll(f, o1).Ok? <==> ConcatAll(f, o2).Ok?
    ensures ConcatAll(f, o1).Ok? ==> multiset(ConcatAll(f, o1).value) == multiset(ConcatAll(f, o2).value)
  {
    OrderOk(f, o1, n);
    OrderOk(f, o2, n);
    if ConcatAll(f, o1).Ok? {
      forall x | x in o1 ensures f(x).Ok? { ConcatAllOk(f, o1); }
      ConcatAllPermutes(f, o1, o2);
    }
  }

  /** The order in which the workers finish decides the order of the manifest lines, not whether the
      run completes nor which copies it lists. */
  lemma RunOrderIrrelevant(a: Args, env: Env, c1: Completion, c2: Completion)
    ensures var o1 := RunSpec(a, env, c1);
      var o2 := RunSpec(a, env, c2);
      && (o1.Done? <==> o2.Done?)
      && (o1.Done? ==> multiset(o1.written) == multiset(o2.written))
  {
    if Start(a, env.files).Ready? {
      var inp := Start(a, env.files).inputs;
      var n := |inp.train|;
      GatherOrderIrrelevant(JobFn(a, inp, env), c1(n), c2(n), n);
    }
  }

  /** Gathering in any completion order succeeds exactly when every job succeeds. */
  lemma OrderOk<B>(f: nat -> Result<seq<B>>, order: seq<nat>, n: nat)
    requires multiset(order) == multiset(Range(n))
    ensures ConcatAll(f, order).Ok? <==> forall i :: 0 <= i < n ==> f(i).Ok?
  {
    ConcatAllOk(f, order);
    if forall i :: 0 <= i < n ==> f(i).Ok? {
      forall k | 0 <= k < |order| ensures f(order[k]).Ok? {
        assert order[k] in multiset(Range(n));
        var i :| 0 <= i < n && Range(n)[i] == order[k];
      }
    }
    if forall k :: 0 <= k < |order| ==> f(order[k]).Ok? {
      forall i | 0 <= i < n ensures f(i).Ok? {
        assert Range(n)[i] in multiset(order);
        var k :| 0 <= k < |order| && order[k] == i;
      }
    }
  }

  /** Completion orders only hold indices of submitted jobs. */
  lemma OrderBounds(order: seq<nat>, n: nat, k: nat)
    requires multiset(order) == multiset(Range(n)) && k < |order|
    ensures order[k] < n
  {
    assert order[k] in multiset(Range(n));
    var i :| 0 <= i < n && Range(n)[i] == order[k];
  }

  /** `read_scp` of a path of the run. */
  method ReadScpFile(env: Env, path: String) returns (r: Result<seq<Pair>>)
    ensures r == ScpFile(env.files, path)
  {
    var file := env.files(path);
    if file.None? {
      return Err(IOError);
    }
    var pairs := ReadScp(file.value);
    return Ok(pairs);
  }

  /** `read_scp(p) if p else []` */
  method ReadOptionalScp(env: Env, path: String) returns (r: Result<seq<Pair>>)
    ensures r == OptionalScpFile(env.files, path)
  {
    if path == [] {
      return Ok([]);
    }
    r := ReadScpFile(env, path);
  }

  /** The start of `main`: the argument checks and the manifests. */
  method ReadInputs(a: Args, env: Env) returns (s: Startup)
    ensures s == Start(a, env.files)
  {
    var bad := Validate(a);
    if bad.Some? {
      return Stopped(bad.value);
    }
    var train := ReadScpFile(env, PathJoin(a.inDir, a.inScpName));
    if train.Err? {
      return Stopped(Crash(train.error));
    }
    if train.value == [] {
      return Stopped(EmptyTrain);
    }
    var textFile := env.files(PathJoin(a.inDir, a.inTextName));
    if textFile.None? {
      return Stopped(Crash(IOError));
    }
    var texts := ReadText(textFile.value);
    if texts.Err? {
      return Stopped(Crash(texts.error));
    }
    if |texts.value| == 0 {
      return Stopped(EmptyText);
    }
    var pool := ReadScpFile(env, a.interfereScp);
    if pool.Err? {
      return Stopped(Crash(pool.error));
    }
    if pool.value == [] {
      return Stopped(EmptyInterferers);
    }
    var bgs := ReadOptionalScp(env, a.bgScp);
    if bgs.Err? {
      return Stopped(Crash(bgs.error));
    }
    var rirs := ReadOptionalScp(env, a.rirScp);
    if rirs.Err? {
      return Stopped(Crash(rirs.error));
    }
    return Ready(Inputs(train.value, texts.value, pool.value, bgs.value, rirs.value));
  }

  /** The collection loop of `main`: the futures' results in completion order, the first exception
      ending the run. */
  method Gather(order: seq<nat>, a: Args, inp: Inputs, env: Env) returns (res: Result<seq<WrittenCopy>>)
    requires multiset(order) == multiset(Range(|inp.train|))
    ensures res == ConcatAll(JobFn(a, inp, env), order)
  {
    ghost var f := JobFn(a, inp, env);
    var results: seq<WrittenCopy> := [];
    for k := 0 to |order|
      invariant ConcatAll(f, order[..k]) == Ok(results)
    {
      OrderBounds(order, |inp.train|, k);
      var idx := order[k];
      var outs := ProcessOne(idx, inp.train[idx], a, inp, env);
      assert outs == f(idx);
      ConcatAllStep(f, order, k);
      if outs.Err? {
        ConcatAllErrPersists(f, order, k + 1);
        return Err(outs.error);
      }
      results := results + outs.value;
    }
    assert order[..|order|] == order;
    return Ok(results);
  }

  /** `main` */
  method Run(a: Args, env: Env, completion: Completion) returns (o: Outcome)
    ensures o == RunSpec(a, env, completion)
  {
    var s := ReadInputs(a, env);
    if s.Stopped? {
      return Aborted(s.reason);
    }
    var inp := s.inputs;
    var gathered := Gather(completion(|inp.train|), a, inp, env);
    if gathered.Err? {
      return Aborted(Crash(gathered.error));
    }
    var results := gathered.value;
    var entries := seq(|results|, k requires 0 <= k < |results| => results[k].entry);
    var scp, text := WriteManifests(entries);
    assert scp == Finish(results).scp && text == Finish(results).text;
    return Done(results, scp, text);
  }
}
