/**
  process_text/textgrid-to-train-data.py and process-textgrid.py: cut each TextGrid's `内容层` tier
  into one WAV segment per interval with a transcript, append the segments to `wav.scp` and `text`,
  and count each TextGrid as one success or one failure; then (the first script only) join the two
  manifests into `data.list`. The TextGrid parser, the file system and the audio export are foreign
  and come in as functions.
*/
module TextGridTrain {
  import opened Wrappers
  import opened PyStr
  import opened Digits
  import opened Seqs
  import IdTimes

  /** An interval of a tier, with its times in whole milliseconds. */
  datatype Interval = Interval(startMs: nat, endMs: nat, mark: String)

  datatype Tier = Tier(name: String, intervals: seq<Interval>)

  /** `TextGrid.fromFile` (None when it raises), `os.path.exists`, `AudioSegment.from_wav` (false
      when it raises), the export of `audio[start:end]` from a WAV file to a path (false when it
      raises), and whether an append to a file goes through. */
  datatype Env = Env(parse: String -> Option<seq<Tier>>, present: String -> bool, loads: String -> bool,
                     cut: (String, String, nat, nat) -> bool, append: String -> bool)

  const ContentTier: String := "内容层"
  const TimeWidth: nat := 7

  // ---------------------------------------------------------------------------------------------
  // names

  /** `os.path.basename(textgrid_path).replace(".TextGrid", ".wav")` */
  function WavFilename(tgPath: String): String {
    ReplaceAll(Basename(tgPath), ".TextGrid", ".wav")
  }

  /** `wav_filename.replace('.wav', '')` */
  function SegmentBase(wavFilename: String): String {
    ReplaceAll(wavFilename, ".wav", "")
  }

  /** `f"{base}-{start:07.0f}-{end:07.0f}"` for whole milliseconds. */
  function SegmentName(base: String, startMs: nat, endMs: nat): String {
    base + "-" + ZeroPad(startMs, TimeWidth) + "-" + ZeroPad(endMs, TimeWidth)
  }

  /** `os.path.join(output_dir, "wav", f"{name}.wav")` */
  function SegmentPath(outDir: String, name: String): String {
    PathJoin(PathJoin(outDir, "wav"), name + ".wav")
  }

  /** A TextGrid `stem.TextGrid` whose stem holds no `/` and no `.` names its segments after the stem. */
  lemma SegmentBaseOf(dir: String, stem: String)
    requires '/' !in stem && '.' !in stem
    ensures WavFilename(stem + ".TextGrid") == stem + ".wav"
    ensures SegmentBase(WavFilename(stem + ".TextGrid")) == stem
  {
    BasenameOfName(stem + ".TextGrid");
    DotSuffixReplaced(stem, ".TextGrid", ".wav");
    DotSuffixReplaced(stem, ".wav", "");
  }

  /** A dot-free stem followed by a dotted suffix holds the suffix only at its end. */
  lemma DotSuffixReplaced(stem: String, pat: String, rep: String)
    requires '.' !in stem && pat != [] && pat[0] == '.'
    ensures ReplaceAll(stem + pat, pat, rep) == stem + rep
  {
    forall i | 0 <= i < |stem| ensures !OccursAt(stem + pat, pat, i) {
      assert (stem + pat)[i] == stem[i];
    }
    ReplaceSuffix(stem, pat, rep);
  }

  /** A segment name is read back by the tools that take times from utterance ids: the start and end
      in milliseconds are its last two dash-separated numerals, seven digits wide below 10^7 ms. */
  lemma SegmentNameTimes(base: String, startMs: nat, endMs: nat)
    requires '-' !in base
    ensures IdTimes.Times(IdTimes.NoTag, SegmentName(base, startMs, endMs)) == Some((ZeroPad(startMs, TimeWidth), ZeroPad(endMs, TimeWidth)))
    ensures Value(ZeroPad(startMs, TimeWidth)) == startMs && Value(ZeroPad(endMs, TimeWidth)) == endMs
    ensures startMs < Pow10(TimeWidth) ==> |ZeroPad(startMs, TimeWidth)| == TimeWidth
  {
    var s, e := ZeroPad(startMs, TimeWidth), ZeroPad(endMs, TimeWidth);
    assert SegmentName(base, startMs, endMs) == base + "-" + s + "-" + e + "";
    IdTimes.TimesOf(IdTimes.NoTag, base, s, e, "");
    if startMs < Pow10(TimeWidth) {
      NatToStringShort(startMs, TimeWidth);
    }
  }

  lemma {:induction false} NatToStringShort(n: nat, k: nat)
    requires k >= 1 && n < Pow10(k)
    ensures |NatToString(n)| <= k
    decreases k
  {
    if n >= 10 {
      assert Pow10(k) == 10 * Pow10(k - 1);
      NatToStringShort(n / 10, k - 1);
    }
  }

  // ---------------------------------------------------------------------------------------------
  // the tier

  /** The first tier named `内容层`. */
  function FirstTier(tiers: seq<Tier>): (r: Option<Tier>)
  {
    if tiers == [] then None else if tiers[0].name == ContentTier then Some(tiers[0]) else FirstTier(tiers[1..])
  }

  /** `for t in tg.tiers: if t.name == "内容层": tier = t; break` */
  method FindContentTier(tiers: seq<Tier>) returns (tier: Option<Tier>)
    ensures tier == FirstTier(tiers)
  {
    tier := None;
    var i := 0;
    while i < |tiers|
      invariant 0 <= i <= |tiers| && FirstTier(tiers) == FirstTier(tiers[i..])
    {
      assert tiers[i..][1..] == tiers[i + 1..];
      if tiers[i].name == ContentTier {
        tier := Some(tiers[i]);
        return;
      }
      i := i + 1;
    }
  }
  /** The checks of `process_textgrid_and_wav` in order: the TextGrid parses, the WAV exists, it
      loads, and the tier is there; the first that fails leaves no tier. */
  method OpenTier(env: Env, tgPath: String, wavPath: String) returns (tier: Option<Tier>)
    ensures tier == OpenedTier(env, tgPath, wavPath)
  {
    var tg := env.parse(tgPath);
    if tg.None? {
      return None;
    }
    if !env.present(wavPath) {
      return None;
    }
    if !env.loads(wavPath) {
      return None;
    }
    tier := FindContentTier(tg.value);
  }


  /** The tier used is the first named `内容层`, and there is none exactly when no tier has that name. */
  lemma {:induction false} FirstTierMeaning(tiers: seq<Tier>)
    ensures FirstTier(tiers).None? <==> forall i :: 0 <= i < |tiers| ==> tiers[i].name != ContentTier
    ensures FirstTier(tiers).Some? ==> exists i :: (0 <= i < |tiers| && tiers[i] == FirstTier(tiers).value &&
      tiers[i].name == ContentTier && forall j :: 0 <= j < i ==> tiers[j].name != ContentTier)
    decreases |tiers|
  {
    if tiers != [] && tiers[0].name != ContentTier {
      FirstTierMeaning(tiers[1..]);
      if FirstTier(tiers).Some? {
        var i :| 0 <= i < |tiers[1..]| && tiers[1..][i] == FirstTier(tiers).value &&
          tiers[1..][i].name == ContentTier && forall j :: 0 <= j < i ==> tiers[1..][j].name != ContentTier;
        assert tiers[i + 1] == tiers[1..][i];
        forall j | 0 <= j < i + 1 ensures tiers[j].name != ContentTier {
          if j > 0 { assert tiers[j] == tiers[1..][j - 1]; }
        }
      }
      forall i | 1 <= i < |tiers| ensures tiers[i] == tiers[1..][i - 1] { }
    } else if tiers != [] {
      assert tiers[0] == FirstTier(tiers).value;
    }
  }

  // ---------------------------------------------------------------------------------------------
  // the segments

  /** An exported segment: the WAV it was cut from, its name, path, transcript and times. */
  datatype Segment = Segment(source: String, name: String, path: String, text: String, startMs: nat, endMs: nat)

  /** An interval gives a segment when its stripped mark is not empty and its export goes through. */
  function Exported(env: Env, wavPath: String, base: String, outDir: String, iv: Interval): Option<Segment> {
    var text := Strip(iv.mark);
    var name := SegmentName(base, iv.startMs, iv.endMs);
    var path := SegmentPath(outDir, name);
    if text != [] && env.cut(wavPath, path, iv.startMs, iv.endMs) then Some(Segment(wavPath, name, path, text, iv.startMs, iv.endMs))
    else None
  }

  function ExportedFn(env: Env, wavPath: String, base: String, outDir: String): Interval -> Option<Segment> {
    iv => Exported(env, wavPath, base, outDir, iv)
  }

  function Segments(env: Env, wavPath: String, base: String, outDir: String, intervals: seq<Interval>): seq<Segment> {
    FilterMap(ExportedFn(env, wavPath, base, outDir), intervals)
  }

  /** `f"{segment_filename} {segment_wav_path}"` for each segment. */
  function ScpLines(segs: seq<Segment>): (r: seq<String>)
    ensures |r| == |segs|
  {
    if segs == [] then [] else ScpLines(segs[..|segs| - 1]) + [segs[|segs| - 1].name + " " + segs[|segs| - 1].path]
  }

  /** `f"{segment_filename} {text}"` for each segment. */
  function TextLines(segs: seq<Segment>): (r: seq<String>)
    ensures |r| == |segs|
  {
    if segs == [] then [] else TextLines(segs[..|segs| - 1]) + [segs[|segs| - 1].name + " " + segs[|segs| - 1].text]
  }

  /** An interval gives a segment exactly when its mark is not blank and its export goes through;
      the segment carries the stripped mark and is named and placed after the base and its times. */
  lemma ExportedMeaning(env: Env, wavPath: String, base: String, outDir: String, iv: Interval)
    ensures var r := Exported(env, wavPath, base, outDir, iv);
      var name := SegmentName(base, iv.startMs, iv.endMs);
      && (r.Some? <==> Strip(iv.mark) != [] && env.cut(wavPath, SegmentPath(outDir, name), iv.startMs, iv.endMs))
      && (r.Some? ==> r.value == Segment(wavPath, name, SegmentPath(outDir, name), Strip(iv.mark), iv.startMs, iv.endMs))
  {
  }

  /** The segments are those the intervals give, in interval order. */
  lemma SegmentsMeaning(env: Env, wavPath: String, base: String, outDir: String, intervals: seq<Interval>, seg: Segment)
    ensures seg in Segments(env, wavPath, base, outDir, intervals) <==>
      exists j :: 0 <= j < |intervals| && Exported(env, wavPath, base, outDir, intervals[j]) == Some(seg)
  {
    FilterMapMembers(ExportedFn(env, wavPath, base, outDir), intervals, seg);
  }

  lemma ScpTextSnoc(segs: seq<Segment>, seg: Segment)
    ensures ScpLines(segs + [seg]) == ScpLines(segs) + [seg.name + " " + seg.path]
    ensures TextLines(segs + [seg]) == TextLines(segs) + [seg.name + " " + seg.text]
  {
    assert (segs + [seg])[..|segs|] == segs;
  }

  /** The wav.scp and text lines of the segments go in pairs, both led by the segment's name. */
  lemma {:induction false} LinesAligned(segs: seq<Segment>)
    ensures |ScpLines(segs)| == |TextLines(segs)| == |segs|
    ensures forall k :: 0 <= k < |segs| ==> ScpLines(segs)[k] == segs[k].name + " " + segs[k].path
    ensures forall k :: 0 <= k < |segs| ==> TextLines(segs)[k] == segs[k].name + " " + segs[k].text
    decreases |segs|
  {
    if segs != [] {
      LinesAligned(segs[..|segs| - 1]);
    }
  }

  // ---------------------------------------------------------------------------------------------
  // cutting the segments

  /** The interval loop: export each interval with a non-blank mark and list the segments that
      were exported, with their `wav.scp` and `text` lines. */
  method CutSegments(env: Env, wavPath: String, base: String, outDir: String, intervals: seq<Interval>)
    returns (segs: seq<Segment>, scpLines: seq<String>, textLines: seq<String>, segmentCount: nat)
    ensures segs == Segments(env, wavPath, base, outDir, intervals)
    ensures scpLines == ScpLines(segs) && textLines == TextLines(segs) && segmentCount == |segs|
  {
    ghost var f := ExportedFn(env, wavPath, base, outDir);
    segs, scpLines, textLines, segmentCount := [], [], [], 0;
    for i := 0 to |intervals|
      invariant segs == FilterMap(f, intervals[..i]) && segmentCount == |segs|
      invariant scpLines == ScpLines(segs) && textLines == TextLines(segs)
    {
      var seg := ExportInterval(env, wavPath, base, outDir, intervals[i]);
      assert f(intervals[i]) == seg;
      FilterMapStep(f, intervals, i);
      if seg.Some? {
        segs, scpLines, textLines, segmentCount := AddSegment(segs, scpLines, textLines, segmentCount, seg.value);
      }
    }
    assert intervals[..|intervals|] == intervals;
  }

  /** An exported segment is counted and listed with its two lines. */
  method AddSegment(segs: seq<Segment>, scpLines: seq<String>, textLines: seq<String>, segmentCount: nat, seg: Segment)
    returns (segs': seq<Segment>, scpLines': seq<String>, textLines': seq<String>, segmentCount': nat)
    requires scpLines == ScpLines(segs) && textLines == TextLines(segs) && segmentCount == |segs|
    ensures segs' == segs + [seg]
    ensures scpLines' == ScpLines(segs') && textLines' == TextLines(segs') && segmentCount' == |segs'|
  {
    segmentCount' := segmentCount + 1;
    ScpTextSnoc(segs, seg);
    segs' := segs + [seg];
    scpLines' := scpLines + [seg.name + " " + seg.path];
    textLines' := textLines + [seg.name + " " + seg.text];
  }

  /** One interval: skip it when its mark is blank, otherwise export `[start, end)` of the WAV
      under the segment's name and, when that goes through, give the segment. */
  method ExportInterval(env: Env, wavPath: String, base: String, outDir: String, iv: Interval) returns (seg: Option<Segment>)
    ensures seg == Exported(env, wavPath, base, outDir, iv)
  {
    var mark := Strip(iv.mark);
    if mark == [] {
      return None;
    }
    var name := SegmentName(base, iv.startMs, iv.endMs);
    var path := SegmentPath(outDir, name);
    if !env.cut(wavPath, path, iv.startMs, iv.endMs) {
      return None;
    }
    seg := Some(Segment(wavPath, name, path, mark, iv.startMs, iv.endMs));
  }

  // ---------------------------------------------------------------------------------------------
  // process_textgrid_and_wav

  /** What one call does: whether it counts as a success, the segments it exported and what it
      appends to `wav.scp` and to `text`. */
  datatype Step = Step(ok: bool, segments: seq<Segment>, scpAppend: String, textAppend: String)

  /** After the segments are cut: with none the call fails; otherwise `wav.scp` is appended first,
      then `text`, and the call fails if either append fails. */
  function Appended(env: Env, outDir: String, segs: seq<Segment>): Step {
    if segs == [] then Step(false, [], "", "")
    else Flushed(env, outDir, segs, JoinLines(ScpLines(segs)) + "\n", JoinLines(TextLines(segs)) + "\n")
  }

  /** The `try` block writing the two joined blocks: `wav.scp` first, then `text`; an append that
      raises fails the call and keeps what was appended before it. */
  function Flushed(env: Env, outDir: String, segs: seq<Segment>, scpBlock: String, textBlock: String): Step {
    if !env.append(PathJoin(outDir, "wav.scp")) then Step(false, segs, "", "")
    else if !env.append(PathJoin(outDir, "text")) then Step(false, segs, scpBlock, "")
    else Step(true, segs, scpBlock, textBlock)
  }

  /** `process_textgrid_and_wav` once the WAV's path and the segments' base name are known. */
  function Loaded(env: Env, tgPath: String, wavPath: String, base: String, outDir: String): Step {
    match OpenedTier(env, tgPath, wavPath)
    case None => Step(false, [], "", "")
    case Some(tier) => Appended(env, outDir, Segments(env, wavPath, base, outDir, tier.intervals))
  }

  /** The `内容层` tier of a TextGrid that parses, beside a WAV that exists and loads. */
  function OpenedTier(env: Env, tgPath: String, wavPath: String): Option<Tier> {
    match env.parse(tgPath)
    case None => None
    case Some(tiers) =>
      if !env.present(wavPath) || !env.loads(wavPath) then None
      else FirstTier(tiers)
  }

  /** `process_textgrid_and_wav`, as a value: the WAV is the TextGrid's basename with `.TextGrid`
      replaced by `.wav`, looked up in the WAV directory. */
  function Processed(env: Env, tgPath: String, wavDir: String, outDir: String): Step {
    var wavName := WavFilename(tgPath);
    Loaded(env, tgPath, PathJoin(wavDir, wavName), SegmentBase(wavName), outDir)
  }

  /** A call succeeds exactly when the TextGrid parses, its WAV exists and loads, it has a `内容层`
      tier, at least one segment was exported and both appends went through; nothing is appended
      without a segment, and `text` is appended only after `wav.scp`. */
  lemma ProcessedOk(env: Env, tgPath: String, wavDir: String, outDir: String)
    ensures var s := Processed(env, tgPath, wavDir, outDir);
      var wavPath := PathJoin(wavDir, WavFilename(tgPath));
      && (s.ok <==>
           && env.parse(tgPath).Some? && env.present(wavPath) && env.loads(wavPath)
           && FirstTier(env.parse(tgPath).value).Some?
           && s.segments != []
           && env.append(PathJoin(outDir, "wav.scp")) && env.append(PathJoin(outDir, "text")))
      && (s.segments == [] ==> s.scpAppend == [] && s.textAppend == [])
      && (s.textAppend != [] ==> s.ok && s.scpAppend != [])
      && (s.scpAppend != [] ==> s.scpAppend == JoinLines(ScpLines(s.segments)) + "\n")
      && (s.textAppend != [] ==> s.textAppend == JoinLines(TextLines(s.segments)) + "\n")
  {
  }

  /** The state `process_textgrid_and_wav` updates: the `stats` counters, the two appended files and
      the segments exported so far. */
  class Session {
    var successful: nat
    var failed: nat
    var wavScp: String
    var text: String
    var exported: seq<Segment>

    /** A run starts with zero counts, beside whatever `wav.scp` and `text` already hold. */
    constructor (wavScp0: String, text0: String)
      ensures successful == 0 && failed == 0 && wavScp == wavScp0 && text == text0 && exported == []
    {
      successful, failed := 0, 0;
      wavScp, text := wavScp0, text0;
      exported := [];
    }

    /** `process_textgrid_and_wav`: exactly one of the counters goes up by one. */
    method ProcessTextGridAndWav(env: Env, tgPath: String, wavDir: String, outDir: String)
      modifies this
      ensures var s := Processed(env, tgPath, wavDir, outDir);
        successful == old(successful) + (if s.ok then 1 else 0) && failed == old(failed) + (if s.ok then 0 else 1)
      ensures var s := Processed(env, tgPath, wavDir, outDir);
        wavScp == old(wavScp) + s.scpAppend && text == old(text) + s.textAppend
      ensures exported == old(exported) + Processed(env, tgPath, wavDir, outDir).segments
    {
      var wavName := WavFilename(tgPath);
      var wavPath := PathJoin(wavDir, wavName);
      ProcessLoaded(env, tgPath, wavPath, SegmentBase(wavName), outDir);
    }

    /** The checks in order (the TextGrid parses, the WAV exists, it loads, the tier is there), each
        failing the call on its own, then the segments and the appends. */
    method ProcessLoaded(env: Env, tgPath: String, wavPath: String, base: String, outDir: String)
      modifies this
      ensures var s := Loaded(env, tgPath, wavPath, base, outDir);
        successful == old(successful) + (if s.ok then 1 else 0) && failed == old(failed) + (if s.ok then 0 else 1)
      ensures var s := Loaded(env, tgPath, wavPath, base, outDir);
        wavScp == old(wavScp) + s.scpAppend && text == old(text) + s.textAppend
      ensures exported == old(exported) + Loaded(env, tgPath, wavPath, base, outDir).segments
    {
      var tier := OpenTier(env, tgPath, wavPath);
      if tier.None? {
        failed := failed + 1;
        return;
      }
      ProcessTier(env, wavPath, base, outDir, tier.value);
    }

    /** The `内容层` tier found: cut its segments, then append their lines. */
    method ProcessTier(env: Env, wavPath: String, base: String, outDir: String, tier: Tier)
      modifies this
      ensures var s := Appended(env, outDir, Segments(env, wavPath, base, outDir, tier.intervals));
        successful == old(successful) + (if s.ok then 1 else 0) && failed == old(failed) + (if s.ok then 0 else 1)
      ensures var s := Appended(env, outDir, Segments(env, wavPath, base, outDir, tier.intervals));
        wavScp == old(wavScp) + s.scpAppend && text == old(text) + s.textAppend
      ensures exported == old(exported) + Segments(env, wavPath, base, outDir, tier.intervals)
    {
      var segs, scpLines, textLines, segmentCount := CutSegments(env, wavPath, base, outDir, tier.intervals);
      exported := exported + segs;
      AppendLines(env, outDir, segs, scpLines, textLines, segmentCount);
    }

    /** The end of the call: append both files when a segment was exported, and count the outcome. */
    method AppendLines(env: Env, outDir: String, ghost segs: seq<Segment>, scpLines: seq<String>, textLines: seq<String>, segmentCount: nat)
      requires scpLines == ScpLines(segs) && textLines == TextLines(segs) && segmentCount == |segs|
      modifies this
      ensures var s := Appended(env, outDir, segs);
        successful == old(successful) + (if s.ok then 1 else 0) && failed == old(failed) + (if s.ok then 0 else 1)
      ensures var s := Appended(env, outDir, segs);
        wavScp == old(wavScp) + s.scpAppend && text == old(text) + s.textAppend
      ensures unchanged(this`exported)
    {
      if segmentCount > 0 {
        WriteLists(env, outDir, segs, scpLines, textLines);
      } else {
        assert Appended(env, outDir, segs) == Step(false, [], "", "");
        assert wavScp == old(wavScp) + "" && text == old(text) + "";
        failed := failed + 1;
      }
    }

    /** The `try` block: `wav.scp` is appended first, then `text`; the call fails at the append that
        raises, keeping what was appended before it. */
    method WriteLists(env: Env, outDir: String, ghost segs: seq<Segment>, scpLines: seq<String>, textLines: seq<String>)
      modifies this
      ensures var s := Flushed(env, outDir, segs, JoinLines(scpLines) + "\n", JoinLines(textLines) + "\n");
        successful == old(successful) + (if s.ok then 1 else 0) && failed == old(failed) + (if s.ok then 0 else 1)
      ensures var s := Flushed(env, outDir, segs, JoinLines(scpLines) + "\n", JoinLines(textLines) + "\n");
        wavScp == old(wavScp) + s.scpAppend && text == old(text) + s.textAppend
      ensures unchanged(this`exported)
    {
      if !env.append(PathJoin(outDir, "wav.scp")) {
        assert wavScp == old(wavScp) + "" && text == old(text) + "";
        failed := failed + 1;
        return;
      }
      wavScp := wavScp + (JoinLines(scpLines) + "\n");
      if !env.append(PathJoin(outDir, "text")) {
        assert text == old(text) + "";
        failed := failed + 1;
        return;
      }
      text := text + (JoinLines(textLines) + "\n");
      successful := successful + 1;
    }

    /** `main`'s loop: every listed file ending in `.TextGrid` is processed, in the listing's order. */
    method ProcessAll(env: Env, files: seq<String>, tgDir: String, wavDir: String, outDir: String)
      modifies this
      ensures var steps := Steps(env, files, tgDir, wavDir, outDir);
        && successful == old(successful) + Successes(steps)
        && successful + failed == old(successful) + old(failed) + |steps|
        && wavScp == old(wavScp) + ScpAppends(steps) && text == old(text) + TextAppends(steps)
    {
      for i := 0 to |files|
        invariant successful == old(successful) + Successes(Steps(env, files[..i], tgDir, wavDir, outDir))
        invariant successful + failed == old(successful) + old(failed) + |Steps(env, files[..i], tgDir, wavDir, outDir)|
        invariant wavScp == old(wavScp) + ScpAppends(Steps(env, files[..i], tgDir, wavDir, outDir))
        invariant text == old(text) + TextAppends(Steps(env, files[..i], tgDir, wavDir, outDir))
      {
        ghost var prev := Steps(env, files[..i], tgDir, wavDir, outDir);
        ghost var visited := Visited(env, files[i], tgDir, wavDir, outDir);
        StepsStep(env, files, i, tgDir, wavDir, outDir);
        StepsAppend(prev, visited);
        AppendAssoc(old(wavScp), ScpAppends(prev), ScpAppends(visited));
        AppendAssoc(old(text), TextAppends(prev), TextAppends(visited));
        Visit(env, files[i], tgDir, wavDir, outDir);
      }
      assert files[..|files|] == files;
    }

    /** One directory entry: a `.TextGrid` file is processed, anything else is passed over. */
    method Visit(env: Env, file: String, tgDir: String, wavDir: String, outDir: String)
      modifies this
      ensures var st := Visited(env, file, tgDir, wavDir, outDir);
        && successful == old(successful) + Successes(st)
        && successful + failed == old(successful) + old(failed) + |st|
        && wavScp == old(wavScp) + ScpAppends(st) && text == old(text) + TextAppends(st)
    {
      if EndsWith(file, ".TextGrid") {
        ProcessTextGridAndWav(env, PathJoin(tgDir, file), wavDir, outDir);
        StepsOne(Processed(env, PathJoin(tgDir, file), wavDir, outDir));
      }
    }
  }

  /** The step one directory entry gives: a call for a `.TextGrid` file, none otherwise. */
  function Visited(env: Env, file: String, tgDir: String, wavDir: String, outDir: String): seq<Step> {
    if EndsWith(file, ".TextGrid") then [Processed(env, PathJoin(tgDir, file), wavDir, outDir)] else []
  }

  /** The calls `main` makes, one per listed `.TextGrid` file. */
  function Steps(env: Env, files: seq<String>, tgDir: String, wavDir: String, outDir: String): (r: seq<Step>)
    ensures |r| <= |files|
  {
    if files == [] then []
    else
      var init := Steps(env, files[..|files| - 1], tgDir, wavDir, outDir);
      init + Visited(env, files[|files| - 1], tgDir, wavDir, outDir)
  }

  lemma StepsStep(env: Env, files: seq<String>, i: nat, tgDir: String, wavDir: String, outDir: String)
    requires i < |files|
    ensures Steps(env, files[..i + 1], tgDir, wavDir, outDir) == Steps(env, files[..i], tgDir, wavDir, outDir) +
      Visited(env, files[i], tgDir, wavDir, outDir)
  {
    assert files[..i + 1][..i] == files[..i];
  }

  function Successes(steps: seq<Step>): nat {
    if steps == [] then 0 else Successes(steps[..|steps| - 1]) + (if steps[|steps| - 1].ok then 1 else 0)
  }

  function ScpAppends(steps: seq<Step>): String {
    if steps == [] then [] else ScpAppends(steps[..|steps| - 1]) + steps[|steps| - 1].scpAppend
  }

  function TextAppends(steps: seq<Step>): String {
    if steps == [] then [] else TextAppends(steps[..|steps| - 1]) + steps[|steps| - 1].textAppend
  }

  lemma StepsOne(s: Step)
    ensures Successes([s]) == (if s.ok then 1 else 0)
    ensures ScpAppends([s]) == s.scpAppend && TextAppends([s]) == s.textAppend
  {
    assert [s][..0] == [];
  }

  lemma StepsAppend(a: seq<Step>, b: seq<Step>)
    ensures Successes(a + b) == Successes(a) + Successes(b)
    ensures ScpAppends(a + b) == ScpAppends(a) + ScpAppends(b)
    ensures TextAppends(a + b) == TextAppends(a) + TextAppends(b)
  {
    SuccessesAppend(a, b);
    ScpAppendsAppend(a, b);
    TextAppendsAppend(a, b);
  }

  lemma SnocSplit(a: seq<Step>, b: seq<Step>)
    requires b != []
    ensures (a + b)[..|a + b| - 1] == a + b[..|b| - 1] && (a + b)[|a + b| - 1] == b[|b| - 1]
  {
  }

  lemma {:induction false} SuccessesAppend(a: seq<Step>, b: seq<Step>)
    ensures Successes(a + b) == Successes(a) + Successes(b)
    decreases |b|
  {
    if b == [] {
      assert a + b == a;
    } else {
      SnocSplit(a, b);
      SuccessesAppend(a, b[..|b| - 1]);
    }
  }

  lemma {:induction false} ScpAppendsAppend(a: seq<Step>, b: seq<Step>)
    ensures ScpAppends(a + b) == ScpAppends(a) + ScpAppends(b)
    decreases |b|
  {
    if b == [] {
      assert a + b == a;
    } else {
      var init := b[..|b| - 1];
      SnocSplit(a, b);
      ScpAppendsAppend(a, init);
      AppendAssoc(ScpAppends(a), ScpAppends(init), b[|b| - 1].scpAppend);
    }
  }

  lemma {:induction false} TextAppendsAppend(a: seq<Step>, b: seq<Step>)
    ensures TextAppends(a + b) == TextAppends(a) + TextAppends(b)
    decreases |b|
  {
    if b == [] {
      assert a + b == a;
    } else {
      var init := b[..|b| - 1];
      SnocSplit(a, b);
      TextAppendsAppend(a, init);
      AppendAssoc(TextAppends(a), TextAppends(init), b[|b| - 1].textAppend);
    }
  }

  /** Files not ending in `.TextGrid` are passed over: one call per TextGrid, in listing order. */
  lemma {:induction false} StepsCount(env: Env, files: seq<String>, tgDir: String, wavDir: String, outDir: String)
    ensures |Steps(env, files, tgDir, wavDir, outDir)| == |Filter(f => EndsWith(f, ".TextGrid"), files)|
    decreases |files|
  {
    if files != [] {
      StepsCount(env, files[..|files| - 1], tgDir, wavDir, outDir);
    }
  }

  // ---------------------------------------------------------------------------------------------
  // read_scp, read_text, generate_data_list

  function ScpEntryFn(): String -> Option<(String, String)> {
    line => TwoTokens(line)
  }

  function TextEntryFn(): String -> Option<(String, String)> {
    line => IdAndRest(line)
  }

  /** `read_scp`'s dict, as its items in insertion order. */
  function ScpItems(lines: seq<String>): seq<(String, String)> {
    Items(FilterMap(ScpEntryFn(), lines))
  }

  /** `read_text`'s dict. */
  function TextMap(lines: seq<String>): map<String, String> {
    MapOf(FilterMap(TextEntryFn(), lines))
  }

  /** `read_scp`: lines of exactly two tokens; a later line for a key replaces the path, in place. */
  method ReadScp(lines: seq<String>) returns (d: seq<(String, String)>)
    ensures d == ScpItems(lines)
  {
    ghost var entries: seq<(String, String)> := [];
    d := [];
    for i := 0 to |lines|
      invariant entries == FilterMap(ScpEntryFn(), lines[..i]) && d == Items(entries)
    {
      FilterMapStep(ScpEntryFn(), lines, i);
      var parts := Split(Strip(lines[i]));
      if |parts| == 2 {
        var key, path := parts[0], parts[1];
        ItemsStep(entries, (key, path));
        entries := entries + [(key, path)];
        d := Assign(d, key, path);
      }
    }
    assert lines[..|lines|] == lines;
  }

  /** `read_text`: lines with an id and a transcript; later lines win. */
  method ReadText(lines: seq<String>) returns (d: map<String, String>)
    ensures d == TextMap(lines)
  {
    d := MapOfLoop(TextEntryFn(), lines);
  }

  function DataEntryFn(text: map<String, String>): ((String, String)) -> Option<DataEntry> {
    (item: (String, String)) => if item.0 in text then Some(DataEntry(item.0, item.1, text[item.0])) else None
  }

  /** `generate_data_list`: one record per wav.scp key that has a transcript, in wav.scp order. */
  method GenerateDataList(scp: seq<(String, String)>, text: map<String, String>) returns (entries: seq<DataEntry>)
    ensures entries == FilterMap(DataEntryFn(text), scp)
  {
    entries := FilterMapLoop(DataEntryFn(text), scp);
  }

  /** `main`'s last stage: nothing when `wav.scp` or `text` is missing, else the records from both. */
  method MakeDataList(scpLines: Option<seq<String>>, textLines: Option<seq<String>>) returns (r: Option<seq<DataEntry>>)
    ensures scpLines.None? || textLines.None? ==> r.None?
    ensures scpLines.Some? && textLines.Some? ==>
      r == Some(DataList(scpLines.value, textLines.value))
  {
    if scpLines.None? || textLines.None? {
      return None;
    }
    var scp := ReadScp(scpLines.value);
    var text := ReadText(textLines.value);
    var entries := GenerateDataList(scp, text);
    r := Some(entries);
  }

  /** The data list a pair of `wav.scp` and `text` files gives. */
  function DataList(scpLines: seq<String>, textLines: seq<String>): seq<DataEntry> {
    FilterMap(DataEntryFn(TextMap(textLines)), ScpItems(scpLines))
  }

  /** A record is in the data list exactly when its key is in both files, with the last path
      `wav.scp` gives and the last transcript `text` gives. */
  lemma DataListMembers(scpLines: seq<String>, textLines: seq<String>, e: DataEntry)
    ensures var scp := MapOf(FilterMap(ScpEntryFn(), scpLines));
      var text := TextMap(textLines);
      e in DataList(scpLines, textLines) <==> e.key in scp && e.key in text && e.wav == scp[e.key] && e.txt == text[e.key]
  {
    DataFromItems(FilterMap(ScpEntryFn(), scpLines), TextMap(textLines), e);
  }

  /** `generate_data_list` over any `wav.scp` entries and transcript dict. */
  lemma DataFromItems(entries: seq<(String, String)>, text: map<String, String>, e: DataEntry)
    ensures e in FilterMap(DataEntryFn(text), Items(entries)) <==>
      e.key in MapOf(entries) && e.key in text && e.wav == MapOf(entries)[e.key] && e.txt == text[e.key]
  {
    var items := Items(entries);
    var f := DataEntryFn(text);
    ItemsDistinct(entries);
    FilterMapMembers(f, items, e);
    if e in FilterMap(f, items) {
      var k :| 0 <= k < |items| && f(items[k]) == Some(e);
      ItemAt(entries, k);
    }
    if e.key in MapOf(entries) && e.key in text && e.wav == MapOf(entries)[e.key] && e.txt == text[e.key] {
      var k :| 0 <= k < |items| && KeySeq(items)[k] == e.key;
      ItemAt(entries, k);
      assert f(items[k]) == Some(e);
    }
  }

  /** Each item of the insertion-ordered dict holds the value the dict maps its key to. */
  lemma ItemAt(entries: seq<(String, String)>, k: nat)
    requires k < |Items(entries)|
    ensures Items(entries)[k].0 in MapOf(entries) && Items(entries)[k].1 == MapOf(entries)[Items(entries)[k].0]
  {
    ItemsDistinct(entries);
    LookupAt(Items(entries), k);
    ItemsValues(entries, Items(entries)[k].0);
  }

  /** No key has two records, and the records follow the order in which keys first appear in
      `wav.scp`. */
  lemma DataListOrder(scpLines: seq<String>, textLines: seq<String>)
    ensures var out := DataList(scpLines, textLines);
      && (forall i, j :: 0 <= i < j < |out| ==> out[i].key != out[j].key)
      && (exists idx :: Embeds(KeysOfEntries(out), Dedup(KeySeq(FilterMap(ScpEntryFn(), scpLines))), idx))
  {
    var entries := FilterMap(ScpEntryFn(), scpLines);
    var items := Items(entries);
    var out := DataList(scpLines, textLines);
    assert out == FilterMap(DataEntryFn(TextMap(textLines)), items);
    var ks, os := KeySeq(items), KeysOfEntries(out);
    var idx := KeysFiltered(TextMap(textLines), items);
    assert ks == Dedup(KeySeq(entries)) by {
      ItemsKeys(entries);
    }
    assert forall i, j :: 0 <= i < j < |ks| ==> ks[i] != ks[j] by {
      ItemsDistinct(entries);
    }
    DistinctEmbedded(os, ks, idx);
    KeysDistinct(out);
  }

  lemma KeysDistinct(out: seq<DataEntry>)
    requires var os := KeysOfEntries(out); forall i, j :: 0 <= i < j < |os| ==> os[i] != os[j]
    ensures forall i, j :: 0 <= i < j < |out| ==> out[i].key != out[j].key
  {
    var os := KeysOfEntries(out);
    forall i, j | 0 <= i < j < |out|
      ensures out[i].key != out[j].key
    {
      assert os[i] != os[j];
    }
  }

  function KeysOfEntries(es: seq<DataEntry>): (r: seq<String>)
    ensures |r| == |es| && forall i :: 0 <= i < |es| ==> r[i] == es[i].key
  {
    seq(|es|, i requires 0 <= i < |es| => es[i].key)
  }

  /** The records' keys are picked, in order, from the items' keys. */
  lemma {:induction false} KeysFiltered(text: map<String, String>, items: seq<(String, String)>) returns (idx: seq<nat>)
    ensures Embeds(KeysOfEntries(FilterMap(DataEntryFn(text), items)), KeySeq(items), idx)
    decreases |items|
  {
    var f := DataEntryFn(text);
    if items == [] {
      idx := [];
    } else {
      var init := items[..|items| - 1];
      var prev := KeysFiltered(text, init);
      var out := FilterMap(f, items);
      var o := FilterMap(f, init);
      assert forall k :: 0 <= k < |prev| ==> KeySeq(items)[prev[k]] == KeySeq(init)[prev[k]];
      if f(items[|items| - 1]).Some? {
        idx := prev + [|items| - 1];
        assert out == o + [f(items[|items| - 1]).value];
        assert forall k :: 0 <= k < |o| ==> KeysOfEntries(out)[k] == KeysOfEntries(o)[k];
      } else {
        idx := prev;
      }
    }
  }

  /** A subsequence of distinct keys has distinct keys. */
  lemma DistinctEmbedded(xs: seq<String>, ys: seq<String>, idx: seq<nat>)
    requires Embeds(xs, ys, idx) && forall i, j :: 0 <= i < j < |ys| ==> ys[i] != ys[j]
    ensures forall i, j :: 0 <= i < j < |xs| ==> xs[i] != xs[j]
  {
  }
}
