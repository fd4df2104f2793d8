/**
  augment_data.py: for every wav.scp / text / data.list line triple, up to three augmented copies of
  the utterance (noise, fast, slow), exported beside the original, and the manifest lines that list
  the copies together with the original. Audio decoding, the effects and JSON parsing are foreign
  and come in as functions.
*/
module AugmentData {
  import opened Wrappers
  import opened PyStr
  import opened Seqs
  import CheckTrainData

  /** A decoded audio segment: pydub's `len` is its length in whole milliseconds. */
  datatype Segment = Segment(ms: nat, samples: seq<int>)

  /** The signal effects: `add_noise`, pydub's `speedup` at a playback speed, and `slow_down`. */
  datatype Effects = Effects(noise: Segment -> Segment, speedup: (Segment, real) -> Segment, slow: Segment -> Segment)

  /** One exported file: where it went and what was written there. */
  datatype Export = Export(path: String, audio: Segment)

  /** What runs outside the script: the effects, `AudioSegment.from_wav` (None when it raises),
      whether `export` writes a copy (false when it raises), and `json.loads` of a data.list line
      (None when it raises or yields no dict), each value as an f-string formats it with `str()`. */
  datatype Env = Env(fx: Effects, load: String -> Option<Segment>, save: Export -> bool,
                     json: String -> Option<map<String, String>>)

  const MinAugmentMs: nat := 1000
  const DefaultSpeed: real := 1.5
  const DefaultMinDuration: real := 0.15
  const AugOrder: seq<String> := ["noise", "fast", "slow"]

  // ---------------------------------------------------------------------------------------------
  // speed_up

  /** `speed_up`: a segment shorter than `min_duration` seconds is returned as it is. */
  function SpeedUp(fx: Effects, seg: Segment, speed: real, minDuration: real): (r: Segment)
    ensures (seg.ms as real) < minDuration * 1000.0 ==> r == seg
    ensures (seg.ms as real) >= minDuration * 1000.0 ==> r == fx.speedup(seg, speed)
  {
    if (seg.ms as real) < minDuration * 1000.0 then seg else fx.speedup(seg, speed)
  }

  /** `process_audio` only ever speeds up segments of at least a second, so with the default
      `min_duration` of 0.15 s the guard never returns the input there. */
  lemma SpeedUpGuardUnused(fx: Effects, seg: Segment)
    requires seg.ms >= MinAugmentMs
    ensures SpeedUp(fx, seg, DefaultSpeed, DefaultMinDuration) == fx.speedup(seg, DefaultSpeed)
  {
    assert (seg.ms as real) >= 1000.0;
  }

  // ---------------------------------------------------------------------------------------------
  // process_audio

  /** The copies asked for, in the fixed order noise, fast, slow. */
  function Requested(types: seq<String>): (r: seq<String>)
    ensures |r| <= 3
  {
    (if "noise" in types then ["noise"] else []) + (if "fast" in types then ["fast"] else []) +
    (if "slow" in types then ["slow"] else [])
  }

  /** `os.path.join(output_wav_dir, f'{aug}_{key}.wav')` */
  function AugPath(dir: String, aug: String, key: String): String {
    PathJoin(dir, aug + "_" + key + ".wav")
  }

  /** The effect an augmentation name stands for. */
  function Effect(fx: Effects, aug: String, audio: Segment): Segment {
    if aug == "noise" then fx.noise(audio)
    else if aug == "fast" then SpeedUp(fx, audio, DefaultSpeed, DefaultMinDuration)
    else fx.slow(audio)
  }

  /** The `output_files` items for a list of augmentations, in its order. */
  function FilesOf(dir: String, key: String, augs: seq<String>): (r: seq<(String, String)>)
    ensures |r| == |augs|
  {
    if augs == [] then [] else FilesOf(dir, key, augs[..|augs| - 1]) + [(augs[|augs| - 1], AugPath(dir, augs[|augs| - 1], key))]
  }

  function ExportsOf(fx: Effects, audio: Segment, dir: String, key: String, augs: seq<String>): (r: seq<Export>)
    ensures |r| == |augs|
  {
    if augs == [] then []
    else ExportsOf(fx, audio, dir, key, augs[..|augs| - 1]) + [Export(AugPath(dir, augs[|augs| - 1], key), Effect(fx, augs[|augs| - 1], audio))]
  }

  /** What `process_audio` returns (its dict's items in insertion order) and what it exports. */
  datatype AudioFiles = AudioFiles(files: seq<(String, String)>, exports: seq<Export>)

  /** Every export is written; `process_audio` raises at the first that is not. */
  predicate AllSaved(save: Export -> bool, exports: seq<Export>) {
    forall k :: 0 <= k < |exports| ==> save(exports[k])
  }

  function AudioOut(fx: Effects, audio: Segment, dir: String, key: String, types: seq<String>): AudioFiles {
    if audio.ms < MinAugmentMs then AudioFiles([], [])
    else AudioFiles(FilesOf(dir, key, Requested(types)), ExportsOf(fx, audio, dir, key, Requested(types)))
  }

  /** `process_audio`: load or fail, then nothing for audio under a second, else each requested
      copy in turn, failing when an export fails. */
  method ProcessAudio(fx: Effects, load: String -> Option<Segment>, save: Export -> bool, inputWav: String, dir: String,
                      key: String, types: seq<String>)
    returns (r: Option<AudioFiles>)
    ensures load(inputWav).None? ==> r.None?
    ensures load(inputWav).Some? ==> (r.Some? <==> AllSaved(save, AudioOut(fx, load(inputWav).value, dir, key, types).exports))
    ensures r.Some? ==> r.value == AudioOut(fx, load(inputWav).value, dir, key, types)
  {
    var loaded := load(inputWav);
    if loaded.None? {
      return None;
    }
    var audio := loaded.value;
    if audio.ms < MinAugmentMs {
      return Some(AudioFiles([], []));
    }
    var files: seq<(String, String)>, exports: seq<Export>, ok: bool;
    files, exports, ok := AddCopy(fx, save, audio, dir, key, "noise", types, [], [], []);
    if !ok {
      ExportFails(fx, save, audio, dir, key, types, "noise");
      return None;
    }
    ghost var augs: seq<String> := if "noise" in types then ["noise"] else [];
    files, exports, ok := AddCopy(fx, save, audio, dir, key, "fast", types, augs, files, exports);
    if !ok {
      ExportFails(fx, save, audio, dir, key, types, "fast");
      return None;
    }
    augs := augs + if "fast" in types then ["fast"] else [];
    files, exports, ok := AddCopy(fx, save, audio, dir, key, "slow", types, augs, files, exports);
    if !ok {
      ExportFails(fx, save, audio, dir, key, types, "slow");
      return None;
    }
    augs := augs + if "slow" in types then ["slow"] else [];
    assert augs == Requested(types);
    r := Some(AudioFiles(files, exports));
  }

  /** An export that fails is one of those `AudioOut` lists, so not all of them are written. */
  lemma ExportFails(fx: Effects, save: Export -> bool, audio: Segment, dir: String, key: String, types: seq<String>, aug: String)
    requires aug in AugOrder && aug in types && !save(Export(AugPath(dir, aug, key), Effect(fx, aug, audio)))
    ensures !AllSaved(save, ExportsOf(fx, audio, dir, key, Requested(types)))
  {
    RequestedMembers(types, aug);
    FilesOfAt(fx, audio, dir, key, Requested(types));
    var k :| 0 <= k < |Requested(types)| && Requested(types)[k] == aug;
  }

  /** One `if 'x' in augment_types:` block: when the type is asked for, export the copy and record
      its path; `ok` is false when the export raises. */
  method AddCopy(fx: Effects, save: Export -> bool, audio: Segment, dir: String, key: String, aug: String,
                 types: seq<String>, ghost augs: seq<String>, files: seq<(String, String)>, exports: seq<Export>)
    returns (files': seq<(String, String)>, exports': seq<Export>, ok: bool)
    requires files == FilesOf(dir, key, augs) && exports == ExportsOf(fx, audio, dir, key, augs)
    requires AllSaved(save, exports)
    ensures ok <==> aug !in types || save(Export(AugPath(dir, aug, key), Effect(fx, aug, audio)))
    ensures ok ==>
      var augs' := augs + if aug in types then [aug] else [];
      files' == FilesOf(dir, key, augs') && exports' == ExportsOf(fx, audio, dir, key, augs') && AllSaved(save, exports')
  {
    if aug !in types {
      assert augs + [] == augs;
      return files, exports, true;
    }
    var path := AugPath(dir, aug, key);
    var copy := Effect(fx, aug, audio);
    ok := save(Export(path, copy));
    if !ok {
      return files, exports, false;
    }
    exports' := exports + [Export(path, copy)];
    files' := files + [(aug, path)];
    assert (augs + [aug])[..|augs|] == augs;
  }

  /** The requested copies are the fixed order filtered by the requested types. */
  lemma RequestedIsFilter(types: seq<String>)
    ensures Requested(types) == Filter(a => a in types, AugOrder)
  {
    var p := a => a in types;
    assert AugOrder[..2] == ["noise", "fast"] && AugOrder[..2][..1] == ["noise"] && AugOrder[..2][..1][..0] == [];
    FilterSnoc(p, [], "noise");
    FilterSnoc(p, ["noise"], "fast");
    FilterSnoc(p, ["noise", "fast"], "slow");
  }

  /** Audio under a second gets no copies, whatever was asked for. */
  lemma ShortAudioNoCopies(fx: Effects, audio: Segment, dir: String, key: String, types: seq<String>)
    requires audio.ms < MinAugmentMs
    ensures AudioOut(fx, audio, dir, key, types) == AudioFiles([], [])
  {
  }

  /** A copy is requested exactly when it is one of noise, fast and slow and is among the types. */
  lemma RequestedMembers(types: seq<String>, a: String)
    ensures a in Requested(types) <==> a in AugOrder && a in types
  {
    RequestedIsFilter(types);
    FilterMembers(x => x in types, AugOrder, a);
  }

  /** The order of `augment_types`, and anything in it besides noise, fast and slow, does not matter. */
  lemma RequestedOrderFree(types: seq<String>, types': seq<String>)
    requires forall a :: a in AugOrder ==> (a in types <==> a in types')
    ensures Requested(types) == Requested(types')
  {
    assert "noise" in AugOrder && "fast" in AugOrder && "slow" in AugOrder;
  }

  /** For audio of a second or more, the copies are the requested ones in the fixed order, with
      distinct keys, each at `{aug}_{key}.wav` in the output directory and holding its effect's
      output; the order of `augment_types` does not matter. */
  lemma AudioOutFiles(fx: Effects, audio: Segment, dir: String, key: String, types: seq<String>, types': seq<String>)
    requires audio.ms >= MinAugmentMs
    requires forall a :: a in AugOrder ==> (a in types <==> a in types')
    ensures var out := AudioOut(fx, audio, dir, key, types);
      && |out.files| == |out.exports| == |Requested(types)|
      && (forall k :: 0 <= k < |out.files| ==> out.files[k] == (Requested(types)[k], AugPath(dir, Requested(types)[k], key)))
      && (forall k :: 0 <= k < |out.files| ==> out.exports[k] == Export(out.files[k].1, Effect(fx, out.files[k].0, audio)))
      && (forall j, k :: 0 <= j < k < |out.files| ==> out.files[j].0 != out.files[k].0)
      && out == AudioOut(fx, audio, dir, key, types')
  {
    FilesOfAt(fx, audio, dir, key, Requested(types));
    RequestedDistinct(types);
    RequestedOrderFree(types, types');
  }

  lemma RequestedDistinct(types: seq<String>)
    ensures forall j, k :: 0 <= j < k < |Requested(types)| ==> Requested(types)[j] != Requested(types)[k]
  {
  }

  lemma {:induction false} FilesOfAt(fx: Effects, audio: Segment, dir: String, key: String, augs: seq<String>)
    ensures forall k :: 0 <= k < |augs| ==> FilesOf(dir, key, augs)[k] == (augs[k], AugPath(dir, augs[k], key))
    ensures forall k :: 0 <= k < |augs| ==> ExportsOf(fx, audio, dir, key, augs)[k] == Export(AugPath(dir, augs[k], key), Effect(fx, augs[k], audio))
    decreases |augs|
  {
    if augs != [] {
      FilesOfAt(fx, audio, dir, key, augs[..|augs| - 1]);
    }
  }

  // ---------------------------------------------------------------------------------------------
  // handle_line

  /** A manifest line `id value\n`. */
  function Line(id: String, value: String): String {
    id + " " + value + "\n"
  }

  /** The id of an augmented copy, `{aug}_{wav_key}`. */
  function AugId(aug: String, wavKey: String): String {
    aug + "_" + wavKey
  }

  /** The wav.scp lines of the copies, in `output_files` order. */
  function AugScp(wavKey: String, files: seq<(String, String)>): (r: seq<String>)
    ensures |r| == |files|
  {
    if files == [] then []
    else AugScp(wavKey, files[..|files| - 1]) + [Line(AugId(files[|files| - 1].0, wavKey), files[|files| - 1].1)]
  }

  /** The text lines of the copies: each carries the utterance's transcript. */
  function AugText(wavKey: String, txt: String, files: seq<(String, String)>): (r: seq<String>)
    ensures |r| == |files|
  {
    if files == [] then []
    else AugText(wavKey, txt, files[..|files| - 1]) + [Line(AugId(files[|files| - 1].0, wavKey), txt)]
  }

  /** What `handle_line` returns: `(wav_key, txt, wav_path, wav_scp_entries, text_entries,
      output_files)`, with the exports `process_audio` made. */
  datatype Handled = Handled(wavKey: String, txt: String, wavPath: String, scpEntries: seq<String>,
                             textEntries: seq<String>, out: AudioFiles)

  /** The entries of a line whose three parts were read: one per copy, then the original. */
  function Entries(wavKey: String, wavPath: String, txt: String, out: AudioFiles): Handled {
    Handled(wavKey, txt, wavPath, AugScp(wavKey, out.files) + [Line(wavKey, wavPath)],
            AugText(wavKey, txt, out.files) + [Line(wavKey, txt)], out)
  }

  /** `handle_line` from the look-ups in the data.list dict on. */
  function HandleObj(env: Env, wavKey: String, wavPath: String, obj: map<String, String>, dir: String, types: seq<String>): Option<Handled> {
    if "key" !in obj || "wav" !in obj || "txt" !in obj then None
    else
      match env.load(obj["wav"])
      case None => None
      case Some(audio) =>
        var out := AudioOut(env.fx, audio, dir, obj["key"], types);
        if AllSaved(env.save, out.exports) then Some(Entries(wavKey, wavPath, obj["txt"], out)) else None
  }

  /** `handle_line`, as a value: None on every path that raises or skips. */
  function Handle(env: Env, scpLine: String, textLine: String, dataListLine: String, dir: String, types: seq<String>): Option<Handled> {
    var parts := SplitMax1(Strip(scpLine));
    if |parts| != 2 || |SplitMax1(Strip(textLine))| != 2 then None
    else
      match env.json(Strip(dataListLine))
      case None => None
      case Some(obj) => HandleObj(env, parts[0], parts[1], obj, dir, types)
  }

  /** `handle_line`: parse the three lines, augment, then list each copy and the original last. */
  method HandleLine(env: Env, scpLine: String, textLine: String, dataListLine: String, dir: String, types: seq<String>)
    returns (r: Option<Handled>)
    ensures r == Handle(env, scpLine, textLine, dataListLine, dir, types)
  {
    var parts := SplitMax1(Strip(scpLine));
    if |parts| != 2 {
      return None;
    }
    var wavKey, wavPath := parts[0], parts[1];
    if |SplitMax1(Strip(textLine))| != 2 {
      return None;
    }
    var entry := env.json(Strip(dataListLine));
    if entry.None? {
      return None;
    }
    r := HandleEntry(env, wavKey, wavPath, entry.value, dir, types);
  }

  method HandleEntry(env: Env, wavKey: String, wavPath: String, obj: map<String, String>, dir: String, types: seq<String>)
    returns (r: Option<Handled>)
    ensures r == HandleObj(env, wavKey, wavPath, obj, dir, types)
  {
    if "key" !in obj || "wav" !in obj || "txt" !in obj {
      return None;
    }
    var key, wavFile, txt := obj["key"], obj["wav"], obj["txt"];
    var out := ProcessAudio(env.fx, env.load, env.save, wavFile, dir, key, types);
    if out.None? {
      return None;
    }
    var h := BuildEntries(wavKey, wavPath, txt, out.value);
    r := Some(h);
  }

  /** The entry loop of `handle_line`: one wav.scp and one text entry per copy, then the original's. */
  method BuildEntries(wavKey: String, wavPath: String, txt: String, out: AudioFiles) returns (h: Handled)
    ensures h == Entries(wavKey, wavPath, txt, out)
  {
    var files := out.files;
    var scpEntries: seq<String> := [];
    var textEntries: seq<String> := [];
    var i := 0;
    while i < |files|
      invariant 0 <= i <= |files|
      invariant scpEntries == AugScp(wavKey, files[..i]) && textEntries == AugText(wavKey, txt, files[..i])
    {
      assert files[..i + 1][..i] == files[..i];
      scpEntries := scpEntries + [Line(AugId(files[i].0, wavKey), files[i].1)];
      textEntries := textEntries + [Line(AugId(files[i].0, wavKey), txt)];
      i := i + 1;
    }
    assert files[..|files|] == files;
    scpEntries := scpEntries + [Line(wavKey, wavPath)];
    textEntries := textEntries + [Line(wavKey, txt)];
    h := Handled(wavKey, txt, wavPath, scpEntries, textEntries, out);
  }

  /** The line is skipped exactly when the wav.scp or the text line lacks two tokens, the data.list
      line is no JSON dict, or that dict is unusable: a key missing, the audio not loadable, or an
      export failing. */
  lemma HandleNone(env: Env, scpLine: String, textLine: String, dataListLine: String, dir: String, types: seq<String>)
    ensures Handle(env, scpLine, textLine, dataListLine, dir, types).None? <==>
      || |SplitMax1(Strip(scpLine))| != 2
      || |SplitMax1(Strip(textLine))| != 2
      || (match env.json(Strip(dataListLine)) case None => true case Some(obj) => Unusable(env, obj, dir, types))
  {
    var parts := SplitMax1(Strip(scpLine));
    var textParts := SplitMax1(Strip(textLine));
    if |parts| == 2 && |textParts| == 2 {
      match env.json(Strip(dataListLine))
      case None =>
      case Some(obj) =>
        assert Handle(env, scpLine, textLine, dataListLine, dir, types) == HandleObj(env, parts[0], parts[1], obj, dir, types);
        HandleObjNone(env, parts[0], parts[1], obj, dir, types);
    }
  }

  /** A data.list dict is unusable when one of its three keys is missing, its audio cannot be
      loaded, or one of the copies cannot be exported. */
  predicate Unusable(env: Env, obj: map<String, String>, dir: String, types: seq<String>) {
    || "key" !in obj || "wav" !in obj || "txt" !in obj || env.load(obj["wav"]).None?
    || !AllSaved(env.save, AudioOut(env.fx, env.load(obj["wav"]).value, dir, obj["key"], types).exports)
  }

  lemma HandleObjNone(env: Env, wavKey: String, wavPath: String, obj: map<String, String>, dir: String, types: seq<String>)
    ensures HandleObj(env, wavKey, wavPath, obj, dir, types).None? <==> Unusable(env, obj, dir, types)
  {
  }

  /** A handled line's entries as `handle_line` is meant to produce them, for at most three copies. */
  predicate Formed(h: Handled) {
    && h == Entries(h.wavKey, h.wavPath, h.txt, h.out)
    && |h.out.files| <= 3
  }

  /** The entries of a read line number one more than the copies and go in pairs with the same id,
      `{aug}_{wav_key}` for each copy and the original `wav_key` last, each with the transcript. */
  lemma EntriesAligned(wavKey: String, wavPath: String, txt: String, out: AudioFiles)
    ensures var h := Entries(wavKey, wavPath, txt, out);
      && |h.scpEntries| == |h.textEntries| == |out.files| + 1
      && (forall k :: 0 <= k < |out.files| ==>
            && h.scpEntries[k] == Line(AugId(out.files[k].0, wavKey), out.files[k].1)
            && h.textEntries[k] == Line(AugId(out.files[k].0, wavKey), txt))
      && h.scpEntries[|out.files|] == Line(wavKey, wavPath)
      && h.textEntries[|out.files|] == Line(wavKey, txt)
  {
    AugEntriesAt(wavKey, txt, out.files);
  }

  /** A handled line is formed from its parts: the ids come from wav.scp, the copies' file names
      from data.list's `key`, and the transcript is data.list's `txt`. */
  lemma HandleSome(env: Env, scpLine: String, textLine: String, dataListLine: String, dir: String, types: seq<String>)
    returns (wavKey: String, wavPath: String, obj: map<String, String>, audio: Segment)
    requires Handle(env, scpLine, textLine, dataListLine, dir, types).Some?
    ensures var parts := SplitMax1(Strip(scpLine)); |parts| == 2 && parts[0] == wavKey && parts[1] == wavPath
    ensures |SplitMax1(Strip(textLine))| == 2
    ensures env.json(Strip(dataListLine)) == Some(obj) && "key" in obj && "wav" in obj && "txt" in obj
    ensures env.load(obj["wav"]) == Some(audio)
    ensures AllSaved(env.save, AudioOut(env.fx, audio, dir, obj["key"], types).exports)
    ensures Handle(env, scpLine, textLine, dataListLine, dir, types) ==
      Some(Entries(wavKey, wavPath, obj["txt"], AudioOut(env.fx, audio, dir, obj["key"], types)))
  {
    wavKey, wavPath := HandleIds(env, scpLine, textLine, dataListLine, dir, types);
    obj := env.json(Strip(dataListLine)).value;
    assert Handle(env, scpLine, textLine, dataListLine, dir, types) == HandleObj(env, wavKey, wavPath, obj, dir, types);
    audio := HandleObjSome(env, wavKey, wavPath, obj, dir, types);
  }

  lemma HandleIds(env: Env, scpLine: String, textLine: String, dataListLine: String, dir: String, types: seq<String>)
    returns (wavKey: String, wavPath: String)
    requires Handle(env, scpLine, textLine, dataListLine, dir, types).Some?
    ensures var parts := SplitMax1(Strip(scpLine)); |parts| == 2 && parts[0] == wavKey && parts[1] == wavPath
    ensures |SplitMax1(Strip(textLine))| == 2 && env.json(Strip(dataListLine)).Some?
  {
    var parts := SplitMax1(Strip(scpLine));
    wavKey, wavPath := parts[0], parts[1];
  }

  lemma HandleObjSome(env: Env, wavKey: String, wavPath: String, obj: map<String, String>, dir: String, types: seq<String>)
    returns (audio: Segment)
    requires HandleObj(env, wavKey, wavPath, obj, dir, types).Some?
    ensures "key" in obj && "wav" in obj && "txt" in obj && env.load(obj["wav"]) == Some(audio)
    ensures AllSaved(env.save, AudioOut(env.fx, audio, dir, obj["key"], types).exports)
    ensures HandleObj(env, wavKey, wavPath, obj, dir, types) ==
      Some(Entries(wavKey, wavPath, obj["txt"], AudioOut(env.fx, audio, dir, obj["key"], types)))
  {
    audio := env.load(obj["wav"]).value;
  }

  /** What `handle_line` gives is formed as intended. */
  lemma HandleFormed(env: Env, scpLine: String, textLine: String, dataListLine: String, dir: String, types: seq<String>)
    requires Handle(env, scpLine, textLine, dataListLine, dir, types).Some?
    ensures Formed(Handle(env, scpLine, textLine, dataListLine, dir, types).value)
  {
    var wavKey, wavPath, obj, audio := HandleSome(env, scpLine, textLine, dataListLine, dir, types);
    AudioOutSmall(env.fx, audio, dir, obj["key"], types);
  }

  lemma AudioOutSmall(fx: Effects, audio: Segment, dir: String, key: String, types: seq<String>)
    ensures |AudioOut(fx, audio, dir, key, types).files| <= 3
  {
  }

  lemma {:induction false} AugEntriesAt(wavKey: String, txt: String, files: seq<(String, String)>)
    ensures forall k :: 0 <= k < |files| ==> AugScp(wavKey, files)[k] == Line(AugId(files[k].0, wavKey), files[k].1)
    ensures forall k :: 0 <= k < |files| ==> AugText(wavKey, txt, files)[k] == Line(AugId(files[k].0, wavKey), txt)
    decreases |files|
  {
    if files != [] {
      AugEntriesAt(wavKey, txt, files[..|files| - 1]);
    }
  }

  /** Only the shape of the text line matters: any two text lines with two tokens give the same
      result, since the transcript is taken from data.list. */
  lemma TextLineUnused(env: Env, scpLine: String, textLine: String, textLine': String, dataListLine: String, dir: String, types: seq<String>)
    requires |SplitMax1(Strip(textLine))| == 2 && |SplitMax1(Strip(textLine'))| == 2
    ensures Handle(env, scpLine, textLine, dataListLine, dir, types) == Handle(env, scpLine, textLine', dataListLine, dir, types)
  {
  }

  /** Audio under a second is listed only as itself. */
  lemma ShortAudioOriginalOnly(env: Env, scpLine: String, textLine: String, dataListLine: String, dir: String, types: seq<String>)
    requires Handle(env, scpLine, textLine, dataListLine, dir, types).Some?
    requires env.load(env.json(Strip(dataListLine)).value["wav"]).value.ms < MinAugmentMs
    ensures var h := Handle(env, scpLine, textLine, dataListLine, dir, types).value;
      h.scpEntries == [Line(h.wavKey, h.wavPath)] && h.textEntries == [Line(h.wavKey, h.txt)] && h.out.exports == []
  {
    var wavKey, wavPath, obj, audio := HandleSome(env, scpLine, textLine, dataListLine, dir, types);
    ShortAudioNoCopies(env.fx, audio, dir, obj["key"], types);
    ShortEntries(wavKey, wavPath, obj["txt"]);
  }

  lemma ShortEntries(wavKey: String, wavPath: String, txt: String)
    ensures Entries(wavKey, wavPath, txt, AudioFiles([], [])) ==
      Handled(wavKey, txt, wavPath, [Line(wavKey, wavPath)], [Line(wavKey, txt)], AudioFiles([], []))
  {
  }

  // ---------------------------------------------------------------------------------------------
  // augment_data

  /** The copies' data.list records, in `output_files` order. */
  function AugRecords(wavKey: String, txt: String, files: seq<(String, String)>): (r: seq<DataEntry>)
    ensures |r| == |files|
  {
    if files == [] then []
    else AugRecords(wavKey, txt, files[..|files| - 1]) + [DataEntry(AugId(files[|files| - 1].0, wavKey), files[|files| - 1].1, txt)]
  }

  /** The data.list records of a handled line: the original first, then the copies. */
  function Records(h: Handled): (r: seq<DataEntry>)
    ensures |r| == |h.out.files| + 1
  {
    [DataEntry(h.wavKey, h.wavPath, h.txt)] + AugRecords(h.wavKey, h.txt, h.out.files)
  }

  /** Everything written: the three output manifests and the exported copies. */
  datatype Written = Written(wavScp: seq<String>, text: seq<String>, dataList: seq<DataEntry>, exports: seq<Export>)

  /** The results written in order, each one's wav.scp entries, text entries and records in turn. */
  function Emit(rs: seq<Handled>): Written {
    if rs == [] then Written([], [], [], [])
    else
      var w := Emit(rs[..|rs| - 1]);
      var h := rs[|rs| - 1];
      Written(w.wavScp + h.scpEntries, w.text + h.textEntries, w.dataList + Records(h), w.exports + h.out.exports)
  }

  /** `zip` of the three line lists: as long as the shortest. */
  function Zip3(a: seq<String>, b: seq<String>, c: seq<String>): (r: seq<(String, String, String)>)
    ensures |r| == Min3(|a|, |b|, |c|)
    ensures forall k :: 0 <= k < |r| ==> r[k] == (a[k], b[k], c[k])
  {
    seq(Min3(|a|, |b|, |c|), k requires 0 <= k < Min3(|a|, |b|, |c|) => (a[k], b[k], c[k]))
  }

  function Min3(x: nat, y: nat, z: nat): nat {
    if x <= y && x <= z then x else if y <= z then y else z
  }

  function HandleFn(env: Env, dir: String, types: seq<String>): ((String, String, String)) -> Option<Handled> {
    (t: (String, String, String)) => Handle(env, t.0, t.1, t.2, dir, types)
  }

  /** What a run does: the consistency report, and what it writes. */
  datatype Outcome = Outcome(report: CheckTrainData.Report, written: Written)

  /** `augment_data`, as a value: the copies go to `{output_dir}/wav`. */
  function Augmented(env: Env, scpLines: seq<String>, textLines: seq<String>, dataListLines: seq<String>,
                     outputDir: String, types: seq<String>): Outcome {
    Outcome(CheckTrainData.CheckDataConsistency(scpLines, textLines, dataListLines),
            Emit(FilterMap(HandleFn(env, PathJoin(outputDir, "wav"), types), Zip3(scpLines, textLines, dataListLines))))
  }

  /** `augment_data`: check the counts, handle each line triple in order and write what each
      handled triple gives. */
  method AugmentDataRun(env: Env, scpLines: seq<String>, textLines: seq<String>, dataListLines: seq<String>,
                        outputDir: String, types: seq<String>) returns (r: Outcome)
    ensures r == Augmented(env, scpLines, textLines, dataListLines, outputDir, types)
  {
    var dir := PathJoin(outputDir, "wav");
    var report := CheckTrainData.CheckDataConsistency(scpLines, textLines, dataListLines);
    var tasks := Zip3(scpLines, textLines, dataListLines);
    ghost var f := HandleFn(env, dir, types);
    ghost var results: seq<Handled> := [];
    var w := Written([], [], [], []);
    var i := 0;
    while i < |tasks|
      invariant 0 <= i <= |tasks|
      invariant results == FilterMap(f, tasks[..i]) && w == Emit(results)
    {
      FilterMapStep(f, tasks, i);
      var h := HandleLine(env, tasks[i].0, tasks[i].1, tasks[i].2, dir, types);
      if h.Some? {
        w := WriteResult(w, h.value);
        EmitSnoc(results, h.value);
        results := results + [h.value];
      }
      i := i + 1;
    }
    assert tasks[..|tasks|] == tasks;
    r := Outcome(report, w);
  }

  /** The body of the result loop: every wav.scp entry, every text entry, then the original's
      data.list record and one per copy. */
  method WriteResult(w: Written, h: Handled) returns (w': Written)
    ensures w' == Written(w.wavScp + h.scpEntries, w.text + h.textEntries, w.dataList + Records(h), w.exports + h.out.exports)
  {
    var records := [DataEntry(h.wavKey, h.wavPath, h.txt)];
    var files := h.out.files;
    var i := 0;
    while i < |files|
      invariant 0 <= i <= |files|
      invariant records == [DataEntry(h.wavKey, h.wavPath, h.txt)] + AugRecords(h.wavKey, h.txt, files[..i])
    {
      assert files[..i + 1][..i] == files[..i];
      records := records + [DataEntry(AugId(files[i].0, h.wavKey), files[i].1, h.txt)];
      i := i + 1;
    }
    assert files[..|files|] == files;
    w' := Written(w.wavScp + h.scpEntries, w.text + h.textEntries, w.dataList + records, w.exports + h.out.exports);
  }

  lemma EmitSnoc(rs: seq<Handled>, h: Handled)
    ensures Emit(rs + [h]) == Written(Emit(rs).wavScp + h.scpEntries, Emit(rs).text + h.textEntries,
                                      Emit(rs).dataList + Records(h), Emit(rs).exports + h.out.exports)
  {
    assert (rs + [h])[..|rs|] == rs;
  }

  /** Writing two result lists one after the other writes their concatenation: results keep their order. */
  lemma {:induction false} EmitAppend(xs: seq<Handled>, ys: seq<Handled>)
    ensures var a, b, c := Emit(xs), Emit(ys), Emit(xs + ys);
      c == Written(a.wavScp + b.wavScp, a.text + b.text, a.dataList + b.dataList, a.exports + b.exports)
    decreases |ys|
  {
    if ys == [] {
      assert xs + ys == xs;
    } else {
      var ys', h := ys[..|ys| - 1], ys[|ys| - 1];
      assert xs + ys == (xs + ys') + [h];
      assert ys == ys' + [h];
      EmitAppend(xs, ys');
      EmitSnoc(xs + ys', h);
      EmitSnoc(ys', h);
      var a, b := Emit(xs), Emit(ys');
      AppendAssoc(a.wavScp, b.wavScp, h.scpEntries);
      AppendAssoc(a.text, b.text, h.textEntries);
      AppendAssoc(a.dataList, b.dataList, Records(h));
      AppendAssoc(a.exports, b.exports, h.out.exports);
    }
  }

  /** In a handled line's data.list records the original comes first and the copies follow, while in
      its wav.scp entries the original comes last: the records list the wav.scp entries rotated by
      one. */
  lemma {:induction false} RecordsRotate(h: Handled)
    requires Formed(h)
    ensures |Records(h)| == |h.scpEntries|
    ensures Line(Records(h)[0].key, Records(h)[0].wav) == h.scpEntries[|h.scpEntries| - 1]
    ensures forall k :: 0 <= k < |h.out.files| ==> Line(Records(h)[k + 1].key, Records(h)[k + 1].wav) == h.scpEntries[k]
    ensures forall k :: 0 <= k < |Records(h)| ==> Records(h)[k].txt == h.txt
  {
    AugEntriesAt(h.wavKey, h.txt, h.out.files);
    AugRecordsAt(h.wavKey, h.txt, h.out.files);
  }

  lemma {:induction false} AugRecordsAt(wavKey: String, txt: String, files: seq<(String, String)>)
    ensures forall k :: 0 <= k < |files| ==> AugRecords(wavKey, txt, files)[k] == DataEntry(AugId(files[k].0, wavKey), files[k].1, txt)
    decreases |files|
  {
    if files != [] {
      AugRecordsAt(wavKey, txt, files[..|files| - 1]);
    }
  }

  /** Every result `handle_line` gives is formed as intended. */
  lemma {:induction false} HandledFormed(env: Env, dir: String, types: seq<String>, tasks: seq<(String, String, String)>)
    ensures forall h :: h in FilterMap(HandleFn(env, dir, types), tasks) ==> Formed(h)
  {
    forall h | h in FilterMap(HandleFn(env, dir, types), tasks) ensures Formed(h) {
      var i := FilterMapMembersAt(HandleFn(env, dir, types), tasks, h);
      HandleFormed(env, tasks[i].0, tasks[i].1, tasks[i].2, dir, types);
    }
  }

  lemma {:induction false} FilterMapMembersAt<A, B>(f: A -> Option<B>, xs: seq<A>, y: B) returns (i: nat)
    requires y in FilterMap(f, xs)
    ensures i < |xs| && f(xs[i]) == Some(y)
  {
    FilterMapMembers(f, xs, y);
    var j :| 0 <= j < |xs| && f(xs[j]) == Some(y);
    i := j;
  }

  /** Formed results write as many wav.scp lines as text lines as data.list records. */
  lemma {:induction false} EmitCounts(rs: seq<Handled>)
    requires forall h :: h in rs ==> Formed(h)
    ensures |Emit(rs).wavScp| == |Emit(rs).text| == |Emit(rs).dataList|
    ensures |rs| <= |Emit(rs).wavScp| <= 4 * |rs|
    decreases |rs|
  {
    if rs != [] {
      var h := rs[|rs| - 1];
      assert h in rs;
      EmitCounts(rs[..|rs| - 1]);
    }
  }

  /** The three output manifests of a run have the same length, between one and four lines per
      handled triple. */
  lemma AugmentedCounts(env: Env, scpLines: seq<String>, textLines: seq<String>, dataListLines: seq<String>, outputDir: String, types: seq<String>)
    ensures var w := Augmented(env, scpLines, textLines, dataListLines, outputDir, types).written;
      var handled := FilterMap(HandleFn(env, PathJoin(outputDir, "wav"), types), Zip3(scpLines, textLines, dataListLines));
      |w.wavScp| == |w.text| == |w.dataList| && |handled| <= |w.wavScp| <= 4 * |handled|
  {
    var tasks := Zip3(scpLines, textLines, dataListLines);
    HandledFormed(env, PathJoin(outputDir, "wav"), types, tasks);
    EmitCounts(FilterMap(HandleFn(env, PathJoin(outputDir, "wav"), types), tasks));
  }

  /** Tasks are zipped: lines past the end of the shortest file are never read, and a count
      mismatch changes nothing that is written. */
  lemma ZipIgnoresExtra(env: Env, scpLines: seq<String>, textLines: seq<String>, dataListLines: seq<String>, outputDir: String, types: seq<String>)
    ensures var n := Min3(|scpLines|, |textLines|, |dataListLines|);
      Augmented(env, scpLines, textLines, dataListLines, outputDir, types).written ==
      Augmented(env, scpLines[..n], textLines[..n], dataListLines[..n], outputDir, types).written
    ensures Augmented(env, scpLines, textLines, dataListLines, outputDir, types).report ==
      CheckTrainData.CheckDataConsistency(scpLines, textLines, dataListLines)
  {
    var n := Min3(|scpLines|, |textLines|, |dataListLines|);
    assert Zip3(scpLines, textLines, dataListLines) == Zip3(scpLines[..n], textLines[..n], dataListLines[..n]);
  }
}
