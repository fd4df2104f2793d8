/**
  process_text/norm-text.py: `process_file` reads `wav.scp` into a dict, then copies the `ref`
  transcript file as Kaldi text, with the spaces of each transcript removed, `.wav` removed from the
  id, and only the ids `wav.scp` knows.
*/
module NormText {
  import opened Wrappers
  import opened PyStr
  import opened Seqs

  /** `clean_text`: `text.replace(" ", "")`. */
  function CleanText(text: String): (r: String)
    ensures ' ' !in r && |r| <= |text|
    ensures r == Without(text, ' ')
  {
    ReplaceCharByNothing(text, ' ');
    ReplaceAll(text, " ", "")
  }

  /** Cleaning keeps every character other than a space, in order: it distributes over concatenation. */
  lemma {:induction false} CleanTextAppend(a: String, b: String)
    ensures CleanText(a + b) == CleanText(a) + CleanText(b)
    decreases |a|
  {
    if a == [] {
      assert a + b == b;
    } else {
      assert (a + b)[1..] == a[1..] + b;
      CleanTextAppend(a[1..], b);
    }
  }

  /** A transcript without spaces is left as it is. */
  lemma {:induction false} CleanTextNoSpace(text: String)
    requires ' ' !in text
    ensures CleanText(text) == text
    decreases |text|
  {
    if text != [] {
      assert ' ' !in text[1..];
      CleanTextNoSpace(text[1..]);
    }
  }

  /** `wav_dict`: later lines replace earlier ones. */
  function WavDict(lines: seq<String>): map<String, String>
  {
    MapOf(FilterMap(TwoTokens, lines))
  }

  /** The first loop of `process_file`. */
  method ReadWavDict(lines: seq<String>) returns (d: map<String, String>)
    ensures d == WavDict(lines)
  {
    d := MapOfLoop(TwoTokens, lines);
  }

  /** The id `wav.scp` entries are looked up by: every `.wav` removed. */
  function LookupKey(id: String): String
  {
    ReplaceAll(id, ".wav", "")
  }

  /** One transcript line: the line written for it, if any. */
  function OutLine(d: map<String, String>, line: String): (r: Option<String>)
    ensures r.Some? <==> IdAndRest(line).Some? && LookupKey(IdAndRest(line).value.0) in d
  {
    match IdAndRest(line)
    case None => None
    case Some((id, text)) =>
      var key := LookupKey(id);
      if key in d then Some(key + " " + CleanText(text) + "\n") else None
  }

  function OutLineFn(d: map<String, String>): String -> Option<String>
  {
    line => OutLine(d, line)
  }

  /** `process_file`: the lines of `kaldi_text`. */
  method ProcessFile(wavLines: seq<String>, textLines: seq<String>) returns (out: seq<String>)
    ensures out == FilterMap(OutLineFn(WavDict(wavLines)), textLines)
  {
    var d := ReadWavDict(wavLines);
    out := FilterMapLoop(OutLineFn(d), textLines);
  }

  /** An id is in `wav_dict` exactly when some `wav.scp` line is an entry for it. */
  lemma WavDictKeys(lines: seq<String>, key: String)
    ensures key in WavDict(lines) <==> exists k :: 0 <= k < |lines| && TwoTokens(lines[k]).Some? && TwoTokens(lines[k]).value.0 == key
  {
    var entries := FilterMap(TwoTokens, lines);
    MapOfKeys(entries, key);
    if key in WavDict(lines) {
      var j :| 0 <= j < |entries| && entries[j].0 == key;
      FilterMapMembers(TwoTokens, lines, entries[j]);
    }
    if exists k :: 0 <= k < |lines| && TwoTokens(lines[k]).Some? && TwoTokens(lines[k]).value.0 == key {
      var k :| 0 <= k < |lines| && TwoTokens(lines[k]).Some? && TwoTokens(lines[k]).value.0 == key;
      var e := TwoTokens(lines[k]).value;
      FilterMapMembers(TwoTokens, lines, e);
    }
  }

  /** A later `wav.scp` entry for an id replaces an earlier one. */
  lemma WavDictLastWins(lines: seq<String>, j: nat, key: String, path: String)
    requires j < |lines| && TwoTokens(lines[j]) == Some((key, path))
    requires forall i :: j < i < |lines| ==> !(TwoTokens(lines[i]).Some? && TwoTokens(lines[i]).value.0 == key)
    ensures key in WavDict(lines) && WavDict(lines)[key] == path
  {
    FilterMapLastWins(TwoTokens, lines, j);
  }

  /** A transcript line `id text` is written, as `key cleaned`, exactly when its lookup key is in
      `wav_dict`. */
  lemma OutLineEntry(d: map<String, String>, id: String, text: String, tail: String)
    requires id != [] && NoSpace(id) && text != [] && !IsSpace(text[0]) && !IsSpace(text[|text| - 1])
    requires AllSpace(tail)
    ensures OutLine(d, id + " " + text + tail) == if LookupKey(id) in d then Some(LookupKey(id) + " " + CleanText(text) + "\n") else None
  {
    IdAndRestOf(id, text, tail);
  }

  /** A transcript line without a text after its id is skipped. */
  lemma NoTextSkipped(d: map<String, String>, line: String)
    requires |Split(Strip(line))| < 2
    ensures OutLine(d, line) == None
  {
    FewTokensNoEntry(line);
  }

  /** An id without `.wav` is looked up as it is, and `base.wav` as `base` when `.wav` occurs only at
      its end. */
  lemma LookupKeyOf(base: String)
    ensures !Contains(base, ".wav") ==> LookupKey(base) == base
    ensures (forall i :: 0 <= i < |base| ==> !OccursAt(base + ".wav", ".wav", i)) ==> LookupKey(base + ".wav") == base
  {
    if !Contains(base, ".wav") {
      ReplaceAbsent(base, ".wav", "");
    }
    if forall i :: 0 <= i < |base| ==> !OccursAt(base + ".wav", ".wav", i) {
      ReplaceSuffix(base, ".wav", []);
    }
  }

  /** Every written line is the output of some transcript line, and the output follows the transcript
      file's order. */
  lemma ProcessFileOrder(d: map<String, String>, textLines: seq<String>, y: String)
    ensures y in FilterMap(OutLineFn(d), textLines) <==> exists k :: 0 <= k < |textLines| && OutLine(d, textLines[k]) == Some(y)
  {
    FilterMapMembers(OutLineFn(d), textLines, y);
  }
}
