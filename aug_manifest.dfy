/**
  The manifests of the interferer-mixing augmenter (augment_data_2.py): reading Kaldi-style
  `wav.scp` and `text` files, and writing the output `wav.scp` / `text` pair for the produced copies.
  A file is the sequence of lines Python iterates over, each with its trailing newline.
*/
module AugManifest {
  import opened Wrappers
  import opened PyStr
  import opened Seqs

  /** One `utt path` entry of an scp manifest. */
  datatype Pair = Pair(utt: String, path: String)

  /** One produced augmented copy: its utterance id, the path of its wav file and its transcript. */
  datatype Produced = Produced(utt: String, path: String, text: String)

  // ---------------------------------------------------------------------------------------------
  // read_scp

  /** What `read_scp` keeps of one line: nothing for a blank line, a `#` comment or a single token. */
  function ScpEntry(line: String): Option<Pair>
  {
    ScpFields(Strip(line))
  }

  /** The entry of a stripped line. */
  function ScpFields(t: String): Option<Pair>
  {
    if t == [] || StartsWith(t, "#") then None
    else
      var parts := SplitMax1(t);
      if |parts| != 2 then None else Some(Pair(parts[0], parts[1]))
  }

  /** `read_scp` of a whole file: the kept entries, in file order, duplicates included. */
  function ScpPairs(lines: seq<String>): seq<Pair>
  {
    FilterMap(ScpEntry, lines)
  }

  /** What a stripped line keeps: it is kept exactly when it is non-empty, is not a comment and has two
      or more tokens; the entry is its first token and the rest after the whitespace that follows it. */
  predicate ScpFieldsSpec(t: String, r: Option<Pair>) {
    && (r.Some? <==> (t != [] && !StartsWith(t, "#") && |Split(t)| >= 2))
    && (r.Some? ==>
          && r.value.utt == Split(t)[0] && r.value.utt != [] && NoSpace(r.value.utt)
          && SplitsAt(t, r.value.utt, r.value.path)
          && r.value.path != [] && !IsSpace(r.value.path[0]) && !IsSpace(r.value.path[|r.value.path| - 1]))
  }

  lemma ScpFieldsMeaning(t: String)
    requires t == [] || (!IsSpace(t[0]) && !IsSpace(t[|t| - 1]))
    ensures ScpFieldsSpec(t, ScpFields(t))
  {
    if t == [] || StartsWith(t, "#") {
      assert ScpFields(t) == None;
    } else if |SplitMax1(t)| != 2 {
      assert ScpFields(t) == None;
      assert |Split(t)| < 2;
    } else {
      ScpFieldsKept(t, SplitMax1(t));
    }
  }

  lemma ScpFieldsKept(t: String, parts: seq<String>)
    requires t != [] && !IsSpace(t[0]) && !IsSpace(t[|t| - 1]) && !StartsWith(t, "#")
    requires parts == SplitMax1(t) && |parts| == 2
    ensures ScpFieldsSpec(t, ScpFields(t))
  {
    assert ScpFields(t) == Some(Pair(parts[0], parts[1]));
    assert |Split(t)| >= 2 && parts[0] == Split(t)[0] && NoSpace(parts[0]);
    assert SplitsAt(t, parts[0], parts[1]) by {
      assert LStrip(t) == t;
      SplitMax1Parts(t);
    }
    SplitsAtLast(t, parts[0], parts[1]);
  }

  /** A line is kept exactly when, stripped, it is non-empty, is not a comment and has two or more
      tokens; the entry is its first token and the rest after the whitespace that follows it. */
  lemma ScpEntryMeaning(line: String)
    ensures ScpFieldsSpec(Strip(line), ScpEntry(line))
  {
    ScpFieldsMeaning(Strip(line));
  }

  lemma SplitsAtLast(t: String, a: String, b: String)
    requires SplitsAt(t, a, b) && b != []
    ensures b[|b| - 1] == t[|t| - 1]
  {
    assert b[|b| - 1] == t[|t| - |b|..][|b| - 1];
  }

  /** Entries come out in file order: reading two files one after the other gives the entries of the
      first, then those of the second. */
  lemma ScpPairsAppend(a: seq<String>, b: seq<String>)
    ensures ScpPairs(a + b) == ScpPairs(a) + ScpPairs(b)
  {
    FilterMapAppend(ScpEntry, a, b);
  }

  /** Every entry comes from a kept line, and every kept line gives an entry. */
  lemma ScpPairsMembers(lines: seq<String>, p: Pair)
    ensures p in ScpPairs(lines) <==> exists k :: 0 <= k < |lines| && ScpEntry(lines[k]) == Some(p)
  {
    FilterMapMembers(ScpEntry, lines, p);
  }

  /** `read_scp`: the loop over the file's lines, appending each kept entry. */
  method ReadScp(lines: seq<String>) returns (pairs: seq<Pair>)
    ensures pairs == ScpPairs(lines)
  {
    pairs := [];
    var i := 0;
    while i < |lines|
      invariant 0 <= i <= |lines|
      invariant pairs == ScpPairs(lines[..i])
    {
      FilterMapStep(ScpEntry, lines, i);
      var entry := ScpEntry(lines[i]);
      if entry.Some? {
        pairs := pairs + [entry.value];
      }
      i := i + 1;
    }
    assert lines[..|lines|] == lines;
  }

  // ---------------------------------------------------------------------------------------------
  // read_text

  /** What `read_text` makes of one line. Only newlines are stripped, so a line of other whitespace
      reaches `split()[0]` with nothing to read and raises IndexError; a single token maps to `""`. */
  function TextEntry(line: String): Result<Option<(String, String)>>
  {
    var l := StripChar(line, '\n');
    if l == [] || StartsWith(l, "#") then Ok(None)
    else
      var parts := SplitMax1(l);
      if |parts| == 0 then Err(IndexError)
      else if |parts| == 1 then Ok(Some((parts[0], "")))
      else Ok(Some((parts[0], parts[1])))
  }

  /** `read_text` of a whole file; a later line for the same id replaces an earlier one. */
  function TextMap(lines: seq<String>): Result<map<String, String>>
  {
    CollectMap(TextEntry, lines)
  }

  /** The lines that make `read_text` raise: non-empty once newlines are stripped, and all whitespace. */
  predicate BadTextLine(line: String) {
    var l := StripChar(line, '\n');
    l != [] && AllSpace(l)
  }

  lemma TextEntryFails(line: String)
    ensures TextEntry(line).Err? <==> BadTextLine(line)
    ensures TextEntry(line).Err? ==> TextEntry(line).error == IndexError
  {
    var l := StripChar(line, '\n');
    if l != [] && AllSpace(l) {
      assert IsSpace(l[0]);
      assert !StartsWith(l, "#");
    }
  }

  /** `read_text` raises IndexError exactly when some line is whitespace other than newlines only. */
  lemma TextMapFails(lines: seq<String>)
    ensures TextMap(lines).Err? <==> exists k :: 0 <= k < |lines| && BadTextLine(lines[k])
    ensures TextMap(lines).Err? ==> TextMap(lines).error == IndexError
  {
    CollectMapFails(TextEntry, lines);
    forall k | 0 <= k < |lines| ensures TextEntry(lines[k]).Err? <==> BadTextLine(lines[k]) {
      TextEntryFails(lines[k]);
    }
    if TextMap(lines).Err? {
      var k :| 0 <= k < |lines| && TextEntry(lines[k]) == Err(TextMap(lines).error);
      TextEntryFails(lines[k]);
    }
  }

  /** The transcript `read_text` keeps for an id is the one on the last line that names it. */
  lemma TextMapLastWins(lines: seq<String>, k: nat, utt: String, text: String)
    requires k < |lines| && TextMap(lines).Ok?
    requires TextEntry(lines[k]) == Ok(Some((utt, text)))
    requires forall j :: k < j < |lines| ==> !(TextEntry(lines[j]).Ok? && TextEntry(lines[j]).value.Some?
                                              && TextEntry(lines[j]).value.value.0 == utt)
    ensures utt in TextMap(lines).value && TextMap(lines).value[utt] == text
  {
    CollectMapLastWins(TextEntry, lines, k, utt, text);
  }

  /** `read_text`: the loop over the file's lines, storing each entry into the dict. */
  method ReadText(lines: seq<String>) returns (res: Result<map<String, String>>)
    ensures res == TextMap(lines)
  {
    var pairs: map<String, String> := map[];
    var i := 0;
    while i < |lines|
      invariant 0 <= i <= |lines|
      invariant TextMap(lines[..i]) == Ok(pairs)
    {
      assert lines[..i + 1][..i] == lines[..i];
      var entry := TextEntry(lines[i]);
      if entry.Err? {
        assert TextMap(lines[..i + 1]) == Err(entry.error);
        CollectMapErrPersists(TextEntry, lines, i + 1);
        return Err(entry.error);
      }
      if entry.value.Some? {
        pairs := pairs[entry.value.value.0 := entry.value.value.1];
      }
      i := i + 1;
    }
    assert lines[..|lines|] == lines;
    return Ok(pairs);
  }

  // ---------------------------------------------------------------------------------------------
  // writing the output manifests

  function ScpLine(p: Produced): String { p.utt + " " + p.path + "\n" }
  function TextLine(p: Produced): String { p.utt + " " + p.text + "\n" }

  /** The loop over the results that writes one `wav.scp` line and one `text` line per produced copy. */
  method WriteManifests(results: seq<Produced>) returns (scp: seq<String>, text: seq<String>)
    ensures |scp| == |text| == |results|
    ensures forall k :: 0 <= k < |results| ==> scp[k] == ScpLine(results[k]) && text[k] == TextLine(results[k])
  {
    scp, text := [], [];
    for k := 0 to |results|
      invariant |scp| == |text| == k
      invariant forall j :: 0 <= j < k ==> scp[j] == ScpLine(results[j]) && text[j] == TextLine(results[j])
    {
      scp := scp + [ScpLine(results[k])];
      text := text + [TextLine(results[k])];
    }
  }

  /** Both output files list the same ids in the same order: the first token of the k-th `wav.scp`
      line and of the k-th `text` line is the k-th result's id. */
  lemma ManifestsAligned(results: seq<Produced>, scp: seq<String>, text: seq<String>, k: nat)
    requires |scp| == |text| == |results| && k < |results|
    requires forall j :: 0 <= j < |results| ==> scp[j] == ScpLine(results[j]) && text[j] == TextLine(results[j])
    requires results[k].utt != [] && NoSpace(results[k].utt)
    ensures Token(scp[k]) == results[k].utt && Token(text[k]) == results[k].utt
  {
    var u := results[k].utt;
    assert scp[k] == u + (" " + results[k].path + "\n");
    assert text[k] == u + (" " + results[k].text + "\n");
    TokenOfWord(u, " " + results[k].path + "\n");
    TokenOfWord(u, " " + results[k].text + "\n");
  }
}
