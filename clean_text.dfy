/**
  process_text/clean-text.py: `clean_text_file` copies a Kaldi `text` file, dropping every line whose
  transcript is missing or a single character. Kept lines are copied verbatim, newline included.
*/
module CleanText {
  import opened PyStr
  import opened Seqs

  /** The test of the loop: `line.strip().split(maxsplit=1)` has an id and a transcript, and the
      transcript is longer than one character. */
  predicate Keep(line: String) {
    IdAndRest(line).Some? && |IdAndRest(line).value.1| > 1
  }

  /** `clean_text_file`: the lines written, in order. */
  method CleanTextFile(lines: seq<String>) returns (out: seq<String>)
    ensures out == Filter(Keep, lines)
  {
    out := [];
    var i := 0;
    while i < |lines|
      invariant 0 <= i <= |lines|
      invariant out == Filter(Keep, lines[..i])
    {
      KeepStep(lines, i);
      if Keep(lines[i]) {
        out := out + [lines[i]];
      }
      i := i + 1;
    }
    assert lines[..|lines|] == lines;
  }

  lemma KeepStep(lines: seq<String>, i: nat)
    requires i < |lines|
    ensures Keep(lines[i]) ==> Filter(Keep, lines[..i + 1]) == Filter(Keep, lines[..i]) + [lines[i]]
    ensures !Keep(lines[i]) ==> Filter(Keep, lines[..i + 1]) == Filter(Keep, lines[..i])
  {
    FilterStep(Keep, lines, i);
  }

  /** A line `id transcript` (with its newline) is kept exactly when the transcript has more than one
      character. */
  lemma KeepEntry(id: String, text: String, tail: String)
    requires id != [] && NoSpace(id) && text != [] && !IsSpace(text[0]) && !IsSpace(text[|text| - 1])
    requires AllSpace(tail)
    ensures Keep(id + " " + text + tail) <==> |text| > 1
  {
    IdAndRestOf(id, text, tail);
  }

  /** A line with fewer than two tokens after stripping is dropped. */
  lemma FewTokensDropped(line: String)
    requires |Split(Strip(line))| < 2
    ensures !Keep(line)
  {
    FewTokensNoEntry(line);
  }

  /** The output holds exactly the input lines that pass the test, unchanged. */
  lemma CleanMembers(lines: seq<String>, line: String)
    ensures line in Filter(Keep, lines) <==> line in lines && Keep(line)
  {
    FilterMembers(Keep, lines, line);
  }

  /** The output is a subsequence of the input: the kept lines keep their order. */
  lemma CleanKeepsOrder(lines: seq<String>) returns (idx: seq<nat>)
    ensures Embeds(Filter(Keep, lines), lines, idx)
  {
    idx := FilterSubsequence(Keep, lines);
  }

  /** Cleaning a cleaned file changes nothing. */
  lemma CleanIdempotent(lines: seq<String>)
    ensures Filter(Keep, Filter(Keep, lines)) == Filter(Keep, lines)
  {
    FilterIdempotent(Keep, lines);
  }
}
