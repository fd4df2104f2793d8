/**
  process_audio/check_audio_wenet.py: checks that a WeNet data directory's `wav.scp` durations, read
  from the utterance ids, lie within bounds, and that every `text` line has an id and a transcript of
  an allowed number of words. Durations are integer milliseconds; the script scales each time by
  0.001 and compares seconds with bounds given in seconds.
*/
module CheckAudioWenet {
  import opened Wrappers
  import opened PyStr
  import opened Digits
  import opened Seqs
  import opened IdTimes

  // ---------------------------------------------------------------------------------------------
  // calculate_duration_from_key

  /** The start and end groups of `-(\d+)-(\d+)(?:-[A-Za-z0-9]*)?$`, if the id matches. */
  function KeyTimes(id: String): (r: Option<(String, String)>)
    ensures r.Some? ==> AllDigits(r.value.0) && AllDigits(r.value.1)
  {
    Times(OptionalTag, id)
  }

  /** `calculate_duration_from_key`: end minus start, when the pattern matches and the difference is
      positive. */
  function DurationFromKey(id: String): (r: Option<int>)
    ensures r.Some? ==> r.value > 0
    ensures r.Some? <==> KeyTimes(id).Some? && Value(KeyTimes(id).value.1) > Value(KeyTimes(id).value.0)
  {
    match KeyTimes(id)
    case None => None
    case Some((start, end)) =>
      var d := Value(end) - Value(start);
      if d > 0 then Some(d) else None
  }

  /** The leftmost match wins: in `x-1-2-3` the tag `-3` is optional, so the match at the first dash
      reads start 1 and end 2, a duration of 1 ms. */
  lemma LeftmostExample()
    ensures KeyTimes("x-1-2-3") == Some(("1", "2")) && DurationFromKey("x-1-2-3") == Some(1)
  {
    OptionalTagExample();
    assert Value("1") == 1 && Value("2") == 2;
  }

  /** An id `base-start-end` or `base-start-end-tag`, with a dash-free base, a tag of letters and
      digits, and start and end numerals, has the duration end minus start when that is positive,
      and none otherwise. */
  lemma DurationOf(base: String, start: String, end: String, tail: String)
    requires '-' !in base && start != [] && AllDigits(start) && end != [] && AllDigits(end)
    requires tail == [] || (tail[0] == '-' && AllAlnum(tail[1..]))
    ensures DurationFromKey(base + "-" + start + "-" + end + tail) ==
      if Value(end) > Value(start) then Some(Value(end) - Value(start)) else None
  {
    TimesOf(OptionalTag, base, start, end, tail);
  }

  // ---------------------------------------------------------------------------------------------
  // check_wav_scp

  /** One `wav.scp` line: the id and its duration, when the line has an id and a path and the id a
      duration. */
  function WavItem(line: String): (r: Option<(String, int)>)
    ensures r.Some? ==> r.value.1 > 0
  {
    match IdAndRest(line)
    case None => None
    case Some((id, _)) =>
      match DurationFromKey(id)
      case None => None
      case Some(d) => Some((id, d))
  }

  function WavItemFn(): String -> Option<(String, int)>
  {
    line => WavItem(line)
  }

  /** The lines that take part in the check. */
  function WavItems(lines: seq<String>): seq<(String, int)>
  {
    FilterMap(WavItemFn(), lines)
  }

  /** `duration < min_length or duration > max_length` */
  function OutOfRange(lo: int, hi: int): ((String, int)) -> bool
  {
    (it: (String, int)) => it.1 < lo || it.1 > hi
  }

  /** What `check_wav_scp` reports: the line count, `total_time`, `invalid_wav` and its answer. */
  datatype WavReport = WavReport(lines: nat, totalMs: int, invalid: seq<(String, int)>, ok: bool)

  /** `check_wav_scp` */
  method CheckWavScp(lines: seq<String>, minMs: int, maxMs: int) returns (r: WavReport)
    ensures r.lines == |lines| && r.totalMs == SumItems(WavItems(lines))
    ensures r.invalid == Filter(OutOfRange(minMs, maxMs), WavItems(lines))
    ensures r.ok <==> r.invalid == []
  {
    var total, invalid := ScanDurations(WavItemFn(), lines, minMs, maxMs);
    r := WavReport(|lines|, total, invalid, |invalid| == 0);
  }

  /** The loop of `check_wav_scp` for any reading of a line. */
  method ScanDurations<A>(f: A -> Option<(String, int)>, lines: seq<A>, lo: int, hi: int)
    returns (total: int, invalid: seq<(String, int)>)
    ensures total == SumItems(FilterMap(f, lines))
    ensures invalid == Filter(OutOfRange(lo, hi), FilterMap(f, lines))
  {
    ghost var items: seq<(String, int)> := [];
    total, invalid := 0, [];
    var i := 0;
    while i < |lines|
      invariant 0 <= i <= |lines|
      invariant items == FilterMap(f, lines[..i])
      invariant total == SumItems(items) && invalid == Filter(OutOfRange(lo, hi), items)
    {
      FilterMapStep(f, lines, i);
      var it := f(lines[i]);
      if it.Some? {
        var (id, duration) := it.value;
        SumItemsStep(items, it.value);
        FilterSnoc(OutOfRange(lo, hi), items, it.value);
        items := items + [it.value];
        total := total + duration;
        if duration < lo || duration > hi {
          invalid := invalid + [(id, duration)];
        }
      }
      i := i + 1;
    }
    assert lines[..|lines|] == lines;
  }

  /** Nothing is kept exactly when nothing passes. */
  lemma FilterEmpty<A>(p: A -> bool, xs: seq<A>)
    ensures Filter(p, xs) == [] <==> forall x :: x in xs ==> !p(x)
  {
    if Filter(p, xs) != [] {
      FilterMembers(p, xs, Filter(p, xs)[0]);
    }
    if exists x :: x in xs && p(x) {
      var x :| x in xs && p(x);
      FilterMembers(p, xs, x);
    }
  }

  /** The answer is True exactly when every parsed duration lies in `[min_length, max_length]`, and
      only parsed durations are summed. */
  lemma WavOk(lines: seq<String>, minMs: int, maxMs: int)
    ensures Filter(OutOfRange(minMs, maxMs), WavItems(lines)) == [] <==>
      forall it :: it in WavItems(lines) ==> minMs <= it.1 <= maxMs
  {
    FilterEmpty(OutOfRange(minMs, maxMs), WavItems(lines));
  }

  /** The items checked are the lines, in order, that have an id, a path and a duration. */
  lemma WavItemsMembers(lines: seq<String>, it: (String, int))
    ensures it in WavItems(lines) <==> exists k :: 0 <= k < |lines| && WavItem(lines[k]) == Some(it)
  {
    FilterMapMembers(WavItemFn(), lines, it);
  }

  /** A line `id path` is checked with the duration of its id, and skipped when the id has none. */
  lemma WavItemOf(id: String, path: String, tail: String)
    requires id != [] && NoSpace(id) && path != [] && !IsSpace(path[0]) && !IsSpace(path[|path| - 1])
    requires AllSpace(tail)
    ensures WavItem(id + " " + path + tail) == if DurationFromKey(id).Some? then Some((id, DurationFromKey(id).value)) else None
  {
    IdAndRestOf(id, path, tail);
  }

  /** A line with fewer than two tokens is skipped. */
  lemma WavShortLine(line: String)
    requires |Split(Strip(line))| < 2
    ensures WavItem(line) == None
  {
    FewTokensNoEntry(line);
  }

  // ---------------------------------------------------------------------------------------------
  // check_text_file

  /** One `text` line: its id and the number of words of its transcript, or None for a format
      error. */
  function TextItem(line: String): (r: Option<(String, nat)>)
    ensures r.Some? <==> IdAndRest(line).Some?
    ensures r.Some? ==> r == Some((IdAndRest(line).value.0, |Split(IdAndRest(line).value.1)|))
  {
    match IdAndRest(line)
    case None => None
    case Some((id, rest)) => Some((id, |Split(rest)|))
  }

  function TextItemFn(): String -> Option<(String, nat)>
  {
    line => TextItem(line)
  }

  /** The 1-based numbers of the lines a reading rejects, each with what `show` makes of it. */
  function Rejected<A, B>(f: A -> Option<B>, show: A -> String, lines: seq<A>): seq<(nat, String)>
  {
    if lines == [] then []
    else
      var n := |lines|;
      Rejected(f, show, lines[..n - 1]) + (if f(lines[n - 1]).None? then [(n, show(lines[n - 1]))] else [])
  }

  /** The readings whose count falls outside `[lo, hi]`. */
  function OutOfBounds<A>(f: A -> Option<(String, nat)>, lines: seq<A>, lo: int, hi: int): seq<(String, nat)>
  {
    if lines == [] then []
    else
      var n := |lines|;
      var rest := OutOfBounds(f, lines[..n - 1], lo, hi);
      var r := f(lines[n - 1]);
      if r.Some? && (r.value.1 < lo || r.value.1 > hi) then rest + [r.value] else rest
  }

  /** `format_errors`: the number and the stripped text of each line without id and transcript. */
  function FormatErrors(lines: seq<String>): seq<(nat, String)>
  {
    Rejected(TextItemFn(), Strip, lines)
  }

  /** `invalid_texts`: each id whose word count is outside `[token_min_length, token_max_length]`. */
  function InvalidTexts(lines: seq<String>, lo: int, hi: int): seq<(String, nat)>
  {
    OutOfBounds(TextItemFn(), lines, lo, hi)
  }

  /** What `check_text_file` reports: `total_texts`, the two lists and its answer. */
  datatype TextReport = TextReport(total: nat, formatErrors: seq<(nat, String)>, invalid: seq<(String, nat)>, ok: bool)

  /** `check_text_file` */
  method CheckTextFile(lines: seq<String>, tokenMin: int, tokenMax: int) returns (r: TextReport)
    ensures r.total == |lines| && r.formatErrors == FormatErrors(lines) && r.invalid == InvalidTexts(lines, tokenMin, tokenMax)
    ensures r.ok <==> r.formatErrors == [] && r.invalid == []
  {
    var formatErrors, invalid := ScanTexts(TextItemFn(), Strip, lines, tokenMin, tokenMax);
    r := TextReport(|lines|, formatErrors, invalid, |formatErrors| == 0 && |invalid| == 0);
  }

  /** The loop of `check_text_file` for any reading of a line. */
  method ScanTexts<A>(f: A -> Option<(String, nat)>, show: A -> String, lines: seq<A>, lo: int, hi: int)
    returns (formatErrors: seq<(nat, String)>, invalid: seq<(String, nat)>)
    ensures formatErrors == Rejected(f, show, lines) && invalid == OutOfBounds(f, lines, lo, hi)
  {
    formatErrors, invalid := [], [];
    var i := 0;
    while i < |lines|
      invariant 0 <= i <= |lines|
      invariant formatErrors == Rejected(f, show, lines[..i]) && invalid == OutOfBounds(f, lines[..i], lo, hi)
    {
      assert lines[..i + 1][..i] == lines[..i];
      var item := f(lines[i]);
      if item.None? {
        formatErrors := formatErrors + [(i + 1, show(lines[i]))];
      } else {
        var (id, len) := item.value;
        if len < lo || len > hi {
          invalid := invalid + [(id, len)];
        }
      }
      i := i + 1;
    }
    assert lines[..|lines|] == lines;
  }

  /** A rejection is reported for exactly the rejected lines, by line number. */
  lemma {:induction false} RejectedMembers<A, B>(f: A -> Option<B>, show: A -> String, lines: seq<A>, k: nat, t: String)
    ensures (k, t) in Rejected(f, show, lines) <==> 1 <= k <= |lines| && f(lines[k - 1]).None? && t == show(lines[k - 1])
    decreases |lines|
  {
    if lines != [] {
      var init := lines[..|lines| - 1];
      RejectedMembers(f, show, init, k, t);
      if 1 <= k <= |init| {
        assert init[k - 1] == lines[k - 1];
      }
    }
  }

  /** A violation is reported for exactly the accepted lines whose count is out of range. */
  lemma {:induction false} OutOfBoundsMembers<A>(f: A -> Option<(String, nat)>, lines: seq<A>, lo: int, hi: int, e: (String, nat))
    ensures e in OutOfBounds(f, lines, lo, hi) <==> exists k :: 0 <= k < |lines| && f(lines[k]) == Some(e) && (e.1 < lo || e.1 > hi)
    decreases |lines|
  {
    if lines != [] {
      var init := lines[..|lines| - 1];
      OutOfBoundsMembers(f, init, lo, hi, e);
      if exists k :: 0 <= k < |lines| && f(lines[k]) == Some(e) && (e.1 < lo || e.1 > hi) {
        var k :| 0 <= k < |lines| && f(lines[k]) == Some(e) && (e.1 < lo || e.1 > hi);
        if k < |init| {
          assert init[k] == lines[k];
        }
      }
      if exists k :: 0 <= k < |init| && f(init[k]) == Some(e) && (e.1 < lo || e.1 > hi) {
        var k :| 0 <= k < |init| && f(init[k]) == Some(e) && (e.1 < lo || e.1 > hi);
        assert lines[k] == init[k];
      }
    }
  }

  /** Both lists are empty exactly when every line is accepted with a count in range. */
  lemma ScanOk<A>(f: A -> Option<(String, nat)>, show: A -> String, lines: seq<A>, lo: int, hi: int)
    ensures (Rejected(f, show, lines) == [] && OutOfBounds(f, lines, lo, hi) == []) <==>
      forall k :: 0 <= k < |lines| ==> f(lines[k]).Some? && lo <= f(lines[k]).value.1 <= hi
  {
    if Rejected(f, show, lines) == [] && OutOfBounds(f, lines, lo, hi) == [] {
      forall k | 0 <= k < |lines| ensures f(lines[k]).Some? && lo <= f(lines[k]).value.1 <= hi {
        RejectedMembers(f, show, lines, k + 1, show(lines[k]));
        if f(lines[k]).Some? {
          OutOfBoundsMembers(f, lines, lo, hi, f(lines[k]).value);
        }
      }
    }
    if Rejected(f, show, lines) != [] {
      var e := Rejected(f, show, lines)[0];
      RejectedMembers(f, show, lines, e.0, e.1);
    }
    if OutOfBounds(f, lines, lo, hi) != [] {
      var e := OutOfBounds(f, lines, lo, hi)[0];
      OutOfBoundsMembers(f, lines, lo, hi, e);
    }
  }

  /** A format error is reported for exactly the lines without id and transcript, by line number. */
  lemma FormatErrorsMembers(lines: seq<String>, k: nat, t: String)
    ensures (k, t) in FormatErrors(lines) <==> 1 <= k <= |lines| && IdAndRest(lines[k - 1]).None? && t == Strip(lines[k - 1])
  {
    RejectedMembers(TextItemFn(), Strip, lines, k, t);
  }

  /** A length violation is reported for exactly the well-formed lines whose word count is out of
      range. */
  lemma InvalidTextsMembers(lines: seq<String>, lo: int, hi: int, id: String, len: nat)
    ensures (id, len) in InvalidTexts(lines, lo, hi) <==>
      exists k :: 0 <= k < |lines| && TextItem(lines[k]) == Some((id, len)) && (len < lo || len > hi)
  {
    OutOfBoundsMembers(TextItemFn(), lines, lo, hi, (id, len));
  }

  /** The text check passes exactly when every line has an id and a transcript whose word count lies
      in range. */
  lemma TextOk(lines: seq<String>, lo: int, hi: int)
    ensures (FormatErrors(lines) == [] && InvalidTexts(lines, lo, hi) == []) <==>
      forall k :: 0 <= k < |lines| ==> TextItem(lines[k]).Some? && lo <= TextItem(lines[k]).value.1 <= hi
  {
    ScanOk(TextItemFn(), Strip, lines, lo, hi);
  }

  /** The length is a word count: a transcript of two words counts 2, however long the words. */
  lemma WordCount(id: String, w1: String, w2: String, tail: String)
    requires id != [] && NoSpace(id) && w1 != [] && NoSpace(w1) && w2 != [] && NoSpace(w2) && AllSpace(tail)
    ensures TextItem(id + " " + (w1 + " " + w2) + tail) == Some((id, 2))
  {
    var text := w1 + " " + w2;
    assert text[0] == w1[0] && text[|text| - 1] == w2[|w2| - 1];
    IdAndRestOf(id, text, tail);
    SplitTwoWords(w1, w2);
  }

  // ---------------------------------------------------------------------------------------------
  // main

  /** What `main` concludes. */
  datatype DirReport = MissingWavScp | MissingText | Checked(wav: WavReport, text: TextReport, allOk: bool)

  /** `main`, with each file's lines given when it exists; the bounds are in milliseconds and in
      words. */
  method CheckDirectory(wavScp: Option<seq<String>>, text: Option<seq<String>>, minMs: int, maxMs: int, tokenMin: int, tokenMax: int)
    returns (r: DirReport)
    ensures wavScp.None? ==> r == MissingWavScp
    ensures wavScp.Some? && text.None? ==> r == MissingText
    ensures r.Checked? ==> wavScp.Some? && text.Some?
    ensures r.Checked? ==> r.wav.invalid == Filter(OutOfRange(minMs, maxMs), WavItems(wavScp.value))
    ensures r.Checked? ==> r.text.formatErrors == FormatErrors(text.value) && r.text.invalid == InvalidTexts(text.value, tokenMin, tokenMax)
    ensures r.Checked? ==> (r.allOk <==> r.wav.ok && r.text.ok)
  {
    if wavScp.None? {
      return MissingWavScp;
    }
    if text.None? {
      return MissingText;
    }
    var w := CheckWavScp(wavScp.value, minMs, maxMs);
    var t := CheckTextFile(text.value, tokenMin, tokenMax);
    r := Checked(w, t, w.ok && t.ok);
  }

  /** The defaults: 0.1 s to 102.4 s, 1 to 200 words. */
  const DefaultMinMs: int := 100
  const DefaultMaxMs: int := 102400
  const DefaultTokenMin: int := 1
  const DefaultTokenMax: int := 200
}
