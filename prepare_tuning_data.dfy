/**
  prepare_tuning_data.py: mixes utterances from a second data directory into a fine-tuning set. The
  second directory's utterances are shuffled and taken greedily until their total duration is close
  to the first directory's; both lists are merged, shuffled again and written out with a `data.list`.
  Durations are integer milliseconds read from the ids; the script scales them by 0.001 to seconds,
  and the tolerance, given in whole seconds, is scaled here by 1000 to milliseconds.
*/
module PrepareTuningData {
  import opened Wrappers
  import opened PyStr
  import opened Digits
  import opened Seqs
  import opened IdTimes
  import opened Rng
  import opened PyFile

  /** An entry of `durations`: utterance id, the rest of its `wav.scp` line, duration. */
  datatype Utt = Utt(id: String, path: String, ms: int)

  /** End minus start, in milliseconds. */
  function Span(start: String, end: String): int
    requires AllDigits(start) && AllDigits(end)
  {
    Value(end) - Value(start)
  }

  function TotalMs(us: seq<Utt>): int
  {
    if us == [] then 0 else TotalMs(us[..|us| - 1]) + us[|us| - 1].ms
  }

  lemma TotalMsStep(us: seq<Utt>, u: Utt)
    ensures TotalMs(us + [u]) == TotalMs(us) + u.ms
  {
    assert (us + [u])[..|us|] == us;
  }

  // ---------------------------------------------------------------------------------------------
  // statis_project_data_length_0 / statis_project_data_length_1

  /** One `wav.scp` line: `line.strip().split(" ", maxsplit=1)` must give two values, or the unpack
      raises ValueError; an id the pattern matches gives an utterance, any other id is skipped with a
      warning. The duration is end minus start and is not checked: it can be zero or negative. */
  function ScpLine(t: Tail, line: String): (r: Result<seq<Utt>>)
    ensures r.Err? <==> ' ' !in Strip(line)
    ensures r.Err? ==> r.error == ValueError
    ensures r.Ok? ==> |r.value| <= 1
    ensures r.Ok? && r.value != [] ==> ' ' !in r.value[0].id && Strip(line) == r.value[0].id + " " + r.value[0].path
  {
    var parts := SplitOnce(Strip(line), ' ');
    if |parts| != 2 then Err(ValueError)
    else
      match Times(t, parts[0])
      case None => Ok([])
      case Some((start, end)) => Ok([Utt(parts[0], parts[1], Span(start, end))])
  }

  function ScpLineFn(t: Tail): String -> Result<seq<Utt>>
  {
    line => ScpLine(t, line)
  }

  /** The `durations` list, or the error of the first line that cannot be unpacked. */
  function Durations(t: Tail, lines: seq<String>): Result<seq<Utt>>
  {
    ConcatAll(ScpLineFn(t), lines)
  }

  /** `statis_project_data_length_0`: `-(\d+)-(\d+)$`, the total and the durations. */
  method StatisLength0(lines: seq<String>) returns (r: Result<(int, seq<Utt>)>)
    ensures Durations(NoTag, lines).Err? ==> r == Err(Durations(NoTag, lines).error)
    ensures r.Ok? <==> Durations(NoTag, lines).Ok?
    ensures r.Ok? ==> r.value.1 == Durations(NoTag, lines).value && r.value.0 == TotalMs(r.value.1)
  {
    var ds, total := Gather(ScpLineFn(NoTag), lines);
    if ds.Err? {
      return Err(ds.error);
    }
    r := Ok((total, ds.value));
  }

  /** `statis_project_data_length_1`: `-(\d+)-(\d+)-[A-Za-z0-9]+$`, the durations. */
  method StatisLength1(lines: seq<String>) returns (r: Result<seq<Utt>>)
    ensures r == Durations(RequiredTag, lines)
  {
    var total;
    r, total := Gather(ScpLineFn(RequiredTag), lines);
  }

  /** The loop of both functions: appending to `durations`, adding to `total_duration`, and the
      first exception ending it. */
  method Gather<A>(f: A -> Result<seq<Utt>>, xs: seq<A>) returns (r: Result<seq<Utt>>, total: int)
    requires forall x :: f(x).Ok? ==> |f(x).value| <= 1
    ensures r == ConcatAll(f, xs)
    ensures r.Ok? ==> total == TotalMs(r.value)
  {
    var ds: seq<Utt> := [];
    total := 0;
    var i := 0;
    while i < |xs|
      invariant 0 <= i <= |xs|
      invariant ConcatAll(f, xs[..i]) == Ok(ds) && total == TotalMs(ds)
    {
      ConcatAllStep(f, xs, i);
      var e := f(xs[i]);
      if e.Err? {
        ConcatAllErrPersists(f, xs, i + 1);
        return Err(e.error), total;
      }
      if e.value != [] {
        assert e.value == [e.value[0]];
        TotalMsStep(ds, e.value[0]);
        total := total + e.value[0].ms;
      } else {
        assert ds + e.value == ds;
      }
      ds := ds + e.value;
      i := i + 1;
    }
    assert xs[..i] == xs;
    r := Ok(ds);
  }

  /** A line `id path`, with surrounding whitespace, whose id has no space: the utterance if the
      pattern matches the id, nothing otherwise. */
  lemma ScpLineParts(t: Tail, line: String, id: String, path: String)
    requires ' ' !in id && Strip(line) == id + " " + path
    ensures ScpLine(t, line) == match Times(t, id)
      case None => Ok([])
      case Some((start, end)) => Ok([Utt(id, path, Span(start, end))])
  {
    SplitOnceAt(id, path);
  }

  /** A line `id path` whose id ends in `-start-end` and a tail the pattern accepts gives the
      utterance with duration end minus start, whatever the sign of that difference. */
  lemma ScpLineOf(t: Tail, line: String, id: String, base: String, start: String, end: String, tail: String, path: String)
    requires '-' !in base && start != [] && AllDigits(start) && end != [] && AllDigits(end) && TailOk(t, tail)
    requires id == base + "-" + start + "-" + end + tail && ' ' !in id && Strip(line) == id + " " + path
    ensures ScpLine(t, line) == Ok([Utt(id, path, Span(start, end))])
  {
    IdTimesOf(t, id, base, start, end, tail);
    ScpLineParts(t, line, id, path);
  }

  lemma IdTimesOf(t: Tail, id: String, base: String, start: String, end: String, tail: String)
    requires '-' !in base && start != [] && AllDigits(start) && end != [] && AllDigits(end) && TailOk(t, tail)
    requires id == base + "-" + start + "-" + end + tail
    ensures Times(t, id) == Some((start, end))
  {
    TimesOf(t, base, start, end, tail);
  }

  /** `(id + " " + rest).split(" ", 1)` for an id without spaces. */
  lemma SplitOnceAt(id: String, rest: String)
    requires ' ' !in id
    ensures SplitOnce(id + " " + rest, ' ') == [id, rest]
  {
    var s := id + " " + rest;
    var r := SplitOnce(s, ' ');
    assert s[|id|] == ' ';
    assert |r| == 2 && s == r[0] + [' '] + r[1];
    assert r[0] == s[..|id|] == id;
    assert r[1] == s[|id| + 1..] == rest;
  }

  /** A line whose id the pattern does not match contributes nothing, and no error. */
  lemma ScpLineUnmatched(t: Tail, line: String, id: String, path: String)
    requires ' ' !in id && Strip(line) == id + " " + path && Times(t, id) == None
    ensures ScpLine(t, line) == Ok([])
  {
    ScpLineParts(t, line, id, path);
  }

  /** A line with no space in it, a blank line among them, makes the whole function raise
      ValueError. */
  lemma DurationsNoSpace(t: Tail, lines: seq<String>, k: nat)
    requires k < |lines| && ' ' !in Strip(lines[k])
    ensures Durations(t, lines).Err?
  {
    ConcatAllOk(ScpLineFn(t), lines);
  }

  /** The durations are exactly the utterances the lines give. */
  lemma DurationsMembers(t: Tail, lines: seq<String>, u: Utt)
    requires Durations(t, lines).Ok?
    ensures u in Durations(t, lines).value <==> exists k :: 0 <= k < |lines| && ScpLine(t, lines[k]) == Ok([u])
  {
    ConcatAllSingles(ScpLineFn(t), lines, u);
  }

  // ---------------------------------------------------------------------------------------------
  // load_text_as_dict

  /** One `text` line: blank lines and lines without a space are skipped (the latter with a warning),
      the others split at their first space. */
  function TextEntry(line: String): (r: Option<(String, String)>)
    ensures r.Some? <==> ' ' in Strip(line)
    ensures r.Some? ==> ' ' !in r.value.0 && Strip(line) == r.value.0 + " " + r.value.1
  {
    var l := Strip(line);
    if l == [] then None
    else
      var parts := SplitOnce(l, ' ');
      if |parts| == 2 then Some((parts[0], parts[1])) else None
  }

  function TextEntryFn(): String -> Option<(String, String)>
  {
    line => TextEntry(line)
  }

  function TextDict(lines: seq<String>): map<String, String>
  {
    MapOf(FilterMap(TextEntryFn(), lines))
  }

  /** `load_text_as_dict` */
  method LoadTextAsDict(lines: seq<String>) returns (d: map<String, String>)
    ensures d == TextDict(lines)
  {
    d := MapOfLoop(TextEntryFn(), lines);
  }

  /** A line `id text`, with surrounding whitespace, gives the entry `id: text`. */
  lemma TextEntryOf(line: String, id: String, text: String)
    requires ' ' !in id && Strip(line) == id + " " + text
    ensures TextEntry(line) == Some((id, text))
  {
    SplitOnceAt(id, text);
  }

  /** An id is in the dict exactly when some line gives an entry for it. */
  lemma TextDictKeys(lines: seq<String>, id: String)
    ensures id in TextDict(lines) <==> exists k :: 0 <= k < |lines| && TextEntry(lines[k]).Some? && TextEntry(lines[k]).value.0 == id
  {
    FilterMapKeys(TextEntryFn(), lines, id);
  }

  /** A later line for an id replaces an earlier one. */
  lemma TextDictLastWins(lines: seq<String>, j: nat, id: String, text: String)
    requires j < |lines| && TextEntry(lines[j]) == Some((id, text))
    requires forall i :: j < i < |lines| ==> !(TextEntry(lines[i]).Some? && TextEntry(lines[i]).value.0 == id)
    ensures id in TextDict(lines) && TextDict(lines)[id] == text
  {
    FilterMapLastWins(TextEntryFn(), lines, j);
  }

  // ---------------------------------------------------------------------------------------------
  // match_durations_and_generate_text

  /** The state of the greedy loop: `matched_durations`, `selected_duration`, and whether it broke. */
  datatype Scan = Scan(matched: seq<Utt>, selected: int, stopped: bool)

  /** One iteration: take the item if the total stays within `target + tol`, then stop once the
      total has reached `target - tol`. */
  function Visit(st: Scan, u: Utt, target: int, tol: int): Scan
  {
    var st' := if st.selected + u.ms <= target + tol then Scan(st.matched + [u], st.selected + u.ms, false) else st;
    st'.(stopped := st'.selected >= target - tol)
  }

  /** The loop over `items`, which does nothing more once it has broken. */
  function Greedy(items: seq<Utt>, target: int, tol: int): Scan
  {
    if items == [] then Scan([], 0, false)
    else
      var prev := Greedy(items[..|items| - 1], target, tol);
      if prev.stopped then prev else Visit(prev, items[|items| - 1], target, tol)
  }

  /** The durations shuffled, then matched greedily against `targetMs` with a tolerance of
      `tolSeconds` seconds; and the generator after the shuffle. */
  function Matched(ds: seq<Utt>, targetMs: int, tolSeconds: int, g: Gen): (Scan, Gen)
  {
    var sh := Shuffled(ds, g);
    (Greedy(sh.0, targetMs, tolSeconds * 1000), sh.1)
  }

  /** `match_durations_and_generate_text`: the second directory's durations, shuffled, then matched
      greedily against the first directory's total. */
  method MatchDurations(lines1: seq<String>, targetMs: int, tolSeconds: int, g: Gen) returns (r: Result<(seq<Utt>, int)>, h: Gen)
    ensures Durations(RequiredTag, lines1).Err? ==> r == Err(Durations(RequiredTag, lines1).error) && h == g
    ensures Durations(RequiredTag, lines1).Ok? ==>
      var m := Matched(Durations(RequiredTag, lines1).value, targetMs, tolSeconds, g);
      r == Ok((m.0.matched, m.0.selected)) && h == m.1
  {
    var ds := StatisLength1(lines1);
    if ds.Err? {
      return Err(ds.error), g;
    }
    var all := ds.value;
    var a := new Utt[|all|](k requires 0 <= k < |all| => all[k]);
    assert a[..] == all;
    h := Shuffle(a, g);
    var matched, selected := Scan1(a, targetMs, tolSeconds * 1000);
    r := Ok((matched, selected));
  }

  /** The `for` loop with its `break`. */
  method Scan1(a: array<Utt>, target: int, tol: int) returns (matched: seq<Utt>, selected: int)
    ensures Greedy(a[..], target, tol) == Scan(matched, selected, Greedy(a[..], target, tol).stopped)
  {
    ghost var items := a[..];
    matched, selected := [], 0;
    var i := 0;
    while i < a.Length
      invariant 0 <= i <= a.Length
      invariant Greedy(items[..i], target, tol) == Scan(matched, selected, false)
    {
      assert items[..i + 1][..i] == items[..i];
      var u := a[i];
      if selected + u.ms <= target + tol {
        matched := matched + [u];
        selected := selected + u.ms;
      }
      if selected >= target - tol {
        GreedyStopped(items, i + 1, target, tol);
        return;
      }
      i := i + 1;
    }
    assert items[..i] == items;
  }

  /** Once the loop has broken, the items after the break change nothing. */
  lemma {:induction false} GreedyStopped(items: seq<Utt>, n: nat, target: int, tol: int)
    requires n <= |items| && Greedy(items[..n], target, tol).stopped
    ensures Greedy(items, target, tol) == Greedy(items[..n], target, tol)
    decreases |items|
  {
    if n == |items| {
      assert items[..n] == items;
    } else {
      var init := items[..|items| - 1];
      assert init[..n] == items[..n];
      GreedyStopped(init, n, target, tol);
    }
  }

  /** `selected_duration` is the sum of the matched durations. */
  lemma {:induction false} GreedySelected(items: seq<Utt>, target: int, tol: int)
    ensures Greedy(items, target, tol).selected == TotalMs(Greedy(items, target, tol).matched)
    decreases |items|
  {
    if items != [] {
      var prev := Greedy(items[..|items| - 1], target, tol);
      GreedySelected(items[..|items| - 1], target, tol);
      TotalMsStep(prev.matched, items[|items| - 1]);
    }
  }

  /** The matched items are a subsequence of the shuffled ones, in the same order. */
  lemma {:induction false} GreedySubsequence(items: seq<Utt>, target: int, tol: int) returns (idx: seq<nat>)
    ensures Embeds(Greedy(items, target, tol).matched, items, idx)
    decreases |items|
  {
    if items == [] {
      idx := [];
    } else {
      var n := |items| - 1;
      var init := items[..n];
      var prev := Greedy(init, target, tol);
      var before := GreedySubsequence(init, target, tol);
      assert forall k :: 0 <= k < |before| ==> items[before[k]] == init[before[k]];
      if !prev.stopped && prev.selected + items[n].ms <= target + tol {
        idx := before + [n];
      } else {
        idx := before;
      }
    }
  }

  /** Once anything is matched, the total never exceeds `target + tol`. */
  lemma {:induction false} GreedyWithin(items: seq<Utt>, target: int, tol: int)
    ensures Greedy(items, target, tol).matched != [] ==> Greedy(items, target, tol).selected <= target + tol
    decreases |items|
  {
    if items != [] {
      GreedyWithin(items[..|items| - 1], target, tol);
    }
  }

  /** The loop breaks exactly when the total has reached `target - tol`: a run that did not break
      over a non-empty list ends below it. */
  lemma {:induction false} GreedyStop(items: seq<Utt>, target: int, tol: int)
    ensures Greedy(items, target, tol).stopped ==> Greedy(items, target, tol).selected >= target - tol
    ensures items != [] && !Greedy(items, target, tol).stopped ==> Greedy(items, target, tol).selected < target - tol
    decreases |items|
  {
    if items != [] {
      GreedyStop(items[..|items| - 1], target, tol);
    }
  }

  /** What is matched is drawn from the second directory's durations: no utterance more often than it
      occurs there, whatever the shuffle. */
  lemma MatchedDrawn(ds: seq<Utt>, g: Gen, target: int, tol: int)
    ensures multiset(Greedy(Shuffled(ds, g).0, target, tol).matched) <= multiset(ds)
  {
    var items := Shuffled(ds, g).0;
    ShuffledPermutes(ds, g);
    var idx := GreedySubsequence(items, target, tol);
    EmbedsMultiset(Greedy(items, target, tol).matched, items, idx);
  }

  // ---------------------------------------------------------------------------------------------
  // merge_and_shuffle

  /** The `wav.scp` line written for a matched utterance. */
  function ScpOut(u: Utt): String
  {
    u.id + " " + u.path + "\n"
  }

  /** One `wav.scp` line per matched utterance, in order. */
  function ScpLines(us: seq<Utt>): (r: seq<String>)
    ensures |r| == |us| && forall k :: 0 <= k < |us| ==> r[k] == ScpOut(us[k])
  {
    if us == [] then [] else ScpLines(us[..|us| - 1]) + [ScpOut(us[|us| - 1])]
  }

  /** The `text` line written for a matched utterance, if the second directory has its transcript. */
  function TextOut(d: map<String, String>, u: Utt): Option<String>
  {
    if u.id in d then Some(u.id + " " + d[u.id] + "\n") else None
  }

  function TextOutFn(d: map<String, String>): Utt -> Option<String>
  {
    u => TextOut(d, u)
  }

  function TextLines(d: map<String, String>, us: seq<Utt>): seq<String>
  {
    FilterMap(TextOutFn(d), us)
  }

  /** The merged lists, each shuffled, the `wav.scp` list first, and the generator after both. */
  function Merged(origScp: seq<String>, origText: seq<String>, matched: seq<Utt>, d: map<String, String>, g: Gen)
    : (seq<String>, seq<String>, Gen)
  {
    var s := Shuffled(origScp + ScpLines(matched), g);
    var t := Shuffled(origText + TextLines(d, matched), s.1);
    (s.0, t.0, t.1)
  }

  /** `merge_and_shuffle`: the original lines followed by the new ones, each list shuffled, the
      `wav.scp` list first. */
  method MergeAndShuffle(origScp: seq<String>, origText: seq<String>, matched: seq<Utt>, d: map<String, String>, g: Gen)
    returns (scp: seq<String>, text: seq<String>, h: Gen)
    ensures (scp, text, h) == Merged(origScp, origText, matched, d, g)
    ensures multiset(scp) == multiset(origScp) + multiset(ScpLines(matched))
    ensures multiset(text) == multiset(origText) + multiset(TextLines(d, matched))
  {
    var cs, ct := Combine(origScp, origText, matched, d);
    var h1;
    scp, h1 := ShuffleSeq(cs, g);
    text, h := ShuffleSeq(ct, h1);
  }

  /** The loop filling `combined_wav_scp` and `combined_text`. */
  method Combine(origScp: seq<String>, origText: seq<String>, matched: seq<Utt>, d: map<String, String>)
    returns (cs: seq<String>, ct: seq<String>)
    ensures cs == origScp + ScpLines(matched) && ct == origText + TextLines(d, matched)
  {
    cs, ct := origScp, origText;
    var i := 0;
    while i < |matched|
      invariant 0 <= i <= |matched|
      invariant cs == origScp + ScpLines(matched[..i]) && ct == origText + TextLines(d, matched[..i])
    {
      var u := matched[i];
      CombineStep(matched, d, i);
      AppendAssoc(origScp, ScpLines(matched[..i]), [ScpOut(u)]);
      cs := cs + [u.id + " " + u.path + "\n"];
      if u.id in d {
        AppendAssoc(origText, TextLines(d, matched[..i]), [u.id + " " + d[u.id] + "\n"]);
        ct := ct + [u.id + " " + d[u.id] + "\n"];
      }
      i := i + 1;
    }
    assert matched[..i] == matched;
  }

  /** One more matched utterance adds its `wav.scp` line, and its `text` line when it has a transcript. */
  lemma CombineStep(matched: seq<Utt>, d: map<String, String>, i: nat)
    requires i < |matched|
    ensures ScpLines(matched[..i + 1]) == ScpLines(matched[..i]) + [ScpOut(matched[i])]
    ensures matched[i].id in d ==> TextLines(d, matched[..i + 1]) == TextLines(d, matched[..i]) + [matched[i].id + " " + d[matched[i].id] + "\n"]
    ensures matched[i].id !in d ==> TextLines(d, matched[..i + 1]) == TextLines(d, matched[..i])
  {
    FilterMapStep(TextOutFn(d), matched, i);
    assert matched[..i + 1][..i] == matched[..i];
  }

  /** `random.shuffle` of a list: copied into an array, shuffled in place. */
  method ShuffleSeq<T>(s: seq<T>, g: Gen) returns (r: seq<T>, h: Gen)
    ensures (r, h) == Shuffled(s, g)
    ensures multiset(r) == multiset(s)
  {
    var a := new T[|s|](k requires 0 <= k < |s| => s[k]);
    assert a[..] == s;
    h := Shuffle(a, g);
    r := a[..];
  }

  /** A new `text` line is written exactly for the matched utterances whose id has a transcript. */
  lemma TextLinesMembers(d: map<String, String>, us: seq<Utt>, y: String)
    ensures y in TextLines(d, us) <==> exists k :: 0 <= k < |us| && us[k].id in d && y == us[k].id + " " + d[us[k].id] + "\n"
  {
    FilterMapMembers(TextOutFn(d), us, y);
  }

  /** The merged `wav.scp` has one more line per matched utterance, the merged `text` at most one. */
  lemma MergedSizes(origScp: seq<String>, origText: seq<String>, matched: seq<Utt>, d: map<String, String>, g: Gen)
    ensures |Shuffled(origScp + ScpLines(matched), g).0| == |origScp| + |matched|
    ensures |Shuffled(origText + TextLines(d, matched), g).0| <= |origText| + |matched|
  {
    ShuffledPermutes(origScp + ScpLines(matched), g);
    ShuffledPermutes(origText + TextLines(d, matched), g);
  }

  // ---------------------------------------------------------------------------------------------
  // generate_data_list

  /** What one `wav.scp` line leads to: a record, or a count as missing. */
  datatype ListOutcome = Written(entry: DataEntry) | Missing(id: String)

  /** One `wav.scp` line: the unpack of `line.strip().split(" ", 1)` raises ValueError without a
      space; an id in the dict is written with its transcript, any other counted as missing. */
  function ListLine(d: map<String, String>, line: String): (r: Result<seq<ListOutcome>>)
    ensures r.Err? <==> ' ' !in Strip(line)
    ensures r.Ok? ==> |r.value| == 1 && (r.value[0].Written? <==> SplitOnce(Strip(line), ' ')[0] in d)
  {
    var parts := SplitOnce(Strip(line), ' ');
    if |parts| != 2 then Err(ValueError)
    else if parts[0] in d then Ok([Written(DataEntry(parts[0], parts[1], d[parts[0]]))])
    else Ok([Missing(parts[0])])
  }

  function ListLineFn(d: map<String, String>): String -> Result<seq<ListOutcome>>
  {
    line => ListLine(d, line)
  }

  function Outcomes(d: map<String, String>, lines: seq<String>): Result<seq<ListOutcome>>
  {
    ConcatAll(ListLineFn(d), lines)
  }

  /** The records written, in order. */
  function Entries(os: seq<ListOutcome>): seq<DataEntry>
  {
    if os == [] then []
    else
      var last := os[|os| - 1];
      Entries(os[..|os| - 1]) + (if last.Written? then [last.entry] else [])
  }

  /** The ids counted as missing, in order. */
  function MissingIds(os: seq<ListOutcome>): seq<String>
  {
    if os == [] then []
    else
      var last := os[|os| - 1];
      MissingIds(os[..|os| - 1]) + (if last.Missing? then [last.id] else [])
  }

  /** What `generate_data_list` produces: the records and its two counters. */
  datatype DataList = DataList(entries: seq<DataEntry>, total: nat, missing: nat)

  /** What `generate_data_list` writes for a `wav.scp` and a `text`, or the error it raises. */
  function DataListOf(scpLines: seq<String>, textLines: seq<String>): Result<DataList>
  {
    match Outcomes(TextDict(textLines), scpLines)
    case Err(e) => Err(e)
    case Ok(os) => Ok(DataList(Entries(os), |scpLines|, |MissingIds(os)|))
  }

  /** `generate_data_list` over the merged `wav.scp` and `text`. */
  method GenerateDataList(scpLines: seq<String>, textLines: seq<String>) returns (r: Result<DataList>)
    ensures r == DataListOf(scpLines, textLines)
  {
    var d := LoadTextAsDict(textLines);
    r := ListLoop(ListLineFn(d), scpLines);
  }

  /** The loop with its two counters. */
  method ListLoop<A>(f: A -> Result<seq<ListOutcome>>, xs: seq<A>) returns (r: Result<DataList>)
    requires forall x :: f(x).Ok? ==> |f(x).value| == 1
    ensures ConcatAll(f, xs).Err? ==> r == Err(ConcatAll(f, xs).error)
    ensures r.Ok? <==> ConcatAll(f, xs).Ok?
    ensures r.Ok? ==> r.value == DataList(Entries(ConcatAll(f, xs).value), |xs|, |MissingIds(ConcatAll(f, xs).value)|)
  {
    ghost var os: seq<ListOutcome> := [];
    var entries: seq<DataEntry> := [];
    var missing, total := 0, 0;
    var i := 0;
    while i < |xs|
      invariant 0 <= i <= |xs| && total == i
      invariant ConcatAll(f, xs[..i]) == Ok(os) && entries == Entries(os) && missing == |MissingIds(os)|
    {
      ConcatAllStep(f, xs, i);
      var e := f(xs[i]);
      if e.Err? {
        ConcatAllErrPersists(f, xs, i + 1);
        return Err(e.error);
      }
      var o := e.value[0];
      assert e.value == [o];
      assert (os + [o])[..|os|] == os;
      total := total + 1;
      if o.Written? {
        entries := entries + [o.entry];
      } else {
        missing := missing + 1;
      }
      os := os + [o];
      i := i + 1;
    }
    assert xs[..i] == xs;
    r := Ok(DataList(entries, total, missing));
  }

  /** Every outcome is a record or a missing id, never both. */
  lemma {:induction false} EntriesAndMissing(os: seq<ListOutcome>)
    ensures |Entries(os)| + |MissingIds(os)| == |os|
    decreases |os|
  {
    if os != [] {
      EntriesAndMissing(os[..|os| - 1]);
    }
  }

  /** Each line gives exactly one outcome. */
  lemma {:induction false} OutcomesLength(d: map<String, String>, lines: seq<String>)
    requires Outcomes(d, lines).Ok?
    ensures |Outcomes(d, lines).value| == |lines|
    decreases |lines|
  {
    if lines != [] {
      var init := lines[..|lines| - 1];
      ConcatAllLast(ListLineFn(d), lines);
      OutcomesLength(d, init);
    }
  }

  /** `total_count == written + missing_count`. */
  lemma DataListCounts(d: map<String, String>, lines: seq<String>)
    requires Outcomes(d, lines).Ok?
    ensures |Entries(Outcomes(d, lines).value)| + |MissingIds(Outcomes(d, lines).value)| == |lines|
  {
    OutcomesLength(d, lines);
    EntriesAndMissing(Outcomes(d, lines).value);
  }

  /** A line `id path` is written, with the dict's transcript, exactly when its id is in the dict. */
  lemma ListLineOf(d: map<String, String>, line: String, id: String, path: String)
    requires ' ' !in id && Strip(line) == id + " " + path
    ensures ListLine(d, line) == Ok([if id in d then Written(DataEntry(id, path, d[id])) else Missing(id)])
  {
    SplitOnceAt(id, path);
  }

  lemma {:induction false} EntriesMembers(os: seq<ListOutcome>, e: DataEntry)
    ensures e in Entries(os) <==> Written(e) in os
    decreases |os|
  {
    if os != [] {
      EntriesMembers(os[..|os| - 1], e);
      assert os == os[..|os| - 1] + [os[|os| - 1]];
    }
  }

  /** The records written are those of the lines whose id has a transcript. */
  lemma DataListEntries(d: map<String, String>, lines: seq<String>, e: DataEntry)
    requires Outcomes(d, lines).Ok?
    ensures e in Entries(Outcomes(d, lines).value) <==> exists k :: 0 <= k < |lines| && ListLine(d, lines[k]) == Ok([Written(e)])
  {
    EntriesMembers(Outcomes(d, lines).value, e);
    ConcatAllSingles(ListLineFn(d), lines, Written(e));
  }

  // ---------------------------------------------------------------------------------------------
  // generate_new_wav_scp_and_text

  /** A data directory's `wav.scp` and `text` contents, each absent when the file does not exist. */
  datatype Folder = Folder(wavScp: Option<String>, text: Option<String>)

  predicate Complete(f: Folder) {
    f.wavScp.Some? && f.text.Some?
  }

  /** The lines `for line in f` reads from a directory's `wav.scp`. */
  function ScpOf(f: Folder): seq<String>
    requires f.wavScp.Some?
  {
    Lines(f.wavScp.value)
  }

  /** The lines `for line in f` reads from a directory's `text`. */
  function TextOf(f: Folder): seq<String>
    requires f.text.Some?
  {
    Lines(f.text.value)
  }

  /** The merged `train/wav.scp` and `train/text` as handed to `writelines` (the files hold their
      concatenation), and what `generate_data_list` wrote after reading the two files back. */
  datatype Output = Output(wavScp: seq<String>, text: seq<String>, dataList: DataList)

  /** The whole run, and the generator after its three shuffles. `get_wav_scp_and_text` raises
      FileNotFoundError (an IOError) for a missing file. `writelines` adds no newline, so the
      `data.list` step reads back the written text, where a line without one runs on into the next. */
  function Prepared(f0: Folder, f1: Folder, tolSeconds: int, g: Gen): (Result<Output>, Gen)
  {
    if !Complete(f0) || !Complete(f1) then (Err(IOError), g)
    else
      match Durations(NoTag, ScpOf(f0))
      case Err(e) => (Err(e), g)
      case Ok(d0) =>
        match Durations(RequiredTag, ScpOf(f1))
        case Err(e) => (Err(e), g)
        case Ok(d1) =>
          var m := Matched(d1, TotalMs(d0), tolSeconds, g);
          var mg := Merged(ScpOf(f0), TextOf(f0), m.0.matched, TextDict(TextOf(f1)), m.1);
          match DataListOf(Lines(Concat(mg.0)), Lines(Concat(mg.1)))
          case Err(e) => (Err(e), mg.2)
          case Ok(dl) => (Ok(Output(mg.0, mg.1, dl)), mg.2)
  }

  /** `generate_new_wav_scp_and_text` */
  method GenerateNewWavScpAndText(f0: Folder, f1: Folder, tolSeconds: int, g: Gen) returns (r: Result<Output>, h: Gen)
    ensures (r, h) == Prepared(f0, f1, tolSeconds, g)
  {
    if !Complete(f0) || !Complete(f1) {
      return Err(IOError), g;
    }
    var st0 := StatisLength0(ScpOf(f0));
    if st0.Err? {
      return Err(st0.error), g;
    }
    var m, h1 := MatchDurations(ScpOf(f1), st0.value.0, tolSeconds, g);
    if m.Err? {
      return Err(m.error), g;
    }
    var dict := LoadTextAsDict(TextOf(f1));
    var scp, text, h2 := MergeAndShuffle(ScpOf(f0), TextOf(f0), m.value.0, dict, h1);
    var scpFile, textFile := Concat(scp), Concat(text);
    var dl := GenerateDataList(Lines(scpFile), Lines(textFile));
    if dl.Err? {
      return Err(dl.error), h2;
    }
    r, h := Ok(Output(scp, text, dl.value)), h2;
  }

  /** `generate_data_list` raises exactly when some `wav.scp` line has no space after stripping. */
  lemma DataListFails(scpLines: seq<String>, textLines: seq<String>)
    ensures DataListOf(scpLines, textLines).Err? <==> exists k :: 0 <= k < |scpLines| && ' ' !in Strip(scpLines[k])
  {
    ConcatAllOk(ListLineFn(TextDict(textLines)), scpLines);
  }

  /** The run fails exactly when a file is missing or a `wav.scp` line of either directory has no
      space: once both `wav.scp` files are read, writing `data.list` cannot raise, because every
      merged line is an original line of the first directory or rebuilt from a line of the second,
      and lines that run into each other when read back keep their spaces. */
  lemma PreparedFails(f0: Folder, f1: Folder, tolSeconds: int, g: Gen)
    ensures Prepared(f0, f1, tolSeconds, g).0.Err? <==>
      !Complete(f0) || !Complete(f1) || Durations(NoTag, ScpOf(f0)).Err? || Durations(RequiredTag, ScpOf(f1)).Err?
  {
    if Complete(f0) && Complete(f1) && Durations(NoTag, ScpOf(f0)).Ok? && Durations(RequiredTag, ScpOf(f1)).Ok? {
      var d0, d1 := Durations(NoTag, ScpOf(f0)).value, Durations(RequiredTag, ScpOf(f1)).value;
      var m := Matched(d1, TotalMs(d0), tolSeconds, g);
      var mg := Merged(ScpOf(f0), TextOf(f0), m.0.matched, TextDict(TextOf(f1)), m.1);
      MatchedDrawn(d1, g, TotalMs(d0), tolSeconds * 1000);
      LinesShape(f0.wavScp.value);
      LinesShape(f1.wavScp.value);
      MergedLinesSplit(ScpOf(f0), ScpOf(f1), m.0.matched, m.1);
      ReadBackSplit(mg.0);
      DataListFails(Lines(Concat(mg.0)), Lines(Concat(mg.1)));
    }
  }

  /** Every line read back from a written list of lines that each have a space inside them has a
      space after stripping. */
  lemma ReadBackSplit(ls: seq<String>)
    requires forall k :: 0 <= k < |ls| ==> IsLine(ls[k]) && SpaceInside(ls[k])
    ensures forall k :: 0 <= k < |Lines(Concat(ls))| ==> ' ' in Strip(Lines(Concat(ls))[k])
  {
    ReadBack(ls);
    RejoinedSpaceInside(ls);
    forall k | 0 <= k < |Rejoined(ls)| ensures ' ' in Strip(Rejoined(ls)[k]) {
      SpaceInsideStrip(Rejoined(ls)[k]);
    }
  }

  /** Every line of the merged `wav.scp` is a line with a space inside it, when the two
      directories' lines are lines that all have one and the matched utterances come from the
      second's. */
  lemma MergedLinesSplit(scp0: seq<String>, scp1: seq<String>, matched: seq<Utt>, g: Gen)
    requires Durations(NoTag, scp0).Ok? && Durations(RequiredTag, scp1).Ok?
    requires forall k :: 0 <= k < |scp0| ==> IsLine(scp0[k])
    requires forall k :: 0 <= k < |scp1| ==> IsLine(scp1[k])
    requires multiset(matched) <= multiset(Durations(RequiredTag, scp1).value)
    ensures forall k :: 0 <= k < |Shuffled(scp0 + ScpLines(matched), g).0| ==>
      IsLine(Shuffled(scp0 + ScpLines(matched), g).0[k]) && SpaceInside(Shuffled(scp0 + ScpLines(matched), g).0[k])
  {
    var all := scp0 + ScpLines(matched);
    var s := Shuffled(all, g).0;
    ShuffledPermutes(all, g);
    ConcatAllOk(ScpLineFn(NoTag), scp0);
    forall k | 0 <= k < |s| ensures IsLine(s[k]) && SpaceInside(s[k]) {
      assert s[k] in multiset(all);
      var j :| 0 <= j < |all| && all[j] == s[k];
      if j < |scp0| {
        assert all[j] == scp0[j];
        assert ScpLine(NoTag, scp0[j]).Ok?;
        SpaceInsideStrip(scp0[j]);
      } else {
        var u := matched[j - |scp0|];
        assert all[j] == ScpOut(u);
        assert u in multiset(Durations(RequiredTag, scp1).value);
        DurationsMembers(RequiredTag, scp1, u);
        var i :| 0 <= i < |scp1| && ScpLine(RequiredTag, scp1[i]) == Ok([u]);
        ScpOutStrips(scp1[i], u);
        SpaceInsideStrip(ScpOut(u));
        ScpOutIsLine(scp1[i], u);
      }
    }
  }

  /** The line written for an utterance read from a `wav.scp` line strips back to that line. */
  lemma ScpOutStrips(line: String, u: Utt)
    requires ScpLine(RequiredTag, line) == Ok([u])
    ensures Strip(ScpOut(u)) == Strip(line) && ' ' in Strip(line)
  {
    var l := Strip(line);
    assert l != [];
    ScpOutOf(l, u);
  }

  lemma ScpOutOf(l: String, u: Utt)
    requires l == u.id + " " + u.path && l != [] && !IsSpace(l[0]) && !IsSpace(l[|l| - 1])
    ensures Strip(ScpOut(u)) == l
  {
    assert ScpOut(u) == l + "\n";
    assert AllSpace("\n") by { assert "\n"[0] == '\n'; }
    StripLine(l, "\n");
  }

  /** The line written for an utterance read from a line is a line that ends with a newline. */
  lemma ScpOutIsLine(line: String, u: Utt)
    requires IsLine(line) && ScpLine(RequiredTag, line) == Ok([u])
    ensures IsLine(ScpOut(u)) && Terminated(ScpOut(u))
  {
    var l := Strip(line);
    StripNoNewline(line);
    assert ScpOut(u) == l + "\n";
    NewlineEnded(l, ScpOut(u));
  }

  /** On success, the merged lists hold the first directory's lines plus those of the matched
      utterances, and the matched utterances are drawn from the second directory. */
  lemma PreparedContents(f0: Folder, f1: Folder, tolSeconds: int, g: Gen)
    requires Prepared(f0, f1, tolSeconds, g).0.Ok?
    ensures Complete(f0) && Complete(f1) && Durations(NoTag, ScpOf(f0)).Ok? && Durations(RequiredTag, ScpOf(f1)).Ok?
    ensures
      var d0, d1 := Durations(NoTag, ScpOf(f0)).value, Durations(RequiredTag, ScpOf(f1)).value;
      var m := Matched(d1, TotalMs(d0), tolSeconds, g).0;
      var out := Prepared(f0, f1, tolSeconds, g).0.value;
      && multiset(m.matched) <= multiset(d1)
      && multiset(out.wavScp) == multiset(ScpOf(f0)) + multiset(ScpLines(m.matched))
      && multiset(out.text) == multiset(TextOf(f0)) + multiset(TextLines(TextDict(TextOf(f1)), m.matched))
  {
    var d0, d1 := Durations(NoTag, ScpOf(f0)).value, Durations(RequiredTag, ScpOf(f1)).value;
    var m := Matched(d1, TotalMs(d0), tolSeconds, g);
    var all := ScpOf(f0) + ScpLines(m.0.matched);
    var tx := TextOf(f0) + TextLines(TextDict(TextOf(f1)), m.0.matched);
    MatchedDrawn(d1, g, TotalMs(d0), tolSeconds * 1000);
    ShuffledPermutes(all, m.1);
    ShuffledPermutes(tx, Shuffled(all, m.1).1);
  }

  /** On success, `data.list` accounts for every line read back from the written `wav.scp`, as
      written or missing. */
  lemma PreparedTotal(f0: Folder, f1: Folder, tolSeconds: int, g: Gen)
    requires Prepared(f0, f1, tolSeconds, g).0.Ok?
    ensures
      var out := Prepared(f0, f1, tolSeconds, g).0.value;
      out.dataList.total == |Lines(Concat(out.wavScp))| == |out.dataList.entries| + out.dataList.missing
  {
    var d0, d1 := Durations(NoTag, ScpOf(f0)).value, Durations(RequiredTag, ScpOf(f1)).value;
    var m := Matched(d1, TotalMs(d0), tolSeconds, g);
    var mg := Merged(ScpOf(f0), TextOf(f0), m.0.matched, TextDict(TextOf(f1)), m.1);
    DataListCounts(TextDict(Lines(Concat(mg.1))), Lines(Concat(mg.0)));
  }

  /** Reading back joins each written `wav.scp` line without a newline to the next, so `data.list`
      counts the first directory's lines and the matched utterances together, less those joins. */
  lemma PreparedJoins(f0: Folder, f1: Folder, tolSeconds: int, g: Gen)
    requires Prepared(f0, f1, tolSeconds, g).0.Ok?
    ensures Complete(f0) && Complete(f1) && Durations(NoTag, ScpOf(f0)).Ok? && Durations(RequiredTag, ScpOf(f1)).Ok?
    ensures
      var d0, d1 := Durations(NoTag, ScpOf(f0)).value, Durations(RequiredTag, ScpOf(f1)).value;
      var n := |ScpOf(f0)| + |Matched(d1, TotalMs(d0), tolSeconds, g).0.matched|;
      var out := Prepared(f0, f1, tolSeconds, g).0.value;
      out.dataList.total + RunOns(out.wavScp) == n
  {
    var d0, d1 := Durations(NoTag, ScpOf(f0)).value, Durations(RequiredTag, ScpOf(f1)).value;
    var m := Matched(d1, TotalMs(d0), tolSeconds, g);
    var mg := Merged(ScpOf(f0), TextOf(f0), m.0.matched, TextDict(TextOf(f1)), m.1);
    MatchedDrawn(d1, g, TotalMs(d0), tolSeconds * 1000);
    LinesShape(f0.wavScp.value);
    LinesShape(f1.wavScp.value);
    MergedLinesSplit(ScpOf(f0), ScpOf(f1), m.0.matched, m.1);
    ShuffledPermutes(ScpOf(f0) + ScpLines(m.0.matched), m.1);
    ReadBackCount(mg.0);
    PreparedTotal(f0, f1, tolSeconds, g);
  }

  /** Reading back a written list of lines gives one line per written line, less the joins. */
  lemma ReadBackCount(ls: seq<String>)
    requires forall k :: 0 <= k < |ls| ==> IsLine(ls[k])
    ensures |Lines(Concat(ls))| + RunOns(ls) == |ls|
  {
    ReadBack(ls);
    RejoinedCount(ls);
  }

  /** When the first `wav.scp` is empty or ends with a newline, nothing is joined: `data.list` counts
      exactly the first directory's lines and the matched utterances. */
  lemma PreparedExact(f0: Folder, f1: Folder, tolSeconds: int, g: Gen)
    requires Prepared(f0, f1, tolSeconds, g).0.Ok?
    requires f0.wavScp.Some? && (f0.wavScp.value == [] || Terminated(f0.wavScp.value))
    ensures Complete(f0) && Complete(f1) && Durations(NoTag, ScpOf(f0)).Ok? && Durations(RequiredTag, ScpOf(f1)).Ok?
    ensures
      var d0, d1 := Durations(NoTag, ScpOf(f0)).value, Durations(RequiredTag, ScpOf(f1)).value;
      var n := |ScpOf(f0)| + |Matched(d1, TotalMs(d0), tolSeconds, g).0.matched|;
      Prepared(f0, f1, tolSeconds, g).0.value.dataList.total == n
  {
    var d0, d1 := Durations(NoTag, ScpOf(f0)).value, Durations(RequiredTag, ScpOf(f1)).value;
    var m := Matched(d1, TotalMs(d0), tolSeconds, g);
    var mg := Merged(ScpOf(f0), TextOf(f0), m.0.matched, TextDict(TextOf(f1)), m.1);
    PreparedJoins(f0, f1, tolSeconds, g);
    AllTerminated(f0.wavScp.value);
    MergedTerminated(ScpOf(f0), m.0.matched, m.1);
    RejoinedAll(mg.0);
  }

  /** Every line of a file that is empty or ends with a newline ends with one. */
  lemma AllTerminated(s: String)
    requires s == [] || Terminated(s)
    ensures forall k :: 0 <= k < |Lines(s)| ==> Terminated(Lines(s)[k])
  {
    LinesShape(s);
  }

  /** Every line of the merged `wav.scp` ends with a newline when every line of the first
      directory does. */
  lemma MergedTerminated(scp0: seq<String>, matched: seq<Utt>, g: Gen)
    requires forall k :: 0 <= k < |scp0| ==> Terminated(scp0[k])
    ensures forall k :: 0 <= k < |Shuffled(scp0 + ScpLines(matched), g).0| ==> Terminated(Shuffled(scp0 + ScpLines(matched), g).0[k])
  {
    var all := scp0 + ScpLines(matched);
    var s := Shuffled(all, g).0;
    ShuffledPermutes(all, g);
    forall k | 0 <= k < |s| ensures Terminated(s[k]) {
      assert s[k] in multiset(all);
      var j :| 0 <= j < |all| && all[j] == s[k];
      if j < |scp0| {
        assert all[j] == scp0[j];
      } else {
        var u := matched[j - |scp0|];
        assert all[j] == ScpOut(u);
      }
    }
  }
}
