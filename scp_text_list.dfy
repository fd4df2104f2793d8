/**
  The two `scp-text-list.py` scripts, which write a WeNet `data.list` from `wav.scp` and `text`:
  process_text/scp-text-list.py writes an entry whose duration cannot be read with duration 0, and
  scp-text-list.py skips it. Everything else is shared: `main` collects the ids of the two-token
  `wav.scp` lines, `read_text` keeps the transcripts of those ids, and `generate_data_list` walks
  `wav.scp` in order, writes one record per id that has a transcript, and stops right after the entry
  that brings the running duration to the limit. Durations are integer milliseconds (end minus start
  of the id); the scripts divide them by 1000 and compare seconds with `hours * 3600`.
*/
module ScpTextList {
  import opened Wrappers
  import opened PyStr
  import opened Digits
  import opened Seqs
  import opened TotalTime
  import opened NormText

  /** Which script: process_text/scp-text-list.py, with its `--calculate-duration` switch, or
      scp-text-list.py. */
  datatype Variant = WriteUnparsed(calculateDuration: bool) | SkipUnparsed

  // ---------------------------------------------------------------------------------------------
  // keys_set and read_text

  /** `keys_set` of `main`: the ids of the `wav.scp` lines with exactly two tokens, which are the
      keys of the same dict norm-text.py reads (the ids are characterised by `NormText.WavDictKeys`). */
  function KeySet(lines: seq<String>): set<String>
  {
    WavDict(lines).Keys
  }

  /** The `keys_set` loop of `main`. */
  method ReadKeys(lines: seq<String>) returns (keys: set<String>)
    ensures keys == KeySet(lines)
  {
    keys := KeysLoop(TwoTokens, lines);
  }

  /** One `text` line for `read_text`: an id with a transcript, kept when the id is a key. */
  function TextEntry(keys: set<String>, line: String): (r: Option<(String, String)>)
    ensures r.Some? ==> r.value.0 in keys
  {
    match IdAndRest(line)
    case None => None
    case Some((key, text)) => if key in keys then Some((key, text)) else None
  }

  function TextEntryFn(keys: set<String>): String -> Option<(String, String)>
  {
    line => TextEntry(keys, line)
  }

  function TextDict(keys: set<String>, lines: seq<String>): map<String, String>
  {
    MapOf(FilterMap(TextEntryFn(keys), lines))
  }

  /** `read_text` */
  method ReadText(lines: seq<String>, keys: set<String>) returns (d: map<String, String>)
    ensures d == TextDict(keys, lines)
  {
    d := MapOfLoop(TextEntryFn(keys), lines);
  }

  /** `read_text` keeps only ids of `keys_set`, each from a `text` line naming it. */
  lemma TextDictKeys(keys: set<String>, lines: seq<String>, key: String)
    ensures key in TextDict(keys, lines) <==> key in keys && exists j :: 0 <= j < |lines| && IdAndRest(lines[j]).Some? && IdAndRest(lines[j]).value.0 == key
  {
    var f := TextEntryFn(keys);
    FilterMapKeys(f, lines, key);
    if key in TextDict(keys, lines) {
      var j :| 0 <= j < |lines| && f(lines[j]).Some? && f(lines[j]).value.0 == key;
      TextEntryKey(keys, lines[j], key);
    }
    if key in keys && exists j :: 0 <= j < |lines| && IdAndRest(lines[j]).Some? && IdAndRest(lines[j]).value.0 == key {
      var j :| 0 <= j < |lines| && IdAndRest(lines[j]).Some? && IdAndRest(lines[j]).value.0 == key;
      TextEntryKey(keys, lines[j], key);
    }
  }

  lemma TextEntryKey(keys: set<String>, line: String, key: String)
    ensures (TextEntry(keys, line).Some? && TextEntry(keys, line).value.0 == key) <==>
            (key in keys && IdAndRest(line).Some? && IdAndRest(line).value.0 == key)
  {
  }

  /** A later transcript of an id replaces an earlier one. */
  lemma TextDictLastWins(keys: set<String>, lines: seq<String>, j: nat, key: String, text: String)
    requires j < |lines| && IdAndRest(lines[j]) == Some((key, text)) && key in keys
    requires forall i :: j < i < |lines| ==> !(IdAndRest(lines[i]).Some? && IdAndRest(lines[i]).value.0 == key)
    ensures key in TextDict(keys, lines) && TextDict(keys, lines)[key] == text
  {
    var f := TextEntryFn(keys);
    assert f(lines[j]) == Some((key, text));
    forall i | j < i < |lines| ensures !(f(lines[i]).Some? && f(lines[i]).value.0 == f(lines[j]).value.0) {
      TextEntryOther(keys, lines[i], key);
    }
    FilterMapLastWins(f, lines, j);
  }

  /** A line that names another id, or none, gives no transcript for `key`. */
  lemma TextEntryOther(keys: set<String>, line: String, key: String)
    requires !(IdAndRest(line).Some? && IdAndRest(line).value.0 == key)
    ensures !(TextEntry(keys, line).Some? && TextEntry(keys, line).value.0 == key)
  {
  }

  // ---------------------------------------------------------------------------------------------
  // the duration of an id

  /** `(int(id_sequence[-2]) - int(id_sequence[-3]))` over `key.split('-')`, or None where the script
      catches the short list or the ValueError (`key.strip()` leaves a token as it is). */
  function KeyDuration(key: String): (r: Option<int>)
    ensures r.Some? <==> FieldsDuration(SplitOn(key, '-')).Ok?
  {
    match FieldsDuration(SplitOn(key, '-'))
    case Ok(ms) => Some(ms)
    case Err(_) => None
  }

  /** A key of fewer than three fields has no duration. */
  lemma KeyDurationShort(key: String)
    requires |SplitOn(key, '-')| < 3
    ensures KeyDuration(key) == None
  {
  }

  /** A key whose second and third last fields are numerals has their difference as its duration. */
  lemma KeyDurationOfFields(fs: seq<String>)
    requires |fs| >= 3 && forall k :: 0 <= k < |fs| ==> '-' !in fs[k]
    requires fs[|fs| - 3] != [] && AllDigits(fs[|fs| - 3]) && fs[|fs| - 2] != [] && AllDigits(fs[|fs| - 2])
    ensures KeyDuration(JoinWith(fs, '-')).Some?
    ensures KeyDuration(JoinWith(fs, '-')).value == Value(fs[|fs| - 2]) - Value(fs[|fs| - 3])
  {
    IdDurationOfFields(fs);
  }

  // ---------------------------------------------------------------------------------------------
  // generate_data_list

  /** A `data.list` record: `key`, `wav`, `txt`. */
  datatype Entry = Entry(key: String, wav: String, txt: String)

  /** What one `wav.scp` line contributes: the record written and the duration added to
      `total_time`, or nothing when the line is skipped. */
  function LineItem(v: Variant, d: map<String, String>, line: String): (r: Option<(Entry, int)>)
    ensures r.Some? ==> TwoTokens(line) == Some((r.value.0.key, r.value.0.wav))
    ensures r.Some? ==> r.value.0.key in d && r.value.0.txt == d[r.value.0.key]
  {
    match TwoTokens(line)
    case None => None
    case Some((key, wav)) =>
      if key !in d then None
      else
        var dur := KeyDuration(key);
        (match v
         case WriteUnparsed(calculate) =>
           Some((Entry(key, wav, d[key]), if calculate && dur.Some? then dur.value else 0))
         case SkipUnparsed =>
           if dur.None? then None else Some((Entry(key, wav, d[key]), dur.value)))
  }

  function LineItemFn(v: Variant, d: map<String, String>): String -> Option<(Entry, int)>
  {
    line => LineItem(v, d, line)
  }

  /** `time_limit_seconds` is set, and not zero (`--hours` absent or 0 means no limit). */
  predicate Limited(limit: Option<int>) {
    limit.Some? && limit.value != 0
  }

  /** The loop's `break`: the items up to and including the first that brings the running total,
      started at `acc`, to the limit. */
  function Cut<T>(items: seq<(T, int)>, limit: Option<int>, acc: int): (r: seq<(T, int)>)
    decreases |items|
  {
    if items == [] then []
    else
      var t := acc + items[0].1;
      if Limited(limit) && t >= limit.value then [items[0]] else [items[0]] + Cut(items[1..], limit, t)
  }

  /** What `generate_data_list` writes, with each record's duration. */
  function Generate(v: Variant, d: map<String, String>, lines: seq<String>, limit: Option<int>): seq<(Entry, int)>
  {
    Cut(FilterMap(LineItemFn(v, d), lines), limit, 0)
  }

  function EntriesOf<T>(items: seq<(T, int)>): (r: seq<T>)
    ensures |r| == |items|
  {
    seq(|items|, k requires 0 <= k < |items| => items[k].0)
  }

  /** `generate_data_list`: the records written, `total_time` and `entries_written`. */
  method GenerateDataList(v: Variant, wavLines: seq<String>, d: map<String, String>, limit: Option<int>)
    returns (out: seq<Entry>, totalMs: int, written: nat)
    ensures out == EntriesOf(Generate(v, d, wavLines, limit))
    ensures totalMs == SumItems(Generate(v, d, wavLines, limit))
    ensures written == |out|
  {
    out, totalMs, written := CutLoop(LineItemFn(v, d), wavLines, limit);
  }

  /** The loop of `generate_data_list` for any per-line item: write, add, and stop at the limit. */
  method CutLoop<A, T>(f: A -> Option<(T, int)>, lines: seq<A>, limit: Option<int>)
    returns (out: seq<T>, totalMs: int, written: nat)
    ensures out == EntriesOf(Cut(FilterMap(f, lines), limit, 0))
    ensures totalMs == SumItems(Cut(FilterMap(f, lines), limit, 0))
    ensures written == |out|
  {
    ghost var all := Cut(FilterMap(f, lines), limit, 0);
    assert all == CutFrom(f, lines, 0, limit, 0) by {
      CutFromIsCut(f, lines, 0, limit, 0);
      assert lines[0..] == lines;
    }
    ghost var items: seq<(T, int)> := [];
    out, totalMs, written := [], 0, 0;
    var i := 0;
    while i < |lines|
      invariant 0 <= i <= |lines|
      invariant all == items + CutFrom(f, lines, i, limit, totalMs)
      invariant totalMs == SumItems(items) && out == EntriesOf(items) && written == |out|
    {
      var o := f(lines[i]);
      if o.None? {
        CutFromSkip(f, lines, i, limit, all, items, totalMs);
      } else {
        var x := o.value;
        SumItemsStep(items, x);
        EntriesOfStep(items, x);
        CutFromTake(f, lines, i, limit, all, items, totalMs, x);
        items := items + [x];
        out := out + [x.0];
        totalMs := totalMs + x.1;
        written := written + 1;
        if Limited(limit) && totalMs >= limit.value {
          return;
        }
      }
      i := i + 1;
    }
    assert CutFrom(f, lines, i, limit, totalMs) == [];
    assert all == items;
  }

  /** The records the lines from `i` on give, read one line at a time as the loop reads them. */
  function CutFrom<A, T>(f: A -> Option<(T, int)>, lines: seq<A>, i: nat, limit: Option<int>, acc: int): seq<(T, int)>
    requires i <= |lines|
    decreases |lines| - i
  {
    if i == |lines| then []
    else
      match f(lines[i])
      case None => CutFrom(f, lines, i + 1, limit, acc)
      case Some(x) =>
        if Limited(limit) && acc + x.1 >= limit.value then [x] else [x] + CutFrom(f, lines, i + 1, limit, acc + x.1)
  }

  /** The loop invariant survives a line that yields no item. */
  lemma CutFromSkip<A, T>(f: A -> Option<(T, int)>, lines: seq<A>, i: nat, limit: Option<int>,
                          all: seq<(T, int)>, items: seq<(T, int)>, acc: int)
    requires i < |lines| && f(lines[i]).None?
    requires all == items + CutFrom(f, lines, i, limit, acc)
    ensures all == items + CutFrom(f, lines, i + 1, limit, acc)
  {
  }

  /** The loop invariant survives a line that yields an item: the item is written, and either
      the limit ends the records there or the lines after it continue them. */
  lemma CutFromTake<A, T>(f: A -> Option<(T, int)>, lines: seq<A>, i: nat, limit: Option<int>,
                          all: seq<(T, int)>, items: seq<(T, int)>, acc: int, x: (T, int))
    requires i < |lines| && f(lines[i]) == Some(x)
    requires all == items + CutFrom(f, lines, i, limit, acc)
    ensures Limited(limit) && acc + x.1 >= limit.value ==> all == items + [x]
    ensures !(Limited(limit) && acc + x.1 >= limit.value) ==>
      all == (items + [x]) + CutFrom(f, lines, i + 1, limit, acc + x.1)
  {
    AppendAssoc(items, [x], CutFrom(f, lines, i + 1, limit, acc + x.1));
  }

  /** Reading line by line writes the same records as cutting the filtered items. */
  lemma {:induction false} CutFromIsCut<A, T>(f: A -> Option<(T, int)>, lines: seq<A>, i: nat, limit: Option<int>, acc: int)
    requires i <= |lines|
    ensures CutFrom(f, lines, i, limit, acc) == Cut(FilterMap(f, lines[i..]), limit, acc)
    decreases |lines| - i
  {
    if i == |lines| {
      assert lines[i..] == [];
    } else if f(lines[i]).None? {
      CutSkip(f, lines, i, limit, acc);
      CutFromIsCut(f, lines, i + 1, limit, acc);
    } else {
      CutTake(f, lines, i, limit, acc);
      CutFromIsCut(f, lines, i + 1, limit, acc + f(lines[i]).value.1);
    }
  }

  /** A line that yields no item leaves the rest of the cut as it was. */
  lemma CutSkip<A, T>(f: A -> Option<(T, int)>, lines: seq<A>, i: nat, limit: Option<int>, acc: int)
    requires i < |lines| && f(lines[i]).None?
    ensures Cut(FilterMap(f, lines[i..]), limit, acc) == Cut(FilterMap(f, lines[i + 1..]), limit, acc)
  {
    FilterMapFront(f, lines, i);
    assert [] + FilterMap(f, lines[i + 1..]) == FilterMap(f, lines[i + 1..]);
  }

  /** A line that yields an item writes it; the cut ends there once the running total reaches
      the limit, and otherwise goes on with the lines after it. */
  lemma CutTake<A, T>(f: A -> Option<(T, int)>, lines: seq<A>, i: nat, limit: Option<int>, acc: int)
    requires i < |lines| && f(lines[i]).Some?
    ensures var x := f(lines[i]).value;
      Cut(FilterMap(f, lines[i..]), limit, acc) ==
      if Limited(limit) && acc + x.1 >= limit.value then [x] else [x] + Cut(FilterMap(f, lines[i + 1..]), limit, acc + x.1)
  {
    FilterMapFront(f, lines, i);
    CutFront(f(lines[i]).value, FilterMap(f, lines[i + 1..]), limit, acc);
  }

  lemma EntriesOfStep<T>(items: seq<(T, int)>, x: (T, int))
    ensures EntriesOf(items + [x]) == EntriesOf(items) + [x.0]
  {
  }

  lemma CutFront<T>(x: (T, int), rest: seq<(T, int)>, limit: Option<int>, acc: int)
    ensures Cut([x] + rest, limit, acc) ==
      if Limited(limit) && acc + x.1 >= limit.value then [x] else [x] + Cut(rest, limit, acc + x.1)
  {
    assert ([x] + rest)[1..] == rest;
  }

  lemma FilterMapFront<A, B>(f: A -> Option<B>, xs: seq<A>, i: nat)
    requires i < |xs|
    ensures FilterMap(f, xs[i..]) == (if f(xs[i]).Some? then [f(xs[i]).value] else []) + FilterMap(f, xs[i + 1..])
  {
    assert xs[i..] == [xs[i]] + xs[i + 1..];
    FilterMapAppend(f, [xs[i]], xs[i + 1..]);
    assert [xs[i]][..0] == [];
  }

  // ---------------------------------------------------------------------------------------------
  // what the limit does

  /** The limit only truncates: what is written is a prefix of what would be written without it. */
  lemma {:induction false} CutPrefix<T>(items: seq<(T, int)>, limit: Option<int>, acc: int)
    ensures |Cut(items, limit, acc)| <= |items| && Cut(items, limit, acc) == items[..|Cut(items, limit, acc)|]
    ensures items != [] ==> Cut(items, limit, acc) != []
    decreases |items|
  {
    if items != [] {
      CutPrefix(items[1..], limit, acc + items[0].1);
    }
  }

  /** With no limit nothing is cut. */
  lemma {:induction false} CutNoLimit<T>(items: seq<(T, int)>, limit: Option<int>, acc: int)
    requires !Limited(limit)
    ensures Cut(items, limit, acc) == items
    decreases |items|
  {
    if items != [] {
      CutNoLimit(items[1..], limit, acc + items[0].1);
    }
  }

  /** Every record but the last written one leaves the running total below the limit. */
  lemma {:induction false} CutBelow<T>(items: seq<(T, int)>, limit: Option<int>, acc: int)
    requires Limited(limit)
    ensures forall k :: 0 < k < |Cut(items, limit, acc)| ==> acc + SumItems(Cut(items, limit, acc)[..k]) < limit.value
    decreases |items|
  {
    if items != [] {
      var x, t := items[0], acc + items[0].1;
      if t < limit.value {
        var rest := Cut(items[1..], limit, t);
        CutBelow(items[1..], limit, t);
        var c := Cut(items, limit, acc);
        assert c == [x] + rest;
        forall k | 0 < k < |c| ensures acc + SumItems(c[..k]) < limit.value {
          assert c[..k] == [x] + rest[..k - 1];
          SumItemsFront(x, rest[..k - 1]);
          if k == 1 {
            assert rest[..0] == [];
          }
        }
      }
    }
  }

  /** When the limit cut the list short, the written records reach the limit. */
  lemma {:induction false} CutReached<T>(items: seq<(T, int)>, limit: Option<int>, acc: int)
    requires Limited(limit) && |Cut(items, limit, acc)| < |items|
    ensures acc + SumItems(Cut(items, limit, acc)) >= limit.value
    decreases |items|
  {
    var x, t := items[0], acc + items[0].1;
    if t >= limit.value {
      SumItemsFront(x, []);
      assert [x] + [] == [x];
    } else {
      CutReached(items[1..], limit, t);
      SumItemsFront(x, Cut(items[1..], limit, t));
    }
  }

  /** Without a limit every line with a key that has a transcript (and, in scp-text-list.py, a
      duration) is written, in `wav.scp` order. */
  lemma GenerateNoLimit(v: Variant, d: map<String, String>, lines: seq<String>, limit: Option<int>)
    requires !Limited(limit)
    ensures Generate(v, d, lines, limit) == FilterMap(LineItemFn(v, d), lines)
  {
    CutNoLimit(FilterMap(LineItemFn(v, d), lines), limit, 0);
  }

  /** Each record written comes from a `wav.scp` line, and the records keep the order of the lines. */
  lemma GenerateFromLines(v: Variant, d: map<String, String>, lines: seq<String>, limit: Option<int>, limitless: Option<int>)
    requires !Limited(limitless)
    ensures |Generate(v, d, lines, limit)| <= |Generate(v, d, lines, limitless)|
    ensures Generate(v, d, lines, limit) == Generate(v, d, lines, limitless)[..|Generate(v, d, lines, limit)|]
  {
    var all := FilterMap(LineItemFn(v, d), lines);
    CutPrefix(all, limit, 0);
    CutNoLimit(all, limitless, 0);
  }

  /** scp-text-list.py skips a key without a duration; process_text/scp-text-list.py writes it with
      duration 0. */
  lemma UnparsedKey(d: map<String, String>, line: String, key: String, wav: String, calculate: bool)
    requires TwoTokens(line) == Some((key, wav)) && key in d && KeyDuration(key) == None
    ensures LineItem(SkipUnparsed, d, line) == None
    ensures LineItem(WriteUnparsed(calculate), d, line) == Some((Entry(key, wav, d[key]), 0))
  {
  }

  /** A line without exactly two tokens, or whose key has no transcript, is skipped by both scripts. */
  lemma SkippedLines(v: Variant, d: map<String, String>, line: String)
    requires TwoTokens(line).None? || TwoTokens(line).value.0 !in d
    ensures LineItem(v, d, line) == None
  {
  }
}
