/** The TextGrid text extractors. compare-diff-result-textgrid.py, extract-txtgrid.py and processtxt.py
    each define `extract_textgrid_content`: cut the `内容层` tier out of a TextGrid file's text, pick
    the quoted `text = "..."` values, skip blank ones, strip punctuation and join the rest. The three
    differ only in the punctuation removed. compare-diff-result-textgrid.py then groups the results
    by file name and writes a comparison report; the other two write one `text` line per file. */
module TextGridExtract {
  import opened Wrappers
  import opened PyStr
  import opened Seqs
  import opened Digits

  /** The tier header the region starts at, the next tier's header it ends before, and the
      opening of a quoted interval text. */
  const Marker: String := "name = \"内容层\""
  const NextItem: String := "item [2]:"
  const TextOpen: String := "text = \""

  // ---- the tier region: content[start:end]

  /** `content[start:end]` with `start` the marker's first occurrence and `end` the first `item [2]:`
      from there. */
  function Region(content: String): (r: Option<String>)
    ensures r.None? <==> Find(content, Marker, 0) == -1
  {
    var start := Find(content, Marker, 0);
    if start == -1 then None else Some(Cut(content, start, Find(content, NextItem, start)))
  }

  /** `content[start:end]` for a found `end`, or for `end` -1, which Python reads as one before the end. */
  function Cut(content: String, start: nat, end: int): String
    requires start < |content| && -1 <= end <= |content| && (end != -1 ==> start <= end)
  {
    if end == -1 then content[start..|content| - 1] else content[start..end]
  }

  /** The region begins with the marker and runs up to the first `item [2]:` after it (which
      `Find` says is the first from the marker on); without one it is the rest of the text less its
      last character, which cuts into the marker itself when the text ends with it. */
  lemma RegionMeaning(content: String)
    requires Find(content, Marker, 0) != -1
    ensures var start := Find(content, Marker, 0); var end := Find(content, NextItem, start);
      && Region(content).Some?
      && (end != -1 ==> StartsWith(Region(content).value, Marker))
      && (end == -1 ==> Region(content).value + [content[|content| - 1]] == content[start..])
      && (end != -1 ==> Region(content).value + content[end..] == content[start..])
  {
    var start := Find(content, Marker, 0);
    var end := Find(content, NextItem, start);
    CutMeaning(content, start, end);
  }

  lemma CutMeaning(content: String, start: nat, end: int)
    requires OccursAt(content, Marker, start)
    requires end == -1 || (start <= end && OccursAt(content, NextItem, end))
    ensures end != -1 ==> StartsWith(Cut(content, start, end), Marker)
    ensures end == -1 ==> Cut(content, start, end) + [content[|content| - 1]] == content[start..]
    ensures end != -1 ==> Cut(content, start, end) + content[end..] == content[start..]
  {
    var region := Cut(content, start, end);
    if end != -1 {
      NoItemInMarker(content, start, end);
      assert region[..|Marker|] == content[start..start + |Marker|];
      assert content[start..end] + content[end..] == content[start..];
    } else {
      assert content[start..|content| - 1] + [content[|content| - 1]] == content[start..];
    }
  }

  /** `item [2]:` cannot start inside the marker: its first letter is not one of the marker's. */
  lemma NoItemInMarker(content: String, start: nat, end: nat)
    requires OccursAt(content, Marker, start) && OccursAt(content, NextItem, end) && start <= end
    ensures start + |Marker| <= end
  {
    assert content[end] == content[end..end + |NextItem|][0] == 'i';
    assert forall k :: 0 <= k < |Marker| ==> Marker[k] != 'i';
    forall j | start <= j < start + |Marker|
      ensures content[j] != 'i'
    {
      assert content[j] == content[start..start + |Marker|][j - start];
    }
  }

  // ---- re.findall(r'text = "(.*?)"', region)

  /** Where a lazy `(.*?)"` that starts at `k` closes: the first `"` from `k` on, unless a newline
      (which `.` does not match) or the end of the text comes first. */
  function CloseQuote(s: String, k: nat): (r: Option<nat>)
    ensures r.Some? ==> k <= r.value < |s| && s[r.value] == '"'
    ensures r.Some? ==> forall m :: k <= m < r.value ==> s[m] != '"' && s[m] != '\n'
    ensures r.None? ==> forall m :: k <= m < |s| && s[m] == '"' ==> exists n :: k <= n < m && s[n] == '\n'
    decreases |s| - k
  {
    if k >= |s| then None
    else if s[k] == '\n' then None
    else if s[k] == '"' then Some(k)
    else CloseQuote(s, k + 1)
  }

  /** Where the match attempted at `i` closes: `text = "` must occur there and its quote close. */
  function MatchAt(s: String, i: nat): (r: Option<nat>)
    ensures r.Some? ==> i + |TextOpen| <= r.value < |s| && OccursAt(s, TextOpen, i)
  {
    if OccursAt(s, TextOpen, i) then CloseQuote(s, i + |TextOpen|) else None
  }

  /** The group of every match of `text = "(.*?)"` from position `i` on, left to right: a match
      resumes the scan after its closing quote, a failed attempt one character on. */
  function QuotedFrom(s: String, i: nat): (r: seq<String>)
    decreases |s| - i
  {
    if i >= |s| then []
    else
      match MatchAt(s, i)
      case None => QuotedFrom(s, i + 1)
      case Some(j) => [s[i + |TextOpen|..j]] + QuotedFrom(s, j + 1)
  }

  /** No found text holds a quote or a newline: `.` stops at a newline and the lazy group at the
      first quote. */
  lemma {:induction false} QuotedPlain(s: String, i: nat)
    ensures forall k :: 0 <= k < |QuotedFrom(s, i)| ==> '"' !in QuotedFrom(s, i)[k] && '\n' !in QuotedFrom(s, i)[k]
    decreases |s| - i
  {
    if i < |s| {
      match MatchAt(s, i)
      case None =>
        QuotedPlain(s, i + 1);
      case Some(j) =>
        QuotedPlain(s, j + 1);
        var t := s[i + |TextOpen|..j];
        assert forall m :: 0 <= m < |t| ==> t[m] == s[i + |TextOpen| + m];
        assert '"' !in t && '\n' !in t;
        assert QuotedFrom(s, i) == [t] + QuotedFrom(s, j + 1);
    }
  }

  lemma SliceAfter(p: String, q: String, a: nat, b: nat)
    requires a <= b <= |q|
    ensures (p + q)[|p| + a..|p| + b] == q[a..b]
  {
  }

  lemma MatchShift(p: String, q: String, k: nat)
    ensures MatchAt(p + q, |p| + k) == (match MatchAt(q, k) case None => None case Some(j) => Some(|p| + j))
  {
    if k + |TextOpen| <= |q| {
      SliceAfter(p, q, k, k + |TextOpen|);
      CloseShift(p, q, k + |TextOpen|);
    }
  }

  /** The scan from a position depends only on the text from there on. */
  lemma {:induction false} QuotedShift(p: String, q: String, k: nat)
    ensures QuotedFrom(p + q, |p| + k) == QuotedFrom(q, k)
    decreases |q| - k
  {
    var s := p + q;
    if k < |q| {
      MatchShift(p, q, k);
      match MatchAt(q, k)
      case None =>
        assert QuotedFrom(s, |p| + k) == QuotedFrom(s, |p| + (k + 1));
        QuotedShift(p, q, k + 1);
      case Some(j) =>
        SliceAfter(p, q, k + |TextOpen|, j);
        assert QuotedFrom(s, |p| + k) == [q[k + |TextOpen|..j]] + QuotedFrom(s, |p| + (j + 1));
        QuotedShift(p, q, j + 1);
    }
  }

  lemma {:induction false} CloseShift(p: String, q: String, k: nat)
    ensures CloseQuote(p + q, |p| + k) == (match CloseQuote(q, k) case None => None case Some(j) => Some(|p| + j))
    decreases |q| - k
  {
    if k < |q| {
      assert (p + q)[|p| + k] == q[k];
      if q[k] != '\n' && q[k] != '"' {
        CloseShift(p, q, k + 1);
        assert |p| + k + 1 == |p| + (k + 1);
      }
    }
  }

  /** One interval's text line as a TextGrid file writes it. */
  function TextLine(t: String): String {
    TextOpen + t + "\"\n"
  }

  /** The interval text lines of a tier, one after another. */
  function Rendered(ts: seq<String>): String
  {
    if ts == [] then [] else TextLine(ts[0]) + Rendered(ts[1..])
  }

  /** Scanning written interval lines gives back the texts, when none holds a quote or a newline. */
  lemma {:induction false} QuotedRendered(ts: seq<String>)
    requires forall k :: 0 <= k < |ts| ==> '"' !in ts[k] && '\n' !in ts[k]
    ensures QuotedFrom(Rendered(ts), 0) == ts
  {
    if ts != [] {
      var rest := ts[1..];
      assert Rendered(ts) == TextLine(ts[0]) + Rendered(rest);
      assert forall k :: 0 <= k < |rest| ==> rest[k] == ts[k + 1];
      QuotedLine(ts[0], Rendered(rest));
      QuotedRendered(rest);
      assert ts == [ts[0]] + rest;
    }
  }

  /** A written interval line yields its text, and the scan goes on after the line. */
  lemma QuotedLine(t: String, rest: String)
    requires '"' !in t && '\n' !in t
    ensures QuotedFrom(TextLine(t) + rest, 0) == [t] + QuotedFrom(rest, 0)
  {
    var line := TextLine(t);
    var s := line + rest;
    var n := |TextOpen| + |t| + 1;
    LineMatches(t, rest);
    assert s[|TextOpen|..|TextOpen| + |t|] == t;
    assert QuotedFrom(s, 0) == [t] + QuotedFrom(s, n);
    assert |line| == n + 1;
    QuotedShift(line, rest, 0);
  }

  /** In a written line the match at its start closes at the quote after the text, and the newline
      after that quote starts none. */
  lemma LineMatches(t: String, rest: String)
    requires '"' !in t && '\n' !in t
    ensures MatchAt(TextLine(t) + rest, 0) == Some(|TextOpen| + |t|)
    ensures MatchAt(TextLine(t) + rest, |TextOpen| + |t| + 1) == None
  {
    var s := TextLine(t) + rest;
    assert s[..|TextOpen|] == TextOpen;
    CloseAfter(t, rest);
    var n := |TextOpen| + |t| + 1;
    assert s[n] == '\n';
    if n + |TextOpen| <= |s| {
      assert s[n..n + |TextOpen|][0] == '\n';
    }
  }

  lemma CloseAfter(t: String, rest: String)
    requires '"' !in t && '\n' !in t
    ensures CloseQuote(TextLine(t) + rest, |TextOpen|) == Some(|TextOpen| + |t|)
  {
    var s := TextLine(t) + rest;
    assert s[|TextOpen| + |t|] == '"';
    assert forall m :: |TextOpen| <= m < |TextOpen| + |t| ==> s[m] == t[m - |TextOpen|];
  }

  /** The tier header itself starts no match: it holds no `t`. */
  lemma {:induction false} QuotedAfterMarker(rest: String, i: nat)
    requires i <= |Marker|
    ensures QuotedFrom(Marker + rest, i) == QuotedFrom(Marker + rest, |Marker|)
    decreases |Marker| - i
  {
    if i < |Marker| {
      var s := Marker + rest;
      assert s[i] == Marker[i];
      assert forall k :: 0 <= k < |Marker| ==> Marker[k] != 't';
      if i + |TextOpen| <= |s| {
        assert s[i..i + |TextOpen|][0] == s[i];
      }
      QuotedAfterMarker(rest, i + 1);
    }
  }

  /** A tier region made of the header and written interval lines yields exactly those texts. */
  lemma TierTexts(ts: seq<String>)
    requires forall k :: 0 <= k < |ts| ==> '"' !in ts[k] && '\n' !in ts[k]
    ensures QuotedFrom(Marker + Rendered(ts), 0) == ts
  {
    var r := Rendered(ts);
    var m := |Marker|;
    assert QuotedFrom(Marker + r, 0) == QuotedFrom(Marker + r, m) by {
      QuotedAfterMarker(r, 0);
    }
    assert QuotedFrom(Marker + r, m) == QuotedFrom(r, 0) by {
      QuotedShift(Marker, r, 0);
      assert m + 0 == m;
    }
    QuotedRendered(ts);
  }

  // ---- cleaning

  /** Which punctuation a script removes: compare-diff-result-textgrid.py all of `string.punctuation`,
      extract-txtgrid.py and processtxt.py the class `[，。？！,.!?]`. */
  datatype Punct = AsciiPunctuation | SentenceMarks

  /** `string.punctuation`: the printable ASCII characters that are neither letters, digits nor space. */
  predicate IsAsciiPunct(c: char) {
    ('!' <= c <= '/') || (':' <= c <= '@') || ('[' <= c <= '`') || ('{' <= c <= '~')
  }

  const SentenceMarkChars: String := "，。？！,.!?"

  predicate Removed(p: Punct, c: char) {
    match p
    case AsciiPunctuation => IsAsciiPunct(c)
    case SentenceMarks => c in SentenceMarkChars
  }

  function KeepFn(p: Punct): char -> bool {
    c => !Removed(p, c)
  }

  /** `text.translate(...)` or `re.sub(...)`: every character not removed, in order. */
  function Clean(p: Punct, t: String): String {
    Filter(KeepFn(p), t)
  }

  /** A character survives cleaning exactly when it is in the text and not removed; cleaning twice is
      cleaning once; compare-diff-result-textgrid.py keeps every non-ASCII character (so the full-width
      marks stay), the other two every ASCII punctuation mark other than `,.!?`. */
  lemma CleanMeaning(p: Punct, t: String, c: char)
    ensures c in Clean(p, t) <==> c in t && !Removed(p, c)
    ensures Clean(p, Clean(p, t)) == Clean(p, t)
    ensures p == AsciiPunctuation && c in t && c > '~' ==> c in Clean(p, t)
    ensures p == SentenceMarks && c in t && IsAsciiPunct(c) && c !in ",.!?" ==> c in Clean(p, t)
  {
    FilterMembers(KeepFn(p), t, c);
    FilterIdempotent(KeepFn(p), t);
    if IsAsciiPunct(c) {
      AsciiSentenceMarks(c);
    }
  }

  /** Among ASCII characters the sentence marks are `,.!?`; the other four are full-width. */
  lemma AsciiSentenceMarks(c: char)
    requires c <= '~'
    ensures c in SentenceMarkChars <==> c in ",.!?"
  {
    assert forall k :: 0 <= k < 4 ==> SentenceMarkChars[k] > '~';
    assert SentenceMarkChars[4..] == ",.!?";
    assert SentenceMarkChars == SentenceMarkChars[..4] + SentenceMarkChars[4..];
  }

  // ---- extract_textgrid_content

  /** A found text is kept, cleaned, when it is not blank; blankness is judged before cleaning. */
  function Kept(p: Punct, t: String): Option<String> {
    if Strip(t) != [] then Some(Clean(p, t)) else None
  }

  function KeptFn(p: Punct): String -> Option<String> {
    t => Kept(p, t)
  }

  /** What `extract_textgrid_content` returns: nothing without the marker, else the kept texts of
      the region joined with no separator. */
  function Content(p: Punct, content: String): (r: String)
    ensures Find(content, Marker, 0) == -1 ==> r == []
  {
    match Region(content)
    case None => []
    case Some(region) => Concat(FilterMap(KeptFn(p), QuotedFrom(region, 0)))
  }

  /** The extractor's loop: find the region, scan it, append each kept text, join. */
  method ExtractTextGridContent(p: Punct, content: String) returns (r: String)
    ensures r == Content(p, content)
  {
    var start := Find(content, Marker, 0);
    if start == -1 {
      return [];
    }
    var end := Find(content, NextItem, start);
    var region := Cut(content, start, end);
    var intervals := QuotedFrom(region, 0);
    var textLines: seq<String> := [];
    for i := 0 to |intervals|
      invariant textLines == FilterMap(KeptFn(p), intervals[..i])
    {
      FilterMapStep(KeptFn(p), intervals, i);
      var text := intervals[i];
      if Strip(text) != [] {
        textLines := textLines + [Clean(p, text)];
      }
    }
    assert intervals[..|intervals|] == intervals;
    r := Concat(textLines);
  }

  /** Every character of a join comes from one of the parts. */
  lemma {:induction false} ConcatChars(parts: seq<String>, c: char)
    requires c in Concat(parts)
    ensures exists k :: 0 <= k < |parts| && c in parts[k]
  {
    var init := parts[..|parts| - 1];
    if c in Concat(init) {
      ConcatChars(init, c);
      var k :| 0 <= k < |init| && c in init[k];
      assert parts[k] == init[k];
    } else {
      assert c in parts[|parts| - 1];
    }
  }

  /** Every character of the kept texts, joined, is a character of some found text that cleaning
      keeps. */
  lemma KeptChars(p: Punct, texts: seq<String>, c: char) returns (j: nat)
    requires c in Concat(FilterMap(KeptFn(p), texts))
    ensures j < |texts| && c in texts[j] && !Removed(p, c)
  {
    var kept := FilterMap(KeptFn(p), texts);
    ConcatChars(kept, c);
    var k :| 0 <= k < |kept| && c in kept[k];
    assert kept[k] in kept;
    FilterMapMembers(KeptFn(p), texts, kept[k]);
    j :| 0 <= j < |texts| && Kept(p, texts[j]) == Some(kept[k]);
    CleanMeaning(p, texts[j], c);
  }

  lemma RegionChars(content: String, c: char)
    requires Region(content).Some? && c in Region(content).value
    ensures c in content
  {
    var region := Region(content).value;
    var start := Find(content, Marker, 0);
    var m :| 0 <= m < |region| && region[m] == c;
    assert c == content[start + m];
  }

  /** The extracted content holds no removed punctuation, no quote and no newline, and every
      character of it is a character of the file's text. */
  lemma ContentChars(p: Punct, content: String, c: char)
    requires c in Content(p, content)
    ensures !Removed(p, c) && c != '"' && c != '\n' && c in content
  {
    var region := Region(content).value;
    var texts := QuotedFrom(region, 0);
    var j := KeptChars(p, texts, c);
    QuotedPlain(region, 0);
    QuotedChars(region, 0, j, c);
    RegionChars(content, c);
  }

  /** Every character of a found text is a character of the scanned text. */
  lemma {:induction false} QuotedChars(s: String, i: nat, j: nat, c: char)
    requires j < |QuotedFrom(s, i)| && c in QuotedFrom(s, i)[j]
    ensures c in s
    decreases |s| - i
  {
    match MatchAt(s, i)
    case None =>
      QuotedChars(s, i + 1, j, c);
    case Some(e) =>
      var t := s[i + |TextOpen|..e];
      assert QuotedFrom(s, i) == [t] + QuotedFrom(s, e + 1);
      if j == 0 {
        var m :| 0 <= m < |t| && t[m] == c;
        assert s[i + |TextOpen| + m] == c;
      } else {
        QuotedChars(s, e + 1, j - 1, c);
      }
  }

  // ---- compare-diff-result-textgrid.py: contents grouped by file name

  /** One file `os.walk` reported: the directory it is in and its name. The walks of all the input
      folders, one after another, give the traversal order. */
  datatype Walked = Walked(root: String, file: String)

  /** The name a file is grouped under: its basename with every `.TextGrid` removed. */
  function GroupName(file: String): String {
    ReplaceAll(Basename(file), ".TextGrid", "")
  }

  /** A `.TextGrid` file, read through `read`, gives its name and its extracted content. */
  function Found(read: String -> String, w: Walked): Option<(String, String)> {
    if EndsWith(w.file, ".TextGrid") then Some((GroupName(w.file), Content(AsciiPunctuation, read(PathJoin(w.root, w.file)))))
    else None
  }

  function FoundFn(read: String -> String): Walked -> Option<(String, String)> {
    w => Found(read, w)
  }

  /** `file_contents[name].append(c)` after creating an empty list for a new name, on the dict's
      items in insertion order. */
  function AddContent(d: seq<(String, seq<String>)>, name: String, c: String): seq<(String, seq<String>)> {
    Assign(d, name, if Lookup(d, name).Some? then Lookup(d, name).value + [c] else [c])
  }

  /** `file_contents` after the found files, in order. */
  function Grouped(found: seq<(String, String)>): seq<(String, seq<String>)> {
    if found == [] then []
    else
      var e := found[|found| - 1];
      AddContent(Grouped(found[..|found| - 1]), e.0, e.1)
  }

  function Under(name: String, e: (String, String)): Option<String> {
    if e.0 == name then Some(e.1) else None
  }

  function UnderFn(name: String): ((String, String)) -> Option<String> {
    e => Under(name, e)
  }

  /** The contents found under a name, in the order found. */
  function ContentsOf(found: seq<(String, String)>, name: String): seq<String> {
    FilterMap(UnderFn(name), found)
  }

  /** The grouping lists each name once, in the order first found. */
  lemma {:induction false} GroupedKeys(found: seq<(String, String)>)
    ensures KeySeq(Grouped(found)) == Dedup(KeySeq(found))
  {
    if found != [] {
      var n := |found|;
      var init := found[..n - 1];
      var e := found[n - 1];
      var g := Grouped(init);
      GroupedKeys(init);
      AssignKeys(g, e.0, if Lookup(g, e.0).Some? then Lookup(g, e.0).value + [e.1] else [e.1]);
      DedupDistinct(KeySeq(init));
      assert KeySeq(found)[..n - 1] == KeySeq(init);
    }
  }

  /** Under each name the grouping holds every content found for it, in order; a name never found
      has no entry. */
  lemma {:induction false} GroupedLookup(found: seq<(String, String)>, name: String)
    ensures Lookup(Grouped(found), name) == if name in KeySeq(found) then Some(ContentsOf(found, name)) else None
  {
    if found != [] {
      var n := |found|;
      var init := found[..n - 1];
      var e := found[n - 1];
      var g := Grouped(init);
      GroupedLookup(init, name);
      var v := if Lookup(g, e.0).Some? then Lookup(g, e.0).value + [e.1] else [e.1];
      AssignLookup(g, e.0, v, name);
      assert found[..n] == found;
      FilterMapStep(UnderFn(name), found, n - 1);
      assert UnderFn(name)(e) == Under(name, e);
      assert KeySeq(found) == KeySeq(init) + [e.0];
      assert Grouped(found) == Assign(g, e.0, v);
      if name == e.0 {
        assert ContentsOf(found, name) == ContentsOf(init, name) + [e.1];
        if name !in KeySeq(init) {
          ContentsNone(init, name);
          assert v == [e.1] == [] + [e.1];
          assert name in KeySeq(found);
        } else {
          assert v == ContentsOf(init, name) + [e.1];
        }
      } else {
        assert ContentsOf(found, name) == ContentsOf(init, name);
      }
    }
  }

  lemma {:induction false} ContentsNone(found: seq<(String, String)>, name: String)
    requires name !in KeySeq(found)
    ensures ContentsOf(found, name) == []
  {
    if found != [] {
      var n := |found|;
      assert KeySeq(found[..n - 1]) == KeySeq(found)[..n - 1];
      ContentsNone(found[..n - 1], name);
      assert found[..n] == found;
      FilterMapStep(UnderFn(name), found, n - 1);
    }
  }

  /** The script's two statements for one file: create the empty list when the name is new, then
      append. */
  method AddTo(d: seq<(String, seq<String>)>, name: String, c: String) returns (r: seq<(String, seq<String>)>)
    ensures r == AddContent(d, name, c)
  {
    r := d;
    if Lookup(r, name).None? {
      AssignLookup(d, name, [], name);
      AssignTwice(d, name, [], [c]);
      r := Assign(r, name, []);
      assert Lookup(r, name) == Some([]);
      assert [] + [c] == [c];
    }
    r := Assign(r, name, Lookup(r, name).value + [c]);
  }

  /** Assigning a key twice leaves the second value in the first one's place. */
  lemma {:induction false} AssignTwice<K, V>(d: seq<(K, V)>, k: K, v: V, w: V)
    ensures Assign(Assign(d, k, v), k, w) == Assign(d, k, w)
    decreases |d|
  {
    if d != [] && d[0].0 != k {
      AssignTwice(d[1..], k, v, w);
      assert Assign(d, k, v)[1..] == Assign(d[1..], k, v);
    }
  }

  /** The collecting loops: every walked `.TextGrid` file is read, extracted and appended under its
      name. */
  method CollectContents(read: String -> String, walk: seq<Walked>) returns (fileContents: seq<(String, seq<String>)>)
    ensures fileContents == Grouped(FilterMap(FoundFn(read), walk))
  {
    fileContents := [];
    for i := 0 to |walk|
      invariant fileContents == Grouped(FilterMap(FoundFn(read), walk[..i]))
    {
      ghost var f := FoundFn(read);
      FilterMapStep(f, walk, i);
      assert f(walk[i]) == Found(read, walk[i]);
      GroupedSnocFound(FilterMap(f, walk[..i]), Found(read, walk[i]));
      fileContents := CollectOne(read, fileContents, walk[i]);
    }
    assert walk[..|walk|] == walk;
  }

  /** One walked file: a `.TextGrid` file's content goes under its name, any other file is passed over. */
  method CollectOne(read: String -> String, fileContents: seq<(String, seq<String>)>, w: Walked) returns (r: seq<(String, seq<String>)>)
    ensures Found(read, w).None? ==> r == fileContents
    ensures Found(read, w).Some? ==> r == AddContent(fileContents, Found(read, w).value.0, Found(read, w).value.1)
  {
    r := fileContents;
    if EndsWith(w.file, ".TextGrid") {
      var fileName := GroupName(w.file);
      var filePath := PathJoin(w.root, w.file);
      var extracted := ExtractTextGridContent(AsciiPunctuation, read(filePath));
      r := AddTo(r, fileName, extracted);
    }
  }

  lemma GroupedSnocFound(found: seq<(String, String)>, e: Option<(String, String)>)
    ensures Grouped(found + (if e.Some? then [e.value] else [])) == if e.Some? then AddContent(Grouped(found), e.value.0, e.value.1) else Grouped(found)
  {
    if e.Some? {
      GroupedSnoc(found, e.value);
    } else {
      assert found + [] == found;
    }
  }

  lemma GroupedSnoc(found: seq<(String, String)>, e: (String, String))
    ensures Grouped(found + [e]) == AddContent(Grouped(found), e.0, e.1)
  {
    assert (found + [e])[..|found|] == found;
  }

  // ---- compare-diff-result-textgrid.py: the report

  /** The line numbered `idx + 1` of a name that does not have exactly three contents. */
  function PartLine(idx: nat, c: String): String {
    "部分 " + NatToString(idx + 1) + ": " + c + "\n"
  }

  function PartLines(contents: seq<String>): seq<String> {
    if contents == [] then [] else PartLines(contents[..|contents| - 1]) + [PartLine(|contents| - 1, contents[|contents| - 1])]
  }

  /** The labelled lines, written only for a name with exactly three contents: the reference
      transcript, then the two models' results. */
  function LabelledLines(contents: seq<String>): seq<String>
    requires |contents| == 3
  {
    ["  标注文本: " + contents[0] + "\n", "v4.6.0模型: " + contents[1] + "\n", " 调优后模型: " + contents[2] + "\n"]
  }

  /** The writes for one name: its header, its content lines, an empty line. */
  function BlockLines(name: String, contents: seq<String>): seq<String> {
    ["文件名: " + name + "\n"] + (if |contents| == 3 then LabelledLines(contents) else PartLines(contents)) + ["\n"]
  }

  /** The writes of the whole report, name by name in the dict's order. */
  function ReportLines(items: seq<(String, seq<String>)>): seq<String> {
    if items == [] then [] else ReportLines(items[..|items| - 1]) + BlockLines(items[|items| - 1].0, items[|items| - 1].1)
  }

  /** The `enumerate` lines number the contents from 1, one line each, in order. */
  lemma {:induction false} PartLinesMeaning(contents: seq<String>)
    ensures |PartLines(contents)| == |contents|
    ensures forall i :: 0 <= i < |contents| ==> PartLines(contents)[i] == PartLine(i, contents[i])
  {
    if contents != [] {
      var init := contents[..|contents| - 1];
      PartLinesMeaning(init);
      assert forall i :: 0 <= i < |init| ==> init[i] == contents[i];
    }
  }

  /** A block is the header, then three labelled lines exactly when the name has three contents and
      otherwise one numbered line per content, then the empty line. */
  lemma BlockShape(name: String, contents: seq<String>)
    ensures var b := BlockLines(name, contents);
      && |b| == 2 + |contents|
      && b[0] == "文件名: " + name + "\n" && b[|b| - 1] == "\n"
      && (|contents| == 3 ==> b[1..4] == LabelledLines(contents))
      && (|contents| != 3 ==> forall i :: 0 <= i < |contents| ==> b[i + 1] == PartLine(i, contents[i]))
  {
    PartLinesMeaning(contents);
    var b := BlockLines(name, contents);
    if |contents| == 3 {
      assert b[1..4] == LabelledLines(contents);
    }
  }

  /** The report writes every name's block in turn. */
  lemma ReportAppend(items: seq<(String, seq<String>)>, item: (String, seq<String>))
    ensures ReportLines(items + [item]) == ReportLines(items) + BlockLines(item.0, item.1)
  {
    assert (items + [item])[..|items|] == items;
  }

  /** The writing loops: each name's header, its lines, the empty line. */
  method WriteReport(fileContents: seq<(String, seq<String>)>) returns (writes: seq<String>)
    ensures writes == ReportLines(fileContents)
  {
    writes := [];
    for i := 0 to |fileContents|
      invariant writes == ReportLines(fileContents[..i])
    {
      var block := WriteBlock(fileContents[i].0, fileContents[i].1);
      ReportAppend(fileContents[..i], fileContents[i]);
      assert fileContents[..i + 1] == fileContents[..i] + [fileContents[i]];
      writes := writes + block;
    }
    assert fileContents[..|fileContents|] == fileContents;
  }

  method WriteBlock(name: String, contents: seq<String>) returns (block: seq<String>)
    ensures block == BlockLines(name, contents)
  {
    var lines: seq<String>;
    if |contents| == 3 {
      lines := ["  标注文本: " + contents[0] + "\n", "v4.6.0模型: " + contents[1] + "\n", " 调优后模型: " + contents[2] + "\n"];
    } else {
      lines := [];
      for idx := 0 to |contents|
        invariant lines == PartLines(contents[..idx])
      {
        assert contents[..idx + 1][..idx] == contents[..idx];
        lines := lines + [PartLine(idx, contents[idx])];
      }
      assert contents[..|contents|] == contents;
    }
    block := ["文件名: " + name + "\n"] + lines + ["\n"];
  }

  /** The whole comparison: collect, then write `compare.txt`. */
  method CompareResults(read: String -> String, walk: seq<Walked>) returns (report: String)
    ensures report == Concat(ReportLines(Grouped(FilterMap(FoundFn(read), walk))))
  {
    var fileContents := CollectContents(read, walk);
    var writes := WriteReport(fileContents);
    report := Concat(writes);
  }

  /** A file named `stem.TextGrid`, with no `/` and no other `.TextGrid` in it, groups under `stem`. */
  lemma GroupNameOf(stem: String)
    requires '/' !in stem
    requires forall i :: 0 <= i < |stem| ==> !OccursAt(stem + ".TextGrid", ".TextGrid", i)
    ensures GroupName(stem + ".TextGrid") == stem
  {
    assert '/' !in ".TextGrid";
    assert '/' !in stem + ".TextGrid";
    BasenameOfName(stem + ".TextGrid");
    ReplaceSuffix(stem, ".TextGrid", "");
    assert stem + "" == stem;
  }

  // ---- extract-txtgrid.py and processtxt.py: the `text` file

  function TgPath(w: Walked): Option<String> {
    if EndsWith(w.file, ".TextGrid") then Some(PathJoin(w.root, w.file)) else None
  }

  function TgPathFn(): Walked -> Option<String> {
    w => TgPath(w)
  }

  /** A `text` line: the basename with `.TextGrid` turned into a space, the content, a newline. */
  function OutputLine(tgFile: String, extracted: String): String {
    ReplaceAll(Basename(tgFile), ".TextGrid", " ") + extracted + "\n"
  }

  /** The lines written for the collected files, in order. */
  function TextOutput(read: String -> String, tgFiles: seq<String>): seq<String> {
    MapSeq(FileLineFn(read), tgFiles)
  }

  /** The line written for one collected file. */
  function FileLineFn(read: String -> String): String -> String {
    f => OutputLine(f, Content(SentenceMarks, read(f)))
  }

  /** The `text` file holds one line per collected file, in the order collected. */
  lemma TextOutputMeaning(read: String -> String, tgFiles: seq<String>)
    ensures |TextOutput(read, tgFiles)| == |tgFiles|
    ensures forall i :: 0 <= i < |tgFiles| ==> TextOutput(read, tgFiles)[i] == OutputLine(tgFiles[i], Content(SentenceMarks, read(tgFiles[i])))
  {
  }

  /** The collecting loop, then the writing loop. */
  method ExtractTexts(read: String -> String, walk: seq<Walked>) returns (tgFiles: seq<String>, lines: seq<String>)
    ensures tgFiles == FilterMap(TgPathFn(), walk)
    ensures lines == TextOutput(read, tgFiles)
  {
    tgFiles := CollectTgFiles(walk);
    lines := WriteTexts(read, tgFiles);
  }

  /** `tg_files`: the joined path of every walked `.TextGrid` file, in traversal order. */
  method CollectTgFiles(walk: seq<Walked>) returns (tgFiles: seq<String>)
    ensures tgFiles == FilterMap(TgPathFn(), walk)
  {
    tgFiles := [];
    for i := 0 to |walk|
      invariant tgFiles == FilterMap(TgPathFn(), walk[..i])
    {
      ghost var f := TgPathFn();
      FilterMapStep(f, walk, i);
      assert f(walk[i]) == TgPath(walk[i]);
      if EndsWith(walk[i].file, ".TextGrid") {
        tgFiles := tgFiles + [PathJoin(walk[i].root, walk[i].file)];
      }
    }
    assert walk[..|walk|] == walk;
  }

  /** One line per collected file. */
  method WriteTexts(read: String -> String, tgFiles: seq<String>) returns (lines: seq<String>)
    ensures lines == TextOutput(read, tgFiles)
  {
    lines := [];
    for i := 0 to |tgFiles|
      invariant lines == TextOutput(read, tgFiles[..i])
    {
      var extracted := ExtractTextGridContent(SentenceMarks, read(tgFiles[i]));
      MapSeqStep(FileLineFn(read), tgFiles, i);
      lines := lines + [OutputLine(tgFiles[i], extracted)];
    }
    assert tgFiles[..|tgFiles|] == tgFiles;
  }

  /** For `root/stem.TextGrid`, with no `/` and no other `.TextGrid` in `stem`, the line is the stem,
      a space and the content. */
  lemma OutputLineOf(root: String, stem: String, extracted: String)
    requires '/' !in stem
    requires forall i :: 0 <= i < |stem| ==> !OccursAt(stem + ".TextGrid", ".TextGrid", i)
    ensures OutputLine(PathJoin(root, stem + ".TextGrid"), extracted) == stem + " " + extracted + "\n"
  {
    assert '/' !in ".TextGrid";
    assert '/' !in stem + ".TextGrid";
    BasenameJoin(root, stem + ".TextGrid");
    ReplaceSuffix(stem, ".TextGrid", " ");
  }

  /** A line ends with its only newline when the file's name has none, so the `text` file has one
      line per TextGrid file. */
  lemma OutputLineSingle(read: String -> String, tgFile: String)
    requires '\n' !in Basename(tgFile)
    ensures var line := OutputLine(tgFile, Content(SentenceMarks, read(tgFile)));
      line[|line| - 1] == '\n' && '\n' !in line[..|line| - 1]
  {
    var extracted := Content(SentenceMarks, read(tgFile));
    var name := ReplaceAll(Basename(tgFile), ".TextGrid", " ");
    var line := OutputLine(tgFile, extracted);
    assert line[..|line| - 1] == name + extracted;
    if '\n' in name {
      ReplaceAllChars(Basename(tgFile), ".TextGrid", " ", '\n');
    }
    if '\n' in extracted {
      ContentChars(SentenceMarks, read(tgFile), '\n');
    }
  }
}
