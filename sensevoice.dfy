/**
  sensevoice.py's post-processing of a SenseVoice transcript: the most frequent `<|TAG|>` emotion tag,
  the transcript from its first CJK ideograph on, and the transcript without emoji.
*/
module SenseVoice {
  import opened Wrappers
  import opened PyStr

  // ---------------------------------------------------------------------------------------------
  // emotion_tag

  predicate IsUpper(c: char) {
    'A' <= c <= 'Z'
  }

  /** The longest prefix of `[A-Z]` characters. */
  function UpperRun(s: String): (r: nat)
    ensures r <= |s| && (forall i :: 0 <= i < r ==> IsUpper(s[i])) && (r < |s| ==> !IsUpper(s[r]))
  {
    if s != [] && IsUpper(s[0]) then 1 + UpperRun(s[1..]) else 0
  }

  /** A match of `<\|([A-Z]+)\|>` at the front of `s`: the group and the length of the match. Only
      the whole run of capitals can be followed by `|`, so backtracking finds no other match. */
  function TagAt(s: String): (r: Option<(String, nat)>)
    ensures r.Some? ==> 0 < r.value.1 <= |s| && r.value.0 != [] && forall i :: 0 <= i < |r.value.0| ==> IsUpper(r.value.0[i])
    ensures r.Some? ==> s[..r.value.1] == "<|" + r.value.0 + "|>"
  {
    if |s| < 2 || s[0] != '<' || s[1] != '|' then None
    else
      var n := UpperRun(s[2..]);
      if n == 0 || |s| < 2 + n + 2 || s[2 + n] != '|' || s[2 + n + 1] != '>' then None
      else
        assert s[..n + 4] == "<|" + s[2..2 + n] + "|>";
        Some((s[2..2 + n], n + 4))
  }

  /** `re.findall(pattern, text)`: the groups of the non-overlapping matches, scanning left to right. */
  function FindTags(s: String): (r: seq<String>)
    decreases |s|
  {
    if s == [] then []
    else
      match TagAt(s)
      case Some((tag, len)) => [tag] + FindTags(s[len..])
      case None => FindTags(s[1..])
  }

  /** A tag written `<|TAG|>` in front of a text is found first. */
  lemma FindTagsFront(tag: String, rest: String)
    requires tag != [] && forall i :: 0 <= i < |tag| ==> IsUpper(tag[i])
    ensures FindTags("<|" + tag + "|>" + rest) == [tag] + FindTags(rest)
  {
    var s := "<|" + tag + "|>" + rest;
    assert s[2..] == tag + ("|>" + rest);
    UpperRunOf(tag, "|>" + rest);
    assert s[2..2 + |tag|] == tag;
    assert s[|tag| + 4..] == rest;
  }

  lemma {:induction false} UpperRunOf(run: String, rest: String)
    requires (forall i :: 0 <= i < |run| ==> IsUpper(run[i])) && (rest != [] ==> !IsUpper(rest[0]))
    ensures UpperRun(run + rest) == |run|
  {
    if run == [] {
      assert run + rest == rest;
    } else {
      assert (run + rest)[1..] == run[1..] + rest;
      UpperRunOf(run[1..], rest);
    }
  }

  /** A text without `<` has no tags. */
  lemma {:induction false} NoTagsWithoutAngle(s: String)
    requires '<' !in s
    ensures FindTags(s) == []
    decreases |s|
  {
    if s != [] {
      assert '<' !in s[1..];
      NoTagsWithoutAngle(s[1..]);
    }
  }

  /** How often a tag was found. */
  function Count(tags: seq<String>, t: String): nat
  {
    if tags == [] then 0 else Count(tags[..|tags| - 1], t) + (if tags[|tags| - 1] == t then 1 else 0)
  }

  /** The position of a tag's first occurrence. */
  function FirstIndex(tags: seq<String>, t: String): (i: nat)
    requires t in tags
    ensures i < |tags| && tags[i] == t && t !in tags[..i]
  {
    if tags[0] == t then 0 else 1 + FirstIndex(tags[1..], t)
  }

  /** `Counter(tags).most_common(1)[0][0]` over the first `n` tags: `Counter` keeps tags in order of
      first appearance and `most_common(1)` takes `max` by count, which returns the first maximal
      item, so of the most frequent tags the one that appears first wins. */
  function MostCommon(tags: seq<String>, n: nat): String
    requires 0 < n <= |tags|
  {
    if n == 1 then tags[0]
    else
      var b := MostCommon(tags, n - 1);
      if Count(tags, tags[n - 1]) > Count(tags, b) then tags[n - 1] else b
  }

  /** `emotion_tag` */
  function EmotionTag(text: String): (r: Option<String>)
    ensures r.None? <==> FindTags(text) == []
  {
    var tags := FindTags(text);
    if tags == [] then None else Some(MostCommon(tags, |tags|))
  }

  /** The most common of the first `n` tags is one of them, no tag among them is more frequent, and
      every as frequent one appears no earlier. */
  lemma {:induction false} MostCommonIsMax(tags: seq<String>, n: nat)
    requires 0 < n <= |tags|
    ensures MostCommon(tags, n) in tags[..n]
    ensures forall t :: t in tags[..n] ==> Count(tags, t) <= Count(tags, MostCommon(tags, n))
    ensures forall t :: t in tags[..n] && Count(tags, t) == Count(tags, MostCommon(tags, n)) ==>
      FirstIndex(tags, MostCommon(tags, n)) <= FirstIndex(tags, t)
  {
    var r := MostCommon(tags, n);
    if n == 1 {
      assert tags[..1] == [tags[0]];
    } else {
      var b := MostCommon(tags, n - 1);
      MostCommonIsMax(tags, n - 1);
      assert tags[..n] == tags[..n - 1] + [tags[n - 1]];
      FirstIndexBelow(tags, b, n - 1);
      forall t | t in tags[..n] && Count(tags, t) == Count(tags, r)
        ensures FirstIndex(tags, r) <= FirstIndex(tags, t)
      {
        if t !in tags[..n - 1] {
          assert t == tags[n - 1];
          FirstIndexAt(tags, t, n - 1);
        }
      }
    }
  }

  lemma FirstIndexBelow(tags: seq<String>, t: String, n: nat)
    requires n <= |tags| && t in tags[..n]
    ensures FirstIndex(tags, t) < n
  {
    var k :| 0 <= k < n && tags[..n][k] == t;
    FirstIndexAt(tags, t, k);
  }

  lemma {:induction false} FirstIndexAt(tags: seq<String>, t: String, k: nat)
    requires k < |tags| && tags[k] == t
    ensures FirstIndex(tags, t) <= k
    ensures t !in tags[..k] ==> FirstIndex(tags, t) == k
  {
    if tags[0] != t {
      assert tags[1..][k - 1] == t;
      FirstIndexAt(tags[1..], t, k - 1);
      if t !in tags[..k] {
        assert t !in tags[1..][..k - 1] by {
          assert tags[1..][..k - 1] == tags[1..k];
        }
      }
    }
  }

  /** A text with a tag yields a tag found in it, of maximal count, that first appears no later than
      any other of that count. */
  lemma EmotionTagMeaning(text: String)
    requires FindTags(text) != []
    ensures EmotionTag(text).Some? && EmotionTag(text).value in FindTags(text)
    ensures forall t :: t in FindTags(text) ==> Count(FindTags(text), t) <= Count(FindTags(text), EmotionTag(text).value)
    ensures forall t :: t in FindTags(text) && Count(FindTags(text), t) == Count(FindTags(text), EmotionTag(text).value) ==>
      FirstIndex(FindTags(text), EmotionTag(text).value) <= FirstIndex(FindTags(text), t)
  {
    var tags := FindTags(text);
    MostCommonIsMax(tags, |tags|);
    assert tags[..|tags|] == tags;
  }

  // ---------------------------------------------------------------------------------------------
  // format_str

  /** `[一-龥]` */
  predicate IsHan(c: char) {
    '\U{4E00}' <= c <= '\U{9FA5}'
  }

  /** The position of the first ideograph, if any. */
  function FirstHan(s: String): (r: Option<nat>)
    ensures r.Some? ==> r.value < |s| && IsHan(s[r.value])
    ensures forall i :: 0 <= i < (if r.Some? then r.value else |s|) ==> !IsHan(s[i])
  {
    if s == [] then None
    else if IsHan(s[0]) then Some(0)
    else
      match FirstHan(s[1..])
      case None => None
      case Some(k) => Some(k + 1)
  }

  /** `format_str`: the text from its first CJK ideograph on, or `""`. */
  function FormatStr(s: String): (r: String)
  {
    match FirstHan(s)
    case None => ""
    case Some(i) => s[i..]
  }

  /** The result is empty exactly when the text has no ideograph; otherwise it is the suffix that
      starts at the first one, and everything cut off before it is not an ideograph. */
  lemma FormatStrMeaning(s: String)
    ensures FormatStr(s) == [] <==> forall i :: 0 <= i < |s| ==> !IsHan(s[i])
    ensures FormatStr(s) != [] ==> IsHan(FormatStr(s)[0])
    ensures FormatStr(s) != [] ==> s == s[..|s| - |FormatStr(s)|] + FormatStr(s)
    ensures forall i :: 0 <= i < |s| - |FormatStr(s)| ==> !IsHan(s[i])
  {
    match FirstHan(s)
    case None =>
    case Some(i) =>
      assert s == s[..i] + s[i..];
  }

  /** `format_str(format_str(s)) == format_str(s)` */
  lemma FormatStrIdempotent(s: String)
    ensures FormatStr(FormatStr(s)) == FormatStr(s)
  {
    var r := FormatStr(s);
    if r != [] {
      FormatStrMeaning(s);
      assert FirstHan(r) == Some(0);
    }
  }

  // ---------------------------------------------------------------------------------------------
  // remove_emojis

  /** The four code point ranges of the pattern: emoticons, symbols and pictographs, transport and
      map symbols, regional indicators. */
  predicate IsEmoji(c: char) {
    ('\U{1F600}' <= c <= '\U{1F64F}') || ('\U{1F300}' <= c <= '\U{1F5FF}') ||
    ('\U{1F680}' <= c <= '\U{1F6FF}') || ('\U{1F1E0}' <= c <= '\U{1F1FF}')
  }

  /** `emoji_pattern.sub("", text)`: every run of emoji, hence every emoji, deleted. */
  function RemoveEmojis(text: String): (r: String)
    ensures |r| <= |text| && forall i :: 0 <= i < |r| ==> !IsEmoji(r[i])
  {
    if text == [] then []
    else if IsEmoji(text[0]) then RemoveEmojis(text[1..])
    else [text[0]] + RemoveEmojis(text[1..])
  }

  /** Removal works character by character: it distributes over concatenation, so the characters
      kept are the non-emoji ones in their order. */
  lemma {:induction false} RemoveEmojisAppend(a: String, b: String)
    ensures RemoveEmojis(a + b) == RemoveEmojis(a) + RemoveEmojis(b)
    decreases |a|
  {
    if a == [] {
      assert a + b == b;
    } else {
      assert (a + b)[1..] == a[1..] + b;
      RemoveEmojisAppend(a[1..], b);
    }
  }

  /** A text without emoji is kept as it is. */
  lemma {:induction false} RemoveEmojisKeeps(text: String)
    requires forall i :: 0 <= i < |text| ==> !IsEmoji(text[i])
    ensures RemoveEmojis(text) == text
    decreases |text|
  {
    if text != [] {
      RemoveEmojisKeeps(text[1..]);
    }
  }

  /** Removing twice is removing once. */
  lemma RemoveEmojisIdempotent(text: String)
    ensures RemoveEmojis(RemoveEmojis(text)) == RemoveEmojis(text)
  {
    RemoveEmojisKeeps(RemoveEmojis(text));
  }

  /** A character survives exactly when it is not an emoji. */
  lemma {:induction false} RemoveEmojisMembers(text: String, c: char)
    ensures c in RemoveEmojis(text) <==> c in text && !IsEmoji(c)
    decreases |text|
  {
    if text != [] {
      RemoveEmojisMembers(text[1..], c);
      assert text == [text[0]] + text[1..];
    }
  }
}
