/**
  The start and end times written at the end of an utterance id, as the data tools read them with
  `re.search`: `-(\d+)-(\d+)` anchored at the end of the id, followed by nothing, by an optional
  `-` tag of letters and digits, or by a required one, depending on the tool.
*/
module IdTimes {
  import opened Wrappers
  import opened PyStr
  import opened Digits

  predicate IsAlnum(c: char) {
    'A' <= c <= 'Z' || 'a' <= c <= 'z' || '0' <= c <= '9'
  }

  predicate AllAlnum(s: String) {
    forall i :: 0 <= i < |s| ==> IsAlnum(s[i])
  }

  /** What may follow the end time: `$` alone, `(?:-[A-Za-z0-9]*)?$`, or `-[A-Za-z0-9]+$`. */
  datatype Tail = NoTag | OptionalTag | RequiredTag

  predicate TailOk(t: Tail, rest: String) {
    match t
    case NoTag => rest == []
    case OptionalTag => rest == [] || (rest[0] == '-' && AllAlnum(rest[1..]))
    case RequiredTag => |rest| >= 2 && rest[0] == '-' && AllAlnum(rest[1..])
  }

  /** The length of the run of digits starting at `i`. */
  function DigitRun(s: String, i: nat): (r: nat)
    requires i <= |s|
    ensures i + r <= |s| && (forall k :: i <= k < i + r ==> IsDigit(s[k])) && (i + r < |s| ==> !IsDigit(s[i + r]))
    decreases |s| - i
  {
    if i < |s| && IsDigit(s[i]) then 1 + DigitRun(s, i + 1) else 0
  }

  /** A match starting at `p`, with its two groups. A digit group can only be followed by what the
      pattern demands (a dash or the end of the id) when it is the whole run of digits, so the match
      at `p` is unique. */
  function MatchAt(t: Tail, s: String, p: nat): (r: Option<(String, String)>)
    requires p <= |s|
    ensures r.Some? ==> r.value.0 != [] && AllDigits(r.value.0) && r.value.1 != [] && AllDigits(r.value.1)
  {
    if p >= |s| || s[p] != '-' then None
    else
      var k1 := DigitRun(s, p + 1);
      if k1 == 0 || p + 1 + k1 >= |s| || s[p + 1 + k1] != '-' then None
      else
        var a := p + 2 + k1;
        var k2 := DigitRun(s, a);
        var q := a + k2;
        if k2 == 0 then None
        else if TailOk(t, s[q..]) then Some((s[p + 1..p + 1 + k1], s[a..q]))
        else None
  }

  /** `re.search` from `p` on: the leftmost position with a match. */
  function SearchFrom(t: Tail, s: String, p: nat): (r: Option<(String, String)>)
    requires p <= |s|
    ensures r.Some? ==> AllDigits(r.value.0) && AllDigits(r.value.1)
    decreases |s| - p
  {
    if p == |s| then None
    else if MatchAt(t, s, p).Some? then MatchAt(t, s, p)
    else SearchFrom(t, s, p + 1)
  }

  /** The start and end groups of the id, if the pattern matches it. */
  function Times(t: Tail, id: String): (r: Option<(String, String)>)
    ensures r.Some? ==> AllDigits(r.value.0) && AllDigits(r.value.1)
  {
    SearchFrom(t, id, 0)
  }

  /** The search answers with the groups of the leftmost match. */
  lemma {:induction false} SearchLeftmost(t: Tail, s: String, p: nat) returns (m: nat)
    requires p <= |s| && SearchFrom(t, s, p).Some?
    ensures p <= m < |s| && MatchAt(t, s, m) == SearchFrom(t, s, p)
    ensures forall q :: p <= q < m ==> MatchAt(t, s, q).None?
    decreases |s| - p
  {
    if MatchAt(t, s, p).Some? {
      m := p;
    } else {
      assert SearchFrom(t, s, p) == SearchFrom(t, s, p + 1);
      m := SearchLeftmost(t, s, p + 1);
      forall q | p <= q < m ensures MatchAt(t, s, q).None? {
        assert q == p || p + 1 <= q < m;
      }
    }
  }

  /** Where nothing matches, the search moves on to the next position. */
  lemma SearchStep(t: Tail, s: String, p: nat)
    requires p < |s| && MatchAt(t, s, p).None?
    ensures SearchFrom(t, s, p) == SearchFrom(t, s, p + 1)
  {
  }

  /** No match, no groups. */
  lemma {:induction false} SearchNone(t: Tail, s: String, p: nat)
    requires p <= |s| && forall q :: p <= q < |s| ==> MatchAt(t, s, q).None?
    ensures SearchFrom(t, s, p) == None
    decreases |s| - p
  {
    if p < |s| {
      SearchNone(t, s, p + 1);
    }
  }

  /** The match at `p` when the text there has the pattern's shape, with digit groups of lengths `k1`
      and `k2`. */
  lemma MatchAtShape(t: Tail, s: String, p: nat, k1: nat, k2: nat)
    requires k1 > 0 && k2 > 0 && p + 2 + k1 + k2 <= |s| && s[p] == '-' && s[p + 1 + k1] == '-'
    requires forall k :: p + 1 <= k < p + 1 + k1 ==> IsDigit(s[k])
    requires forall k :: p + 2 + k1 <= k < p + 2 + k1 + k2 ==> IsDigit(s[k])
    requires TailOk(t, s[p + 2 + k1 + k2..])
    ensures MatchAt(t, s, p) == Some((s[p + 1..p + 1 + k1], s[p + 2 + k1..p + 2 + k1 + k2]))
  {
    var a := p + 2 + k1;
    var q := a + k2;
    assert q < |s| ==> !IsDigit(s[q]) by {
      if q < |s| {
        assert s[q..][0] == s[q];
      }
    }
    DigitRunOf(s, p + 1, k1);
    DigitRunOf(s, a, k2);
  }

  lemma {:induction false} DigitRunOf(s: String, i: nat, n: nat)
    requires i + n <= |s| && (forall k :: i <= k < i + n ==> IsDigit(s[k])) && (i + n < |s| ==> !IsDigit(s[i + n]))
    ensures DigitRun(s, i) == n
    decreases n
  {
    if n > 0 {
      DigitRunOf(s, i + 1, n - 1);
    }
  }

  /** An id `base-start-end` followed by a tail the pattern accepts, with a dash-free base and start
      and end numerals, has those times. */
  lemma TimesOf(t: Tail, base: String, start: String, end: String, tail: String)
    requires '-' !in base && start != [] && AllDigits(start) && end != [] && AllDigits(end)
    requires TailOk(t, tail)
    ensures Times(t, base + "-" + start + "-" + end + tail) == Some((start, end))
  {
    var s := base + "-" + start + "-" + end + tail;
    var p, k1, k2 := |base|, |start|, |end|;
    var q := p + 2 + k1 + k2;
    assert s == base + ("-" + start + "-" + end + tail);
    forall i | 0 <= i < p ensures MatchAt(t, s, i).None? {
      assert s[i] == base[i];
    }
    assert s[p + 1..p + 1 + k1] == start && s[p + 2 + k1..q] == end && s[q..] == tail by {
      assert s[p..] == "-" + start + "-" + end + tail;
    }
    assert s[p] == '-' && s[p + 1 + k1] == '-';
    forall k | p + 1 <= k < p + 1 + k1 ensures IsDigit(s[k]) {
      assert s[k] == s[p + 1..p + 1 + k1][k - p - 1];
    }
    forall k | p + 2 + k1 <= k < q ensures IsDigit(s[k]) {
      assert s[k] == s[p + 2 + k1..q][k - p - 2 - k1];
    }
    MatchAtShape(t, s, p, k1, k2);
    SearchPrefixFails(t, s, p);
  }

  lemma {:induction false} SearchPrefixFails(t: Tail, s: String, p: nat)
    requires p < |s| && MatchAt(t, s, p).Some? && forall q :: 0 <= q < p ==> MatchAt(t, s, q).None?
    ensures SearchFrom(t, s, 0) == MatchAt(t, s, p)
  {
    var i := p;
    while i > 0
      invariant 0 <= i <= p && SearchFrom(t, s, i) == MatchAt(t, s, p)
    {
      i := i - 1;
    }
  }

  /** With the tag optional the leftmost match wins: `x-1-2-3` reads start 1 and end 2. */
  lemma OptionalTagExample()
    ensures Times(OptionalTag, "x-1-2-3") == Some(("1", "2"))
  {
    var s := "x-1-2-3";
    assert s[5..] == "-3" && s[6..] == "3";
    MatchAtShape(OptionalTag, s, 1, 1, 1);
    assert s[2..3] == "1" && s[4..5] == "2";
    SearchPrefixFails(OptionalTag, s, 1);
  }

  /** With a tag required, `x-1-2-3` reads start 1 and end 2 as well. */
  lemma RequiredTagExample()
    ensures Times(RequiredTag, "x-1-2-3") == Some(("1", "2"))
  {
    var s := "x-1-2-3";
    assert s[5..] == "-3" && s[6..] == "3";
    MatchAtShape(RequiredTag, s, 1, 1, 1);
    assert s[2..3] == "1" && s[4..5] == "2";
    SearchPrefixFails(RequiredTag, s, 1);
  }

  /** With no tag allowed, `x-1-2-3` reads start 2 and end 3. */
  lemma NoTagExample()
    ensures Times(NoTag, "x-1-2-3") == Some(("2", "3"))
  {
    var s := "x-1-2-3";
    NoTagExampleMatch(s);
    SearchStep(NoTag, s, 2);
    SearchStep(NoTag, s, 1);
    SearchStep(NoTag, s, 0);
  }

  lemma NoTagExampleMatch(s: String)
    requires s == "x-1-2-3"
    ensures MatchAt(NoTag, s, 0).None? && MatchAt(NoTag, s, 1).None? && MatchAt(NoTag, s, 2).None?
    ensures MatchAt(NoTag, s, 3) == Some(("2", "3"))
  {
    assert s[0] == 'x' && s[2] == '1';
    NoTagExampleFirst(s);
    NoTagExampleLast(s);
  }

  /** At the first dash the groups `1` and `2` are followed by `-3`, which the pattern refuses. */
  lemma NoTagExampleFirst(s: String)
    requires s == "x-1-2-3"
    ensures MatchAt(NoTag, s, 1).None?
  {
    DigitRunOf(s, 2, 1);
    DigitRunOf(s, 4, 1);
    assert s[5..] == "-3";
  }

  /** At the second dash the groups `2` and `3` end the id. */
  lemma NoTagExampleLast(s: String)
    requires s == "x-1-2-3"
    ensures MatchAt(NoTag, s, 3) == Some(("2", "3"))
  {
    assert s[7..] == [];
    MatchAtShape(NoTag, s, 3, 1, 1);
    assert s[4..5] == "2" && s[6..7] == "3";
  }

  /** With a tag required, `x-1-2` has no times. */
  lemma RequiredTagMissing()
    ensures Times(RequiredTag, "x-1-2") == None
  {
    var u := "x-1-2";
    DigitRunOf(u, 2, 1);
    DigitRunOf(u, 4, 1);
    assert u[5..] == [];
    assert MatchAt(RequiredTag, u, 1).None?;
    assert MatchAt(RequiredTag, u, 3).None?;
    SearchNone(RequiredTag, u, 0);
  }
}
