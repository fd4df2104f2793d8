/**
  The Python `str` operations the scripts rely on, with the semantics of CPython 3:
  whitespace as `str.isspace()` sees it, `strip()`, `split()`, `split(maxsplit=1)`,
  `split(sep, 1)`, `split(sep)`, `find`, `replace`, `startswith` / `endswith`,
  and `os.path.join` / `os.path.basename` on POSIX paths.
*/
module PyStr {
  import opened Wrappers

  type String = seq<char>

  /** The characters CPython's `str.isspace()`, `str.split()` and `str.strip()` treat as whitespace:
      U+0009..U+000D, U+001C..U+001F, space, U+0085, U+00A0, U+1680, U+2000..U+200A, U+2028, U+2029,
      U+202F, U+205F and U+3000. */
  predicate IsSpace(c: char) {
    c == ' ' || '\t' <= c <= '\r' || '\U{1C}' <= c <= '\U{1F}' || c == '\U{85}' || c == '\U{A0}' || c == '\U{1680}'
    || '\U{2000}' <= c <= '\U{200A}' || c == '\U{2028}' || c == '\U{2029}' || c == '\U{202F}' || c == '\U{205F}' || c == '\U{3000}'
  }

  predicate NoSpace(s: String) {
    forall i :: 0 <= i < |s| ==> !IsSpace(s[i])
  }

  predicate AllSpace(s: String) {
    forall i :: 0 <= i < |s| ==> IsSpace(s[i])
  }

  /** `s.lstrip()` */
  function LStrip(s: String): (r: String)
    ensures |r| <= |s| && r == s[|s| - |r|..]
    ensures AllSpace(s[..|s| - |r|])
    ensures r == [] || !IsSpace(r[0])
  {
    if s != [] && IsSpace(s[0]) then
      var r := LStrip(s[1..]);
      LStripStep(s, r);
      r
    else s
  }

  lemma LStripStep(s: String, r: String)
    requires s != [] && IsSpace(s[0]) && |r| <= |s| - 1
    requires r == s[1..][|s| - 1 - |r|..] && AllSpace(s[1..][..|s| - 1 - |r|])
    ensures r == s[|s| - |r|..] && AllSpace(s[..|s| - |r|])
  {
    var k := |s| - |r|;
    var t := s[1..];
    assert s[k..] == t[k - 1..];
    forall i | 0 <= i < k ensures IsSpace(s[..k][i]) {
      if i > 0 {
        assert s[..k][i] == t[..k - 1][i - 1];
      }
    }
  }

  /** `s.rstrip()` */
  function RStrip(s: String): (r: String)
    ensures |r| <= |s| && r == s[..|r|]
    ensures AllSpace(s[|r|..])
    ensures r == [] || !IsSpace(r[|r| - 1])
  {
    if s != [] && IsSpace(s[|s| - 1]) then
      var r := RStrip(s[..|s| - 1]);
      RStripStep(s, r);
      r
    else s
  }

  lemma RStripStep(s: String, r: String)
    requires s != [] && IsSpace(s[|s| - 1]) && |r| <= |s| - 1
    requires r == s[..|s| - 1][..|r|] && AllSpace(s[..|s| - 1][|r|..])
    ensures r == s[..|r|] && AllSpace(s[|r|..])
  {
    assert s[..|r|] == s[..|s| - 1][..|r|];
    forall i | 0 <= i < |s| - |r| ensures IsSpace(s[|r|..][i]) {
      if i < |s| - 1 - |r| {
        assert s[|r|..][i] == s[..|s| - 1][|r|..][i];
      }
    }
  }

  /** `s.strip()` */
  function Strip(s: String): (r: String)
    ensures r == [] <==> AllSpace(s)
    ensures r != [] ==> !IsSpace(r[0]) && !IsSpace(r[|r| - 1])
  {
    var l := LStrip(s);
    var r := RStrip(l);
    assert AllSpace(s) ==> l == [] by {
      if l != [] { assert l[0] == s[|s| - |l|]; }
    }
    assert l == [] ==> AllSpace(s) by {
      if l == [] { assert s[..|s| - |l|] == s; }
    }
    assert r == [] ==> l == [] by {
      if r == [] { assert l[|r|..] == l; }
    }
    r
  }

  /** `s.strip(c)` for one character: `c` removed from both ends. */
  function StripChar(s: String, c: char): (r: String)
    ensures |r| <= |s|
    ensures r == [] || (r[0] != c && r[|r| - 1] != c)
    ensures (forall i :: 0 <= i < |s| ==> s[i] == c) <==> r == []
    ensures forall i :: 0 <= i < |r| ==> r[i] in s
    decreases |s|
  {
    if s == [] then []
    else if s[0] == c then (var r := StripChar(s[1..], c); assert forall i :: 0 <= i < |r| ==> r[i] in s[1..]; r)
    else if s[|s| - 1] == c then (var r := StripChar(s[..|s| - 1], c); assert forall i :: 0 <= i < |r| ==> r[i] in s[..|s| - 1]; r)
    else s
  }

  /** The longest prefix of `s` holding no whitespace: the token `split()` takes next. */
  function Token(s: String): (r: String)
    ensures |r| <= |s| && r == s[..|r|] && NoSpace(r)
    ensures |r| == |s| || IsSpace(s[|r|])
    ensures s != [] && !IsSpace(s[0]) ==> r != []
  {
    if s == [] || IsSpace(s[0]) then [] else [s[0]] + Token(s[1..])
  }

  /** `s.split()`: the maximal runs of non-whitespace characters, in order. */
  function Split(s: String): (r: seq<String>)
    ensures forall i :: 0 <= i < |r| ==> r[i] != [] && NoSpace(r[i])
    ensures r == [] <==> AllSpace(s)
    decreases |s|
  {
    var t := LStrip(s);
    if t == [] then []
    else
      var w := Token(t);
      assert !AllSpace(s) by { assert s[|s| - |t|] == t[0]; }
      var rest := Split(t[|w|..]);
      var r := [w] + rest;
      assert forall i :: 0 <= i < |r| ==> r[i] != [] && NoSpace(r[i]) by {
        forall i | 0 <= i < |r| ensures r[i] != [] && NoSpace(r[i]) {
          if i > 0 { assert r[i] == rest[i - 1]; }
        }
      }
      r
  }

  /** `s.split(maxsplit=1)`: the first token and, if anything other than whitespace follows, the rest
      after the whitespace run (trailing whitespace of the rest is kept). */
  function SplitMax1(s: String): (r: seq<String>)
    ensures |r| <= 2
    ensures r == [] <==> AllSpace(s)
    ensures |r| >= 1 ==> r[0] != [] && NoSpace(r[0]) && r[0] == Split(s)[0]
    ensures |r| == 2 ==> r[1] != [] && !IsSpace(r[1][0])
    ensures |r| == 2 <==> |Split(s)| >= 2
    ensures |r| == 1 <==> |Split(s)| == 1
  {
    var t := LStrip(s);
    if t == [] then []
    else
      var w := Token(t);
      var tail := t[|w|..];
      var rest := LStrip(tail);
      assert AllSpace(s) ==> false by { assert s[|s| - |t|] == t[0]; }
      if rest == [] then [w] else [w, rest]
  }

  /** The two parts of `s.split(maxsplit=1)` are the stripped string's first token and what follows the
      whitespace run after it. */
  lemma SplitMax1Parts(s: String)
    requires |SplitMax1(s)| == 2
    ensures SplitsAt(LStrip(s), SplitMax1(s)[0], SplitMax1(s)[1])
  {
    var t := LStrip(s);
    var w := Token(t);
    assert SplitMax1(s) == [w, LStrip(t[|w|..])];
    TokenGap(t);
  }

  /** A string whose first token is followed by more is that token, whitespace, and the rest. */
  lemma TokenGap(t: String)
    requires |Token(t)| < |t|
    ensures SplitsAt(t, Token(t), LStrip(t[|Token(t)|..]))
  {
    var w := Token(t);
    var a := |w|;
    var k := LStripAt(t[a..]);
    assert 0 < k by {
      assert IsSpace(t[a..][0]);
      LStripShorter(t[a..]);
    }
    GapSplit(t, w, a, k);
  }

  lemma GapSplit(t: String, w: String, a: nat, k: nat)
    requires a == |w| && 0 < k && a + k <= |t| && w == t[..a] && AllSpace(t[a..][..k])
    ensures SplitsAt(t, w, t[a..][k..])
  {
    assert t[a..][k..] == t[a + k..];
    assert t[a..a + k] == t[a..][..k];
  }

  /** `lstrip` drops a leading run of whitespace: the first `k` characters, for some `k`. */
  lemma LStripAt(x: String) returns (k: nat)
    ensures k <= |x| && LStrip(x) == x[k..] && AllSpace(x[..k])
  {
    k := |x| - |LStrip(x)|;
  }

  /** `t` is `a`, then a non-empty run of whitespace, then `b`. */
  predicate SplitsAt(t: String, a: String, b: String) {
    && |a| + |b| < |t|
    && t[..|a|] == a
    && t[|t| - |b|..] == b
    && AllSpace(t[|a|..|t| - |b|])
  }

  /** Stripping a string that starts with whitespace removes at least that character. */
  lemma LStripShorter(s: String)
    requires s != [] && IsSpace(s[0])
    ensures |LStrip(s)| < |s|
  {
    assert LStrip(s) == LStrip(s[1..]);
  }

  /** The index of the first `c` in `s`, or -1 (`s.find(c)` for a one-character needle). */
  function IndexOf(s: String, c: char): (r: int)
    ensures -1 <= r < |s|
    ensures r == -1 <==> c !in s
    ensures r >= 0 ==> s[r] == c && c !in s[..r]
  {
    if s == [] then -1
    else if s[0] == c then 0
    else
      var k := IndexOf(s[1..], c);
      assert s[1..] == s[1..];
      if k < 0 then -1 else (assert s[..k + 1] == [s[0]] + s[1..][..k]; k + 1)
  }

  /** `s.split(sep, 1)` for a one-character separator. */
  function SplitOnce(s: String, sep: char): (r: seq<String>)
    ensures |r| == 1 <==> sep !in s
    ensures |r| == 1 ==> r[0] == s
    ensures |r| == 2 ==> sep !in r[0] && s == r[0] + [sep] + r[1]
    ensures 1 <= |r| <= 2
  {
    var i := IndexOf(s, sep);
    if i < 0 then [s] else (assert s == s[..i] + [sep] + s[i + 1..]; [s[..i], s[i + 1..]])
  }

  /** `s.split(sep)` for a one-character separator: all fields, empty ones included. */
  function SplitOn(s: String, sep: char): (r: seq<String>)
    ensures |r| >= 1
    ensures forall i :: 0 <= i < |r| ==> sep !in r[i]
    ensures JoinWith(r, sep) == s
    decreases |s|
  {
    var i := IndexOf(s, sep);
    if i < 0 then [s]
    else
      var rest := SplitOn(s[i + 1..], sep);
      JoinWithCons(s[..i], rest, sep);
      assert s == s[..i] + [sep] + s[i + 1..];
      [s[..i]] + rest
  }

  /** Joining a first field onto further ones puts one separator between them. */
  lemma JoinWithCons(a: String, rest: seq<String>, sep: char)
    requires rest != []
    ensures JoinWith([a] + rest, sep) == a + [sep] + JoinWith(rest, sep)
  {
    assert ([a] + rest)[1..] == rest;
  }

  /** `sep.join(parts)` for a one-character separator. */
  function JoinWith(parts: seq<String>, sep: char): String
  {
    if |parts| == 0 then [] else if |parts| == 1 then parts[0] else parts[0] + [sep] + JoinWith(parts[1..], sep)
  }

  /** `''.join(parts)` */
  function Concat(parts: seq<String>): (r: String)
    ensures |parts| == 0 ==> r == []
  {
    if |parts| == 0 then [] else Concat(parts[..|parts| - 1]) + parts[|parts| - 1]
  }

  /** `nl.join(lines)` with a newline separator, as the TextGrid scripts append their lines. */
  function JoinLines(lines: seq<String>): String
  {
    JoinWith(lines, '\n')
  }

  predicate StartsWith(s: String, p: String) {
    |p| <= |s| && s[..|p|] == p
  }

  predicate EndsWith(s: String, p: String) {
    |p| <= |s| && s[|s| - |p|..] == p
  }

  predicate OccursAt(s: String, pat: String, i: nat) {
    i + |pat| <= |s| && s[i..i + |pat|] == pat
  }

  /** `s.find(pat, start)`: the least index at or after `start` where `pat` occurs, or -1. */
  function Find(s: String, pat: String, start: nat): (r: int)
    ensures r == -1 || (start <= r && OccursAt(s, pat, r))
    ensures r == -1 ==> forall i :: start <= i ==> !OccursAt(s, pat, i)
    ensures r >= 0 ==> forall i :: start <= i < r ==> !OccursAt(s, pat, i)
    decreases |s| - start
  {
    if start + |pat| > |s| then -1
    else if s[start..start + |pat|] == pat then start
    else Find(s, pat, start + 1)
  }

  ghost predicate Contains(s: String, pat: String) {
    exists i :: 0 <= i && OccursAt(s, pat, i)
  }

  /** `s.replace(pat, rep)`: non-overlapping occurrences of `pat`, left to right. */
  function ReplaceAll(s: String, pat: String, rep: String): (r: String)
    requires pat != []
    decreases |s|
  {
    if |s| < |pat| then s
    else if s[..|pat|] == pat then rep + ReplaceAll(s[|pat|..], pat, rep)
    else [s[0]] + ReplaceAll(s[1..], pat, rep)
  }

  /** Every character of a replacement's result comes from the text or from the replacement. */
  lemma {:induction false} ReplaceAllChars(s: String, pat: String, rep: String, c: char)
    requires pat != [] && c in ReplaceAll(s, pat, rep)
    ensures c in s || c in rep
    decreases |s|
  {
    if |s| >= |pat| {
      if s[..|pat|] == pat {
        if c !in rep {
          ReplaceAllChars(s[|pat|..], pat, rep, c);
          var m :| 0 <= m < |s[|pat|..]| && s[|pat|..][m] == c;
          assert s[|pat| + m] == c;
        }
      } else if c != s[0] && c !in rep {
        ReplaceAllChars(s[1..], pat, rep, c);
        var m :| 0 <= m < |s[1..]| && s[1..][m] == c;
        assert s[1 + m] == c;
      }
    }
  }

  /** The characters of `s` other than `c`, in order. */
  function Without(s: String, c: char): (r: String)
    ensures c !in r
    ensures |r| <= |s|
  {
    if s == [] then [] else (if s[0] == c then [] else [s[0]]) + Without(s[1..], c)
  }

  /** Replacing a one-character string by nothing deletes exactly that character. */
  lemma {:induction false} ReplaceCharByNothing(s: String, c: char)
    ensures ReplaceAll(s, [c], []) == Without(s, c)
    decreases |s|
  {
    if s != [] {
      ReplaceCharByNothing(s[1..], c);
    }
  }

  /** A string that does not contain `pat` is returned unchanged by `replace`. */
  lemma {:induction false} ReplaceAbsent(s: String, pat: String, rep: String)
    requires pat != [] && !Contains(s, pat)
    ensures ReplaceAll(s, pat, rep) == s
    decreases |s|
  {
    if |s| >= |pat| {
      assert !OccursAt(s, pat, 0);
      assert !Contains(s[1..], pat) by {
        forall i | 0 <= i && OccursAt(s[1..], pat, i) ensures false {
          assert s[1..][i..i + |pat|] == s[i + 1..i + 1 + |pat|];
          assert OccursAt(s, pat, i + 1);
        }
      }
      ReplaceAbsent(s[1..], pat, rep);
    }
  }

  /** Replacing `pat` in `base + pat`, where the only occurrence is the final one, changes only that
      final occurrence. */
  lemma {:induction false} ReplaceSuffix(base: String, pat: String, rep: String)
    requires pat != [] && forall i :: 0 <= i < |base| ==> !OccursAt(base + pat, pat, i)
    ensures ReplaceAll(base + pat, pat, rep) == base + rep
    decreases |base|
  {
    var s := base + pat;
    if base == [] {
      assert s == pat && s[|pat|..] == [];
      assert ReplaceAll(s, pat, rep) == rep + ReplaceAll([], pat, rep);
    } else {
      NoOccurrenceTail(base, pat);
      ReplaceSuffix(base[1..], pat, rep);
      ReplaceMiss(s, pat, rep);
      assert s[1..] == base[1..] + pat;
      assert base == [base[0]] + base[1..];
    }
  }

  /** Where `pat` does not start, `replace` keeps the first character and goes on after it. */
  lemma ReplaceMiss(s: String, pat: String, rep: String)
    requires pat != [] && s != [] && !OccursAt(s, pat, 0)
    ensures ReplaceAll(s, pat, rep) == [s[0]] + ReplaceAll(s[1..], pat, rep)
  {
  }

  /** No early occurrence in `base + pat` means none in `base[1..] + pat` either. */
  lemma NoOccurrenceTail(base: String, pat: String)
    requires base != [] && forall i :: 0 <= i < |base| ==> !OccursAt(base + pat, pat, i)
    ensures forall i :: 0 <= i < |base[1..]| ==> !OccursAt(base[1..] + pat, pat, i)
  {
    var s := base + pat;
    assert s[1..] == base[1..] + pat;
    forall i | 0 <= i < |base[1..]| ensures !OccursAt(base[1..] + pat, pat, i) {
      assert !OccursAt(s, pat, i + 1);
      assert s[i + 1..i + 1 + |pat|] == s[1..][i..i + |pat|];
    }
  }

  /** A path without `/` is its own basename. */
  lemma {:induction false} BasenameOfName(p: String)
    requires '/' !in p
    ensures Basename(p) == p
    decreases |p|
  {
    if p != [] {
      assert '/' !in p[..|p| - 1];
      BasenameOfName(p[..|p| - 1]);
    }
  }

  /** The basename of a path joined onto a directory is the joined name, when it holds no `/`. */
  lemma BasenameJoin(dir: String, name: String)
    requires '/' !in name
    ensures Basename(PathJoin(dir, name)) == name
  {
    if name != [] {
      assert name[0] != '/';
      assert !StartsWith(name, "/");
    }
    if dir == [] || EndsWith(dir, "/") {
      BasenameAfterSlash(dir, name);
    } else {
      BasenameAfterSlash(dir + "/", name);
      assert dir + "/" + name == (dir + "/") + name;
    }
  }

  lemma {:induction false} BasenameAfterSlash(x: String, name: String)
    requires '/' !in name && (x == [] || x[|x| - 1] == '/')
    ensures Basename(x + name) == name
    decreases |name|
  {
    if name == [] {
      assert x + name == x;
    } else {
      var init := name[..|name| - 1];
      var c := name[|name| - 1];
      var p := x + name;
      assert name == init + [c];
      assert p == (x + init) + [c];
      assert p[..|p| - 1] == x + init;
      BasenameAfterSlash(x, init);
      assert Basename(p) == Basename(x + init) + [c];
    }
  }

  /** `split()` on two whitespace-free words joined by one space gives back the two words. */
  lemma SplitTwoWords(a: String, b: String)
    requires a != [] && NoSpace(a) && b != [] && NoSpace(b)
    ensures Split(a + " " + b) == [a, b]
  {
    var line := a + " " + b;
    var none: String := [];
    assert line + none == line;
    SplitTwoWordsLine(a, b, none);
  }

  /** `split()` of a single whitespace-free word is that word. */
  lemma SplitOneWord(a: String)
    requires a != [] && NoSpace(a)
    ensures Split(a) == [a] && SplitMax1(a) == [a]
  {
    assert LStrip(a) == a;
    TokenOfWord(a, []);
    assert a + [] == a;
    assert Token(a) == a;
    assert a[|a|..] == [];
    assert LStrip([]) == [];
    assert Split(a) == [a] + Split([]);
  }

  /** `split(maxsplit=1)` of `word + " " + rest` splits at that space when `rest` starts with a
      non-space character. */
  lemma SplitMax1WordRest(a: String, b: String)
    requires a != [] && NoSpace(a) && b != [] && !IsSpace(b[0])
    ensures SplitMax1(a + " " + b) == [a, b]
  {
    var s := a + " " + b;
    assert s == a + (" " + b);
    assert s[0] == a[0];
    assert LStrip(s) == s;
    TokenOfWord(a, " " + b);
    assert s[|a|..] == " " + b;
    assert LStrip(" " + b) == b by { assert (" " + b)[1..] == b; assert LStrip(b) == b; }
  }

  /** `split()` of two words, one space and trailing whitespace (a line with its newline) gives the
      two words. */
  lemma SplitTwoWordsLine(a: String, b: String, tail: String)
    requires a != [] && NoSpace(a) && b != [] && NoSpace(b) && AllSpace(tail)
    ensures Split(a + " " + b + tail) == [a, b]
  {
    var x := b + tail;
    Regroup(a, b, tail);
    SplitWordThen(a, " " + x);
    SplitSpaceFirst(x);
    SplitWordThen(b, tail);
    assert Split(tail) == [];
    PairOfSingles(a, b);
  }

  lemma Regroup(a: String, b: String, tail: String)
    ensures a + " " + b + tail == a + (" " + (b + tail))
  {
  }

  lemma PairOfSingles(a: String, b: String)
    ensures [a] + ([b] + []) == [a, b]
  {
  }

  /** A leading space changes nothing for `split()`. */
  lemma SplitSpaceFirst(x: String)
    ensures Split(" " + x) == Split(x)
  {
    assert (" " + x)[1..] == x;
    assert LStrip(" " + x) == LStrip(x);
  }

  /** `split()` of a word followed by nothing or by whitespace: the word, then the rest's tokens. */
  lemma SplitWordThen(a: String, rest: String)
    requires a != [] && NoSpace(a) && (rest == [] || IsSpace(rest[0]))
    ensures Split(a + rest) == [a] + Split(rest)
  {
    var s := a + rest;
    assert s[0] == a[0];
    assert LStrip(s) == s;
    TokenOfWord(a, rest);
    assert s[|a|..] == rest;
  }

  /** `split(sep)` undoes `sep.join` of fields that do not contain `sep`. */
  lemma {:induction false} SplitOnJoin(parts: seq<String>, sep: char)
    requires |parts| >= 1 && forall k :: 0 <= k < |parts| ==> sep !in parts[k]
    ensures SplitOn(JoinWith(parts, sep), sep) == parts
    decreases |parts|
  {
    if |parts| > 1 {
      var a, rest := parts[0], JoinWith(parts[1..], sep);
      var s := a + [sep] + rest;
      assert JoinWith(parts, sep) == s;
      var i := IndexOf(s, sep);
      assert sep !in a;
      IndexOfAfter(a, sep, rest);
      assert s[..i] == a && s[i + 1..] == rest;
      assert sep !in a;
      assert SplitOn(s, sep) == [a] + SplitOn(rest, sep);
      SplitOnJoin(parts[1..], sep);
      assert [a] + parts[1..] == parts;
    }
  }

  /** The first separator after a separator-free field is the one that ends it. */
  lemma {:induction false} IndexOfAfter(a: String, sep: char, rest: String)
    requires sep !in a
    ensures IndexOf(a + [sep] + rest, sep) == |a|
    decreases |a|
  {
    var s := a + [sep] + rest;
    if a != [] {
      assert s[0] == a[0] && s[1..] == a[1..] + [sep] + rest;
      IndexOfAfter(a[1..], sep, rest);
    }
  }

  /** `strip()` of a text that neither starts nor ends with whitespace, followed by whitespace (a line
      and its newline), is the text. */
  lemma StripLine(s: String, tail: String)
    requires s != [] && !IsSpace(s[0]) && !IsSpace(s[|s| - 1]) && AllSpace(tail)
    ensures Strip(s + tail) == s
  {
    assert (s + tail)[0] == s[0];
    assert LStrip(s + tail) == s + tail;
    RStripTail(s, tail);
  }

  lemma {:induction false} RStripTail(s: String, tail: String)
    requires s != [] && !IsSpace(s[|s| - 1]) && AllSpace(tail)
    ensures RStrip(s + tail) == s
    decreases |tail|
  {
    if tail == [] {
      assert s + tail == s;
    } else {
      var t := s + tail;
      assert t[|t| - 1] == tail[|tail| - 1];
      assert t[..|t| - 1] == s + tail[..|tail| - 1];
      RStripTail(s, tail[..|tail| - 1]);
    }
  }

  lemma {:induction false} TokenOfWord(a: String, tail: String)
    requires NoSpace(a) && (tail == [] || IsSpace(tail[0]))
    ensures Token(a + tail) == a
    decreases |a|
  {
    if a != [] {
      assert (a + tail)[1..] == a[1..] + tail;
      TokenOfWord(a[1..], tail);
    } else {
      assert a + tail == tail;
    }
  }

  lemma {:induction false} LStripKeeps(s: String, i: nat)
    requires i < |s| && !IsSpace(s[i])
    ensures |s| - |LStrip(s)| <= i
    decreases |s|
  {
    if IsSpace(s[0]) {
      assert s[1..][i - 1] == s[i];
      LStripKeeps(s[1..], i - 1);
    }
  }

  lemma {:induction false} RStripKeeps(s: String, i: nat)
    requires i < |s| && !IsSpace(s[i])
    ensures i < |RStrip(s)|
    decreases |s|
  {
    if IsSpace(s[|s| - 1]) {
      assert s[..|s| - 1][i] == s[i];
      RStripKeeps(s[..|s| - 1], i);
    }
  }

  /** A non-whitespace character survives `strip()`, shifted left by the stripped prefix. */
  lemma StripKeeps(s: String, i: nat)
    requires i < |s| && !IsSpace(s[i])
    ensures |s| - |LStrip(s)| <= i < |s| - |LStrip(s)| + |Strip(s)|
    ensures Strip(s)[i - (|s| - |LStrip(s)|)] == s[i]
  {
    var l := LStrip(s);
    LStripKeeps(s, i);
    var j := i - (|s| - |l|);
    assert l[j] == s[i];
    RStripKeeps(l, j);
  }

  /** A space with non-whitespace on both sides of it somewhere before and after: what
      `' ' in s.strip()` tests. */
  predicate SpaceInside(s: String) {
    exists i, j, k :: 0 <= i < j < k < |s| && !IsSpace(s[i]) && s[j] == ' ' && !IsSpace(s[k])
  }

  /** `' ' in s.strip()` holds exactly when `s` has a space inside it. */
  lemma SpaceInsideStrip(s: String)
    ensures SpaceInside(s) <==> ' ' in Strip(s)
  {
    if SpaceInside(s) {
      SpaceInsideKept(s);
    }
    if ' ' in Strip(s) {
      StripSpaceInside(s);
    }
  }

  /** The characters of `s.strip()` are those of `s` after the leading whitespace. */
  lemma StripAt(s: String, m: nat, p: nat)
    requires m < |Strip(s)| && p == |s| - |LStrip(s)| + m
    ensures p < |s| && Strip(s)[m] == s[p]
  {
    var l := LStrip(s);
    assert Strip(s) == RStrip(l);
    assert Strip(s)[m] == l[m];
  }

  lemma SpaceInsideKept(s: String)
    requires SpaceInside(s)
    ensures ' ' in Strip(s)
  {
    var i, j, k :| 0 <= i < j < k < |s| && !IsSpace(s[i]) && s[j] == ' ' && !IsSpace(s[k]);
    StripKeeps(s, i);
    StripKeeps(s, k);
    var off := |s| - |LStrip(s)|;
    StripAt(s, j - off, j);
  }

  lemma StripSpaceInside(s: String)
    requires ' ' in Strip(s)
    ensures SpaceInside(s)
  {
    var r := Strip(s);
    var m :| 0 <= m < |r| && r[m] == ' ';
    var off := |s| - |LStrip(s)|;
    var e := |r| - 1;
    var i, j, k := off, off + m, off + e;
    StripAt(s, 0, i);
    StripAt(s, m, j);
    StripAt(s, e, k);
    StripEnds(s, r, e);
    SpaceInsideAt(s, r, m, e, i, j, k);
  }

  lemma StripEnds(s: String, r: String, e: nat)
    requires r == Strip(s) && e == |r| - 1
    ensures !IsSpace(r[0]) && !IsSpace(r[e])
  {
  }

  lemma SpaceInsideAt(s: String, r: String, m: nat, e: nat, i: nat, j: nat, k: nat)
    requires m < |r| && e == |r| - 1 && r[m] == ' ' && !IsSpace(r[0]) && !IsSpace(r[e])
    requires j == i + m && k == i + e && k < |s| && s[i] == r[0] && s[j] == r[m] && s[k] == r[e]
    ensures SpaceInside(s)
  {
    assert IsSpace(r[m]);
    assert 0 < m < e;
  }

  /** A space inside either part is a space inside the whole. */
  lemma SpaceInsideConcat(a: String, b: String)
    requires SpaceInside(a) || SpaceInside(b)
    ensures SpaceInside(a + b)
  {
    if SpaceInside(a) {
      var i, j, k :| 0 <= i < j < k < |a| && !IsSpace(a[i]) && a[j] == ' ' && !IsSpace(a[k]);
      SpaceInsideShifted(a, a + b, 0, i, j, k);
    } else {
      var i, j, k :| 0 <= i < j < k < |b| && !IsSpace(b[i]) && b[j] == ' ' && !IsSpace(b[k]);
      SpaceInsideShifted(b, a + b, |a|, i, j, k);
    }
  }

  lemma SpaceInsideShifted(x: String, s: String, d: nat, i: nat, j: nat, k: nat)
    requires d + |x| <= |s| && s[d..d + |x|] == x
    requires i < j < k < |x| && !IsSpace(x[i]) && x[j] == ' ' && !IsSpace(x[k])
    ensures SpaceInside(s)
  {
    var i', j', k' := d + i, d + j, d + k;
    assert s[i'] == x[i] && s[j'] == x[j] && s[k'] == x[k];
  }

  // ---------------------------------------------------------------------------------------------
  // the two line shapes of Kaldi manifests

  /** `parts = line.strip().split()` with `len(parts) == 2`: a `wav.scp` entry (id, path). */
  function TwoTokens(line: String): (r: Option<(String, String)>)
    ensures r.Some? ==> r.value.0 != [] && NoSpace(r.value.0) && r.value.1 != [] && NoSpace(r.value.1)
  {
    var parts := Split(Strip(line));
    if |parts| == 2 then Some((parts[0], parts[1])) else None
  }

  /** `parts = line.strip().split(maxsplit=1)` with `len(parts) == 2`: a `text` entry (id, transcript),
      the transcript stripped at both ends. */
  function IdAndRest(line: String): (r: Option<(String, String)>)
    ensures r.Some? ==> r.value.0 != [] && NoSpace(r.value.0) && r.value.1 != [] && !IsSpace(r.value.1[0])
  {
    var parts := SplitMax1(Strip(line));
    if |parts| == 2 then Some((parts[0], parts[1])) else None
  }

  /** A data.list record, the JSON object `{"key": …, "wav": …, "txt": …}` on one line. */
  datatype DataEntry = DataEntry(key: String, wav: String, txt: String)

  /** A line `id path` and its newline is the entry (id, path). */
  lemma TwoTokensOf(id: String, path: String, tail: String)
    requires id != [] && NoSpace(id) && path != [] && NoSpace(path) && AllSpace(tail)
    ensures TwoTokens(id + " " + path + tail) == Some((id, path))
  {
    var s := id + " " + path;
    assert s[0] == id[0] && s[|s| - 1] == path[|path| - 1];
    StripLine(s, tail);
    SplitTwoWords(id, path);
  }

  /** A line `id transcript` and its newline is the entry (id, transcript) when the transcript neither
      starts nor ends with whitespace, whatever spaces it holds inside. */
  lemma IdAndRestOf(id: String, text: String, tail: String)
    requires id != [] && NoSpace(id) && text != [] && !IsSpace(text[0]) && !IsSpace(text[|text| - 1])
    requires AllSpace(tail)
    ensures IdAndRest(id + " " + text + tail) == Some((id, text))
  {
    var s := id + " " + text;
    assert s[0] == id[0] && s[|s| - 1] == text[|text| - 1];
    StripLine(s, tail);
    SplitMax1WordRest(id, text);
  }

  /** A line with fewer than two tokens is neither kind of entry. */
  lemma FewTokensNoEntry(line: String)
    requires |Split(Strip(line))| < 2
    ensures TwoTokens(line) == None && IdAndRest(line) == None
  {
  }

  // ---------------------------------------------------------------------------------------------
  // os.path on POSIX

  /** `os.path.join(a, b)`: an absolute `b` replaces `a`; otherwise one '/' separates them. */
  function PathJoin(a: String, b: String): String
  {
    if StartsWith(b, "/") then b
    else if a == [] || EndsWith(a, "/") then a + b
    else a + "/" + b
  }

  /** The joined path ends with its last component. */
  lemma PathJoinEnds(a: String, b: String)
    ensures EndsWith(PathJoin(a, b), b)
  {
    var r := PathJoin(a, b);
    if !StartsWith(b, "/") {
      var pre := if a == [] || EndsWith(a, "/") then a else a + "/";
      assert r == pre + b;
      assert r[|r| - |b|..] == b;
    }
  }

  /** `os.path.basename(p)`: everything after the last '/'. */
  function Basename(p: String): (r: String)
    ensures '/' !in r
    ensures EndsWith(p, r)
    decreases |p|
  {
    if p == [] then []
    else if p[|p| - 1] == '/' then []
    else Basename(p[..|p| - 1]) + [p[|p| - 1]]
  }
}
