/**
  Python text files seen as strings: iterating a file (`for line in f`, `f.readlines()`) yields its
  lines, each up to and including its newline, and `f.writelines(ls)` writes the strings of `ls`
  one after another with nothing added. A file written with `writelines` and read back therefore
  gives the written lines only when each of them (but the last) ends with a newline; a line without
  one runs on into the next.
*/
module PyFile {
  import opened PyStr

  /** The length of the first line of `s`: up to and including its first newline, or all of `s`. */
  function LineLen(s: String): (n: nat)
    ensures n == 0 <==> s == []
    ensures n <= |s|
  {
    if s == [] then 0 else if s[0] == '\n' then 1 else 1 + LineLen(s[1..])
  }

  /** The lines iterating a file that holds `s` yields: each runs up to and including a newline,
      and the last has none when `s` does not end with one. */
  function Lines(s: String): seq<String>
    decreases |s|
  {
    if s == [] then [] else var n := LineLen(s); [s[..n]] + Lines(s[n..])
  }

  predicate Terminated(l: String) {
    l != [] && l[|l| - 1] == '\n'
  }

  /** A line as file iteration yields it: not empty, and no newline before its last character. */
  predicate IsLine(l: String) {
    l != [] && forall j :: 0 <= j < |l| - 1 ==> l[j] != '\n'
  }

  lemma {:induction false} ConcatCons(a: String, rest: seq<String>)
    ensures Concat([a] + rest) == a + Concat(rest)
    decreases |rest|
  {
    var s := [a] + rest;
    if rest == [] {
      assert s[..0] == [];
    } else {
      var init := rest[..|rest| - 1];
      assert s[..|s| - 1] == [a] + init;
      ConcatCons(a, init);
    }
  }

  /** The first line is a line, and it ends with a newline unless it is all of `s`. */
  lemma {:induction false} LineLenShape(s: String)
    requires s != []
    ensures IsLine(s[..LineLen(s)])
    ensures LineLen(s) < |s| ==> Terminated(s[..LineLen(s)])
    decreases |s|
  {
    var n := LineLen(s);
    if s[0] != '\n' && |s| > 1 {
      var t := s[1..];
      LineLenShape(t);
      var m := LineLen(t);
      assert n == m + 1;
      assert s[..n] == [s[0]] + t[..m];
      forall j | 1 <= j < n ensures s[..n][j] == t[..m][j - 1] {
      }
    }
  }

  /** A line followed by more text, with the newline that ends it (or nothing after it), is the
      first line. */
  lemma {:induction false} LineLenOfLine(a: String, rest: String)
    requires IsLine(a) && (Terminated(a) || rest == [])
    ensures LineLen(a + rest) == |a|
    decreases |a|
  {
    var s := a + rest;
    assert s[0] == a[0];
    if a[0] != '\n' && |a| > 1 {
      assert s[1..] == a[1..] + rest;
      assert IsLine(a[1..]) by {
        forall j | 0 <= j < |a| - 2 ensures a[1..][j] != '\n' {
          assert a[1..][j] == a[j + 1];
        }
      }
      assert Terminated(a[1..]) == Terminated(a);
      LineLenOfLine(a[1..], rest);
    } else if a[0] != '\n' {
      assert a == [a[0]] && s[1..] == rest;
    }
  }

  /** Writing the lines read from a file gives the file back: `''.join(f.readlines())`. */
  lemma {:induction false} LinesConcat(s: String)
    ensures Concat(Lines(s)) == s
    decreases |s|
  {
    if s != [] {
      var n := LineLen(s);
      var t := s[n..];
      assert Concat(Lines(s)) == s[..n] + Concat(Lines(t)) by {
        ConcatCons(s[..n], Lines(t));
      }
      LinesConcat(t);
      assert s == s[..n] + t;
    }
  }

  /** Every line read is a line; all but the last end with a newline, and the last does exactly
      when the file does. */
  lemma {:induction false} LinesShape(s: String)
    ensures Lines(s) == [] <==> s == []
    ensures forall k :: 0 <= k < |Lines(s)| ==> IsLine(Lines(s)[k])
    ensures forall k :: 0 <= k < |Lines(s)| - 1 ==> Terminated(Lines(s)[k])
    ensures s != [] ==> (Terminated(Lines(s)[|Lines(s)| - 1]) <==> Terminated(s))
    decreases |s|
  {
    if s != [] {
      var n := LineLen(s);
      var head, t := s[..n], s[n..];
      LineLenShape(s);
      assert s == head + t;
      LinesShape(t);
      LinesShapeCons(head, Lines(t), t, s, Lines(s));
    }
  }

  /** Putting a line in front of lines that have the shape keeps the shape, when it ends with a
      newline or nothing follows it. */
  lemma LinesShapeCons(head: String, lt: seq<String>, t: String, s: String, ls: seq<String>)
    requires IsLine(head) && (t != [] ==> Terminated(head)) && ls == [head] + lt && s == head + t
    requires forall k :: 0 <= k < |lt| ==> IsLine(lt[k])
    requires forall k :: 0 <= k < |lt| - 1 ==> Terminated(lt[k])
    requires lt == [] <==> t == []
    requires t != [] ==> (Terminated(lt[|lt| - 1]) <==> Terminated(t))
    ensures forall k :: 0 <= k < |ls| ==> IsLine(ls[k])
    ensures forall k :: 0 <= k < |ls| - 1 ==> Terminated(ls[k])
    ensures Terminated(ls[|ls| - 1]) <==> Terminated(s)
  {
    forall k | 1 <= k < |ls| ensures IsLine(ls[k]) && (k < |ls| - 1 ==> Terminated(ls[k])) {
      assert ls[k] == lt[k - 1];
    }
    if t != [] {
      assert s[|s| - 1] == t[|t| - 1];
      assert ls[|ls| - 1] == lt[|lt| - 1];
    } else {
      assert s == head;
    }
  }

  /** Reading on from a line that ends with a newline. */
  lemma LinesCons(a: String, rest: String)
    requires IsLine(a) && Terminated(a)
    ensures Lines(a + rest) == [a] + Lines(rest)
  {
    LineLenOfLine(a, rest);
    var s := a + rest;
    assert s[..|a|] == a && s[|a|..] == rest;
  }

  /** A single line reads back as itself. */
  lemma LinesOfLine(a: String)
    requires IsLine(a)
    ensures Lines(a) == [a]
  {
    LineLenOfLine(a, []);
    assert a + [] == a;
    assert a[..|a|] == a && a[|a|..] == [];
  }

  /** The lines read back from a file written with `writelines(ls)`, each of `ls` a line: a line
      without a newline runs on into the next one. */
  function Rejoined(ls: seq<String>): seq<String>
    decreases |ls|
  {
    if |ls| <= 1 then ls
    else if Terminated(ls[0]) then [ls[0]] + Rejoined(ls[1..])
    else Rejoined([ls[0] + ls[1]] + ls[2..])
  }

  /** How many written lines other than the last lack a newline; each is joined to the next. */
  function RunOns(ls: seq<String>): nat
    decreases |ls|
  {
    if |ls| <= 1 then 0 else (if Terminated(ls[0]) then 0 else 1) + RunOns(ls[1..])
  }

  /** Reading back what `writelines(ls)` wrote gives the lines of `ls`, each unterminated one joined
      to the one after it. */
  lemma {:induction false} ReadBack(ls: seq<String>)
    requires forall k :: 0 <= k < |ls| ==> IsLine(ls[k])
    ensures Lines(Concat(ls)) == Rejoined(ls)
    decreases |ls|
  {
    if |ls| == 1 {
      assert ls[..0] == [] && ls == [ls[0]];
      assert Concat(ls) == ls[0] by {
        assert Concat(ls) == Concat(ls[..0]) + ls[0];
      }
      LinesOfLine(ls[0]);
      assert Lines(Concat(ls)) == ls;
    } else if |ls| > 1 {
      var a, rest := ls[0], ls[1..];
      assert ls == [a] + rest;
      ConcatCons(a, rest);
      if Terminated(a) {
        LinesCons(a, Concat(rest));
        ReadBack(rest);
      } else {
        var ms := [a + ls[1]] + ls[2..];
        ConcatJoin(a, ls[1], ls[2..], ls, ms);
        RunOnStep(ls, ms);
        ReadBack(ms);
      }
    }
  }

  /** Joining a line without a newline to the next one leaves lines. */
  lemma RunOnStep(ls: seq<String>, ms: seq<String>)
    requires |ls| > 1 && !Terminated(ls[0]) && forall k :: 0 <= k < |ls| ==> IsLine(ls[k])
    requires ms == [ls[0] + ls[1]] + ls[2..]
    ensures forall k :: 0 <= k < |ms| ==> IsLine(ms[k])
  {
    RunOnLine(ls[0], ls[1]);
    forall k | 1 <= k < |ms| ensures IsLine(ms[k]) {
      assert ms[k] == ls[k + 1];
    }
  }

  /** Joining two written lines writes the same text. */
  lemma ConcatJoin(a: String, b: String, rest: seq<String>, ls: seq<String>, ms: seq<String>)
    requires ls == [a] + ([b] + rest) && ms == [a + b] + rest
    ensures Concat(ms) == Concat(ls)
  {
    ConcatCons(a, [b] + rest);
    ConcatCons(b, rest);
    ConcatCons(a + b, rest);
  }

  lemma RunOnLine(a: String, b: String)
    requires IsLine(a) && !Terminated(a) && IsLine(b)
    ensures IsLine(a + b)
  {
    assert a[|a| - 1] != '\n';
    forall j | 0 <= j < |a + b| - 1 ensures (a + b)[j] != '\n' {
      if j >= |a| {
        assert (a + b)[j] == b[j - |a|];
      }
    }
  }

  /** Nothing runs on when every line but the last ends with a newline. */
  lemma {:induction false} RejoinedAll(ls: seq<String>)
    requires forall k :: 0 <= k < |ls| - 1 ==> Terminated(ls[k])
    ensures Rejoined(ls) == ls && RunOns(ls) == 0
    decreases |ls|
  {
    if |ls| > 1 {
      assert forall k :: 0 <= k < |ls[1..]| - 1 ==> ls[1..][k] == ls[k + 1];
      RejoinedAll(ls[1..]);
      assert ls == [ls[0]] + ls[1..];
    }
  }

  /** Each run-on line makes one line fewer. */
  lemma {:induction false} RejoinedCount(ls: seq<String>)
    requires forall k :: 0 <= k < |ls| ==> ls[k] != []
    ensures |Rejoined(ls)| + RunOns(ls) == |ls|
    decreases |ls|
  {
    if |ls| > 1 {
      if Terminated(ls[0]) {
        assert forall k :: 0 <= k < |ls[1..]| ==> ls[1..][k] == ls[k + 1];
        RejoinedCount(ls[1..]);
      } else {
        var b := ls[1];
        var ms := [ls[0] + b] + ls[2..];
        assert forall k :: 1 <= k < |ms| ==> ms[k] == ls[k + 1];
        RejoinedCount(ms);
        if |ls| > 2 {
          assert ls[1..][1..] == ls[2..] == ms[1..];
          assert Terminated(ls[0] + b) == Terminated(b);
        }
      }
    }
  }

  /** Joined lines keep a space inside them when every written line has one. */
  lemma {:induction false} RejoinedSpaceInside(ls: seq<String>)
    requires forall k :: 0 <= k < |ls| ==> SpaceInside(ls[k])
    ensures forall k :: 0 <= k < |Rejoined(ls)| ==> SpaceInside(Rejoined(ls)[k])
    decreases |ls|
  {
    if |ls| > 1 {
      if Terminated(ls[0]) {
        var rest := ls[1..];
        assert forall k :: 0 <= k < |rest| ==> rest[k] == ls[k + 1];
        RejoinedSpaceInside(rest);
        var r := Rejoined(ls);
        assert r == [ls[0]] + Rejoined(rest);
        forall k | 1 <= k < |r| ensures SpaceInside(r[k]) {
          assert r[k] == Rejoined(rest)[k - 1];
        }
      } else {
        var ms := [ls[0] + ls[1]] + ls[2..];
        SpaceInsideConcat(ls[0], ls[1]);
        forall k | 1 <= k < |ms| ensures SpaceInside(ms[k]) {
          assert ms[k] == ls[k + 1];
        }
        RejoinedSpaceInside(ms);
      }
    }
  }

  /** Stripping a line removes its newline: none is left inside. */
  lemma StripNoNewline(l: String)
    requires IsLine(l)
    ensures forall m :: 0 <= m < |Strip(l)| ==> Strip(l)[m] != '\n'
  {
    var r := Strip(l);
    var off := |l| - |LStrip(l)|;
    if r != [] {
      var e := |r| - 1;
      StripAt(l, e, off + e);
      StripEnds(l, r, e);
      forall m | 0 <= m < |r| ensures r[m] != '\n' {
        StripAt(l, m, off + m);
        if m == e {
          assert IsSpace('\n');
        }
      }
    }
  }

  /** Text without a newline, followed by one, is a line that ends with a newline. */
  lemma NewlineEnded(l: String, o: String)
    requires (forall m :: 0 <= m < |l| ==> l[m] != '\n') && o == l + "\n"
    ensures IsLine(o) && Terminated(o)
  {
    forall j | 0 <= j < |o| - 1 ensures o[j] != '\n' {
      assert o[j] == l[j];
    }
  }

  /** A written line without a newline, followed by another, comes back as one line. */
  lemma RunOnExample()
    ensures Lines(Concat(["b-0-2 q", "a-0-1 p\n"])) == ["b-0-2 qa-0-1 p\n"]
  {
    var ls := ["b-0-2 q", "a-0-1 p\n"];
    assert IsLine(ls[0]) && IsLine(ls[1]) && !Terminated(ls[0]);
    ReadBack(ls);
    assert ls[0] + ls[1] == "b-0-2 qa-0-1 p\n";
    assert [ls[0] + ls[1]] + ls[2..] == ["b-0-2 qa-0-1 p\n"];
  }
}
