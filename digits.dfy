/**
  Decimal numerals: ASCII digit runs and their values, `str(n)` for a natural number,
  zero-padded formatting (`%07d`, `{x:07.0f}` of an integral value) and Python's `int()` on a string.
*/
module Digits {
  import opened Wrappers
  import opened PyStr

  predicate IsDigit(c: char) {
    '0' <= c <= '9'
  }

  predicate AllDigits(s: String) {
    forall i :: 0 <= i < |s| ==> IsDigit(s[i])
  }

  function DigitValue(c: char): (d: nat)
    requires IsDigit(c)
    ensures d < 10
  {
    (c as int) - ('0' as int)
  }

  function DigitChar(d: nat): (c: char)
    requires d < 10
    ensures IsDigit(c) && DigitValue(c) == d
  {
    (('0' as int) + d) as char
  }

  function Pow10(k: nat): (p: nat)
    ensures p >= 1
  {
    if k == 0 then 1 else 10 * Pow10(k - 1)
  }

  /** The number a run of ASCII digits denotes; leading zeros are allowed. */
  function Value(s: String): nat
    requires AllDigits(s)
  {
    if s == [] then 0 else Value(s[..|s| - 1]) * 10 + DigitValue(s[|s| - 1])
  }

  /** `str(n)`: the shortest decimal numeral of `n`. */
  function NatToString(n: nat): (r: String)
    ensures r != [] && AllDigits(r) && Value(r) == n
    ensures (r[0] == '0') <==> (n == 0)
    ensures n == 0 ==> r == "0"
  {
    if n < 10 then [DigitChar(n)]
    else
      var h := NatToString(n / 10);
      var r := h + [DigitChar(n % 10)];
      assert r[..|r| - 1] == h;
      r
  }

  function Zeros(k: nat): (r: String)
    ensures |r| == k && AllDigits(r) && forall i :: 0 <= i < k ==> r[i] == '0'
  {
    if k == 0 then [] else Zeros(k - 1) + ['0']
  }

  lemma {:induction false} ValueConcat(x: String, y: String)
    requires AllDigits(x) && AllDigits(y)
    ensures AllDigits(x + y) && Value(x + y) == Value(x) * Pow10(|y|) + Value(y)
    decreases |y|
  {
    if y == [] {
      assert x + y == x;
    } else {
      var y' := y[..|y| - 1];
      var d := DigitValue(y[|y| - 1]);
      assert (x + y)[..|x + y| - 1] == x + y';
      assert (x + y)[|x + y| - 1] == y[|y| - 1];
      ValueConcat(x, y');
      assert Value(x + y) == Value(x + y') * 10 + d;
      assert Value(y) == Value(y') * 10 + d;
      MulShift(Value(x), Pow10(|y'|), Value(y'), d);
    }
  }

  lemma MulShift(a: nat, p: nat, b: nat, d: nat)
    ensures (a * p + b) * 10 + d == a * (10 * p) + (b * 10 + d)
  {
  }

  lemma {:induction false} ZerosValue(k: nat)
    ensures Value(Zeros(k)) == 0
  {
    if k > 0 {
      ZerosValue(k - 1);
      assert Zeros(k)[..k - 1] == Zeros(k - 1);
    }
  }

  /** `n` formatted as a decimal numeral left-padded with zeros to at least `width` characters
      (`'%07d' % n` for width 7; a wider number keeps all its digits). */
  function ZeroPad(n: nat, width: nat): (r: String)
    ensures AllDigits(r) && Value(r) == n
    ensures |r| == if |NatToString(n)| < width then width else |NatToString(n)|
    ensures EndsWith(r, NatToString(n))
  {
    var d := NatToString(n);
    var z := Zeros(if |d| < width then width - |d| else 0);
    ValueConcat(z, d);
    ZerosValue(|z|);
    assert (z + d)[|z + d| - |d|..] == d;
    z + d
  }

  // ---------------------------------------------------------------------------------------------
  // int() on a string

  /** The digits of an `int()` literal: ASCII digits, with single underscores allowed between two digits. */
  predicate IntBody(s: String) {
    && s != [] && IsDigit(s[0]) && IsDigit(s[|s| - 1])
    && (forall i :: 0 <= i < |s| ==> IsDigit(s[i]) || s[i] == '_')
    && NoDoubleUnderscore(s)
  }

  /** No two underscores side by side. */
  predicate NoDoubleUnderscore(s: String)
    decreases |s|
  {
    |s| < 2 || (!(s[0] == '_' && s[1] == '_') && NoDoubleUnderscore(s[1..]))
  }

  lemma {:induction false} WithoutUnderscoreDigits(s: String)
    requires forall i :: 0 <= i < |s| ==> IsDigit(s[i]) || s[i] == '_'
    ensures AllDigits(Without(s, '_'))
    decreases |s|
  {
    if s != [] {
      WithoutUnderscoreDigits(s[1..]);
      var r := Without(s, '_');
      var head: String := if s[0] == '_' then [] else [s[0]];
      assert r == head + Without(s[1..], '_');
      assert AllDigits(head);
    }
  }

  lemma {:induction false} WithoutAbsentChar(s: String, c: char)
    requires c !in s
    ensures Without(s, c) == s
    decreases |s|
  {
    if s != [] {
      assert c !in s[1..];
      WithoutAbsentChar(s[1..], c);
      assert s == [s[0]] + s[1..];
    }
  }

  /** Python's `int(s)` for base 10: surrounding whitespace, an optional sign, and digits with single
      underscores between them; anything else raises ValueError (None here). */
  function ParseInt(s: String): (r: Option<int>)
  {
    ParseSigned(Strip(s))
  }

  /** `int()` after stripping: an optional sign, then the digits. */
  function ParseSigned(t: String): (r: Option<int>)
  {
    if t != [] && t[0] == '-' then
      if IntBody(t[1..]) then var v: int := BodyValue(t[1..]); Some(-v) else None
    else if t != [] && t[0] == '+' then
      if IntBody(t[1..]) then Some(BodyValue(t[1..])) else None
    else if IntBody(t) then Some(BodyValue(t))
    else None
  }

  function BodyValue(body: String): nat
    requires IntBody(body)
  {
    WithoutUnderscoreDigits(body);
    Value(Without(body, '_'))
  }

  lemma NotIntBody(b: String, k: nat)
    requires k < |b| && !IsDigit(b[k]) && b[k] != '_'
    ensures !IntBody(b)
  {
  }

  lemma {:induction false} NoUnderscoreNoDouble(s: String)
    requires '_' !in s
    ensures NoDoubleUnderscore(s)
    decreases |s|
  {
    if |s| >= 2 {
      assert s[0] != '_';
      assert '_' !in s[1..];
      NoUnderscoreNoDouble(s[1..]);
    }
  }

  /** `int()` of a non-empty run of ASCII digits is the number the digits denote. */
  lemma ParseIntOfDigits(s: String)
    requires s != [] && AllDigits(s)
    ensures ParseInt(s) == Some(Value(s))
  {
    DigitsSigned(s);
    DigitsBody(s);
    SignedOfBody(s);
  }

  lemma DigitsSigned(s: String)
    requires s != [] && AllDigits(s)
    ensures ParseInt(s) == ParseSigned(s)
  {
    StripDigits(s);
  }

  lemma SignedOfBody(s: String)
    requires IntBody(s)
    ensures ParseSigned(s) == Some(BodyValue(s))
  {
  }

  lemma StripDigits(s: String)
    requires s != [] && AllDigits(s)
    ensures Strip(s) == s
  {
    assert !IsSpace(s[0]) && !IsSpace(s[|s| - 1]);
    assert LStrip(s) == s;
    assert RStrip(s) == s;
  }

  lemma DigitsBody(s: String)
    requires s != [] && AllDigits(s)
    ensures IntBody(s) && BodyValue(s) == Value(s)
  {
    assert '_' !in s by {
      forall i | 0 <= i < |s| ensures s[i] != '_' { assert IsDigit(s[i]); }
    }
    NoUnderscoreNoDouble(s);
    WithoutAbsentChar(s, '_');
  }

  /** `int(str(n)) == n` */
  lemma ParseIntOfNatToString(n: nat)
    ensures ParseInt(NatToString(n)) == Some(n)
  {
    ParseIntOfDigits(NatToString(n));
  }

  /** `int()` rejects the empty string and any string with a character that is neither a digit,
      an underscore, a sign nor whitespace. */
  lemma ParseIntRejects(s: String, i: nat)
    requires i < |s| && !IsDigit(s[i]) && s[i] != '_' && s[i] != '+' && s[i] != '-' && !IsSpace(s[i])
    ensures ParseInt(s) == None
  {
    var t := Strip(s);
    assert NoSignedBody(t) by {
      StripKeeps(s, i);
      var j := i - (|s| - |LStrip(s)|);
      assert t[j] == s[i];
      NotIntBody(t, j);
      if t[0] == '+' || t[0] == '-' {
        assert t[1..][j - 1] == s[i];
        NotIntBody(t[1..], j - 1);
      }
    }
    SignedRejects(t);
    ParseIntStrip(s);
  }

  /** Neither the text nor, after a sign, the rest of it is a run of digits. */
  predicate NoSignedBody(t: String) {
    !IntBody(t) && (t != [] && (t[0] == '+' || t[0] == '-') ==> !IntBody(t[1..]))
  }

  lemma SignedRejects(t: String)
    requires NoSignedBody(t)
    ensures ParseSigned(t) == None
  {
  }

  lemma ParseIntStrip(s: String)
    ensures ParseInt(s) == ParseSigned(Strip(s))
  {
  }
}
