/**
  Pseudo-random generators (numpy's `default_rng`, Python's `random`) as a caller-supplied stream of
  words that the seed determines, and a position in that stream. Every draw reads one word and
  advances the position; what is proved is that each draw lies in the range the library documents.
*/
module Rng {

  datatype Gen = Gen(words: nat -> nat, pos: nat)

  /** The generator after one draw. */
  function Advance(g: Gen): (h: Gen)
    ensures h.words == g.words && h.pos == g.pos + 1
  {
    g.(pos := g.pos + 1)
  }

  /** A drawn value and the generator state after the draw. */
  datatype Draw<T> = Draw(value: T, next: Gen)

  const TwoTo53: nat := 0x20_0000_0000_0000

  /** `rng.integers(lo, hi)` (and `random.randrange`): an integer in `[lo, hi)`.
      numpy raises ValueError when `lo >= hi`; callers model that case before drawing. */
  function Integers(g: Gen, lo: int, hi: int): (d: Draw<int>)
    requires lo < hi
    ensures lo <= d.value < hi
    ensures d.next == Advance(g)
  {
    Draw(lo + g.words(g.pos) % (hi - lo), Advance(g))
  }

  /** `rng.random()` / `random.random()`: a multiple of 2^-53 in `[0, 1)`. */
  function Random(g: Gen): (d: Draw<real>)
    ensures 0.0 <= d.value < 1.0
    ensures d.next == Advance(g)
  {
    var k := g.words(g.pos) % TwoTo53;
    Draw((k as real) / (TwoTo53 as real), Advance(g))
  }

  /** `rng.uniform(a, b)`: `a + (b - a) * random()`, so in `[a, b)` when `a < b`, and `a` when `a == b`. */
  function Uniform(g: Gen, a: real, b: real): (d: Draw<real>)
    ensures a < b ==> a <= d.value < b
    ensures a == b ==> d.value == a
    ensures b < a ==> b < d.value <= a
    ensures d.next == Advance(g)
  {
    var u := Random(g);
    ScaleBounds(b - a, u.value);
    Draw(a + Scale(b - a, u.value), u.next)
  }

  /** `c * u` for a fraction `u` in `[0, 1)`. */
  function Scale(c: real, u: real): real
  {
    c * u
  }

  /** A fraction of `c` lies between 0 and `c`, never reaching `c`. */
  lemma ScaleBounds(c: real, u: real)
    requires 0.0 <= u < 1.0
    ensures c > 0.0 ==> 0.0 <= Scale(c, u) < c
    ensures c < 0.0 ==> c < Scale(c, u) <= 0.0
    ensures c == 0.0 ==> Scale(c, u) == 0.0
  {
    if c > 0.0 {
      ScaleBelow(c, u);
    } else if c < 0.0 {
      ScaleAbove(c, u);
    }
  }

  lemma ScaleBelow(c: real, u: real)
    requires c > 0.0 && 0.0 <= u < 1.0
    ensures 0.0 <= c * u < c
  {
    assert c * (1.0 - u) > 0.0;
  }

  lemma ScaleAbove(c: real, u: real)
    requires c < 0.0 && 0.0 <= u < 1.0
    ensures c < c * u <= 0.0
  {
    ScaleBelow(-c, u);
    assert c * u == -((-c) * u);
  }

  // ---------------------------------------------------------------------------------------------
  // random.shuffle

  function Swap<T>(s: seq<T>, i: nat, j: nat): (r: seq<T>)
    requires i < |s| && j < |s|
    ensures |r| == |s| && r[i] == s[j] && r[j] == s[i]
    ensures forall k :: 0 <= k < |s| && k != i && k != j ==> r[k] == s[k]
  {
    s[i := s[j]][j := s[i]]
  }

  lemma SwapPermutes<T>(s: seq<T>, i: nat, j: nat)
    requires i < |s| && j < |s|
    ensures multiset(Swap(s, i, j)) == multiset(s)
  {
  }

  /** What `random.shuffle` leaves behind once it has handled positions `i` down to 1: for each such `i`,
      `j = randbelow(i + 1)`, then `x[i]` and `x[j]` are swapped. */
  function FisherYates<T>(s: seq<T>, i: nat, g: Gen): (r: (seq<T>, Gen))
    requires i < |s| || i == 0
    decreases i
  {
    if i == 0 then (s, g)
    else
      var d := Integers(g, 0, i + 1);
      FisherYates(Swap(s, i, d.value), i - 1, d.next)
  }

  /** The order `random.shuffle` produces is a permutation of its input. */
  lemma {:induction false} FisherYatesPermutes<T>(s: seq<T>, i: nat, g: Gen)
    requires i < |s| || i == 0
    ensures multiset(FisherYates(s, i, g).0) == multiset(s)
    ensures |FisherYates(s, i, g).0| == |s|
    decreases i
  {
    if i > 0 {
      var d := Integers(g, 0, i + 1);
      var s' := Swap(s, i, d.value);
      assert FisherYates(s, i, g) == FisherYates(s', i - 1, d.next);
      FisherYatesPermutes(s', i - 1, d.next);
      SwapPermutes(s, i, d.value);
    }
  }

  /** The list `random.shuffle` leaves behind, and the generator after it. */
  function Shuffled<T>(s: seq<T>, g: Gen): (r: (seq<T>, Gen))
  {
    FisherYates(s, if |s| == 0 then 0 else |s| - 1, g)
  }

  lemma ShuffledPermutes<T>(s: seq<T>, g: Gen)
    ensures multiset(Shuffled(s, g).0) == multiset(s)
    ensures |Shuffled(s, g).0| == |s|
  {
    FisherYatesPermutes(s, if |s| == 0 then 0 else |s| - 1, g);
  }

  /** `random.shuffle(x)`: shuffles the array in place. */
  method Shuffle<T>(a: array<T>, g: Gen) returns (h: Gen)
    modifies a
    ensures (a[..], h) == Shuffled(old(a[..]), g)
    ensures multiset(a[..]) == multiset(old(a[..]))
  {
    ghost var s0 := a[..];
    ghost var target := Shuffled(s0, g);
    h := g;
    if a.Length == 0 {
      return;
    }
    var i := a.Length - 1;
    while i > 0
      invariant 0 <= i < a.Length
      invariant FisherYates(a[..], i, h) == target
    {
      var d := Integers(h, 0, i + 1);
      var j := d.value;
      ghost var after := Swap(a[..], i, j);
      assert FisherYates(a[..], i, h) == FisherYates(after, i - 1, d.next);
      a[i], a[j] := a[j], a[i];
      assert forall k | 0 <= k < a.Length :: a[k] == after[k];
      assert a[..] == after;
      h := d.next;
      i := i - 1;
    }
    ShuffledPermutes(s0, g);
  }
}
