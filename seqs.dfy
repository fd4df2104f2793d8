/**
  The list and dict idioms the scripts' line loops share, stated once for any per-line function:
  keeping the lines a function accepts (`for line in f: ... if ok: out.append(entry)`), filling a dict
  in which a later entry replaces an earlier one (`d[key] = value`), and the same when a line can raise.
*/
module Seqs {
  import opened Wrappers

  /** Concatenation regroups; spelled out for loops that keep appending to a text. */
  lemma AppendAssoc<T>(a: seq<T>, b: seq<T>, c: seq<T>)
    ensures (a + b) + c == a + (b + c)
  {
  }

  // ---------------------------------------------------------------------------------------------
  // keep what a function accepts, in order

  function FilterMap<A, B>(f: A -> Option<B>, xs: seq<A>): (r: seq<B>)
    ensures |r| <= |xs|
  {
    if xs == [] then []
    else
      var init := FilterMap(f, xs[..|xs| - 1]);
      match f(xs[|xs| - 1])
      case None => init
      case Some(y) => init + [y]
  }

  /** The loop `for x in xs: y = f(x); if y is not None: out.append(y)`. */
  method FilterMapLoop<A, B>(f: A -> Option<B>, xs: seq<A>) returns (out: seq<B>)
    ensures out == FilterMap(f, xs)
  {
    out := [];
    var i := 0;
    while i < |xs|
      invariant 0 <= i <= |xs|
      invariant out == FilterMap(f, xs[..i])
    {
      FilterMapStep(f, xs, i);
      var y := f(xs[i]);
      if y.Some? {
        out := out + [y.value];
      }
      i := i + 1;
    }
    assert xs[..|xs|] == xs;
  }

  lemma FilterMapStep<A, B>(f: A -> Option<B>, xs: seq<A>, i: nat)
    requires i < |xs|
    ensures f(xs[i]).Some? ==> FilterMap(f, xs[..i + 1]) == FilterMap(f, xs[..i]) + [f(xs[i]).value]
    ensures f(xs[i]).None? ==> FilterMap(f, xs[..i + 1]) == FilterMap(f, xs[..i])
  {
    assert xs[..i + 1][..i] == xs[..i];
  }

  /** Two functions that agree on every element keep the same values. */
  lemma {:induction false} FilterMapAgree<A, B>(f: A -> Option<B>, g: A -> Option<B>, xs: seq<A>)
    requires forall i :: 0 <= i < |xs| ==> f(xs[i]) == g(xs[i])
    ensures FilterMap(f, xs) == FilterMap(g, xs)
    decreases |xs|
  {
    if xs != [] {
      FilterMapAgree(f, g, xs[..|xs| - 1]);
    }
  }

  /** Filtering two lists one after the other is filtering their concatenation. */
  lemma {:induction false} FilterMapAppend<A, B>(f: A -> Option<B>, xs: seq<A>, ys: seq<A>)
    ensures FilterMap(f, xs + ys) == FilterMap(f, xs) + FilterMap(f, ys)
    decreases |ys|
  {
    if ys == [] {
      assert xs + ys == xs;
    } else {
      var ys' := ys[..|ys| - 1];
      assert (xs + ys)[..|xs + ys| - 1] == xs + ys';
      assert (xs + ys)[|xs + ys| - 1] == ys[|ys| - 1];
      FilterMapAppend(f, xs, ys');
    }
  }

  /** An element is kept exactly when some input maps to it. */
  lemma {:induction false} FilterMapMembers<A, B>(f: A -> Option<B>, xs: seq<A>, y: B)
    ensures y in FilterMap(f, xs) <==> exists k :: 0 <= k < |xs| && f(xs[k]) == Some(y)
    decreases |xs|
  {
    if xs != [] {
      var init := xs[..|xs| - 1];
      FilterMapMembers(f, init, y);
      if exists k :: 0 <= k < |init| && f(init[k]) == Some(y) {
        var k :| 0 <= k < |init| && f(init[k]) == Some(y);
        assert xs[k] == init[k];
      }
      if exists k :: 0 <= k < |xs| && f(xs[k]) == Some(y) {
        var k :| 0 <= k < |xs| && f(xs[k]) == Some(y);
        if k < |init| { assert init[k] == xs[k]; }
      }
    }
  }

  /** When every input is accepted, the output has one element per input, each the image of that input. */
  lemma {:induction false} FilterMapAll<A, B>(f: A -> Option<B>, xs: seq<A>)
    requires forall k :: 0 <= k < |xs| ==> f(xs[k]).Some?
    ensures |FilterMap(f, xs)| == |xs|
    ensures forall k :: 0 <= k < |xs| ==> FilterMap(f, xs)[k] == f(xs[k]).value
    decreases |xs|
  {
    if xs != [] {
      var init := xs[..|xs| - 1];
      forall k | 0 <= k < |init| ensures f(init[k]).Some? { assert init[k] == xs[k]; }
      FilterMapAll(f, init);
      forall k | 0 <= k < |xs| ensures FilterMap(f, xs)[k] == f(xs[k]).value {
        if k < |init| { assert init[k] == xs[k]; }
      }
    }
  }

  /** Distinct inputs, and a function whose accepted outputs have distinct keys for distinct inputs,
      give outputs with pairwise distinct keys. */
  lemma {:induction false} FilterMapDistinct<A, B, K>(f: A -> Option<B>, key: B -> K, xs: seq<A>)
    requires forall i, j :: 0 <= i < j < |xs| ==> xs[i] != xs[j]
    requires forall x, y :: f(x).Some? && f(y).Some? && key(f(x).value) == key(f(y).value) ==> x == y
    ensures forall i, j :: 0 <= i < j < |FilterMap(f, xs)| ==> key(FilterMap(f, xs)[i]) != key(FilterMap(f, xs)[j])
    decreases |xs|
  {
    if xs != [] {
      var init, last := xs[..|xs| - 1], xs[|xs| - 1];
      FilterMapDistinct(f, key, init);
      var prev := FilterMap(f, init);
      if f(last).Some? {
        forall i | 0 <= i < |prev| ensures key(prev[i]) != key(f(last).value) {
          FilterMapMembers(f, init, prev[i]);
          var k :| 0 <= k < |init| && f(init[k]) == Some(prev[i]);
          assert init[k] == xs[k];
        }
      }
    }
  }

  // ---------------------------------------------------------------------------------------------
  // dicts filled in order: a later entry for a key replaces an earlier one

  function MapOf<K, V>(entries: seq<(K, V)>): map<K, V>
  {
    if entries == [] then map[]
    else
      var e := entries[|entries| - 1];
      MapOf(entries[..|entries| - 1])[e.0 := e.1]
  }

  lemma MapOfStep<K, V>(entries: seq<(K, V)>, e: (K, V))
    ensures MapOf(entries + [e]) == MapOf(entries)[e.0 := e.1]
  {
    assert (entries + [e])[..|entries|] == entries;
  }

  /** The keys of the dict are the keys of the entries. */
  lemma {:induction false} MapOfKeys<K, V>(entries: seq<(K, V)>, key: K)
    ensures key in MapOf(entries) <==> exists j :: 0 <= j < |entries| && entries[j].0 == key
    decreases |entries|
  {
    if entries != [] {
      var init := entries[..|entries| - 1];
      MapOfKeys(init, key);
      if exists j :: 0 <= j < |init| && init[j].0 == key {
        var j :| 0 <= j < |init| && init[j].0 == key;
        assert entries[j] == init[j];
      }
      if exists j :: 0 <= j < |entries| && entries[j].0 == key {
        var j :| 0 <= j < |entries| && entries[j].0 == key;
        if j < |init| { assert init[j] == entries[j]; }
      }
    }
  }

  /** A key's value is the value of the last entry with that key. */
  lemma {:induction false} MapOfLastWins<K, V>(entries: seq<(K, V)>, j: nat)
    requires j < |entries|
    requires forall i :: j < i < |entries| ==> entries[i].0 != entries[j].0
    ensures entries[j].0 in MapOf(entries) && MapOf(entries)[entries[j].0] == entries[j].1
    decreases |entries|
  {
    if j < |entries| - 1 {
      var init := entries[..|entries| - 1];
      assert init[j] == entries[j];
      forall i | j < i < |init| ensures init[i].0 != init[j].0 { assert init[i] == entries[i]; }
      MapOfLastWins(init, j);
    }
  }

  /** In a dict filled from the entries a function accepts, a key's value is the one of the last input
      that produces it. */
  lemma {:induction false} FilterMapLastWins<A, K, V>(f: A -> Option<(K, V)>, xs: seq<A>, j: nat)
    requires j < |xs| && f(xs[j]).Some?
    requires forall i :: j < i < |xs| ==> !(f(xs[i]).Some? && f(xs[i]).value.0 == f(xs[j]).value.0)
    ensures f(xs[j]).value.0 in MapOf(FilterMap(f, xs))
    ensures MapOf(FilterMap(f, xs))[f(xs[j]).value.0] == f(xs[j]).value.1
    decreases |xs|
  {
    var init := xs[..|xs| - 1];
    var prev := FilterMap(f, init);
    if j == |xs| - 1 {
      MapOfStep(prev, f(xs[j]).value);
    } else {
      assert init[j] == xs[j];
      forall i | j < i < |init| ensures !(f(init[i]).Some? && f(init[i]).value.0 == f(init[j]).value.0) {
        assert init[i] == xs[i];
      }
      FilterMapLastWins(f, init, j);
      if f(xs[|xs| - 1]).Some? {
        MapOfStep(prev, f(xs[|xs| - 1]).value);
      }
    }
  }

  /** A key is in the dict filled from the entries a function accepts exactly when some input
      produces an entry with that key. */
  lemma FilterMapKeys<A, K, V>(f: A -> Option<(K, V)>, xs: seq<A>, key: K)
    ensures key in MapOf(FilterMap(f, xs)) <==> exists j :: 0 <= j < |xs| && f(xs[j]).Some? && f(xs[j]).value.0 == key
  {
    var entries := FilterMap(f, xs);
    MapOfKeys(entries, key);
    if key in MapOf(entries) {
      var i :| 0 <= i < |entries| && entries[i].0 == key;
      FilterMapMembers(f, xs, entries[i]);
    }
    if exists j :: 0 <= j < |xs| && f(xs[j]).Some? && f(xs[j]).value.0 == key {
      var j :| 0 <= j < |xs| && f(xs[j]).Some? && f(xs[j]).value.0 == key;
      FilterMapMembers(f, xs, f(xs[j]).value);
      var i :| 0 <= i < |entries| && entries[i] == f(xs[j]).value;
    }
  }

  /** The loop `for x in xs: e = f(x); if e is not None: keys.add(e[0])`. */
  method KeysLoop<A, K, V>(f: A -> Option<(K, V)>, xs: seq<A>) returns (keys: set<K>)
    ensures keys == MapOf(FilterMap(f, xs)).Keys
  {
    ghost var entries: seq<(K, V)> := [];
    keys := {};
    var i := 0;
    while i < |xs|
      invariant 0 <= i <= |xs|
      invariant entries == FilterMap(f, xs[..i]) && keys == MapOf(entries).Keys
    {
      FilterMapStep(f, xs, i);
      var e := f(xs[i]);
      if e.Some? {
        MapOfStep(entries, e.value);
        KeysUpdate(MapOf(entries), e.value.0, e.value.1);
        entries := entries + [e.value];
        keys := keys + {e.value.0};
      }
      i := i + 1;
    }
    assert xs[..|xs|] == xs;
  }

  /** Setting a key adds it to the keys and keeps the others. */
  lemma KeysUpdate<K, V>(m: map<K, V>, k: K, v: V)
    ensures m[k := v].Keys == m.Keys + {k}
  {
  }

  /** The loop `for x in xs: e = f(x); if e is not None: d[e[0]] = e[1]`. */
  method MapOfLoop<A, K, V>(f: A -> Option<(K, V)>, xs: seq<A>) returns (d: map<K, V>)
    ensures d == MapOf(FilterMap(f, xs))
  {
    ghost var entries: seq<(K, V)> := [];
    d := map[];
    var i := 0;
    while i < |xs|
      invariant 0 <= i <= |xs|
      invariant entries == FilterMap(f, xs[..i]) && d == MapOf(entries)
    {
      FilterMapStep(f, xs, i);
      var e := f(xs[i]);
      if e.Some? {
        MapOfStep(entries, e.value);
        entries := entries + [e.value];
        d := d[e.value.0 := e.value.1];
      }
      i := i + 1;
    }
    assert xs[..|xs|] == xs;
  }

  // ---------------------------------------------------------------------------------------------
  // dicts iterated in insertion order

  /** `d[k] = v` on a dict kept as its items in insertion order: a new key goes last, an existing
      one keeps its place and takes the new value. */
  function Assign<K(==), V>(d: seq<(K, V)>, k: K, v: V): (r: seq<(K, V)>)
    ensures |r| == |d| || |r| == |d| + 1
    decreases |d|
  {
    if d == [] then [(k, v)]
    else if d[0].0 == k then [(k, v)] + d[1..]
    else [d[0]] + Assign(d[1..], k, v)
  }

  /** `d.get(k)` on items in insertion order. */
  function Lookup<K(==), V>(d: seq<(K, V)>, k: K): Option<V>
    decreases |d|
  {
    if d == [] then None else if d[0].0 == k then Some(d[0].1) else Lookup(d[1..], k)
  }

  /** The keys of the items, in order. */
  function KeySeq<K, V>(d: seq<(K, V)>): (r: seq<K>)
    ensures |r| == |d| && forall i :: 0 <= i < |d| ==> r[i] == d[i].0
  {
    seq(|d|, i requires 0 <= i < |d| => d[i].0)
  }

  predicate DistinctKeys<K(==), V>(d: seq<(K, V)>) {
    forall i, j :: 0 <= i < j < |d| ==> d[i].0 != d[j].0
  }

  /** The items of the dict filled from the entries in order. */
  function Items<K(==), V>(entries: seq<(K, V)>): seq<(K, V)>
  {
    if entries == [] then []
    else
      var e := entries[|entries| - 1];
      Assign(Items(entries[..|entries| - 1]), e.0, e.1)
  }

  /** The keys as first met, each once. */
  function Dedup<K(==)>(ks: seq<K>): seq<K>
  {
    if ks == [] then [] else Dedup(ks[..|ks| - 1]) + (if ks[|ks| - 1] in ks[..|ks| - 1] then [] else [ks[|ks| - 1]])
  }

  lemma {:induction false} AssignKeys<K, V>(d: seq<(K, V)>, k: K, v: V)
    ensures KeySeq(Assign(d, k, v)) == if k in KeySeq(d) then KeySeq(d) else KeySeq(d) + [k]
    decreases |d|
  {
    if d != [] && d[0].0 != k {
      AssignKeys(d[1..], k, v);
      assert KeySeq(d) == [d[0].0] + KeySeq(d[1..]);
      assert KeySeq(Assign(d, k, v)) == [d[0].0] + KeySeq(Assign(d[1..], k, v));
    } else if d != [] {
      assert KeySeq(Assign(d, k, v)) == KeySeq(d);
    }
  }

  lemma {:induction false} AssignLookup<K, V>(d: seq<(K, V)>, k: K, v: V, k': K)
    ensures Lookup(Assign(d, k, v), k') == if k' == k then Some(v) else Lookup(d, k')
    decreases |d|
  {
    if d != [] && d[0].0 != k {
      AssignLookup(d[1..], k, v, k');
      assert Assign(d, k, v)[1..] == Assign(d[1..], k, v);
    } else if d != [] {
      assert Assign(d, k, v)[1..] == d[1..];
    }
  }

  lemma {:induction false} LookupAt<K, V>(d: seq<(K, V)>, i: nat)
    requires i < |d| && DistinctKeys(d)
    ensures Lookup(d, d[i].0) == Some(d[i].1)
    decreases i
  {
    if i > 0 {
      assert d[0].0 != d[i].0;
      assert d[1..][i - 1] == d[i];
      LookupAt(d[1..], i - 1);
    }
  }

  lemma ItemsStep<K, V>(entries: seq<(K, V)>, e: (K, V))
    ensures Items(entries + [e]) == Assign(Items(entries), e.0, e.1)
  {
    assert (entries + [e])[..|entries|] == entries;
  }

  /** The items in insertion order are the distinct keys of the entries as first met. */
  lemma {:induction false} ItemsKeys<K, V>(entries: seq<(K, V)>)
    ensures KeySeq(Items(entries)) == Dedup(KeySeq(entries))
    decreases |entries|
  {
    if entries != [] {
      var init := entries[..|entries| - 1];
      var e := entries[|entries| - 1];
      var ks, ki := KeySeq(entries), KeySeq(init);
      assert Items(entries) == Assign(Items(init), e.0, e.1);
      assert Dedup(ks) == Dedup(ki) + (if e.0 in ki then [] else [e.0]) by {
        assert ks[..|ks| - 1] == ki;
        assert ks[|ks| - 1] == e.0;
      }
      ItemsKeys(init);
      DedupDistinct(ki);
      AssignKeys(Items(init), e.0, e.1);
    }
  }

  /** Keeping first occurrences leaves each key once. */
  lemma {:induction false} DedupDistinct<K>(ks: seq<K>)
    ensures forall i, j :: 0 <= i < j < |Dedup(ks)| ==> Dedup(ks)[i] != Dedup(ks)[j]
    ensures forall k :: k in Dedup(ks) <==> k in ks
    decreases |ks|
  {
    if ks != [] {
      var init := ks[..|ks| - 1];
      DedupDistinct(init);
      assert ks == init + [ks[|ks| - 1]];
    }
  }

  lemma ItemsDistinct<K, V>(entries: seq<(K, V)>)
    ensures DistinctKeys(Items(entries))
    ensures forall key :: key in MapOf(entries) <==> key in KeySeq(Items(entries))
  {
    ItemsKeys(entries);
    DedupDistinct(KeySeq(entries));
    var d := Items(entries);
    forall i, j | 0 <= i < j < |d| ensures d[i].0 != d[j].0 {
      assert KeySeq(d)[i] == d[i].0 && KeySeq(d)[j] == d[j].0;
    }
    forall key ensures key in MapOf(entries) <==> key in KeySeq(d) {
      KeysOfMap(entries, key);
    }
  }

  /** Each item holds the value a plain dict filled from the same entries holds: the last one given. */
  lemma {:induction false} ItemsValues<K, V>(entries: seq<(K, V)>, key: K)
    ensures Lookup(Items(entries), key) == if key in MapOf(entries) then Some(MapOf(entries)[key]) else None
    decreases |entries|
  {
    if entries != [] {
      var init := entries[..|entries| - 1];
      var e := entries[|entries| - 1];
      ItemsValues(init, key);
      AssignLookup(Items(init), e.0, e.1, key);
    }
  }

  /** The dict in insertion order and the plain dict agree: same keys, no key twice, each item with
      the last value given for it. */
  lemma ItemsMeaning<K, V>(entries: seq<(K, V)>)
    ensures DistinctKeys(Items(entries))
    ensures forall key :: key in MapOf(entries) <==> key in KeySeq(Items(entries))
    ensures forall i :: 0 <= i < |Items(entries)| ==> Items(entries)[i].0 in MapOf(entries) && Items(entries)[i].1 == MapOf(entries)[Items(entries)[i].0]
  {
    ItemsDistinct(entries);
    var d := Items(entries);
    forall i | 0 <= i < |d| ensures d[i].0 in MapOf(entries) && d[i].1 == MapOf(entries)[d[i].0] {
      LookupAt(d, i);
      ItemsValues(entries, d[i].0);
    }
  }

  lemma KeysOfMap<K, V>(entries: seq<(K, V)>, key: K)
    ensures key in KeySeq(entries) <==> key in MapOf(entries)
  {
    MapOfKeys(entries, key);
    if key in KeySeq(entries) {
      var j :| 0 <= j < |entries| && KeySeq(entries)[j] == key;
    }
  }

  // ---------------------------------------------------------------------------------------------
  // the same loop when a line can raise: the first error ends it

  function CollectMap<A, K, V>(f: A -> Result<Option<(K, V)>>, xs: seq<A>): Result<map<K, V>>
  {
    if xs == [] then Ok(map[])
    else
      match CollectMap(f, xs[..|xs| - 1])
      case Err(e) => Err(e)
      case Ok(m) =>
        match f(xs[|xs| - 1])
        case Err(e) => Err(e)
        case Ok(None) => Ok(m)
        case Ok(Some(kv)) => Ok(m[kv.0 := kv.1])
  }

  /** Once a prefix raises, the whole list raises the same error. */
  lemma {:induction false} CollectMapErrPersists<A, K, V>(f: A -> Result<Option<(K, V)>>, xs: seq<A>, n: nat)
    requires n <= |xs| && CollectMap(f, xs[..n]).Err?
    ensures CollectMap(f, xs) == CollectMap(f, xs[..n])
    decreases |xs| - n
  {
    if n == |xs| {
      assert xs[..n] == xs;
    } else {
      assert xs[..n + 1][..n] == xs[..n];
      CollectMapErrPersists(f, xs, n + 1);
    }
  }

  /** The loop raises exactly when some line raises, and then with the error of some such line. */
  lemma {:induction false} CollectMapFails<A, K, V>(f: A -> Result<Option<(K, V)>>, xs: seq<A>)
    ensures CollectMap(f, xs).Err? <==> exists k :: 0 <= k < |xs| && f(xs[k]).Err?
    ensures CollectMap(f, xs).Err? ==> exists k :: 0 <= k < |xs| && f(xs[k]) == Err(CollectMap(f, xs).error)
    decreases |xs|
  {
    if xs != [] {
      var init := xs[..|xs| - 1];
      CollectMapFails(f, init);
      if exists k :: 0 <= k < |init| && f(init[k]).Err? {
        var k :| 0 <= k < |init| && f(init[k]).Err?;
        assert xs[k] == init[k];
      }
      if CollectMap(f, init).Err? {
        var k :| 0 <= k < |init| && f(init[k]) == Err(CollectMap(f, init).error);
        assert xs[k] == init[k];
      }
      if exists k :: 0 <= k < |xs| && f(xs[k]).Err? {
        var k :| 0 <= k < |xs| && f(xs[k]).Err?;
        if k < |init| { assert init[k] == xs[k]; }
      }
    }
  }

  /** When nothing raises, a key's value is the one on the last line that names it. */
  lemma {:induction false} CollectMapLastWins<A, K, V>(f: A -> Result<Option<(K, V)>>, xs: seq<A>, j: nat, key: K, val: V)
    requires j < |xs| && CollectMap(f, xs).Ok?
    requires f(xs[j]) == Ok(Some((key, val)))
    requires forall i :: j < i < |xs| ==> !(f(xs[i]).Ok? && f(xs[i]).value.Some? && f(xs[i]).value.value.0 == key)
    ensures key in CollectMap(f, xs).value && CollectMap(f, xs).value[key] == val
    decreases |xs|
  {
    var init := xs[..|xs| - 1];
    assert CollectMap(f, init).Ok?;
    if j < |xs| - 1 {
      forall i | j < i < |init| ensures !(f(init[i]).Ok? && f(init[i]).value.Some? && f(init[i]).value.value.0 == key) {
        assert init[i] == xs[i];
      }
      assert init[j] == xs[j];
      CollectMapLastWins(f, init, j, key, val);
    }
  }

  // ---------------------------------------------------------------------------------------------
  // lists of results gathered in some order: `for x in xs: out.extend(f(x))`, where `f` can raise

  /** `range(n)` */
  function Range(n: nat): (r: seq<nat>)
    ensures |r| == n && forall i :: 0 <= i < n ==> r[i] == i
  {
    seq(n, i requires 0 <= i < n => i)
  }

  function ConcatAll<A, B>(f: A -> Result<seq<B>>, xs: seq<A>): Result<seq<B>>
  {
    if xs == [] then Ok([])
    else
      match ConcatAll(f, xs[..|xs| - 1])
      case Err(e) => Err(e)
      case Ok(r) =>
        match f(xs[|xs| - 1])
        case Err(e) => Err(e)
        case Ok(ys) => Ok(r + ys)
  }

  /** Once a prefix raises, the whole list raises the same error. */
  lemma {:induction false} ConcatAllErrPersists<A, B>(f: A -> Result<seq<B>>, xs: seq<A>, n: nat)
    requires n <= |xs| && ConcatAll(f, xs[..n]).Err?
    ensures ConcatAll(f, xs) == ConcatAll(f, xs[..n])
    decreases |xs| - n
  {
    if n == |xs| {
      assert xs[..n] == xs;
    } else {
      assert xs[..n + 1][..n] == xs[..n];
      ConcatAllErrPersists(f, xs, n + 1);
    }
  }

  /** Gathering one more element. */
  lemma ConcatAllStep<A, B>(f: A -> Result<seq<B>>, xs: seq<A>, i: nat)
    requires i < |xs|
    ensures ConcatAll(f, xs[..i + 1]) ==
      match ConcatAll(f, xs[..i])
      case Err(e) => Err(e)
      case Ok(r) => (match f(xs[i]) case Err(e) => Err(e) case Ok(ys) => Ok(r + ys))
  {
    assert xs[..i + 1][..i] == xs[..i];
  }

  /** Gathering succeeds exactly when every element's call does. */
  lemma {:induction false} ConcatAllOk<A, B>(f: A -> Result<seq<B>>, xs: seq<A>)
    ensures ConcatAll(f, xs).Ok? <==> forall k :: 0 <= k < |xs| ==> f(xs[k]).Ok?
    decreases |xs|
  {
    if xs != [] {
      var init := xs[..|xs| - 1];
      ConcatAllOk(f, init);
      if forall k :: 0 <= k < |xs| ==> f(xs[k]).Ok? {
        forall k | 0 <= k < |init| ensures f(init[k]).Ok? { assert init[k] == xs[k]; }
      }
      if forall k :: 0 <= k < |init| ==> f(init[k]).Ok? {
        forall k | 0 <= k < |xs| - 1 ensures f(xs[k]).Ok? { assert init[k] == xs[k]; }
      }
    }
  }

  /** Gathering two lists one after the other is gathering their concatenation. */
  lemma {:induction false} ConcatAllAppend<A, B>(f: A -> Result<seq<B>>, xs: seq<A>, ys: seq<A>)
    requires ConcatAll(f, xs).Ok? && ConcatAll(f, ys).Ok?
    ensures ConcatAll(f, xs + ys) == Ok(ConcatAll(f, xs).value + ConcatAll(f, ys).value)
    decreases |ys|
  {
    if ys == [] {
      assert xs + ys == xs;
      assert ConcatAll(f, xs).value + [] == ConcatAll(f, xs).value;
    } else {
      var ys' := ys[..|ys| - 1];
      assert (xs + ys)[..|xs + ys| - 1] == xs + ys';
      assert (xs + ys)[|xs + ys| - 1] == ys[|ys| - 1];
      assert ConcatAll(f, ys').Ok? && f(ys[|ys| - 1]).Ok?;
      ConcatAllAppend(f, xs, ys');
      assert ConcatAll(f, ys).value == ConcatAll(f, ys').value + f(ys[|ys| - 1]).value;
      assert ConcatAll(f, xs + ys).value == ConcatAll(f, xs).value + ConcatAll(f, ys').value + f(ys[|ys| - 1]).value;
      assert ConcatAll(f, xs).value + ConcatAll(f, ys).value
          == ConcatAll(f, xs).value + ConcatAll(f, ys').value + f(ys[|ys| - 1]).value;
    }
  }

  /** The order in which the elements are visited changes the order of the gathered results, not
      which results there are. */
  lemma {:induction false} ConcatAllPermutes<A, B>(f: A -> Result<seq<B>>, xs: seq<A>, ys: seq<A>)
    requires multiset(xs) == multiset(ys)
    requires forall x :: x in xs ==> f(x).Ok?
    ensures ConcatAll(f, xs).Ok? && ConcatAll(f, ys).Ok?
    ensures multiset(ConcatAll(f, xs).value) == multiset(ConcatAll(f, ys).value)
    decreases |xs|
  {
    PermutedOk(f, xs, ys);
    if xs == [] {
      assert |ys| == |multiset(ys)| == 0;
    } else {
      var init, x := xs[..|xs| - 1], xs[|xs| - 1];
      var i := FindIn(ys, x);
      RemoveOne(xs, ys, i);
      InitOk(f, xs);
      ConcatAllPermutes(f, init, ys[..i] + ys[i + 1..]);
      ConcatAllAround(f, ys, i);
      ConcatAllLast(f, xs);
    }
  }

  lemma PermutedOk<A, B>(f: A -> Result<seq<B>>, xs: seq<A>, ys: seq<A>)
    requires multiset(xs) == multiset(ys)
    requires forall x :: x in xs ==> f(x).Ok?
    ensures ConcatAll(f, xs).Ok? && ConcatAll(f, ys).Ok?
    ensures forall y :: y in ys ==> f(y).Ok?
  {
    AllOk(f, xs);
    forall y | y in ys ensures f(y).Ok? {
      assert y in multiset(ys);
    }
    AllOk(f, ys);
  }

  lemma FindIn<A>(ys: seq<A>, x: A) returns (i: nat)
    requires x in multiset(ys)
    ensures i < |ys| && ys[i] == x
  {
    i :| 0 <= i < |ys| && ys[i] == x;
  }

  lemma InitOk<A, B>(f: A -> Result<seq<B>>, xs: seq<A>)
    requires xs != [] && forall x :: x in xs ==> f(x).Ok?
    ensures forall y :: y in xs[..|xs| - 1] ==> f(y).Ok?
  {
    forall y | y in xs[..|xs| - 1] ensures f(y).Ok? { assert y in xs; }
  }

  lemma ConcatAllLast<A, B>(f: A -> Result<seq<B>>, xs: seq<A>)
    requires xs != [] && ConcatAll(f, xs).Ok?
    ensures ConcatAll(f, xs[..|xs| - 1]).Ok? && f(xs[|xs| - 1]).Ok?
    ensures ConcatAll(f, xs).value == ConcatAll(f, xs[..|xs| - 1]).value + f(xs[|xs| - 1]).value
  {
  }

  /** What is gathered is what the elements' calls produce. */
  lemma {:induction false} ConcatAllMembers<A, B>(f: A -> Result<seq<B>>, xs: seq<A>, y: B)
    requires ConcatAll(f, xs).Ok?
    ensures y in ConcatAll(f, xs).value <==> exists k :: 0 <= k < |xs| && f(xs[k]).Ok? && y in f(xs[k]).value
    decreases |xs|
  {
    if xs != [] {
      var init := xs[..|xs| - 1];
      ConcatAllLast(f, xs);
      ConcatAllMembers(f, init, y);
      if exists k :: 0 <= k < |init| && f(init[k]).Ok? && y in f(init[k]).value {
        var k :| 0 <= k < |init| && f(init[k]).Ok? && y in f(init[k]).value;
        assert xs[k] == init[k];
      }
      if exists k :: 0 <= k < |xs| && f(xs[k]).Ok? && y in f(xs[k]).value {
        var k :| 0 <= k < |xs| && f(xs[k]).Ok? && y in f(xs[k]).value;
        if k < |init| {
          assert xs[k] == init[k];
        }
      }
    }
  }

  /** When each call gives at most one result, what is gathered is what single calls give. */
  lemma ConcatAllSingles<A, B>(f: A -> Result<seq<B>>, xs: seq<A>, y: B)
    requires ConcatAll(f, xs).Ok? && forall x :: f(x).Ok? ==> |f(x).value| <= 1
    ensures y in ConcatAll(f, xs).value <==> exists k :: 0 <= k < |xs| && f(xs[k]) == Ok([y])
  {
    ConcatAllMembers(f, xs, y);
    if exists k :: 0 <= k < |xs| && f(xs[k]).Ok? && y in f(xs[k]).value {
      var k :| 0 <= k < |xs| && f(xs[k]).Ok? && y in f(xs[k]).value;
      assert f(xs[k]).value == [y];
    }
    if exists k :: 0 <= k < |xs| && f(xs[k]) == Ok([y]) {
      var k :| 0 <= k < |xs| && f(xs[k]) == Ok([y]);
      assert y in f(xs[k]).value;
    }
  }

  lemma AllOk<A, B>(f: A -> Result<seq<B>>, xs: seq<A>)
    requires forall x :: x in xs ==> f(x).Ok?
    ensures ConcatAll(f, xs).Ok?
  {
    forall k | 0 <= k < |xs| ensures f(xs[k]).Ok? { assert xs[k] in xs; }
    ConcatAllOk(f, xs);
  }

  /** Taking the last element off `xs` and the same element off `ys` keeps the multisets equal. */
  lemma RemoveOne<A>(xs: seq<A>, ys: seq<A>, i: nat)
    requires xs != [] && multiset(xs) == multiset(ys) && i < |ys| && ys[i] == xs[|xs| - 1]
    ensures multiset(xs[..|xs| - 1]) == multiset(ys[..i] + ys[i + 1..])
  {
    var init, x, a, b := xs[..|xs| - 1], xs[|xs| - 1], ys[..i], ys[i + 1..];
    assert xs == init + [x];
    assert ys == a + [x] + b;
    assert multiset(xs) == multiset(init) + multiset{x};
    assert multiset(ys) == multiset(a + b) + multiset{x} by {
      assert multiset(ys) == multiset(a) + multiset([x]) + multiset(b);
      assert multiset(a + b) == multiset(a) + multiset(b);
    }
    assert multiset(init) == multiset(xs) - multiset{x};
    assert multiset(a + b) == multiset(ys) - multiset{x};
  }

  lemma ConcatAllAround<A, B>(f: A -> Result<seq<B>>, ys: seq<A>, i: nat)
    requires i < |ys| && forall y :: y in ys ==> f(y).Ok?
    ensures ConcatAll(f, ys).Ok? && ConcatAll(f, ys[..i] + ys[i + 1..]).Ok? && f(ys[i]).Ok?
    ensures multiset(ConcatAll(f, ys).value) == multiset(ConcatAll(f, ys[..i] + ys[i + 1..]).value) + multiset(f(ys[i]).value)
  {
    var a, x, b := ys[..i], ys[i], ys[i + 1..];
    assert ys == a + [x] + b;
    AllOk(f, a);
    AllOk(f, b);
    AllOk(f, a + b);
    AllOk(f, a + [x]);
    AllOk(f, ys);
    assert ConcatAll(f, [x]) == Ok(f(x).value) by {
      assert [x][..0] == [];
      assert [] + f(x).value == f(x).value;
    }
    ConcatAllAppend(f, a, b);
    ConcatAllAppend(f, a, [x]);
    ConcatAllAppend(f, a + [x], b);
  }

  // ---------------------------------------------------------------------------------------------
  // keep the lines a predicate accepts, verbatim

  function Filter<A>(p: A -> bool, xs: seq<A>): (r: seq<A>)
    ensures |r| <= |xs|
  {
    if xs == [] then [] else Filter(p, xs[..|xs| - 1]) + (if p(xs[|xs| - 1]) then [xs[|xs| - 1]] else [])
  }

  lemma FilterStep<A>(p: A -> bool, xs: seq<A>, i: nat)
    requires i < |xs|
    ensures p(xs[i]) ==> Filter(p, xs[..i + 1]) == Filter(p, xs[..i]) + [xs[i]]
    ensures !p(xs[i]) ==> Filter(p, xs[..i + 1]) == Filter(p, xs[..i])
  {
    assert xs[..i + 1][..i] == xs[..i];
  }

  /** Filtering two lists one after the other is filtering their concatenation: the order is kept. */
  lemma FilterSnoc<A>(p: A -> bool, xs: seq<A>, x: A)
    ensures p(x) ==> Filter(p, xs + [x]) == Filter(p, xs) + [x]
    ensures !p(x) ==> Filter(p, xs + [x]) == Filter(p, xs)
  {
    assert (xs + [x])[..|xs|] == xs;
  }

  lemma {:induction false} FilterAppend<A>(p: A -> bool, xs: seq<A>, ys: seq<A>)
    ensures Filter(p, xs + ys) == Filter(p, xs) + Filter(p, ys)
    decreases |ys|
  {
    if ys == [] {
      assert xs + ys == xs;
    } else {
      var ys' := ys[..|ys| - 1];
      assert (xs + ys)[..|xs + ys| - 1] == xs + ys';
      assert (xs + ys)[|xs + ys| - 1] == ys[|ys| - 1];
      FilterAppend(p, xs, ys');
    }
  }

  /** An element is kept exactly when it is an input the predicate accepts. */
  lemma {:induction false} FilterMembers<A>(p: A -> bool, xs: seq<A>, x: A)
    ensures x in Filter(p, xs) <==> x in xs && p(x)
    decreases |xs|
  {
    if xs != [] {
      var init := xs[..|xs| - 1];
      FilterMembers(p, init, x);
      assert xs == init + [xs[|xs| - 1]];
    }
  }

  /** Filtering what was already filtered changes nothing. */
  lemma {:induction false} FilterIdempotent<A>(p: A -> bool, xs: seq<A>)
    ensures Filter(p, Filter(p, xs)) == Filter(p, xs)
    decreases |xs|
  {
    if xs != [] {
      var init, last := xs[..|xs| - 1], xs[|xs| - 1];
      FilterIdempotent(p, init);
      var tail := if p(last) then [last] else [];
      FilterAppend(p, Filter(p, init), tail);
      if p(last) {
        assert Filter(p, tail) == Filter(p, []) + [last] by { assert tail[..0] == []; }
      }
    }
  }

  /** `idx` picks `xs` out of `ys` at strictly increasing positions: `xs` is a subsequence of `ys`. */
  ghost predicate Embeds<A>(xs: seq<A>, ys: seq<A>, idx: seq<nat>) {
    && |idx| == |xs|
    && (forall k :: 0 <= k < |idx| ==> idx[k] < |ys| && xs[k] == ys[idx[k]])
    && (forall j, k :: 0 <= j < k < |idx| ==> idx[j] < idx[k])
  }

  /** What a filter keeps is a subsequence of its input: the kept elements, in their input order. */
  lemma {:induction false} FilterSubsequence<A>(p: A -> bool, xs: seq<A>) returns (idx: seq<nat>)
    ensures Embeds(Filter(p, xs), xs, idx)
    decreases |xs|
  {
    if xs == [] {
      idx := [];
    } else {
      var init := xs[..|xs| - 1];
      var prev := FilterSubsequence(p, init);
      var f := Filter(p, init);
      assert forall k :: 0 <= k < |prev| ==> xs[prev[k]] == init[prev[k]];
      if p(xs[|xs| - 1]) {
        idx := prev + [|xs| - 1];
        assert Filter(p, xs) == f + [xs[|xs| - 1]];
      } else {
        idx := prev;
      }
    }
  }

  /** A subsequence takes each element at most as often as it occurs. */
  lemma {:induction false} EmbedsMultiset<A>(xs: seq<A>, ys: seq<A>, idx: seq<nat>)
    requires Embeds(xs, ys, idx)
    ensures multiset(xs) <= multiset(ys)
    decreases |xs|
  {
    if xs != [] {
      var n := |xs| - 1;
      var i := idx[n];
      var init := xs[..n];
      assert Embeds(init, ys[..i], idx[..n]) by {
        forall k | 0 <= k < n ensures idx[..n][k] < i && init[k] == ys[..i][idx[..n][k]] {
          assert idx[k] < idx[n];
        }
      }
      EmbedsMultiset(init, ys[..i], idx[..n]);
      assert xs == init + [xs[n]];
      assert ys == ys[..i] + [ys[i]] + ys[i + 1..];
      assert multiset(ys) == multiset(ys[..i]) + multiset{ys[i]} + multiset(ys[i + 1..]);
    }
  }

  // ---------------------------------------------------------------------------------------------
  // a loop over lines any of which can raise: the first exception ends it

  /** `[g(x) for x in xs]`, built front to back. */
  function MapSeq<A, B>(g: A -> B, xs: seq<A>): (r: seq<B>)
    ensures |r| == |xs| && forall i :: 0 <= i < |xs| ==> r[i] == g(xs[i])
  {
    if xs == [] then [] else MapSeq(g, xs[..|xs| - 1]) + [g(xs[|xs| - 1])]
  }

  lemma MapSeqStep<A, B>(g: A -> B, xs: seq<A>, i: nat)
    requires i < |xs|
    ensures MapSeq(g, xs[..i + 1]) == MapSeq(g, xs[..i]) + [g(xs[i])]
  {
    assert xs[..i + 1][..i] == xs[..i];
  }

  function MapAll<A, B>(f: A -> Result<B>, xs: seq<A>): Result<seq<B>>
  {
    if xs == [] then Ok([])
    else
      match MapAll(f, xs[..|xs| - 1])
      case Err(e) => Err(e)
      case Ok(r) =>
        match f(xs[|xs| - 1])
        case Err(e) => Err(e)
        case Ok(y) => Ok(r + [y])
  }

  lemma MapAllStep<A, B>(f: A -> Result<B>, xs: seq<A>, i: nat)
    requires i < |xs|
    ensures MapAll(f, xs[..i + 1]) ==
      match MapAll(f, xs[..i])
      case Err(e) => Err(e)
      case Ok(r) => (match f(xs[i]) case Err(e) => Err(e) case Ok(y) => Ok(r + [y]))
  {
    assert xs[..i + 1][..i] == xs[..i];
  }

  /** Once a prefix raises, the whole list raises the same error. */
  lemma {:induction false} MapAllErrPersists<A, B>(f: A -> Result<B>, xs: seq<A>, n: nat)
    requires n <= |xs| && MapAll(f, xs[..n]).Err?
    ensures MapAll(f, xs) == MapAll(f, xs[..n])
    decreases |xs| - n
  {
    if n == |xs| {
      assert xs[..n] == xs;
    } else {
      assert xs[..n + 1][..n] == xs[..n];
      MapAllErrPersists(f, xs, n + 1);
    }
  }

  /** When no element raises, the result has one value per element, each the element's own. */
  lemma {:induction false} MapAllOk<A, B>(f: A -> Result<B>, xs: seq<A>)
    ensures MapAll(f, xs).Ok? <==> forall k :: 0 <= k < |xs| ==> f(xs[k]).Ok?
    ensures MapAll(f, xs).Ok? ==> |MapAll(f, xs).value| == |xs|
    ensures MapAll(f, xs).Ok? ==> forall k :: 0 <= k < |xs| ==> MapAll(f, xs).value[k] == f(xs[k]).value
    decreases |xs|
  {
    if xs != [] {
      var init := xs[..|xs| - 1];
      MapAllOk(f, init);
      forall k | 0 <= k < |init| ensures init[k] == xs[k] { }
    }
  }

  /** Mapping two lists that do not raise, one after the other, is mapping their concatenation. */
  lemma {:induction false} MapAllAppend<A, B>(f: A -> Result<B>, xs: seq<A>, ys: seq<A>)
    requires MapAll(f, xs).Ok? && MapAll(f, ys).Ok?
    ensures MapAll(f, xs + ys) == Ok(MapAll(f, xs).value + MapAll(f, ys).value)
    decreases |ys|
  {
    if ys == [] {
      assert xs + ys == xs;
      assert MapAll(f, xs).value + [] == MapAll(f, xs).value;
    } else {
      var ys' := ys[..|ys| - 1];
      var y := ys[|ys| - 1];
      assert (xs + ys)[..|xs + ys| - 1] == xs + ys';
      assert (xs + ys)[|xs + ys| - 1] == y;
      MapAllAppend(f, xs, ys');
      var a, b := MapAll(f, xs).value, MapAll(f, ys').value;
      assert a + (b + [f(y).value]) == (a + b) + [f(y).value];
    }
  }

  /** The error raised is that of the first element that raises. */
  lemma {:induction false} MapAllFirstErr<A, B>(f: A -> Result<B>, xs: seq<A>)
    requires MapAll(f, xs).Err?
    ensures exists k :: 0 <= k < |xs| && f(xs[k]) == Err(MapAll(f, xs).error) && forall j :: 0 <= j < k ==> f(xs[j]).Ok?
    decreases |xs|
  {
    var init := xs[..|xs| - 1];
    if MapAll(f, init).Err? {
      MapAllFirstErr(f, init);
      var k :| 0 <= k < |init| && f(init[k]) == Err(MapAll(f, init).error) && forall j :: 0 <= j < k ==> f(init[j]).Ok?;
      assert xs[k] == init[k];
      forall j | 0 <= j < k ensures f(xs[j]).Ok? { assert xs[j] == init[j]; }
    } else {
      MapAllOk(f, init);
      forall j | 0 <= j < |xs| - 1 ensures f(xs[j]).Ok? { assert xs[j] == init[j]; }
    }
  }

  // ---------------------------------------------------------------------------------------------
  // sums

  function Sum(xs: seq<int>): int
  {
    if xs == [] then 0 else Sum(xs[..|xs| - 1]) + xs[|xs| - 1]
  }

  function SumReal(xs: seq<real>): real
  {
    if xs == [] then 0.0 else SumReal(xs[..|xs| - 1]) + xs[|xs| - 1]
  }

  lemma {:induction false} SumAppend(xs: seq<int>, ys: seq<int>)
    ensures Sum(xs + ys) == Sum(xs) + Sum(ys)
    decreases |ys|
  {
    if ys == [] {
      assert xs + ys == xs;
    } else {
      var ys' := ys[..|ys| - 1];
      assert (xs + ys)[..|xs + ys| - 1] == xs + ys';
      SumAppend(xs, ys');
    }
  }

  /** The sum of the numbers paired with the items (durations, here). */
  function SumItems<T>(items: seq<(T, int)>): int
  {
    if items == [] then 0 else SumItems(items[..|items| - 1]) + items[|items| - 1].1
  }

  lemma SumItemsStep<T>(items: seq<(T, int)>, x: (T, int))
    ensures SumItems(items + [x]) == SumItems(items) + x.1
  {
    assert (items + [x])[..|items|] == items;
  }

  lemma {:induction false} SumItemsFront<T>(x: (T, int), rest: seq<(T, int)>)
    ensures SumItems([x] + rest) == x.1 + SumItems(rest)
    decreases |rest|
  {
    if rest != [] {
      var init := rest[..|rest| - 1];
      assert ([x] + rest)[..|rest|] == [x] + init;
      SumItemsFront(x, init);
    } else {
      assert [x] + rest == [x];
      assert [x][..0] == [];
    }
  }
}
