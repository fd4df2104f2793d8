/**
  `__wavscp` of total_time.py and of process_audio/audio_total_time.py (the two are the same code):
  the total duration of a `wav.scp` whose utterance ids end in `...-start-end-tag`, with times in
  milliseconds. Durations are kept in integer milliseconds; the scripts divide each by 1000 only to
  print seconds.
*/
module TotalTime {
  import opened Wrappers
  import opened PyStr
  import opened Digits
  import opened Seqs

  /** `int(f[-2]) - int(f[-3])` over the `-`-separated fields of an id, evaluated left operand first:
      indexing past the front raises IndexError, a field `int()` rejects raises ValueError. */
  function IdDuration(id: String): (r: Result<int>)
  {
    FieldsDuration(SplitOn(id, '-'))
  }

  function FieldsDuration(f: seq<String>): (r: Result<int>)
  {
    var n := |f|;
    if n < 2 then Err(IndexError)
    else
      match ParseInt(f[n - 2])
      case None => Err(ValueError)
      case Some(end) =>
        if n < 3 then Err(IndexError)
        else
          match ParseInt(f[n - 3])
          case None => Err(ValueError)
          case Some(start) => Ok(end - start)
  }

  /** One line of the file: `assert len(text.split()) == 2`, then the duration of the id (the id is a
      token, so its `.strip()` leaves it as it is). */
  function LineDuration(line: String): Result<int>
  {
    var parts := Split(line);
    if |parts| != 2 then Err(AssertionError) else IdDuration(parts[0])
  }

  /** What the function logs: the number of lines and the total duration in milliseconds. */
  datatype Totals = Totals(count: nat, totalMs: int)

  /** The loop over the lines with `dur` reading each (`LineDuration` in the script): the count and the
      sum of the durations, or the error of the first line that raises. */
  function TotalsOf(dur: String -> Result<int>, lines: seq<String>): Result<Totals>
  {
    match MapAll(dur, lines)
    case Err(e) => Err(e)
    case Ok(ds) => Ok(Totals(|lines|, Sum(ds)))
  }

  /** `__wavscp` */
  method WavScpTotal(lines: seq<String>) returns (r: Result<Totals>)
    ensures r == TotalsOf(LineDuration, lines)
  {
    r := SumLines(LineDuration, lines);
  }

  /** The loop of `__wavscp`, accumulating `total_time` line by line. */
  method SumLines(dur: String -> Result<int>, lines: seq<String>) returns (r: Result<Totals>)
    ensures r == TotalsOf(dur, lines)
  {
    ghost var ds: seq<int> := [];
    var total := 0;
    var i := 0;
    while i < |lines|
      invariant 0 <= i <= |lines|
      invariant MapAll(dur, lines[..i]) == Ok(ds) && total == Sum(ds)
    {
      MapAllStep(dur, lines, i);
      var d := dur(lines[i]);
      if d.Err? {
        MapAllErrPersists(dur, lines, i + 1);
        return Err(d.error);
      }
      assert (ds + [d.value])[..|ds|] == ds;
      ds := ds + [d.value];
      total := total + d.value;
      i := i + 1;
    }
    assert lines[..|lines|] == lines;
    return Ok(Totals(|lines|, total));
  }

  /** An id made of dash-free fields whose second and third last are numerals encodes the second last
      minus the third last. */
  lemma IdDurationOfFields(fs: seq<String>)
    requires |fs| >= 3 && forall k :: 0 <= k < |fs| ==> '-' !in fs[k]
    requires fs[|fs| - 3] != [] && AllDigits(fs[|fs| - 3]) && fs[|fs| - 2] != [] && AllDigits(fs[|fs| - 2])
    ensures IdDuration(JoinWith(fs, '-')).Ok?
    ensures IdDuration(JoinWith(fs, '-')).value == Value(fs[|fs| - 2]) - Value(fs[|fs| - 3])
  {
    var vs := ParsedDigits(fs[|fs| - 3]);
    var ve := ParsedDigits(fs[|fs| - 2]);
    FieldsDurationOf(fs, vs, ve);
    IdOfJoin(fs);
  }

  /** Fields without a dash, joined by dashes, are split back into the same fields. */
  lemma IdOfJoin(fs: seq<String>)
    requires |fs| >= 1 && forall k :: 0 <= k < |fs| ==> '-' !in fs[k]
    ensures IdDuration(JoinWith(fs, '-')) == FieldsDuration(fs)
  {
    SplitOnJoin(fs, '-');
  }

  /** The value `int()` reads from a numeral, named so that the numeral's digits stay out of sight. */
  lemma ParsedDigits(s: String) returns (v: nat)
    requires s != [] && AllDigits(s)
    ensures ParseInt(s) == Some(v) && v == Value(s)
  {
    ParseIntOfDigits(s);
    v := Value(s);
  }

  lemma FieldsDurationOf(f: seq<String>, start: int, end: int)
    requires |f| >= 3 && ParseInt(f[|f| - 2]) == Some(end) && ParseInt(f[|f| - 3]) == Some(start)
    ensures FieldsDuration(f).Ok? && FieldsDuration(f).value == end - start
  {
  }

  /** An id with fewer than three fields raises. */
  lemma IdTooShort(id: String)
    requires |SplitOn(id, '-')| < 3
    ensures IdDuration(id).Err? && IdDuration(id).error in {IndexError, ValueError}
  {
  }

  /** Every line must be exactly two tokens: a blank line, a one-token line or a line whose path holds
      a space raises AssertionError. */
  lemma LineShape(line: String)
    ensures LineDuration(line).Err? && LineDuration(line).error == AssertionError <==> |Split(line)| != 2
  {
    var parts := Split(line);
    if |parts| == 2 {
      assert LineDuration(line) == FieldsDuration(SplitOn(parts[0], '-'));
      FieldsNeverAssert(SplitOn(parts[0], '-'));
    } else {
      assert LineDuration(line) == Err(AssertionError);
    }
  }

  lemma FieldsNeverAssert(f: seq<String>)
    ensures FieldsDuration(f).Err? ==> FieldsDuration(f).error in {IndexError, ValueError}
  {
  }

  /** A manifest line `id path` with its newline reads the duration of its id. */
  lemma LineOfEntry(id: String, path: String)
    requires id != [] && NoSpace(id) && path != [] && NoSpace(path)
    ensures LineDuration(id + " " + path + "\n") == IdDuration(id)
  {
    SplitTwoWordsLine(id, path, "\n");
  }

  /** A file without bad lines reports one entry per line and the sum of the lines' durations. */
  lemma TotalsMeaning(lines: seq<String>)
    ensures TotalsOf(LineDuration, lines).Ok? <==> forall k :: 0 <= k < |lines| ==> LineDuration(lines[k]).Ok?
    ensures TotalsOf(LineDuration, lines).Ok? ==> TotalsOf(LineDuration, lines).value.count == |lines|
    ensures TotalsOf(LineDuration, lines).Ok? ==>
      TotalsOf(LineDuration, lines).value.totalMs == Sum(seq(|lines|, k requires 0 <= k < |lines| => LineDuration(lines[k]).value))
  {
    MapAllOk(LineDuration, lines);
    if MapAll(LineDuration, lines).Ok? {
      var ds := MapAll(LineDuration, lines).value;
      assert ds == seq(|lines|, k requires 0 <= k < |lines| => LineDuration(lines[k]).value);
    }
  }

  /** A file with a bad line reports the error of the first bad line. */
  lemma TotalsFirstError(lines: seq<String>)
    requires TotalsOf(LineDuration, lines).Err?
    ensures exists k :: 0 <= k < |lines| && LineDuration(lines[k]) == Err(TotalsOf(LineDuration, lines).error)
                      && forall j :: 0 <= j < k ==> LineDuration(lines[j]).Ok?
  {
    MapAllFirstErr(LineDuration, lines);
  }

  /** The total over two files read one after the other is the sum of their totals. */
  lemma TotalsAppend(xs: seq<String>, ys: seq<String>)
    requires TotalsOf(LineDuration, xs).Ok? && TotalsOf(LineDuration, ys).Ok?
    ensures TotalsOf(LineDuration, xs + ys) == Ok(Totals(|xs| + |ys|, TotalsOf(LineDuration, xs).value.totalMs + TotalsOf(LineDuration, ys).value.totalMs))
  {
    TotalsOfAppend(LineDuration, xs, ys);
  }

  lemma TotalsOfAppend(dur: String -> Result<int>, xs: seq<String>, ys: seq<String>)
    requires TotalsOf(dur, xs).Ok? && TotalsOf(dur, ys).Ok?
    ensures TotalsOf(dur, xs + ys) == Ok(Totals(|xs| + |ys|, TotalsOf(dur, xs).value.totalMs + TotalsOf(dur, ys).value.totalMs))
  {
    var dx, dy := MapAll(dur, xs).value, MapAll(dur, ys).value;
    MapAllAppend(dur, xs, ys);
    SumAppend(dx, dy);
  }
}
