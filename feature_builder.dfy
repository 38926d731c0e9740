/** Feature engineering (`feature_builder.py`): lap times become seconds,
    missing values are filled in a fixed order, and the rows are split into
    a training set and a 2026 prediction set. */
module FeatureBuilder {
  import opened Wrappers
  import opened PyText

  /** One cell of the data frame: missing (`None`/`NaN`), a number, or text
      as the database returned it. */
  datatype Cell = NA | Num(x: real) | Text(s: string)

  // ---------------------------------------------------------------------
  // Lap times
  // ---------------------------------------------------------------------

  /** `time_to_seconds`: a missing cell gives `None`; text with a colon is
      split on it, which must give exactly two parts, `int(m) * 60 +
      float(s)`; anything else is `float(t)`. Every exception is caught and
      gives `None`. */
  function TimeToSeconds(c: Cell): (r: Option<real>)
    ensures c.NA? ==> r.None?
    ensures c.Num? ==> r == Some(c.x)
  {
    match c
    case NA => None
    case Num(x) => Some(x)
    case Text(s) =>
      var colon := IndexOf(s, ':');
      if colon == |s| then ParseDecimal(s)
      else ColonTime(s[..colon], s[colon + 1..])
  }

  /** The parts before and after the first colon of a lap time: a second
      colon leaves more than two parts and the time is missing; otherwise
      whole minutes and decimal seconds, missing when either fails to
      parse. */
  function ColonTime(minutes: string, seconds: string): (r: Option<real>)
    ensures ':' in seconds ==> r.None?
    ensures ParseInt(minutes).None? || ParseDecimal(seconds).None? ==> r.None?
  {
    if ':' in seconds then None
    else
      match (ParseInt(minutes), ParseDecimal(seconds))
      case (Some(m), Some(sec)) => Some(m as real * 60.0 + sec)
      case _ => None
  }

  /** A lap time written `m:ss.fff`, each part a string of decimal digits
      (the fraction possibly empty), is read as `m` minutes plus the seconds
      it shows. */
  lemma LapTimeRead(m: string, w: string, f: string, minutes: nat, secs: real)
    requires IsDigitString(m) && IsDigitString(w) && AllDigits(f)
    requires minutes == DigitsValue(m) && secs == DecimalValue(w, f)
    ensures TimeToSeconds(Text(m + ":" + (w + "." + f))) == Some(minutes as real * 60.0 + secs)
  {
    assert ':' !in m by { assert forall j :: 0 <= j < |m| ==> IsDigit(m[j]); }
    ColonText(m, w + "." + f);
    LapParts(m, w, f, minutes, secs);
  }

  /** The parts of such a lap time read as its minutes and its seconds. */
  lemma LapParts(m: string, w: string, f: string, minutes: nat, secs: real)
    requires IsDigitString(m) && IsDigitString(w) && AllDigits(f)
    requires minutes == DigitsValue(m) && secs == DecimalValue(w, f)
    ensures ColonTime(m, w + "." + f) == Some(minutes as real * 60.0 + secs)
  {
    var b := w + "." + f;
    assert ParseInt(m) == Some(minutes) by { DigitsParse(m); }
    assert ParseDecimal(b) == Some(secs) by { ParseDecimalParts(w, f); }
    assert ':' !in b by { DecimalNoColon(w, f); }
    MinutesAndSeconds(m, b, minutes, secs);
  }

  /** Parts that read as an integer and a decimal, the second without a
      colon, are that many minutes plus those seconds. */
  lemma MinutesAndSeconds(a: string, b: string, minutes: int, secs: real)
    requires ':' !in b && ParseInt(a) == Some(minutes) && ParseDecimal(b) == Some(secs)
    ensures ColonTime(a, b) == Some(minutes as real * 60.0 + secs)
  {
  }

  /** `int(s)` of a digit string is its decimal value. */
  lemma DigitsParse(s: string)
    requires IsDigitString(s)
    ensures ParseInt(s) == Some(DigitsValue(s) as int)
  {
    assert IsDigit(s[0]);
  }

  /** Digits, a dot and digits contain no colon. */
  lemma DecimalNoColon(w: string, f: string)
    requires AllDigits(w) && AllDigits(f)
    ensures ':' !in w + "." + f
  {
    var s := w + "." + f;
    forall j | 0 <= j < |s| ensures s[j] != ':' {
      if j < |w| {
        assert s[j] == w[j] && IsDigit(w[j]);
      } else if j > |w| {
        assert s[j] == f[j - |w| - 1] && IsDigit(f[j - |w| - 1]);
      }
    }
  }

  /** Text with exactly one colon is read as whole minutes and decimal
      seconds, and as missing when either part does not parse. */
  lemma OneColon(a: string, b: string)
    requires ':' !in a && ':' !in b
    ensures TimeToSeconds(Text(a + ":" + b)) ==
      match (ParseInt(a), ParseDecimal(b))
      case (Some(m), Some(sec)) => Some(m as real * 60.0 + sec)
      case _ => None
  {
    ColonText(a, b);
  }

  /** Text with a colon is read from the parts around its first colon. */
  lemma ColonText(a: string, b: string)
    requires ':' !in a
    ensures TimeToSeconds(Text(a + ":" + b)) == ColonTime(a, b)
  {
    ColonSplit(a, b);
    var s := a + ":" + b;
    assert IndexOf(s, ':') == |a| < |s|;
  }

  /** Text with a colon splits at the first colon. */
  lemma ColonSplit(a: string, b: string)
    requires ':' !in a
    ensures var s := a + ":" + b;
      IndexOf(s, ':') == |a| && s[..|a|] == a && s[|a| + 1..] == b
  {
    var s := a + ":" + b;
    assert s[|a|] == ':';
    assert forall j :: 0 <= j < |a| ==> s[j] == a[j];
    assert s[..|a|] == a;
    assert s[|a| + 1..] == b;
  }

  /** A time with two colons does not unpack into two parts, so it reads as
      missing. */
  lemma TooManyColons(a: string, b: string, c: string)
    requires ':' !in a
    ensures TimeToSeconds(Text(a + ":" + b + ":" + c)) == None
  {
    var rest := b + ":" + c;
    assert ':' in rest by { assert rest[|b|] == ':'; }
    assert a + ":" + b + ":" + c == a + ":" + rest;
    ColonText(a, rest);
  }

  /** A colon whose minutes part is not an integer reads as missing. */
  lemma BadMinutes(a: string, b: string)
    requires ':' !in a && ParseInt(a).None?
    ensures TimeToSeconds(Text(a + ":" + b)) == None
  {
    ColonText(a, b);
  }

  /** Text without a colon is read as a plain decimal number. */
  lemma NoColon(s: string)
    requires ':' !in s
    ensures TimeToSeconds(Text(s)) == ParseDecimal(s)
  {
    assert IndexOf(s, ':') == |s|;
  }

  /** `df[col].apply(time_to_seconds)`: a `None` result is stored as a
      missing cell. */
  function ApplyTime(col: seq<Cell>): (r: seq<Cell>)
    ensures |r| == |col|
    ensures forall i :: 0 <= i < |col| ==> !r[i].Text?
    ensures forall i :: 0 <= i < |col| ==> (r[i].NA? <==> TimeToSeconds(col[i]).None?)
    ensures forall i :: 0 <= i < |col| && r[i].Num? ==> TimeToSeconds(col[i]) == Some(r[i].x)
  {
    seq(|col|, i requires 0 <= i < |col| =>
      match TimeToSeconds(col[i])
      case None => NA
      case Some(x) => Num(x))
  }

  // ---------------------------------------------------------------------
  // Filling missing values
  // ---------------------------------------------------------------------

  /** `col.fillna(v)` with a constant. */
  function FillValue(col: seq<Cell>, v: real): (r: seq<Cell>)
    ensures |r| == |col|
  {
    seq(|col|, i requires 0 <= i < |col| => if col[i].NA? then Num(v) else col[i])
  }

  /** `col.fillna(other)` with a column of the same frame: row by row. */
  function FillFrom(col: seq<Cell>, other: seq<Cell>): (r: seq<Cell>)
    requires |col| == |other|
    ensures |r| == |col|
  {
    seq(|col|, i requires 0 <= i < |col| => if col[i].NA? then other[i] else col[i])
  }

  predicate SortedReals(s: seq<real>)
  {
    forall i, j :: 0 <= i < j < |s| ==> s[i] <= s[j]
  }

  /** The observed numbers of a column, in row order. */
  function Observed(col: seq<Cell>): (v: seq<real>)
    ensures |v| <= |col|
    decreases |col|
  {
    if col == [] then []
    else
      match col[|col| - 1]
      case Num(x) => Observed(col[..|col| - 1]) + [x]
      case _ => Observed(col[..|col| - 1])
  }

  /** The observed numbers are exactly the numbers of the column. */
  lemma {:induction false} ObservedMembers(col: seq<Cell>, x: real)
    ensures x in Observed(col) <==> exists i :: 0 <= i < |col| && col[i] == Num(x)
    decreases |col|
  {
    if col != [] {
      var init := col[..|col| - 1];
      ObservedMembers(init, x);
      assert forall i :: 0 <= i < |init| ==> init[i] == col[i];
      if x in Observed(col) && x !in Observed(init) {
        assert col[|col| - 1] == Num(x);
      }
    }
  }

  /** `x` inserted before the first element not below it. */
  function InsertSorted(x: real, s: seq<real>): (r: seq<real>)
    ensures |r| == |s| + 1
    decreases |s|
  {
    if s == [] || x <= s[0] then [x] + s
    else [s[0]] + InsertSorted(x, s[1..])
  }

  /** Inserting into an ascending sequence keeps it ascending and adds
      exactly `x`. */
  lemma InsertSortedSpec(x: real, s: seq<real>)
    requires SortedReals(s)
    ensures SortedReals(InsertSorted(x, s))
    ensures multiset(InsertSorted(x, s)) == multiset(s) + multiset{x}
  {
    InsertSortedSorted(x, s);
    InsertSortedPerm(x, s);
  }

  /** Insertion adds exactly `x` to the multiset of elements. */
  lemma {:induction false} InsertSortedPerm(x: real, s: seq<real>)
    ensures multiset(InsertSorted(x, s)) == multiset(s) + multiset{x}
    decreases |s|
  {
    if s != [] && x > s[0] {
      InsertSortedPerm(x, s[1..]);
      assert s == [s[0]] + s[1..];
    }
  }

  /** Insertion keeps an ascending sequence ascending; its first element is
      the smaller of `x` and the old first element. */
  lemma {:induction false} InsertSortedSorted(x: real, s: seq<real>)
    requires SortedReals(s)
    ensures SortedReals(InsertSorted(x, s))
    ensures InsertSorted(x, s)[0] == if s == [] || x <= s[0] then x else s[0]
    decreases |s|
  {
    if s == [] || x <= s[0] {
      var r := [x] + s;
      assert InsertSorted(x, s) == r;
      forall i, j | 0 <= i < j < |r| ensures r[i] <= r[j] {
        if i > 0 {
          assert r[i] == s[i - 1] && r[j] == s[j - 1];
        } else {
          assert s[0] <= s[j - 1];
        }
      }
    } else {
      var t := s[1..];
      assert SortedReals(t) by {
        forall i, j | 0 <= i < j < |t| ensures t[i] <= t[j] {
          assert t[i] == s[i + 1] && t[j] == s[j + 1];
        }
      }
      InsertSortedSorted(x, t);
      var rest := InsertSorted(x, t);
      var r := [s[0]] + rest;
      assert InsertSorted(x, s) == r;
      assert s[0] <= rest[0] by {
        if t != [] { assert s[0] <= s[1]; }
      }
      forall i, j | 0 <= i < j < |r| ensures r[i] <= r[j] {
        if i == 0 {
          assert rest[0] <= rest[j - 1];
        } else {
          assert r[i] == rest[i - 1] && r[j] == rest[j - 1];
        }
      }
    }
  }

  /** The numbers in ascending order, by insertion. */
  function SortReals(s: seq<real>): (r: seq<real>)
    ensures |r| == |s|
    decreases |s|
  {
    if s == [] then []
    else InsertSorted(s[|s| - 1], SortReals(s[..|s| - 1]))
  }

  /** Sorting gives an ascending permutation of its input. */
  lemma {:induction false} SortRealsSpec(s: seq<real>)
    ensures SortedReals(SortReals(s))
    ensures multiset(SortReals(s)) == multiset(s)
    decreases |s|
  {
    if s != [] {
      SortRealsSpec(s[..|s| - 1]);
      InsertSortedSpec(s[|s| - 1], SortReals(s[..|s| - 1]));
      assert s == s[..|s| - 1] + [s[|s| - 1]];
    }
  }

  /** `col.median()`: missing cells are skipped; with no observed number
      there is no median (`NaN`, which fills nothing). */
  function Median(col: seq<Cell>): Option<real>
  {
    var v := SortReals(Observed(col));
    if |v| == 0 then None
    else if |v| % 2 == 1 then Some(v[|v| / 2])
    else Some((v[|v| / 2 - 1] + v[|v| / 2]) / 2.0)
  }

  /** A column has a median exactly when it has an observed number, and the
      median lies between two of its observed numbers. */
  lemma MedianBetween(col: seq<Cell>)
    ensures Median(col).Some? <==> exists i :: 0 <= i < |col| && col[i].Num?
    ensures Median(col).Some? ==> exists i, j :: (0 <= i < |col| && 0 <= j < |col| &&
      col[i].Num? && col[j].Num? && col[i].x <= Median(col).value <= col[j].x)
  {
    MedianDefined(col);
    var v := SortReals(Observed(col));
    if |v| > 0 {
      var lo, hi := if |v| % 2 == 1 then |v| / 2 else |v| / 2 - 1, |v| / 2;
      assert v[lo] <= Median(col).value <= v[hi] by { SortRealsSpec(Observed(col)); }
      var i := ObservedIndex(col, v[lo]);
      var j := ObservedIndex(col, v[hi]);
    }
  }

  /** A column has a median exactly when it has an observed number. */
  lemma MedianDefined(col: seq<Cell>)
    ensures Median(col).Some? <==> exists i :: 0 <= i < |col| && col[i].Num?
  {
    var v := SortReals(Observed(col));
    if |v| > 0 {
      var i := ObservedIndex(col, v[0]);
    }
    if exists i :: 0 <= i < |col| && col[i].Num? {
      var i :| 0 <= i < |col| && col[i].Num?;
      ObservedMembers(col, col[i].x);
    }
  }

  /** Every value of the sorted observations comes from some cell. */
  lemma ObservedIndex(col: seq<Cell>, y: real) returns (i: nat)
    requires y in SortReals(Observed(col))
    ensures i < |col| && col[i] == Num(y)
  {
    SortRealsSpec(Observed(col));
    SameMembers(SortReals(Observed(col)), Observed(col), y);
    ObservedMembers(col, y);
    i :| 0 <= i < |col| && col[i] == Num(y);
  }

  /** Sequences with the same multiset have the same members. */
  lemma SameMembers(a: seq<real>, b: seq<real>, y: real)
    requires multiset(a) == multiset(b)
    ensures y in a <==> y in b
  {
    assert y in a <==> y in multiset(a);
    assert y in b <==> y in multiset(b);
  }

  /** `col.fillna(col.median())`. */
  function FillMedian(col: seq<Cell>): (r: seq<Cell>)
    ensures |r| == |col|
  {
    match Median(col)
    case None => col
    case Some(m) => FillValue(col, m)
  }

  /** After the median fill a column of numbers and missing cells has no
      missing cell left exactly when it had an observed number (or no rows),
      and the observed numbers are kept. */
  lemma FillMedianComplete(col: seq<Cell>)
    requires forall i :: 0 <= i < |col| ==> !col[i].Text?
    ensures (forall i :: 0 <= i < |col| ==> !FillMedian(col)[i].NA?)
        <==> (|col| == 0 || exists i :: 0 <= i < |col| && col[i].Num?)
    ensures forall i :: 0 <= i < |col| && !col[i].NA? ==> FillMedian(col)[i] == col[i]
  {
    MedianBetween(col);
    if Median(col).None? {
      if |col| > 0 {
        assert !col[0].Num? && FillMedian(col)[0].NA?;
      }
    } else {
      forall i | 0 <= i < |col| ensures !FillMedian(col)[i].NA? {
        assert FillMedian(col)[i] == FillValue(col, Median(col).value)[i];
      }
    }
  }

  /** The grid and sprint columns after their fills: no missing grid slot
      or sprint finish is left; a missing sprint grid takes the grid slot as
      already filled, so it is 20 when both were missing; observed values
      stay. */
  lemma GridAndSprintFills(grid: seq<Cell>, sprintGrid: seq<Cell>, sprintFinish: seq<Cell>, i: nat)
    requires |grid| == |sprintGrid| == |sprintFinish| && i < |grid|
    ensures var g := FillValue(grid, 20.0);
      !g[i].NA? && !FillValue(sprintFinish, 20.0)[i].NA? && !FillFrom(sprintGrid, g)[i].NA? &&
      (grid[i].NA? ==> g[i] == Num(20.0)) && (!grid[i].NA? ==> g[i] == grid[i]) &&
      (sprintFinish[i].NA? ==> FillValue(sprintFinish, 20.0)[i] == Num(20.0)) &&
      (sprintGrid[i].NA? && grid[i].NA? ==> FillFrom(sprintGrid, g)[i] == Num(20.0)) &&
      (sprintGrid[i].NA? && !grid[i].NA? ==> FillFrom(sprintGrid, g)[i] == grid[i]) &&
      (!sprintGrid[i].NA? ==> FillFrom(sprintGrid, g)[i] == sprintGrid[i])
  {
  }

  /** The practice cascade before the medians: fp3 is filled from the
      ORIGINAL fp2, so a row missing both fp2 and fp3 still misses fp3
      afterwards, even when it has fp1; fp2 is then filled from fp1. */
  lemma PracticeCascade(fp1: seq<Cell>, fp2: seq<Cell>, fp3: seq<Cell>, i: nat)
    requires |fp1| == |fp2| == |fp3| && i < |fp1|
    ensures fp3[i].NA? && fp2[i].NA? ==> FillFrom(fp3, fp2)[i].NA?
    ensures fp3[i].NA? && !fp2[i].NA? ==> FillFrom(fp3, fp2)[i] == fp2[i]
    ensures fp2[i].NA? ==> FillFrom(fp2, fp1)[i] == fp1[i]
    ensures !fp3[i].NA? ==> FillFrom(fp3, fp2)[i] == fp3[i]
  {
  }

  /** After the time conversion and the fill cascade, each practice column
      has no missing cell exactly when the column its median is taken of is
      empty or holds a number: fp1 as converted, fp2 after taking fp1, fp3
      after taking the converted fp2. */
  lemma PracticeComplete(fp1: seq<Cell>, fp2: seq<Cell>, fp3: seq<Cell>)
    requires |fp2| == |fp1| && |fp3| == |fp1|
    ensures var t1 := ApplyTime(fp1);
      (forall i :: 0 <= i < |fp1| ==> !FillMedian(t1)[i].NA?) <==>
      (|fp1| == 0 || exists i :: 0 <= i < |fp1| && t1[i].Num?)
    ensures var c2 := FillFrom(ApplyTime(fp2), ApplyTime(fp1));
      (forall i :: 0 <= i < |fp1| ==> !FillMedian(c2)[i].NA?) <==>
      (|fp1| == 0 || exists i :: 0 <= i < |fp1| && c2[i].Num?)
    ensures var c3 := FillFrom(ApplyTime(fp3), ApplyTime(fp2));
      (forall i :: 0 <= i < |fp1| ==> !FillMedian(c3)[i].NA?) <==>
      (|fp1| == 0 || exists i :: 0 <= i < |fp1| && c3[i].Num?)
  {
    var t1, t2, t3 := ApplyTime(fp1), ApplyTime(fp2), ApplyTime(fp3);
    FillMedianComplete(t1);
    FillFromNoText(t2, t1);
    FillMedianComplete(FillFrom(t2, t1));
    FillFromNoText(t3, t2);
    FillMedianComplete(FillFrom(t3, t2));
  }

  /** Filling a column without text from another without text leaves no
      text. */
  lemma FillFromNoText(col: seq<Cell>, other: seq<Cell>)
    requires |col| == |other|
    requires forall i :: 0 <= i < |col| ==> !col[i].Text? && !other[i].Text?
    ensures forall i :: 0 <= i < |col| ==> !FillFrom(col, other)[i].Text?
  {
  }

  // ---------------------------------------------------------------------
  // The data frame
  // ---------------------------------------------------------------------

  /** The feature columns the cleaning steps read and write, by their
      names in the query: `grid_position`, `q1`, `q2`, `q3`, `fp1_time`,
      `fp2_time`, `fp3_time`, `sprint_grid`, `sprint_finish`. */
  datatype Column = Grid | Q1 | Q2 | Q3 | Fp1 | Fp2 | Fp3 | SprintGrid | SprintFinish

  /** `TIME_COLS`, in its order. */
  const TIME_COLS: seq<Column> := [Q1, Q2, Q3, Fp1, Fp2, Fp3]

  /** The practice columns of the median loop, in its order. */
  const PRACTICE_COLS: seq<Column> := [Fp1, Fp2, Fp3]

  /** The joined query result as a data frame: one entry per row in
      `season`, `round` and `racePosition`, and one column per feature. */
  class Frame {
    var season: seq<int>
    var round: seq<int>
    var racePosition: seq<Option<int>>
    var cols: map<Column, seq<Cell>>

    ghost predicate Valid()
      reads this
    {
      |round| == |season| && |racePosition| == |season| &&
      forall c: Column :: c in cols && |cols[c]| == |season|
    }

    /** `pd.read_sql(QUERY, conn)`, given the rows the query returned. */
    constructor Load(season: seq<int>, round: seq<int>, racePosition: seq<Option<int>>, cols: map<Column, seq<Cell>>)
      requires |round| == |season| && |racePosition| == |season|
      requires forall c: Column :: c in cols && |cols[c]| == |season|
      ensures Valid()
      ensures this.season == season && this.round == round && this.racePosition == racePosition && this.cols == cols
    {
      this.season := season;
      this.round := round;
      this.racePosition := racePosition;
      this.cols := cols;
    }

    /** `for col in TIME_COLS: df[col] = df[col].apply(time_to_seconds)`. */
    method ConvertTimes()
      requires Valid()
      modifies this
      ensures Valid()
      ensures season == old(season) && round == old(round) && racePosition == old(racePosition)
      ensures forall c :: c in TIME_COLS ==> cols[c] == ApplyTime(old(cols)[c])
      ensures cols[Grid] == old(cols)[Grid] && cols[SprintGrid] == old(cols)[SprintGrid]
      ensures cols[SprintFinish] == old(cols)[SprintFinish]
    {
      for k := 0 to |TIME_COLS|
        invariant Valid()
        invariant season == old(season) && round == old(round) && racePosition == old(racePosition)
        invariant forall c :: c in TIME_COLS[..k] ==> cols[c] == ApplyTime(old(cols)[c])
        invariant forall c :: c !in TIME_COLS[..k] ==> cols[c] == old(cols)[c]
      {
        var c := TIME_COLS[k];
        assert c !in TIME_COLS[..k];
        cols := cols[c := ApplyTime(cols[c])];
        assert TIME_COLS[..k + 1] == TIME_COLS[..k] + [c];
      }
      assert TIME_COLS[..|TIME_COLS|] == TIME_COLS;
    }

    /** The time conversion, then the missing-data block: the practice
        columns end as the median fill of the converted cascade. */
    method Clean()
      requires Valid()
      modifies this
      ensures Valid()
      ensures season == old(season) && round == old(round) && racePosition == old(racePosition)
      ensures cols[Fp1] == FillMedian(ApplyTime(old(cols)[Fp1]))
      ensures cols[Fp2] == FillMedian(FillFrom(ApplyTime(old(cols)[Fp2]), ApplyTime(old(cols)[Fp1])))
      ensures cols[Fp3] == FillMedian(FillFrom(ApplyTime(old(cols)[Fp3]), ApplyTime(old(cols)[Fp2])))
      ensures cols[Grid] == FillValue(old(cols)[Grid], 20.0)
      ensures cols[SprintGrid] == FillFrom(old(cols)[SprintGrid], FillValue(old(cols)[Grid], 20.0))
      ensures cols[SprintFinish] == FillValue(old(cols)[SprintFinish], 20.0)
      ensures cols[Q1] == ApplyTime(old(cols)[Q1]) && cols[Q2] == ApplyTime(old(cols)[Q2]) && cols[Q3] == ApplyTime(old(cols)[Q3])
    {
      ConvertTimes();
      assert Fp1 in TIME_COLS && Fp2 in TIME_COLS && Fp3 in TIME_COLS;
      FillMissing();
    }

    /** The missing-data block: the constant and cross-column fills in
        their fixed order, then a median fill of each practice column. */
    method FillMissing()
      requires Valid()
      modifies this
      ensures Valid()
      ensures season == old(season) && round == old(round) && racePosition == old(racePosition)
      ensures cols[Grid] == FillValue(old(cols)[Grid], 20.0)
      ensures cols[SprintGrid] == FillFrom(old(cols)[SprintGrid], FillValue(old(cols)[Grid], 20.0))
      ensures cols[SprintFinish] == FillValue(old(cols)[SprintFinish], 20.0)
      ensures cols[Fp1] == FillMedian(old(cols)[Fp1])
      ensures cols[Fp2] == FillMedian(FillFrom(old(cols)[Fp2], old(cols)[Fp1]))
      ensures cols[Fp3] == FillMedian(FillFrom(old(cols)[Fp3], old(cols)[Fp2]))
      ensures cols[Q1] == old(cols)[Q1] && cols[Q2] == old(cols)[Q2] && cols[Q3] == old(cols)[Q3]
    {
      FillFixed();
      FillMedians();
    }

    /** The grid, sprint and practice fills that take a constant or another
        column; fp3 takes fp2 before fp2 takes fp1. */
    method FillFixed()
      requires Valid()
      modifies this
      ensures Valid()
      ensures season == old(season) && round == old(round) && racePosition == old(racePosition)
      ensures cols == old(cols)[Grid := FillValue(old(cols)[Grid], 20.0)]
                              [SprintGrid := FillFrom(old(cols)[SprintGrid], FillValue(old(cols)[Grid], 20.0))]
                              [SprintFinish := FillValue(old(cols)[SprintFinish], 20.0)]
                              [Fp3 := FillFrom(old(cols)[Fp3], old(cols)[Fp2])]
                              [Fp2 := FillFrom(old(cols)[Fp2], old(cols)[Fp1])]
    {
      cols := cols[Grid := FillValue(cols[Grid], 20.0)];
      cols := cols[SprintGrid := FillFrom(cols[SprintGrid], cols[Grid])];
      cols := cols[SprintFinish := FillValue(cols[SprintFinish], 20.0)];
      cols := cols[Fp3 := FillFrom(cols[Fp3], cols[Fp2])];
      cols := cols[Fp2 := FillFrom(cols[Fp2], cols[Fp1])];
    }

    /** `for col in ["fp1_time", "fp2_time", "fp3_time"]:
        df[col] = df[col].fillna(df[col].median())`. */
    method FillMedians()
      requires Valid()
      modifies this
      ensures Valid()
      ensures season == old(season) && round == old(round) && racePosition == old(racePosition)
      ensures cols[Fp1] == FillMedian(old(cols)[Fp1])
      ensures cols[Fp2] == FillMedian(old(cols)[Fp2])
      ensures cols[Fp3] == FillMedian(old(cols)[Fp3])
      ensures forall c :: c !in PRACTICE_COLS ==> cols[c] == old(cols)[c]
    {
      for k := 0 to |PRACTICE_COLS|
        invariant Valid()
        invariant season == old(season) && round == old(round) && racePosition == old(racePosition)
        invariant forall j :: 0 <= j < k ==> cols[PRACTICE_COLS[j]] == FillMedian(old(cols)[PRACTICE_COLS[j]])
        invariant forall j :: k <= j < |PRACTICE_COLS| ==> cols[PRACTICE_COLS[j]] == old(cols)[PRACTICE_COLS[j]]
        invariant forall c :: c !in PRACTICE_COLS ==> cols[c] == old(cols)[c]
      {
        var c := PRACTICE_COLS[k];
        assert forall j :: 0 <= j < |PRACTICE_COLS| && j != k ==> PRACTICE_COLS[j] != c;
        cols := cols[c := FillMedian(cols[c])];
      }
      assert PRACTICE_COLS[0] == Fp1 && PRACTICE_COLS[1] == Fp2 && PRACTICE_COLS[2] == Fp3;
    }
  }

  // ---------------------------------------------------------------------
  // Training and prediction rows
  // ---------------------------------------------------------------------

  /** `(df["season"] <= 2025) & (df["race_position"].notna())`. */
  predicate InTrain(season: int, racePosition: Option<int>)
  {
    season <= 2025 && racePosition.Some?
  }

  /** `(df["season"] == 2026) & (df["race_position"].isna())`. */
  predicate InPredict(season: int, racePosition: Option<int>)
  {
    season == 2026 && racePosition.None?
  }

  /** The training mask or the prediction mask. */
  predicate InMask(train: bool, season: int, racePosition: Option<int>)
  {
    if train then InTrain(season, racePosition) else InPredict(season, racePosition)
  }

  /** The row indices a boolean mask keeps, in row order. */
  function Select(season: seq<int>, racePosition: seq<Option<int>>, train: bool): (rows: seq<nat>)
    requires |racePosition| == |season|
    ensures forall k :: 0 <= k < |rows| ==> rows[k] < |season|
    ensures forall k :: 0 <= k < |rows| ==> InMask(train, season[rows[k]], racePosition[rows[k]])
    ensures forall i :: 0 <= i < |season| && InMask(train, season[i], racePosition[i]) ==> i in rows
    ensures forall k, l :: 0 <= k < l < |rows| ==> rows[k] < rows[l]
    decreases |season|
  {
    if season == [] then []
    else
      var n := |season| - 1;
      var init := Select(season[..n], racePosition[..n], train);
      assert forall i :: 0 <= i < n ==> season[..n][i] == season[i] && racePosition[..n][i] == racePosition[i];
      if InMask(train, season[n], racePosition[n]) then init + [n] else init
  }

  /** No row is both a training row and a prediction row. */
  lemma TrainPredictDisjoint(season: seq<int>, racePosition: seq<Option<int>>)
    requires |racePosition| == |season|
    ensures forall k, l :: 0 <= k < |Select(season, racePosition, true)| && 0 <= l < |Select(season, racePosition, false)| ==>
      Select(season, racePosition, true)[k] != Select(season, racePosition, false)[l]
  {
  }
}
