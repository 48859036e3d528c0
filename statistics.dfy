/**
 * The arithmetic of main.py:83-103: Python's `sum`, `min` and `max` over a
 * list of readings, and the nine statistics computed for one calendar day.
 * Readings are reals; floating-point rounding is not modelled.
 */
module Statistics {

  /** The nine statistics of one calendar day (the dictionary of main.py:99-103). */
  datatype DayStats = DayStats(
    avgTemp: real, minTemp: real, maxTemp: real,
    avgWind: real, minWind: real, maxWind: real,
    sumPrecip: real, minPrecip: real, maxPrecip: real)

  /** Python's `sum`: 0 plus each item, left to right. */
  function Sum(s: seq<real>): real {
    if s == [] then 0.0 else Sum(s[..|s| - 1]) + s[|s| - 1]
  }

  /** Python's `min`: keeps the running minimum, replacing it only by a strictly smaller item. */
  function Min(s: seq<real>): real
    requires |s| > 0
  {
    if |s| == 1 then s[0]
    else
      var m := Min(s[..|s| - 1]);
      if s[|s| - 1] < m then s[|s| - 1] else m
  }

  /** Python's `max`: keeps the running maximum, replacing it only by a strictly larger item. */
  function Max(s: seq<real>): real
    requires |s| > 0
  {
    if |s| == 1 then s[0]
    else
      var m := Max(s[..|s| - 1]);
      if s[|s| - 1] > m then s[|s| - 1] else m
  }

  /** `sum(s) / len(s)`. */
  function Mean(s: seq<real>): real
    requires |s| > 0
  {
    Sum(s) / (|s| as real)
  }

  /**
   * The statistics of main.py:84-96 for the temperatures, wind speeds and
   * precipitation amounts collected for one calendar day: mean, minimum and
   * maximum of the first two, and the SUM (not the mean), minimum and maximum
   * of precipitation.
   */
  function Summarize(temps: seq<real>, winds: seq<real>, precips: seq<real>): DayStats
    requires |temps| > 0 && |winds| > 0 && |precips| > 0
  {
    DayStats(
      Mean(temps), Min(temps), Max(temps),
      Mean(winds), Min(winds), Max(winds),
      Sum(precips), Min(precips), Max(precips))
  }

  // ---------------------------------------------------------------------------
  // Lemmas

  /** `min` returns one of the readings, and none is smaller. */
  lemma {:induction false} MinIsLeast(s: seq<real>)
    requires |s| > 0
    ensures Min(s) in s
    ensures forall k :: 0 <= k < |s| ==> Min(s) <= s[k]
  {
    if |s| > 1 {
      MinIsLeast(s[..|s| - 1]);
    }
  }

  /** `max` returns one of the readings, and none is larger. */
  lemma {:induction false} MaxIsGreatest(s: seq<real>)
    requires |s| > 0
    ensures Max(s) in s
    ensures forall k :: 0 <= k < |s| ==> s[k] <= Max(s)
  {
    if |s| > 1 {
      MaxIsGreatest(s[..|s| - 1]);
    }
  }

  /** The mean lies between the smallest and the largest reading. */
  lemma MeanWithinBounds(s: seq<real>)
    requires |s| > 0
    ensures Min(s) <= Mean(s) <= Max(s)
  {
    MinIsLeast(s);
    MaxIsGreatest(s);
    SumWithinBounds(s, Min(s), Max(s));
    QuotientWithinBounds(Sum(s), |s| as real, Min(s), Max(s));
  }

  /**
   * What the nine statistics promise: each minimum and maximum is one of the
   * readings and bounds all of them, and each mean lies between them.
   */
  lemma SummarizeBounds(temps: seq<real>, winds: seq<real>, precips: seq<real>)
    requires |temps| > 0 && |winds| > 0 && |precips| > 0
    ensures var r := Summarize(temps, winds, precips);
      && r.minTemp <= r.avgTemp <= r.maxTemp
      && r.minWind <= r.avgWind <= r.maxWind
      && r.minTemp in temps && r.maxTemp in temps
      && r.minWind in winds && r.maxWind in winds
      && r.minPrecip in precips && r.maxPrecip in precips
      && (forall k :: 0 <= k < |temps| ==> r.minTemp <= temps[k] <= r.maxTemp)
      && (forall k :: 0 <= k < |winds| ==> r.minWind <= winds[k] <= r.maxWind)
      && (forall k :: 0 <= k < |precips| ==> r.minPrecip <= precips[k] <= r.maxPrecip)
  {
    MeanWithinBounds(temps);
    MeanWithinBounds(winds);
    MinIsLeast(temps);
    MaxIsGreatest(temps);
    MinIsLeast(winds);
    MaxIsGreatest(winds);
    MinIsLeast(precips);
    MaxIsGreatest(precips);
  }

  /** Readings bounded by lo and hi sum to between n * lo and n * hi. */
  lemma {:induction false} SumWithinBounds(s: seq<real>, lo: real, hi: real)
    requires forall k :: 0 <= k < |s| ==> lo <= s[k] <= hi
    ensures (|s| as real) * lo <= Sum(s) <= (|s| as real) * hi
  {
    if s != [] {
      SumWithinBounds(s[..|s| - 1], lo, hi);
    }
  }

  lemma QuotientWithinBounds(total: real, n: real, lo: real, hi: real)
    requires n > 0.0 && n * lo <= total <= n * hi
    ensures lo <= total / n <= hi
  {
    assert (total / n) * n == total;
  }

  lemma {:induction false} SumAppend(a: seq<real>, b: seq<real>)
    ensures Sum(a + b) == Sum(a) + Sum(b)
    decreases |b|
  {
    if b != [] {
      var ab := a + b;
      assert ab[..|ab| - 1] == a + b[..|b| - 1];
      assert ab[|ab| - 1] == b[|b| - 1];
      assert Sum(ab) == Sum(a + b[..|b| - 1]) + b[|b| - 1];
      SumAppend(a, b[..|b| - 1]);
    } else {
      assert a + b == a;
    }
  }

  lemma SumRemoveAt(s: seq<real>, j: nat)
    requires j < |s|
    ensures Sum(s) == Sum(s[..j] + s[j + 1..]) + s[j]
  {
    var front, x, back := s[..j], s[j], s[j + 1..];
    assert s == (front + [x]) + back;
    SumAppend(front + [x], back);
    SumAppend(front, [x]);
    SumAppend(front, back);
    assert Sum([x]) == x by { assert [x] == [] + [x]; }
  }

  /** The sum does not depend on the order in which the years are visited. */
  lemma {:induction false} SumPermutation(a: seq<real>, b: seq<real>)
    requires multiset(a) == multiset(b)
    ensures Sum(a) == Sum(b)
    decreases |a|
  {
    if a != [] {
      var x := a[|a| - 1];
      assert x in multiset(b);
      var j :| 0 <= j < |b| && b[j] == x;
      var a' := a[..|a| - 1];
      var b' := b[..j] + b[j + 1..];
      assert a == a' + [x];
      assert b == b[..j] + [x] + b[j + 1..];
      assert multiset(a) == multiset(a') + multiset{x};
      assert multiset(b) == multiset(b[..j]) + multiset{x} + multiset(b[j + 1..]);
      assert multiset(b') == multiset(b[..j]) + multiset(b[j + 1..]);
      assert multiset(a') == multiset(a) - multiset{x};
      assert multiset(b') == multiset(b) - multiset{x};
      SumPermutation(a', b');
      SumRemoveAt(b, j);
    } else {
      assert |b| == |multiset(b)| == 0;
    }
  }

  /** Reordering the years leaves all nine statistics unchanged. */
  lemma SummarizePermutation(temps: seq<real>, winds: seq<real>, precips: seq<real>,
                             temps': seq<real>, winds': seq<real>, precips': seq<real>)
    requires |temps| > 0 && |winds| > 0 && |precips| > 0
    requires multiset(temps) == multiset(temps')
    requires multiset(winds) == multiset(winds')
    requires multiset(precips) == multiset(precips')
    ensures |temps'| > 0 && |winds'| > 0 && |precips'| > 0
    ensures Summarize(temps, winds, precips) == Summarize(temps', winds', precips')
  {
    assert |temps'| == |multiset(temps')| == |temps|;
    assert |winds'| == |multiset(winds')| == |winds|;
    assert |precips'| == |multiset(precips')| == |precips|;
    SumPermutation(temps, temps');
    SumPermutation(winds, winds');
    SumPermutation(precips, precips');
    MinMaxPermutation(temps, temps');
    MinMaxPermutation(winds, winds');
    MinMaxPermutation(precips, precips');
  }

  lemma MinMaxPermutation(a: seq<real>, b: seq<real>)
    requires |a| > 0 && |b| > 0
    requires multiset(a) == multiset(b)
    ensures Min(a) == Min(b) && Max(a) == Max(b)
  {
    MinIsLeast(a);
    MinIsLeast(b);
    MaxIsGreatest(a);
    MaxIsGreatest(b);
    assert Min(a) in multiset(b) && Min(b) in multiset(a);
    assert Max(a) in multiset(b) && Max(b) in multiset(a);
  }

  /**
   * Over the five years of the window: the averages are the five readings
   * added up and divided by 5, and the precipitation statistic is the five
   * amounts added up.
   */
  lemma SummarizeFiveYears(temps: seq<real>, winds: seq<real>, precips: seq<real>)
    requires |temps| == 5 && |winds| == 5 && |precips| == 5
    ensures var r := Summarize(temps, winds, precips);
      && r.avgTemp == (temps[0] + temps[1] + temps[2] + temps[3] + temps[4]) / 5.0
      && r.avgWind == (winds[0] + winds[1] + winds[2] + winds[3] + winds[4]) / 5.0
      && r.sumPrecip == precips[0] + precips[1] + precips[2] + precips[3] + precips[4]
  {
    MeanOfFive(temps);
    MeanOfFive(winds);
    SumOfFive(precips);
  }

  lemma MeanOfFive(s: seq<real>)
    requires |s| == 5
    ensures Mean(s) == (s[0] + s[1] + s[2] + s[3] + s[4]) / 5.0
  {
    SumOfFive(s);
  }

  lemma SumOfFive(s: seq<real>)
    requires |s| == 5
    ensures Sum(s) == s[0] + s[1] + s[2] + s[3] + s[4]
  {
    assert Sum(s) == Sum(s[..4]) + s[4];
    assert s[..4][..3] == s[..3];
    assert Sum(s[..4]) == Sum(s[..3]) + s[3];
    assert s[..3][..2] == s[..2];
    assert Sum(s[..3]) == Sum(s[..2]) + s[2];
    assert s[..2][..1] == s[..1];
    assert Sum(s[..2]) == Sum(s[..1]) + s[1];
    assert s[..1][..0] == [];
    assert Sum(s[..1]) == Sum([]) + s[0];
  }

  /** The worked example: temperatures 30, 32, 34, 36, 38 give mean 34, minimum 30, maximum 38. */
  lemma ExampleTemperatures(winds: seq<real>, precips: seq<real>)
    requires |winds| == 5 && |precips| == 5
    ensures var r := Summarize([30.0, 32.0, 34.0, 36.0, 38.0], winds, precips);
      r.avgTemp == 34.0 && r.minTemp == 30.0 && r.maxTemp == 38.0
  {
    var t := [30.0, 32.0, 34.0, 36.0, 38.0];
    SummarizeFiveYears(t, winds, precips);
    MinIsLeast(t);
    MaxIsGreatest(t);
    assert t[..4][..3] == t[..3] && t[..3][..2] == t[..2] && t[..2][..1] == t[..1];
  }
}
