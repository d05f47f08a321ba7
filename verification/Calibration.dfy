/** Threshold calibration: interpolated percentiles, rounding, the suggested thresholds, and the search for reviews. */
module Calibration {
  import opened Wrappers

  // ---------------------------------------------------------------- percentiles

  predicate Ascending(s: seq<real>) { forall i, j :: 0 <= i <= j < |s| ==> s[i] <= s[j] }

  function Times(x: real, y: real): real { x * y }

  lemma TimesGrows(x: real, y: real, c: real)
    requires x <= y && c >= 0.0
    ensures Times(x, c) <= Times(y, c)
  {
    var d := y - x;
    assert d * c >= 0.0;
  }

  lemma TimesCommutes(x: real, y: real)
    ensures Times(x, y) == Times(y, x)
  {
  }

  lemma TimesUnits(x: real)
    ensures Times(0.0, x) == 0.0 && Times(1.0, x) == x && Times(x, 0.0) == 0.0
  {
  }

  function Between(a: real, b: real, f: real): real { a + Times(b - a, f) }

  lemma BetweenBounds(a: real, b: real, f: real)
    requires a <= b && 0.0 <= f <= 1.0
    ensures a <= Between(a, b, f) <= b
  {
    hide Times;
    TimesUnits(b - a);
    TimesCommutes(b - a, f);
    TimesGrows(0.0, f, b - a);
    TimesGrows(f, 1.0, b - a);
  }

  lemma BetweenGrows(a: real, b: real, f: real, g: real)
    requires a <= b && f <= g
    ensures Between(a, b, f) <= Between(a, b, g)
  {
    hide Times;
    TimesCommutes(b - a, f);
    TimesCommutes(b - a, g);
    TimesGrows(f, g, b - a);
  }

  lemma BetweenZero(a: real, b: real)
    ensures Between(a, b, 0.0) == a
  {
    hide Times;
    TimesUnits(b - a);
  }

  /** The sample after a position, the last one at most. */
  function Next(s: seq<real>, low: nat): nat
    requires s != []
  {
    if low + 1 < |s| - 1 then low + 1 else |s| - 1
  }

  /** The value at a position along the samples. */
  function Along(s: seq<real>, x: real): real
    requires s != [] && 0.0 <= x <= (|s| - 1) as real
  {
    Between(s[x.Floor], s[Next(s, x.Floor)], x - x.Floor as real)
  }

  function Position(s: seq<real>, q: real): (x: real)
    requires s != [] && 0.0 <= q <= 1.0
    ensures 0.0 <= x <= (|s| - 1) as real
  {
    var m := (|s| - 1) as real;
    TimesUnits(m);
    TimesGrows(0.0, q, m);
    TimesGrows(q, 1.0, m);
    Times(q, m)
  }

  /** `_percentile`; nothing for no samples. */
  function Percentile(s: seq<real>, q: real): (p: Option<real>)
    requires 0.0 <= q <= 1.0
    ensures p.Some? <==> s != []
  {
    if s == [] then None else Some(Along(s, Position(s, q)))
  }

  /** A position lies between its neighbouring samples. */
  lemma AlongBrackets(s: seq<real>, x: real)
    requires s != [] && Ascending(s) && 0.0 <= x <= (|s| - 1) as real
    ensures s[x.Floor] <= Along(s, x) <= s[Next(s, x.Floor)]
  {
    hide Between;
    BetweenBounds(s[x.Floor], s[Next(s, x.Floor)], x - x.Floor as real);
  }

  lemma AlongGrows(s: seq<real>, x: real, y: real)
    requires s != [] && Ascending(s) && 0.0 <= x <= y <= (|s| - 1) as real
    ensures Along(s, x) <= Along(s, y)
  {
    hide Between;
    if x.Floor == y.Floor {
      BetweenGrows(s[x.Floor], s[Next(s, x.Floor)], x - x.Floor as real, y - x.Floor as real);
    } else {
      hide Along;
      AlongBrackets(s, x);
      AlongBrackets(s, y);
    }
  }

  lemma PositionGrows(s: seq<real>, q: real, r: real)
    requires s != [] && 0.0 <= q <= r <= 1.0
    ensures Position(s, q) <= Position(s, r)
  {
    hide Times;
    TimesGrows(q, r, (|s| - 1) as real);
  }

  /** The percentile grows with the quantile and stays within the samples. */
  lemma PercentileMonotone(s: seq<real>, q: real, r: real)
    requires s != [] && Ascending(s) && 0.0 <= q <= r <= 1.0
    ensures Percentile(s, q).value <= Percentile(s, r).value
    ensures s[0] <= Percentile(s, q).value && Percentile(s, r).value <= s[|s| - 1]
  {
    hide Along, Position;
    PositionGrows(s, q, r);
    AlongGrows(s, Position(s, q), Position(s, r));
    AlongBrackets(s, Position(s, q));
    AlongBrackets(s, Position(s, r));
  }

  lemma AlongAtSample(s: seq<real>, k: nat)
    requires k < |s|
    ensures Along(s, k as real) == s[k]
  {
    hide Between;
    BetweenZero(s[k], s[Next(s, k)]);
  }

  /** The percentile passes through the samples: the `k`-th of `n` is the quantile `k / (n - 1)`. */
  lemma PercentileAtSample(s: seq<real>, k: nat)
    requires 1 < |s| && k < |s|
    ensures var q := k as real / (|s| - 1) as real;
      0.0 <= q <= 1.0 && Percentile(s, q) == Some(s[k])
  {
    hide Along;
    var m := (|s| - 1) as real;
    QuotientInUnit(k as real, m);
    AlongAtSample(s, k);
  }

  lemma QuotientInUnit(x: real, m: real)
    requires 0.0 <= x <= m && m > 0.0
    ensures 0.0 <= x / m <= 1.0 && Times(x / m, m) == x
  {
  }

  lemma AlongBetween(s: seq<real>, k: nat, f: real)
    requires k + 1 < |s| && 0.0 <= f < 1.0
    ensures Along(s, k as real + f) == Between(s[k], s[k + 1], f)
  {
    hide Between;
    assert (k as real + f).Floor == k;
  }

  lemma BetweenHalf(a: real, b: real)
    ensures Between(a, b, 0.5) == (a + b) / 2.0
  {
  }

  lemma PositionAtHalf(s: seq<real>)
    requires s != []
    ensures Position(s, 0.5) == (|s| - 1) as real / 2.0
  {
  }

  /** At one half the percentile is the median: the middle sample, or the mean of the two middle ones. */
  lemma MedianIsMiddle(s: seq<real>, m: nat)
    ensures |s| == 2 * m + 1 ==> Percentile(s, 0.5) == Some(s[m])
    ensures |s| == 2 * m + 2 ==> Percentile(s, 0.5) == Some((s[m] + s[m + 1]) / 2.0)
  {
    hide Along, Position, Between;
    if |s| == 2 * m + 1 {
      PositionAtHalf(s);
      AlongAtSample(s, m);
    } else if |s| == 2 * m + 2 {
      PositionAtHalf(s);
      assert Position(s, 0.5) == m as real + 0.5;
      AlongBetween(s, m, 0.5);
      BetweenHalf(s[m], s[m + 1]);
    }
  }

  // ---------------------------------------------------------------- rounding

  /** To the nearest integer, ties to even. */
  function HalfEven(x: real): int {
    var f := x.Floor;
    var rest := x - f as real;
    if rest < 0.5 then f else if rest > 0.5 then f + 1 else if f % 2 == 0 then f else f + 1
  }

  lemma HalfEvenMonotone(x: real, y: real)
    requires x <= y
    ensures HalfEven(x) <= HalfEven(y)
  {
  }

  lemma HalfEvenNearest(x: real)
    ensures -0.5 <= HalfEven(x) as real - x <= 0.5
    ensures HalfEven(x) as real - x == 0.5 || HalfEven(x) as real - x == -0.5 ==> HalfEven(x) % 2 == 0
  {
  }

  datatype Direction = HighBad | LowBad

  /** `scale` is 10 to the number of printed digits; 1 for the integer metric. */
  datatype Metric = Metric(warnAt: Option<real>, failAt: Option<real>, direction: Direction, scale: nat, integer: bool)

  function Round(x: real, m: Metric): real
    requires m.scale > 0
  {
    HalfEven(Times(x, m.scale as real)) as real / m.scale as real
  }

  lemma RoundMonotone(x: real, y: real, m: Metric)
    requires x <= y && m.scale > 0
    ensures Round(x, m) <= Round(y, m)
  {
    var c := m.scale as real;
    hide Times, HalfEven;
    TimesGrows(x, y, c);
    HalfEvenMonotone(Times(x, c), Times(y, c));
    QuotientGrows(HalfEven(Times(x, c)) as real, HalfEven(Times(y, c)) as real, c);
  }

  lemma QuotientGrows(a: real, b: real, c: real)
    requires a <= b && c > 0.0
    ensures a / c <= b / c
  {
  }

  // ---------------------------------------------------------------- calibration

  const METRICS: map<string, Metric> := map[
    "load_ratio" := Metric(Some(0.66), Some(0.90), HighBad, 100, false),
    "min_adjacent_delta_e" := Metric(Some(0.33), Some(0.10), LowBad, 10, false),
    "label_ink_ratio" := Metric(Some(0.66), Some(0.90), HighBad, 100, false),
    "avg_feature_area_px" := Metric(None, Some(0.05), LowBad, 100, false),
    "encoded_field_count" := Metric(None, Some(0.95), HighBad, 1, true)]

  predicate Sensible(m: Metric) {
    && m.scale > 0
    && (m.warnAt.Some? ==> 0.0 <= m.warnAt.value <= 1.0)
    && (m.failAt.Some? ==> 0.0 <= m.failAt.value <= 1.0)
    && (m.warnAt.Some? && m.failAt.Some? ==>
          if m.direction.HighBad? then m.warnAt.value <= m.failAt.value else m.failAt.value <= m.warnAt.value)
  }

  lemma MetricsAreSensible(name: string)
    requires name in METRICS
    ensures Sensible(METRICS[name])
  {
  }

  function Insert(x: real, s: seq<real>): seq<real> {
    if s == [] || x <= s[0] then [x] + s else [s[0]] + Insert(x, s[1..])
  }

  function Sorted(values: seq<real>): seq<real> { if values == [] then [] else Insert(values[0], Sorted(values[1..])) }

  lemma {:induction false} InsertAdds(x: real, s: seq<real>)
    ensures multiset(Insert(x, s)) == multiset(s) + multiset{x}
  {
    if !(s == [] || x <= s[0]) {
      InsertAdds(x, s[1..]);
      assert s == [s[0]] + s[1..];
    }
  }

  lemma AscendingCons(head: real, rest: seq<real>)
    requires Ascending(rest) && forall v :: v in rest ==> head <= v
    ensures Ascending([head] + rest)
  {
    assert forall k :: 0 <= k < |rest| ==> ([head] + rest)[k + 1] == rest[k] && rest[k] in rest;
    forall i, j | 0 <= i <= j <= |rest| ensures ([head] + rest)[i] <= ([head] + rest)[j] {
      if i == 0 < j { assert head <= rest[j - 1]; }
    }
  }

  lemma {:induction false} InsertAscends(x: real, s: seq<real>)
    requires Ascending(s)
    ensures Ascending(Insert(x, s))
  {
    if s == [] || x <= s[0] {
      AscendingCons(x, s);
    } else {
      hide Ascending;
      assert Ascending(s[1..]) && forall v :: v in s[1..] ==> s[0] <= v by { AscendingTail(s); }
      InsertAscends(x, s[1..]);
      InsertAdds(x, s[1..]);
      var rest := Insert(x, s[1..]);
      forall v | v in rest ensures s[0] <= v { assert v in multiset(rest); }
      AscendingCons(s[0], rest);
    }
  }

  lemma AscendingTail(s: seq<real>)
    requires s != [] && Ascending(s)
    ensures Ascending(s[1..]) && forall v :: v in s[1..] ==> s[0] <= v
  {
  }

  lemma {:induction false} SortedIsSorted(values: seq<real>)
    ensures Ascending(Sorted(values)) && multiset(Sorted(values)) == multiset(values)
    ensures |Sorted(values)| == |values|
  {
    if values != [] {
      SortedIsSorted(values[1..]);
      InsertAdds(values[0], Sorted(values[1..]));
      InsertAscends(values[0], Sorted(values[1..]));
      assert values == [values[0]] + values[1..];
    }
    assert |multiset(Sorted(values))| == |multiset(values)|;
  }

  datatype Report =
    | NoObservations(metric: string)
    | Report(metric: string, n: nat, least: real, median: real, greatest: real, direction: Direction,
             warn: Option<real>, fail: Option<real>)

  function Suggest(ordered: seq<real>, at: Option<real>, m: Metric): Option<real>
    requires ordered != [] && m.scale > 0 && (at.Some? ==> 0.0 <= at.value <= 1.0)
  {
    if at.None? then None else Some(Round(Percentile(ordered, at.value).value, m))
  }

  function ReportOn(name: string, values: seq<real>): Report
    requires name in METRICS
  {
    if values == [] then NoObservations(name)
    else
      var m := METRICS[name];
      MetricsAreSensible(name);
      SortedIsSorted(values);
      var ordered := Sorted(values);
      var least, greatest := ordered[0], ordered[|ordered| - 1];
      Report(name, |ordered|,
             if m.integer then Round(least, m) else least,
             Round(Percentile(ordered, 0.5).value, m),
             if m.integer then Round(greatest, m) else greatest,
             m.direction, Suggest(ordered, m.warnAt, m), Suggest(ordered, m.failAt, m))
  }

  datatype Observed = Observed(metric: string, values: seq<real>)

  /** `calibrate`. */
  method Calibrate(observations: seq<Observed>) returns (reports: seq<Report>)
    requires forall o :: o in observations ==> o.metric in METRICS
    ensures |reports| == |observations|
    ensures forall i :: 0 <= i < |reports| ==> reports[i] == ReportOn(observations[i].metric, observations[i].values)
  {
    hide METRICS, Percentile, Round, Sorted, Sensible;
    reports := [];
    var i := 0;
    while i < |observations|
      invariant i == |reports| <= |observations|
      invariant forall k :: 0 <= k < i ==> reports[k] == ReportOn(observations[k].metric, observations[k].values)
    {
      var o := observations[i];
      var m := METRICS[o.metric];
      if o.values == [] {
        reports := reports + [NoObservations(o.metric)];
      } else {
        SortedIsSorted(o.values);
        assert m.scale > 0 by { Usable(o.metric); }
        var ordered := Sorted(o.values);
        var warn, fail := None, None;
        if m.warnAt.Some? {
          assert 0.0 <= m.warnAt.value <= 1.0 by { Usable(o.metric); }
          warn := Some(Round(Percentile(ordered, m.warnAt.value).value, m));
        }
        if m.failAt.Some? {
          assert 0.0 <= m.failAt.value <= 1.0 by { Usable(o.metric); }
          fail := Some(Round(Percentile(ordered, m.failAt.value).value, m));
        }
        var least := if m.integer then Round(ordered[0], m) else ordered[0];
        var greatest := if m.integer then Round(ordered[|ordered| - 1], m) else ordered[|ordered| - 1];
        var median := Round(Percentile(ordered, 0.5).value, m);
        reports := reports + [Report(o.metric, |ordered|, least, median, greatest, m.direction, warn, fail)];
      }
      i := i + 1;
    }
  }

  lemma Usable(name: string)
    requires name in METRICS
    ensures var m := METRICS[name];
      m.scale > 0 && (m.warnAt.Some? ==> 0.0 <= m.warnAt.value <= 1.0)
        && (m.failAt.Some? ==> 0.0 <= m.failAt.value <= 1.0)
  {
    MetricsAreSensible(name);
  }

  /** The ends of the sorted observations are their least and greatest. */
  lemma Ends(values: seq<real>, least: real, greatest: real)
    requires least in values && greatest in values && forall v :: v in values ==> least <= v <= greatest
    ensures |Sorted(values)| == |values| && Sorted(values)[0] == least && Sorted(values)[|values| - 1] == greatest
  {
    hide Sorted;
    SortedIsSorted(values);
    var ordered := Sorted(values);
    assert least in multiset(values) && greatest in multiset(values);
    assert least in ordered && greatest in ordered;
    assert ordered[0] in multiset(ordered) && ordered[|ordered| - 1] in multiset(ordered);
    assert ordered[0] in values && ordered[|ordered| - 1] in values;
  }

  predicate Within(x: Option<real>, low: real, high: real) { x.Some? ==> low <= x.value <= high }

  lemma SuggestionsOrdered(ordered: seq<real>, m: Metric, at: Option<real>, to: Option<real>)
    requires ordered != [] && Ascending(ordered) && m.scale > 0
    requires at.Some? ==> 0.0 <= at.value <= 1.0
    requires to.Some? ==> 0.0 <= to.value <= 1.0
    ensures Within(Suggest(ordered, at, m), Round(ordered[0], m), Round(ordered[|ordered| - 1], m))
    ensures at.Some? && to.Some? && at.value <= to.value ==>
      Suggest(ordered, at, m).value <= Suggest(ordered, to, m).value
  {
    hide Percentile, Round;
    if at.Some? {
      PercentileMonotone(ordered, at.value, at.value);
      RoundMonotone(ordered[0], Percentile(ordered, at.value).value, m);
      RoundMonotone(Percentile(ordered, at.value).value, ordered[|ordered| - 1], m);
      if to.Some? && at.value <= to.value {
        PercentileMonotone(ordered, at.value, to.value);
        RoundMonotone(Percentile(ordered, at.value).value, Percentile(ordered, to.value).value, m);
      }
    }
  }

  /** The suggested thresholds are ordered in the direction of the metric. */
  lemma ThresholdsOrdered(name: string, values: seq<real>)
    requires name in METRICS && values != []
    ensures var r := ReportOn(name, values);
      r.Report? && r.n == |values| && (r.warn.Some? && r.fail.Some? ==>
        if r.direction.HighBad? then r.warn.value <= r.fail.value else r.fail.value <= r.warn.value)
  {
    hide METRICS, Suggest, Sorted, Percentile, Round;
    var m := METRICS[name];
    MetricsAreSensible(name);
    SortedIsSorted(values);
    var ordered := Sorted(values);
    SuggestionsOrdered(ordered, m, m.warnAt, m.failAt);
    SuggestionsOrdered(ordered, m, m.failAt, m.warnAt);
    assert forall at: Option<real> :: AtQuantile(at) ==> (Suggest(ordered, at, m).Some? <==> at.Some?) by {
      SuggestPresent(ordered, m);
    }
  }

  predicate AtQuantile(at: Option<real>) { at.Some? ==> 0.0 <= at.value <= 1.0 }

  lemma SuggestPresent(ordered: seq<real>, m: Metric)
    requires ordered != [] && m.scale > 0
    ensures forall at: Option<real> :: AtQuantile(at) ==> (Suggest(ordered, at, m).Some? <==> at.Some?)
  {
  }

  /** Everything suggested lies within the rounded observations, and the extremes reported are theirs. */
  lemma ReportWithinObservations(name: string, values: seq<real>, least: real, greatest: real)
    requires name in METRICS && least in values && greatest in values
        && forall v :: v in values ==> least <= v <= greatest
    ensures var r := ReportOn(name, values);
      var m := METRICS[name];
      && r.Report? && m.scale > 0
      && Within(r.warn, Round(least, m), Round(greatest, m)) && Within(r.fail, Round(least, m), Round(greatest, m))
      && Round(least, m) <= r.median <= Round(greatest, m)
      && r.least == (if m.integer then Round(least, m) else least)
      && r.greatest == (if m.integer then Round(greatest, m) else greatest)
  {
    hide METRICS, Sorted, Percentile, Round, Suggest;
    var m := METRICS[name];
    MetricsAreSensible(name);
    SortedIsSorted(values);
    Ends(values, least, greatest);
    var ordered := Sorted(values);
    SuggestionsOrdered(ordered, m, m.warnAt, None);
    SuggestionsOrdered(ordered, m, m.failAt, None);
    PercentileMonotone(ordered, 0.5, 0.5);
    RoundMonotone(least, Percentile(ordered, 0.5).value, m);
    RoundMonotone(Percentile(ordered, 0.5).value, greatest, m);
  }

  function Over(n: int, scale: nat): real
    requires scale > 0
  {
    n as real / scale as real
  }

  /** Rounding gives a number with the printed digits, at most half a unit of the last one away. */
  lemma RoundIsNear(x: real, m: Metric)
    requires m.scale > 0
    ensures exists n: int :: Round(x, m) == Over(n, m.scale)
    ensures -0.5 <= (Round(x, m) - x) * m.scale as real <= 0.5
  {
    var c := m.scale as real;
    var n := HalfEven(Times(x, c));
    assert Round(x, m) == Over(n, m.scale);
    HalfEvenNearest(Times(x, c));
    assert (n as real / c - x) * c == n as real - x * c;
  }

  /** The suggestion is the rounded observation at so many percent of the way, nothing for none. */
  predicate IsSample(at: Option<real>, percent: Option<nat>, ordered: seq<real>, k: nat, m: Metric)
    requires m.scale > 0
  {
    if percent.None? then at == None
    else percent.value * k < |ordered| && at == Some(Round(ordered[percent.value * k], m))
  }

  lemma SuggestsSample(ordered: seq<real>, m: Metric, percent: nat, k: nat)
    requires |ordered| == 100 * k + 1 && percent <= 100 && m.scale > 0
    ensures 0.0 <= percent as real / 100.0 <= 1.0
    ensures IsSample(Suggest(ordered, Some(percent as real / 100.0), m), Some(percent), ordered, k, m)
  {
    hide Round, Along;
    var q := percent as real / 100.0;
    ProductFits(percent, k);
    assert Position(ordered, q) == (percent * k) as real by {
      assert (100 * k) as real == 100.0 * k as real && (percent * k) as real == percent as real * k as real;
    }
    AlongAtSample(ordered, percent * k);
  }

  lemma ProductFits(percent: nat, k: nat)
    requires percent <= 100
    ensures percent * k <= 100 * k
  {
  }

  /** How many percent of the way along the ordered observations the warning and the failure threshold are. */
  function Percents(name: string): (Option<nat>, Option<nat>)
    requires name in METRICS
  {
    if name in {"load_ratio", "label_ink_ratio"} then (Some(66), Some(90))
    else if name == "min_adjacent_delta_e" then (Some(33), Some(10))
    else if name == "avg_feature_area_px" then (None, Some(5))
    else (None, Some(95))
  }

  function Quantile(percent: Option<nat>): Option<real> {
    if percent.None? then None else Some(percent.value as real / 100.0)
  }

  lemma QuantilesArePercents(name: string)
    requires name in METRICS
    ensures METRICS[name].warnAt == Quantile(Percents(name).0) && METRICS[name].failAt == Quantile(Percents(name).1)
    ensures Percents(name).0.Some? ==> Percents(name).0.value <= 100
    ensures Percents(name).1.Some? ==> Percents(name).1.value <= 100
  {
  }

  /** Of `100 k + 1` observations in order, the thresholds are those at the metric's percentiles. */
  lemma ThresholdsAreSamples(name: string, values: seq<real>, k: nat)
    requires name in METRICS && |values| == 100 * k + 1
    ensures METRICS[name].scale > 0
    ensures var r, m := ReportOn(name, values), METRICS[name];
      && r.Report?
      && IsSample(r.warn, Percents(name).0, Sorted(values), k, m)
      && IsSample(r.fail, Percents(name).1, Sorted(values), k, m)
  {
    hide Round, Sorted, Percentile, Suggest, IsSample, METRICS, Percents;
    SortedIsSorted(values);
    MetricsAreSensible(name);
    QuantilesArePercents(name);
    var m, at := METRICS[name], Sorted(values);
    var (warn, fail) := Percents(name);
    if warn.Some? { SuggestsSample(at, m, warn.value, k); }
    if fail.Some? { SuggestsSample(at, m, fail.value, k); }
    assert Suggest(at, None, m) == None && IsSample(None, None, at, k, m) by { NoneIsNone(at, k, m); }
  }

  lemma NoneIsNone(ordered: seq<real>, k: nat, m: Metric)
    requires ordered != [] && m.scale > 0
    ensures Suggest(ordered, None, m) == None && IsSample(None, None, ordered, k, m)
  {
  }

  /** The digits that are printed, the metric that is counted in whole numbers, and those where low is bad. */
  lemma DigitsPrinted(name: string)
    requires name in METRICS
    ensures METRICS[name].scale == if name == "min_adjacent_delta_e" then 10
                                   else if name == "encoded_field_count" then 1 else 100
    ensures METRICS[name].integer <==> name == "encoded_field_count"
    ensures METRICS[name].direction.LowBad? <==> name in {"min_adjacent_delta_e", "avg_feature_area_px"}
  {
  }

  /** The reported median is the rounded middle observation, or the rounded mean of the two middle ones. */
  lemma MedianReported(name: string, values: seq<real>, k: nat)
    requires name in METRICS && (|values| == 2 * k + 1 || |values| == 2 * k + 2)
    ensures |Sorted(values)| == |values| && METRICS[name].scale > 0
    ensures var r, m, at := ReportOn(name, values), METRICS[name], Sorted(values);
      && r.Report?
      && r.median == Round(if |values| == 2 * k + 1 then at[k] else (at[k] + at[k + 1]) / 2.0, m)
  {
    hide Round, Sorted, Percentile, METRICS;
    SortedIsSorted(values);
    MetricsAreSensible(name);
    MedianIsMiddle(Sorted(values), k);
  }

  // ---------------------------------------------------------------- finding reviews

  /** A decoded document; the keys and values of an object in order. */
  datatype Json = Scalar | List(items: seq<Json>) | Object(keys: seq<string>, values: seq<Json>)

  const DEEPEST: nat := 6

  /** An object with a nonempty list of checks. */
  predicate IsReview(node: Json) {
    node.Object? && exists i :: 0 <= i < |node.keys| && i < |node.values|
                                && node.keys[i] == "checks" && node.values[i].List? && node.values[i].items != []
  }

  /** A scalar or a list is no review, nor is an object without checks or with none in them. */
  lemma ReviewsHaveChecks(key: string, check: Json, values: seq<Json>, items: seq<Json>)
    ensures !IsReview(Scalar) && !IsReview(List(items)) && !IsReview(Object([], values))
    ensures IsReview(Object([key], [List([check])])) <==> key == "checks"
    ensures !IsReview(Object([key], [List([])])) && !IsReview(Object([key], [Scalar]))
  {
    var o := Object([key], [List([check])]);
    assert o.keys[0] == key && o.values[0] == List([check]) && o.values[0].items != [];
  }

  function Children(node: Json): seq<Json> {
    match node
    case Scalar => []
    case List(items) => items
    case Object(_, values) => values
  }

  /** `_find_review_dicts`: what is yielded, in order. */
  function FindReviews(node: Json, depth: nat): (found: seq<Json>)
    decreases node
  {
    if depth > DEEPEST then []
    else match node
      case Scalar => []
      case List(items) => FindInAll(items, depth + 1)
      case Object(_, values) => if IsReview(node) then [node] else FindInAll(values, depth + 1)
  }

  function FindInAll(nodes: seq<Json>, depth: nat): (found: seq<Json>)
    decreases nodes
  {
    if nodes == [] then [] else FindReviews(nodes[0], depth) + FindInAll(nodes[1..], depth)
  }

  /** `r` is a review reached by the path, and nothing above it on the path is one. */
  predicate TopmostAt(node: Json, path: seq<nat>, r: Json)
    decreases |path|
  {
    if path == [] then node == r && IsReview(r)
    else !IsReview(node) && path[0] < |Children(node)| && TopmostAt(Children(node)[path[0]], path[1..], r)
  }

  ghost predicate TopmostWithin(node: Json, steps: int, r: Json) {
    exists path :: |path| <= steps && TopmostAt(node, path, r)
  }

  lemma TopmostStep(node: Json, steps: int, r: Json)
    requires !IsReview(node)
    ensures TopmostWithin(node, steps, r)
        <==> exists i :: 0 <= i < |Children(node)| && TopmostWithin(Children(node)[i], steps - 1, r)
  {
    if TopmostWithin(node, steps, r) {
      var path :| |path| <= steps && TopmostAt(node, path, r);
      assert TopmostAt(Children(node)[path[0]], path[1..], r);
    }
    forall i | 0 <= i < |Children(node)| && TopmostWithin(Children(node)[i], steps - 1, r)
      ensures TopmostWithin(node, steps, r)
    {
      var path :| |path| <= steps - 1 && TopmostAt(Children(node)[i], path, r);
      assert ([i] + path)[1..] == path;
      assert TopmostAt(node, [i] + path, r);
    }
  }

  lemma TopmostHere(node: Json, steps: int, r: Json)
    requires IsReview(node)
    ensures TopmostWithin(node, steps, r) <==> node == r && steps >= 0
  {
    assert TopmostAt(node, [], r) <==> node == r;
  }

  lemma NothingWithin(node: Json, steps: int, r: Json)
    requires steps < 0
    ensures !TopmostWithin(node, steps, r)
  {
  }

  lemma ReviewIsObject(node: Json)
    requires IsReview(node)
    ensures node.Object?
  {
  }

  /** Exactly the topmost reviews at depth six or less are found: one nested in a review, or deeper, is not. */
  lemma {:induction false} FindsTopmost(node: Json, depth: nat, r: Json)
    ensures r in FindReviews(node, depth) <==> TopmostWithin(node, 6 - depth, r)
    decreases node
  {
    hide TopmostWithin, IsReview;
    if depth > DEEPEST {
      assert !TopmostWithin(node, DEEPEST - depth, r) by { NothingWithin(node, DEEPEST - depth, r); }
    } else if IsReview(node) {
      assert node.Object? by { ReviewIsObject(node); }
      TopmostHere(node, DEEPEST - depth, r);
    } else {
      TopmostStep(node, DEEPEST - depth, r);
      var below := Children(node);
      assert FindReviews(node, depth) == FindInAll(below, depth + 1);
      if below != [] { FindsInAll(below, depth + 1, r); }
    }
  }

  lemma {:induction false} FindsInAll(nodes: seq<Json>, depth: nat, r: Json)
    ensures r in FindInAll(nodes, depth)
        <==> exists i :: 0 <= i < |nodes| && TopmostWithin(nodes[i], 6 - depth, r)
    decreases nodes
  {
    hide TopmostWithin, FindReviews, IsReview;
    if nodes != [] {
      FindsTopmost(nodes[0], depth, r);
      FindsInAll(nodes[1..], depth, r);
      forall i | 0 <= i < |nodes| - 1 ensures nodes[1..][i] == nodes[i + 1] {}
      if exists i :: 0 <= i < |nodes| && TopmostWithin(nodes[i], DEEPEST - depth, r) {
        var i :| 0 <= i < |nodes| && TopmostWithin(nodes[i], DEEPEST - depth, r);
        if i > 0 { assert nodes[1..][i - 1] == nodes[i]; }
      }
    }
  }
}
