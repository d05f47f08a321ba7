/** The geodetector statistic: one minus the share of the variance that lies within the strata. */
module Geodetector {
  type Label = string

  function Sum(s: seq<real>): real { if s == [] then 0.0 else Sum(s[..|s| - 1]) + s[|s| - 1] }

  function Square(x: real): (r: real)
    ensures r >= 0.0
  {
    x * x
  }

  /** The sum of squared distances to a centre. */
  function Squares(s: seq<real>, c: real): (r: real)
    ensures r >= 0.0
  {
    if s == [] then 0.0 else Squares(s[..|s| - 1], c) + Square(s[|s| - 1] - c)
  }

  function Mean(s: seq<real>): real
    requires s != []
  {
    Sum(s) / |s| as real
  }

  /** The population variance. */
  function Variance(s: seq<real>): real
    requires s != []
  {
    Squares(s, Mean(s)) / |s| as real
  }

  function Parabola(b: real, u: real, n: real, c: real): real { b - 2.0 * (c * u) + n * Square(c) }

  lemma ParabolaStep(b: real, u: real, n: real, x: real, c: real)
    ensures Parabola(b, u, n, c) + Square(x - c) == Parabola(b + Square(x - 0.0), u + x, n + 1.0, c)
  {
    assert Square(x - c) == Square(x - 0.0) - 2.0 * (c * x) + Square(c);
  }

  lemma {:induction false} Expand(s: seq<real>, c: real)
    ensures Squares(s, c) == Parabola(Squares(s, 0.0), Sum(s), |s| as real, c)
  {
    if s == [] {
      assert 0.0 * Square(c) == 0.0;
    } else {
      hide Square, Parabola;
      var x, t := s[|s| - 1], s[..|s| - 1];
      Expand(t, c);
      ParabolaStep(Squares(t, 0.0), Sum(t), |t| as real, x, c);
      assert |t| as real + 1.0 == |s| as real;
    }
  }

  /** Moving the centre away from the mean costs `n (mean - c)^2`. */
  lemma Steiner(s: seq<real>, c: real)
    requires s != []
    ensures Squares(s, c) == Squares(s, Mean(s)) + |s| as real * Square(Mean(s) - c)
  {
    hide Square, Squares, Sum;
    var m, n := Mean(s), |s| as real;
    Expand(s, c);
    Expand(s, m);
    MeanTimesSize(s);
    SteinerAlgebra(n, m, c);
  }

  lemma MeanTimesSize(s: seq<real>)
    requires s != []
    ensures |s| as real * Mean(s) == Sum(s)
  {
    hide Sum;
  }

  lemma SteinerAlgebra(n: real, m: real, c: real)
    ensures -2.0 * (c * (n * m)) + n * Square(c) == -2.0 * (m * (n * m)) + n * Square(m) + n * Square(m - c)
  {
    assert Square(m - c) == Square(m) - 2.0 * (m * c) + Square(c);
    assert m * (n * m) == n * Square(m);
    assert c * (n * m) == n * (m * c);
  }

  // ---------------------------------------------------------------- strata

  /** The values under a label. */
  function Stratum(values: seq<real>, labels: seq<Label>, h: Label): seq<real>
    requires |labels| == |values|
  {
    if values == [] then []
    else
      var n := |values| - 1;
      Stratum(values[..n], labels[..n], h) + if labels[n] == h then [values[n]] else []
  }

  function Labels(labels: seq<Label>): set<Label> { set i | 0 <= i < |labels| :: labels[i] }

  lemma {:induction false} StratumInhabited(values: seq<real>, labels: seq<Label>, h: Label)
    requires |labels| == |values| && h in Labels(labels)
    ensures Stratum(values, labels, h) != []
  {
    var n := |values| - 1;
    var i :| 0 <= i <= n && labels[i] == h;
    if labels[n] != h {
      assert labels[..n][i] == h;
      StratumInhabited(values[..n], labels[..n], h);
    }
  }

  function Center(s: seq<real>): real { if s == [] then 0.0 else Mean(s) }

  ghost function SumOver(hs: set<Label>, f: Label -> real): real {
    if hs == {} then 0.0 else
      var h :| h in hs;
      f(h) + SumOver(hs - {h}, f)
  }

  lemma {:induction false} SumOverWithout(hs: set<Label>, f: Label -> real, k: Label)
    requires k in hs
    ensures SumOver(hs, f) == f(k) + SumOver(hs - {k}, f)
  {
    var h :| h in hs && SumOver(hs, f) == f(h) + SumOver(hs - {h}, f);
    if h != k {
      SumOverWithout(hs - {h}, f, k);
      SumOverWithout(hs - {k}, f, h);
      assert hs - {h} - {k} == hs - {k} - {h};
    }
  }

  lemma {:induction false} SumOverSame(hs: set<Label>, f: Label -> real, g: Label -> real)
    requires forall h :: h in hs ==> f(h) == g(h)
    ensures SumOver(hs, f) == SumOver(hs, g)
  {
    if hs != {} {
      var h :| h in hs;
      SumOverWithout(hs, f, h);
      SumOverWithout(hs, g, h);
      SumOverSame(hs - {h}, f, g);
    }
  }

  lemma {:induction false} SumOverAdd(hs: set<Label>, f: Label -> real, g: Label -> real, e: Label -> real)
    requires forall h :: h in hs ==> f(h) == g(h) + e(h)
    ensures SumOver(hs, f) == SumOver(hs, g) + SumOver(hs, e)
  {
    if hs != {} {
      var h :| h in hs;
      SumOverWithout(hs, f, h);
      SumOverWithout(hs, g, h);
      SumOverWithout(hs, e, h);
      SumOverAdd(hs - {h}, f, g, e);
    }
  }

  lemma {:induction false} SumOverAtMost(hs: set<Label>, f: Label -> real, g: Label -> real)
    requires forall h :: h in hs ==> f(h) <= g(h)
    ensures SumOver(hs, f) <= SumOver(hs, g)
  {
    if hs != {} {
      var h :| h in hs;
      SumOverWithout(hs, f, h);
      SumOverWithout(hs, g, h);
      SumOverAtMost(hs - {h}, f, g);
    }
  }

  lemma {:induction false} SumOverZero(hs: set<Label>, f: Label -> real)
    requires forall h :: h in hs ==> f(h) == 0.0
    ensures SumOver(hs, f) == 0.0
  {
    if hs != {} {
      var h :| h in hs;
      SumOverWithout(hs, f, h);
      SumOverZero(hs - {h}, f);
    }
  }

  // ---------------------------------------------------------------- the decomposition

  /** The squares of each stratum around a centre of its own. */
  ghost function AroundTerm(values: seq<real>, labels: seq<Label>, c: Label -> real): Label -> real
    requires |labels| == |values|
  {
    h => Squares(Stratum(values, labels, h), c(h))
  }

  /** The same sum taken value by value. */
  function Around(values: seq<real>, labels: seq<Label>, c: Label -> real): real
    requires |labels| == |values|
  {
    if values == [] then 0.0
    else
      var n := |values| - 1;
      Around(values[..n], labels[..n], c) + Square(values[n] - c(labels[n]))
  }

  lemma SquaresOfStratum(values: seq<real>, labels: seq<Label>, h: Label, c: real)
    requires |labels| == |values| > 0
    ensures var n := |values| - 1;
      Squares(Stratum(values, labels, h), c)
      == Squares(Stratum(values[..n], labels[..n], h), c) + if labels[n] == h then Square(values[n] - c) else 0.0
  {
    hide Square;
    var n := |values| - 1;
    var t := Stratum(values[..n], labels[..n], h);
    if labels[n] == h { assert (t + [values[n]])[..|t|] == t; } else { assert t + [] == t; }
  }

  lemma {:induction false} Regroup(values: seq<real>, labels: seq<Label>, c: Label -> real, hs: set<Label>)
    requires |labels| == |values| && Labels(labels) <= hs
    ensures SumOver(hs, AroundTerm(values, labels, c)) == Around(values, labels, c)
  {
    hide Stratum, Squares, Square, SumOver;
    var f := AroundTerm(values, labels, c);
    if values == [] {
      assert forall h :: f(h) == 0.0 by { StrataOfNothing(values, labels, c); }
      SumOverZero(hs, f);
    } else {
      var n := |values| - 1;
      var l := labels[n];
      var g := AroundTerm(values[..n], labels[..n], c);
      assert Labels(labels[..n]) <= Labels(labels);
      Regroup(values[..n], labels[..n], c, hs);
      assert l in Labels(labels);
      SumOverWithout(hs, f, l);
      SumOverWithout(hs, g, l);
      forall h ensures f(h) == g(h) + if labels[n] == h then Square(values[n] - c(h)) else 0.0 {
        SquaresOfStratum(values, labels, h, c(h));
      }
      SumOverSame(hs - {l}, f, g);
    }
  }

  lemma StrataOfNothing(values: seq<real>, labels: seq<Label>, c: Label -> real)
    requires |labels| == |values| == 0
    ensures forall h :: AroundTerm(values, labels, c)(h) == 0.0
  {
    forall h ensures AroundTerm(values, labels, c)(h) == 0.0 {
      assert values == [];
      assert Stratum(values, labels, h) == [];
      assert Squares(Stratum(values, labels, h), c(h)) == 0.0;
    }
  }

  lemma {:induction false} AroundOne(values: seq<real>, labels: seq<Label>, c: Label -> real, m: real)
    requires |labels| == |values| && forall h :: c(h) == m
    ensures Around(values, labels, c) == Squares(values, m)
  {
    if values != [] { AroundOne(values[..|values| - 1], labels[..|values| - 1], c, m); }
  }

  ghost function Means(values: seq<real>, labels: seq<Label>): Label -> real
    requires |labels| == |values|
  {
    h => Center(Stratum(values, labels, h))
  }

  /** The sum of squares within the strata. */
  ghost function Within(values: seq<real>, labels: seq<Label>): real
    requires |labels| == |values|
  {
    SumOver(Labels(labels), AroundTerm(values, labels, Means(values, labels)))
  }

  ghost function BetweenTerm(values: seq<real>, labels: seq<Label>, m: real): Label -> real
    requires |labels| == |values|
  {
    h => |Stratum(values, labels, h)| as real * Square(Center(Stratum(values, labels, h)) - m)
  }

  /** The sum of squares between the strata. */
  ghost function Between(values: seq<real>, labels: seq<Label>): real
    requires |labels| == |values|
  {
    SumOver(Labels(labels), BetweenTerm(values, labels, Center(values)))
  }

  function Total(values: seq<real>): real { Squares(values, Center(values)) }

  /** The total splits into within plus between. */
  lemma Decomposition(values: seq<real>, labels: seq<Label>)
    requires |labels| == |values|
    ensures Total(values) == Within(values, labels) + Between(values, labels)
  {
    hide SumOver, Squares, Around, Stratum;
    var m := Center(values);
    var c: Label -> real := _ => m;
    var hs := Labels(labels);
    Regroup(values, labels, c, hs);
    AroundOne(values, labels, c, m);
    var f, e := AroundTerm(values, labels, c), BetweenTerm(values, labels, m);
    var g := AroundTerm(values, labels, Means(values, labels));
    forall h | h in hs ensures f(h) == g(h) + e(h) {
      StratumInhabited(values, labels, h);
      Steiner(Stratum(values, labels, h), m);
    }
    SumOverAdd(hs, f, g, e);
  }

  lemma PartsNonnegative(values: seq<real>, labels: seq<Label>)
    requires |labels| == |values|
    ensures Within(values, labels) >= 0.0 && Between(values, labels) >= 0.0
  {
    hide SumOver, Squares, Square, Stratum, Sum;
    var zero: Label -> real := _ => 0.0;
    var hs := Labels(labels);
    SumOverZero(hs, zero);
    SumOverAtMost(hs, zero, AroundTerm(values, labels, Means(values, labels)));
    forall h | h in hs ensures 0.0 <= BetweenTerm(values, labels, Center(values))(h) {
      var s := Stratum(values, labels, h);
      SignOfProduct(|s| as real, Square(Center(s) - Center(values)));
    }
    SumOverAtMost(hs, zero, BetweenTerm(values, labels, Center(values)));
  }

  lemma SignOfProduct(x: real, y: real)
    requires x >= 0.0 && y >= 0.0
    ensures x * y >= 0.0
  {
  }

  lemma VarianceTimesSize(s: seq<real>)
    requires s != []
    ensures |s| as real * Variance(s) == Squares(s, Mean(s))
    ensures Variance(s) <= 0.0 <==> Squares(s, Mean(s)) == 0.0
  {
    hide Squares, Mean;
    var n, x := |s| as real, Squares(s, Mean(s));
    assert x / n * n == x;
  }

  /** The share of the total that lies between the strata; 0 when there is nothing to explain. */
  ghost function Share(values: seq<real>, labels: seq<Label>): real
    requires |labels| == |values|
  {
    if Total(values) == 0.0 then 0.0 else Between(values, labels) / Total(values)
  }

  lemma QuotientInUnit(x: real, y: real, t: real)
    requires t > 0.0 && x >= 0.0 && y >= 0.0 && x + y == t
    ensures 1.0 - x / t == y / t && 0.0 <= y / t <= 1.0
  {
    assert x / t + y / t == (x + y) / t;
  }

  lemma QuotientOrder(x: real, y: real, t: real)
    requires t > 0.0 && x <= y
    ensures x / t <= y / t
  {
  }

  /** `_q_ref`: the share between the strata. The two clips never act. */
  method QReference(values: seq<real>, labels: seq<Label>) returns (q: real)
    requires |labels| == |values| > 0
    ensures q == Share(values, labels) && 0.0 <= q <= 1.0
    ensures Total(values) > 0.0 ==> q == 1.0 - Within(values, labels) / (|values| as real * Variance(values))
  {
    hide Squares, Stratum, SumOver, Variance;
    var tot := Variance(values);
    VarianceTimesSize(values);
    if tot <= 0.0 {
      return 0.0;
    }
    var sse := 0.0;
    var rest := Labels(labels);
    ghost var f := AroundTerm(values, labels, Means(values, labels));
    assert SumOver({}, f) == 0.0 by { SumOverZero({}, f); }
    while rest != {}
      invariant rest <= Labels(labels)
      invariant sse + SumOver(rest, f) == Within(values, labels)
      decreases |rest|
    {
      var h :| h in rest;
      var m := Stratum(values, labels, h);
      StratumInhabited(values, labels, h);
      VarianceTimesSize(m);
      SumOverWithout(rest, f, h);
      sse := sse + |m| as real * Variance(m);
      rest := rest - {h};
    }
    Decomposition(values, labels);
    PartsNonnegative(values, labels);
    QuotientInUnit(Within(values, labels), Between(values, labels), Total(values));
    var raw := 1.0 - sse / (|values| as real * tot);
    var low := if raw > 0.0 then raw else 0.0;
    q := if low < 1.0 then low else 1.0;
  }

  /** The independent recomputation of the within sum. */
  method WithinReference(values: seq<real>, labels: seq<Label>) returns (sse: real)
    requires |labels| == |values|
    ensures sse == Within(values, labels)
  {
    hide Squares, Stratum, SumOver;
    sse := 0.0;
    var rest := Labels(labels);
    ghost var f := AroundTerm(values, labels, Means(values, labels));
    assert SumOver({}, f) == 0.0 by { SumOverZero({}, f); }
    while rest != {}
      invariant rest <= Labels(labels)
      invariant sse + SumOver(rest, f) == Within(values, labels)
      decreases |rest|
    {
      var h :| h in rest;
      var m := Stratum(values, labels, h);
      StratumInhabited(values, labels, h);
      SumOverWithout(rest, f, h);
      sse := sse + Squares(m, Mean(m));
      rest := rest - {h};
    }
  }

  // ---------------------------------------------------------------- splitting strata

  /** `fine` splits the strata of `coarse`: each fine label belongs to one coarse label. */
  ghost predicate Splits(fine: seq<Label>, coarse: seq<Label>, parent: Label -> Label) {
    |fine| == |coarse| && forall i :: 0 <= i < |fine| ==> parent(fine[i]) == coarse[i]
  }

  lemma {:induction false} AroundParent(values: seq<real>, fine: seq<Label>, coarse: seq<Label>, parent: Label -> Label,
                                        c: Label -> real, d: Label -> real)
    requires |values| == |fine| && Splits(fine, coarse, parent) && forall h :: d(h) == c(parent(h))
    ensures Around(values, fine, d) == Around(values, coarse, c)
  {
    if values != [] {
      var n := |values| - 1;
      AroundParent(values[..n], fine[..n], coarse[..n], parent, c, d);
    }
  }

  /** The mean is the best centre. */
  lemma OwnMeanIsBest(values: seq<real>, labels: seq<Label>, c: Label -> real)
    requires |labels| == |values|
    ensures Within(values, labels) <= Around(values, labels, c)
  {
    hide SumOver, Squares, Around, Stratum;
    var hs := Labels(labels);
    var f, g := AroundTerm(values, labels, Means(values, labels)), AroundTerm(values, labels, c);
    forall h | h in hs ensures f(h) <= g(h) {
      var s := Stratum(values, labels, h);
      StratumInhabited(values, labels, h);
      Steiner(s, c(h));
      SignOfProduct(|s| as real, Square(Mean(s) - c(h)));
    }
    SumOverAtMost(hs, f, g);
    Regroup(values, labels, c, hs);
  }

  /** Splitting strata never lowers the statistic. */
  lemma SplittingNeverLowers(values: seq<real>, fine: seq<Label>, coarse: seq<Label>, parent: Label -> Label)
    requires |values| == |fine| && Splits(fine, coarse, parent)
    ensures Within(values, fine) <= Within(values, coarse)
    ensures Share(values, fine) >= Share(values, coarse)
  {
    hide SumOver, Squares, Around, Stratum;
    var c := Means(values, coarse);
    var d: Label -> real := h => c(parent(h));
    OwnMeanIsBest(values, fine, d);
    AroundParent(values, fine, coarse, parent, c, d);
    Regroup(values, coarse, c, Labels(coarse));
    Decomposition(values, fine);
    Decomposition(values, coarse);
    PartsNonnegative(values, coarse);
    if Total(values) != 0.0 { QuotientOrder(Between(values, coarse), Between(values, fine), Total(values)); }
  }

  // ---------------------------------------------------------------- perfect strata

  lemma {:induction false} AroundIsZero(values: seq<real>, labels: seq<Label>, c: Label -> real)
    requires |labels| == |values|
    ensures Around(values, labels, c) >= 0.0
    ensures Around(values, labels, c) == 0.0 <==> forall i :: 0 <= i < |values| ==> values[i] == c(labels[i])
  {
    if values != [] {
      var n := |values| - 1;
      AroundIsZero(values[..n], labels[..n], c);
      SquareIsZero(values[n] - c(labels[n]));
      assert forall i :: 0 <= i < n ==> values[..n][i] == values[i] && labels[..n][i] == labels[i];
    }
  }

  function Product(x: real, y: real): real { x * y }

  lemma ProductPositive(x: real, y: real)
    requires (x > 0.0 && y > 0.0) || (x < 0.0 && y < 0.0)
    ensures Product(x, y) > 0.0
  {
  }

  lemma SquareIsProduct(x: real)
    ensures Square(x) == Product(x, x)
  {
  }

  lemma SquareIsZero(x: real)
    ensures if x == 0.0 then Square(x) == 0.0 else Square(x) > 0.0
  {
    hide Square, Product;
    SquareIsProduct(x);
    if x == 0.0 { assert Product(0.0, 0.0) == 0.0 by { ProductZero(); } } else { ProductPositive(x, x); }
  }

  lemma ProductZero()
    ensures Product(0.0, 0.0) == 0.0
  {
  }

  ghost predicate Constant(values: seq<real>, labels: seq<Label>)
    requires |labels| == |values|
  {
    forall i, j :: 0 <= i < |values| && 0 <= j < |values| && labels[i] == labels[j] ==> values[i] == values[j]
  }

  function FirstUnder(values: seq<real>, labels: seq<Label>, h: Label): (v: real)
    requires |labels| == |values|
    ensures h in Labels(labels) ==> exists i :: 0 <= i < |values| && labels[i] == h && values[i] == v
  {
    if values == [] then 0.0
    else if labels[0] == h then values[0]
    else
      assert forall i :: 0 <= i < |labels| - 1 ==> labels[1..][i] == labels[i + 1] && values[1..][i] == values[i + 1];
      FirstUnder(values[1..], labels[1..], h)
  }

  /** The statistic is 1 exactly when every stratum is constant. */
  lemma PerfectStrata(values: seq<real>, labels: seq<Label>)
    requires |labels| == |values| && Total(values) > 0.0
    ensures Share(values, labels) == 1.0 <==> Constant(values, labels)
  {
    hide SumOver, Squares, Around, Stratum, FirstUnder;
    var means := Means(values, labels);
    Regroup(values, labels, means, Labels(labels));
    AroundIsZero(values, labels, means);
    Decomposition(values, labels);
    PartsNonnegative(values, labels);
    var total := Total(values);
    assert Between(values, labels) / total == 1.0 <==> Between(values, labels) == total;
    if Constant(values, labels) {
      var c: Label -> real := h => FirstUnder(values, labels, h);
      forall i | 0 <= i < |values| ensures values[i] == c(labels[i]) { assert labels[i] in Labels(labels); }
      AroundIsZero(values, labels, c);
      OwnMeanIsBest(values, labels, c);
    }
  }
}
