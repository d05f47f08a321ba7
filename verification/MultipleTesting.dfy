/** Multiple-testing references: Benjamini-Hochberg and Holm by sort, running minimum or maximum, and scatter. */
module MultipleTesting {
  import opened Reals

  datatype PValue = NaN | Num(value: real)

  /** A missing p-value counts as 1. */
  function Clean(p: PValue): real { if p.NaN? then 1.0 else p.value }

  function Cleaned(p: seq<PValue>): (pc: seq<real>) { seq(|p|, i requires 0 <= i < |p| => Clean(p[i])) }

  /** `v` are the values the references work on: each p-value as it is, and 1 for a missing one. */
  predicate Reads(p: seq<PValue>, v: seq<real>) {
    |v| == |p| && forall i :: 0 <= i < |p| ==> p[i] == Num(v[i]) || (p[i] == NaN && v[i] == 1.0)
  }

  lemma CleanedReads(p: seq<PValue>, v: seq<real>)
    ensures Reads(p, v) <==> v == Cleaned(p)
  {
    if Reads(p, v) {
      forall i | 0 <= i < |p| ensures v[i] == Cleaned(p)[i] {}
    }
  }

  function Clip(x: real): real { if x < 0.0 then 0.0 else if x > 1.0 then 1.0 else x }

  // ---------------------------------------------------------------- stable order

  predicate Precedes(p: seq<real>, i: nat, j: nat)
    requires i < |p| && j < |p|
  {
    p[i] < p[j] || (p[i] == p[j] && i < j)
  }

  ghost predicate Ordered(p: seq<real>, order: seq<nat>) {
    && (forall k :: 0 <= k < |order| ==> order[k] < |p|)
    && (forall k, l :: 0 <= k < l < |order| ==> Precedes(p, order[k], order[l]))
  }

  /** `order` lists all indices of `p` by value, ties by index. */
  ghost predicate IsArgSort(p: seq<real>, order: seq<nat>) { |order| == |p| && Ordered(p, order) }

  /** Inserting index `i` behind everything not larger keeps the order. */
  lemma InsertKeepsOrder(p: seq<real>, order: seq<nat>, i: nat, at: nat)
    requires Ordered(p, order) && i < |p| && at <= |order| && forall k :: 0 <= k < |order| ==> order[k] < i
    requires forall k :: at <= k < |order| ==> p[order[k]] > p[i]
    requires at > 0 ==> p[order[at - 1]] <= p[i]
    ensures Ordered(p, order[..at] + [i] + order[at..])
  {
    var r := order[..at] + [i] + order[at..];
    forall k | 0 <= k < at ensures Precedes(p, order[k], i) {
      if k < at - 1 { assert Precedes(p, order[k], order[at - 1]); }
    }
    forall k, l | 0 <= k < l < |r| ensures Precedes(p, r[k], r[l]) {
      if l < at { assert r[k] == order[k] && r[l] == order[l]; }
      else if l > at && k != at {
        assert r[l] == order[l - 1] && r[k] == order[if k < at then k else k - 1];
      }
    }
  }

  method ArgSort(p: seq<real>) returns (order: seq<nat>)
    ensures IsArgSort(p, order)
  {
    order := [];
    var i := 0;
    hide Precedes;
    while i < |p|
      invariant i == |order| <= |p|
      invariant Ordered(p, order)
      invariant forall k :: 0 <= k < i ==> order[k] < i
    {
      var at := i;
      while at > 0 && p[order[at - 1]] > p[i]
        invariant at <= i
        invariant forall k :: at <= k < i ==> p[order[k]] > p[i]
      {
        at := at - 1;
      }
      InsertKeepsOrder(p, order, i, at);
      order := order[..at] + [i] + order[at..];
      i := i + 1;
    }
  }

  /** The value at a rank, counted from 1. */
  function Ranked(p: seq<real>, order: seq<nat>, s: nat): real
    requires IsArgSort(p, order) && 1 <= s <= |p|
  {
    p[order[s - 1]]
  }

  lemma RankedRises(p: seq<real>, order: seq<nat>, r: nat, s: nat)
    requires IsArgSort(p, order) && 1 <= r <= s <= |p|
    ensures Ranked(p, order, r) <= Ranked(p, order, s)
  {
    if r < s { assert Precedes(p, order[r - 1], order[s - 1]); }
  }

  function Image(order: seq<nat>, k: nat): (s: set<nat>)
    requires k <= |order|
  {
    set i: nat | i < k :: order[i]
  }

  lemma {:induction false} ImageSize(p: seq<real>, order: seq<nat>, k: nat)
    requires Ordered(p, order) && k <= |order|
    ensures |Image(order, k)| == k
  {
    if k == 0 {
      assert Image(order, 0) == {};
    } else {
      ImageSize(p, order, k - 1);
      assert Image(order, k) == Image(order, k - 1) + {order[k - 1]};
      forall i: nat | i < k - 1 ensures order[i] != order[k - 1] { assert Precedes(p, order[i], order[k - 1]); }
    }
  }

  function Upto(n: nat): (s: set<nat>)
    ensures |s| == n && forall i: nat :: i in s <==> i < n
  {
    if n == 0 then {} else Upto(n - 1) + {n - 1}
  }

  lemma SubsetOfEqualSize(a: set<nat>, b: set<nat>)
    requires a <= b && |a| == |b|
    ensures a == b
  {
    assert b == a + (b - a);
  }

  /** Every index has a rank. */
  lemma RankOf(p: seq<real>, order: seq<nat>, i: nat) returns (r: nat)
    requires IsArgSort(p, order) && i < |p|
    ensures 1 <= r <= |p| && order[r - 1] == i
  {
    ImageSize(p, order, |p|);
    SubsetOfEqualSize(Image(order, |p|), Upto(|p|));
    assert i in Upto(|p|);
    var k: nat :| k < |p| && order[k] == i;
    r := k + 1;
  }

  // ---------------------------------------------------------------- counting

  function Le(t: real): real -> bool { x => x <= t }

  function Lt(t: real): real -> bool { x => x < t }

  function Where(p: seq<real>, f: real -> bool): (s: set<nat>) { set i: nat | i < |p| && f(p[i]) }

  /** How many values are at most `t`. */
  function Count(p: seq<real>, t: real): nat { |Where(p, Le(t))| }

  /** How many values are less than `t`. */
  function Below(p: seq<real>, t: real): nat { |Where(p, Lt(t))| }

  ghost predicate DownClosed(f: real -> bool) { forall x, y :: x <= y && f(y) ==> f(x) }

  /** The ranks whose value satisfies a downward closed test are a prefix, as long as the number of such values. */
  lemma CutAt(p: seq<real>, order: seq<nat>, f: real -> bool)
    requires IsArgSort(p, order) && DownClosed(f)
    ensures |Where(p, f)| <= |p|
    ensures forall s: nat :: 1 <= s <= |p| ==> (f(Ranked(p, order, s)) <==> s <= |Where(p, f)|)
  {
    var c: nat := 0;
    while c < |p| && f(Ranked(p, order, c + 1))
      invariant c <= |p|
      invariant forall s: nat :: 1 <= s <= c ==> f(Ranked(p, order, s))
    {
      c := c + 1;
    }
    forall s: nat | c < s <= |p| ensures !f(Ranked(p, order, s)) { RankedRises(p, order, c + 1, s); }
    forall i | i in Where(p, f) ensures i in Image(order, c) {
      var r := RankOf(p, order, i);
      assert f(Ranked(p, order, r));
    }
    forall i | i in Image(order, c) ensures i in Where(p, f) {
      var k: nat :| k < c && order[k] == i;
      assert f(Ranked(p, order, k + 1));
    }
    assert Where(p, f) == Image(order, c);
    ImageSize(p, order, c);
  }

  lemma CountCuts(p: seq<real>, order: seq<nat>, t: real)
    requires IsArgSort(p, order)
    ensures Count(p, t) <= |p|
    ensures forall s: nat :: 1 <= s <= |p| ==> (Ranked(p, order, s) <= t <==> s <= Count(p, t))
  {
    CutAt(p, order, Le(t));
    assert forall s: nat :: 1 <= s <= |p| ==> (Le(t)(Ranked(p, order, s)) <==> Ranked(p, order, s) <= t);
  }

  lemma BelowCuts(p: seq<real>, order: seq<nat>, t: real)
    requires IsArgSort(p, order)
    ensures Below(p, t) <= |p|
    ensures forall s: nat :: 1 <= s <= |p| ==> (Ranked(p, order, s) < t <==> s <= Below(p, t))
  {
    CutAt(p, order, Lt(t));
    assert forall s: nat :: 1 <= s <= |p| ==> (Lt(t)(Ranked(p, order, s)) <==> Ranked(p, order, s) < t);
  }

  lemma CountBounds(p: seq<real>, i: nat)
    requires i < |p|
    ensures Below(p, p[i]) < Count(p, p[i]) <= |p|
  {
    SubsetSize(Where(p, Le(p[i])), Upto(|p|));
    assert i in Where(p, Le(p[i]));
    SubsetSize(Where(p, Lt(p[i])), Where(p, Le(p[i])) - {i});
  }

  lemma SubsetSize(a: set<nat>, b: set<nat>)
    requires a <= b
    ensures |a| <= |b|
  {
    assert b == a + (b - a);
  }

  // ---------------------------------------------------------------- products and quotients

  function Times(v: real, m: int): real { v * m as real }

  /** `v n / s`. */
  function Share(v: real, n: nat, s: nat): real
    requires s > 0
  {
    Times(v, n) / s as real
  }

  lemma ShareIs(v: real, n: nat, s: nat)
    requires s > 0
    ensures Share(v, n, s) == v * n as real / s as real
  {
  }

  lemma TimesGrows(v: real, a: int, b: int)
    requires v >= 0.0 && a <= b
    ensures Times(v, a) <= Times(v, b)
  {
    assert v * (b - a) as real >= 0.0;
  }

  lemma TimesKeepsOrder(v: real, w: real, m: int)
    requires v <= w && m >= 0
    ensures Times(v, m) <= Times(w, m)
  {
  }

  lemma TimesReflectsOrder(v: real, w: real, m: int)
    requires m > 0 && Times(v, m) <= Times(w, m)
    ensures v <= w
  {
  }

  lemma TimesSign(v: real, m: int)
    requires m >= 0
    ensures v < 0.0 ==> Times(v, m) <= 0.0
    ensures v >= 0.0 ==> Times(v, m) >= 0.0
  {
  }

  lemma TimesTwice(v: real, a: int, b: int)
    ensures Times(Times(v, a), b) == Times(v, a * b)
  {
  }

  lemma ShareTimes(v: real, n: nat, s: nat)
    requires s > 0
    ensures Times(Share(v, n, s), s) == Times(v, n)
  {
    hide Times;
    var x := Times(v, n);
    assert x / s as real * s as real == x;
    assert Times(Share(v, n, s), s) == Share(v, n, s) * s as real by { TimesIs(Share(v, n, s), s); }
  }

  lemma TimesIs(v: real, m: int)
    ensures Times(v, m) == v * m as real
  {
  }

  lemma ShareFalls(v: real, n: nat, s: nat, c: nat)
    requires v >= 0.0 && 0 < s <= c
    ensures Share(v, n, c) <= Share(v, n, s)
  {
    hide Times, Share;
    ShareTimes(v, n, s);
    ShareTimes(v, n, c);
    ShareSign(v, n, s);
    TimesGrows(Share(v, n, s), s, c);
    TimesReflectsOrder(Share(v, n, c), Share(v, n, s), c);
  }

  lemma ShareSign(v: real, n: nat, s: nat)
    requires s > 0
    ensures v < 0.0 ==> Share(v, n, s) <= 0.0
    ensures v >= 0.0 ==> Share(v, n, s) >= 0.0
  {
    hide Times, Share;
    ShareTimes(v, n, s);
    TimesSign(v, n);
    assert Times(0.0, s) == 0.0 by { TimesIs(0.0, s); }
    if v < 0.0 { TimesReflectsOrder(Share(v, n, s), 0.0, s); } else { TimesReflectsOrder(0.0, Share(v, n, s), s); }
  }

  lemma ShareAtLeast(v: real, n: nat, c: nat)
    requires v >= 0.0 && 0 < c <= n
    ensures Share(v, n, c) >= v
  {
    hide Times, Share;
    ShareTimes(v, n, c);
    TimesGrows(v, c, n);
    TimesReflectsOrder(v, Share(v, n, c), c);
  }

  lemma SumBelowProduct(d: nat, e: nat)
    ensures d + e + 1 <= (d + 1) * (e + 1)
  {
    assert (d + 1) * (e + 1) == d * e + d + e + 1;
  }

  /** `n / c <= n - c + 1`. */
  lemma ShareBelowStep(v: real, n: nat, b: nat, c: nat)
    requires v >= 0.0 && b < c <= n
    ensures Share(v, n, c) <= Times(v, n - b)
  {
    hide Times, Share;
    SumBelowProduct(n - c, c - 1);
    TimesGrows(v, n, (n - c + 1) * c);
    TimesTwice(v, n - c + 1, c);
    ShareTimes(v, n, c);
    TimesReflectsOrder(Share(v, n, c), Times(v, n - c + 1), c);
    TimesGrows(v, n - c + 1, n - b);
  }

  lemma ShareBelow(v: real, n: nat, s: nat, alpha: real)
    requires n > 0 && s > 0
    ensures Share(v, n, s) <= alpha <==> v <= Share(alpha, s, n)
  {
    hide Times, Share;
    ShareTimes(v, n, s);
    ShareTimes(alpha, s, n);
    if Share(v, n, s) <= alpha {
      TimesKeepsOrder(Share(v, n, s), alpha, s);
      TimesReflectsOrder(v, Share(alpha, s, n), n);
    }
    if v <= Share(alpha, s, n) {
      TimesKeepsOrder(v, Share(alpha, s, n), n);
      TimesReflectsOrder(Share(v, n, s), alpha, s);
    }
  }

  // ---------------------------------------------------------------- definitions free of any order

  function Scaled(p: seq<real>, j: nat): real
    requires j < |p|
  {
    CountBounds(p, j);
    Share(p[j], |p|, Count(p, p[j]))
  }

  /** The least of 1 and of `p_j n / #{p <= p_j}` over the first `k` indices whose value is at least `t`. */
  function BHMin(p: seq<real>, t: real, k: nat): real
    requires k <= |p|
  {
    if k == 0 then 1.0
    else if p[k - 1] >= t then Min(BHMin(p, t, k - 1), Scaled(p, k - 1))
    else BHMin(p, t, k - 1)
  }

  /** The BH-adjusted value, defined without sorting. */
  function BHAdjusted(p: seq<real>, i: nat): real
    requires i < |p|
  {
    Clip(BHMin(p, p[i], |p|))
  }

  function Stepped(p: seq<real>, j: nat): real
    requires j < |p|
  {
    Times(p[j], |p| - Below(p, p[j]))
  }

  /** The greatest of 0 and of `p_j (n - #{p < p_j})` over the first `k` indices whose value is at most `t`. */
  function HolmMax(p: seq<real>, t: real, k: nat): real
    requires k <= |p|
  {
    if k == 0 then 0.0
    else if p[k - 1] <= t then Max(HolmMax(p, t, k - 1), Stepped(p, k - 1))
    else HolmMax(p, t, k - 1)
  }

  /** The Holm-adjusted value, defined without sorting. */
  function HolmAdjusted(p: seq<real>, i: nat): real
    requires i < |p|
  {
    Clip(HolmMax(p, p[i], |p|))
  }

  function BonferroniAdjusted(p: seq<real>, i: nat): real
    requires i < |p|
  {
    Clip(Times(p[i], |p|))
  }

  lemma {:induction false} BHMinBelow(p: seq<real>, t: real, k: nat, j: nat)
    requires j < k <= |p| && p[j] >= t
    ensures BHMin(p, t, k) <= Scaled(p, j)
  {
    if j < k - 1 { BHMinBelow(p, t, k - 1, j); }
  }

  lemma {:induction false} BHMinAttained(p: seq<real>, t: real, k: nat)
    requires k <= |p|
    ensures BHMin(p, t, k) <= 1.0
    ensures BHMin(p, t, k) == 1.0 || exists j: nat :: j < k && p[j] >= t && BHMin(p, t, k) == Scaled(p, j)
  {
    if k > 0 { BHMinAttained(p, t, k - 1); }
  }

  lemma {:induction false} HolmMaxAbove(p: seq<real>, t: real, k: nat, j: nat)
    requires j < k <= |p| && p[j] <= t
    ensures HolmMax(p, t, k) >= Stepped(p, j)
  {
    if j < k - 1 { HolmMaxAbove(p, t, k - 1, j); }
  }

  lemma {:induction false} HolmMaxAttained(p: seq<real>, t: real, k: nat)
    requires k <= |p|
    ensures HolmMax(p, t, k) >= 0.0
    ensures HolmMax(p, t, k) == 0.0 || exists j: nat :: j < k && p[j] <= t && HolmMax(p, t, k) == Stepped(p, j)
  {
    if k > 0 { HolmMaxAttained(p, t, k - 1); }
  }

  // ---------------------------------------------------------------- the running values

  /** `min(1, min over s >= r of p(s) n / s)`. */
  function StepMin(p: seq<real>, order: seq<nat>, r: nat): real
    requires IsArgSort(p, order) && 1 <= r <= |p| + 1
    decreases |p| - r + 1
  {
    if r > |p| then 1.0 else Min(StepMin(p, order, r + 1), Share(Ranked(p, order, r), |p|, r))
  }

  function HolmTerm(p: seq<real>, order: seq<nat>, s: nat): real
    requires IsArgSort(p, order) && 1 <= s <= |p|
  {
    Times(Ranked(p, order, s), |p| - s + 1)
  }

  /** `max(0, max over s <= r of p(s) (n - s + 1))`. */
  function StepMax(p: seq<real>, order: seq<nat>, r: nat): real
    requires IsArgSort(p, order) && r <= |p|
  {
    if r == 0 then 0.0 else Max(StepMax(p, order, r - 1), HolmTerm(p, order, r))
  }

  lemma {:induction false} StepMinIsLeast(p: seq<real>, order: seq<nat>, r: nat)
    requires IsArgSort(p, order) && 1 <= r <= |p| + 1
    ensures StepMin(p, order, r) <= 1.0
    ensures forall s: nat :: r <= s <= |p| ==> StepMin(p, order, r) <= Share(Ranked(p, order, s), |p|, s)
    ensures StepMin(p, order, r) == 1.0
            || exists s: nat :: r <= s <= |p| && StepMin(p, order, r) == Share(Ranked(p, order, s), |p|, s)
    decreases |p| - r + 1
  {
    hide Share;
    if r <= |p| { StepMinIsLeast(p, order, r + 1); }
  }

  lemma {:induction false} StepMaxIsGreatest(p: seq<real>, order: seq<nat>, r: nat)
    requires IsArgSort(p, order) && r <= |p|
    ensures StepMax(p, order, r) >= 0.0
    ensures forall s: nat :: 1 <= s <= r ==> StepMax(p, order, r) >= HolmTerm(p, order, s)
    ensures StepMax(p, order, r) == 0.0 || exists s: nat :: 1 <= s <= r && StepMax(p, order, r) == HolmTerm(p, order, s)
  {
    hide HolmTerm;
    if r > 0 {
      StepMaxIsGreatest(p, order, r - 1);
    }
  }

  /** The running minimum at a rank is the value defined without sorting. */
  lemma BHAtRank(p: seq<real>, order: seq<nat>, r: nat)
    requires IsArgSort(p, order) && 1 <= r <= |p|
    ensures Clip(StepMin(p, order, r)) == BHAdjusted(p, order[r - 1])
  {
    hide StepMin, BHMin, Share, Count;
    var t := Ranked(p, order, r);
    StepMinIsLeast(p, order, r);
    BHMinAttained(p, t, |p|);
    if StepMin(p, order, r) != 1.0 {
      var s: nat :| r <= s <= |p| && StepMin(p, order, r) == Share(Ranked(p, order, s), |p|, s);
      BHMinBelowStep(p, order, r, s);
    }
    if BHMin(p, t, |p|) != 1.0 {
      var j: nat :| j < |p| && p[j] >= t && BHMin(p, t, |p|) == Scaled(p, j);
      CountBounds(p, j);
      CountCuts(p, order, p[j]);
      var c := Count(p, p[j]);
      var rj := RankOf(p, order, j);
      assert Ranked(p, order, rj) == p[j];
      RankedRises(p, order, rj, c);
      assert Ranked(p, order, c) == p[j];
      assert r <= c;
    }
  }

  lemma BHMinBelowStep(p: seq<real>, order: seq<nat>, r: nat, s: nat)
    requires IsArgSort(p, order) && 1 <= r <= s <= |p|
    ensures Clip(BHMin(p, Ranked(p, order, r), |p|)) <= Clip(Share(Ranked(p, order, s), |p|, s))
  {
    hide StepMin, BHMin, Share, Count;
    var j := order[s - 1];
    RankedRises(p, order, r, s);
    BHMinBelow(p, Ranked(p, order, r), |p|, j);
    CountBounds(p, j);
    CountCuts(p, order, p[j]);
    if p[j] >= 0.0 {
      ShareFalls(p[j], |p|, s, Count(p, p[j]));
    } else {
      ShareSign(p[j], |p|, Count(p, p[j]));
    }
  }

  /** The running maximum at a rank is the value defined without sorting. */
  lemma HolmAtRank(p: seq<real>, order: seq<nat>, r: nat)
    requires IsArgSort(p, order) && 1 <= r <= |p|
    ensures StepMax(p, order, r) == HolmMax(p, Ranked(p, order, r), |p|)
  {
    hide StepMax, HolmMax, Below, Times;
    var t := Ranked(p, order, r);
    StepMaxIsGreatest(p, order, r);
    HolmMaxAttained(p, t, |p|);
    if StepMax(p, order, r) != 0.0 {
      var s: nat :| 1 <= s <= r && StepMax(p, order, r) == HolmTerm(p, order, s);
      var j := order[s - 1];
      RankedRises(p, order, s, r);
      HolmMaxAbove(p, t, |p|, j);
      BelowCuts(p, order, p[j]);
      assert Below(p, p[j]) < s;
      if p[j] >= 0.0 { TimesGrows(p[j], |p| - s + 1, |p| - Below(p, p[j])); } else { TimesSign(p[j], |p| - s + 1); }
    }
    if HolmMax(p, t, |p|) != 0.0 {
      var j: nat :| j < |p| && p[j] <= t && HolmMax(p, t, |p|) == Stepped(p, j);
      CountBounds(p, j);
      BelowCuts(p, order, p[j]);
      var b := Below(p, p[j]);
      var rj := RankOf(p, order, j);
      assert Ranked(p, order, rj) == p[j];
      RankedRises(p, order, b + 1, rj);
      assert Ranked(p, order, b + 1) == p[j];
      assert b + 1 <= r;
      assert HolmTerm(p, order, b + 1) == Stepped(p, j);
    }
  }

  // ---------------------------------------------------------------- the reference loops

  lemma OrderInjective(p: seq<real>, order: seq<nat>)
    requires IsArgSort(p, order)
    ensures forall k, l :: 0 <= k < l < |order| ==> order[k] != order[l]
  {
    forall k, l | 0 <= k < l < |order| ensures order[k] != order[l] { assert Precedes(p, order[k], order[l]); }
  }

  /** A value of at least 1 stays at 1, so overriding the missing entries by 1 changes nothing. */
  lemma OneStaysOne(p: seq<real>, i: nat)
    requires i < |p| && p[i] >= 1.0
    ensures BHAdjusted(p, i) == 1.0 && HolmAdjusted(p, i) == 1.0
  {
    hide BHMin, HolmMax, Count, Below, Share, Times;
    BHMinAttained(p, p[i], |p|);
    if BHMin(p, p[i], |p|) != 1.0 {
      var j: nat :| j < |p| && p[j] >= p[i] && BHMin(p, p[i], |p|) == Scaled(p, j);
      CountBounds(p, j);
      ShareAtLeast(p[j], |p|, Count(p, p[j]));
    }
    CountBounds(p, i);
    HolmMaxAbove(p, p[i], |p|, i);
    TimesGrows(p[i], 1, |p| - Below(p, p[i]));
    TimesIs(p[i], 1);
  }

  /** The running-minimum loop, clip and override. */
  method BHReference(p: seq<PValue>) returns (q: array<real>)
    ensures fresh(q) && q.Length == |p|
    ensures forall v: seq<real> :: Reads(p, v) ==> forall i: nat :: i < |p| ==> q[i] == BHAdjusted(v, i)
    ensures Reads(p, Cleaned(p))
    ensures forall i: nat :: i < |p| && p[i].NaN? ==> q[i] == 1.0
  {
    hide StepMin, BHMin, Share, Count;
    var n := |p|;
    var pc := Cleaned(p);
    forall v: seq<real> ensures Reads(p, v) <==> v == pc { CleanedReads(p, v); }
    var order := ArgSort(pc);
    OrderInjective(pc, order);
    q := new real[n];
    var prev := 1.0;
    assert prev == StepMin(pc, order, n + 1) by { StepMinIsLeast(pc, order, n + 1); }
    var rank := n;
    while rank > 0
      invariant rank <= n
      invariant prev == StepMin(pc, order, rank + 1)
      invariant forall r: nat :: rank < r <= n ==> q[order[r - 1]] == StepMin(pc, order, r)
    {
      var idx := order[rank - 1];
      var val := Share(pc[idx], n, rank);
      prev := Min(prev, val);
      StepMinAt(pc, order, rank);
      q[idx] := prev;
      rank := rank - 1;
    }
    forall i | 0 <= i < n { q[i] := Clip(q[i]); }
    forall i: nat | i < n ensures q[i] == BHAdjusted(pc, i) {
      var r := RankOf(pc, order, i);
      BHAtRank(pc, order, r);
    }
    forall i: nat | i < n && p[i].NaN? ensures BHAdjusted(pc, i) == 1.0 { OneStaysOne(pc, i); }
    forall i | 0 <= i < n && p[i].NaN? { q[i] := 1.0; }
  }

  lemma StepMinAt(p: seq<real>, order: seq<nat>, r: nat)
    requires IsArgSort(p, order) && 1 <= r <= |p|
    ensures StepMin(p, order, r) == Min(StepMin(p, order, r + 1), Share(p[order[r - 1]], |p|, r))
  {
    hide Share;
  }

  /** The running-maximum loop and clip; it has no override for missing entries and needs none. */
  method HolmReference(p: seq<PValue>) returns (q: array<real>)
    ensures fresh(q) && q.Length == |p|
    ensures forall v: seq<real> :: Reads(p, v) ==> forall i: nat :: i < |p| ==> q[i] == HolmAdjusted(v, i)
    ensures Reads(p, Cleaned(p))
    ensures forall i: nat :: i < |p| && p[i].NaN? ==> q[i] == 1.0
  {
    hide HolmMax, Below;
    var n := |p|;
    var pc := Cleaned(p);
    forall v: seq<real> ensures Reads(p, v) <==> v == pc { CleanedReads(p, v); }
    var order := ArgSort(pc);
    OrderInjective(pc, order);
    q := new real[n];
    var prev := 0.0;
    var rank := 1;
    while rank <= n
      invariant 1 <= rank <= n + 1
      invariant prev == StepMax(pc, order, rank - 1)
      invariant forall r: nat :: 1 <= r < rank ==> q[order[r - 1]] == StepMax(pc, order, r)
    {
      var idx := order[rank - 1];
      var val := Times(pc[idx], n - rank + 1);
      prev := Max(prev, val);
      q[idx] := prev;
      rank := rank + 1;
    }
    forall i | 0 <= i < n { q[i] := Clip(q[i]); }
    forall i: nat | i < n ensures q[i] == HolmAdjusted(pc, i) {
      var r := RankOf(pc, order, i);
      HolmAtRank(pc, order, r);
    }
    forall i: nat | i < n && p[i].NaN? ensures HolmAdjusted(pc, i) == 1.0 { OneStaysOne(pc, i); }
  }

  // ---------------------------------------------------------------- the procedures

  predicate UnderLine(p: seq<real>, order: seq<nat>, alpha: real, s: nat)
    requires IsArgSort(p, order) && 1 <= s <= |p|
  {
    Ranked(p, order, s) <= alpha * s as real / |p| as real
  }

  /** Benjamini and Hochberg's step-up: the largest rank with `p(s) <= alpha s / n`, 0 if there is none. */
  function StepUpCutoff(p: seq<real>, order: seq<nat>, alpha: real, k: nat): (c: nat)
    requires IsArgSort(p, order) && k <= |p|
    ensures c <= k
  {
    if k == 0 then 0
    else if UnderLine(p, order, alpha, k) then k
    else StepUpCutoff(p, order, alpha, k - 1)
  }

  lemma {:induction false} CutoffIsLargest(p: seq<real>, order: seq<nat>, alpha: real, k: nat, r: nat)
    requires IsArgSort(p, order) && 1 <= r <= |p| && k <= |p|
    ensures r <= StepUpCutoff(p, order, alpha, k) <==>
            exists s: nat :: r <= s <= k && UnderLine(p, order, alpha, s)
  {
    hide UnderLine;
    if k > 0 { CutoffIsLargest(p, order, alpha, k - 1, r); }
  }

  /** For a level below 1, the hypotheses with an adjusted value at most the level are exactly those the
      step-up procedure rejects. */
  lemma BHIsStepUp(p: seq<real>, order: seq<nat>, alpha: real, r: nat)
    requires IsArgSort(p, order) && 1 <= r <= |p| && 0.0 <= alpha < 1.0
    ensures BHAdjusted(p, order[r - 1]) <= alpha <==> r <= StepUpCutoff(p, order, alpha, |p|)
  {
    hide StepMin, BHMin, Share, Count, StepUpCutoff;
    BHAtRank(p, order, r);
    StepMinIsLeast(p, order, r);
    CutoffIsLargest(p, order, alpha, |p|, r);
    forall s: nat | r <= s <= |p|
      ensures Share(Ranked(p, order, s), |p|, s) <= alpha <==> UnderLine(p, order, alpha, s)
    {
      ShareBelow(Ranked(p, order, s), |p|, s, alpha);
      ShareIs(alpha, s, |p|);
    }
  }

  /** From level 1 on the clipped adjusted values reject everything; the step-up procedure does so exactly if the
      largest value is at most the level, and rejects less otherwise. */
  lemma BHAtLevelOne(p: seq<real>, order: seq<nat>, alpha: real)
    requires IsArgSort(p, order) && p != [] && alpha >= 1.0
    ensures forall i :: 0 <= i < |p| ==> BHAdjusted(p, i) <= alpha
    ensures StepUpCutoff(p, order, alpha, |p|) == |p| <==> Ranked(p, order, |p|) <= alpha
  {
    ShareOfAll(alpha, |p|);
  }

  lemma ShareOfAll(v: real, n: nat)
    requires n > 0
    ensures Share(v, n, n) == v
  {
    hide Times;
    TimesIs(v, n);
  }

  /** The hypothesis of rank `r` is rejected by its adjusted value exactly if the step-up procedure rejects it. */
  predicate SameVerdict(p: seq<real>, order: seq<nat>, alpha: real, r: nat)
    requires IsArgSort(p, order) && 1 <= r <= |p|
  {
    BHAdjusted(p, order[r - 1]) <= alpha <==> r <= StepUpCutoff(p, order, alpha, |p|)
  }

  /** At a level of at least 0, adjusted values and step-up reject the same exactly if the level is below 1 or no
      value exceeds it. */
  lemma BHIsStepUpIff(p: seq<real>, order: seq<nat>, alpha: real)
    requires IsArgSort(p, order) && p != [] && alpha >= 0.0
    ensures (forall r: nat :: 1 <= r <= |p| ==> SameVerdict(p, order, alpha, r))
            <==> alpha < 1.0 || Ranked(p, order, |p|) <= alpha
  {
    hide StepUpCutoff, BHAdjusted, Ranked;
    if alpha < 1.0 {
      forall r: nat | 1 <= r <= |p| ensures SameVerdict(p, order, alpha, r) { BHIsStepUp(p, order, alpha, r); }
    } else {
      BHAtLevelOne(p, order, alpha);
      assert SameVerdict(p, order, alpha, |p|) <==> StepUpCutoff(p, order, alpha, |p|) == |p|;
    }
  }

  /** So for p-values, or any values up to 1, adjusted values and step-up reject the same at every level. */
  lemma BHIsStepUpForPValues(p: seq<real>, order: seq<nat>, alpha: real, r: nat)
    requires IsArgSort(p, order) && 1 <= r <= |p| && alpha >= 0.0 && forall i :: 0 <= i < |p| ==> p[i] <= 1.0
    ensures SameVerdict(p, order, alpha, r)
  {
    hide SameVerdict;
    BHIsStepUpIff(p, order, alpha);
  }

  /** Holm's step-down: rank `r` is rejected when no rank up to it fails its own test. */
  lemma HolmIsStepDown(p: seq<real>, order: seq<nat>, alpha: real, r: nat)
    requires IsArgSort(p, order) && 1 <= r <= |p| && 0.0 <= alpha < 1.0
    ensures HolmAdjusted(p, order[r - 1]) <= alpha <==>
            forall s: nat :: 1 <= s <= r ==> Ranked(p, order, s) <= alpha / (|p| - s + 1) as real
  {
    hide StepMax, HolmMax, HolmTerm;
    HolmAtRank(p, order, r);
    StepMaxIsGreatest(p, order, r);
    forall s: nat | 1 <= s <= r
      ensures HolmTerm(p, order, s) <= alpha <==> Ranked(p, order, s) <= alpha / (|p| - s + 1) as real
    {
      HolmTermBelow(p, order, s, alpha);
    }
  }

  lemma HolmTermBelow(p: seq<real>, order: seq<nat>, s: nat, alpha: real)
    requires IsArgSort(p, order) && 1 <= s <= |p|
    ensures HolmTerm(p, order, s) <= alpha <==> Ranked(p, order, s) <= alpha / (|p| - s + 1) as real
  {
    hide IsArgSort;
    QuotientBelow(Ranked(p, order, s), |p| - s + 1, alpha);
  }

  lemma QuotientBelow(v: real, m: int, alpha: real)
    requires m > 0
    ensures v * m as real <= alpha <==> v <= alpha / m as real
  {
    var y := alpha / m as real;
    assert y * m as real == alpha;
    if v <= y { assert v * m as real <= y * m as real; } else { assert v * m as real > y * m as real; }
  }

  /** BH never exceeds Holm. */
  lemma BHBelowHolm(p: seq<real>, i: nat)
    requires i < |p|
    ensures BHAdjusted(p, i) <= HolmAdjusted(p, i)
  {
    hide BHMin, HolmMax, Count, Below, Share, Times;
    CountBounds(p, i);
    BHMinBelow(p, p[i], |p|, i);
    HolmMaxAbove(p, p[i], |p|, i);
    if p[i] < 0.0 {
      ShareSign(p[i], |p|, Count(p, p[i]));
    } else {
      ShareBelowStep(p[i], |p|, Below(p, p[i]), Count(p, p[i]));
    }
  }

  /** At a level below 1 Bonferroni rejects exactly the values up to the level divided by their number. */
  lemma BonferroniRejects(p: seq<real>, i: nat, alpha: real)
    requires i < |p| && alpha >= 0.0
    ensures BonferroniAdjusted(p, i) <= alpha <==> alpha >= 1.0 || p[i] <= alpha / |p| as real
  {
    QuotientBelow(p[i], |p|, alpha);
  }

  /** Holm never exceeds Bonferroni. */
  lemma HolmBelowBonferroni(p: seq<real>, i: nat)
    requires i < |p|
    ensures HolmAdjusted(p, i) <= BonferroniAdjusted(p, i)
  {
    hide HolmMax, Below, Times;
    HolmMaxAttained(p, p[i], |p|);
    if HolmMax(p, p[i], |p|) != 0.0 {
      var j: nat :| j < |p| && p[j] <= p[i] && HolmMax(p, p[i], |p|) == Stepped(p, j);
      CountBounds(p, j);
      if p[j] < 0.0 {
        TimesSign(p[j], |p| - Below(p, p[j]));
      } else {
        TimesGrows(p[j], |p| - Below(p, p[j]), |p|);
        TimesKeepsOrder(p[j], p[i], |p|);
      }
    }
  }

  // ---------------------------------------------------------------- permutations

  predicate Permutation(perm: seq<nat>) {
    && (forall i :: 0 <= i < |perm| ==> perm[i] < |perm|)
    && (forall i, j :: 0 <= i < j < |perm| ==> perm[i] != perm[j])
  }

  function Permuted(p: seq<real>, perm: seq<nat>): (r: seq<real>)
    requires |perm| == |p| && Permutation(perm)
  {
    seq(|p|, i requires 0 <= i < |p| => p[perm[i]])
  }

  function Mapped(s: set<nat>, perm: seq<nat>): (m: set<nat>)
    requires forall i :: i in s ==> i < |perm|
  {
    set i | i in s :: perm[i]
  }

  lemma {:induction false} MappedSize(s: set<nat>, perm: seq<nat>)
    requires Permutation(perm) && forall i :: i in s ==> i < |perm|
    ensures |Mapped(s, perm)| == |s|
  {
    if s != {} {
      var x :| x in s;
      MappedSize(s - {x}, perm);
      assert Mapped(s, perm) == Mapped(s - {x}, perm) + {perm[x]};
    }
  }

  lemma MappedInside(perm: seq<nat>)
    requires Permutation(perm)
    ensures Mapped(Upto(|perm|), perm) <= Upto(|perm|)
  {
    forall x | x in Mapped(Upto(|perm|), perm) ensures x in Upto(|perm|) {
      var i :| i in Upto(|perm|) && perm[i] == x;
    }
  }

  lemma Covers(perm: seq<nat>, j: nat) returns (i: nat)
    requires Permutation(perm) && j < |perm|
    ensures i < |perm| && perm[i] == j
  {
    hide Permutation, Upto;
    MappedSize(Upto(|perm|), perm);
    MappedInside(perm);
    SubsetOfEqualSize(Mapped(Upto(|perm|), perm), Upto(|perm|));
    assert j in Mapped(Upto(|perm|), perm);
    i :| i in Upto(|perm|) && perm[i] == j;
  }

  lemma WherePermuted(p: seq<real>, perm: seq<nat>, f: real -> bool)
    requires |perm| == |p| && Permutation(perm)
    ensures |Where(Permuted(p, perm), f)| == |Where(p, f)|
  {
    var there := Where(Permuted(p, perm), f);
    MappedSize(there, perm);
    forall j | j in Where(p, f) ensures j in Mapped(there, perm) {
      var i := Covers(perm, j);
      assert i in there;
    }
    assert Mapped(there, perm) == Where(p, f);
  }

  lemma ScaledPermuted(p: seq<real>, perm: seq<nat>, i: nat)
    requires |perm| == |p| && Permutation(perm) && i < |p|
    ensures Scaled(Permuted(p, perm), i) == Scaled(p, perm[i])
    ensures Stepped(Permuted(p, perm), i) == Stepped(p, perm[i])
  {
    WherePermuted(p, perm, Le(p[perm[i]]));
    WherePermuted(p, perm, Lt(p[perm[i]]));
  }

  /** Adjusting commutes with permuting the hypotheses. */
  lemma AdjustingCommutes(p: seq<real>, perm: seq<nat>, i: nat)
    requires |perm| == |p| && Permutation(perm) && i < |p|
    ensures BHAdjusted(Permuted(p, perm), i) == BHAdjusted(p, perm[i])
    ensures HolmAdjusted(Permuted(p, perm), i) == HolmAdjusted(p, perm[i])
  {
    BHCommutes(p, perm, p[perm[i]]);
    HolmCommutes(p, perm, p[perm[i]]);
  }

  lemma BHCommutes(p: seq<real>, perm: seq<nat>, t: real)
    requires |perm| == |p| && Permutation(perm)
    ensures BHMin(Permuted(p, perm), t, |p|) == BHMin(p, t, |p|)
  {
    hide BHMin, Scaled, Stepped;
    var p' := Permuted(p, perm);
    BHMinAttained(p, t, |p|);
    BHMinAttained(p', t, |p|);
    if BHMin(p', t, |p|) != 1.0 {
      var j: nat :| j < |p| && p'[j] >= t && BHMin(p', t, |p|) == Scaled(p', j);
      ScaledPermuted(p, perm, j);
      BHMinBelow(p, t, |p|, perm[j]);
    }
    if BHMin(p, t, |p|) != 1.0 {
      var j: nat :| j < |p| && p[j] >= t && BHMin(p, t, |p|) == Scaled(p, j);
      var i := Covers(perm, j);
      ScaledPermuted(p, perm, i);
      BHMinBelow(p', t, |p|, i);
    }
  }

  lemma HolmCommutes(p: seq<real>, perm: seq<nat>, t: real)
    requires |perm| == |p| && Permutation(perm)
    ensures HolmMax(Permuted(p, perm), t, |p|) == HolmMax(p, t, |p|)
  {
    hide HolmMax, Scaled, Stepped;
    var p' := Permuted(p, perm);
    HolmMaxAttained(p, t, |p|);
    HolmMaxAttained(p', t, |p|);
    if HolmMax(p', t, |p|) != 0.0 {
      var j: nat :| j < |p| && p'[j] <= t && HolmMax(p', t, |p|) == Stepped(p', j);
      ScaledPermuted(p, perm, j);
      HolmMaxAbove(p, t, |p|, perm[j]);
    }
    if HolmMax(p, t, |p|) != 0.0 {
      var j: nat :| j < |p| && p[j] <= t && HolmMax(p, t, |p|) == Stepped(p, j);
      var i := Covers(perm, j);
      ScaledPermuted(p, perm, i);
      HolmMaxAbove(p', t, |p|, i);
    }
  }
}
