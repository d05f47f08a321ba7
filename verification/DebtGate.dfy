/** The debt ratchet: counts per path, the gate against a baseline, and what the gate guarantees over a
    history of re-baselines. */
module DebtGate {
  import opened Wrappers

  type Path = string

  /** The rules counted per path. */
  datatype Rule = FrontendAny | ExceptSilent | AssertlessTests | UnannotatedDefs

  const RULES: set<Rule> := {FrontendAny, ExceptSilent, AssertlessTests, UnannotatedDefs}
  const GOD_MODULE_SLACK: int := 50

  type Counts = map<Path, nat>

  /** A baseline entry: a total in the old format, counts per path in the new one. */
  datatype Entry = Total(n: int) | PerPath(counts: Counts)

  datatype Baseline = Baseline(isV2: bool, entries: map<Rule, Entry>, pct: Option<real>, dictAny: Option<int>,
                               gods: map<Path, int>)

  datatype Measurement = Measurement(counts: map<Rule, Counts>, pct: real, dictAny: int, gods: map<Path, int>)

  predicate Complete(m: Measurement) { forall r :: r in RULES ==> r in m.counts }

  datatype Failure =
    | MissingRule(rule: Rule)
    | PathOver(rule: Rule, path: Path)
    | TotalOver(rule: Rule)
    | MissingPct
    | PctOver
    | MissingDictAny
    | DictAnyOver
    | NewGod(path: Path)
    | GodGrew(path: Path)

  // ---------------------------------------------------------------- totals

  ghost function Sum(m: Counts): nat
    decreases |m|
  {
    if m == map[] then 0 else
      var k :| k in m;
      m[k] + Sum(m - {k})
  }

  lemma {:induction false} SumWithout(m: Counts, k: Path)
    requires k in m
    ensures Sum(m) == m[k] + Sum(m - {k})
    decreases |m|
  {
    var j :| j in m && Sum(m) == m[j] + Sum(m - {j});
    if j != k {
      SumWithout(m - {j}, k);
      SumWithout(m - {k}, j);
      assert m - {j} - {k} == m - {k} - {j};
    }
  }

  lemma SumWith(m: Counts, k: Path, n: nat)
    ensures Sum(m[k := n]) == n + Sum(m - {k})
  {
    SumWithout(m[k := n], k);
    assert m[k := n] - {k} == m - {k};
  }

  method TotalOf(m: Counts) returns (total: nat)
    ensures total == Sum(m)
  {
    total := 0;
    var rest := m;
    while rest != map[]
      invariant total + Sum(rest) == Sum(m)
      decreases |rest|
    {
      var k :| k in rest;
      SumWithout(rest, k);
      total := total + rest[k];
      rest := rest - {k};
    }
  }

  /** The count a baseline has for a path. */
  function At(m: Counts, p: Path): nat { if p in m then m[p] else 0 }

  predicate PathwiseAtMost(cur: Counts, base: Counts) { forall p :: p in cur ==> cur[p] <= At(base, p) }

  /** Path-wise passing implies the total check. */
  lemma {:induction false} PathwiseBoundsTotal(cur: Counts, base: Counts)
    requires PathwiseAtMost(cur, base)
    ensures Sum(cur) <= Sum(base)
    decreases |cur|
  {
    if cur != map[] {
      var k :| k in cur && Sum(cur) == cur[k] + Sum(cur - {k});
      if k in base {
        SumWithout(base, k);
        PathwiseBoundsTotal(cur - {k}, base - {k});
      } else {
        PathwiseBoundsTotal(cur - {k}, base);
      }
    }
  }

  // ---------------------------------------------------------------- counting

  function Occurrences(paths: seq<Path>, p: Path): nat {
    if paths == [] then 0 else Occurrences(paths[..|paths| - 1], p) + if paths[|paths| - 1] == p then 1 else 0
  }

  lemma OccurrencesNext(paths: seq<Path>, i: nat, p: Path)
    requires i < |paths|
    ensures Occurrences(paths[..i + 1], p) == Occurrences(paths[..i], p) + if paths[i] == p then 1 else 0
    ensures p in paths[..i + 1] <==> p in paths[..i] || p == paths[i]
  {
    assert paths[..i + 1][..i] == paths[..i] && paths[..i + 1][i] == paths[i];
  }

  /** Counting one more raises the sum by one. */
  lemma SumCountsUp(m: Counts, p: Path)
    ensures Sum(m[p := At(m, p) + 1]) == Sum(m) + 1
  {
    SumWith(m, p, At(m, p) + 1);
    if p in m { SumWithout(m, p); } else { assert m - {p} == m; }
  }

  /** `counts` counts `paths`: no item is lost or counted twice. */
  ghost predicate Tallies(counts: Counts, paths: seq<Path>) {
    && (forall p :: At(counts, p) == Occurrences(paths, p))
    && (forall p :: p in counts <==> p in paths)
    && Sum(counts) == |paths|
  }

  lemma TallyNext(counts: Counts, paths: seq<Path>, i: nat)
    requires i < |paths| && Tallies(counts, paths[..i])
    ensures Tallies(counts[paths[i] := At(counts, paths[i]) + 1], paths[..i + 1])
  {
    hide Occurrences, Sum;
    SumCountsUp(counts, paths[i]);
    var next := counts[paths[i] := At(counts, paths[i]) + 1];
    forall p ensures At(next, p) == Occurrences(paths[..i + 1], p) && (p in next <==> p in paths[..i + 1]) {
      OccurrencesNext(paths, i, p);
    }
  }

  /** `_count_by_path` over the paths of the collected items. */
  method CountByPath(paths: seq<Path>) returns (counts: Counts)
    ensures Tallies(counts, paths)
  {
    counts := map[];
    assert Tallies(counts, paths[..0]);
    hide Tallies;
    var i := 0;
    while i < |paths|
      invariant i <= |paths| && Tallies(counts, paths[..i])
    {
      TallyNext(counts, paths, i);
      counts := counts[paths[i] := At(counts, paths[i]) + 1];
      i := i + 1;
    }
    assert paths[..i] == paths;
  }

  // ---------------------------------------------------------------- the gate

  /** What the gate reports. */
  ghost predicate Reported(b: Baseline, m: Measurement, f: Failure)
    requires Complete(m)
  {
    match f
    case MissingRule(r) => b.isV2 && r in RULES && r !in b.entries
    case PathOver(r, p) =>
      r in RULES && r in b.entries && b.entries[r].PerPath? && p in m.counts[r]
        && m.counts[r][p] > At(b.entries[r].counts, p)
    case TotalOver(r) =>
      r in RULES && r in b.entries
        && Sum(m.counts[r]) > (match b.entries[r] case Total(n) => n case PerPath(c) => Sum(c))
    case MissingPct => b.isV2 && b.pct.None?
    case PctOver => b.pct.Some? && m.pct > b.pct.value
    case MissingDictAny => b.isV2 && b.dictAny.None?
    case DictAnyOver => b.dictAny.Some? && m.dictAny > b.dictAny.value
    case NewGod(p) => p in m.gods && p !in b.gods
    case GodGrew(p) => p in m.gods && p in b.gods && m.gods[p] > b.gods[p] + GOD_MODULE_SLACK
  }

  predicate OfRule(f: Failure, r: Rule) { (f.MissingRule? || f.PathOver? || f.TotalOver?) && f.rule == r }

  predicate AboutCounts(f: Failure) { f.MissingRule? || f.PathOver? || f.TotalOver? }

  /** One rule of the count loop. */
  method CheckRule(b: Baseline, m: Measurement, r: Rule) returns (failures: seq<Failure>)
    requires Complete(m) && r in RULES
    ensures forall f :: f in failures <==> OfRule(f, r) && Reported(b, m, f)
  {
    failures := [];
    if r !in b.entries {
      if b.isV2 {
        failures := [MissingRule(r)];
      }
      return;
    }
    var cur := m.counts[r];
    var curTotal := TotalOf(cur);
    var entry := b.entries[r];
    if entry.Total? {
      if curTotal > entry.n {
        failures := [TotalOver(r)];
      }
      return;
    }
    var baseTotal := TotalOf(entry.counts);
    var rest := cur.Keys;
    while rest != {}
      invariant rest <= cur.Keys
      invariant forall f :: f in failures <==>
        f.PathOver? && f.rule == r && f.path in cur.Keys - rest && cur[f.path] > At(entry.counts, f.path)
      decreases |rest|
    {
      var path :| path in rest;
      if cur[path] > At(entry.counts, path) {
        failures := failures + [PathOver(r, path)];
      }
      rest := rest - {path};
    }
    if curTotal > baseTotal {
      failures := failures + [TotalOver(r)];
    }
  }

  /** The count loop over all rules. */
  method CheckCounts(b: Baseline, m: Measurement) returns (failures: seq<Failure>)
    requires Complete(m)
    ensures forall f :: f in failures <==> AboutCounts(f) && Reported(b, m, f)
  {
    hide Reported, Sum;
    failures := [];
    var rules := RULES;
    while rules != {}
      invariant rules <= RULES
      invariant forall f :: f in failures <==> AboutCounts(f) && f.rule in RULES - rules && Reported(b, m, f)
      decreases |rules|
    {
      var r :| r in rules;
      var found := CheckRule(b, m, r);
      failures := failures + found;
      rules := rules - {r};
    }
    forall f | AboutCounts(f) && Reported(b, m, f) ensures f.rule in RULES { ReportedRule(b, m, f); }
  }

  lemma ReportedRule(b: Baseline, m: Measurement, f: Failure)
    requires Complete(m) && AboutCounts(f) && Reported(b, m, f)
    ensures f.rule in RULES
  {
  }

  predicate AboutScalars(f: Failure) { f.MissingPct? || f.PctOver? || f.MissingDictAny? || f.DictAnyOver? }

  /** The percentage and the dict count. */
  method CheckScalars(b: Baseline, m: Measurement) returns (failures: seq<Failure>)
    requires Complete(m)
    ensures forall f :: f in failures <==> AboutScalars(f) && Reported(b, m, f)
  {
    hide Sum;
    failures := [];
    if b.pct.None? {
      if b.isV2 { failures := failures + [MissingPct]; }
    } else if m.pct > b.pct.value {
      failures := failures + [PctOver];
    }
    if b.dictAny.None? {
      if b.isV2 { failures := failures + [MissingDictAny]; }
    } else if m.dictAny > b.dictAny.value {
      failures := failures + [DictAnyOver];
    }
  }

  ghost predicate GodReported(b: Baseline, gods: map<Path, int>, f: Failure) {
    || (f.NewGod? && f.path in gods && f.path !in b.gods)
    || (f.GodGrew? && f.path in gods && f.path in b.gods && gods[f.path] > b.gods[f.path] + GOD_MODULE_SLACK)
  }

  /** The loop over the god modules. */
  method CheckGods(b: Baseline, gods: map<Path, int>) returns (failures: seq<Failure>)
    ensures forall f :: f in failures <==> GodReported(b, gods, f)
  {
    failures := [];
    var rest := gods.Keys;
    while rest != {}
      invariant rest <= gods.Keys
      invariant forall f :: f in failures <==> GodReported(b, gods, f) && f.path in gods.Keys - rest
      decreases |rest|
    {
      var path :| path in rest;
      if path !in b.gods {
        failures := failures + [NewGod(path)];
      } else if gods[path] > b.gods[path] + GOD_MODULE_SLACK {
        failures := failures + [GodGrew(path)];
      }
      rest := rest - {path};
    }
  }

  /** `_gate_failures`: exactly the reported failures. */
  method GateFailures(b: Baseline, m: Measurement) returns (failures: seq<Failure>)
    requires Complete(m)
    ensures forall f :: f in failures <==> Reported(b, m, f)
  {
    hide Sum;
    var counts := CheckCounts(b, m);
    var scalars := CheckScalars(b, m);
    var gods := CheckGods(b, m.gods);
    failures := counts + scalars + gods;
    forall f ensures f in failures <==> Reported(b, m, f) { GateCase(b, m, f); }
  }

  lemma GateCase(b: Baseline, m: Measurement, f: Failure)
    requires Complete(m)
    ensures Reported(b, m, f) <==>
      (AboutCounts(f) && Reported(b, m, f)) || (AboutScalars(f) && Reported(b, m, f)) || GodReported(b, m.gods, f)
  {
    hide Sum;
  }

  ghost predicate Passes(b: Baseline, m: Measurement)
    requires Complete(m)
  {
    forall f :: !Reported(b, m, f)
  }

  // ---------------------------------------------------------------- histories

  /** The `baseline` command writes the current measurement. */
  function AsBaseline(m: Measurement): Baseline {
    Baseline(true, map r | r in m.counts :: PerPath(m.counts[r]), Some(m.pct), Some(m.dictAny), m.gods)
  }

  /** What a pass against a written baseline says, one step. */
  ghost predicate AtMost(m: Measurement, base: Measurement, steps: nat) {
    && (forall r :: r in RULES ==> r in m.counts && r in base.counts && PathwiseAtMost(m.counts[r], base.counts[r])
                                   && Sum(m.counts[r]) <= Sum(base.counts[r]))
    && m.pct <= base.pct && m.dictAny <= base.dictAny
    && (forall p :: p in m.gods ==> p in base.gods && m.gods[p] <= base.gods[p] + 50 * steps)
  }

  /** The new format demands every key. */
  predicate NothingMissing(b: Baseline) {
    b.isV2 ==> RULES <= b.entries.Keys && b.pct.Some? && b.dictAny.Some?
  }

  /** What a baseline allows a rule: a total, or a count for every path; the sum over the paths then follows. */
  ghost predicate Allows(entry: Entry, cur: Counts) {
    match entry case Total(n) => Sum(cur) <= n case PerPath(counts) => PathwiseAtMost(cur, counts)
  }

  /** Whether the gate is silent, for a baseline of either format. */
  lemma PassIff(b: Baseline, m: Measurement)
    requires Complete(m)
    ensures Passes(b, m) <==>
      && NothingMissing(b)
      && (forall r :: r in RULES && r in b.entries ==> Allows(b.entries[r], m.counts[r]))
      && (b.pct.Some? ==> m.pct <= b.pct.value) && (b.dictAny.Some? ==> m.dictAny <= b.dictAny.value)
      && (forall p :: p in m.gods ==> p in b.gods && m.gods[p] <= b.gods[p] + 50)
  {
    hide Sum;
    if Passes(b, m) {
      assert !Reported(b, m, MissingPct) && !Reported(b, m, MissingDictAny);
      assert !Reported(b, m, PctOver) && !Reported(b, m, DictAnyOver);
      forall r | r in RULES && b.isV2 ensures r in b.entries { assert !Reported(b, m, MissingRule(r)); }
      forall r | r in RULES && r in b.entries ensures Allows(b.entries[r], m.counts[r]) {
        assert !Reported(b, m, TotalOver(r));
        if b.entries[r].PerPath? {
          forall p | p in m.counts[r] ensures m.counts[r][p] <= At(b.entries[r].counts, p) {
            assert !Reported(b, m, PathOver(r, p));
          }
        }
      }
      forall p | p in m.gods ensures p in b.gods && m.gods[p] <= b.gods[p] + 50 {
        assert !Reported(b, m, NewGod(p)) && !Reported(b, m, GodGrew(p));
      }
    }
    forall f | Reported(b, m, f)
      ensures !NothingMissing(b) || (AboutCounts(f) && !Allows(b.entries[f.rule], m.counts[f.rule])) || f.PctOver?
              || f.DictAnyOver? || (f.NewGod? && f.path in m.gods && f.path !in b.gods)
              || (f.GodGrew? && f.path in m.gods && f.path in b.gods && m.gods[f.path] > b.gods[f.path] + 50)
    {
      if AboutCounts(f) && !f.MissingRule? && b.entries[f.rule].PerPath?
         && PathwiseAtMost(m.counts[f.rule], b.entries[f.rule].counts) {
        PathwiseBoundsTotal(m.counts[f.rule], b.entries[f.rule].counts);
      }
    }
  }

  lemma PassIsAtMost(m: Measurement, base: Measurement)
    requires Complete(m) && Complete(base)
    ensures Passes(AsBaseline(base), m) <==> AtMost(m, base, 1)
  {
    hide Sum, Passes;
    var b := AsBaseline(base);
    PassIff(b, m);
    forall r | r in RULES
      ensures r in b.entries && b.entries[r] == PerPath(base.counts[r])
              && (PathwiseAtMost(m.counts[r], base.counts[r]) ==> Sum(m.counts[r]) <= Sum(base.counts[r]))
    {
      if PathwiseAtMost(m.counts[r], base.counts[r]) { PathwiseBoundsTotal(m.counts[r], base.counts[r]); }
    }
  }

  /** Every measurement passed the gate of the one before it. */
  ghost predicate Ratchet(ms: seq<Measurement>) {
    && (forall i :: 0 <= i < |ms| ==> Complete(ms[i]))
    && (forall i :: 0 <= i < |ms| - 1 ==> Passes(AsBaseline(ms[i]), ms[i + 1]))
  }

  lemma AtMostTrans(m: Measurement, mid: Measurement, base: Measurement, steps: nat)
    requires AtMost(m, mid, 1) && AtMost(mid, base, steps)
    ensures AtMost(m, base, steps + 1)
  {
    forall r | r in RULES ensures PathwiseAtMost(m.counts[r], base.counts[r]) {
      forall p | p in m.counts[r] ensures m.counts[r][p] <= At(base.counts[r], p) {
        assert m.counts[r][p] <= At(mid.counts[r], p);
        assert p in mid.counts[r] ==> mid.counts[r][p] <= At(base.counts[r], p);
      }
    }
  }

  /** The ratchet only tightens: after `k` re-baselines every path count, total, percentage and dict count is at
      most the first one, no new god module has appeared, and each has grown by at most 50 lines per step. */
  lemma {:induction false} RatchetOnlyTightens(ms: seq<Measurement>, k: nat)
    requires Ratchet(ms) && k < |ms|
    ensures AtMost(ms[k], ms[0], k)
  {
    if k > 0 {
      RatchetOnlyTightens(ms, k - 1);
      assert Passes(AsBaseline(ms[k - 1]), ms[k - 1 + 1]);
      PassIsAtMost(ms[k], ms[k - 1]);
      AtMostTrans(ms[k], ms[k - 1], ms[0], k - 1);
    }
  }

  /** The slack compounds: god modules may grow by 50 lines with every re-baseline. */
  lemma SlackCompounds(p: Path, lines: int, k: nat)
    ensures var m := (n: nat) => Measurement(map r | r in RULES :: map[], 0.0, 0,
        map[p := lines + 50 * n]);
      Complete(m(k)) && Complete(m(k + 1)) && Passes(AsBaseline(m(k)), m(k + 1))
  {
    var m := (n: nat) => Measurement(map r | r in RULES :: map[], 0.0, 0, map[p := lines + 50 * n]);
    PassIsAtMost(m(k + 1), m(k));
  }

  // ---------------------------------------------------------------- the old format

  /** The same baseline with every map summed to a total. */
  ghost function Summed(b: Baseline): Baseline {
    b.(isV2 := false,
       entries := map r | r in b.entries ::
         if b.entries[r].PerPath? then Total(Sum(b.entries[r].counts)) else b.entries[r])
  }

  /** Passing per path implies passing with the totals alone. */
  lemma V2PassImpliesV1Pass(b: Baseline, m: Measurement)
    requires Complete(m) && Passes(b, m)
    ensures Passes(Summed(b), m)
  {
    forall f ensures !Reported(Summed(b), m, f) {
      if f.TotalOver? { assert !Reported(b, m, TotalOver(f.rule)); }
      else if !f.PathOver? { assert !Reported(b, m, f); }
    }
  }

  /** What a pass of the totals leaves open: a measurement that passes the totals passes the baseline itself exactly
      if no key is missing and no path is over its own count. */
  lemma V2PassIff(b: Baseline, m: Measurement)
    requires Complete(m) && Passes(Summed(b), m)
    ensures Passes(b, m) <==>
      && NothingMissing(b)
      && forall r :: r in RULES && r in b.entries && b.entries[r].PerPath? ==>
           PathwiseAtMost(m.counts[r], b.entries[r].counts)
  {
    hide Sum;
    if Passes(b, m) {
      assert !Reported(b, m, MissingPct) && !Reported(b, m, MissingDictAny);
      forall r | r in RULES && b.isV2 ensures r in b.entries { assert !Reported(b, m, MissingRule(r)); }
      forall r, p | r in RULES && r in b.entries && b.entries[r].PerPath? && p in m.counts[r]
        ensures m.counts[r][p] <= At(b.entries[r].counts, p)
      {
        assert !Reported(b, m, PathOver(r, p));
      }
    }
    forall f | Reported(b, m, f)
      ensures !NothingMissing(b) || (f.PathOver? && !PathwiseAtMost(m.counts[f.rule], b.entries[f.rule].counts))
    {
      assert !Reported(Summed(b), m, f);
    }
  }

  /** And it is left open: under one rule a unit of debt may move from any path to any other. */
  lemma V1PassHidesMoves(rule: Rule, p: Path, q: Path) returns (b: Baseline, m: Measurement)
    requires p != q
    ensures Complete(m) && b.isV2 && NothingMissing(b) && Passes(Summed(b), m) && !Passes(b, m)
    ensures rule in b.entries && b.entries[rule] == PerPath(map[p := 1]) && m.counts[rule] == map[q := 1]
  {
    b := Baseline(true, map r | r in RULES :: PerPath(map[p := 1]), Some(0.0), Some(0), map[]);
    m := Measurement(map r | r in RULES :: if r == rule then map[q := 1] else map[p := 1], 0.0, 0, map[]);
    SumWithout(map[p := 1], p);
    SumWithout(map[q := 1], q);
    assert map[p := 1] - {p} == map[] && map[q := 1] - {q} == map[];
    forall r | r in RULES ensures Sum(m.counts[r]) == 1 && Summed(b).entries[r] == Total(1) {}
    assert Reported(b, m, PathOver(rule, q));
  }
}
