/** The abort-source ledger: who ordered the stop of which turn.
    app/agent_pi_bridge.py keeps it as a bounded ordered dictionary from turn id to source. */
module AbortLedger {
  import opened OrderedDictionary
  import opened Wrappers

  /** The source words; only the first three are terminal causes. */
  datatype Source = User | System | Policy | Cleanup

  predicate Terminal(s: Source) { s != Cleanup }

  const CAPACITY: nat := 64

  /** Insertion order, oldest first; re-recording a turn keeps its place. */
  type Ledger<T> = Dict<T, Source>

  function Newest<T>(l: Ledger<T>): Ledger<T> {
    if |l| <= CAPACITY then l else l[|l| - CAPACITY..]
  }

  function Record<T(==)>(l: Ledger<T>, t: T, s: Source): Ledger<T> {
    if Terminal(s) then Newest(Put(l, t, s)) else l
  }

  // ---------------------------------------------------------------- runs

  datatype Op<T> = Rec(turn: T, source: Source) | Pop(turn: T)

  function Step<T(==)>(l: Ledger<T>, op: Op<T>): Ledger<T> {
    match op
    case Rec(t, s) => Record(l, t, s)
    case Pop(t) => Remove(l, t)
  }

  function Run<T(==)>(l: Ledger<T>, ops: seq<Op<T>>): Ledger<T>
    decreases |ops|
  {
    if ops == [] then l else Run(Step(l, ops[0]), ops[1..])
  }

  ghost predicate Healthy<T>(l: Ledger<T>) { Distinct(l) && |l| <= CAPACITY }

  /** How many recordings in the run insert a turn that was not in the ledger. */
  function FreshInserts<T(==)>(l: Ledger<T>, ops: seq<Op<T>>): nat
    decreases |ops|
  {
    if ops == [] then 0 else
      (if ops[0].Rec? && Terminal(ops[0].source) && !Has(l, ops[0].turn) then 1 else 0)
      + FreshInserts(Step(l, ops[0]), ops[1..])
  }

  /** The last terminal source recorded for `t` in the run, `s` when there is none. */
  function LatestSource<T(==)>(ops: seq<Op<T>>, t: T, s: Source): Source {
    if ops == [] then s else
      LatestSource(ops[1..], t, if ops[0].Rec? && ops[0].turn == t && Terminal(ops[0].source) then ops[0].source else s)
  }

  lemma StepHealthy<T>(l: Ledger<T>, op: Op<T>)
    requires Healthy(l)
    ensures Healthy(Step(l, op))
  {
    match op
    case Rec(t, s) =>
      var p := Put(l, t, s);
      assert Distinct(p) by {
        var k := Find(l, t);
        forall i, j | 0 <= i < j < |p| ensures p[i].0 != p[j].0 {
          if k == |l| && j == |l| { assert l[i].0 != t; }
        }
      }
    case Pop(t) =>
  }

  /** Size stays within the cap, keys stay distinct, and a cleanup abort is never stored. */
  lemma {:induction false} RunHealthy<T>(l: Ledger<T>, ops: seq<Op<T>>)
    requires Healthy(l) && forall e :: e in l ==> Terminal(e.1)
    ensures Healthy(Run(l, ops)) && forall e :: e in Run(l, ops) ==> Terminal(e.1)
    decreases |ops|
  {
    if ops != [] {
      StepHealthy(l, ops[0]);
      RunHealthy(Step(l, ops[0]), ops[1..]);
    }
  }

  /** One step on an entry that is not popped: at most the fresh insertion joins the entries behind it,
      and it leaves only when 64 entries are behind it. */
  lemma StepKeeps<T>(l: Ledger<T>, op: Op<T>, t: T, i: nat) returns (i': nat)
    requires Healthy(l) && i < |l| && l[i].0 == t && op != Pop(t)
    requires |l| - 1 - i + FreshInserts(l, [op]) < CAPACITY
    ensures var l' := Step(l, op);
            && i' < |l'| && l'[i'].0 == t
            && |l'| - 1 - i' <= |l| - 1 - i + FreshInserts(l, [op])
            && l'[i'].1 == LatestSource([op], t, l[i].1)
  {
    var l' := Step(l, op);
    i' := i;
    match op
    case Rec(u, s) =>
      if Terminal(s) {
        var k := Find(l, u);
        if k == i { } else if k < |l| { } else {
          if |l| == CAPACITY { i' := i - 1; }
        }
      }
    case Pop(u) =>
      var k := Find(l, u);
      if k < i { i' := i - 1; }
  }

  /** An entry survives a run that never pops it, unless the entries behind it plus the turns newly
      inserted meanwhile reach 64; its source is then the last terminal one recorded for it. */
  lemma {:induction false} SurvivesAt<T>(l: Ledger<T>, ops: seq<Op<T>>, t: T, i: nat)
    requires Healthy(l) && i < |l| && l[i].0 == t && Pop(t) !in ops
    requires |l| - 1 - i + FreshInserts(l, ops) < 64
    ensures Lookup(Run(l, ops), t) == Some(LatestSource(ops, t, l[i].1))
    decreases |ops|
  {
    if ops == [] {
      FindUnique(l, t, i);
    } else {
      var op := ops[0];
      assert [op][1..] == [];
      assert op in ops;
      var i' := StepKeeps(l, op, t, i);
      StepHealthy(l, op);
      var l' := Step(l, op);
      SurvivesAt(l', ops[1..], t, i');
    }
  }

  /** From the moment a turn is newly recorded: it stays until consumed unless at least 64 other
      turns are newly inserted after it, and the latest source wins. */
  lemma RecordedUntilConsumed<T>(l: Ledger<T>, ops: seq<Op<T>>, t: T, s: Source)
    requires Healthy(l) && !Has(l, t) && Terminal(s) && Pop(t) !in ops
    requires FreshInserts(Record(l, t, s), ops) < 64
    ensures Lookup(Run(l, [Rec(t, s)] + ops), t) == Some(LatestSource(ops, t, s))
  {
    var l' := Record(l, t, s);
    StepHealthy(l, Rec(t, s));
    assert Find(l, t) == |l|;
    assert l'[|l'| - 1] == (t, s);
    SurvivesAt(l', ops, t, |l'| - 1);
    assert ([Rec(t, s)] + ops)[1..] == ops;
  }

  /** The bound is tight: 64 other fresh turns push the entry out. */
  lemma {:induction false} EvictedBy64<T>(l: Ledger<T>, ops: seq<Op<T>>, t: T, i: nat)
    requires Healthy(l) && |l| == 64 && i < |l| && l[i].0 == t
    requires |ops| == i + 1 && forall j :: 0 <= j < |ops| ==> ops[j].Rec? && Terminal(ops[j].source)
    requires forall j :: 0 <= j < |ops| ==> !Has(l, ops[j].turn)
    requires forall j, k :: 0 <= j < k < |ops| ==> ops[j].turn != ops[k].turn
    ensures !Has(Run(l, ops), t)
    decreases |ops|
  {
    var u, s := ops[0].turn, ops[0].source;
    var l' := Step(l, ops[0]);
    assert Find(l, u) == |l|;
    assert l' == l[1..] + [(u, s)];
    StepHealthy(l, ops[0]);
    if i == 0 {
      assert ops[1..] == [];
      forall j | 0 <= j < |l'| ensures l'[j].0 != t {
        assert j < |l| - 1 ==> l'[j] == l[j + 1];
      }
    } else {
      assert l'[i - 1].0 == t;
      forall j | 0 <= j < |ops[1..]| ensures !Has(l', ops[1..][j].turn) {
        assert !Has(l, ops[j + 1].turn);
        forall m | 0 <= m < |l'| ensures l'[m].0 != ops[j + 1].turn {
          assert m < |l| - 1 ==> l'[m] == l[m + 1];
        }
      }
      EvictedBy64(l', ops[1..], t, i - 1);
    }
  }

  lemma StepAbsent<T>(l: Ledger<T>, op: Op<T>, t: T)
    requires !Has(l, t) && !(op.Rec? && op.turn == t && Terminal(op.source))
    ensures !Has(Step(l, op), t)
  {
    var l' := Step(l, op);
    forall i | 0 <= i < |l'| ensures l'[i].0 != t {
      match op
      case Rec(u, s) =>
        if Terminal(s) {
          var p := Put(l, u, s);
          assert forall j :: 0 <= j < |p| ==> p[j].0 != t;
        }
      case Pop(u) =>
    }
  }

  lemma {:induction false} AbsentStays<T>(l: Ledger<T>, ops: seq<Op<T>>, t: T)
    requires !Has(l, t) && forall s :: Terminal(s) ==> Rec(t, s) !in ops
    ensures Lookup(Run(l, ops), t) == None
    decreases |ops|
  {
    if ops != [] {
      assert ops[0] in ops;
      StepAbsent(l, ops[0], t);
      AbsentStays(Step(l, ops[0]), ops[1..], t);
    }
  }

  /** A source is consumed at most once: after a pop, and until it is recorded again, there is nothing to pop. */
  lemma ConsumedOnce<T>(l: Ledger<T>, ops: seq<Op<T>>, t: T)
    requires Distinct(l) && forall s :: Terminal(s) ==> Rec(t, s) !in ops
    ensures Lookup(Run(Remove(l, t), ops), t) == None
  {
    var l' := Remove(l, t);
    var k := Find(l, t);
    forall i | 0 <= i < |l'| ensures l'[i].0 != t {
      assert k < |l| ==> l'[i] == if i < k then l[i] else l[i + 1];
    }
    AbsentStays(l', ops, t);
  }

  // ---------------------------------------------------------------- the module dictionary

  /** `_TURN_ABORT_SOURCES` with its two operations. The empty turn id is `None`. */
  class TurnAbortSources<T(==)> {
    var entries: Ledger<T>

    constructor ()
      ensures entries == []
    {
      entries := [];
    }

    method RecordTurnAbortSource(turn: Option<T>, source: Source)
      requires Healthy(entries)
      modifies this
      ensures Healthy(entries)
      ensures entries == if turn.Some? then Record(old(entries), turn.value, source) else old(entries)
    {
      if turn.None? || !Terminal(source) {
        return;
      }
      StepHealthy(entries, Rec(turn.value, source));
      ghost var put := Put(entries, turn.value, source);
      var k := Find(entries, turn.value);
      if k < |entries| {
        entries := entries[k := (turn.value, source)];
      } else {
        entries := entries + [(turn.value, source)];
      }
      assert entries == put;
      ghost var dropped := 0;
      while |entries| > CAPACITY
        invariant dropped <= |put| && entries == put[dropped..]
        invariant dropped == 0 || |entries| >= CAPACITY
        decreases |entries|
      {
        entries := entries[1..];
        dropped := dropped + 1;
      }
    }

    method PopTurnAbortSource(turn: T) returns (source: Option<Source>)
      requires Healthy(entries)
      modifies this
      ensures Healthy(entries)
      ensures source == Lookup(old(entries), turn)
      ensures entries == Remove(old(entries), turn)
    {
      StepHealthy(entries, Pop(turn));
      source := Lookup(entries, turn);
      var k := Find(entries, turn);
      if k < |entries| {
        entries := entries[..k] + entries[k + 1..];
      }
    }
  }
}
