/** The abort-source ledger over runs of the protocol: what an abort recorded reaches the settlement of the turn. */
module TurnLedger {
  import opened Wrappers
  import opened TurnState
  import opened TurnTheorems
  import D = OrderedDictionary
  import L = AbortLedger

  /** The step ends in the settle seam of a turn with a session, which consumes the turn's source. */
  predicate Settles(w: World, t: TurnId, a: Act)
    requires t in w.turns && w.turns[t].worker < |w.workers| == |w.rpcs|
  {
    var u := w.turns[t];
    u.sid != "" && !u.phase.Settling? && TurnStep(t, SeatOf(w, t), a, OwnsEntry(w, t)).u.phase.Settling?
  }

  /** What an event does to the ledger: a lost writer records a policy stop, a settlement consumes, an abort records
      its source for the turn it blames. */
  ghost function LedgerOp(p: Pool, w: World, e: Event): seq<L.Op<TurnId>>
    requires Enabled(p, w, e)
  {
    match e
    case OnTurn(t, a) =>
      if a.WriterLost? then [L.Rec(t, L.Policy)] else if Settles(w, t, a) then [L.Pop(t)] else []
    case AbortFinish(a) =>
      var t := BlamedIn(w, a);
      if t.Some? then [L.Rec(t.value, w.aborts[a].source)] else []
    case _ => []
  }

  ghost function LedgerOps(p: Pool, w: World, es: seq<Event>): seq<L.Op<TurnId>>
    requires Legal(p, w, es)
    decreases |es|
  {
    if es == [] then [] else LedgerOp(p, w, es[0]) + LedgerOps(p, Apply(p, w, es[0]), es[1..])
  }

  lemma LedgerStepIsOp(p: Pool, w: World, e: Event)
    requires Enabled(p, w, e)
    ensures Apply(p, w, e).ledger == L.Run(w.ledger, LedgerOp(p, w, e))
  {
    hide TurnStep, L.Record, D.Remove, Aim;
    var ops := LedgerOp(p, w, e);
    if ops != [] { assert ops[1..] == []; }
  }

  lemma {:induction false} RunAppend(l: L.Ledger<TurnId>, a: seq<L.Op<TurnId>>, b: seq<L.Op<TurnId>>)
    ensures L.Run(l, a + b) == L.Run(L.Run(l, a), b)
    decreases |a|
  {
    if a == [] {
      assert a + b == b;
    } else {
      assert (a + b)[1..] == a[1..] + b;
      RunAppend(L.Step(l, a[0]), a[1..], b);
    }
  }

  /** The ledger of a run is the ledger of its operations. */
  lemma {:induction false} LedgerOfRun(p: Pool, w: World, es: seq<Event>)
    requires Legal(p, w, es)
    ensures Exec(p, w, es).ledger == L.Run(w.ledger, LedgerOps(p, w, es))
    decreases |es|
  {
    hide Apply, Enabled, LedgerOp;
    if es != [] {
      LedgerStepIsOp(p, w, es[0]);
      LedgerOfRun(p, Apply(p, w, es[0]), es[1..]);
      RunAppend(w.ledger, LedgerOp(p, w, es[0]), LedgerOps(p, Apply(p, w, es[0]), es[1..]));
    }
  }

  /** In every reachable world the ledger holds at most 64 distinct turns and only terminal sources. */
  lemma LedgerIsHealthy(p: Pool, es: seq<Event>)
    requires Run(p, es)
    ensures L.Healthy(Reached(p, es).ledger) && |Reached(p, es).ledger| <= 64
    ensures forall e :: e in Reached(p, es).ledger ==> L.Terminal(e.1)
  {
    LedgerOfRun(p, Start(p), es);
    L.RunHealthy([], LedgerOps(p, Start(p), es));
  }

  /** How many turns have been inserted behind `t`. */
  function BehindIn(l: L.Ledger<TurnId>, t: TurnId): int { |l| - 1 - D.Find(l, t) }

  /** An abort that finishes and blames turn `t` decides how `t` settles: unless 64 other turns come in behind it, at
      the settlement the ledger holds the latest terminal source recorded for `t` since, the abort's if there is
      none, and the settlement consumes it. */
  lemma AbortReachesSettlement(p: Pool, es: seq<Event>, a: AbortId, mid: seq<Event>, t: TurnId, act: Act)
    requires Run(p, es) && Enabled(p, Reached(p, es), AbortFinish(a))
    requires var w := Reached(p, es);
      BlamedIn(w, a) == Some(t) && w.aborts[a].source != L.Cleanup
    requires var w' := Apply(p, Reached(p, es), AbortFinish(a));
      && Legal(p, w', mid) && L.Pop(t) !in LedgerOps(p, w', mid)
      && BehindIn(w'.ledger, t) + L.FreshInserts(w'.ledger, LedgerOps(p, w', mid)) < 64
      && Enabled(p, Exec(p, w', mid), OnTurn(t, act)) && Settles(Exec(p, w', mid), t, act)
    ensures var w := Reached(p, es);
      var w' := Apply(p, w, AbortFinish(a));
      var w'' := Exec(p, w', mid);
      && D.Lookup(w''.ledger, t) == Some(L.LatestSource(LedgerOps(p, w', mid), t, w.aborts[a].source))
      && D.Lookup(Apply(p, w'', OnTurn(t, act)).ledger, t) == None
  {
    var w := Reached(p, es);
    var source := w.aborts[a].source;
    var w' := Apply(p, w, AbortFinish(a));
    var w'' := Exec(p, w', mid);
    var ops := LedgerOps(p, w', mid);
    assert LedgerOp(p, w, AbortFinish(a)) == [L.Rec(t, source)];
    assert LedgerOp(p, w'', OnTurn(t, act)) == [L.Pop(t)];
    hide Run, Reached, Apply, Exec, Legal, Enabled, LedgerOp, LedgerOps, Settles, BlamedIn;
    LedgerIsHealthy(p, es);
    LedgerStepIsOp(p, w, AbortFinish(a));
    LedgerOfRun(p, w', mid);
    LedgerStepIsOp(p, w'', OnTurn(t, act));
    RecordedThenKept(w.ledger, t, source, ops);
  }

  lemma RecordedThenKept(l: L.Ledger<TurnId>, t: TurnId, source: L.Source, ops: seq<L.Op<TurnId>>)
    requires L.Healthy(l) && L.Terminal(source) && L.Pop(t) !in ops
    requires var l' := L.Run(l, [L.Rec(t, source)]); BehindIn(l', t) + L.FreshInserts(l', ops) < L.CAPACITY
    ensures var l' := L.Run(l, [L.Rec(t, source)]);
      && D.Lookup(L.Run(l', ops), t) == Some(L.LatestSource(ops, t, source))
      && D.Lookup(L.Run(L.Run(l', ops), [L.Pop(t)]), t) == None
  {
    var op := L.Rec(t, source);
    var l' := L.Run(l, [op]);
    assert [op][1..] == [] && l' == L.Record(l, t, source);
    L.StepHealthy(l, op);
    RecordedLast(l, t, source);
    var i := D.Find(l', t);
    L.SurvivesAt(l', ops, t, i);
    var l'' := L.Run(l', ops);
    KeepsHealthy(l', ops);
    assert [L.Pop(t)][1..] == [];
    L.ConsumedOnce(l'', [], t);
  }

  lemma RecordedLast(l: L.Ledger<TurnId>, t: TurnId, source: L.Source)
    requires L.Healthy(l) && L.Terminal(source)
    ensures var l' := L.Record(l, t, source);
      var i := D.Find(l', t);
      i < |l'| && l'[i] == (t, source)
  {
    var put := D.Put(l, t, source);
    var l' := L.Record(l, t, source);
    L.StepHealthy(l, L.Rec(t, source));
    var k := D.Find(l, t);
    assert put[k] == (t, source);
    var j := k - (|put| - |l'|);
    assert l'[j] == (t, source);
    D.FindUnique(l', t, j);
  }

  lemma {:induction false} KeepsHealthy(l: L.Ledger<TurnId>, ops: seq<L.Op<TurnId>>)
    requires L.Healthy(l)
    ensures L.Healthy(L.Run(l, ops))
    decreases |ops|
  {
    if ops != [] {
      L.StepHealthy(l, ops[0]);
      KeepsHealthy(L.Step(l, ops[0]), ops[1..]);
    }
  }
}
