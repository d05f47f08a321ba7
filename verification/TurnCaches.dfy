/** The rendezvous caches inside the turn protocol: the sessions eviction protects are the keys of the table of
    turns in flight at that moment, and turns clear their session when they are admitted, before they settle and
    at the very end of their outer finally. */
module TurnCaches {
  import opened Wrappers
  import opened TurnState
  import opened TurnInvariant
  import opened TurnTheorems
  import opened TurnWitness
  import D = OrderedDictionary
  import R = RendezvousCache

  /** A step of the protocol, or of the callback and the event stream on one of the caches. */
  datatype Move<V> =
    | Turns(event: Event)
    | Cache(key: R.Key, value: V)
    | Take(key: R.Key)

  /** The step drops what is cached for the turn's session. */
  predicate Clears(w: World, t: TurnId, a: Act)
    requires t in w.turns && w.turns[t].worker < |w.workers| == |w.rpcs|
  {
    || a.WriterOk?
    || a.OuterEnds?
    || (!w.turns[t].phase.Settling? && TurnStep(t, SeatOf(w, t), a, OwnsEntry(w, t)).u.phase.Settling?)
  }

  ghost predicate LegalMoves<V>(p: Pool, w: World, ms: seq<Move<V>>)
    decreases |ms|
  {
    ms == []
    || (if ms[0].Turns? then Enabled(p, w, ms[0].event) && LegalMoves(p, Apply(p, w, ms[0].event), ms[1..])
        else LegalMoves(p, w, ms[1..]))
  }

  ghost function Cleared<V>(p: Pool, w: World, e: Event): seq<R.Op<V>>
    requires Enabled(p, w, e)
  {
    if e.OnTurn? && Clears(w, e.t, e.act) then [R.Boundary(w.turns[e.t].sid)] else []
  }

  /** The cache operations of a run, each caching with the sessions that are in the table when it happens. */
  ghost function OpsOf<V>(p: Pool, w: World, ms: seq<Move<V>>): seq<R.Op<V>>
    requires LegalMoves(p, w, ms)
    decreases |ms|
  {
    if ms == [] then [] else
      match ms[0]
      case Turns(e) => Cleared(p, w, e) + OpsOf(p, Apply(p, w, e), ms[1..])
      case Cache(k, v) => [R.Cached(k, v, w.active.Keys)] + OpsOf(p, w, ms[1..])
      case Take(k) => [R.Taken(k)] + OpsOf(p, w, ms[1..])
  }

  /** Turn `t` of session `s` owns its lease now and after every step of the run. */
  ghost predicate LeasedThroughout<V>(p: Pool, w: World, ms: seq<Move<V>>, t: TurnId, s: Sid)
    requires LegalMoves(p, w, ms)
    decreases |ms|
  {
    && t in w.turns && w.turns[t].sid == s && Leased(w.turns[t].phase)
    && (ms != [] ==>
          if ms[0].Turns? then LeasedThroughout(p, Apply(p, w, ms[0].event), ms[1..], t, s)
          else LeasedThroughout(p, w, ms[1..], t, s))
  }

  lemma InFlightAppend<V>(a: seq<R.Op<V>>, b: seq<R.Op<V>>, s: Sid)
    requires R.InFlightThroughout(a, s) && R.InFlightThroughout(b, s)
    ensures R.InFlightThroughout(a + b, s)
  {
  }

  lemma {:induction false} LeasedIsInFlight<V>(p: Pool, w: World, ms: seq<Move<V>>, t: TurnId, s: Sid)
    requires Inv(p, w) && LegalMoves(p, w, ms) && LeasedThroughout(p, w, ms, t, s)
    ensures R.InFlightThroughout(OpsOf(p, w, ms), s)
    decreases |ms|
  {
    hide Enabled, Apply, RequestInv, AimOk, R.InFlightThroughout;
    if ms == [] {
      BoundariesInFlight<V>([], s);
    } else if ms[0].Turns? {
      var e := ms[0].event;
      StepInv(p, w, e);
      LeasedIsInFlight(p, Apply(p, w, e), ms[1..], t, s);
      BoundariesInFlight(Cleared<V>(p, w, e), s);
      InFlightAppend(Cleared<V>(p, w, e), OpsOf(p, Apply(p, w, e), ms[1..]), s);
    } else {
      LeasedIsInFlight(p, w, ms[1..], t, s);
      assert EntryOk(w, t, w.turns[t]);
      var op := if ms[0].Cache? then R.Cached(ms[0].key, ms[0].value, w.active.Keys) else R.Taken(ms[0].key);
      assert R.InFlightThroughout([op], s) by { OneInFlight(op, s); }
      InFlightAppend([op], OpsOf(p, w, ms[1..]), s);
    }
  }

  lemma OneInFlight<V>(op: R.Op<V>, s: Sid)
    requires op.Cached? ==> s in op.active
    ensures R.InFlightThroughout([op], s)
  {
  }

  lemma BoundariesInFlight<V>(ops: seq<R.Op<V>>, s: Sid)
    requires forall i :: 0 <= i < |ops| ==> ops[i].Boundary?
    ensures R.InFlightThroughout(ops, s)
  {
  }

  /** While a turn owns its lease, whatever all other sessions cache and however often the caches overflow, an
      entry of its session leaves only by a take of its own key or a clearing of its own session. */
  lemma LeasedEntriesSurvive<V>(p: Pool, es: seq<Event>, ms: seq<Move<V>>, t: TurnId, c: R.Cache<V>, merge: R.Merge<V>,
                                k: R.Key)
    requires Run(p, es) && LegalMoves(p, Reached(p, es), ms) && LeasedThroughout(p, Reached(p, es), ms, t, k.0)
    requires D.Distinct(c)
    ensures var ops := OpsOf(p, Reached(p, es), ms);
      D.Lookup(R.Run(c, ops, 128, merge), k) == R.SlotRun(D.Lookup(c, k), ops, k, merge)
  {
    ReachedInv(p, es);
    LeasedIsInFlight(p, Reached(p, es), ms, t, k.0);
    R.InFlightRefinesTable(c, OpsOf(p, Reached(p, es), ms), 128, merge, k);
  }

  /** A turn is admitted to an empty cache of its session, and leaves it empty when it enters its settlement and at the
      very end of its outer finally; no other step of a turn clears anything. */
  lemma BoundariesClear<V>(p: Pool, w: World, t: TurnId, a: Act, c: R.Cache<V>, cap: nat, merge: R.Merge<V>, k: R.Key)
    requires Enabled(p, w, OnTurn(t, a)) && D.Distinct(c)
    ensures t in Apply(p, w, OnTurn(t, a)).turns
    ensures var settles := Apply(p, w, OnTurn(t, a)).turns[t].phase.Settling? && !w.turns[t].phase.Settling?;
      var c' := R.Run(c, Cleared(p, w, OnTurn(t, a)), cap, merge);
      if a.WriterOk? || a.OuterEnds? || settles then
        D.Lookup(c', k) == if k.0 == w.turns[t].sid then None else D.Lookup(c, k)
      else c' == c
  {
    hide R.DropSession, TableStep, LedgerStep;
    var s := w.turns[t].sid;
    var ops := Cleared<V>(p, w, OnTurn(t, a));
    PhaseAfter(p, w, t, a);
    R.DropSessionLookup(c, s, k);
    if ops != [] {
      assert ops[1..] == [];
      assert R.Run(R.DropSession(c, s), ops[1..], cap, merge) == R.DropSession(c, s);
      assert R.Run(c, ops, cap, merge) == R.DropSession(c, s);
    }
  }

  // ---------------------------------------------------------------- who clears a leased session

  /** Two turns of one session share a worker, so only one of them owns its lock. */
  lemma SameSessionOneOwner(p: Pool, w: World, t: TurnId, u: TurnId)
    requires CoreInv(p, w) && t in w.turns && u in w.turns && w.turns[t].sid == w.turns[u].sid
    requires Holding(w.turns[t].phase) && Holding(w.turns[u].phase)
    ensures t == u
  {
    assert SeatOk(t, w.workers[w.turns[t].worker], w.turns[t]) && SeatOk(u, w.workers[w.turns[u].worker], w.turns[u]);
  }

  lemma ClearingPhase(t: TurnId, x: Seat, a: Act, entered: bool)
    requires CanAct(x, a)
    ensures a.WriterOk? ==> Holding(x.u.phase) && !Leased(x.u.phase)
    ensures !x.u.phase.Settling? && TurnStep(t, x, a, entered).u.phase.Settling? ==> Leased(x.u.phase)
    ensures a.OuterEnds? ==> Past(x.u.phase)
  {
  }

  /** While a turn owns its lease, its session is cleared only by its own inner finally or by the outer finally of a
      turn of the session that finished before. */
  lemma OnlyOwnSettleOrPredecessorClears(p: Pool, es: seq<Event>, t: TurnId, u: TurnId, a: Act)
    requires Run(p, es) && Enabled(p, Reached(p, es), OnTurn(u, a))
    requires t in Reached(p, es).turns && Leased(Reached(p, es).turns[t].phase)
    requires Clears(Reached(p, es), u, a) && Reached(p, es).turns[u].sid == Reached(p, es).turns[t].sid
    ensures if u == t then !a.OuterEnds? && !a.WriterOk? else a.OuterEnds? && Past(Reached(p, es).turns[u].phase)
  {
    var w := Reached(p, es);
    assert CanAct(SeatOf(w, u), a);
    hide Run, Reached, RequestInv, SeatOk, WorkerOk, EntryOk, TurnStep;
    ReachedInv(p, es);
    ClearingPhase(u, SeatOf(w, u), a, OwnsEntry(w, u));
    if Holding(w.turns[u].phase) { SameSessionOneOwner(p, w, t, u); }
  }

  // ---------------------------------------------------------------- a predecessor's late clearing

  const DONE_TURN := Turn("s", false, 0, OuterUnreg, true, 1, 1)
  const NEXT_TURN := Turn("s", false, 0, Preparing, false, 1, 0)

  /** Turn 0 of a session was cancelled and has settled; it awaits its outer unregister. Turn 1 of the same session
      has been admitted meanwhile. */
  lemma SuccessorAdmitted() returns (es: seq<Event>)
    ensures Run(SOLO, es)
    ensures Reached(SOLO, es)
      == Solo(Admitted(LockTaken(IDLE_WORKER, 1), 1, "s"), FRESH_RPC, map[0 := DONE_TURN, 1 := NEXT_TURN],
              map["s" := 1], map[], [])
  {
    hide Run, Legal, Exec, Apply, Enabled, Inv;
    SoloStart();
    es := SoloLocks([], IDLE_WORKER, FRESH_RPC, map[], map[], map[], 0, "s");
    var k, t0 := LockTaken(IDLE_WORKER, 0), Turn("s", false, 0, Preparing, false, 1, 0);
    es := SoloAdmits(es, k, FRESH_RPC, map[], map[], map[], 0, "s");
    k := Admitted(k, 0, "s");
    SoloTurn(es, k, FRESH_RPC, map[0 := t0], map["s" := 0], map[], 0, Unwind(NeedsAbort));
    es := es + [OnTurn(0, Unwind(NeedsAbort))];
    var t1, t2 := t0.(phase := Aborting), t0.(phase := Settling);
    assert map[0 := t0][0 := t1] == map[0 := t1] && map[0 := t1][0 := t2] == map[0 := t2];
    SoloTurn(es, k, FRESH_RPC, map[0 := t1], map["s" := 0], map[], 0, AbortAwaitEnds);
    es := es + [OnTurn(0, AbortAwaitEnds)];
    es := SoloSettles(es, k.(marker := None), FRESH_RPC, map[0 := t2], map["s" := 0], map[], 0);
    assert map[0 := t2][0 := Gone(t2)] == map[0 := Gone(t2)];
    SoloTurn(es, IDLE_WORKER, FRESH_RPC, map[0 := Gone(t2)], map["s" := 0], map[], 0, InnerUnregEnds);
    es := es + [OnTurn(0, InnerUnregEnds)];
    assert map[0 := Gone(t2)][0 := DONE_TURN] == map[0 := DONE_TURN];
    es := SoloLocks(es, IDLE_WORKER, FRESH_RPC, map[0 := DONE_TURN], map["s" := 0], map[], 1, "s");
    es := SoloAdmits(es, LockTaken(IDLE_WORKER, 1), FRESH_RPC, map[0 := DONE_TURN], map["s" := 0], map[], 1, "s");
    assert map[0 := DONE_TURN][1 := NEXT_TURN] == map[0 := DONE_TURN, 1 := NEXT_TURN];
    assert map["s" := 0]["s" := 1] == map["s" := 1];
  }

  /** What the successor caches is wiped when the predecessor's outer finally ends, although the successor is in
      flight and nothing overflowed. */
  lemma PredecessorWipesSuccessor(call: R.CallId, v: string) returns (es: seq<Event>, ms: seq<Move<string>>)
    ensures Run(SOLO, es) && LegalMoves(SOLO, Reached(SOLO, es), ms)
    ensures |ms| == 2 && ms[0] == Cache(("s", call), v) && ms[1] == Turns(OnTurn(0, OuterEnds))
    ensures LeasedThroughout(SOLO, Reached(SOLO, es), ms, 1, "s")
    ensures var ops := OpsOf(SOLO, Reached(SOLO, es), ms);
      && ops == [R.Cached(("s", call), v, {"s"}), R.Boundary("s")]
      && D.Lookup(R.Run([], ops[..1], 128, R.Append), ("s", call)) == Some(v)
      && D.Lookup(R.Run([], ops, 128, R.Append), ("s", call)) == None
  {
    es := SuccessorAdmitted();
    var w := Reached(SOLO, es);
    var e := OnTurn(0, OuterEnds);
    ms := [Cache(("s", call), v), Turns(e)];
    assert ms[1..] == [Turns(e)] && ms[1..][1..] == [];
    assert Enabled(SOLO, w, e);
    var w' := Apply(SOLO, w, e);
    assert w'.turns[1] == NEXT_TURN;
    assert w.active.Keys == {"s"};
    assert Cleared<string>(SOLO, w, e) == [R.Boundary("s")];
    var ops := OpsOf(SOLO, w, ms);
    assert OpsOf(SOLO, w, ms[1..]) == Cleared<string>(SOLO, w, e) + OpsOf<string>(SOLO, w', ms[1..][1..]);
    assert ops == [R.Cached(("s", call), v, {"s"}), R.Boundary("s")];
    assert ops[..1] == [R.Cached(("s", call), v, {"s"})];
    R.BoundaryWipes("s", call, v, 128);
  }
}
