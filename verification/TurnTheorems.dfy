/** The promises of the turn protocol, over every run from an idle pool. */
module TurnTheorems {
  import opened Wrappers
  import opened TurnState
  import opened TurnInvariant
  import opened VendorIsolation
  import L = AbortLedger

  ghost predicate Run(p: Pool, es: seq<Event>) { PoolOk(p) && Legal(p, Start(p), es) }

  ghost function Reached(p: Pool, es: seq<Event>): World
    requires Run(p, es)
  {
    Exec(p, Start(p), es)
  }

  lemma ReachedInv(p: Pool, es: seq<Event>)
    requires Run(p, es)
    ensures Inv(p, Reached(p, es)) && VendorInv(p, Reached(p, es))
  {
    StartInv(p);
    StartVendor(p);
    RunVendor(p, Start(p), es);
  }

  // ---------------------------------------------------------------- the turn lock

  predicate SameWorkerHeld(u: Turn, v: Turn) {
    u.worker == v.worker && Holding(u.phase) && Holding(v.phase)
  }

  /** Lease safety: a worker is held by at most one turn, its lock is never held by nobody or by a finished
      turn, every successful acquisition is released exactly once, and no release is ever refused. */
  lemma LeaseSafety(p: Pool, es: seq<Event>)
    requires Run(p, es)
    ensures var w := Reached(p, es);
      && Sized(p, w)
      && (forall t, u :: t in w.turns && u in w.turns && SameWorkerHeld(w.turns[t], w.turns[u]) ==> t == u)
      && (forall b :: 0 <= b < p.size ==> (w.workers[b].locked <==>
            exists t :: t in w.turns && w.turns[t].worker == b && Holding(w.turns[t].phase)))
      && (forall t :: t in w.turns ==>
            w.turns[t].acquisitions == w.turns[t].releases + if Holding(w.turns[t].phase) then 1 else 0)
      && (forall b :: 0 <= b < p.size ==> w.workers[b].refused == 0)
  {
    ReachedInv(p, es);
    var w := Reached(p, es);
    forall t, u | t in w.turns && u in w.turns && SameWorkerHeld(w.turns[t], w.turns[u]) ensures t == u {
      assert SeatOk(t, w.workers[w.turns[t].worker], w.turns[t]) && SeatOk(u, w.workers[w.turns[u].worker], w.turns[u]);
    }
    forall b | 0 <= b < p.size
      ensures w.workers[b].refused == 0
           && (w.workers[b].locked <==> exists t :: t in w.turns && w.turns[t].worker == b && Holding(w.turns[t].phase))
    {
      var k := w.workers[b];
      assert WorkerOk(k) && OwnerHere(w, b, k);
      if k.locked {
        assert SeatOk(k.owner.value, w.workers[w.turns[k.owner.value].worker], w.turns[k.owner.value]);
      } else {
        forall t | t in w.turns && w.turns[t].worker == b ensures !Holding(w.turns[t].phase) {
          assert SeatOk(t, w.workers[w.turns[t].worker], w.turns[t]);
        }
      }
    }
    forall t | t in w.turns
      ensures w.turns[t].acquisitions == w.turns[t].releases + if Holding(w.turns[t].phase) then 1 else 0
    {
      assert SeatOk(t, w.workers[w.turns[t].worker], w.turns[t]);
    }
  }

  /** The steps by which a turn leaves, when its task is cancelled at whatever await it is parked on and
      once more at the settle await. */
  function UnwindPlan(t: TurnId, u: Turn): seq<Event>
    requires Holding(u.phase)
  {
    if u.phase.AwaitWriter? then [OnTurn(t, WriterFails(false))]
    else if u.phase.Registering? && u.streaming then [OnTurn(t, Unwind(NeedsAbort))]
    else if u.phase.Settling? then [OnTurn(t, SettleRaises)]
    else if u.phase.Aborting? then [OnTurn(t, AbortAwaitEnds), OnTurn(t, SettleRaises)]
    else [OnTurn(t, Unwind(NeedsAbort)), OnTurn(t, AbortAwaitEnds), OnTurn(t, SettleRaises)]
  }

  /** Turn `t` no longer holds worker `b`, and nobody does. */
  ghost predicate Freed(p: Pool, w: World, t: TurnId, b: nat) {
    && Sized(p, w) && b < p.size
    && t in w.turns && !Holding(w.turns[t].phase)
    && !w.workers[b].locked && w.workers[b].lease == None && w.workers[b].marker == None
  }

  /** No cancellation strands the lock: from every reachable state the holder's own cancelled steps, at most
      three and all possible, leave its worker unlocked and unowned. */
  lemma CancellationFreesLock(p: Pool, es: seq<Event>, t: TurnId)
    requires Run(p, es) && t in Reached(p, es).turns && Holding(Reached(p, es).turns[t].phase)
    ensures var w := Reached(p, es);
      var plan := UnwindPlan(t, w.turns[t]);
      |plan| <= 3 && Legal(p, w, plan) && Freed(p, Exec(p, w, plan), t, w.turns[t].worker)
  {
    var w := Reached(p, es);
    var plan := UnwindPlan(t, w.turns[t]);
    assert |plan| <= 3;
    hide Inv, VendorInv, Legal, Freed, Enabled, Exec, Run;
    ReachedInv(p, es);
    UnwindFrees(p, w, t);
  }

  /** The seat of a turn after its own step. */
  lemma OwnStep(p: Pool, w: World, t: TurnId, a: Act)
    requires Inv(p, w) && Enabled(p, w, OnTurn(t, a))
    ensures var w' := Apply(p, w, OnTurn(t, a));
      && Inv(p, w') && t in w'.turns
      && SeatOf(w', t) == TurnStep(t, SeatOf(w, t), a, OwnsEntry(w, t))
      && w'.turns[t].worker == w.turns[t].worker
  {
    StepInv(p, w, OnTurn(t, a));
    PastStays(t, SeatOf(w, t), a, OwnsEntry(w, t));
  }

  /** The plan is a legal run that leaves the turn's worker free. */
  ghost predicate Frees(p: Pool, w: World, t: TurnId, plan: seq<Event>) {
    t in w.turns && Legal(p, w, plan) && Freed(p, Exec(p, w, plan), t, w.turns[t].worker)
  }

  lemma FreesThen(p: Pool, w: World, t: TurnId, e: Event, plan: seq<Event>)
    requires t in w.turns && Enabled(p, w, e) && Frees(p, Apply(p, w, e), t, plan)
    requires Apply(p, w, e).turns[t].worker == w.turns[t].worker
    ensures Frees(p, w, t, [e] + plan)
  {
    assert ([e] + plan)[1..] == plan;
  }

  lemma LastStepFrees(p: Pool, w: World, t: TurnId, a: Act)
    requires Inv(p, w) && Enabled(p, w, OnTurn(t, a)) && Holding(w.turns[t].phase)
    requires a == WriterFails(false) || a.SettleRaises?
             || (a == Unwind(NeedsAbort) && w.turns[t].phase.Registering? && w.turns[t].streaming)
    ensures Frees(p, w, t, [OnTurn(t, a)])
  {
    hide Apply, Inv, Legal, Exec, Freed;
    LastStepPhase(p, w, t, a);
    NotHoldingIsFreed(p, Apply(p, w, OnTurn(t, a)), t);
    SingleStep(p, w, OnTurn(t, a));
  }

  lemma LastStepPhase(p: Pool, w: World, t: TurnId, a: Act)
    requires Inv(p, w) && Enabled(p, w, OnTurn(t, a)) && Holding(w.turns[t].phase)
    requires a == WriterFails(false) || a.SettleRaises?
             || (a == Unwind(NeedsAbort) && w.turns[t].phase.Registering? && w.turns[t].streaming)
    ensures var w' := Apply(p, w, OnTurn(t, a));
      && Inv(p, w') && t in w'.turns && w'.turns[t].worker == w.turns[t].worker < |w'.workers|
        && !Holding(w'.turns[t].phase)
      && w'.workers[w'.turns[t].worker].owner == None
  {
    hide Inv, Apply;
    OwnStep(p, w, t, a);
    LastSeat(p, w, t);
    LastSeat(p, Apply(p, w, OnTurn(t, a)), t);
    LastOwner(t, SeatOf(w, t), a, OwnsEntry(w, t));
  }

  lemma SingleStep(p: Pool, w: World, e: Event)
    requires Enabled(p, w, e)
    ensures Legal(p, w, [e]) && Exec(p, w, [e]) == Apply(p, w, e)
  {
    hide Enabled, Apply;
    assert [e][1..] == [];
  }

  lemma LastSeat(p: Pool, w: World, t: TurnId)
    requires Inv(p, w) && t in w.turns
    ensures Sized(p, w) && SeatOk(t, SeatOf(w, t).k, w.turns[t]) && WorkerOk(SeatOf(w, t).k)
  {
  }

  lemma LastOwner(t: TurnId, x: Seat, a: Act, entered: bool)
    requires CanAct(x, a) && SeatOk(t, x.k, x.u) && WorkerOk(x.k)
    requires a == WriterFails(false) || a.SettleRaises?
             || (a == Unwind(NeedsAbort) && x.u.phase.Registering? && x.u.streaming)
    ensures var y := TurnStep(t, x, a, entered); !Holding(y.u.phase) && y.k.owner == None
  {
    if a.SettleRaises? { OuterGood(t, x); }
    if a.Unwind? { OuterGood(t, x); }
  }

  lemma NotHoldingIsFreed(p: Pool, w: World, t: TurnId)
    requires Inv(p, w) && t in w.turns && !Holding(w.turns[t].phase) && w.turns[t].worker < |w.workers|
    requires w.workers[w.turns[t].worker].owner == None
    ensures Sized(p, w) && Freed(p, w, t, w.turns[t].worker)
  {
    assert WorkerOk(w.workers[w.turns[t].worker]);
  }

  lemma AbortingSettles(p: Pool, w: World, t: TurnId)
    requires Inv(p, w) && t in w.turns && w.turns[t].phase.Aborting?
    ensures Enabled(p, w, OnTurn(t, AbortAwaitEnds))
    ensures var w' := Apply(p, w, OnTurn(t, AbortAwaitEnds));
      Inv(p, w') && t in w'.turns && w'.turns[t].phase.Settling? && w'.turns[t].worker == w.turns[t].worker
  {
    OwnStep(p, w, t, AbortAwaitEnds);
  }

  lemma AbortingFrees(p: Pool, w: World, t: TurnId)
    requires Inv(p, w) && t in w.turns && w.turns[t].phase.Aborting?
    ensures Frees(p, w, t, [OnTurn(t, AbortAwaitEnds), OnTurn(t, SettleRaises)])
  {
    AbortingSettles(p, w, t);
    SettlingFrees(p, Apply(p, w, OnTurn(t, AbortAwaitEnds)), t);
    FreesThen(p, w, t, OnTurn(t, AbortAwaitEnds), [OnTurn(t, SettleRaises)]);
    assert [OnTurn(t, AbortAwaitEnds)] + [OnTurn(t, SettleRaises)]
        == [OnTurn(t, AbortAwaitEnds), OnTurn(t, SettleRaises)];
  }

  lemma SettlingFrees(p: Pool, w: World, t: TurnId)
    requires Inv(p, w) && t in w.turns && w.turns[t].phase.Settling?
    ensures Frees(p, w, t, [OnTurn(t, SettleRaises)])
  {
    LastStepFrees(p, w, t, SettleRaises);
  }

  lemma PublishedAborts(p: Pool, w: World, t: TurnId)
    requires Inv(p, w) && t in w.turns && Published(w.turns[t].phase) && !w.turns[t].phase.Aborting?
    requires !(w.turns[t].phase.Registering? && w.turns[t].streaming)
    ensures Enabled(p, w, OnTurn(t, Unwind(NeedsAbort)))
    ensures var w' := Apply(p, w, OnTurn(t, Unwind(NeedsAbort)));
      Inv(p, w') && t in w'.turns && w'.turns[t].phase.Aborting? && w'.turns[t].worker == w.turns[t].worker
  {
    OwnStep(p, w, t, Unwind(NeedsAbort));
  }

  lemma PublishedFrees(p: Pool, w: World, t: TurnId)
    requires Inv(p, w) && t in w.turns && Published(w.turns[t].phase) && !w.turns[t].phase.Aborting?
    requires !(w.turns[t].phase.Registering? && w.turns[t].streaming)
    ensures Frees(p, w, t, [OnTurn(t, Unwind(NeedsAbort)), OnTurn(t, AbortAwaitEnds), OnTurn(t, SettleRaises)])
  {
    var e, plan := OnTurn(t, Unwind(NeedsAbort)), [OnTurn(t, AbortAwaitEnds), OnTurn(t, SettleRaises)];
    PublishedAborts(p, w, t);
    AbortingFrees(p, Apply(p, w, e), t);
    FreesThen(p, w, t, e, plan);
    assert [e] + plan == [e, plan[0], plan[1]];
  }

  lemma UnwindFrees(p: Pool, w: World, t: TurnId)
    requires Inv(p, w) && t in w.turns && Holding(w.turns[t].phase)
    ensures Frees(p, w, t, UnwindPlan(t, w.turns[t]))
  {
    hide Inv, Frees;
    var u := w.turns[t];
    assert Sized(p, w) by { LastSeat(p, w, t); }
    if u.phase.AwaitWriter? { LastStepFrees(p, w, t, WriterFails(false)); }
    else if u.phase.Registering? && u.streaming { LastStepFrees(p, w, t, Unwind(NeedsAbort)); }
    else if u.phase.Settling? { LastStepFrees(p, w, t, SettleRaises); }
    else if u.phase.Aborting? { AbortingFrees(p, w, t); }
    else { PublishedFrees(p, w, t); }
  }

  /** The turn has left its try and is in its finally, still holding the lock. */
  predicate Leaving(ph: Phase) { ph.Aborting? || ph.Settling? }

  function Rank(ph: Phase): nat { if ph.Aborting? then 2 else if ph.Settling? then 1 else 0 }

  /** A step of the turn's own code; losing the writer is noticed by a callback. */
  predicate OwnCode(e: Event, t: TurnId) { e.OnTurn? && e.t == t && !e.act.WriterLost? }

  function OwnSteps(es: seq<Event>, t: TurnId): nat {
    if es == [] then 0 else (if OwnCode(es[0], t) then 1 else 0) + OwnSteps(es[1..], t)
  }

  lemma LeavingStep(t: TurnId, x: Seat, a: Act, entered: bool)
    requires CanAct(x, a)
    ensures var y := TurnStep(t, x, a, entered);
      && (a.Unwind? || a.WriterFails? ==> Leaving(y.u.phase) || !Holding(y.u.phase))
      && (Leaving(x.u.phase) && a.WriterLost? ==> y.u.phase == x.u.phase)
      && (Leaving(x.u.phase) && !a.WriterLost? ==>
            Rank(y.u.phase) < Rank(x.u.phase) && (Leaving(y.u.phase) || Past(y.u.phase)))
      && (Past(x.u.phase) ==> Past(y.u.phase))
  {
  }

  lemma OthersKeepPhase(p: Pool, w: World, e: Event, t: TurnId)
    requires Enabled(p, w, e) && t in w.turns && !(e.OnTurn? && e.t == t)
    ensures var w' := Apply(p, w, e); t in w'.turns && w'.turns[t] == w.turns[t]
  {
    hide TurnStep, IoStep, Aim, TableStep, LedgerStep;
  }

  lemma PhaseAfter(p: Pool, w: World, t: TurnId, a: Act)
    requires Enabled(p, w, OnTurn(t, a))
    ensures var w' := Apply(p, w, OnTurn(t, a));
      t in w'.turns && w'.turns[t] == TurnStep(t, SeatOf(w, t), a, OwnsEntry(w, t)).u
  {
    hide TurnStep, TableStep, LedgerStep;
  }

  lemma {:induction false} PastForEver(p: Pool, w: World, fs: seq<Event>, t: TurnId)
    requires Legal(p, w, fs) && t in w.turns && Past(w.turns[t].phase)
    ensures t in Exec(p, w, fs).turns && Past(Exec(p, w, fs).turns[t].phase)
  {
    hide *;
    RunOnward(p, w, fs);
    OnwardPast(w, Exec(p, w, fs), t);
  }

  lemma OnwardPast(w: World, w': World, t: TurnId)
    requires Onward(w, w') && t in w.turns && Past(w.turns[t].phase)
    ensures t in w'.turns && Past(w'.turns[t].phase)
  {
  }

  lemma {:induction false} LeavesWithin(p: Pool, w: World, fs: seq<Event>, t: TurnId)
    requires Legal(p, w, fs) && t in w.turns && Leaving(w.turns[t].phase) && OwnSteps(fs, t) >= Rank(w.turns[t].phase)
    ensures t in Exec(p, w, fs).turns && Past(Exec(p, w, fs).turns[t].phase)
    decreases |fs|
  {
    hide Apply, Enabled;
    var e := fs[0];
    var w' := Apply(p, w, e);
    if e.OnTurn? && e.t == t {
      PhaseAfter(p, w, t, e.act);
      assert CanAct(SeatOf(w, t), e.act) by { EnabledActs(p, w, t, e.act); }
      LeavingStep(t, SeatOf(w, t), e.act, OwnsEntry(w, t));
      if Past(w'.turns[t].phase) { PastForEver(p, w', fs[1..], t); } else { LeavesWithin(p, w', fs[1..], t); }
    } else {
      OthersKeepPhase(p, w, e, t);
      LeavesWithin(p, w', fs[1..], t);
    }
  }

  lemma EnabledActs(p: Pool, w: World, t: TurnId, a: Act)
    requires Enabled(p, w, OnTurn(t, a))
    ensures t in w.turns && w.turns[t].worker < |w.workers| == |w.rpcs| && CanAct(SeatOf(w, t), a)
  {
  }

  lemma NeverStuck(p: Pool, w: World, t: TurnId)
    requires Inv(p, w) && t in w.turns && Leaving(w.turns[t].phase)
    ensures Enabled(p, w, OnTurn(t, if w.turns[t].phase.Aborting? then AbortAwaitEnds else SettleEnds))
  {
    hide SeatOk, EntryOk, RequestInv, AimOk, WorkerOk, Registered;
  }

  /** Every way out frees the lock: once a turn is in its finally, whatever the others do and whichever way its own
      awaits end, after its next two steps at most it has released the lock for ever; and until then a step of its
      own is always possible. */
  lemma EveryWayOutFrees(p: Pool, es: seq<Event>, t: TurnId, fs: seq<Event>)
    requires Run(p, es) && t in Reached(p, es).turns && Leaving(Reached(p, es).turns[t].phase)
    requires Legal(p, Reached(p, es), fs)
    ensures var w, w' := Reached(p, es), Exec(p, Reached(p, es), fs);
      && (OwnSteps(fs, t) >= Rank(w.turns[t].phase) ==> t in w'.turns && Past(w'.turns[t].phase))
      && Enabled(p, w, OnTurn(t, if w.turns[t].phase.Aborting? then AbortAwaitEnds else SettleEnds))
  {
    var w := Reached(p, es);
    var phase := w.turns[t].phase;
    hide *;
    ReachedInv(p, es);
    NeverStuck(p, w, t);
    if OwnSteps(fs, t) >= Rank(phase) { LeavesWithin(p, w, fs, t); }
  }

  // ---------------------------------------------------------------- markers and the table

  /** Whenever a worker's marker is set, its current turn is a turn of that session that owns the lease; and
      a turn that owns the lease is the table entry of its session. */
  lemma MarkerAndEntryOwnership(p: Pool, es: seq<Event>)
    requires Run(p, es)
    ensures var w := Reached(p, es);
      && Sized(p, w)
      && (forall b :: 0 <= b < p.size && w.workers[b].marker.Some? ==>
            var k := w.workers[b];
            k.current.Some? && k.current == k.lease && k.current.value in w.turns
              && w.turns[k.current.value].sid == k.marker.value && Published(w.turns[k.current.value].phase))
      && (forall t :: t in w.turns && Leased(w.turns[t].phase) ==> OwnsEntry(w, t))
  {
    ReachedInv(p, es);
    var w := Reached(p, es);
    forall b | 0 <= b < p.size && w.workers[b].marker.Some?
      ensures var k := w.workers[b];
            k.current.Some? && k.current == k.lease && k.current.value in w.turns
              && w.turns[k.current.value].sid == k.marker.value && Published(w.turns[k.current.value].phase)
    {
      var k := w.workers[b];
      assert WorkerOk(k) && OwnerHere(w, b, k);
      assert SeatOk(k.current.value, w.workers[w.turns[k.current.value].worker], w.turns[k.current.value]);
    }
    forall t | t in w.turns && Leased(w.turns[t].phase) ensures OwnsEntry(w, t) {
      assert EntryOk(w, t, w.turns[t]);
    }
  }

  /** The code that still runs after a turn released its lease: the inner unregister's end with the outer
      finally's backstop, the outer unregister's end, and the shielded unregister itself. */
  predicate LateCleanup(a: Act) { a.InnerUnregEnds? || a.OuterEnds? || a.Unregister? }

  /** Late cleanup never touches a successor: no worker field changes, no other turn moves, and the table
      loses at most the entry that is still the finished turn's own. */
  lemma LateCleanupIsHarmless(p: Pool, es: seq<Event>, t: TurnId, a: Act)
    requires Run(p, es) && Enabled(p, Reached(p, es), OnTurn(t, a)) && LateCleanup(a)
    ensures var w := Reached(p, es);
      var w' := Apply(p, w, OnTurn(t, a));
      && w'.workers == w.workers
      && (forall u :: u in w.turns && u != t ==> u in w'.turns && w'.turns[u] == w.turns[u])
      && (forall s :: s in w.active && w.active[s] != t ==> s in w'.active && w'.active[s] == w.active[s])
      && (forall s :: s in w'.active ==> s in w.active && w'.active[s] == w.active[s])
  {
    ReachedInv(p, es);
    var w := Reached(p, es);
    assert SeatOk(t, w.workers[w.turns[t].worker], w.turns[t]) && WorkerOk(w.workers[w.turns[t].worker]);
    LateSeat(t, SeatOf(w, t), a, OwnsEntry(w, t));
    LateFrame(p, w, t, a, TurnStep(t, SeatOf(w, t), a, OwnsEntry(w, t)));
  }

  lemma LateFrame(p: Pool, w: World, t: TurnId, a: Act, y: Seat)
    requires Sized(p, w) && t in w.turns && LateCleanup(a) && y.k == w.workers[w.turns[t].worker]
    ensures var w' := Reseated(w, t, a, y);
      && w'.workers == w.workers
      && (forall u :: u in w.turns && u != t ==> u in w'.turns && w'.turns[u] == w.turns[u])
      && (forall s :: s in w.active && w.active[s] != t ==> s in w'.active && w'.active[s] == w.active[s])
      && (forall s :: s in w'.active ==> s in w.active && w'.active[s] == w.active[s])
  {
  }

  lemma LateSeat(t: TurnId, x: Seat, a: Act, entered: bool)
    requires CanAct(x, a) && LateCleanup(a) && SeatOk(t, x.k, x.u) && WorkerOk(x.k)
    ensures TurnStep(t, x, a, entered).k == x.k && TurnStep(t, x, a, entered).u.worker == x.u.worker
  {
    if a.InnerUnregEnds? { OuterGood(t, x); }
  }

  // ---------------------------------------------------------------- two-phase abort

  lemma {:induction false} LegalConcat(p: Pool, w: World, es: seq<Event>, fs: seq<Event>)
    requires Legal(p, w, es) && Legal(p, Exec(p, w, es), fs)
    ensures Legal(p, w, es + fs) && Exec(p, w, es + fs) == Exec(p, Exec(p, w, es), fs)
    decreases |es|
  {
    if es == [] {
      assert es + fs == fs;
    } else {
      assert (es + fs)[0] == es[0] && (es + fs)[1..] == es[1..] + fs;
      LegalConcat(p, Apply(p, w, es[0]), es[1..], fs);
    }
  }

  /** Facts that survive a run: sessions of turns and owners of requests never change, a finished turn stays
      finished, and an abort call keeps what it remembered. */
  ghost predicate Onward(w: World, w': World) {
    && (forall t :: t in w.turns ==> t in w'.turns && w'.turns[t].sid == w.turns[t].sid
                                     && (Past(w.turns[t].phase) ==> Past(w'.turns[t].phase)))
    && (forall id :: id in w.requests ==> id in w'.requests && w'.requests[id] == w.requests[id])
    && (forall a :: a in w.aborts ==> a in w'.aborts && SameCall(w.aborts[a], w'.aborts[a]))
  }

  predicate SameCall(c: AbortCall, c': AbortCall) {
    c'.(inFlight := c.inFlight) == c && (c'.inFlight ==> c.inFlight)
  }

  lemma PastStays(t: TurnId, x: Seat, a: Act, entered: bool)
    requires CanAct(x, a)
    ensures var y := TurnStep(t, x, a, entered);
      y.u.sid == x.u.sid && y.u.worker == x.u.worker && (Past(x.u.phase) ==> Past(y.u.phase))
  {
  }

  lemma StepOnward(p: Pool, w: World, e: Event)
    requires Enabled(p, w, e)
    ensures Onward(w, Apply(p, w, e))
  {
    if e.OnTurn? { PastStays(e.t, SeatOf(w, e.t), e.act, OwnsEntry(w, e.t)); }
  }

  lemma {:induction false} RunOnward(p: Pool, w: World, es: seq<Event>)
    requires Legal(p, w, es)
    ensures Onward(w, Exec(p, w, es))
    decreases |es|
  {
    if es != [] {
      StepOnward(p, w, es[0]);
      RunOnward(p, Apply(p, w, es[0]), es[1..]);
    }
  }

  /** An abort call of a run: made after `pre`, finishing after `mid` more steps of anybody. */
  datatype Call = Call(a: AbortId, caller: nat, sid: Sid, source: L.Source, id: ReqId)

  function Made(c: Call): Event { AbortStart(c.a, c.caller, c.sid, c.source, c.id) }

  ghost predicate CallRuns(p: Pool, pre: seq<Event>, c: Call, mid: seq<Event>) {
    && Run(p, pre) && Enabled(p, Reached(p, pre), Made(c))
    && Legal(p, Apply(p, Reached(p, pre), Made(c)), mid)
    && Enabled(p, Before(p, pre, c, mid), AbortFinish(c.a))
  }

  /** The world just before the call finishes. */
  ghost function Before(p: Pool, pre: seq<Event>, c: Call, mid: seq<Event>): World
    requires Run(p, pre) && Enabled(p, Reached(p, pre), Made(c)) && Legal(p, Apply(p, Reached(p, pre), Made(c)), mid)
  {
    Exec(p, Apply(p, Reached(p, pre), Made(c)), mid)
  }

  lemma CallInv(p: Pool, pre: seq<Event>, c: Call, mid: seq<Event>)
    requires CallRuns(p, pre, c, mid)
    ensures Inv(p, Reached(p, pre)) && Inv(p, Before(p, pre, c, mid))
  {
    ReachedInv(p, pre);
    StepInv(p, Reached(p, pre), Made(c));
    RunInv(p, Apply(p, Reached(p, pre), Made(c)), mid);
  }

  lemma OnwardTrans(w1: World, w2: World, w3: World)
    requires Onward(w1, w2) && Onward(w2, w3)
    ensures Onward(w1, w3)
  {
  }

  lemma CallFacts(p: Pool, pre: seq<Event>, c: Call, mid: seq<Event>)
    requires CallRuns(p, pre, c, mid)
    ensures var w1, w3 := Reached(p, pre), Before(p, pre, c, mid);
      && Onward(w1, w3)
      && c.a in w3.aborts && w3.aborts[c.a] == Aim(w1, c.caller, c.sid, c.source, c.id)
  {
    var w1 := Reached(p, pre);
    var w2 := Apply(p, w1, Made(c));
    StepOnward(p, w1, Made(c));
    RunOnward(p, w2, mid);
    OnwardTrans(w1, w2, Exec(p, w2, mid));
    assert w2.aborts[c.a] == Aim(w1, c.caller, c.sid, c.source, c.id);
  }

  /** A call made in `w1` is about to strike in `w3`. */
  ghost predicate Strikes(p: Pool, w1: World, w3: World, c: Call) {
    && Inv(p, w1) && Inv(p, w3) && Onward(w1, w3) && AbortWorker(w1, c.caller, c.sid) < p.size
    && c.a in w3.aborts && w3.aborts[c.a] == Aim(w1, c.caller, c.sid, c.source, c.id)
  }

  lemma CallStrikes(p: Pool, pre: seq<Event>, c: Call, mid: seq<Event>)
    requires CallRuns(p, pre, c, mid)
    ensures var w1, w3 := Reached(p, pre), Before(p, pre, c, mid);
      Strikes(p, w1, w3, c) && Apply(p, w3, AbortFinish(c.a)) == Struck(w3, c.a)
  {
    hide CoreInv, RequestInv, AimOk, Onward, Aim, Struck;
    CallInv(p, pre, c, mid);
    CallFacts(p, pre, c, mid);
  }

  lemma StrikeCancels(p: Pool, w1: World, w3: World, c: Call)
    requires Strikes(p, w1, w3, c)
    ensures var w4 := Struck(w3, c.a);
      && w3.cancelled <= w4.cancelled
      && (forall t :: t in w4.cancelled && t !in w3.cancelled ==>
            Registered(w1, t, c.sid) && (EntryOf(w1, c.sid).Some? ==> EntryOf(w1, c.sid) == Some(t)))
      && w4.workers == w3.workers && w4.turns == w3.turns && w4.active == w3.active
  {
    hide RequestInv, Onward, Registered;
    AimIsOk(p, w1, c.caller, c.sid, c.source, c.id);
    AimedTokens(w1, w3.aborts[c.a]);
  }

  lemma AimedTokens(w: World, c: AbortCall)
    requires AimOk(w, c)
    ensures c.entry.Some? ==> c.token == c.entry
    ensures c.token.Some? ==> Registered(w, c.token.value, c.sid)
  {
  }

  /** Whatever happened during the RPC, the call ignites at most the token of a turn of its session that was
      registered when it was made. */
  lemma AbortCancelsOnlyItsAim(p: Pool, pre: seq<Event>, c: Call, mid: seq<Event>)
    requires CallRuns(p, pre, c, mid)
    ensures var w1, w3 := Reached(p, pre), Before(p, pre, c, mid);
      var w4 := Apply(p, w3, AbortFinish(c.a));
      && w3.cancelled <= w4.cancelled
      && (forall t :: t in w4.cancelled && t !in w3.cancelled ==>
            Registered(w1, t, c.sid) && (EntryOf(w1, c.sid).Some? ==> EntryOf(w1, c.sid) == Some(t)))
      && w4.workers == w3.workers && w4.turns == w3.turns && w4.active == w3.active
  {
    var w1, w3 := Reached(p, pre), Before(p, pre, c, mid);
    hide *;
    CallStrikes(p, pre, c, mid);
    StrikeCancels(p, w1, w3, c);
  }

  /** What a finishing call takes out of the registries. */
  lemma StruckPending(w: World, a: AbortId, b: nat, id: ReqId)
    requires a in w.aborts && w.aborts[a].worker < |w.workers| == |w.rpcs| && b < |w.rpcs|
    requires id in w.rpcs[b].pending && id !in Struck(w, a).rpcs[b].pending
    ensures b == w.aborts[a].worker && (id == w.aborts[a].id || id in w.aborts[a].snapshot)
  {
  }

  lemma SnapshotIsOfSession(w: World, c: AbortCall, id: ReqId)
    requires AimOk(w, c) && id in c.snapshot
    ensures OfSession(w, c.sid, id)
  {
  }

  lemma StrikeFails(p: Pool, w1: World, w3: World, c: Call, b: nat, id: ReqId)
    requires Strikes(p, w1, w3, c) && b < p.size && id != c.id
    requires id in w3.rpcs[b].pending && id !in Struck(w3, c.a).rpcs[b].pending
    ensures id in w1.rpcs[b].pending && OfSession(w3, c.sid, id)
  {
    hide RequestInv, Onward, AimOk, Struck, OfSession;
    StruckPending(w3, c.a, b, id);
    SnapshotIsOfSession(w3, w3.aborts[c.a], id);
  }

  /** Apart from its own request, only futures that were pending on its worker when the call was made can go,
      and none of them is a request of another session's turn. */
  lemma AbortFailsOnlyItsSession(p: Pool, pre: seq<Event>, c: Call, mid: seq<Event>, b: nat, id: ReqId)
    requires CallRuns(p, pre, c, mid) && b < p.size && id != c.id
    requires id in Before(p, pre, c, mid).rpcs[b].pending
    requires id !in Apply(p, Before(p, pre, c, mid), AbortFinish(c.a)).rpcs[b].pending
    ensures id in Reached(p, pre).rpcs[b].pending && OfSession(Before(p, pre, c, mid), c.sid, id)
  {
    var w1, w3 := Reached(p, pre), Before(p, pre, c, mid);
    hide *;
    CallStrikes(p, pre, c, mid);
    StrikeFails(p, w1, w3, c, b, id);
  }

  lemma StrikeBlames(p: Pool, w1: World, w3: World, c: Call)
    requires Strikes(p, w1, w3, c)
    ensures var w4 := Struck(w3, c.a);
      w4.ledger == w3.ledger
      || (var t := BlamedIn(w3, c.a);
          && t.Some? && t.value in w3.turns && w3.turns[t.value].sid == c.sid
          && w4.ledger == L.Record(w3.ledger, t.value, c.source)
          && (EntryOf(w1, c.sid).Some? ==> EntryOf(w1, c.sid) == t))
    ensures w3.aborts[c.a].worker < |w3.workers|
      && (w3.workers[w3.aborts[c.a].worker].marker in {None, Some(c.sid)} && c.sid != "" && c.sid in w1.active ==>
            Struck(w3, c.a).ledger == L.Record(w3.ledger, w1.active[c.sid], c.source))
  {
    hide RequestInv, Onward, L.Record;
    AimedTokens(w3, w3.aborts[c.a]);
  }

  /** A ledger write names a turn of the session, and exactly the snapshot turn when one was registered; and when one
      was, there is a write unless another session's turn is marked active on the worker by then. */
  lemma AbortBlamesItsSession(p: Pool, pre: seq<Event>, c: Call, mid: seq<Event>)
    requires CallRuns(p, pre, c, mid)
    ensures var w1, w3 := Reached(p, pre), Before(p, pre, c, mid);
      var w4 := Apply(p, w3, AbortFinish(c.a));
      w4.ledger == w3.ledger
      || (var t := BlamedTurn(p, pre, c, mid);
          && t.Some? && t.value in w3.turns && w3.turns[t.value].sid == c.sid
          && w4.ledger == L.Record(w3.ledger, t.value, c.source)
          && (EntryOf(w1, c.sid).Some? ==> EntryOf(w1, c.sid) == t))
    ensures var w1, w3 := Reached(p, pre), Before(p, pre, c, mid);
      && c.a in w3.aborts && w3.aborts[c.a].worker < |w3.workers|
      && (w3.workers[w3.aborts[c.a].worker].marker in {None, Some(c.sid)} && c.sid != "" && c.sid in w1.active ==>
            Apply(p, w3, AbortFinish(c.a)).ledger == L.Record(w3.ledger, w1.active[c.sid], c.source))
  {
    var w1, w3 := Reached(p, pre), Before(p, pre, c, mid);
    assert c.a in w3.aborts;
    assert BlamedTurn(p, pre, c, mid) == BlamedIn(w3, c.a);
    hide *;
    CallStrikes(p, pre, c, mid);
    StrikeBlames(p, w1, w3, c);
  }

  /** The turn that abort `a` writes its source for if it strikes in `w`. */
  ghost function BlamedIn(w: World, a: AbortId): Option<TurnId>
    requires a in w.aborts && w.aborts[a].worker < |w.workers|
  {
    if OtherSessionActive(w.workers[w.aborts[a].worker], w.aborts[a].sid) then None else Blamed(w, w.aborts[a])
  }

  /** The turn a finishing call writes its source for, if it writes at all. */
  ghost function BlamedTurn(p: Pool, pre: seq<Event>, c: Call, mid: seq<Event>): Option<TurnId>
    requires CallRuns(p, pre, c, mid)
  {
    BlamedIn(Before(p, pre, c, mid), c.a)
  }

  /** The current turn of a worker owns its lease, so it has not finished. */
  lemma CurrentIsLeased(p: Pool, w: World, b: nat, t: TurnId)
    requires CoreInv(p, w) && b < p.size && w.workers[b].current == Some(t)
    ensures t in w.turns && Leased(w.turns[t].phase)
  {
    var k := w.workers[b];
    assert WorkerOk(k) && OwnerHere(w, b, k);
    assert SeatOk(t, w.workers[w.turns[t].worker], w.turns[t]);
  }

  /** A turn that is in flight later and was registered before was in the table before. */
  lemma InFlightWasEntered(p: Pool, w: World, w': World, t: TurnId, s: Sid)
    requires CoreInv(p, w) && Onward(w, w') && Registered(w, t, s) && t in w'.turns && Leased(w'.turns[t].phase)
    ensures s in w.active
  {
    assert !Past(w.turns[t].phase);
    assert EntryOk(w, t, w.turns[t]);
  }

  /** The call can blame a turn that started after it was made, and it does so exactly when no turn of the
      session was in the table at the time. */
  lemma BlamesSuccessorIff(p: Pool, pre: seq<Event>, c: Call, mid: seq<Event>)
    requires CallRuns(p, pre, c, mid) && c.sid != "" && BlamedTurn(p, pre, c, mid).Some?
    ensures !Registered(Reached(p, pre), BlamedTurn(p, pre, c, mid).value, c.sid)
            <==> c.sid !in Reached(p, pre).active
  {
    hide CoreInv, RequestInv, Onward, Registered, AimOk;
    CallInv(p, pre, c, mid);
    CallFacts(p, pre, c, mid);
    var w1, w3 := Reached(p, pre), Before(p, pre, c, mid);
    var t := BlamedTurn(p, pre, c, mid).value;
    var aim := w3.aborts[c.a];
    AimIsOk(p, w1, c.caller, c.sid, c.source, c.id);
    if c.sid in w1.active {
      assert aim.entry == Some(t) == aim.token && Registered(w1, t, c.sid) by { AimedTurn(w1, aim, t); }
    } else {
      CurrentIsLeased(p, w3, aim.worker, t);
      if Registered(w1, t, c.sid) { InFlightWasEntered(p, w1, w3, t, c.sid); }
    }
  }

  lemma AimedTurn(w: World, c: AbortCall, t: TurnId)
    requires AimOk(w, c) && c.entry == Some(t)
    ensures c.token == Some(t) && Registered(w, t, c.sid)
  {
  }

  // ---------------------------------------------------------------- vendor transcripts

  /** A prompt that its turn still waited for when it was written finds only its own session (and anonymous prompts)
      on the transcript exactly if no abandoned prompt of another session was handled since the last answered
      reset. Without anonymous turns it finds only its own session exactly then. */
  lemma TranscriptsAreIsolated(p: Pool, es: seq<Event>, b: nat, d: Delivery)
    requires Run(p, es) && b < |Reached(p, es).rpcs| && d in Reached(p, es).rpcs[b].deliveries
    ensures d.sid != "" && !d.stale ==> (d.seen <= {d.sid, ""} <==> d.strays <= {d.sid, ""})
    ensures NoAnonymous(Reached(p, es)) && !d.stale ==> d.sid != "" && (d.seen <= {d.sid} <==> d.strays <= {d.sid})
  {
    ReachedInv(p, es);
    var w := Reached(p, es);
    assert BoxOk(w.workers[b], w.rpcs[b]) && PipeOk(w, b, w.rpcs[b]);
    assert Isolated(d);
  }

  // ---------------------------------------------------------------- respawn

  predicate RunsOn(w: World, t: TurnId, b: nat) { t in w.turns && w.turns[t].worker == b }

  /** `start()` clears the death event. It can begin exactly when the process is gone and no turn holds the worker; so
      a turn that is draining events can always observe the death of its process, and a dead worker that nobody holds
      can always be started again. */
  lemma RespawnWaitsForTurns(p: Pool, es: seq<Event>)
    requires Run(p, es)
    ensures var w := Reached(p, es);
      && Sized(p, w)
      && (forall b :: 0 <= b < p.size ==>
            (Enabled(p, w, OnRpc(b, RespawnBegin)) <==>
             !w.rpcs[b].alive && forall t :: RunsOn(w, t, b) ==> !Holding(w.turns[t].phase)))
      && (forall t :: t in w.turns && w.turns[t].phase.Draining? ==>
            w.rpcs[w.turns[t].worker].alive || w.rpcs[w.turns[t].worker].died)
  {
    var w := Reached(p, es);
    hide Run, Reached, CoreInv, RequestInv, VendorInv, SeatOk, WorkerOk, SeatVendor, CanIo, Enabled, Inv;
    ReachedInv(p, es);
    forall b | 0 <= b < p.size
      ensures b < |w.rpcs| && (Enabled(p, w, OnRpc(b, RespawnBegin)) <==>
               !w.rpcs[b].alive && forall t :: RunsOn(w, t, b) ==> !Holding(w.turns[t].phase))
    {
      RespawnIff(p, w, b);
    }
    forall t | t in w.turns && w.turns[t].phase.Draining?
      ensures w.rpcs[w.turns[t].worker].alive || w.rpcs[w.turns[t].worker].died
    {
      DrainingSeesDeath(p, w, t);
    }
    assert Sized(p, w) by { InvSized(p, w); }
  }

  lemma RespawnIff(p: Pool, w: World, b: nat)
    requires Inv(p, w) && b < p.size
    ensures b < |w.rpcs|
      && (Enabled(p, w, OnRpc(b, RespawnBegin)) <==>
          !w.rpcs[b].alive && forall t :: RunsOn(w, t, b) ==> !Holding(w.turns[t].phase))
  {
    hide RequestInv, EntryOk, Registered, AimOk;
    var k := w.workers[b];
    assert WorkerOk(k) && OwnerHere(w, b, k);
    forall t | RunsOn(w, t, b) ensures Holding(w.turns[t].phase) <==> k.owner == Some(t) {
      assert SeatOk(t, w.workers[w.turns[t].worker], w.turns[t]);
    }
    assert k.owner.Some? ==> RunsOn(w, k.owner.value, b);
  }

  lemma InvSized(p: Pool, w: World)
    requires Inv(p, w)
    ensures Sized(p, w)
  {
  }

  lemma DrainingSeesDeath(p: Pool, w: World, t: TurnId)
    requires VendorInv(p, w) && t in w.turns && w.turns[t].phase.Draining?
    ensures w.turns[t].worker < |w.rpcs| && (w.rpcs[w.turns[t].worker].alive || w.rpcs[w.turns[t].worker].died)
  {
    hide BoxOk, PipeOk, ResetOkFor;
    assert SeatVendor(w.workers[w.turns[t].worker], w.rpcs[w.turns[t].worker], w.turns[t]);
  }
}
