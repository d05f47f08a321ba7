/** What every step of the turn protocol keeps. */
module TurnInvariant {
  import opened Wrappers
  import opened TurnState
  import L = AbortLedger

  // ---------------------------------------------------------------- lock, lease, marker, table

  /** One worker: the lock has an owner exactly while it is locked, the registered lease is the owner's, the
      current turn is the lease's, a marker needs a current turn, and no release was ever refused. */
  predicate WorkerOk(k: Worker) {
    && (k.locked <==> k.owner.Some?)
    && (k.lease.Some? ==> k.lease == k.owner)
    && (k.current.Some? ==> k.current == k.lease)
    && (k.marker.Some? ==> k.current.Some?)
    && k.refused == 0
  }

  /** One turn and its worker: what the worker's fields say about the turn at each of its awaits. */
  predicate SeatOk(t: TurnId, k: Worker, u: Turn) {
    && (Holding(u.phase) <==> k.owner == Some(t))
    && (Leased(u.phase) <==> k.lease == Some(t))
    && (Published(u.phase) ==> k.marker == Some(u.sid) && k.current == Some(t))
    && (u.phase.Settling? ==> k.marker == None && (u.streaming ==> k.current == None))
    && (u.leaseReleased ==> Past(u.phase))
    && (u.phase.InnerUnreg? || u.phase.OuterUnreg? ==> u.leaseReleased)
    && u.acquisitions == u.releases + (if Holding(u.phase) then 1 else 0)
  }

  /** The owner of a worker's lock is a turn routed to it. */
  ghost predicate OwnerHere(w: World, b: nat, k: Worker) {
    k.owner.Some? ==> k.owner.value in w.turns && w.turns[k.owner.value].worker == b
  }

  predicate Entered(ph: Phase) { !ph.Waiting? && !ph.AwaitWriter? }

  /** `t` is a turn of session `s` that has been registered. */
  ghost predicate Registered(w: World, t: TurnId, s: Sid) {
    t in w.turns && w.turns[t].sid == s && Entered(w.turns[t].phase)
  }

  /** A turn that owns the lease is the table entry of its session. */
  ghost predicate EntryOk(w: World, t: TurnId, u: Turn) {
    Leased(u.phase) ==> u.sid in w.active && w.active[u.sid] == t
  }

  ghost predicate CoreInv(p: Pool, w: World) {
    && Sized(p, w)
    && (forall b :: 0 <= b < p.size ==> WorkerOk(w.workers[b]) && OwnerHere(w, b, w.workers[b]))
    && (forall t :: t in w.turns ==> SeatOk(t, w.workers[w.turns[t].worker], w.turns[t]) && EntryOk(w, t, w.turns[t]))
    && (forall s :: s in w.active ==> Registered(w, w.active[s], s))
  }

  // ---------------------------------------------------------------- requests and aborts

  /** A pending request issued by a turn belongs to the turn parked on it, on this worker. */
  ghost predicate PendingOk(w: World, b: nat, id: ReqId) {
    id in w.requests && (w.requests[id].ByTurn? ==> ParkedAt(w, w.requests[id].turn, b, id))
  }

  ghost predicate ParkedAt(w: World, t: TurnId, b: nat, id: ReqId) {
    t in w.turns && w.turns[t].worker == b && Awaits(w.turns[t].phase, id)
  }

  /** The request a turn is parked on is its own. */
  ghost predicate ParkedOk(w: World, t: TurnId, ph: Phase) {
    ph.Resetting? || ph.Prompting? ==> ph.id in w.requests && w.requests[ph.id] == ByTurn(t)
  }

  /** A request is pending or answered, never both, and both kinds were issued. */
  ghost predicate RpcOk(w: World, b: nat, r: Rpc) {
    && (forall id :: id in r.pending ==> id !in r.answers && PendingOk(w, b, id))
    && (forall id :: id in r.answers ==> id in w.requests)
  }

  ghost predicate RequestInv(w: World) {
    && (forall b :: 0 <= b < |w.rpcs| ==> RpcOk(w, b, w.rpcs[b]))
    && (forall t :: t in w.turns ==> ParkedOk(w, t, w.turns[t].phase))
  }

  /** A request is an abort's, or a turn's of session `s`. */
  ghost predicate OfSession(w: World, s: Sid, id: ReqId) {
    id in w.requests &&
    (w.requests[id].ByTurn? ==> w.requests[id].turn in w.turns && w.turns[w.requests[id].turn].sid == s)
  }

  /** What an abort call remembers names only turns and requests of its own session. */
  ghost predicate AimOk(w: World, c: AbortCall) {
    && (c.entry.Some? ==> c.token == c.entry)
    && (c.token.Some? ==> Registered(w, c.token.value, c.sid))
    && (forall id :: id in c.snapshot ==> OfSession(w, c.sid, id))
  }

  ghost predicate Inv(p: Pool, w: World) {
    CoreInv(p, w) && RequestInv(w) && (forall a :: a in w.aborts ==> AimOk(w, w.aborts[a]))
  }

  lemma StartInv(p: Pool)
    requires PoolOk(p)
    ensures Inv(p, Start(p))
  {
  }

  // ---------------------------------------------------------------- a step of one turn

  predicate FreeFor(o: Option<TurnId>, t: TurnId) { o.None? || o == Some(t) }

  /** What a turn step may do to its seat, seen without any other turn. */
  predicate GoodStep(t: TurnId, x: Seat, a: Act, y: Seat) {
    && y.u.sid == x.u.sid && y.u.worker == x.u.worker && y.u.streaming == x.u.streaming
    && WorkerOk(y.k) && SeatOk(t, y.k, y.u)
    && (y.k == x.k || y.k == x.k.(bound := y.k.bound) || (FreeFor(x.k.owner, t) && FreeFor(y.k.owner, t)))
    && (Leased(y.u.phase) ==> Leased(x.u.phase) || a.WriterOk?)
    && (a.WriterOk? ==> x.k.owner == Some(t) && x.k.lease == None && Entered(y.u.phase))
    && (a.Unregister? ==> y == x && !Leased(x.u.phase))
    && (Entered(x.u.phase) ==> Entered(y.u.phase))
  }

  lemma ReleaseGood(t: TurnId, x: Seat, ph: Phase)
    requires WorkerOk(x.k) && x.k.owner == x.k.lease == Some(t) && x.k.marker == None && x.k.current == None
    requires !x.u.leaseReleased && x.u.acquisitions == x.u.releases + 1 && (ph.InnerUnreg? || ph.OuterUnreg?)
    ensures var y := Release(t, x, ph);
            && WorkerOk(y.k) && SeatOk(t, y.k, y.u) && y.k.owner == None
            && y.u.sid == x.u.sid && y.u.worker == x.u.worker && y.u.streaming == x.u.streaming && y.u.phase == ph
  {
  }

  /** The outer finally: before the release it drops what is left of this turn, after it it changes nothing. */
  lemma OuterGood(t: TurnId, x: Seat)
    requires WorkerOk(x.k) && SeatOk(t, x.k, x.u) && (Leased(x.u.phase) || x.u.phase.InnerUnreg?)
    ensures var y := Outer(t, x);
            && WorkerOk(y.k) && SeatOk(t, y.k, y.u) && y.u.phase.OuterUnreg?
            && y.u.sid == x.u.sid && y.u.worker == x.u.worker && y.u.streaming == x.u.streaming
            && (if Leased(x.u.phase) then y.k.owner == None else y.k == x.k)
  {
    if Leased(x.u.phase) {
      ReleaseGood(t, x.(k := Backstopped(x.k, t)), OuterUnreg);
    }
  }

  lemma LeftGood(t: TurnId, x: Seat, cause: Cause)
    requires CanAct(x, Unwind(cause)) && WorkerOk(x.k) && SeatOk(t, x.k, x.u)
    ensures GoodStep(t, x, Unwind(cause), Left(t, x, cause))
  {
    var y := if x.u.phase.Resetting? || x.u.phase.Prompting? then x.(r := GivenUp(x.r, x.u.phase.id)) else x;
    OuterGood(t, y);
  }

  /** Every step is a good step: in particular a release is never refused, and an unregister of a finished
      turn changes nothing on its worker. */
  lemma TurnStepGood(t: TurnId, x: Seat, a: Act, entered: bool)
    requires CanAct(x, a) && WorkerOk(x.k) && SeatOk(t, x.k, x.u)
    ensures GoodStep(t, x, a, TurnStep(t, x, a, entered))
  {
    match a
    case Unwind(cause) => LeftGood(t, x, cause);
    case SettleEnds =>
      ReleaseGood(t, if x.u.streaming then x else x.(k := CurrentCleared(x.k, t)), InnerUnreg);
    case SettleRaises => OuterGood(t, x);
    case InnerUnregEnds => OuterGood(t, x);
    case _ =>
  }

  lemma SeatsKept(p: Pool, w: World, t: TurnId, a: Act, y: Seat, v: TurnId)
    requires CoreInv(p, w) && t in w.turns && v in w.turns && GoodStep(t, SeatOf(w, t), a, y)
    ensures var w' := Reseated(w, t, a, y);
            && w'.turns[v].worker == w.turns[v].worker < |w'.workers|
            && SeatOk(v, w'.workers[w'.turns[v].worker], w'.turns[v])
  {
    assert SeatOk(v, w.workers[w.turns[v].worker], w.turns[v]);
    assert WorkerOk(w.workers[w.turns[t].worker]);
  }

  lemma EntriesKept(p: Pool, w: World, t: TurnId, a: Act, y: Seat, v: TurnId)
    requires CoreInv(p, w) && t in w.turns && v in w.turns && GoodStep(t, SeatOf(w, t), a, y)
    ensures var w' := Reseated(w, t, a, y); EntryOk(w', v, w'.turns[v])
  {
    assert EntryOk(w, v, w.turns[v]) && SeatOk(v, w.workers[w.turns[v].worker], w.turns[v]);
    assert WorkerOk(w.workers[w.turns[t].worker]);
  }

  lemma WorkersKept(p: Pool, w: World, t: TurnId, a: Act, y: Seat, c: nat)
    requires CoreInv(p, w) && t in w.turns && GoodStep(t, SeatOf(w, t), a, y) && c < p.size
    ensures var w' := Reseated(w, t, a, y);
      c < |w'.workers| && WorkerOk(w'.workers[c]) && OwnerHere(w', c, w'.workers[c])
  {
    hide EntryOk, Registered;
    assert WorkerOk(w.workers[c]) && OwnerHere(w, c, w.workers[c]);
  }

  lemma TableKept(p: Pool, w: World, t: TurnId, a: Act, y: Seat, s: Sid)
    requires CoreInv(p, w) && t in w.turns && GoodStep(t, SeatOf(w, t), a, y) && s in Reseated(w, t, a, y).active
    ensures var w' := Reseated(w, t, a, y); Registered(w', w'.active[s], s)
  {
    hide EntryOk, OwnerHere, SeatOk, WorkerOk;
    assert s in w.active ==> Registered(w, w.active[s], s);
  }

  lemma SizedKept(p: Pool, w: World, t: TurnId, a: Act, y: Seat)
    requires Sized(p, w) && t in w.turns && y.u.sid == w.turns[t].sid && y.u.worker == w.turns[t].worker
    ensures Sized(p, Reseated(w, t, a, y))
  {
  }

  lemma CoreFrame(p: Pool, w: World, t: TurnId, a: Act, y: Seat)
    requires CoreInv(p, w) && t in w.turns && GoodStep(t, SeatOf(w, t), a, y)
    ensures CoreInv(p, Reseated(w, t, a, y))
  {
    hide SeatOk, EntryOk, WorkerOk, OwnerHere, Registered, Reseated;
    var w' := Reseated(w, t, a, y);
    SizedKept(p, w, t, a, y);
    assert w'.turns.Keys == w.turns.Keys by { TurnsKept(w, t, a, y); }
    forall v | v in w'.turns
      ensures w'.turns[v].worker < |w'.workers|
           && SeatOk(v, w'.workers[w'.turns[v].worker], w'.turns[v]) && EntryOk(w', v, w'.turns[v])
    {
      SeatsKept(p, w, t, a, y, v);
      EntriesKept(p, w, t, a, y, v);
    }
    forall c | 0 <= c < p.size ensures c < |w'.workers| && WorkerOk(w'.workers[c]) && OwnerHere(w', c, w'.workers[c]) {
      WorkersKept(p, w, t, a, y, c);
    }
    forall s | s in w'.active ensures Registered(w', w'.active[s], s) { TableKept(p, w, t, a, y, s); }
  }

  lemma TurnsKept(w: World, t: TurnId, a: Act, y: Seat)
    requires t in w.turns && w.turns[t].worker < |w.workers| == |w.rpcs|
    ensures Reseated(w, t, a, y).turns.Keys == w.turns.Keys
  {
  }

  lemma CoreTurn(p: Pool, w: World, t: TurnId, a: Act)
    requires CoreInv(p, w) && Enabled(p, w, OnTurn(t, a))
    ensures CoreInv(p, Acted(w, t, a))
  {
    TurnStepGood(t, SeatOf(w, t), a, OwnsEntry(w, t));
    CoreFrame(p, w, t, a, TurnStep(t, SeatOf(w, t), a, OwnsEntry(w, t)));
  }

  // ---------------------------------------------------------------- requests across a turn step

  predicate Parked(ph: Phase) { ph.Resetting? || ph.Prompting? }

  /** What a turn step may do to the request registry: it issues at most one request, parks on it, and a
      request it no longer waits for is not pending. */
  ghost predicate GoodCall(x: Seat, a: Act, y: Seat) {
    && (forall id :: id in y.r.pending ==> id in x.r.pending || (Issues(a) && id == a.id))
    && y.r.answers == x.r.answers
    && (Parked(y.u.phase) ==> (Issues(a) && y.u.phase.id == a.id) || y.u.phase == x.u.phase)
    && (Issues(a) ==> Awaits(y.u.phase, a.id))
    && (Parked(x.u.phase) && y.u.phase != x.u.phase ==> x.u.phase.id !in y.r.pending)
    && y.u.worker == x.u.worker
  }

  lemma TurnStepCalls(t: TurnId, x: Seat, a: Act, entered: bool)
    requires CanAct(x, a)
    requires Parked(x.u.phase) && x.u.phase.id in x.r.answers ==> x.u.phase.id !in x.r.pending
    requires Issues(a) && Parked(x.u.phase) ==> a.id != x.u.phase.id
    ensures GoodCall(x, a, TurnStep(t, x, a, entered))
  {
  }

  lemma RequestFrame(p: Pool, w: World, t: TurnId, a: Act, y: Seat)
    requires Sized(p, w) && RequestInv(w) && t in w.turns && GoodCall(SeatOf(w, t), a, y)
    requires Issues(a) ==> a.id !in w.requests
    ensures RequestInv(Reseated(w, t, a, y))
  {
    var w' := Reseated(w, t, a, y);
    forall b | 0 <= b < |w'.rpcs| ensures RpcOk(w', b, w'.rpcs[b]) {
      assert RpcOk(w, b, w.rpcs[b]);
      forall id | id in w'.rpcs[b].pending ensures id !in w'.rpcs[b].answers && PendingOk(w', b, id) {
        assert id in w.rpcs[b].pending ==> PendingOk(w, b, id);
      }
    }
    forall v | v in w'.turns ensures ParkedOk(w', v, w'.turns[v].phase) {
      assert ParkedOk(w, v, w.turns[v].phase);
    }
  }

  lemma RequestTurn(p: Pool, w: World, t: TurnId, a: Act)
    requires Inv(p, w) && Enabled(p, w, OnTurn(t, a))
    ensures RequestInv(Acted(w, t, a))
  {
    var x := SeatOf(w, t);
    assert RpcOk(w, x.u.worker, x.r) && ParkedOk(w, t, x.u.phase);
    TurnStepCalls(t, x, a, OwnsEntry(w, t));
    RequestFrame(p, w, t, a, TurnStep(t, x, a, OwnsEntry(w, t)));
  }

  lemma AimFrame(p: Pool, w: World, t: TurnId, a: Act, y: Seat, c: AbortCall)
    requires CoreInv(p, w) && AimOk(w, c) && t in w.turns && GoodStep(t, SeatOf(w, t), a, y)
    requires Issues(a) ==> a.id !in w.requests
    ensures AimOk(Reseated(w, t, a, y), c)
  {
    var w' := Reseated(w, t, a, y);
    forall id | id in c.snapshot ensures OfSession(w', c.sid, id) { assert OfSession(w, c.sid, id); }
  }

  lemma AimTurn(p: Pool, w: World, t: TurnId, a: Act)
    requires Inv(p, w) && Enabled(p, w, OnTurn(t, a))
    ensures var w' := Acted(w, t, a); forall c :: c in w'.aborts ==> AimOk(w', w'.aborts[c])
  {
    var x := SeatOf(w, t);
    TurnStepGood(t, x, a, OwnsEntry(w, t));
    forall c | c in w.aborts ensures AimOk(Acted(w, t, a), w.aborts[c]) {
      AimFrame(p, w, t, a, TurnStep(t, x, a, OwnsEntry(w, t)), w.aborts[c]);
    }
  }

  // ---------------------------------------------------------------- the other events

  /** Events off the turns: workers, turns, table and existing requests stay. */
  ghost predicate Aside(w: World, w': World) {
    && w'.workers == w.workers && w'.turns == w.turns && w'.active == w.active && |w'.rpcs| == |w.rpcs|
    && (forall id :: id in w.requests ==> id in w'.requests && w'.requests[id] == w.requests[id])
  }

  lemma AsideKeeps(p: Pool, w: World, w': World)
    requires Inv(p, w) && Aside(w, w')
    requires forall c :: c in w'.aborts ==> w'.aborts[c].worker < p.size && AimOk(w, w'.aborts[c])
    requires forall b :: 0 <= b < |w'.rpcs| ==> RpcOk(w', b, w'.rpcs[b])
    ensures Inv(p, w')
  {
    forall b | 0 <= b < p.size ensures WorkerOk(w'.workers[b]) && OwnerHere(w', b, w'.workers[b]) {
      assert WorkerOk(w.workers[b]) && OwnerHere(w, b, w.workers[b]);
    }
    forall t | t in w'.turns
      ensures SeatOk(t, w'.workers[w'.turns[t].worker], w'.turns[t]) && EntryOk(w', t, w'.turns[t])
    {
      assert SeatOk(t, w.workers[w.turns[t].worker], w.turns[t]) && EntryOk(w, t, w.turns[t]);
    }
    forall s | s in w'.active ensures Registered(w', w'.active[s], s) { assert Registered(w, w.active[s], s); }
    forall t | t in w'.turns ensures ParkedOk(w', t, w'.turns[t].phase) { assert ParkedOk(w, t, w.turns[t].phase); }
    forall c | c in w'.aborts ensures AimOk(w', w'.aborts[c]) {
      forall id | id in w'.aborts[c].snapshot ensures OfSession(w', w'.aborts[c].sid, id) {
        assert OfSession(w, w'.aborts[c].sid, id);
      }
    }
  }

  /** A registry that only lost pending requests, or answered them, is still well kept. */
  lemma RpcShrinks(w: World, w': World, b: nat, r: Rpc, r': Rpc)
    requires Aside(w, w') && RpcOk(w, b, r)
    requires r'.pending <= r.pending
    requires forall id :: id in r'.answers ==> id !in r'.pending && (id in r.answers || id in r.pending)
    ensures RpcOk(w', b, r')
  {
    forall id | id in r'.pending ensures id !in r'.answers && PendingOk(w', b, id) { assert PendingOk(w, b, id); }
    forall id | id in r'.answers ensures id in w'.requests { assert id in r.pending ==> PendingOk(w, b, id); }
  }

  lemma RpcAside(w: World, w': World)
    requires Aside(w, w') && RequestInv(w)
    ensures forall b :: 0 <= b < |w.rpcs| ==> RpcOk(w', b, w.rpcs[b])
  {
    forall b | 0 <= b < |w.rpcs| ensures RpcOk(w', b, w.rpcs[b]) {
      assert RpcOk(w, b, w.rpcs[b]);
      RpcShrinks(w, w', b, w.rpcs[b], w.rpcs[b]);
    }
  }

  lemma IoShrinks(r: Rpc, io: Io, wanted: bool)
    requires forall id :: id in r.pending ==> id !in r.answers
    requires io.WriteRuns? ==> io.id in r.unwritten
    requires io.VendorStep? ==> r.inbox != []
    ensures var r' := IoStep(r, io, wanted);
            && r'.pending <= r.pending
            && forall id :: id in r'.answers ==> id !in r'.pending && (id in r.answers || id in r.pending)
  {
  }

  lemma OnRpcKeeps(p: Pool, w: World, b: nat, io: Io)
    requires Inv(p, w) && Enabled(p, w, OnRpc(b, io))
    ensures Inv(p, Apply(p, w, OnRpc(b, io)))
  {
    var w' := Apply(p, w, OnRpc(b, io));
    assert RpcOk(w, b, w.rpcs[b]);
    IoShrinks(w.rpcs[b], io, io.WriteRuns? && Wanted(w, io.id));
    RpcAside(w, w');
    RpcShrinks(w, w', b, w.rpcs[b], w'.rpcs[b]);
    AsideKeeps(p, w, w');
  }

  /** What an abort call takes with it: everything is of its session, because the marker was checked. */
  lemma AimIsOk(p: Pool, w: World, caller: nat, s: Sid, src: L.Source, id: ReqId)
    requires Inv(p, w) && AbortWorker(w, caller, s) < p.size
    ensures AimOk(w, Aim(w, caller, s, src, id))
  {
    var c := Aim(w, caller, s, src, id);
    var b := c.worker;
    var k := w.workers[b];
    assert WorkerOk(k) && OwnerHere(w, b, k) && RpcOk(w, b, w.rpcs[b]);
    if c.entry.Some? { assert Registered(w, w.active[s], s); }
    if k.current.Some? { assert SeatOk(k.current.value, k, w.turns[k.current.value]); }
    forall i | i in c.snapshot ensures OfSession(w, s, i) {
      assert PendingOk(w, b, i);
      if w.requests[i].ByTurn? {
        var t := w.requests[i].turn;
        assert SeatOk(t, k, w.turns[t]);
      }
    }
  }

  lemma AbortStartKeeps(p: Pool, w: World, a: AbortId, caller: nat, s: Sid, src: L.Source, id: ReqId)
    requires Inv(p, w) && Enabled(p, w, AbortStart(a, caller, s, src, id))
    ensures Inv(p, Apply(p, w, AbortStart(a, caller, s, src, id)))
  {
    var w' := Apply(p, w, AbortStart(a, caller, s, src, id));
    var c := Aim(w, caller, s, src, id);
    AimIsOk(p, w, caller, s, src, id);
    RpcAside(w, w');
    assert RpcOk(w, c.worker, w.rpcs[c.worker]);
    assert RpcOk(w', c.worker, w'.rpcs[c.worker]) by {
      assert forall i :: i in w.rpcs[c.worker].pending ==> PendingOk(w', c.worker, i);
    }
    AsideKeeps(p, w, w');
  }

  lemma AbortFinishKeeps(p: Pool, w: World, a: AbortId)
    requires Inv(p, w) && Enabled(p, w, AbortFinish(a))
    ensures Inv(p, Struck(w, a))
  {
    var w' := Struck(w, a);
    var c := w.aborts[a];
    RpcAside(w, w');
    assert RpcOk(w, c.worker, w.rpcs[c.worker]);
    RpcShrinks(w, w', c.worker, w.rpcs[c.worker], w'.rpcs[c.worker]);
    assert forall d :: d in w'.aborts ==> AimOk(w, w.aborts[d]) && AimOk(w, w'.aborts[d]);
    AsideKeeps(p, w, w');
  }

  lemma AbortFailsKeeps(p: Pool, w: World, a: AbortId)
    requires Inv(p, w) && Enabled(p, w, AbortFails(a))
    ensures Inv(p, Apply(p, w, AbortFails(a)))
  {
    var w' := Apply(p, w, AbortFails(a));
    var c := w.aborts[a];
    RpcAside(w, w');
    assert RpcOk(w, c.worker, w.rpcs[c.worker]);
    RpcShrinks(w, w', c.worker, w.rpcs[c.worker], w'.rpcs[c.worker]);
    assert forall d :: d in w'.aborts ==> AimOk(w, w.aborts[d]) && AimOk(w, w'.aborts[d]);
    AsideKeeps(p, w, w');
  }

  lemma BeginCore(p: Pool, w: World, t: TurnId, s: Sid, st: bool)
    requires CoreInv(p, w) && Enabled(p, w, Begin(t, s, st))
    ensures CoreInv(p, Apply(p, w, Begin(t, s, st)))
  {
    var w' := Apply(p, w, Begin(t, s, st));
    forall b | 0 <= b < p.size ensures WorkerOk(w'.workers[b]) && OwnerHere(w', b, w'.workers[b]) {
      assert WorkerOk(w.workers[b]) && OwnerHere(w, b, w.workers[b]);
    }
    forall v | v in w'.turns
      ensures SeatOk(v, w'.workers[w'.turns[v].worker], w'.turns[v]) && EntryOk(w', v, w'.turns[v])
    {
      if v != t { assert SeatOk(v, w.workers[w.turns[v].worker], w.turns[v]) && EntryOk(w, v, w.turns[v]); }
      else {
        var k := w.workers[Route(p, s)];
        assert WorkerOk(k) && OwnerHere(w, Route(p, s), k);
      }
    }
    forall x | x in w'.active ensures Registered(w', w'.active[x], x) { assert Registered(w, w.active[x], x); }
  }

  lemma BeginRequests(p: Pool, w: World, t: TurnId, s: Sid, st: bool)
    requires RequestInv(w) && Enabled(p, w, Begin(t, s, st))
    ensures RequestInv(Apply(p, w, Begin(t, s, st)))
  {
    var w' := Apply(p, w, Begin(t, s, st));
    forall b | 0 <= b < |w'.rpcs| ensures RpcOk(w', b, w'.rpcs[b]) {
      assert RpcOk(w, b, w.rpcs[b]);
      forall id | id in w.rpcs[b].pending ensures PendingOk(w', b, id) { assert PendingOk(w, b, id); }
    }
    forall v | v in w'.turns ensures ParkedOk(w', v, w'.turns[v].phase) {
      assert v in w.turns ==> ParkedOk(w, v, w.turns[v].phase);
    }
  }

  lemma BeginAims(p: Pool, w: World, t: TurnId, s: Sid, st: bool, c: AbortCall)
    requires AimOk(w, c) && Enabled(p, w, Begin(t, s, st))
    ensures AimOk(Apply(p, w, Begin(t, s, st)), c)
  {
    var w' := Apply(p, w, Begin(t, s, st));
    forall id | id in c.snapshot ensures OfSession(w', c.sid, id) { assert OfSession(w, c.sid, id); }
  }

  lemma BeginKeeps(p: Pool, w: World, t: TurnId, s: Sid, st: bool)
    requires Inv(p, w) && Enabled(p, w, Begin(t, s, st))
    ensures Inv(p, Apply(p, w, Begin(t, s, st)))
  {
    hide CoreInv, RequestInv, AimOk;
    BeginCore(p, w, t, s, st);
    BeginRequests(p, w, t, s, st);
    forall a | a in w.aborts ensures AimOk(Apply(p, w, Begin(t, s, st)), w.aborts[a]) {
      BeginAims(p, w, t, s, st, w.aborts[a]);
    }
  }

  // ---------------------------------------------------------------- every event, every run

  /** Every step of every task keeps the invariant. */
  lemma StepInv(p: Pool, w: World, e: Event)
    requires Inv(p, w) && Enabled(p, w, e)
    ensures Inv(p, Apply(p, w, e))
  {
    match e
    case Begin(t, s, st) => BeginKeeps(p, w, t, s, st);
    case OnTurn(t, a) =>
      CoreTurn(p, w, t, a);
      RequestTurn(p, w, t, a);
      AimTurn(p, w, t, a);
    case AbortStart(a, caller, s, src, id) => AbortStartKeeps(p, w, a, caller, s, src, id);
    case AbortFinish(a) => AbortFinishKeeps(p, w, a);
    case AbortFails(a) => AbortFailsKeeps(p, w, a);
    case OnRpc(b, io) => OnRpcKeeps(p, w, b, io);
  }

  lemma {:induction false} RunInv(p: Pool, w: World, es: seq<Event>)
    requires Inv(p, w) && Legal(p, w, es)
    ensures Inv(p, Exec(p, w, es))
    decreases |es|
  {
    if es != [] {
      StepInv(p, w, es[0]);
      RunInv(p, Apply(p, w, es[0]), es[1..]);
    }
  }
}
