/** Concrete runs that show where the protocol's promises stop. */
module TurnWitness {
  import opened Wrappers
  import opened TurnState
  import opened TurnInvariant
  import opened VendorIsolation
  import opened TurnTheorems
  import D = OrderedDictionary
  import L = AbortLedger

  const SOLO := Pool(1, s => 0)

  // ---------------------------------------------------------------- runs of a pool of one worker

  lemma Snoc(p: Pool, es: seq<Event>, e: Event)
    requires Run(p, es) && Enabled(p, Reached(p, es), e)
    ensures Run(p, es + [e]) && Reached(p, es + [e]) == Apply(p, Reached(p, es), e)
  {
    assert [e][1..] == [];
    LegalConcat(p, Start(p), es, [e]);
  }

  lemma StepThen(p: Pool, w: World, e: Event, es: seq<Event>)
    requires Enabled(p, w, e) && Legal(p, Apply(p, w, e), es)
    ensures Legal(p, w, [e] + es) && Exec(p, w, [e] + es) == Exec(p, Apply(p, w, e), es)
  {
    assert ([e] + es)[1..] == es;
  }

  /** A world of one worker. */
  function Solo(k: Worker, r: Rpc, turns: map<TurnId, Turn>, active: map<Sid, TurnId>,
                requests: map<ReqId, Requester>, ledger: L.Ledger<TurnId>): World {
    World([k], [r], turns, active, requests, map[], {}, ledger)
  }

  lemma SoloTurn(es: seq<Event>, k: Worker, r: Rpc, turns: map<TurnId, Turn>, active: map<Sid, TurnId>,
                 requests: map<ReqId, Requester>, t: TurnId, a: Act)
    requires Run(SOLO, es) && Reached(SOLO, es) == Solo(k, r, turns, active, requests, [])
    requires t in turns && turns[t].worker == 0 && CanAct(Seat(k, r, turns[t]), a) && (Issues(a) ==> a.id !in requests)
    requires a != Unwind(ProcessDied) && !a.WriterLost?
    ensures Run(SOLO, es + [OnTurn(t, a)])
    ensures var y := TurnStep(t, Seat(k, r, turns[t]), a, turns[t].sid in active && active[turns[t].sid] == t);
      Reached(SOLO, es + [OnTurn(t, a)])
      == Solo(y.k, y.r, turns[t := y.u], TableStep(t, turns[t].sid, a, active),
              if Issues(a) then requests[a.id := ByTurn(t)] else requests, [])
  {
    ReachedInv(SOLO, es);
    Snoc(SOLO, es, OnTurn(t, a));
    assert D.Find<TurnId, L.Source>([], t) == 0;
  }

  lemma SoloIo(es: seq<Event>, k: Worker, r: Rpc, turns: map<TurnId, Turn>, active: map<Sid, TurnId>,
               requests: map<ReqId, Requester>, io: Io)
    requires Run(SOLO, es) && Reached(SOLO, es) == Solo(k, r, turns, active, requests, []) && CanIo(k, r, io)
    ensures Run(SOLO, es + [OnRpc(0, io)])
    ensures Reached(SOLO, es + [OnRpc(0, io)])
      == Solo(k, IoStep(r, io, io.WriteRuns? && Wanted(Solo(k, r, turns, active, requests, []), io.id)),
              turns, active, requests, [])
  {
    ReachedInv(SOLO, es);
    Snoc(SOLO, es, OnRpc(0, io));
  }

  lemma SoloBegin(es: seq<Event>, k: Worker, r: Rpc, turns: map<TurnId, Turn>, active: map<Sid, TurnId>,
                  requests: map<ReqId, Requester>, t: TurnId, s: Sid)
    requires Run(SOLO, es) && Reached(SOLO, es) == Solo(k, r, turns, active, requests, []) && t !in turns
    ensures Run(SOLO, es + [Begin(t, s, false)])
    ensures Reached(SOLO, es + [Begin(t, s, false)])
      == Solo(k, r, turns[t := Turn(s, false, 0, Waiting, false, 0, 0)], active, requests, [])
  {
    ReachedInv(SOLO, es);
    Snoc(SOLO, es, Begin(t, s, false));
  }

  lemma SoloStart()
    ensures Run(SOLO, []) && Reached(SOLO, []) == Solo(IDLE_WORKER, FRESH_RPC, map[], map[], map[], [])
  {
  }

  /** A turn starts on the free worker and takes its lock. */
  lemma SoloLocks(es: seq<Event>, k: Worker, r: Rpc, turns: map<TurnId, Turn>, active: map<Sid, TurnId>,
                  requests: map<ReqId, Requester>, t: TurnId, s: Sid) returns (es': seq<Event>)
    requires Run(SOLO, es) && Reached(SOLO, es) == Solo(k, r, turns, active, requests, [])
    requires t !in turns && !k.locked
    ensures Run(SOLO, es')
    ensures Reached(SOLO, es')
      == Solo(LockTaken(k, t), r, turns[t := Turn(s, false, 0, AwaitWriter, false, 1, 0)], active, requests, [])
  {
    hide Run, Legal, Exec, Apply, Enabled, Inv;
    SoloBegin(es, k, r, turns, active, requests, t, s);
    var u := Turn(s, false, 0, Waiting, false, 0, 0);
    SoloTurn(es + [Begin(t, s, false)], k, r, turns[t := u], active, requests, t, LockAcquire);
    es' := es + [Begin(t, s, false)] + [OnTurn(t, LockAcquire)];
    var u' := Turn(s, false, 0, AwaitWriter, false, 1, 0);
    assert turns[t := u][t := u'] == turns[t := u'];
  }

  /** It is admitted and registered. */
  lemma SoloAdmits(es: seq<Event>, k: Worker, r: Rpc, turns: map<TurnId, Turn>, active: map<Sid, TurnId>,
                   requests: map<ReqId, Requester>, t: TurnId, s: Sid) returns (es': seq<Event>)
    requires Run(SOLO, es) && Reached(SOLO, es)
      == Solo(k, r, turns[t := Turn(s, false, 0, AwaitWriter, false, 1, 0)], active, requests, [])
    ensures Run(SOLO, es')
    ensures Reached(SOLO, es')
      == Solo(Admitted(k, t, s), r, turns[t := Turn(s, false, 0, Preparing, false, 1, 0)], active[s := t], requests, [])
  {
    hide Run, Legal, Exec, Apply, Enabled, Inv;
    var u := Turn(s, false, 0, AwaitWriter, false, 1, 0);
    SoloTurn(es, k, r, turns[t := u], active, requests, t, WriterOk);
    var u1 := u.(phase := Registering);
    assert turns[t := u][t := u1] == turns[t := u1];
    SoloTurn(es + [OnTurn(t, WriterOk)], Admitted(k, t, s), r, turns[t := u1], active[s := t], requests, t, RegisterOk);
    es' := es + [OnTurn(t, WriterOk)] + [OnTurn(t, RegisterOk)];
    assert turns[t := u1][t := u1.(phase := Preparing)] == turns[t := u1.(phase := Preparing)];
  }

  /** It issues its first request. */
  lemma SoloSends(es: seq<Event>, k: Worker, r: Rpc, turns: map<TurnId, Turn>, active: map<Sid, TurnId>,
                  requests: map<ReqId, Requester>, t: TurnId, s: Sid, id: ReqId) returns (es': seq<Event>)
    requires Run(SOLO, es) && Reached(SOLO, es) == Solo(k, r, turns, active, requests, [])
    requires t !in turns && id !in requests && !k.locked
    ensures Run(SOLO, es')
    ensures var y := TurnStep(t, Seat(Admitted(LockTaken(k, t), t, s), r, Turn(s, false, 0, Preparing, false, 1, 0)),
                              StartSend(id), true);
      Reached(SOLO, es') == Solo(y.k, y.r, turns[t := y.u], active[s := t], requests[id := ByTurn(t)], [])
  {
    hide Run, Legal, Exec, Apply, Enabled, Inv;
    es' := SoloLocks(es, k, r, turns, active, requests, t, s);
    es' := SoloAdmits(es', LockTaken(k, t), r, turns, active, requests, t, s);
    var k1, u := Admitted(LockTaken(k, t), t, s), Turn(s, false, 0, Preparing, false, 1, 0);
    SoloTurn(es', k1, r, turns[t := u], active[s := t], requests, t, StartSend(id));
    es' := es' + [OnTurn(t, StartSend(id))];
    var y := TurnStep(t, Seat(k1, r, u), StartSend(id), true);
    assert turns[t := u][t := y.u] == turns[t := y.u];
  }

  /** The pipe write of a request a turn is parked on runs, and the vendor handles it. */
  lemma SoloDelivers(es: seq<Event>, k: Worker, r: Rpc, turns: map<TurnId, Turn>, active: map<Sid, TurnId>,
                     requests: map<ReqId, Requester>, id: ReqId) returns (es': seq<Event>)
    requires Run(SOLO, es) && Reached(SOLO, es) == Solo(k, r, turns, active, requests, [])
    requires r.alive && id in r.unwritten && r.inbox == []
    ensures Run(SOLO, es')
    ensures var w := Solo(k, r, turns, active, requests, []);
      Reached(SOLO, es') == w.(rpcs := [Handled(Written(r, id, !Wanted(w, id)), true)])
  {
    hide Run, Legal, Exec, Apply, Enabled, Inv;
    SoloIo(es, k, r, turns, active, requests, WriteRuns(id));
    var r1 := Written(r, id, !Wanted(Solo(k, r, turns, active, requests, []), id));
    SoloIo(es + [OnRpc(0, WriteRuns(id))], k, r1, turns, active, requests, VendorStep(true));
    es' := es + [OnRpc(0, WriteRuns(id))] + [OnRpc(0, VendorStep(true))];
  }

  /** The worker after a turn gave up and released it. */
  function Left0(k: Worker): Worker {
    k.(locked := false, owner := None, lease := None, marker := None, current := None)
  }

  function Gone(u: Turn): Turn { u.(phase := InnerUnreg, leaseReleased := true, releases := u.releases + 1) }

  /** A settling turn frees the worker. */
  lemma SoloSettles(es: seq<Event>, k: Worker, r: Rpc, turns: map<TurnId, Turn>, active: map<Sid, TurnId>,
                    requests: map<ReqId, Requester>, t: TurnId) returns (es': seq<Event>)
    requires Run(SOLO, es) && Reached(SOLO, es) == Solo(k, r, turns, active, requests, [])
    requires t in turns && turns[t].worker == 0 && turns[t].phase.Settling? && !turns[t].streaming && k.marker == None
    ensures Run(SOLO, es')
    ensures Reached(SOLO, es') == Solo(Left0(k), r, turns[t := Gone(turns[t])], active, requests, [])
  {
    ReachedInv(SOLO, es);
    assert SeatOk(t, Reached(SOLO, es).workers[Reached(SOLO, es).turns[t].worker], Reached(SOLO, es).turns[t]);
    assert WorkerOk(Reached(SOLO, es).workers[0]);
    SoloTurn(es, k, r, turns, active, requests, t, SettleEnds);
    es' := es + [OnTurn(t, SettleEnds)];
  }

  /** A turn whose prompt was answered drains its events and settles. */
  lemma SoloFinishes(es: seq<Event>, k: Worker, r: Rpc, turns: map<TurnId, Turn>, active: map<Sid, TurnId>,
                     requests: map<ReqId, Requester>, t: TurnId) returns (es': seq<Event>)
    requires Run(SOLO, es) && Reached(SOLO, es) == Solo(k, r, turns, active, requests, [])
    requires t in turns && turns[t].worker == 0 && turns[t].phase.Prompting? && !turns[t].streaming
    requires AnsweredOk(Seat(k, r, turns[t]))
    ensures Run(SOLO, es')
    ensures Reached(SOLO, es') == Solo(Left0(k), r, turns[t := Gone(turns[t])], active, requests, [])
  {
    hide Run, Legal, Exec, Apply, Enabled, Inv;
    var u := turns[t];
    SoloTurn(es, k, r, turns, active, requests, t, PromptOk);
    es' := es + [OnTurn(t, PromptOk)];
    var u1, u2 := u.(phase := Draining), u.(phase := Settling);
    SoloTurn(es', k, r, turns[t := u1], active, requests, t, Unwind(Clean));
    es' := es' + [OnTurn(t, Unwind(Clean))];
    assert turns[t := u1][t := u2] == turns[t := u2];
    es' := SoloSettles(es', k.(marker := None), r, turns[t := u2], active, requests, t);
    assert turns[t := u2][t := Gone(u)] == turns[t := Gone(u)];
  }

  /** A turn that is cancelled while it is parked on its prompt aborts and settles. */
  lemma SoloCancelled(es: seq<Event>, k: Worker, r: Rpc, turns: map<TurnId, Turn>, active: map<Sid, TurnId>,
                      requests: map<ReqId, Requester>, t: TurnId) returns (es': seq<Event>)
    requires Run(SOLO, es) && Reached(SOLO, es) == Solo(k, r, turns, active, requests, [])
    requires t in turns && turns[t].worker == 0 && turns[t].phase.Prompting? && !turns[t].streaming
    ensures Run(SOLO, es')
    ensures Reached(SOLO, es')
      == Solo(Left0(k), GivenUp(r, turns[t].phase.id), turns[t := Gone(turns[t])], active, requests, [])
  {
    hide Run, Legal, Exec, Apply, Enabled, Inv;
    var u, r1 := turns[t], GivenUp(r, turns[t].phase.id);
    SoloTurn(es, k, r, turns, active, requests, t, Unwind(NeedsAbort));
    es' := es + [OnTurn(t, Unwind(NeedsAbort))];
    var u1, u2 := u.(phase := Aborting), u.(phase := Settling);
    SoloTurn(es', k, r1, turns[t := u1], active, requests, t, AbortAwaitEnds);
    es' := es' + [OnTurn(t, AbortAwaitEnds)];
    assert turns[t := u1][t := u2] == turns[t := u2];
    es' := SoloSettles(es', k.(marker := None), r1, turns[t := u2], active, requests, t);
    assert turns[t := u2][t := Gone(u)] == turns[t := Gone(u)];
  }

  // ---------------------------------------------------------------- the witnesses

  /** The one-worker world with the abort call in flight. */
  function AfterCall(k: Worker, turns: map<TurnId, Turn>, active: map<Sid, TurnId>): World {
    World([k], [FRESH_RPC.(pending := {0})], turns, active, map[0 := ByAbort(0)],
          map[0 := AbortCall(0, "s", L.User, None, None, {}, 0, true)], {}, [])
  }

  lemma CallStep(k: Worker, u: Turn, active: map<Sid, TurnId>, a: Act)
    requires u.worker == 0 && (a.LockAcquire? || a.WriterOk?)
    requires CanAct(Seat(k, FRESH_RPC.(pending := {0}), u), a)
    ensures var w := AfterCall(k, map[0 := u], active);
      var y := TurnStep(0, SeatOf(w, 0), a, OwnsEntry(w, 0));
      && Enabled(SOLO, w, OnTurn(0, a))
      && Apply(SOLO, w, OnTurn(0, a)) == AfterCall(y.k, map[0 := y.u], TableStep(0, u.sid, a, active))
  {
    var w := AfterCall(k, map[0 := u], active);
    assert forall y: Turn :: map[0 := u][0 := y] == map[0 := y];
  }

  const CALL := Call(0, 0, "s", L.User, 0)

  lemma CallMade()
    ensures Enabled(SOLO, Start(SOLO), Made(CALL))
    ensures Apply(SOLO, Start(SOLO), Made(CALL)) == AfterCall(IDLE_WORKER, map[], map[])
  {
    var w, w1 := Start(SOLO), AfterCall(IDLE_WORKER, map[], map[]);
    assert w.workers == [IDLE_WORKER] && w.rpcs == [FRESH_RPC];
    assert FRESH_RPC.pending + {0} == {0};
    var w' := Apply(SOLO, w, Made(CALL));
    assert w'.rpcs == w1.rpcs && w'.requests == w1.requests && w'.aborts == w1.aborts;
  }

  const S_TURN := Turn("s", true, 0, Waiting, false, 0, 0)
  const S_LOCKED := S_TURN.(phase := AwaitWriter, acquisitions := 1)

  function Meanwhile(): seq<Event> { [Begin(0, "s", true), OnTurn(0, LockAcquire), OnTurn(0, WriterOk)] }

  lemma MeanwhileRuns()
    ensures var w := AfterCall(IDLE_WORKER, map[], map[]);
      && Legal(SOLO, w, Meanwhile())
      && Exec(SOLO, w, Meanwhile())
         == AfterCall(Admitted(LockTaken(IDLE_WORKER, 0), 0, "s"), map[0 := S_LOCKED.(phase := Registering)],
           map["s" := 0])
  {
    var w1 := AfterCall(IDLE_WORKER, map[], map[]);
    var w2 := AfterCall(IDLE_WORKER, map[0 := S_TURN], map[]);
    var m := Meanwhile();
    assert Enabled(SOLO, w1, m[0]) && Apply(SOLO, w1, m[0]) == w2;
    CallStep(IDLE_WORKER, S_TURN, map[], LockAcquire);
    var w3 := AfterCall(LockTaken(IDLE_WORKER, 0), map[0 := S_LOCKED], map[]);
    CallStep(LockTaken(IDLE_WORKER, 0), S_LOCKED, map[], WriterOk);
    StepThen(SOLO, w3, m[2], []);
    StepThen(SOLO, w2, m[1], [m[2]] + []);
    StepThen(SOLO, w1, m[0], [m[1]] + ([m[2]] + []));
    assert m == [m[0]] + ([m[1]] + ([m[2]] + []));
  }

  /** The world in which the call finishes. */
  const AT_STRIKE := AfterCall(Admitted(LockTaken(IDLE_WORKER, 0), 0, "s"), map[0 := S_LOCKED.(phase := Registering)],
                               map["s" := 0])

  lemma StrikesSuccessor()
    ensures Enabled(SOLO, AT_STRIKE, AbortFinish(0)) && BlamedIn(AT_STRIKE, 0) == Some(0)
  {
  }

  /** An abort for a session without a turn blames the turn of that session that starts meanwhile. */
  lemma SuccessorBlamed()
    ensures CallRuns(SOLO, [], CALL, Meanwhile()) && CALL.sid != ""
    ensures BlamedTurn(SOLO, [], CALL, Meanwhile()) == Some(0) && !Registered(Reached(SOLO, []), 0, CALL.sid)
  {
    CallMade();
    MeanwhileRuns();
    StrikesSuccessor();
    assert Reached(SOLO, []) == Start(SOLO) && Start(SOLO).turns == map[];
    hide Apply, Enabled, Start, BlamedIn, AfterCall;
  }

  const A_TURN := Turn("", false, 0, Prompting(0), false, 1, 0)

  /** The vendor after one prompt of an anonymous session. */
  const AFTER_ANONYMOUS := FRESH_RPC.(answers := map[0 := true], transcript := {""},
                                      deliveries := [Delivery("", {}, {}, false)])

  lemma AnonymousPrompts() returns (es: seq<Event>)
    ensures Run(SOLO, es)
    ensures Reached(SOLO, es)
      == Solo(IDLE_WORKER, AFTER_ANONYMOUS, map[0 := Gone(A_TURN)], map["" := 0], map[0 := ByTurn(0)], [])
  {
    hide Run, Legal, Exec, Apply, Enabled, Inv;
    SoloStart();
    es := SoloSends([], IDLE_WORKER, FRESH_RPC, map[], map[], map[], 0, "", 0);
    var k := Admitted(LockTaken(IDLE_WORKER, 0), 0, "");
    var r := Issued(FRESH_RPC, 0, Prompt(""));
    es := SoloDelivers(es, k, r, map[0 := A_TURN], map["" := 0], map[0 := ByTurn(0)], 0);
    assert Handled(Written(r, 0, false), true) == AFTER_ANONYMOUS by {
      assert Written(r, 0, false).inbox == [(0, Prompt(""))];
    }
    es := SoloFinishes(es, k, AFTER_ANONYMOUS, map[0 := A_TURN], map["" := 0], map[0 := ByTurn(0)], 0);
    assert map[0 := A_TURN][0 := Gone(A_TURN)] == map[0 := Gone(A_TURN)];
  }

  /** An anonymous turn leaves its prompt on a transcript that no later session resets. */
  lemma AnonymousLeaks() returns (es: seq<Event>, d: Delivery)
    ensures Run(SOLO, es) && |Reached(SOLO, es).rpcs| == 1 && d in Reached(SOLO, es).rpcs[0].deliveries
    ensures d.sid != "" && !d.stale && d.strays == {} && !(d.seen <= {d.sid})
  {
    hide Run, Legal, Exec, Apply, Enabled, Inv;
    es := AnonymousPrompts();
    var turns, active, requests := map[0 := Gone(A_TURN)], map["" := 0], map[0 := ByTurn(0)];
    es := SoloSends(es, IDLE_WORKER, AFTER_ANONYMOUS, turns, active, requests, 1, "a", 1);
    var r := Issued(AFTER_ANONYMOUS, 1, Prompt("a"));
    var k := Admitted(LockTaken(IDLE_WORKER, 1), 1, "a").(bound := Some("a"));
    var u := Turn("a", false, 0, Prompting(1), false, 1, 0);
    es := SoloDelivers(es, k, r, turns[1 := u], active["a" := 1], requests[1 := ByTurn(1)], 1);
    d := Delivery("a", {""}, {}, false);
    var r1 := Written(r, 1, false);
    assert r1.inbox == [(1, Prompt("a"))];
    assert Handled(r1, true).deliveries == r1.deliveries + [d];
  }

  const B_TURN := Turn("a", false, 0, Prompting(0), false, 1, 0)

  /** The vendor side when a prompt was issued and given up before its pipe write ran. */
  const AFTER_GIVEN_UP := FRESH_RPC.(unwritten := map[0 := Prompt("a")])

  lemma PromptGivenUp() returns (es: seq<Event>)
    ensures Run(SOLO, es)
    ensures Reached(SOLO, es)
      == Solo(IDLE_WORKER.(bound := Some("a")), AFTER_GIVEN_UP, map[0 := Gone(B_TURN)], map["a" := 0],
        map[0 := ByTurn(0)], [])
  {
    hide Run, Legal, Exec, Apply, Enabled, Inv;
    SoloStart();
    es := SoloSends([], IDLE_WORKER, FRESH_RPC, map[], map[], map[], 0, "a", 0);
    var k := Admitted(LockTaken(IDLE_WORKER, 0), 0, "a").(bound := Some("a"));
    var r := Issued(FRESH_RPC, 0, Prompt("a"));
    es := SoloCancelled(es, k, r, map[0 := B_TURN], map["a" := 0], map[0 := ByTurn(0)], 0);
    assert map[0 := B_TURN][0 := Gone(B_TURN)] == map[0 := Gone(B_TURN)];
    assert GivenUp(r, 0) == AFTER_GIVEN_UP by { assert FRESH_RPC.pending + {0} - {0} == {}; }
  }

  const C_TURN := Turn("b", false, 0, Resetting(1), false, 1, 0)
  const B_AND_C := map[0 := Gone(B_TURN), 1 := C_TURN]
  const BOTH := map["a" := 0, "b" := 1]
  const ASKED := map[0 := ByTurn(0), 1 := ByTurn(1)]
  const AFTER_RESET := FRESH_RPC.(unwritten := map[0 := Prompt("a")], answers := map[1 := true])

  /** The next session's reset is answered while the abandoned prompt is still not written. */
  lemma ResetAnswered() returns (es: seq<Event>, k: Worker)
    ensures k == Admitted(LockTaken(IDLE_WORKER.(bound := Some("a")), 1), 1, "b")
    ensures Run(SOLO, es) && Reached(SOLO, es) == Solo(k, AFTER_RESET, B_AND_C, BOTH, ASKED, [])
  {
    hide Run, Legal, Exec, Apply, Enabled, Inv;
    es := PromptGivenUp();
    var k0, turns := IDLE_WORKER.(bound := Some("a")), map[0 := Gone(B_TURN)];
    es := SoloSends(es, k0, AFTER_GIVEN_UP, turns, map["a" := 0], map[0 := ByTurn(0)], 1, "b", 1);
    k := Admitted(LockTaken(k0, 1), 1, "b");
    var r := Issued(AFTER_GIVEN_UP, 1, NewSession);
    assert turns[1 := C_TURN] == B_AND_C && map["a" := 0]["b" := 1] == BOTH;
    assert map[0 := ByTurn(0)][1 := ByTurn(1)] == ASKED;
    es := SoloDelivers(es, k, r, B_AND_C, BOTH, ASKED, 1);
    var r1 := Written(r, 1, false);
    assert r1.inbox == [(1, NewSession)];
    assert r1.unwritten == AFTER_RESET.unwritten && r1.pending == {1};
    assert Handled(r1, true) == AFTER_RESET;
  }

  const AFTER_LATE := AFTER_RESET.(unwritten := map[], transcript := {"a"}, stale := {0}, strays := {"a"},
                                   deliveries := [Delivery("a", {}, {}, true)])
  const D_TURN := C_TURN.(phase := Prompting(2))

  /** Then the abandoned prompt is written after the reset, and the next session's prompt follows on it. */
  lemma LateWriteLeaks() returns (es: seq<Event>, d: Delivery)
    ensures Run(SOLO, es) && |Reached(SOLO, es).rpcs| == 1 && d in Reached(SOLO, es).rpcs[0].deliveries
    ensures NoAnonymous(Reached(SOLO, es)) && !d.stale && d.strays == {"a"} && !(d.seen <= {d.sid, ""})
  {
    hide Run, Legal, Exec, Apply, Enabled, Inv;
    var k;
    es, k := ResetAnswered();
    es := SoloDelivers(es, k, AFTER_RESET, B_AND_C, BOTH, ASKED, 0);
    var r0 := Written(AFTER_RESET, 0, true);
    assert r0.inbox == [(0, Prompt("a"))] && r0.unwritten == map[];
    assert Handled(r0, true) == AFTER_LATE;
    SoloTurn(es, k, AFTER_LATE, B_AND_C, BOTH, ASKED, 1, ResetOk(2));
    es := es + [OnTurn(1, ResetOk(2))];
    var k1, r := k.(bound := Some("b")), Issued(AFTER_LATE, 2, Prompt("b"));
    es := SoloDelivers(es, k1, r, B_AND_C[1 := D_TURN], BOTH, ASKED[2 := ByTurn(1)], 2);
    d := Delivery("b", {"a"}, {"a"}, false);
    var r1 := Written(r, 2, false);
    assert r1.inbox == [(2, Prompt("b"))];
    assert Handled(r1, true).deliveries == r1.deliveries + [d];
  }
}
