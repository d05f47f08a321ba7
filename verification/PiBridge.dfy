/** The bridge object itself: the fields its methods update, proved against the steps of the protocol. */
module PiBridgeObjects {
  import opened Wrappers
  import opened TurnState
  import opened TurnInvariant
  import L = AbortLedger
  import R = Respawn

  /** Explicit ownership handle of the turn lock. */
  class TurnLease {
    const turn: TurnId
    var released: bool

    constructor (turn: TurnId)
      ensures this.turn == turn && !released
    {
      this.turn := turn;
      released := false;
    }
  }

  /** The request registry of the RPC client. */
  class RpcClient {
    var pending: set<ReqId>
    var answers: map<ReqId, bool>

    /** The registry is the one of `r`. */
    ghost predicate Matches(r: Rpc)
      reads this
    {
      pending == r.pending && answers == r.answers
    }

    /** Fails the given ids that are still pending, one by one, and counts them. */
    method FailPendingIds(ids: set<ReqId>) returns (failed: nat)
      modifies this
      ensures forall r: Rpc :: old(Matches(r)) ==> Matches(FailPending(r, ids))
      ensures failed == |old(pending) * ids|
      ensures pending == old(pending) - ids
      ensures forall id :: id in old(pending) && id in ids ==> id in answers && !answers[id]
    {
      hide WithFailed;
      failed := 0;
      var rest := ids;
      ghost var done, before := {}, pending;
      NothingFailed(before, answers);
      while rest != {}
        invariant done + rest == ids && done !! rest
        invariant pending == before - done && failed == |before * done|
        invariant answers == WithFailed(old(answers), before, done)
        decreases |rest|
      {
        var id :| id in rest;
        OneFailed(old(answers), before, done, id);
        done, rest := done + {id}, rest - {id};
        if id in pending {
          pending := pending - {id};
          answers := answers[id := false];
          failed := failed + 1;
        }
      }
      AllFailed(old(answers), before, ids);
    }
  }

  /** What a finishing abort changes. */
  lemma StruckParts(w: World, a: AbortId)
    requires a in w.aborts && w.aborts[a].worker < |w.workers| == |w.rpcs|
    ensures var c := w.aborts[a];
      var r := GivenUp(w.rpcs[c.worker], c.id);
      var w' := Struck(w, a);
      && |w'.rpcs| == |w.rpcs|
      && if OtherSessionActive(w.workers[c.worker], c.sid) then
           w'.rpcs[c.worker] == r && w'.ledger == w.ledger && w'.cancelled == w.cancelled
         else
           && w'.rpcs[c.worker] == FailPending(r, c.snapshot)
           && w'.ledger == (if Blamed(w, c).Some? then L.Record(w.ledger, Blamed(w, c).value, c.source) else w.ledger)
           && w'.cancelled == if c.token.Some? then w.cancelled + {c.token.value} else w.cancelled
  {
  }

  ghost function WithFailed(answers: map<ReqId, bool>, before: set<ReqId>, done: set<ReqId>): map<ReqId, bool> {
    answers + map id | id in before && id in done :: false
  }

  lemma NothingFailed(before: set<ReqId>, answers: map<ReqId, bool>)
    ensures WithFailed(answers, before, {}) == answers && before * {} == {} && before - {} == before
  {
  }

  lemma OneFailed(answers: map<ReqId, bool>, before: set<ReqId>, done: set<ReqId>, id: ReqId)
    requires id !in done
    ensures id in before ==>
      WithFailed(answers, before, done + {id}) == WithFailed(answers, before, done)[id := false]
      && |before * (done + {id})| == |before * done| + 1
    ensures id !in before ==>
      WithFailed(answers, before, done + {id}) == WithFailed(answers, before, done)
      && before * (done + {id}) == before * done && before - (done + {id}) == before - done
  {
    if id in before { assert before * (done + {id}) == before * done + {id}; }
  }

  lemma AllFailed(answers: map<ReqId, bool>, before: set<ReqId>, ids: set<ReqId>)
    ensures forall r: Rpc :: r.pending == before && r.answers == answers ==>
      FailPending(r, ids).pending == before - ids && FailPending(r, ids).answers == WithFailed(answers, before, ids)
    ensures forall id :: id in before && id in ids ==>
      id in WithFailed(answers, before, ids) && !WithFailed(answers, before, ids)[id]
  {
  }

  /** How a turn goes: without a writer, out of the registration, or out of the inner try, with or without having
      sent its prompt, a reset that succeeds if one is needed, and a settlement that ends. */
  datatype Way =
    | NoWriter
    | NotRegistered(settles: bool)
    | Left(sends: bool, resets: bool, settles: bool)

  class PiBridge {
    var locked: bool
    var lockLease: TurnLease?
    var activeTurnSid: Option<Sid>
    var currentTurn: Option<TurnId>
    var boundGisSession: Option<Sid>
    var lastRespawnAttempt: real
    var respawnBackoff: real
    var consecutiveRespawnFailures: nat

    /** History: the turn whose acquire took the lock, how often a release was refused, and the lease every admitted
        turn was given. */
    ghost var owner: Option<TurnId>
    ghost var refused: nat
    ghost var issued: map<TurnId, TurnLease>

    ghost function View(): Worker
      reads this, lockLease
    {
      Worker(locked, if lockLease == null then None else Some(lockLease.turn), activeTurnSid, currentTurn,
             boundGisSession, owner, refused)
    }

    ghost function BackoffView(): R.Backoff
      reads this
    {
      R.Backoff(lastRespawnAttempt, respawnBackoff, consecutiveRespawnFailures)
    }

    ghost predicate Issued(lease: TurnLease?)
      reads this
    {
      lease != null && lease.turn in issued && issued[lease.turn] == lease
    }

    /** The worker is well formed; every turn has one lease, and an unreleased lease is the registered one. */
    ghost predicate Valid()
      reads this, lockLease, issued.Values
    {
      && WorkerOk(View())
      && (lockLease != null ==> Issued(lockLease) && !lockLease.released)
      && forall t :: t in issued ==> issued[t].turn == t && (!issued[t].released ==> lockLease == issued[t])
    }

    /** The object test of the release is the protocol's test on turn ids. */
    lemma IdentityIsOwnership(lease: TurnLease)
      requires Valid() && Issued(lease)
      ensures lockLease == lease <==> View().lease == Some(lease.turn)
      ensures lockLease == lease <==> !lease.released
    {
      assert lockLease != null ==> Issued(lockLease);
    }

    constructor ()
      ensures Valid() && View() == IDLE_WORKER && BackoffView() == R.INITIAL && issued == map[]
    {
      locked, lockLease, activeTurnSid, currentTurn, boundGisSession := false, null, None, None, None;
      lastRespawnAttempt, respawnBackoff, consecutiveRespawnFailures := 0.0, 1.0, 0;
      owner, refused, issued := None, 0, map[];
    }

    /** The lock is granted; the session writer is not there yet. */
    method TakeLock(turn: TurnId)
      requires Valid() && !locked
      modifies this
      ensures Valid() && View() == LockTaken(old(View()), turn) && Kept(old(issued), old(BackoffView()))
    {
      locked := true;
      owner := Some(turn);
    }

    /** Acquisition failed, was cancelled or timed out while waiting for the writer. */
    method DropLock()
      requires Valid() && lockLease == null
      modifies this
      ensures Valid() && View() == LockFreed(old(View())) && Kept(old(issued), old(BackoffView()))
    {
      locked := false;
      owner := None;
    }

    ghost predicate Kept(leases: map<TurnId, TurnLease>, backoff: R.Backoff)
      reads this
    {
      issued == leases && BackoffView() == backoff
    }

    /** The writer is there: the lease is bound, and the turn's first step publishes it. */
    method Admit(turn: TurnId, sid: Sid) returns (lease: TurnLease)
      requires Valid() && owner == Some(turn) && lockLease == null && turn !in issued
      modifies this
      ensures Valid() && fresh(lease) && lease.turn == turn && !lease.released && lockLease == lease
      ensures View() == Admitted(old(View()), turn, sid) && Kept(old(issued)[turn := lease], old(BackoffView()))
    {
      lease := new TurnLease(turn);
      lockLease := lease;
      activeTurnSid := Some(sid);
      currentTurn := Some(turn);
      issued := issued[turn := lease];
    }

    /** The lease is this bridge's lease of the turn. */
    ghost predicate Ours(turn: TurnId, lease: TurnLease?)
      reads this, lockLease, issued.Values
    {
      Valid() && Issued(lease) && lease.turn == turn
    }

    /** Idempotent and owner-checked by object identity; a lease that is not the registered one is refused. For a
        lease of this bridge the outcome is the protocol's release, which goes by turn ids. */
    method ReleaseTurnLease(lease: TurnLease?)
      modifies this, lease
      ensures lease == null || old(lease.released) ==> View() == old(View()) && lockLease == old(lockLease)
      ensures lease != null ==>
        && View() == AfterRelease(old(View()), old(lockLease) == lease, old(lease.released))
        && lease.released == (old(lease.released) || old(lockLease) == lease)
      ensures old(Valid() && Issued(lease)) ==>
        View() == AfterRelease(old(View()), old(View().lease) == Some(lease.turn), old(lease.released))
      ensures old(Valid() && Issued(lease) && (lease.released || currentTurn == None)) ==> Valid() && lease.released
      ensures Kept(old(issued), old(BackoffView()))
    {
      if lease == null || lease.released {
        return;
      }
      if lockLease != lease {
        refused := refused + 1;
        return;
      }
      lease.released := true;
      lockLease := null;
      locked := false;
      owner := None;
    }

    /** A turn that is not the current one is left alone. */
    method ClearCurrent(turn: TurnId)
      modifies this
      ensures View() == CurrentCleared(old(View()), turn) && lockLease == old(lockLease)
      ensures old(Valid() && (activeTurnSid == None || currentTurn != Some(turn))) ==> Valid()
      ensures Kept(old(issued), old(BackoffView()))
    {
      if currentTurn == Some(turn) {
        currentTurn := None;
      }
    }

    /** Inner finally, before the settle await. */
    method ClearMarker(turn: TurnId, streaming: bool)
      modifies this
      ensures View() == MarkerCleared(old(View()), turn, streaming) && lockLease == old(lockLease)
      ensures old(Valid()) ==> Valid()
      ensures Kept(old(issued), old(BackoffView()))
    {
      activeTurnSid := None;
      if streaming {
        ClearCurrent(turn);
      }
    }

    /** Inner finally, after the settle await: the lease goes before the unregister await. */
    method FinishSettle(turn: TurnId, streaming: bool, lease: TurnLease)
      requires Ours(turn, lease) && !lease.released && activeTurnSid == None && (streaming ==> currentTurn == None)
      modifies this, lease
      ensures Valid() && lease.released && !locked && refused == old(refused)
      ensures View() == AfterRelease(if streaming then old(View()) else CurrentCleared(old(View()), turn),
                                     old(View().lease) == Some(turn), false)
      ensures Kept(old(issued), old(BackoffView()))
    {
      IdentityIsOwnership(lease);
      if !streaming {
        ClearCurrent(turn);
      }
      ReleaseTurnLease(lease);
    }

    /** Outer finally, up to its unregister await: whoever runs it last finds the turn's own leavings only. After the
        lease was released it changes nothing, whatever turn has the worker by then. */
    method OuterFinally(turn: TurnId, lease: TurnLease)
      requires Ours(turn, lease)
      modifies this, lease
      ensures Valid() && lease.released && refused == old(refused)
      ensures View()
              == AfterRelease(Backstopped(old(View()), turn), old(View().lease) == Some(turn), old(lease.released))
      ensures if old(lease.released) then View() == old(View()) && lockLease == old(lockLease)
              else !locked && lockLease == null && activeTurnSid == None && currentTurn == None
                   && boundGisSession == old(boundGisSession)
      ensures Kept(old(issued), old(BackoffView()))
    {
      IdentityIsOwnership(lease);
      if currentTurn == None || currentTurn == Some(turn) {
        activeTurnSid := None;
      }
      assert Valid();
      ClearCurrent(turn);
      assert Valid() && (!lease.released ==> currentTurn == None);
      ReleaseTurnLease(lease);
    }

    /** `_isolate_vendor_session` up to its reset request: `reset` says that the request must succeed first. */
    method IsolateVendorSession(sid: Sid) returns (reset: bool)
      modifies this
      ensures reset == NeedsReset(old(View()), sid)
      ensures View() == (if reset then old(View()) else Bound(old(View()), sid)) && lockLease == old(lockLease)
      ensures old(Valid()) ==> Valid()
      ensures Kept(old(issued), old(BackoffView()))
    {
      if sid == "" {
        return false;
      }
      if boundGisSession == Some(sid) {
        return false;
      }
      if boundGisSession.Some? {
        return true;
      }
      boundGisSession := Some(sid);
      reset := false;
    }

    /** The rest of it, when the reset succeeded: no further reset is needed for the session. */
    method VendorSessionReset(sid: Sid)
      requires sid != ""
      modifies this
      ensures View() == Bound(old(View()), sid) && !NeedsReset(View(), sid) && lockLease == old(lockLease)
      ensures old(Valid()) ==> Valid()
      ensures Kept(old(issued), old(BackoffView()))
    {
      boundGisSession := Some(sid);
    }

    /** The entry of a finished turn leaves the table; the bridge forgets it only if it is its current turn. */
    method UnregisterActiveTurn(table: ActiveTurns, sid: Sid, turn: TurnId)
      modifies this, table
      ensures var own := sid in old(table.entries) && old(table.entries)[sid] == turn;
        && View() == (if own then CurrentCleared(old(View()), turn) else old(View()))
        && table.entries == (if own then old(table.entries) - {sid} else old(table.entries))
      ensures lockLease == old(lockLease) && Kept(old(issued), old(BackoffView()))
      ensures old(Valid() && (activeTurnSid == None || currentTurn != Some(turn))) ==> Valid()
    {
      if sid in table.entries && table.entries[sid] == turn {
        table.entries := table.entries - {sid};
        ClearCurrent(turn);
      }
    }

    // -------------------------------------------------------------- a whole turn

    /** What other tasks may run on the bridge while a turn is at an await: outer finallies of finished turns, in any
        number. They change nothing. */
    method LateCleanups(finished: seq<TurnLease>)
      requires Valid() && forall l :: l in finished ==> Issued(l) && l.released
      modifies this, finished
      ensures Valid() && View() == old(View()) && lockLease == old(lockLease) && Kept(old(issued), old(BackoffView()))
      ensures forall l :: l in finished ==> Issued(l) && l.released
    {
      var i := 0;
      while i < |finished|
        invariant i <= |finished|
        invariant Valid() && View() == old(View()) && lockLease == old(lockLease)
        invariant Kept(old(issued), old(BackoffView()))
        invariant forall l :: l in finished ==> Issued(l) && l.released
      {
        OuterFinally(finished[i].turn, finished[i]);
        i := i + 1;
      }
    }

    ghost predicate Finished(finished: seq<TurnLease>)
      reads this, finished
    {
      forall l :: l in finished ==> Issued(l) && l.released
    }

    /** No turn is on the bridge. */
    ghost predicate Free()
      reads this, lockLease, issued.Values
    {
      Valid() && !locked && owner == None && lockLease == null && activeTurnSid == None && currentTurn == None
    }

    /** The lock, the writer, and the admission. */
    method Enter(turn: TurnId, sid: Sid, writer: bool, finished: seq<TurnLease>, table: ActiveTurns)
      returns (lease: TurnLease?)
      requires Valid() && !locked && turn !in issued && Finished(finished)
      modifies this, finished, table
      ensures Finished(finished) && boundGisSession == old(boundGisSession)
      ensures !writer ==>
        lease == null && Free() && Kept(old(issued), old(BackoffView())) && table.entries == old(table.entries)
      ensures writer ==>
        && lease != null && fresh(lease) && Ours(turn, lease) && !lease.released && lease !in finished
        && Kept(old(issued)[turn := lease], old(BackoffView())) && table.entries == old(table.entries)[sid := turn]
    {
      TakeLock(turn);
      LateCleanups(finished);
      if !writer {
        DropLock();
        return null;
      }
      lease := Admit(turn, sid);
      table.Register(sid, turn);
      LateCleanups(finished);
    }

    /** Binding the worker, with a reset if another session had it. */
    method Bind(sid: Sid, resets: bool, finished: seq<TurnLease>)
      requires Valid() && Finished(finished)
      modifies this, finished
      ensures Valid() && Finished(finished) && lockLease == old(lockLease) && Kept(old(issued), old(BackoffView()))
      ensures View() == if sid != "" && (resets || old(boundGisSession) in {None, Some(sid)})
                        then old(View()).(bound := Some(sid)) else old(View())
    {
      var reset := IsolateVendorSession(sid);
      LateCleanups(finished);
      if reset && resets {
        VendorSessionReset(sid);
      }
      LateCleanups(finished);
    }

    /** The inner finally. */
    method Settle(turn: TurnId, sid: Sid, streaming: bool, settles: bool, lease: TurnLease, finished: seq<TurnLease>,
                  table: ActiveTurns)
      requires Ours(turn, lease) && !lease.released && lease !in finished && Finished(finished)
      requires sid in table.entries && table.entries[sid] == turn
      modifies this, lease, finished, table
      ensures Ours(turn, lease) && lease.released == settles && Finished(finished)
      ensures boundGisSession == old(boundGisSession) && Kept(old(issued), old(BackoffView()))
      ensures table.entries == if settles then old(table.entries) - {sid} else old(table.entries)
      ensures settles ==> Free()
    {
      IdentityIsOwnership(lease);
      ClearMarker(turn, streaming);
      LateCleanups(finished);
      if settles {
        FinishSettle(turn, streaming, lease);
        LateCleanups(finished);
        UnregisterActiveTurn(table, sid, turn);
      }
    }

    /** The outer finally and its unregister. */
    method LeaveTurn(turn: TurnId, sid: Sid, lease: TurnLease, finished: seq<TurnLease>, table: ActiveTurns)
      requires Ours(turn, lease) && lease !in finished && Finished(finished)
      requires lease.released ==> Free()
      modifies this, lease, finished, table
      ensures Free() && lease.released && Kept(old(issued), old(BackoffView()))
      ensures boundGisSession == old(boundGisSession)
      ensures var own := sid in old(table.entries) && old(table.entries)[sid] == turn;
        table.entries == if own then old(table.entries) - {sid}
                               else old(table.entries)
    {
      OuterFinally(turn, lease);
      LateCleanups(finished);
      UnregisterActiveTurn(table, sid, turn);
    }

    /** A turn from its lock to the end of its outer finally, whichever way it goes, with late cleanups of finished
        turns at every await: afterwards the bridge is well formed and free, no release was refused, the turn's
        lease is spent, its session has no entry, and the worker is bound to it exactly if the turn got to send. */
    method WholeTurn(turn: TurnId, sid: Sid, streaming: bool, way: Way, finished: seq<TurnLease>, table: ActiveTurns)
      requires Valid() && !locked && turn !in issued && Finished(finished)
      modifies this, finished, table
      ensures Free() && refused == 0 && BackoffView() == old(BackoffView())
      ensures if way.NoWriter? then issued == old(issued) && table.entries == old(table.entries)
              else turn in issued && issued[turn].released && table.entries == old(table.entries) - {sid}
      ensures var binds := way.Left? && way.sends && sid != ""
                           && (way.resets || old(boundGisSession) in {None, Some(sid)});
        boundGisSession == if binds then Some(sid) else old(boundGisSession)
    {
      var lease := Enter(turn, sid, !way.NoWriter?, finished, table);
      if way.NoWriter? {
        return;
      }
      if way.Left? && way.sends {
        Bind(sid, way.resets, finished);
      }
      if way.Left? || !streaming {
        Settle(turn, sid, streaming, way.settles, lease, finished, table);
      }
      LeaveTurn(turn, sid, lease, finished, table);
    }

    /** The objects of an abort call stand for world `w`: this bridge is worker `worker`, and `sidOf` knows the
        session of its current turn. */
    ghost predicate Stands(w: World, worker: nat, sidOf: map<TurnId, Sid>)
      reads this, lockLease
    {
      && worker < |w.workers| == |w.rpcs| && View() == w.workers[worker]
      && forall t :: currentTurn == Some(t) ==>
           (t in sidOf <==> t in w.turns) && (t in sidOf ==> sidOf[t] == w.turns[t].sid)
    }

    /** The bridge's current turn is a turn of the session. */
    predicate CurrentIs(sidOf: map<TurnId, Sid>, sid: Sid)
      reads this
    {
      currentTurn.Some? && currentTurn.value in sidOf && sidOf[currentTurn.value] == sid
    }

    /** `abort` before its RPC, on the bridge that owns the entry: what it will strike is fixed here. */
    method AbortAim(ghost w: World, ghost caller: nat, worker: nat, sid: Sid, source: L.Source, id: ReqId,
                    table: ActiveTurns, sidOf: map<TurnId, Sid>, rpc: RpcClient)
      returns (call: AbortCall)
      requires worker == AbortWorker(w, caller, sid) && Stands(w, worker, sidOf)
      requires table.entries == w.active && rpc.Matches(w.rpcs[worker])
      ensures call == Aim(w, caller, sid, source, id)
      ensures call.inFlight <==> activeTurnSid in {None, Some(sid)}
      ensures call.entry == if sid != "" && sid in table.entries then Some(table.entries[sid]) else None
      ensures call.token == if sid != "" && sid in table.entries then Some(table.entries[sid])
                            else if CurrentIs(sidOf, sid) then currentTurn else None
      ensures call.snapshot == if activeTurnSid in {None, Some(sid)} then rpc.pending else {}
    {
      var entry := None;
      if sid != "" && sid in table.entries {
        entry := Some(table.entries[sid]);
      }
      if activeTurnSid.Some? && activeTurnSid.value != sid {
        var ours := currentTurn.Some? && currentTurn.value in sidOf && sidOf[currentTurn.value] == sid;
        var own := if ours then currentTurn else None;
        return AbortCall(worker, sid, source, entry, if entry.Some? then entry else own, {}, id, false);
      }
      var token := None;
      if entry.Some? {
        token := entry;
      } else if currentTurn.Some? && currentTurn.value in sidOf && sidOf[currentTurn.value] == sid {
        token := currentTurn;
      }
      call := AbortCall(worker, sid, source, entry, token, rpc.pending, id, true);
    }

    /** `abort` after its RPC: the marker is read again, then the snapshot's token is ignited, the source is
        recorded and the snapshot's futures are failed. */
    method AbortStrike(ghost w: World, a: AbortId, call: AbortCall, sidOf: map<TurnId, Sid>, rpc: RpcClient,
                       ledger: L.TurnAbortSources<TurnId>)
      returns (ignited: Option<TurnId>)
      requires a in w.aborts && w.aborts[a] == call && Stands(w, call.worker, sidOf)
      requires rpc.Matches(GivenUp(w.rpcs[call.worker], call.id)) && ledger.entries == w.ledger && L.Healthy(w.ledger)
      modifies rpc, ledger
      ensures rpc.Matches(Struck(w, a).rpcs[call.worker]) && ledger.entries == Struck(w, a).ledger
      ensures Struck(w, a).cancelled == if ignited.Some? then w.cancelled + {ignited.value} else w.cancelled
      ensures if activeTurnSid !in {None, Some(call.sid)} then
                ignited == None && ledger.entries == old(ledger.entries) && rpc.pending == old(rpc.pending)
              else
                && ignited == call.token && rpc.pending == old(rpc.pending) - call.snapshot
                && ledger.entries == if call.entry.Some? then L.Record(w.ledger, call.entry.value, call.source)
                                     else if CurrentIs(sidOf, call.sid) then
                                       L.Record(w.ledger, currentTurn.value, call.source)
                                     else w.ledger
    {
      hide FailPending, GivenUp, Struck, L.Record, L.Healthy;
      StruckParts(w, a);
      if activeTurnSid.Some? && activeTurnSid.value != call.sid {
        return None;
      }
      ignited := call.token;
      var blamed := call.entry;
      if blamed.None? && currentTurn.Some? && currentTurn.value in sidOf && sidOf[currentTurn.value] == call.sid {
        blamed := currentTurn;
      }
      ledger.RecordTurnAbortSource(blamed, call.source);
      var failed := rpc.FailPendingIds(call.snapshot);
    }

    /** `respawn_if_dead`; `starts` is what `start()` does, `None` when it is cancelled. It is called exactly on a dead
        bridge without marker and lock whose wait is over, which is where the protocol lets a respawn begin. */
    method RespawnIfDead(alive: bool, now: real, starts: Option<bool>) returns (up: bool)
      modifies this
      ensures View() == old(View()) && lockLease == old(lockLease) && issued == old(issued)
      ensures old(Valid()) ==> Valid()
      ensures var due := !alive && activeTurnSid == None && !locked
                         && now - old(lastRespawnAttempt) >= old(respawnBackoff);
        && (forall r: Rpc :: r.alive == alive && now - old(lastRespawnAttempt) >= old(respawnBackoff) ==>
              (due <==> CanIo(old(View()), r, RespawnBegin)))
        && up == (alive || (due && starts == Some(true)))
        && (!due ==> BackoffView() == old(BackoffView()))
        && (due ==> lastRespawnAttempt == now)
        && (due && starts == Some(true) ==> respawnBackoff == 1.0 && consecutiveRespawnFailures == 0)
        && (due && starts == Some(false) ==>
              consecutiveRespawnFailures == old(consecutiveRespawnFailures) + 1
              && respawnBackoff == R.Delay(consecutiveRespawnFailures))
        && (due && starts == None ==>
              respawnBackoff == old(respawnBackoff)
              && consecutiveRespawnFailures == old(consecutiveRespawnFailures))
      ensures var held := activeTurnSid != None || locked;
        var outcome := if starts.None? then R.Cancelled else if starts.value then R.Succeeds else R.Fails;
        BackoffView() == R.After(old(BackoffView()), R.Try(alive, held, now, outcome))
    {
      if alive {
        return true;
      }
      if now - lastRespawnAttempt < respawnBackoff {
        return false;
      }
      if activeTurnSid != None || locked {
        return false;
      }
      lastRespawnAttempt := now;
      if starts == Some(true) {
        respawnBackoff := 1.0;
        consecutiveRespawnFailures := 0;
        return true;
      }
      up := false;
      if starts == Some(false) {
        consecutiveRespawnFailures := consecutiveRespawnFailures + 1;
        respawnBackoff := R.Delay(consecutiveRespawnFailures);
      }
    }
  }

  /** `_active_turns`, keyed by session. */
  class ActiveTurns {
    var entries: map<Sid, TurnId>

    constructor ()
      ensures entries == map[]
    {
      entries := map[];
    }

    method Register(sid: Sid, turn: TurnId)
      modifies this
      ensures entries == old(entries)[sid := turn]
    {
      entries := entries[sid := turn];
    }
  }
}
