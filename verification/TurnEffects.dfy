/** What each step of the protocol brings about, said in the fields of the world: what the safety theorems allow, these
    require. */
module TurnEffects {
  import opened Wrappers
  import opened TurnState
  import opened TurnInvariant
  import opened TurnTheorems
  import opened TurnLedger
  import D = OrderedDictionary
  import L = AbortLedger

  // ---------------------------------------------------------------- the phases of a turn

  /** The turn is parked on a request, and its answer is a success. */
  predicate Acknowledged(r: Rpc, ph: Phase)
    requires ph.Resetting? || ph.Prompting?
  {
    ph.id in r.answers && r.answers[ph.id]
  }

  /** How a turn gets from phase `u.phase` to `next`: into its finally by an unwinding only, to its prompt when it is
      prepared or its reset was acknowledged, to its events when its prompt was, and to its end without a writer or
      through its outer finally. */
  predicate Follows(k: Worker, r: Rpc, u: Turn, unwinds: bool, next: Phase) {
    var ph := u.phase;
    && (Leaving(next) && !Leaving(ph) ==> unwinds)
    && (next.Draining? && !ph.Draining? ==> ph.Prompting? && Acknowledged(r, ph))
    && (next.Prompting? && !ph.Prompting? ==> ph.Preparing? || (ph.Resetting? && Acknowledged(r, ph)))
    && (next.Resetting? && !ph.Resetting? ==> ph.Preparing?)
    && (next.Preparing? && !ph.Preparing? ==> ph.Registering?)
    && (next.Registering? && !ph.Registering? ==> ph.AwaitWriter?)
    && (next.AwaitWriter? && !ph.AwaitWriter? ==> ph.Waiting? && !k.locked)
    && (next.Waiting? && !ph.Waiting? ==> ph.AwaitWriter? && u.streaming)
    && (next.InnerUnreg? && !ph.InnerUnreg? ==> ph.Settling?)
    && (next.OuterUnreg? && !ph.OuterUnreg? ==> unwinds || ph.Settling? || ph.InnerUnreg?)
    && (next.Done? && !ph.Done? ==> ph.Waiting? || ph.AwaitWriter? || ph.OuterUnreg?)
  }

  lemma SeatFollows(t: TurnId, x: Seat, a: Act, entered: bool)
    requires CanAct(x, a)
    ensures Follows(x.k, x.r, x.u, a.Unwind?, TurnStep(t, x, a, entered).u.phase)
  {
  }

  /** Every step of anybody moves a turn along its phases. */
  lemma PhasesOfATurn(p: Pool, w: World, e: Event, t: TurnId)
    requires Enabled(p, w, e) && t in w.turns
    ensures var u, w' := w.turns[t], Apply(p, w, e);
      && u.worker < |w.workers| == |w.rpcs| && t in w'.turns
      && Follows(w.workers[u.worker], w.rpcs[u.worker], u, e.OnTurn? && e.t == t && e.act.Unwind?, w'.turns[t].phase)
  {
    var u := w.turns[t];
    assert u.worker < |w.workers| == |w.rpcs|;
    if !(e.OnTurn? && e.t == t) {
      hide Apply, Enabled;
      OthersKeepPhase(p, w, e, t);
    } else {
      hide Apply, Enabled, CanAct, TurnStep, Follows;
      PhaseAfter(p, w, t, e.act);
      EnabledActs(p, w, t, e.act);
      SeatFollows(t, SeatOf(w, t), e.act, OwnsEntry(w, t));
    }
  }

  /** Which finally an unwinding leads to: a stream that was being registered goes to the outer one, a turn that needs
      an abort awaits it, any other settles. */
  lemma UnwindingGoes(p: Pool, w: World, t: TurnId, cause: Cause)
    requires Enabled(p, w, OnTurn(t, Unwind(cause)))
    ensures var w' := Apply(p, w, OnTurn(t, Unwind(cause)));
      var ph, ph' := w.turns[t].phase, w'.turns[t].phase;
      && t in w'.turns
      && (ph'.OuterUnreg? <==> ph.Registering? && w.turns[t].streaming)
      && (ph'.Aborting? <==> cause.NeedsAbort? && !ph'.OuterUnreg?)
      && (ph'.Settling? <==> !cause.NeedsAbort? && !ph'.OuterUnreg?)
  {
    PhaseAfter(p, w, t, Unwind(cause));
  }

  /** The other awaits: a lost heartbeat retries and any other writer failure ends the turn, with the lock free; a
      cancelled waiter leaves no trace; a settlement that raises goes to the outer finally. */
  lemma AwaitsEnd(p: Pool, w: World, t: TurnId, a: Act)
    requires Inv(p, w) && Enabled(p, w, OnTurn(t, a))
    ensures var w' := Apply(p, w, OnTurn(t, a));
      && t in w'.turns && w'.turns[t].worker == w.turns[t].worker < |w.workers| == |w'.workers|
      && var next, k := w'.turns[t].phase, w'.workers[w.turns[t].worker];
         && (a.WaitCancelled? ==> next.Done? && w'.workers == w.workers)
         && (a.WriterFails? ==> !k.locked && if a.retry then next.Waiting? else next.Done?)
         && (a.AbortAwaitEnds? ==> next.Settling?)
         && (a.SettleRaises? ==> next.OuterUnreg?)
         && (a.WriterLost? ==> w'.turns == w.turns && w'.workers == w.workers)
  {
    hide Apply, Inv, CanAct, TurnStep;
    OwnStep(p, w, t, a);
    EnabledActs(p, w, t, a);
    SeatEnds(t, SeatOf(w, t), a, OwnsEntry(w, t));
    LastSeat(p, w, t);
    LastSeat(p, Apply(p, w, OnTurn(t, a)), t);
    if a.WaitCancelled? || a.WriterLost? { SameWorker(p, w, t, a); }
  }

  lemma SeatEnds(t: TurnId, x: Seat, a: Act, entered: bool)
    requires CanAct(x, a)
    ensures var y := TurnStep(t, x, a, entered);
      && (a.WaitCancelled? ==> y.u.phase.Done? && y.k == x.k)
      && (a.WriterFails? ==> !y.k.locked && if a.retry then y.u.phase.Waiting? else y.u.phase.Done?)
      && (a.AbortAwaitEnds? ==> y.u.phase.Settling?)
      && (a.SettleRaises? ==> y.u.phase.OuterUnreg?)
      && (a.WriterLost? ==> y == x)
  {
  }

  lemma SameWorker(p: Pool, w: World, t: TurnId, a: Act)
    requires Enabled(p, w, OnTurn(t, a)) && (a.WaitCancelled? || a.WriterLost?)
    ensures var w' := Apply(p, w, OnTurn(t, a)); w'.workers == w.workers && (a.WriterLost? ==> w'.turns == w.turns)
  {
    hide LedgerStep, TableStep;
  }

  /** What may strike a turn at its awaits: a waiting one is cancelled, or gets the lock once it is free; a turn that
      owns its lease may lose its writer; and a published turn that is not aborting yet may unwind, for the death of its
      process only while it drains and the process was declared dead, and only into an abort while the write of its
      request is outstanding. */
  lemma WhatMayStrike(p: Pool, w: World, t: TurnId)
    requires Sized(p, w) && t in w.turns
    ensures var u := w.turns[t];
      && u.worker < |w.workers| == |w.rpcs|
      && var k, r := w.workers[u.worker], w.rpcs[u.worker];
         && (Enabled(p, w, OnTurn(t, WaitCancelled)) <==> u.phase.Waiting?)
         && (Enabled(p, w, OnTurn(t, LockAcquire)) <==> u.phase.Waiting? && !k.locked)
         && (Enabled(p, w, OnTurn(t, WriterLost)) <==> Published(u.phase) || u.phase.Settling?)
         && (forall cause: Cause :: Enabled(p, w, OnTurn(t, Unwind(cause))) <==>
               && Published(u.phase) && !u.phase.Aborting?
               && (cause == ProcessDied ==> u.phase.Draining? && r.died)
               && ((u.phase.Resetting? || u.phase.Prompting?) && u.phase.id in r.unwritten ==> cause == NeedsAbort))
  {
  }

  /** An acknowledged prompt leads to the events of the turn and changes nothing else; from there the turn can be told
      of the death of its process exactly if the process was declared dead. */
  lemma PromptLeadsToEvents(p: Pool, w: World, t: TurnId)
    requires Enabled(p, w, OnTurn(t, PromptOk))
    ensures var w' := Apply(p, w, OnTurn(t, PromptOk));
      && w' == w.(turns := w.turns[t := w.turns[t].(phase := Draining)])
      && (Enabled(p, w', OnTurn(t, Unwind(ProcessDied))) <==> w.rpcs[w.turns[t].worker].died)
  {
    assert Sized(p, Apply(p, w, OnTurn(t, PromptOk)));
  }

  /** The first request is a reset exactly if the worker is bound to another session, else the turn's prompt, to whose
      session the worker is bound then; after the reset the prompt follows. */
  lemma RequestsOfATurn(p: Pool, w: World, t: TurnId, a: Act)
    requires Enabled(p, w, OnTurn(t, a)) && (a.StartSend? || a.ResetOk?)
    ensures var w', u, id := Apply(p, w, OnTurn(t, a)), w.turns[t], a.id;
      && t in w'.turns && u.worker < |w.workers| == |w.rpcs| == |w'.workers| == |w'.rpcs|
      && var k, k', r, r' := w.workers[u.worker], w'.workers[u.worker], w.rpcs[u.worker], w'.rpcs[u.worker];
         var reset := a.StartSend? && u.sid != "" && k.bound != None && k.bound != Some(u.sid);
         && w'.turns[t] == u.(phase := if reset then Resetting(id) else Prompting(id))
         && k' == k.(bound := if reset || u.sid == "" then k.bound else Some(u.sid))
         && r'.pending == r.pending + {id}
         && (r.alive ==> r'.unwritten == r.unwritten[id := if reset then NewSession else Prompt(u.sid)])
         && (!r.alive ==> r'.unwritten == r.unwritten)
         && w'.requests == w.requests[id := ByTurn(t)]
  {
  }

  /** A turn enters the table when it is admitted and leaves it when it is unregistered, unless another turn of its
      session is there; no other step of a turn touches the table. */
  lemma TableOfATurn(p: Pool, w: World, t: TurnId, a: Act)
    requires Enabled(p, w, OnTurn(t, a))
    ensures var w', s := Apply(p, w, OnTurn(t, a)), w.turns[t].sid;
      && (forall q :: q != s ==> (q in w'.active <==> q in w.active) && (q in w.active ==> w'.active[q] == w.active[q]))
      && (a.WriterOk? ==> s in w'.active && w'.active[s] == t)
      && (a.Unregister? ==> (s in w'.active <==> s in w.active && w.active[s] != t))
      && (a.Unregister? && s in w'.active ==> w'.active[s] == w.active[s])
      && (!a.WriterOk? && !a.Unregister? ==> w'.active == w.active)
  {
    hide TurnStep, LedgerStep;
  }

  /** A lost writer is recorded as a policy stop, the settlement of a turn with a session consumes its source, and no
      other step of a turn touches the ledger. */
  lemma LedgerOfATurn(p: Pool, w: World, t: TurnId, a: Act)
    requires Enabled(p, w, OnTurn(t, a)) && L.Healthy(w.ledger)
    ensures var w' := Apply(p, w, OnTurn(t, a));
      && t in w'.turns
      && var settles := w'.turns[t].phase.Settling? && !w.turns[t].phase.Settling?;
         && (a.WriterLost? ==> D.Lookup(w'.ledger, t) == Some(L.Policy))
         && (settles && w.turns[t].sid != "" ==>
               D.Lookup(w'.ledger, t) == None && forall q :: q != t ==> D.Lookup(w'.ledger, q) == D.Lookup(w.ledger, q))
         && (!a.WriterLost? && !(settles && w.turns[t].sid != "") ==> w'.ledger == w.ledger)
  {
    LostStays(t, SeatOf(w, t), OwnsEntry(w, t));
    hide TurnStep, TableStep, L.Record, D.Remove, D.Lookup;
    RecordIsKept(w.ledger, t, L.Policy);
    RemoveTakes(w.ledger, t);
  }

  lemma LostStays(t: TurnId, x: Seat, entered: bool)
    ensures TurnStep(t, x, WriterLost, entered) == x
  {
  }

  lemma RecordIsKept(l: L.Ledger<TurnId>, t: TurnId, source: L.Source)
    requires L.Healthy(l) && source != L.Cleanup
    ensures D.Lookup(L.Record(l, t, source), t) == Some(source)
  {
    RecordedLast(l, t, source);
  }

  lemma RemoveTakes(l: L.Ledger<TurnId>, t: TurnId)
    requires L.Healthy(l)
    ensures D.Lookup(D.Remove(l, t), t) == None
    ensures forall q :: q != t ==> D.Lookup(D.Remove(l, t), q) == D.Lookup(l, q)
  {
    L.ConsumedOnce(l, [], t);
    hide D.Remove, D.Lookup;
    forall q | q != t ensures D.Lookup(D.Remove(l, t), q) == D.Lookup(l, q) { RemoveKeeps(l, t, q); }
  }

  lemma RemoveKeeps(l: L.Ledger<TurnId>, t: TurnId, q: TurnId)
    requires L.Healthy(l) && q != t
    ensures D.Lookup(D.Remove(l, t), q) == D.Lookup(l, q)
  {
    var l' := D.Remove(l, t);
    var k, j := D.Find(l, t), D.Find(l, q);
    L.StepHealthy(l, L.Pop(t));
    if k < |l| && j < |l| {
      D.FindUnique(l', q, if j < k then j else j - 1);
    } else if k < |l| {
      assert !D.Has(l', q);
    }
  }

  /** Only a turn that learns of the death of its process ignites a token, its own. */
  lemma TokensOfATurn(p: Pool, w: World, t: TurnId, a: Act)
    requires Enabled(p, w, OnTurn(t, a))
    ensures Apply(p, w, OnTurn(t, a)).cancelled
            == if a.Unwind? && a.cause.ProcessDied? then w.cancelled + {t} else w.cancelled
  {
    hide TurnStep, TableStep, LedgerStep;
  }

  /** While it settles, a non-streaming turn is still the current turn of its worker, so that an abort finds it. */
  lemma SettlingIsCurrent(p: Pool, w: World, t: TurnId, a: Act)
    requires Inv(p, w) && Enabled(p, w, OnTurn(t, a)) && !w.turns[t].streaming && !w.turns[t].phase.Settling?
    requires Apply(p, w, OnTurn(t, a)).turns[t].phase.Settling?
    ensures w.turns[t].worker < |w.workers| == |Apply(p, w, OnTurn(t, a)).workers|
      && Apply(p, w, OnTurn(t, a)).workers[w.turns[t].worker].current == Some(t)
  {
    hide Apply, Inv, CanAct, TurnStep;
    OwnStep(p, w, t, a);
    EnabledActs(p, w, t, a);
    LastSeat(p, w, t);
    LastSeat(p, Apply(p, w, OnTurn(t, a)), t);
    KeepsCurrent(t, SeatOf(w, t), a, OwnsEntry(w, t));
  }

  lemma KeepsCurrent(t: TurnId, x: Seat, a: Act, entered: bool)
    requires CanAct(x, a) && SeatOk(t, x.k, x.u) && !x.u.streaming && !x.u.phase.Settling?
    requires TurnStep(t, x, a, entered).u.phase.Settling?
    ensures TurnStep(t, x, a, entered).k.current == Some(t)
  {
  }

  /** The death of a process, or its declared death, fails every pending request; `start()` takes the declaration back,
      and a new process starts with an empty transcript. */
  lemma DeathFailsAll(p: Pool, w: World, b: nat, io: Io)
    requires Enabled(p, w, OnRpc(b, io)) && !io.WriteRuns? && !io.VendorStep?
    ensures var w' := Apply(p, w, OnRpc(b, io));
      && b < |w.rpcs| == |w'.rpcs|
      && var r, r' := w.rpcs[b], w'.rpcs[b];
         && (io.Death? || io.Overflow? ==>
               r'.died && r'.pending == {} && forall id :: id in r.pending ==> id in r'.answers && !r'.answers[id])
         && (io.Death? ==> !r'.alive && r'.inbox == [] && r'.unwritten == map[])
         && (io.Overflow? ==> r'.alive && r'.inbox == r.inbox && r'.unwritten == r.unwritten)
         && (io.RespawnBegin? ==> r' == r.(died := false))
         && (io.Spawn? ==> r'.alive && r'.transcript == {} && r'.died == r.died)
  {
  }
}
