/** What an abort call brings about: the theorems of `TurnTheorems` bound whom it may hit, these say whom it hits. */
module AbortEffects {
  import opened Wrappers
  import opened TurnState
  import opened TurnInvariant
  import opened TurnTheorems
  import opened TurnLedger
  import opened TurnEffects
  import D = OrderedDictionary
  import L = AbortLedger

  /** A turn of another session is marked active on the worker. */
  predicate Foreign(k: Worker, s: Sid) { k.marker != None && k.marker != Some(s) }

  /** The current turn of the worker is a turn of session `s`. */
  predicate Runs(w: World, k: Worker, s: Sid) {
    k.current.Some? && k.current.value in w.turns && w.turns[k.current.value].sid == s
  }

  /** The session has a turn in the table. */
  predicate Tabled(w: World, s: Sid) { s != "" && s in w.active }

  /** The worker a call made on worker `caller` goes to: the one of the turn in the table. */
  function Target(w: World, caller: nat, s: Sid): nat {
    if Tabled(w, s) && w.active[s] in w.turns then w.turns[w.active[s]].worker else caller
  }

  /** A call is made in flight exactly if no other session's turn is marked active on the worker it goes to; otherwise
      it asks nothing and remembers no future. */
  lemma AbortIsMade(p: Pool, w: World, a: AbortId, caller: nat, s: Sid, source: L.Source, id: ReqId)
    requires Enabled(p, w, AbortStart(a, caller, s, source, id))
    ensures var w' := Apply(p, w, AbortStart(a, caller, s, source, id));
      var b := Target(w, caller, s);
      && b < |w.workers| == |w.rpcs| == |w'.rpcs| && a in w'.aborts
      && (w'.aborts[a].inFlight <==> !Foreign(w.workers[b], s))
      && w'.rpcs[b].pending == (if Foreign(w.workers[b], s) then w.rpcs[b].pending else w.rpcs[b].pending + {id})
      && w'.workers == w.workers && w'.turns == w.turns && w'.active == w.active && w'.ledger == w.ledger
      && w'.cancelled == w.cancelled
  {
  }

  /** A call whose own request fails gives it up and does nothing else. */
  lemma FailedAbortDoesNothing(p: Pool, w: World, a: AbortId)
    requires Enabled(p, w, AbortFails(a))
    ensures var w' := Apply(p, w, AbortFails(a));
      var c := w.aborts[a];
      && c.worker < |w.rpcs| == |w'.rpcs|
      && w'.rpcs == w.rpcs[c.worker := w.rpcs[c.worker].(pending := w.rpcs[c.worker].pending - {c.id})]
      && w'.workers == w.workers && w'.turns == w.turns && w'.active == w.active && w'.ledger == w.ledger
      && w'.cancelled == w.cancelled && a in w'.aborts && !w'.aborts[a].inFlight
  {
  }

  /** The turn in the table at the time of the call is cancelled, or else the worker's then current turn. */
  ghost predicate HitsToken(w1: World, w4: World, c: Call, k: Worker) {
    && (Tabled(w1, c.sid) ==> w1.active[c.sid] in w4.cancelled)
    && (!Tabled(w1, c.sid) && Runs(w1, k, c.sid) ==> k.current.value in w4.cancelled)
  }

  /** Of the futures, exactly those pending at the time of the call fail. */
  ghost predicate HitsFutures(aimed: set<ReqId>, r3: Rpc, r4: Rpc, own: ReqId) {
    && (forall id :: id in r4.pending <==> id in r3.pending && id !in aimed && id != own)
    && (forall id :: id in aimed && id in r3.pending && id != own ==> id in r4.answers && !r4.answers[id])
  }

  /** The source is recorded for the turn in the table at the time of the call, or else for the worker's present turn
      of the session; a cleanup is not recorded. */
  ghost predicate HitsLedger(w1: World, w3: World, w4: World, c: Call, k: Worker) {
    if c.source == L.Cleanup || (!Tabled(w1, c.sid) && !Runs(w3, k, c.sid)) then w4.ledger == w3.ledger
    else D.Lookup(w4.ledger, if Tabled(w1, c.sid) then w1.active[c.sid] else k.current.value) == Some(c.source)
  }

  /** The effect of a call made in `w1` that finishes in `w3`, on worker `b`. */
  ghost predicate Hits(w1: World, w3: World, w4: World, c: Call, b: nat)
    requires b < |w1.workers| == |w1.rpcs| && b < |w3.workers| == |w3.rpcs| && b < |w4.rpcs|
  {
    if Foreign(w3.workers[b], c.sid) then
      && w4.ledger == w3.ledger && w4.cancelled == w3.cancelled
      && w4.rpcs[b] == w3.rpcs[b].(pending := w3.rpcs[b].pending - {c.id})
    else
      && HitsToken(w1, w4, c, w1.workers[b])
      && HitsFutures(w1.rpcs[b].pending, w3.rpcs[b], w4.rpcs[b], c.id)
      && HitsLedger(w1, w3, w4, c, w3.workers[b])
  }

  /** A finishing call that finds another session's turn marked on its worker changes nothing but its own request.
      Otherwise it ignites the token of the turn that was in the table when it was made, or else of the worker's then
      current turn of the session; it fails every future that was pending then, and no later one; and unless it is a
      cleanup it records its source for that turn of the table, or else for the worker's present turn of the
      session. */
  lemma AbortHitsItsAim(p: Pool, pre: seq<Event>, c: Call, mid: seq<Event>)
    requires CallRuns(p, pre, c, mid)
    ensures var w1, w3 := Reached(p, pre), Before(p, pre, c, mid);
      var b := Target(w1, c.caller, c.sid);
      && b < |w1.workers| == |w1.rpcs| == |w3.workers| == |w3.rpcs|
      && |Apply(p, w3, AbortFinish(c.a)).rpcs| == |w3.rpcs|
      && Hits(w1, w3, Apply(p, w3, AbortFinish(c.a)), c, b)
  {
    var w1, w3 := Reached(p, pre), Before(p, pre, c, mid);
    hide *;
    CallStrikes(p, pre, c, mid);
    CallLedger(p, pre, c, mid);
    CallInFlight(p, pre, c, mid);
    StrikeHits(p, w1, w3, c);
  }

  lemma CallLedger(p: Pool, pre: seq<Event>, c: Call, mid: seq<Event>)
    requires CallRuns(p, pre, c, mid)
    ensures L.Healthy(Before(p, pre, c, mid).ledger)
  {
    var w1 := Reached(p, pre);
    var e := Made(c);
    hide Apply, Enabled, L.Healthy;
    assert ([e] + mid)[1..] == mid;
    LegalConcat(p, Start(p), pre, [e] + mid);
    LedgerIsHealthy(p, pre + ([e] + mid));
  }

  lemma CallInFlight(p: Pool, pre: seq<Event>, c: Call, mid: seq<Event>)
    requires CallRuns(p, pre, c, mid)
    ensures c.a in Before(p, pre, c, mid).aborts && Before(p, pre, c, mid).aborts[c.a].inFlight
  {
  }

  /** What the call remembers is aimed at `b`. */
  ghost predicate Aims(w1: World, c: Call, aim: AbortCall, b: nat)
    requires b < |w1.workers| == |w1.rpcs|
  {
    && aim.worker == b && aim.sid == c.sid && aim.source == c.source && aim.id == c.id
    && aim.snapshot == w1.rpcs[b].pending
    && aim.entry == (if Tabled(w1, c.sid) then Some(w1.active[c.sid]) else None)
    && aim.token == if Tabled(w1, c.sid) then aim.entry
                    else if Runs(w1, w1.workers[b], c.sid) then w1.workers[b].current else None
  }

  lemma AimFields(p: Pool, w1: World, w3: World, c: Call)
    requires Strikes(p, w1, w3, c) && w3.aborts[c.a].inFlight
    ensures var b := Target(w1, c.caller, c.sid);
      b < |w1.workers| == |w1.rpcs| == |w3.workers| == |w3.rpcs| && Aims(w1, c, w3.aborts[c.a], b)
  {
    hide RequestInv, Onward, AimOk, Registered, SeatOk, WorkerOk, EntryOk;
  }

  /** What finishing does with it. */
  ghost predicate Finishes(w: World, aim: AbortCall, w': World)
    requires aim.worker < |w.workers| == |w.rpcs| == |w'.rpcs|
  {
    var k, r, r' := w.workers[aim.worker], w.rpcs[aim.worker], w'.rpcs[aim.worker];
    if Foreign(k, aim.sid) then
      w'.ledger == w.ledger && w'.cancelled == w.cancelled && r' == r.(pending := r.pending - {aim.id})
    else
      && (aim.token.Some? ==> aim.token.value in w'.cancelled)
      && HitsFutures(aim.snapshot, r, r', aim.id)
      && w'.ledger == if aim.entry.Some? then L.Record(w.ledger, aim.entry.value, aim.source)
                      else if Runs(w, k, aim.sid) then L.Record(w.ledger, k.current.value, aim.source)
                      else w.ledger
  }

  lemma StruckFinishes(w: World, a: AbortId)
    requires a in w.aborts && w.aborts[a].worker < |w.workers| == |w.rpcs|
    ensures |Struck(w, a).rpcs| == |w.rpcs| && Finishes(w, w.aborts[a], Struck(w, a))
  {
    hide L.Record;
  }

  lemma FinishHits(w1: World, w3: World, w4: World, c: Call, aim: AbortCall, b: nat)
    requires b < |w1.workers| == |w1.rpcs| == |w3.workers| == |w3.rpcs| == |w4.rpcs|
    requires L.Healthy(w3.ledger) && Aims(w1, c, aim, b) && Finishes(w3, aim, w4)
    ensures Hits(w1, w3, w4, c, b)
  {
    hide L.Record, L.Healthy, Foreign, HitsFutures;
    if aim.entry.Some? { Keeps(w3.ledger, aim.entry.value, c.source); }
    if w3.workers[b].current.Some? { Keeps(w3.ledger, w3.workers[b].current.value, c.source); }
  }

  lemma Keeps(l: L.Ledger<TurnId>, t: TurnId, source: L.Source)
    requires L.Healthy(l)
    ensures if source == L.Cleanup then L.Record(l, t, source) == l
            else D.Lookup(L.Record(l, t, source), t) == Some(source)
  {
    if source != L.Cleanup { RecordIsKept(l, t, source); }
  }

  lemma StrikeHits(p: Pool, w1: World, w3: World, c: Call)
    requires Strikes(p, w1, w3, c) && L.Healthy(w3.ledger) && w3.aborts[c.a].inFlight
    ensures var w4 := Struck(w3, c.a);
      var b := Target(w1, c.caller, c.sid);
      && b < |w1.workers| == |w1.rpcs| == |w3.workers| == |w3.rpcs| == |w4.rpcs|
      && Hits(w1, w3, w4, c, b)
  {
    assert c.a in w3.aborts;
    hide *;
    AimFields(p, w1, w3, c);
    var aim, b := w3.aborts[c.a], Target(w1, c.caller, c.sid);
    AimsAt(w1, c, aim, b);
    StruckFinishes(w3, c.a);
    FinishHits(w1, w3, Struck(w3, c.a), c, aim, b);
  }

  lemma AimsAt(w1: World, c: Call, aim: AbortCall, b: nat)
    requires b < |w1.workers| == |w1.rpcs| && Aims(w1, c, aim, b)
    ensures aim.worker == b
  {
  }
}
