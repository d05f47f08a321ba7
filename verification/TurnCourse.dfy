/** A turn that nothing disturbs, from its first to its last step, in any world whose worker is free: a run is given
    step by step, and its outcome in the fields of the world. */
module TurnCourse {
  import opened Wrappers
  import opened TurnState
  import opened TurnInvariant
  import opened TurnTheorems
  import opened TurnEffects
  import opened VendorIsolation
  import D = OrderedDictionary
  import L = AbortLedger

  // ---------------------------------------------------------------- one turn and its worker inside a world

  /** Everything of a world that the turn and its vendor change. */
  datatype Local = Local(k: Worker, r: Rpc, u: Turn, active: map<Sid, TurnId>, requests: map<ReqId, Requester>,
                         ledger: L.Ledger<TurnId>)

  /** World `w` with that around turn `t` on worker `b`. */
  function Here(w: World, b: nat, t: TurnId, c: Local): World
    requires b < |w.workers| == |w.rpcs|
  {
    w.(workers := w.workers[b := c.k], rpcs := w.rpcs[b := c.r], turns := w.turns[t := c.u], active := c.active,
       requests := c.requests, ledger := c.ledger)
  }

  /** The run `es` leads from `w` to `v`. */
  ghost predicate Leads(p: Pool, w: World, es: seq<Event>, v: World) { Legal(p, w, es) && Exec(p, w, es) == v }

  lemma LeadsOn(p: Pool, w: World, es: seq<Event>, v: World, e: Event)
    requires Leads(p, w, es, v) && Enabled(p, v, e)
    ensures Leads(p, w, es + [e], Apply(p, v, e))
  {
    hide Enabled, Apply;
    assert [e][1..] == [];
    LegalConcat(p, w, es, [e]);
  }

  ghost predicate Fits(p: Pool, w: World, b: nat, c: Local) {
    && Sized(p, w) && b < p.size && c.u.worker == b == Route(p, c.u.sid)
  }

  function Next(t: TurnId, c: Local, a: Act): Local {
    var s := c.u.sid;
    var y := TurnStep(t, Seat(c.k, c.r, c.u), a, s in c.active && c.active[s] == t);
    Local(y.k, y.r, y.u, TableStep(t, s, a, c.active), if Issues(a) then c.requests[a.id := ByTurn(t)] else c.requests,
          LedgerStep(t, c.u, y.u, a, c.ledger))
  }

  lemma HereActs(p: Pool, w: World, es: seq<Event>, b: nat, t: TurnId, c: Local, a: Act)
    requires Fits(p, w, b, c) && Leads(p, w, es, Here(w, b, t, c))
    requires CanAct(Seat(c.k, c.r, c.u), a) && (Issues(a) ==> a.id !in c.requests) && a != Unwind(ProcessDied)
    ensures Leads(p, w, es + [OnTurn(t, a)], Here(w, b, t, Next(t, c, a)))
    ensures Next(t, c, a).u.worker == b && Next(t, c, a).u.sid == c.u.sid
  {
    hide Legal, Exec;
    var v := Here(w, b, t, c);
    assert Enabled(p, v, OnTurn(t, a));
    PastStays(t, Seat(c.k, c.r, c.u), a, c.u.sid in c.active && c.active[c.u.sid] == t);
    LeadsOn(p, w, es, v, OnTurn(t, a));
    assert SeatOf(v, t) == Seat(c.k, c.r, c.u);
    HereIs(w, b, t, c, Next(t, c, a), a);
  }

  lemma HereIs(w: World, b: nat, t: TurnId, c: Local, c': Local, a: Act)
    requires b < |w.workers| == |w.rpcs| && c.u.worker == b && c' == Next(t, c, a) && a != Unwind(ProcessDied)
    ensures Acted(Here(w, b, t, c), t, a) == Here(w, b, t, c')
  {
    hide TurnStep, TableStep, LedgerStep;
    var v := Here(w, b, t, c);
    assert v.workers[b := c'.k] == w.workers[b := c'.k] && v.rpcs[b := c'.r] == w.rpcs[b := c'.r];
    assert v.turns[t := c'.u] == w.turns[t := c'.u];
  }

  /** The pipe write of the request the turn is parked on, and the vendor's answer. */
  function Served(id: ReqId, b: nat): seq<Event> { [OnRpc(b, WriteRuns(id)), OnRpc(b, VendorStep(true))] }

  lemma HereServes(p: Pool, w: World, es: seq<Event>, b: nat, t: TurnId, c: Local, id: ReqId, cmd: Command)
    requires Fits(p, w, b, c) && Leads(p, w, es, Here(w, b, t, c))
    requires Awaits(c.u.phase, id) && id in c.requests && c.requests[id] == ByTurn(t) && id in c.r.pending
    requires c.r.alive && c.r.unwritten == map[id := cmd] && c.r.inbox == [] && id !in c.r.stale
    ensures Leads(p, w, es + Served(id, b), Here(w, b, t, c.(r := AfterServing(c.r, id, cmd))))
  {
    hide Legal, Exec, Enabled, Apply, Here, Leads, AfterServing;
    var r1 := c.r.(unwritten := map[], inbox := [(id, cmd)]);
    var e1, e2 := OnRpc(b, WriteRuns(id)), OnRpc(b, VendorStep(true));
    HereSized(p, w, b, t, c);
    HereSized(p, w, b, t, c.(r := r1));
    HereWrites(p, w, b, t, c, id, cmd);
    LeadsOn(p, w, es, Here(w, b, t, c), e1);
    HereAnswers(p, w, b, t, c.(r := r1), id, cmd);
    LeadsOn(p, w, es + [e1], Here(w, b, t, c.(r := r1)), e2);
    assert AfterServing(r1, id, cmd) == AfterServing(c.r, id, cmd) by { SameService(c.r, r1, id, cmd); }
    assert es + [e1] + [e2] == es + Served(id, b);
  }

  lemma SameService(r: Rpc, r1: Rpc, id: ReqId, cmd: Command)
    requires r1 == r.(unwritten := map[], inbox := [(id, cmd)])
    ensures AfterServing(r1, id, cmd) == AfterServing(r, id, cmd)
  {
  }

  lemma HereWrites(p: Pool, w: World, b: nat, t: TurnId, c: Local, id: ReqId, cmd: Command)
    requires Fits(p, w, b, c)
    requires Sized(p, Here(w, b, t, c)) && Awaits(c.u.phase, id) && id in c.requests && c.requests[id] == ByTurn(t)
    requires c.r.alive && c.r.unwritten == map[id := cmd] && c.r.inbox == []
    ensures var v, e := Here(w, b, t, c), OnRpc(b, WriteRuns(id));
      Enabled(p, v, e) && Apply(p, v, e) == Here(w, b, t, c.(r := c.r.(unwritten := map[], inbox := [(id, cmd)])))
  {
    var v := Here(w, b, t, c);
    var r1 := c.r.(unwritten := map[], inbox := [(id, cmd)]);
    assert Wanted(v, id);
    assert c.r.unwritten - {id} == map[];
    assert Written(c.r, id, false) == r1;
    assert v.rpcs[b := r1] == w.rpcs[b := r1];
  }

  lemma HereAnswers(p: Pool, w: World, b: nat, t: TurnId, c: Local, id: ReqId, cmd: Command)
    requires Fits(p, w, b, c)
    requires Sized(p, Here(w, b, t, c)) && id in c.r.pending && id !in c.r.stale
    requires c.r.alive && c.r.unwritten == map[] && c.r.inbox == [(id, cmd)]
    ensures var v, e := Here(w, b, t, c), OnRpc(b, VendorStep(true));
      Enabled(p, v, e) && Apply(p, v, e) == Here(w, b, t, c.(r := AfterServing(c.r, id, cmd)))
  {
    var v := Here(w, b, t, c);
    var r2 := AfterServing(c.r, id, cmd);
    assert c.r.inbox[1..] == [];
    assert Handled(c.r, true) == r2;
    assert v.rpcs[b := r2] == w.rpcs[b := r2];
  }

  lemma HereSized(p: Pool, w: World, b: nat, t: TurnId, c: Local)
    requires Fits(p, w, b, c)
    ensures Sized(p, Here(w, b, t, c))
  {
  }

  /** The vendor side once it has answered the only command that was on its way. */
  function AfterServing(r: Rpc, id: ReqId, cmd: Command): Rpc {
    var r' := r.(unwritten := map[], inbox := [], pending := r.pending - {id}, answers := r.answers[id := true]);
    match cmd
    case NewSession => r'.(transcript := {}, strays := {})
    case Prompt(s) =>
      r'.(deliveries := r.deliveries + [Delivery(s, r.transcript, r.strays, false)], transcript := r.transcript + {s})
  }

  // ---------------------------------------------------------------- the course

  /** The worker while the turn has it, bound as `bound` says. */
  function Mine(t: TurnId, s: Sid, bound: Option<Sid>): Worker {
    Worker(true, Some(t), Some(s), Some(t), bound, Some(t), 0)
  }

  function Opening(t: TurnId): seq<Event> { [OnTurn(t, LockAcquire)] + [OnTurn(t, WriterOk)] + [OnTurn(t, RegisterOk)] }

  lemma Opens(p: Pool, w: World, es: seq<Event>, b: nat, t: TurnId, c: Local)
    requires Fits(p, w, b, c) && Leads(p, w, es, Here(w, b, t, c))
    requires c.k == IDLE_WORKER.(bound := c.k.bound) && c.u == Turn(c.u.sid, c.u.streaming, b, Waiting, false, 0, 0)
    ensures Leads(p, w, es + Opening(t), Here(w, b, t, Opened(t, c)))
  {
    hide Leads, Here, Route;
    var c1, c2 := Next(t, c, LockAcquire), Next(t, Next(t, c, LockAcquire), WriterOk);
    HereActs(p, w, es, b, t, c, LockAcquire);
    HereActs(p, w, es + [OnTurn(t, LockAcquire)], b, t, c1, WriterOk);
    HereActs(p, w, es + [OnTurn(t, LockAcquire)] + [OnTurn(t, WriterOk)], b, t, c2, RegisterOk);
    assert es + [OnTurn(t, LockAcquire)] + [OnTurn(t, WriterOk)] + [OnTurn(t, RegisterOk)] == es + Opening(t);
    assert Next(t, c2, RegisterOk) == Opened(t, c);
  }

  function Opened(t: TurnId, c: Local): Local {
    c.(k := Mine(t, c.u.sid, c.k.bound), u := c.u.(phase := Preparing, acquisitions := 1),
       active := c.active[c.u.sid := t])
  }

  function DrainSteps(t: TurnId): seq<Event> {
    [OnTurn(t, PromptOk)] + [OnTurn(t, Unwind(Clean))] + [OnTurn(t, SettleEnds)]
  }

  lemma Drains(p: Pool, w: World, es: seq<Event>, b: nat, t: TurnId, c: Local)
    requires Fits(p, w, b, c) && Leads(p, w, es, Here(w, b, t, c))
    requires c.k == Mine(t, c.u.sid, c.k.bound) && c.u.phase.Prompting? && AnsweredOk(Seat(c.k, c.r, c.u))
    requires c.u.acquisitions == 1 && c.u.releases == 0 && !c.u.leaseReleased
    ensures Leads(p, w, es + DrainSteps(t), Here(w, b, t, Drained(t, c)))
  {
    hide Leads, Here, Route, D.Remove;
    var c1 := c.(u := c.u.(phase := Draining));
    var c2 := Next(t, c1, Unwind(Clean));
    var es1 := es + [OnTurn(t, PromptOk)];
    HereActs(p, w, es, b, t, c, PromptOk);
    assert Next(t, c, PromptOk) == c1;
    HereActs(p, w, es1, b, t, c1, Unwind(Clean));
    HereActs(p, w, es1 + [OnTurn(t, Unwind(Clean))], b, t, c2, SettleEnds);
    assert es1 + [OnTurn(t, Unwind(Clean))] + [OnTurn(t, SettleEnds)] == es + DrainSteps(t);
    assert Next(t, c2, SettleEnds) == Drained(t, c);
  }

  function Drained(t: TurnId, c: Local): Local {
    c.(k := IDLE_WORKER.(bound := c.k.bound), u := c.u.(phase := InnerUnreg, leaseReleased := true, releases := 1),
       ledger := if c.u.sid == "" then c.ledger else D.Remove(c.ledger, t))
  }

  function Closing(t: TurnId): seq<Event> {
    [OnTurn(t, Unregister)] + [OnTurn(t, InnerUnregEnds)] + [OnTurn(t, OuterEnds)]
  }

  lemma Closes(p: Pool, w: World, es: seq<Event>, b: nat, t: TurnId, c: Local)
    requires Fits(p, w, b, c) && Leads(p, w, es, Here(w, b, t, c))
    requires c.k == IDLE_WORKER.(bound := c.k.bound) && c.u.phase.InnerUnreg? && c.u.leaseReleased
    requires c.u.sid in c.active && c.active[c.u.sid] == t
    ensures Leads(p, w, es + Closing(t), Here(w, b, t, Closed(c)))
  {
    hide Leads, Here, Route;
    var c1 := c.(active := c.active - {c.u.sid});
    var c2 := c1.(u := c.u.(phase := OuterUnreg));
    var es1 := es + [OnTurn(t, Unregister)];
    HereActs(p, w, es, b, t, c, Unregister);
    assert Next(t, c, Unregister) == c1;
    HereActs(p, w, es1, b, t, c1, InnerUnregEnds);
    assert Next(t, c1, InnerUnregEnds) == c2;
    HereActs(p, w, es1 + [OnTurn(t, InnerUnregEnds)], b, t, c2, OuterEnds);
    assert es1 + [OnTurn(t, InnerUnregEnds)] + [OnTurn(t, OuterEnds)] == es + Closing(t);
  }

  function Closed(c: Local): Local { c.(u := c.u.(phase := Done), active := c.active - {c.u.sid}) }

  // ---------------------------------------------------------------- its requests

  function Prompted(t: TurnId, c: Local, id: ReqId): Local {
    var bound := if c.u.sid == "" then c.k.bound else Some(c.u.sid);
    c.(k := c.k.(bound := bound), r := AfterServing(c.r, id, Prompt(c.u.sid)), u := c.u.(phase := Prompting(id)),
       requests := c.requests[id := ByTurn(t)])
  }

  function Reset(t: TurnId, c: Local, id: ReqId): Local {
    c.(r := AfterServing(c.r, id, NewSession), u := c.u.(phase := Resetting(id)),
       requests := c.requests[id := ByTurn(t)])
  }

  /** Nothing is on its way to the vendor, and the id is new. */
  ghost predicate Quiet(c: Local, id: ReqId) {
    && c.r.alive && c.r.unwritten == map[] && c.r.inbox == []
    && id !in c.requests && id !in c.r.pending && id !in c.r.stale
  }

  lemma Prompts(p: Pool, w: World, es: seq<Event>, b: nat, t: TurnId, c: Local, id: ReqId, a: Act)
    requires Fits(p, w, b, c) && Leads(p, w, es, Here(w, b, t, c)) && Quiet(c, id)
    requires if c.u.phase.Resetting? then a == ResetOk(id) && AnsweredOk(Seat(c.k, c.r, c.u))
             else a == StartSend(id) && c.u.phase.Preparing? && (c.u.sid == "" || c.k.bound in {None, Some(c.u.sid)})
    ensures Leads(p, w, es + [OnTurn(t, a)] + Served(id, b), Here(w, b, t, Prompted(t, c, id)))
  {
    hide Leads, Here, Route, Served, AfterServing;
    var c1 := Next(t, c, a);
    HereActs(p, w, es, b, t, c, a);
    assert c1.r == c.r.(pending := c.r.pending + {id}, unwritten := map[id := Prompt(c.u.sid)]) by {
      assert c.r.unwritten[id := Prompt(c.u.sid)] == map[id := Prompt(c.u.sid)];
    }
    HereServes(p, w, es + [OnTurn(t, a)], b, t, c1, id, Prompt(c.u.sid));
    IssuedServed(c.r, c1.r, id, Prompt(c.u.sid));
  }

  lemma Resets(p: Pool, w: World, es: seq<Event>, b: nat, t: TurnId, c: Local, id: ReqId)
    requires Fits(p, w, b, c) && Leads(p, w, es, Here(w, b, t, c)) && Quiet(c, id)
    requires c.u.phase.Preparing? && c.u.sid != "" && c.k.bound !in {None, Some(c.u.sid)}
    ensures Leads(p, w, es + [OnTurn(t, StartSend(id))] + Served(id, b), Here(w, b, t, Reset(t, c, id)))
  {
    hide Leads, Here, Route, Served, AfterServing;
    var c1 := Next(t, c, StartSend(id));
    assert NeedsReset(c.k, c.u.sid);
    assert TurnStep(t, Seat(c.k, c.r, c.u), StartSend(id), false) == Send(Seat(c.k, c.r, c.u), id, NewSession);
    HereActs(p, w, es, b, t, c, StartSend(id));
    assert c1.r == c.r.(pending := c.r.pending + {id}, unwritten := map[id := NewSession]) by {
      assert c.r.unwritten[id := NewSession] == map[id := NewSession];
    }
    HereServes(p, w, es + [OnTurn(t, StartSend(id))], b, t, c1, id, NewSession);
    IssuedServed(c.r, c1.r, id, NewSession);
  }

  lemma IssuedServed(r: Rpc, r1: Rpc, id: ReqId, cmd: Command)
    requires r.unwritten == map[] && r.inbox == [] && id !in r.pending
    requires r1 == r.(pending := r.pending + {id}, unwritten := map[id := cmd])
    ensures AfterServing(r1, id, cmd) == AfterServing(r, id, cmd)
  {
    assert r.pending + {id} - {id} == r.pending == r.pending - {id};
  }

  // ---------------------------------------------------------------- new ids are new to the vendor

  ghost predicate StaleIssued(w: World) {
    forall b, id :: 0 <= b < |w.rpcs| && id in w.rpcs[b].stale ==> id in w.requests
  }

  lemma StepStale(p: Pool, w: World, e: Event)
    requires VendorInv(p, w) && StaleIssued(w) && Enabled(p, w, e)
    ensures StaleIssued(Apply(p, w, e))
  {
    if e.OnTurn? {
      hide VendorInv, TurnStep, TableStep, LedgerStep, CanAct;
      TurnStepStale(e.t, SeatOf(w, e.t), e.act, OwnsEntry(w, e.t));
    } else if e.OnRpc? {
      IoStepStale(p, w, e.b, e.io);
    } else {
      hide VendorInv, L.Record;
    }
  }

  lemma IoStepStale(p: Pool, w: World, b: nat, io: Io)
    requires VendorInv(p, w) && StaleIssued(w) && Enabled(p, w, OnRpc(b, io))
    ensures StaleIssued(Apply(p, w, OnRpc(b, io)))
  {
    hide BoxOk, SeatVendor, Wanted, IoStep, NoAnonymousIn, NoAnonymous;
    assert PipeOk(w, b, w.rpcs[b]);
    IoStale(w.rpcs[b], io, io.WriteRuns? && Wanted(w, io.id));
  }

  lemma IoStale(r: Rpc, io: Io, wanted: bool)
    requires (io.WriteRuns? ==> io.id in r.unwritten) && (io.VendorStep? ==> r.inbox != [])
    ensures forall id :: id in IoStep(r, io, wanted).stale ==> id in r.stale || id in r.unwritten
  {
  }

  lemma TurnStepStale(t: TurnId, x: Seat, a: Act, entered: bool)
    ensures TurnStep(t, x, a, entered).r.stale == x.r.stale
  {
  }

  lemma {:induction false} RunStale(p: Pool, w: World, es: seq<Event>)
    requires Inv(p, w) && VendorInv(p, w) && StaleIssued(w) && Legal(p, w, es)
    ensures StaleIssued(Exec(p, w, es))
    decreases |es|
  {
    hide Inv, VendorInv, StaleIssued, Enabled, Apply;
    if es != [] {
      StepStale(p, w, es[0]);
      StepInv(p, w, es[0]);
      StepVendor(p, w, es[0]);
      RunStale(p, Apply(p, w, es[0]), es[1..]);
    }
  }

  // ---------------------------------------------------------------- the theorem

  /** All steps of a turn and of its vendor, the reset only if another session is bound. */
  function Course(t: TurnId, s: Sid, streaming: bool, b: nat, reset: bool, first: ReqId, second: ReqId): seq<Event> {
    [Begin(t, s, streaming)] + Opening(t) + Asking(t, b, reset, first, second) + DrainSteps(t) + Closing(t)
  }

  /** The worker is free, its vendor runs and has nothing to do. */
  predicate Idle(k: Worker, r: Rpc) { !k.locked && r.alive && r.unwritten == map[] && r.inbox == [] }

  /** The prompt was delivered, on the transcript of its session or on an empty one if the worker was bound elsewhere;
      the turn is done, with one acquisition and one release; its worker is free and bound to the session; the session
      has no entry in the table; the turn's source is consumed; and nothing else has changed. */
  ghost predicate RanItsCourse(w: World, w': World, b: nat, t: TurnId, s: Sid, streaming: bool)
    requires b < |w.workers| == |w.rpcs| == |w'.rpcs|
  {
    var k, r, r' := w.workers[b], w.rpcs[b], w'.rpcs[b];
    var elsewhere := s != "" && k.bound != None && k.bound != Some(s);
    var found, strays := if elsewhere then {} else r.transcript, if elsewhere then {} else r.strays;
    && w'.turns == w.turns[t := Turn(s, streaming, b, Done, true, 1, 1)]
    && w'.workers == w.workers[b := Worker(false, None, None, None, if s == "" then k.bound else Some(s), None, 0)]
    && w'.rpcs == w.rpcs[b := r']
    && r'.deliveries == r.deliveries + [Delivery(s, found, strays, false)]
    && r'.transcript == found + {s} && r'.pending == r.pending
    && r'.alive && r'.unwritten == map[] && r'.inbox == []
    && w'.active == w.active - {s}
    && (s == "" ==> w'.ledger == w.ledger)
    && (s != "" && L.Healthy(w.ledger) ==>
          D.Lookup(w'.ledger, t) == None && forall u :: u != t ==> D.Lookup(w'.ledger, u) == D.Lookup(w.ledger, u))
    && w'.aborts == w.aborts && w'.cancelled == w.cancelled
  }

  /** In every reachable world a new turn whose worker is free can go its whole course. */
  lemma UndisturbedTurn(p: Pool, es: seq<Event>, t: TurnId, s: Sid, streaming: bool, first: ReqId, second: ReqId)
    requires Run(p, es) && t !in Reached(p, es).turns && Route(p, s) < |Reached(p, es).workers| == |Reached(p, es).rpcs|
    requires var w, b := Reached(p, es), Route(p, s);
      Idle(w.workers[b], w.rpcs[b]) && first !in w.requests && second !in w.requests && first != second
    ensures var w, b := Reached(p, es), Route(p, s);
      var course := Course(t, s, streaming, b, BoundElsewhere(w.workers[b], s), first, second);
      && Legal(p, w, course) && |Exec(p, w, course).rpcs| == |w.rpcs|
      && RanItsCourse(w, Exec(p, w, course), b, t, s, streaming)
  {
    var w, b := Reached(p, es), Route(p, s);
    var u := Turn(s, streaming, b, Waiting, false, 0, 0);
    var c := Local(w.workers[b], w.rpcs[b], u, w.active, w.requests, w.ledger);
    StartInv(p);
    StartVendor(p);
    hide Run, Inv, VendorInv, Apply, Enabled, Here, Leads, Route;
    ReachedInv(p, es);
    RunStale(p, Start(p), es);
    FreeWorker(p, w, b, first);
    FreeWorker(p, w, b, second);
    Begins(p, w, b, t, c);
    CourseLeads(p, w, b, t, c, first, second);
    CourseEnds(w, b, t, c, first, second);
  }

  /** Another session is bound. */
  predicate BoundElsewhere(k: Worker, s: Sid) { s != "" && k.bound != None && k.bound != Some(s) }

  function AfterCourse(t: TurnId, c: Local, first: ReqId, second: ReqId): Local {
    Closed(Drained(t, Asked(t, Opened(t, c), first, second)))
  }

  /** What the turn and its vendor end with. */
  lemma CourseFields(t: TurnId, c: Local, first: ReqId, second: ReqId)
    requires c.k == IDLE_WORKER.(bound := c.k.bound) && Quiet(c, first) && Quiet(c, second) && first != second
    requires c.u == Turn(c.u.sid, c.u.streaming, c.u.worker, Waiting, false, 0, 0)
    ensures var c', s := AfterCourse(t, c, first, second), c.u.sid;
      var found := if BoundElsewhere(c.k, s) then {} else c.r.transcript;
      var strays := if BoundElsewhere(c.k, s) then {} else c.r.strays;
      && c'.k == Worker(false, None, None, None, if s == "" then c.k.bound else Some(s), None, 0)
      && c'.u == Turn(s, c.u.streaming, c.u.worker, Done, true, 1, 1)
      && c'.active == c.active - {s} && c'.ledger == (if s == "" then c.ledger else D.Remove(c.ledger, t))
      && c'.r.deliveries == c.r.deliveries + [Delivery(s, found, strays, false)] && c'.r.transcript == found + {s}
      && c'.r.pending == c.r.pending && c'.r.alive && c'.r.unwritten == map[] && c'.r.inbox == []
  {
    hide D.Remove;
    assert c.active[c.u.sid := t] - {c.u.sid} == c.active - {c.u.sid};
    assert c.r.pending - {first} == c.r.pending && c.r.pending - {second} == c.r.pending;
  }

  lemma CourseEnds(w: World, b: nat, t: TurnId, c: Local, first: ReqId, second: ReqId)
    requires b < |w.workers| == |w.rpcs|
    requires c == Local(w.workers[b], w.rpcs[b], Turn(c.u.sid, c.u.streaming, b, Waiting, false, 0, 0), w.active,
                        w.requests, w.ledger)
    requires c.k == IDLE_WORKER.(bound := c.k.bound) && Quiet(c, first) && Quiet(c, second) && first != second
    ensures RanItsCourse(w, Here(w, b, t, AfterCourse(t, c, first, second)), b, t, c.u.sid, c.u.streaming)
  {
    CourseFields(t, c, first, second);
    if L.Healthy(w.ledger) { RemoveTakes(w.ledger, t); }
    hide L.Healthy, AfterCourse, Quiet;
  }

  function Asking(t: TurnId, b: nat, reset: bool, first: ReqId, second: ReqId): seq<Event> {
    if reset then [OnTurn(t, StartSend(first))] + Served(first, b) + ([OnTurn(t, ResetOk(second))] + Served(second, b))
    else [OnTurn(t, StartSend(first))] + Served(first, b)
  }

  /** The prompt was answered, and the turn has not noticed yet. */
  ghost predicate Answered(t: TurnId, c: Local) {
    && c.k == Mine(t, c.u.sid, c.k.bound) && c.u.phase.Prompting? && AnsweredOk(Seat(c.k, c.r, c.u))
    && c.u.acquisitions == 1 && c.u.releases == 0 && !c.u.leaseReleased
    && c.u.sid in c.active && c.active[c.u.sid] == t
  }

  lemma Asks(p: Pool, w: World, es: seq<Event>, b: nat, t: TurnId, c: Local, first: ReqId, second: ReqId)
    requires Fits(p, w, b, c) && Leads(p, w, es, Here(w, b, t, c))
    requires Quiet(c, first) && Quiet(c, second) && first != second
    requires c.k == Mine(t, c.u.sid, c.k.bound) && c.u == Turn(c.u.sid, c.u.streaming, b, Preparing, false, 1, 0)
    requires c.u.sid in c.active && c.active[c.u.sid] == t
    ensures Leads(p, w, es + Asking(t, b, BoundElsewhere(c.k, c.u.sid), first, second),
                  Here(w, b, t, Asked(t, c, first, second)))
    ensures Answered(t, Asked(t, c, first, second))
  {
    hide Leads, Here, Route, Served;
    if BoundElsewhere(c.k, c.u.sid) {
      var e1, e2 := [OnTurn(t, StartSend(first))] + Served(first, b), [OnTurn(t, ResetOk(second))] + Served(second, b);
      Resets(p, w, es, b, t, c, first);
      assert es + [OnTurn(t, StartSend(first))] + Served(first, b) == es + e1;
      Prompts(p, w, es + e1, b, t, Reset(t, c, first), second, ResetOk(second));
      assert es + e1 + [OnTurn(t, ResetOk(second))] + Served(second, b) == es + (e1 + e2);
    } else {
      Prompts(p, w, es, b, t, c, first, StartSend(first));
      var e1 := [OnTurn(t, StartSend(first))] + Served(first, b);
      assert es + [OnTurn(t, StartSend(first))] + Served(first, b) == es + e1;
    }
  }

  function Asked(t: TurnId, c: Local, first: ReqId, second: ReqId): Local {
    if BoundElsewhere(c.k, c.u.sid) then Prompted(t, Reset(t, c, first), second) else Prompted(t, c, first)
  }

  lemma Ends(p: Pool, w: World, es: seq<Event>, b: nat, t: TurnId, c: Local)
    requires Fits(p, w, b, c) && Leads(p, w, es, Here(w, b, t, c)) && Answered(t, c)
    ensures Leads(p, w, es + DrainSteps(t) + Closing(t), Here(w, b, t, Closed(Drained(t, c))))
  {
    hide Leads, Here, Route, DrainSteps, Closing;
    Drains(p, w, es, b, t, c);
    Closes(p, w, es + DrainSteps(t), b, t, Drained(t, c));
  }

  lemma CourseLeads(p: Pool, w: World, b: nat, t: TurnId, c: Local, first: ReqId, second: ReqId)
    requires Fits(p, w, b, c) && Leads(p, w, [Begin(t, c.u.sid, c.u.streaming)], Here(w, b, t, c))
    requires c.k == IDLE_WORKER.(bound := c.k.bound) && c.u == Turn(c.u.sid, c.u.streaming, b, Waiting, false, 0, 0)
    requires Quiet(c, first) && Quiet(c, second) && first != second
    ensures Leads(p, w, Course(t, c.u.sid, c.u.streaming, b, BoundElsewhere(c.k, c.u.sid), first, second),
                  Here(w, b, t, AfterCourse(t, c, first, second)))
  {
    hide Leads, Here, Route, Opening, Asking, DrainSteps, Closing, Asked, Drained, Closed, Answered, BoundElsewhere;
    var es := [Begin(t, c.u.sid, c.u.streaming)];
    var reset := BoundElsewhere(c.k, c.u.sid);
    Opens(p, w, es, b, t, c);
    assert BoundElsewhere(Opened(t, c).k, c.u.sid) == reset by { SameBound(t, c); }
    Asks(p, w, es + Opening(t), b, t, Opened(t, c), first, second);
    AskedFits(p, w, b, t, Opened(t, c), first, second);
    Ends(p, w, es + Opening(t) + Asking(t, b, reset, first, second), b, t, Asked(t, Opened(t, c), first, second));
  }

  lemma SameBound(t: TurnId, c: Local)
    ensures BoundElsewhere(Opened(t, c).k, c.u.sid) == BoundElsewhere(c.k, c.u.sid)
  {
  }

  lemma AskedFits(p: Pool, w: World, b: nat, t: TurnId, c: Local, first: ReqId, second: ReqId)
    requires Fits(p, w, b, c)
    ensures Fits(p, w, b, Asked(t, c, first, second))
  {
  }

  lemma FreeWorker(p: Pool, w: World, b: nat, id: ReqId)
    requires Inv(p, w) && StaleIssued(w) && b < p.size && !w.workers[b].locked && id !in w.requests
    ensures w.workers[b] == IDLE_WORKER.(bound := w.workers[b].bound)
    ensures id !in w.rpcs[b].pending && id !in w.rpcs[b].stale
  {
    assert WorkerOk(w.workers[b]) && RpcOk(w, b, w.rpcs[b]);
  }

  lemma Begins(p: Pool, w: World, b: nat, t: TurnId, c: Local)
    requires Sized(p, w) && t !in w.turns && b == Route(p, c.u.sid)
    requires c == Local(w.workers[b], w.rpcs[b], Turn(c.u.sid, c.u.streaming, b, Waiting, false, 0, 0), w.active,
                        w.requests, w.ledger)
    ensures Fits(p, w, b, c) && Leads(p, w, [Begin(t, c.u.sid, c.u.streaming)], Here(w, b, t, c))
  {
    var e := Begin(t, c.u.sid, c.u.streaming);
    assert [e][1..] == [];
    assert w.workers[b := c.k] == w.workers && w.rpcs[b := c.r] == w.rpcs;
  }
}
