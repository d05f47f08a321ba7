/** The Pi turn protocol as a state machine: a pool of workers, the turns queued on them, the
    session-keyed table of turns in flight, and the abort calls that bypass the turn lock.

    A step is the code between two awaits, so every interleaving of tasks is a run of these steps, and a
    cancellation, a timeout or an exception is one more step that is possible at any await.
    Turn ids, request ids and abort ids are fresh. */
module TurnState {
  import opened Wrappers
  import D = OrderedDictionary
  import L = AbortLedger

  type Sid = string
  type TurnId = nat
  type ReqId = nat
  type AbortId = nat

  // ---------------------------------------------------------------- routing

  /** `digest` stands for the routing hash of a session id. */
  datatype Pool = Pool(size: nat, digest: Sid -> nat)

  predicate PoolOk(p: Pool) { p.size > 0 }

  /** Session affinity; a turn without a session goes to worker 0. */
  function Route(p: Pool, s: Sid): (b: nat)
    requires PoolOk(p)
    ensures b < p.size
  {
    if s == "" || p.size == 1 then 0 else p.digest(s) % p.size
  }

  /** A session goes to the one worker its hash leaves over when the workers are counted off, and shares it with the
      sessions that leave over the same; the anonymous one goes to worker 0. */
  lemma Affinity(p: Pool, s: Sid, s': Sid)
    requires PoolOk(p) && s != "" && s' != ""
    ensures exists n: nat :: p.digest(s) == Times(n, p.size) + Route(p, s)
    ensures Route(p, s) == Route(p, s') <==> p.digest(s) % p.size == p.digest(s') % p.size
    ensures Route(p, "") == 0
  {
    var m, k := p.digest(s), p.size;
    assert m == Times(m / k, k) + m % k;
    if k == 1 { assert m % k == 0 == p.digest(s') % k; }
  }

  function Times(n: nat, k: nat): nat { n * k }

  // ---------------------------------------------------------------- a turn

  /** Where the turn's task is parked. */
  datatype Phase =
    | Waiting                   // for the turn lock
    | AwaitWriter               // lock held, for the session writer
    | Registering               // lease bound and turn published, for the registry and begin_turn
    | Preparing                 // inside the inner try, before the first request
    | Resetting(id: ReqId)      // for new_session
    | Prompting(id: ReqId)      // for the prompt request
    | Draining                  // for events
    | Aborting                  // inner finally: for the shielded abort
    | Settling                  // inner finally: for the settle seam
    | InnerUnreg                // inner finally: lease released, for the shielded unregister
    | OuterUnreg                // outer finally: for the shielded unregister
    | Done

  /** The turn's marker and table entry are published. */
  predicate Published(p: Phase) {
    p.Registering? || p.Preparing? || p.Resetting? || p.Prompting? || p.Draining? || p.Aborting?
  }

  /** The turn owns the lease. */
  predicate Leased(p: Phase) { Published(p) || p.Settling? }

  /** The turn holds the lock. */
  predicate Holding(p: Phase) { p.AwaitWriter? || Leased(p) }

  /** The turn has released its lease. */
  predicate Past(p: Phase) { p.InnerUnreg? || p.OuterUnreg? || p.Done? }

  predicate Awaits(p: Phase, id: ReqId) {
    (p.Resetting? || p.Prompting?) && p.id == id
  }

  /** `leaseReleased` is the lease's own flag; the two counters are history. */
  datatype Turn = Turn(sid: Sid, streaming: bool, worker: nat, phase: Phase,
                       leaseReleased: bool, acquisitions: nat, releases: nat)

  // ---------------------------------------------------------------- a worker

  /** The fields of a bridge. Two are history: `owner` is the turn whose acquire took the lock, and
      `refused` counts the "refusing cross-turn lock release" branch. */
  datatype Worker = Worker(locked: bool, lease: Option<TurnId>, marker: Option<Sid>, current: Option<TurnId>,
                           bound: Option<Sid>, owner: Option<TurnId>, refused: nat)

  const IDLE_WORKER := Worker(false, None, None, None, None, None, 0)

  datatype Command = NewSession | Prompt(sid: Sid)

  /** History: a prompt reached the vendor when its transcript held prompts of `seen`, those of `strays` from
      abandoned prompts; `stale` says that it was an abandoned prompt itself. */
  datatype Delivery = Delivery(sid: Sid, seen: set<Sid>, strays: set<Sid>, stale: bool)

  /** The request registry of a worker's RPC client and the vendor process behind it.
      `unwritten` are commands whose pipe write has not run yet; the pipe is first in, first out.
      Two fields are history: `stale` are the prompts written after their turn gave up on them, and `strays` the
      sessions of those the vendor handled since it last answered a reset. */
  datatype Rpc = Rpc(alive: bool, died: bool, pending: set<ReqId>, answers: map<ReqId, bool>,
                     unwritten: map<ReqId, Command>, inbox: seq<(ReqId, Command)>,
                     transcript: set<Sid>, stale: set<ReqId>, strays: set<Sid>, deliveries: seq<Delivery>)

  const FRESH_RPC := Rpc(true, false, {}, map[], map[], [], {}, {}, {}, [])

  // ---------------------------------------------------------------- an abort call

  datatype Requester = ByTurn(turn: TurnId) | ByAbort(abort: AbortId)

  /** What an abort call remembers across its RPC. */
  datatype AbortCall = AbortCall(worker: nat, sid: Sid, source: L.Source, entry: Option<TurnId>,
                                 token: Option<TurnId>, snapshot: set<ReqId>, id: ReqId, inFlight: bool)

  /** `active` is `_active_turns`; `cancelled` are the turns whose cancellation token was ignited. */
  datatype World = World(workers: seq<Worker>, rpcs: seq<Rpc>, turns: map<TurnId, Turn>,
                         active: map<Sid, TurnId>, requests: map<ReqId, Requester>,
                         aborts: map<AbortId, AbortCall>, cancelled: set<TurnId>, ledger: L.Ledger<TurnId>)

  function Start(p: Pool): World {
    World(seq(p.size, i => IDLE_WORKER), seq(p.size, i => FRESH_RPC), map[], map[], map[], map[], {}, [])
  }

  ghost predicate Sized(p: Pool, w: World) {
    && PoolOk(p)
    && |w.workers| == |w.rpcs| == p.size
    && (forall t :: t in w.turns ==> w.turns[t].worker == Route(p, w.turns[t].sid))
    && (forall a :: a in w.aborts ==> w.aborts[a].worker < p.size)
  }

  // ---------------------------------------------------------------- bridge fields

  function LockTaken(k: Worker, t: TurnId): Worker { k.(locked := true, owner := Some(t)) }

  function LockFreed(k: Worker): Worker { k.(locked := false, owner := None) }

  /** The lease is bound, then the marker and the current turn are published. */
  function Admitted(k: Worker, t: TurnId, s: Sid): Worker {
    k.(lease := Some(t), marker := Some(s), current := Some(t))
  }

  /** `_release_turn_lease`: idempotent, and refused unless the lease is the registered one. */
  function AfterRelease(k: Worker, mine: bool, released: bool): Worker {
    if released then k
    else if !mine then k.(refused := k.refused + 1)
    else LockFreed(k.(lease := None))
  }

  function CurrentCleared(k: Worker, t: TurnId): Worker {
    if k.current == Some(t) then k.(current := None) else k
  }

  /** Inner finally, before the settle await: a stream also drops its current-turn entry here. */
  function MarkerCleared(k: Worker, t: TurnId, streaming: bool): Worker {
    var k1 := k.(marker := None);
    if streaming then CurrentCleared(k1, t) else k1
  }

  /** Outer finally, before its release. */
  function Backstopped(k: Worker, t: TurnId): Worker {
    var k1 := if k.current == None || k.current == Some(t) then k.(marker := None) else k;
    CurrentCleared(k1, t)
  }

  /** The session a turn binds its worker to; a turn without a session binds nothing. */
  function Bound(k: Worker, s: Sid): Worker { if s == "" then k else k.(bound := Some(s)) }

  /** `_isolate_vendor_session` asks for a reset when another session is bound. */
  predicate NeedsReset(k: Worker, s: Sid) { s != "" && k.bound.Some? && k.bound.value != s }

  // ---------------------------------------------------------------- the RPC client

  function Issued(r: Rpc, id: ReqId, c: Command): Rpc {
    r.(pending := r.pending + {id}, unwritten := if r.alive then r.unwritten[id := c] else r.unwritten)
  }

  function GivenUp(r: Rpc, id: ReqId): Rpc { r.(pending := r.pending - {id}) }

  function FailPending(r: Rpc, ids: set<ReqId>): Rpc {
    r.(pending := r.pending - ids, answers := r.answers + map id | id in r.pending && id in ids :: false)
  }

  /** The pipe write of request `id` runs. */
  function Written(r: Rpc, id: ReqId, abandoned: bool): Rpc
    requires id in r.unwritten
  {
    var c := r.unwritten[id];
    r.(unwritten := r.unwritten - {id}, inbox := r.inbox + [(id, c)],
       stale := if c.Prompt? && abandoned then r.stale + {id} else r.stale)
  }

  /** The vendor handles the oldest command and answers it; a failed reset keeps the transcript. */
  function Handled(r: Rpc, ok: bool): Rpc
    requires r.inbox != []
  {
    var (id, c) := r.inbox[0];
    var r1 := r.(inbox := r.inbox[1..]);
    var r2 := match c
      case NewSession => if ok then r1.(transcript := {}, strays := {}) else r1
      case Prompt(s) => r1.(deliveries := r1.deliveries + [Delivery(s, r1.transcript, r1.strays, id in r1.stale)],
                            transcript := r1.transcript + {s},
                            strays := if id in r1.stale then r1.strays + {s} else r1.strays);
    if id in r2.pending then r2.(pending := r2.pending - {id}, answers := r2.answers[id := ok]) else r2
  }

  function Dead(r: Rpc): Rpc {
    FailPending(r, r.pending).(alive := false, died := true, unwritten := map[], inbox := [])
  }

  function Spawned(r: Rpc): Rpc { r.(alive := true, transcript := {}, strays := {}) }

  // ---------------------------------------------------------------- the steps of a turn

  /** How the inner try is left: a settled turn or an unclassified exception runs no abort, a cancelled,
      timed-out or unsent turn does, and a dead process only ignites the turn's own token. */
  datatype Cause = Clean | NeedsAbort | ProcessDied

  datatype Act =
    | LockAcquire
    | WaitCancelled
    | WriterOk
    | WriterFails(retry: bool)
    | WriterLost
    | RegisterOk
    | StartSend(id: ReqId)
    | ResetOk(id: ReqId)
    | PromptOk
    | Unwind(cause: Cause)
    | AbortAwaitEnds
    | SettleEnds
    | SettleRaises
    | InnerUnregEnds
    | OuterEnds
    | Unregister

  /** One turn and the worker it runs on. */
  datatype Seat = Seat(k: Worker, r: Rpc, u: Turn)

  predicate AnsweredOk(x: Seat) {
    (x.u.phase.Resetting? || x.u.phase.Prompting?) && x.u.phase.id in x.r.answers && x.r.answers[x.u.phase.id]
  }

  /** The turn is parked on a request whose pipe write is outstanding: only a cancellation or a failed write can
      end that await, and both abort. */
  predicate Writing(x: Seat) { (x.u.phase.Resetting? || x.u.phase.Prompting?) && x.u.phase.id in x.r.unwritten }

  predicate CanAct(x: Seat, a: Act) {
    var ph := x.u.phase;
    match a
    case LockAcquire => ph.Waiting? && !x.k.locked
    case WaitCancelled => ph.Waiting?
    case WriterOk => ph.AwaitWriter?
    case WriterFails(retry) => ph.AwaitWriter? && (retry ==> x.u.streaming)
    case WriterLost => Leased(ph)
    case RegisterOk => ph.Registering?
    case StartSend(_) => ph.Preparing?
    case ResetOk(_) => ph.Resetting? && AnsweredOk(x)
    case PromptOk => ph.Prompting? && AnsweredOk(x)
    case Unwind(cause) =>
      && Published(ph) && !ph.Aborting?
      && (cause.ProcessDied? ==> ph.Draining? && x.r.died)
      && (Writing(x) ==> cause.NeedsAbort?)
    case AbortAwaitEnds => ph.Aborting?
    case SettleEnds => ph.Settling?
    case SettleRaises => ph.Settling?
    case InnerUnregEnds => ph.InnerUnreg?
    case OuterEnds => ph.OuterUnreg?
    case Unregister => Past(ph)
  }

  function Moved(x: Seat, ph: Phase): Seat { x.(u := x.u.(phase := ph)) }

  /** `_release_turn_lease` of turn `t`'s lease, and the phase that follows. */
  function Release(t: TurnId, x: Seat, ph: Phase): Seat {
    var mine := x.k.lease == Some(t);
    var u := x.u.(phase := ph);
    Seat(AfterRelease(x.k, mine, x.u.leaseReleased), x.r,
         if !x.u.leaseReleased && mine then u.(leaseReleased := true, releases := u.releases + 1) else u)
  }

  /** Inner finally up to the settle await. */
  function PreSettle(t: TurnId, x: Seat): Seat {
    Moved(x.(k := MarkerCleared(x.k, t, x.u.streaming)), Settling)
  }

  /** Outer finally up to its unregister await. */
  function Outer(t: TurnId, x: Seat): Seat {
    Release(t, x.(k := Backstopped(x.k, t)), OuterUnreg)
  }

  /** Issue a request and park on it. */
  function Send(x: Seat, id: ReqId, c: Command): Seat {
    Moved(x.(r := Issued(x.r, id, c)), if c.NewSession? then Resetting(id) else Prompting(id))
  }

  /** Bind the worker to the turn's session and send its prompt. */
  function SendPrompt(x: Seat, id: ReqId): Seat {
    Send(x.(k := Bound(x.k, x.u.sid)), id, Prompt(x.u.sid))
  }

  /** An exception or a normal exit from the published part of the turn. The request it was parked on
      is given up. Registration of a stream sits outside the inner try, so leaving it goes straight to the
      outer finally. */
  function Left(t: TurnId, x: Seat, cause: Cause): Seat {
    var y := if x.u.phase.Resetting? || x.u.phase.Prompting? then x.(r := GivenUp(x.r, x.u.phase.id)) else x;
    if x.u.phase.Registering? && x.u.streaming then Outer(t, y)
    else if cause.NeedsAbort? then Moved(y, Aborting)
    else PreSettle(t, y)
  }

  /** One step of turn `t`; `entered` says whether the table entry of its session is its own. */
  function TurnStep(t: TurnId, x: Seat, a: Act, entered: bool): Seat {
    match a
    case LockAcquire =>
      Moved(x.(k := LockTaken(x.k, t), u := x.u.(acquisitions := x.u.acquisitions + 1)), AwaitWriter)
    case WaitCancelled => Moved(x, Done)
    case WriterOk => Moved(x.(k := Admitted(x.k, t, x.u.sid)), Registering)
    case WriterFails(retry) =>
      Moved(x.(k := LockFreed(x.k), u := x.u.(releases := x.u.releases + 1)), if retry then Waiting else Done)
    case WriterLost => x
    case RegisterOk => Moved(x, Preparing)
    case StartSend(id) => if NeedsReset(x.k, x.u.sid) then Send(x, id, NewSession) else SendPrompt(x, id)
    case ResetOk(id) => SendPrompt(x, id)
    case PromptOk => Moved(x, Draining)
    case Unwind(cause) => Left(t, x, cause)
    case AbortAwaitEnds => PreSettle(t, x)
    case SettleEnds =>
      Release(t, if x.u.streaming then x else x.(k := CurrentCleared(x.k, t)), InnerUnreg)
    case SettleRaises => Outer(t, x)
    case InnerUnregEnds => Outer(t, x)
    case OuterEnds => Moved(x, Done)
    case Unregister => if entered then x.(k := CurrentCleared(x.k, t)) else x
  }

  /** The effect of the step on `_active_turns`. */
  function TableStep(t: TurnId, s: Sid, a: Act, active: map<Sid, TurnId>): map<Sid, TurnId> {
    if a.WriterOk? then active[s := t]
    else if a.Unregister? && s in active && active[s] == t then active - {s}
    else active
  }

  /** The effect on the abort-source ledger: a lost writer records a policy stop, and the settle seam of a turn
      with a session consumes its entry. */
  function LedgerStep(t: TurnId, before: Turn, after: Turn, a: Act, l: L.Ledger<TurnId>): L.Ledger<TurnId> {
    if a.WriterLost? then L.Record(l, t, L.Policy)
    else if after.phase.Settling? && !before.phase.Settling? && before.sid != "" then D.Remove(l, t)
    else l
  }

  predicate Issues(a: Act) { a.StartSend? || a.ResetOk? }

  // ---------------------------------------------------------------- abort

  /** The table entry an abort for `s` resolves; the empty session resolves none. */
  function EntryOf(w: World, s: Sid): Option<TurnId> {
    if s != "" && s in w.active then Some(w.active[s]) else None
  }

  /** The worker an abort called on `b` runs on: the one that owns the entry. */
  function AbortWorker(w: World, b: nat, s: Sid): nat {
    var en := EntryOf(w, s);
    if en.Some? && en.value in w.turns then w.turns[en.value].worker else b
  }

  /** The current turn of a worker, if it is a turn of `s`. */
  function CurrentOf(w: World, k: Worker, s: Sid): Option<TurnId> {
    if k.current.Some? && k.current.value in w.turns && w.turns[k.current.value].sid == s
    then k.current else None
  }

  predicate OtherSessionActive(k: Worker, s: Sid) { k.marker.Some? && k.marker.value != s }

  /** What the call remembers when it is made: routed worker, entry, token and pending futures. */
  function Aim(w: World, caller: nat, s: Sid, src: L.Source, id: ReqId): AbortCall
    requires AbortWorker(w, caller, s) < |w.workers| == |w.rpcs|
  {
    var b := AbortWorker(w, caller, s);
    var en := EntryOf(w, s);
    var skip := OtherSessionActive(w.workers[b], s);
    AbortCall(b, s, src, en, if en.Some? then en else CurrentOf(w, w.workers[b], s),
              if skip then {} else w.rpcs[b].pending, id, !skip)
  }

  /** The turn a finishing abort writes its source for. */
  function Blamed(w: World, c: AbortCall): Option<TurnId>
    requires c.worker < |w.workers|
  {
    if c.entry.Some? then c.entry else CurrentOf(w, w.workers[c.worker], c.sid)
  }

  /** After the RPC: re-check the marker, then ignite the snapshot token, write the ledger and fail the
      snapshot futures. */
  function Struck(w: World, a: AbortId): World
    requires a in w.aborts && w.aborts[a].worker < |w.workers| == |w.rpcs|
  {
    var c := w.aborts[a];
    var r := GivenUp(w.rpcs[c.worker], c.id);
    var skip := OtherSessionActive(w.workers[c.worker], c.sid);
    var blamed := Blamed(w, c);
    w.(rpcs := w.rpcs[c.worker := if skip then r else FailPending(r, c.snapshot)],
       aborts := w.aborts[a := c.(inFlight := false)],
       cancelled := if !skip && c.token.Some? then w.cancelled + {c.token.value} else w.cancelled,
       ledger := if !skip && blamed.Some? then L.Record(w.ledger, blamed.value, c.source) else w.ledger)
  }

  // ---------------------------------------------------------------- the vendor side

  /** An overflow of the event queue declares the process dead although it runs on. */
  datatype Io = WriteRuns(id: ReqId) | VendorStep(ok: bool) | Death | Overflow | RespawnBegin | Spawn

  predicate CanIo(k: Worker, r: Rpc, io: Io) {
    match io
    case WriteRuns(id) => r.alive && id in r.unwritten
    case VendorStep(_) => r.alive && r.inbox != []
    case Death => r.alive
    case Overflow => r.alive
    case RespawnBegin => !r.alive && k.marker == None && !k.locked
    case Spawn => !r.alive
  }

  function IoStep(r: Rpc, io: Io, wanted: bool): Rpc
    requires io.WriteRuns? ==> io.id in r.unwritten
    requires io.VendorStep? ==> r.inbox != []
  {
    match io
    case WriteRuns(id) => Written(r, id, !wanted)
    case VendorStep(ok) => Handled(r, ok)
    case Death => Dead(r)
    case Overflow => FailPending(r, r.pending).(died := true)
    case RespawnBegin => r.(died := false)
    case Spawn => Spawned(r)
  }

  /** The turn that issued request `id` is still parked on it. */
  predicate Wanted(w: World, id: ReqId) {
    id in w.requests && w.requests[id].ByTurn? && w.requests[id].turn in w.turns
      && Awaits(w.turns[w.requests[id].turn].phase, id)
  }

  // ---------------------------------------------------------------- one step

  datatype Event =
    | Begin(t: TurnId, sid: Sid, streaming: bool)
    | OnTurn(t: TurnId, act: Act)
    | AbortStart(a: AbortId, caller: nat, target: Sid, source: L.Source, id: ReqId)
    | AbortFinish(a: AbortId)
    | AbortFails(a: AbortId)
    | OnRpc(b: nat, io: Io)

  function SeatOf(w: World, t: TurnId): Seat
    requires t in w.turns && w.turns[t].worker < |w.workers| == |w.rpcs|
  {
    Seat(w.workers[w.turns[t].worker], w.rpcs[w.turns[t].worker], w.turns[t])
  }

  ghost predicate Enabled(p: Pool, w: World, e: Event) {
    && Sized(p, w)
    && match e
       case Begin(t, s, st) => t !in w.turns
       case OnTurn(t, a) =>
         t in w.turns && CanAct(SeatOf(w, t), a) && (Issues(a) ==> a.id !in w.requests)
       case AbortStart(a, caller, s, src, id) =>
         a !in w.aborts && id !in w.requests && caller < p.size && AbortWorker(w, caller, s) < p.size
       case AbortFinish(a) =>
         a in w.aborts && w.aborts[a].inFlight && w.aborts[a].id in w.rpcs[w.aborts[a].worker].pending
       case AbortFails(a) => a in w.aborts && w.aborts[a].inFlight
       case OnRpc(b, io) => b < p.size && CanIo(w.workers[b], w.rpcs[b], io)
  }

  /** Turn `t` takes step `a` and ends on seat `y`. */
  function Reseated(w: World, t: TurnId, a: Act, y: Seat): World
    requires t in w.turns && w.turns[t].worker < |w.workers| == |w.rpcs|
  {
    var u := w.turns[t];
    World(w.workers[u.worker := y.k], w.rpcs[u.worker := y.r], w.turns[t := y.u],
          TableStep(t, u.sid, a, w.active),
          if Issues(a) then w.requests[a.id := ByTurn(t)] else w.requests,
          w.aborts,
          if a == Unwind(ProcessDied) then w.cancelled + {t} else w.cancelled,
          LedgerStep(t, u, y.u, a, w.ledger))
  }

  /** The table entry of the turn's session is the turn's own. */
  predicate OwnsEntry(w: World, t: TurnId)
    requires t in w.turns
  {
    w.turns[t].sid in w.active && w.active[w.turns[t].sid] == t
  }

  function Acted(w: World, t: TurnId, a: Act): World
    requires t in w.turns && w.turns[t].worker < |w.workers| == |w.rpcs|
  {
    Reseated(w, t, a, TurnStep(t, SeatOf(w, t), a, OwnsEntry(w, t)))
  }

  ghost function Apply(p: Pool, w: World, e: Event): World
    requires Enabled(p, w, e)
  {
    match e
    case Begin(t, s, st) => w.(turns := w.turns[t := Turn(s, st, Route(p, s), Waiting, false, 0, 0)])
    case OnTurn(t, a) => Acted(w, t, a)
    case AbortStart(a, caller, s, src, id) =>
      var c := Aim(w, caller, s, src, id);
      var r := w.rpcs[c.worker];
      w.(aborts := w.aborts[a := c],
         requests := w.requests[id := ByAbort(a)],
         rpcs := w.rpcs[c.worker := if c.inFlight then r.(pending := r.pending + {id}) else r])
    case AbortFinish(a) => Struck(w, a)
    case AbortFails(a) =>
      var c := w.aborts[a];
      w.(rpcs := w.rpcs[c.worker := GivenUp(w.rpcs[c.worker], c.id)],
         aborts := w.aborts[a := c.(inFlight := false)])
    case OnRpc(b, io) =>
      w.(rpcs := w.rpcs[b := IoStep(w.rpcs[b], io, io.WriteRuns? && Wanted(w, io.id))])
  }

  // ---------------------------------------------------------------- runs

  ghost predicate Legal(p: Pool, w: World, es: seq<Event>)
    decreases |es|
  {
    es == [] || (Enabled(p, w, es[0]) && Legal(p, Apply(p, w, es[0]), es[1..]))
  }

  ghost function Exec(p: Pool, w: World, es: seq<Event>): World
    requires Legal(p, w, es)
    decreases |es|
  {
    if es == [] then w else Exec(p, Apply(p, w, es[0]), es[1..])
  }
}
