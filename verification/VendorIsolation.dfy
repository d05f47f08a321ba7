/** The vendor keeps one transcript per worker and ignores session ids, so a prompt of another session must
    never follow on it. The proof follows every command from its request through the pipe to the vendor. */
module VendorIsolation {
  import opened Wrappers
  import opened TurnState
  import opened TurnInvariant

  /** A session whose prompts may be on the worker's transcript: the bound one, or the anonymous one. */
  predicate Own(k: Worker, s: Sid) { s == "" || k.bound == Some(s) }

  /** From `i` on, only abandoned prompts are on their way. */
  predicate NoPromptFrom(r: Rpc, i: nat) {
    forall j :: i <= j < |r.inbox| ==> r.inbox[j].1.NewSession? || r.inbox[j].0 in r.stale
  }

  predicate AllOwn(k: Worker, r: Rpc) {
    && r.strays <= r.transcript
    && (forall s :: s in r.transcript ==> Own(k, s) || s in r.strays)
    && (forall j :: 0 <= j < |r.inbox| && r.inbox[j].1.Prompt? ==> Own(k, r.inbox[j].1.sid) || r.inbox[j].0 in r.stale)
  }

  /** Everything on the transcript and on its way there is of an own session or abandoned; a dead process has no
      mail. */
  predicate BoxOk(k: Worker, r: Rpc) {
    && AllOwn(k, r)
    && (!r.alive ==> r.inbox == [] && r.unwritten == map[])
    && (forall d :: d in r.deliveries ==> Isolated(d))
  }

  /** What a prompt finds on the transcript is of its own session, anonymous, or a stray, and all the strays. */
  predicate Isolated(d: Delivery) {
    d.strays <= d.seen && (d.sid != "" && !d.stale ==> d.seen <= {d.sid, ""} + d.strays)
  }

  /** A turn parked on a reset: once the reset was answered, only strays are on the transcript, and it stays so. */
  predicate ResetOkFor(r: Rpc, id: ReqId) {
    && (id in r.unwritten ==>
          r.unwritten[id].NewSession? && !(id in r.answers && r.answers[id])
          && forall j :: 0 <= j < |r.inbox| ==> r.inbox[j].0 != id)
    && Cleared(r, id)
  }

  predicate Cleared(r: Rpc, id: ReqId) {
    && (forall i :: 0 <= i < |r.inbox| && r.inbox[i].0 == id ==> r.inbox[i].1.NewSession? && NoPromptFrom(r, i))
    && (id in r.answers && r.answers[id] ==> r.transcript == r.strays && NoPromptFrom(r, 0))
  }

  /** A turn parked on its prompt has bound the worker to its session; one that drains events can still
      observe the death of the process it was admitted to. */
  predicate SeatVendor(k: Worker, r: Rpc, u: Turn) {
    && (u.phase.Resetting? ==> ResetOkFor(r, u.phase.id))
    && (u.phase.Prompting? ==>
          && Own(k, u.sid)
          && (u.phase.id in r.unwritten ==> r.unwritten[u.phase.id] == Prompt(u.sid))
          && (u.phase.id in r.answers && r.answers[u.phase.id] ==> r.alive || r.died))
    && (u.phase.Draining? ==> r.alive || r.died)
  }

  /** Unwritten commands were issued by turns of this worker, in their own session's name. */
  ghost predicate IssuedHere(w: World, b: nat, id: ReqId, c: Command) {
    id in w.requests && w.requests[id].ByTurn? && w.requests[id].turn in w.turns
      && w.turns[w.requests[id].turn].worker == b
      && (c.Prompt? ==> c.sid == w.turns[w.requests[id].turn].sid)
  }

  ghost predicate NoAnonymous(w: World) { forall t :: t in w.turns ==> w.turns[t].sid != "" }

  predicate NoAnonymousIn(r: Rpc) {
    && "" !in r.transcript
    && (forall j :: 0 <= j < |r.inbox| ==> r.inbox[j].1 != Prompt(""))
    && (forall d :: d in r.deliveries ==> d.sid != "" && "" !in d.seen)
  }

  ghost predicate PipeOk(w: World, b: nat, r: Rpc) {
    && (forall id :: id in r.unwritten ==> IssuedHere(w, b, id, r.unwritten[id]))
    && (forall j :: 0 <= j < |r.inbox| ==> r.inbox[j].0 in w.requests)
    && (NoAnonymous(w) ==> NoAnonymousIn(r))
  }

  ghost predicate VendorInv(p: Pool, w: World) {
    && Sized(p, w)
    && (forall b :: 0 <= b < p.size ==> BoxOk(w.workers[b], w.rpcs[b]) && PipeOk(w, b, w.rpcs[b]))
    && (forall t :: t in w.turns ==> SeatVendor(w.workers[w.turns[t].worker], w.rpcs[w.turns[t].worker], w.turns[t]))
  }

  lemma StartVendor(p: Pool)
    requires PoolOk(p)
    ensures VendorInv(p, Start(p))
  {
  }

  // ---------------------------------------------------------------- a step of one turn

  /** Turn steps touch the vendor side only by issuing a request while they own the lock. */
  predicate GoodPipe(t: TurnId, x: Seat, a: Act, y: Seat) {
    && y.r.transcript == x.r.transcript && y.r.inbox == x.r.inbox && y.r.stale == x.r.stale && y.r.strays == x.r.strays
    && y.r.deliveries == x.r.deliveries && y.r.answers == x.r.answers && y.r.alive == x.r.alive && y.r.died == x.r.died
    && (y.r.unwritten == x.r.unwritten || (Issues(a) && y.r.unwritten.Keys == x.r.unwritten.Keys + {a.id}
          && (y.r.unwritten[a.id].Prompt? ==> y.r.unwritten[a.id].sid == x.u.sid)
          && forall id :: id in x.r.unwritten && id != a.id ==> y.r.unwritten[id] == x.r.unwritten[id]))
    && (y.k.bound == x.k.bound || x.k.owner == Some(t))
    && (y.r == x.r || x.k.owner == Some(t))
    && y.u.worker == x.u.worker && y.u.sid == x.u.sid
  }

  lemma TurnStepPipe(t: TurnId, x: Seat, a: Act, entered: bool)
    requires CanAct(x, a) && SeatOk(t, x.k, x.u)
    ensures GoodPipe(t, x, a, TurnStep(t, x, a, entered))
  {
    match a
    case Unwind(cause) => LeftPipe(t, x, cause);
    case StartSend(_) => IssuePipe(t, x, a, entered);
    case ResetOk(_) => IssuePipe(t, x, a, entered);
    case _ => QuietPipe(t, x, a, entered);
  }

  lemma LeftPipe(t: TurnId, x: Seat, cause: Cause)
    requires CanAct(x, Unwind(cause)) && SeatOk(t, x.k, x.u)
    ensures GoodPipe(t, x, Unwind(cause), Left(t, x, cause))
  {
  }

  lemma IssuePipe(t: TurnId, x: Seat, a: Act, entered: bool)
    requires CanAct(x, a) && SeatOk(t, x.k, x.u) && Issues(a)
    ensures GoodPipe(t, x, a, TurnStep(t, x, a, entered))
  {
  }

  lemma QuietPipe(t: TurnId, x: Seat, a: Act, entered: bool)
    requires CanAct(x, a) && SeatOk(t, x.k, x.u) && !Issues(a) && !a.Unwind?
    ensures GoodPipe(t, x, a, TurnStep(t, x, a, entered))
  {
  }

  /** The step's own seat, and the box it may have re-bound: a re-binding happens only over an empty
      transcript or to the session already there. */
  lemma TurnStepVendor(t: TurnId, x: Seat, a: Act, entered: bool)
    requires CanAct(x, a) && SeatOk(t, x.k, x.u) && BoxOk(x.k, x.r) && SeatVendor(x.k, x.r, x.u)
    requires Issues(a) ==> Unused(x.r, a.id)
    ensures var y := TurnStep(t, x, a, entered); BoxOk(y.k, y.r) && SeatVendor(y.k, y.r, y.u)
  {
    match a
    case Unwind(cause) => LeftVendor(t, x, cause);
    case StartSend(id) => if NeedsReset(x.k, x.u.sid) { ResetVendor(x, id); } else { PromptVendor(t, x, id); }
    case ResetOk(id) => PromptVendor(t, x, id);
    case _ => QuietVendor(t, x, a, entered);
  }

  lemma LeftVendor(t: TurnId, x: Seat, cause: Cause)
    requires CanAct(x, Unwind(cause)) && SeatOk(t, x.k, x.u) && BoxOk(x.k, x.r) && SeatVendor(x.k, x.r, x.u)
    ensures var y := Left(t, x, cause); BoxOk(y.k, y.r) && SeatVendor(y.k, y.r, y.u)
  {
    hide Isolated, ResetOkFor;
  }

  predicate Unused(r: Rpc, id: ReqId) {
    id !in r.answers && id !in r.unwritten && forall j :: 0 <= j < |r.inbox| ==> r.inbox[j].0 != id
  }

  lemma ResetVendor(x: Seat, id: ReqId)
    requires BoxOk(x.k, x.r) && Unused(x.r, id)
    ensures var y := Send(x, id, NewSession); BoxOk(y.k, y.r) && SeatVendor(y.k, y.r, y.u)
  {
    hide Isolated;
  }

  /** The worker is free for the session: it is unbound or bound to it, or its transcript was just reset. */
  lemma PromptVendor(t: TurnId, x: Seat, id: ReqId)
    requires BoxOk(x.k, x.r) && SeatVendor(x.k, x.r, x.u) && Unused(x.r, id)
    requires (x.u.phase.Preparing? && !NeedsReset(x.k, x.u.sid)) || (x.u.phase.Resetting? && AnsweredOk(x))
    ensures var y := SendPrompt(x, id); BoxOk(y.k, y.r) && SeatVendor(y.k, y.r, y.u)
  {
    hide Isolated;
  }

  lemma QuietVendor(t: TurnId, x: Seat, a: Act, entered: bool)
    requires CanAct(x, a) && SeatOk(t, x.k, x.u) && BoxOk(x.k, x.r) && SeatVendor(x.k, x.r, x.u)
    requires !Issues(a) && !a.Unwind?
    ensures var y := TurnStep(t, x, a, entered); BoxOk(y.k, y.r) && SeatVendor(y.k, y.r, y.u)
  {
    hide Isolated, ResetOkFor;
  }

  lemma PipeKept(p: Pool, w: World, t: TurnId, a: Act, y: Seat, b: nat)
    requires VendorInv(p, w) && t in w.turns && GoodPipe(t, SeatOf(w, t), a, y) && b < p.size
    requires Issues(a) ==> a.id !in w.requests
    ensures var w' := Reseated(w, t, a, y); PipeOk(w', b, w'.rpcs[b])
  {
    var w' := Reseated(w, t, a, y);
    assert PipeOk(w, b, w.rpcs[b]);
    forall id | id in w'.rpcs[b].unwritten ensures IssuedHere(w', b, id, w'.rpcs[b].unwritten[id]) {
      assert id in w.rpcs[b].unwritten ==> IssuedHere(w, b, id, w.rpcs[b].unwritten[id]);
    }
    if NoAnonymous(w') {
      forall v | v in w.turns ensures w.turns[v].sid != "" { assert v in w'.turns && w'.turns[v].sid != ""; }
    }
  }

  lemma SeatVendorKept(p: Pool, w: World, t: TurnId, a: Act, y: Seat, v: TurnId)
    requires CoreInv(p, w) && VendorInv(p, w) && t in w.turns && GoodPipe(t, SeatOf(w, t), a, y)
    requires SeatVendor(y.k, y.r, y.u) && v in w.turns
    ensures var w' := Reseated(w, t, a, y);
            && w'.turns[v].worker == w.turns[v].worker
            && SeatVendor(w'.workers[w'.turns[v].worker], w'.rpcs[w'.turns[v].worker], w'.turns[v])
  {
    assert SeatVendor(w.workers[w.turns[v].worker], w.rpcs[w.turns[v].worker], w.turns[v]);
    assert SeatOk(v, w.workers[w.turns[v].worker], w.turns[v]);
  }

  lemma PipeFrame(p: Pool, w: World, t: TurnId, a: Act, y: Seat)
    requires CoreInv(p, w) && VendorInv(p, w) && t in w.turns && GoodPipe(t, SeatOf(w, t), a, y)
    requires Issues(a) ==> a.id !in w.requests
    requires BoxOk(y.k, y.r) && SeatVendor(y.k, y.r, y.u)
    ensures VendorInv(p, Reseated(w, t, a, y))
  {
    var w' := Reseated(w, t, a, y);
    forall b | 0 <= b < p.size ensures BoxOk(w'.workers[b], w'.rpcs[b]) && PipeOk(w', b, w'.rpcs[b]) {
      assert BoxOk(w.workers[b], w.rpcs[b]);
      PipeKept(p, w, t, a, y, b);
    }
    forall v | v in w'.turns
      ensures w'.turns[v].worker == Route(p, w'.turns[v].sid)
           && SeatVendor(w'.workers[w'.turns[v].worker], w'.rpcs[w'.turns[v].worker], w'.turns[v])
    {
      SeatVendorKept(p, w, t, a, y, v);
    }
  }

  lemma VendorTurn(p: Pool, w: World, t: TurnId, a: Act)
    requires Inv(p, w) && VendorInv(p, w) && Enabled(p, w, OnTurn(t, a))
    ensures VendorInv(p, Apply(p, w, OnTurn(t, a)))
  {
    var x := SeatOf(w, t);
    var b := x.u.worker;
    assert SeatOk(t, x.k, x.u) && BoxOk(x.k, x.r) && SeatVendor(x.k, x.r, x.u) && PipeOk(w, b, x.r) && RpcOk(w, b, x.r);
    if Issues(a) { assert a.id in x.r.unwritten ==> IssuedHere(w, b, a.id, x.r.unwritten[a.id]); }
    TurnStepPipe(t, x, a, OwnsEntry(w, t));
    TurnStepVendor(t, x, a, OwnsEntry(w, t));
    PipeFrame(p, w, t, a, TurnStep(t, x, a, OwnsEntry(w, t)));
  }

  // ---------------------------------------------------------------- the vendor side

  lemma IoBox(k: Worker, r: Rpc, io: Io, wanted: bool)
    requires CanIo(k, r, io) && BoxOk(k, r)
    requires io.WriteRuns? && wanted && r.unwritten[io.id].Prompt? ==> Own(k, r.unwritten[io.id].sid)
    ensures BoxOk(k, IoStep(r, io, wanted))
  {
    var r' := IoStep(r, io, wanted);
    match io
    case VendorStep(ok) =>
      assert forall j :: 0 <= j < |r'.inbox| ==> r'.inbox[j] == r.inbox[j + 1];
      var (id, c) := r.inbox[0];
      if c.Prompt? {
        assert Own(k, c.sid) || id in r.stale;
        assert Isolated(Delivery(c.sid, r.transcript, r.strays, id in r.stale));
      }
    case _ =>
  }

  lemma HandledKeepsQueue(r: Rpc, ok: bool, i: nat)
    requires r.inbox != [] && NoPromptFrom(r, i)
    ensures NoPromptFrom(Handled(r, ok), if i == 0 then 0 else i - 1)
  {
    var r' := Handled(r, ok);
    assert forall j :: 0 <= j < |r'.inbox| ==> r'.inbox[j] == r.inbox[j + 1];
  }

  lemma HandledCleared(r: Rpc, ok: bool, id: ReqId)
    requires r.inbox != [] && Cleared(r, id)
    ensures Cleared(Handled(r, ok), id)
  {
    hide NoPromptFrom;
    var r' := Handled(r, ok);
    forall i | 0 <= i < |r'.inbox| && r'.inbox[i].0 == id ensures r'.inbox[i].1.NewSession? && NoPromptFrom(r', i) {
      assert r'.inbox[i] == r.inbox[i + 1];
      HandledKeepsQueue(r, ok, i + 1);
    }
    if id in r'.answers && r'.answers[id] {
      var answered := id in r.answers && r.answers[id];
      assert answered || r.inbox[0].0 == id;
      assert NoPromptFrom(r, 0);
      HandledKeepsQueue(r, ok, 0);
      HandledStrays(r, ok, answered);
    }
  }

  lemma HandledStrays(r: Rpc, ok: bool, before: bool)
    requires r.inbox != [] && NoPromptFrom(r, 0)
    requires before || (r.inbox[0].1.NewSession? && ok)
    requires before ==> r.transcript == r.strays
    ensures Handled(r, ok).transcript == Handled(r, ok).strays
  {
    assert r.inbox[0].1.NewSession? || r.inbox[0].0 in r.stale;
  }

  lemma HandledSeat(k: Worker, r: Rpc, ok: bool, u: Turn)
    requires r.inbox != [] && r.alive && SeatVendor(k, r, u)
    ensures SeatVendor(k, Handled(r, ok), u)
  {
    hide Cleared;
    var r' := Handled(r, ok);
    assert forall j :: 0 <= j < |r'.inbox| ==> r'.inbox[j] == r.inbox[j + 1];
    if u.phase.Resetting? { HandledCleared(r, ok, u.phase.id); }
  }

  lemma WrittenSeat(k: Worker, r: Rpc, id: ReqId, wanted: bool, u: Turn)
    requires r.alive && id in r.unwritten && SeatVendor(k, r, u)
    requires Parked(u.phase) ==> (wanted <==> u.phase.id == id)
    ensures SeatVendor(k, Written(r, id, !wanted), u)
  {
    var r' := Written(r, id, !wanted);
    if u.phase.Resetting? {
      forall i | 0 <= i < |r'.inbox| && r'.inbox[i].0 == u.phase.id
        ensures r'.inbox[i].1.NewSession? && NoPromptFrom(r', i)
      {
        assert i < |r.inbox| ==> r'.inbox[i] == r.inbox[i] && NoPromptFrom(r, i);
      }
    }
  }

  lemma IoSeat(k: Worker, r: Rpc, io: Io, wanted: bool, t: TurnId, u: Turn)
    requires CanIo(k, r, io) && SeatVendor(k, r, u) && SeatOk(t, k, u) && WorkerOk(k) && BoxOk(k, r)
    requires forall i :: i in r.pending ==> i !in r.answers
    requires io.WriteRuns? && Parked(u.phase) ==> (wanted <==> u.phase.id == io.id)
    ensures SeatVendor(k, IoStep(r, io, wanted), u)
  {
    match io
    case WriteRuns(id) => WrittenSeat(k, r, id, wanted, u);
    case VendorStep(ok) => HandledSeat(k, r, ok, u);
    case _ =>
  }

  /** On one worker, the request a turn is parked on is the only one still wanted there. */
  lemma OnlyWanted(p: Pool, w: World, b: nat, id: ReqId, v: TurnId)
    requires Inv(p, w) && VendorInv(p, w) && b < p.size && id in w.rpcs[b].unwritten
    requires v in w.turns && w.turns[v].worker == b && Parked(w.turns[v].phase)
    ensures Wanted(w, id) <==> w.turns[v].phase.id == id
  {
    assert PipeOk(w, b, w.rpcs[b]) && IssuedHere(w, b, id, w.rpcs[b].unwritten[id]);
    var u := w.requests[id].turn;
    assert SeatOk(u, w.workers[b], w.turns[u]) && SeatOk(v, w.workers[b], w.turns[v]);
    assert ParkedOk(w, v, w.turns[v].phase);
  }

  lemma WantedIsOwn(p: Pool, w: World, b: nat, id: ReqId)
    requires Inv(p, w) && VendorInv(p, w) && b < p.size && id in w.rpcs[b].unwritten && Wanted(w, id)
    requires w.rpcs[b].unwritten[id].Prompt?
    ensures Own(w.workers[b], w.rpcs[b].unwritten[id].sid)
  {
    assert PipeOk(w, b, w.rpcs[b]) && IssuedHere(w, b, id, w.rpcs[b].unwritten[id]);
    var u := w.requests[id].turn;
    assert SeatVendor(w.workers[b], w.rpcs[b], w.turns[u]);
  }

  /** Only the registry and vendor of worker `b` changed. */
  lemma RpcFrame(p: Pool, w: World, w': World, b: nat)
    requires VendorInv(p, w) && Sized(p, w') && b < p.size
    requires w'.workers == w.workers && w'.turns == w.turns
    requires forall id :: id in w.requests ==> id in w'.requests && w'.requests[id] == w.requests[id]
    requires forall c :: 0 <= c < p.size && c != b ==> w'.rpcs[c] == w.rpcs[c]
    requires BoxOk(w.workers[b], w'.rpcs[b]) && PipeOk(w', b, w'.rpcs[b])
    requires forall v :: v in w.turns && w.turns[v].worker == b ==> SeatVendor(w.workers[b], w'.rpcs[b], w.turns[v])
    ensures VendorInv(p, w')
  {
    forall c | 0 <= c < p.size ensures BoxOk(w'.workers[c], w'.rpcs[c]) && PipeOk(w', c, w'.rpcs[c]) {
      if c != b {
        assert BoxOk(w.workers[c], w.rpcs[c]) && PipeOk(w, c, w.rpcs[c]);
        PipeSame(w, w', c, w.rpcs[c], w'.rpcs[c]);
      }
    }
    forall v | v in w'.turns
      ensures SeatVendor(w'.workers[w'.turns[v].worker], w'.rpcs[w'.turns[v].worker], w'.turns[v])
    {
      if w.turns[v].worker != b {
        assert SeatVendor(w.workers[w.turns[v].worker], w.rpcs[w.turns[v].worker], w.turns[v]);
      }
    }
  }

  lemma VendorIoSeat(p: Pool, w: World, b: nat, io: Io, v: TurnId)
    requires Inv(p, w) && VendorInv(p, w) && b < p.size && CanIo(w.workers[b], w.rpcs[b], io)
    requires v in w.turns && w.turns[v].worker == b
    ensures SeatVendor(w.workers[b], IoStep(w.rpcs[b], io, io.WriteRuns? && Wanted(w, io.id)), w.turns[v])
  {
    var u := w.turns[v];
    assert SeatVendor(w.workers[u.worker], w.rpcs[u.worker], u) && SeatOk(v, w.workers[u.worker], u);
    assert BoxOk(w.workers[b], w.rpcs[b]) && RpcOk(w, b, w.rpcs[b]) && WorkerOk(w.workers[b]);
    if io.WriteRuns? && Parked(u.phase) { OnlyWanted(p, w, b, io.id, v); }
    IoSeat(w.workers[b], w.rpcs[b], io, io.WriteRuns? && Wanted(w, io.id), v, u);
  }

  lemma VendorIo(p: Pool, w: World, b: nat, io: Io)
    requires Inv(p, w) && VendorInv(p, w) && Enabled(p, w, OnRpc(b, io))
    ensures VendorInv(p, Apply(p, w, OnRpc(b, io)))
  {
    var w' := Apply(p, w, OnRpc(b, io));
    var k, r := w.workers[b], w.rpcs[b];
    var wanted := io.WriteRuns? && Wanted(w, io.id);
    assert BoxOk(k, r) && PipeOk(w, b, r);
    if wanted && r.unwritten[io.id].Prompt? { WantedIsOwn(p, w, b, io.id); }
    IoBox(k, r, io, wanted);
    IoPipe(w, w', b, io, wanted);
    forall v | v in w.turns && w.turns[v].worker == b ensures SeatVendor(k, w'.rpcs[b], w.turns[v]) {
      VendorIoSeat(p, w, b, io, v);
    }
    RpcFrame(p, w, w', b);
  }

  lemma PipeSame(w: World, w': World, b: nat, r: Rpc, r': Rpc)
    requires PipeOk(w, b, r) && w'.turns == w.turns
    requires forall id :: id in w.requests ==> id in w'.requests && w'.requests[id] == w.requests[id]
    requires r'.unwritten == r.unwritten && r'.inbox == r.inbox && r'.transcript == r.transcript
        && r'.deliveries == r.deliveries
    ensures PipeOk(w', b, r')
  {
    forall id | id in r.unwritten ensures IssuedHere(w', b, id, r.unwritten[id]) {
      assert IssuedHere(w, b, id, r.unwritten[id]);
    }
  }

  lemma IoPipe(w: World, w': World, b: nat, io: Io, wanted: bool)
    requires b < |w.rpcs| && PipeOk(w, b, w.rpcs[b]) && w'.turns == w.turns && w'.requests == w.requests
    requires io.WriteRuns? ==> io.id in w.rpcs[b].unwritten
    requires io.VendorStep? ==> w.rpcs[b].inbox != []
    ensures PipeOk(w', b, IoStep(w.rpcs[b], io, wanted))
  {
    hide NoAnonymousIn;
    var r, r' := w.rpcs[b], IoStep(w.rpcs[b], io, wanted);
    assert PipeOk(w', b, r) by { PipeSame(w, w', b, r, r); }
    forall id | id in r'.unwritten ensures IssuedHere(w', b, id, r'.unwritten[id]) {
      assert IssuedHere(w', b, id, r.unwritten[id]);
    }
    if io.WriteRuns? { assert IssuedHere(w', b, io.id, r.unwritten[io.id]); }
    forall j | 0 <= j < |r'.inbox| ensures r'.inbox[j].0 in w'.requests {
      if io.VendorStep? { assert r'.inbox[j] == r.inbox[j + 1]; }
    }
    if NoAnonymous(w') { IoNoAnonymous(w', b, r, io, wanted); }
  }

  lemma IoNoAnonymous(w: World, b: nat, r: Rpc, io: Io, wanted: bool)
    requires PipeOk(w, b, r) && NoAnonymous(w)
    requires io.WriteRuns? ==> io.id in r.unwritten
    requires io.VendorStep? ==> r.inbox != []
    ensures NoAnonymousIn(IoStep(r, io, wanted))
  {
    hide Written, Handled;
    match io
    case WriteRuns(id) =>
      assert IssuedHere(w, b, id, r.unwritten[id]);
      WrittenNoAnonymous(r, id, !wanted);
    case VendorStep(ok) => HandledNoAnonymous(r, ok);
    case _ =>
  }

  lemma WrittenNoAnonymous(r: Rpc, id: ReqId, stale: bool)
    requires NoAnonymousIn(r) && id in r.unwritten && r.unwritten[id] != Prompt("")
    ensures NoAnonymousIn(Written(r, id, stale))
  {
    var r' := Written(r, id, stale);
    forall j | 0 <= j < |r'.inbox| ensures r'.inbox[j].1 != Prompt("") {
      if j < |r.inbox| { assert r'.inbox[j] == r.inbox[j]; }
    }
  }

  lemma HandledNoAnonymous(r: Rpc, ok: bool)
    requires NoAnonymousIn(r) && r.inbox != []
    ensures NoAnonymousIn(Handled(r, ok))
  {
    var r' := Handled(r, ok);
    assert r.inbox[0].1 != Prompt("");
    forall j | 0 <= j < |r'.inbox| ensures r'.inbox[j].1 != Prompt("") { assert r'.inbox[j] == r.inbox[j + 1]; }
  }

  // ---------------------------------------------------------------- abort calls and new turns

  /** An abort call changes a registry only by adding its own id, dropping pending ids or failing them. */
  predicate AnswersFail(r: Rpc, r': Rpc) {
    && r'.transcript == r.transcript && r'.inbox == r.inbox && r'.unwritten == r.unwritten
    && r'.stale == r.stale && r'.strays == r.strays
    && r'.deliveries == r.deliveries && r'.alive == r.alive && r'.died == r.died
    && (forall id :: id in r'.answers && r'.answers[id] ==> id in r.answers && r.answers[id])
  }

  lemma AbortSideVendor(p: Pool, w: World, w': World, b: nat)
    requires VendorInv(p, w) && Sized(p, w') && b < p.size
    requires w'.workers == w.workers && w'.turns == w.turns
    requires forall id :: id in w.requests ==> id in w'.requests && w'.requests[id] == w.requests[id]
    requires w'.rpcs == w.rpcs[b := w'.rpcs[b]] && AnswersFail(w.rpcs[b], w'.rpcs[b])
    ensures VendorInv(p, w')
  {
    var k, r, r' := w.workers[b], w.rpcs[b], w'.rpcs[b];
    assert BoxOk(k, r) && PipeOk(w, b, r);
    PipeSame(w, w', b, r, r');
    forall v | v in w.turns && w.turns[v].worker == b ensures SeatVendor(k, r', w.turns[v]) {
      assert SeatVendor(w.workers[w.turns[v].worker], w.rpcs[w.turns[v].worker], w.turns[v]);
      SeatSame(k, r, r', w.turns[v]);
    }
    RpcFrame(p, w, w', b);
  }

  lemma SeatSame(k: Worker, r: Rpc, r': Rpc, u: Turn)
    requires SeatVendor(k, r, u) && AnswersFail(r, r')
    ensures SeatVendor(k, r', u)
  {
  }

  lemma BeginPipe(p: Pool, w: World, t: TurnId, s: Sid, st: bool, b: nat, r: Rpc)
    requires PipeOk(w, b, r) && Enabled(p, w, Begin(t, s, st))
    ensures PipeOk(Apply(p, w, Begin(t, s, st)), b, r)
  {
    hide NoAnonymousIn;
    var w' := Apply(p, w, Begin(t, s, st));
    forall id | id in r.unwritten ensures IssuedHere(w', b, id, r.unwritten[id]) {
      assert IssuedHere(w, b, id, r.unwritten[id]);
    }
    if NoAnonymous(w') {
      forall v | v in w.turns ensures w.turns[v].sid != "" { assert v in w'.turns && w'.turns[v].sid != ""; }
    }
  }

  lemma BeginVendor(p: Pool, w: World, t: TurnId, s: Sid, st: bool)
    requires VendorInv(p, w) && Enabled(p, w, Begin(t, s, st))
    ensures VendorInv(p, Apply(p, w, Begin(t, s, st)))
  {
    hide BoxOk, PipeOk;
    var w' := Apply(p, w, Begin(t, s, st));
    forall b | 0 <= b < p.size ensures BoxOk(w'.workers[b], w'.rpcs[b]) && PipeOk(w', b, w'.rpcs[b]) {
      BeginPipe(p, w, t, s, st, b, w.rpcs[b]);
    }
    forall v | v in w'.turns
      ensures SeatVendor(w'.workers[w'.turns[v].worker], w'.rpcs[w'.turns[v].worker], w'.turns[v])
    {
      if v != t { assert SeatVendor(w.workers[w.turns[v].worker], w.rpcs[w.turns[v].worker], w.turns[v]); }
    }
  }

  // ---------------------------------------------------------------- every event, every run

  lemma AbortStartVendor(p: Pool, w: World, a: AbortId, caller: nat, s: Sid, src: L.Source, id: ReqId)
    requires VendorInv(p, w) && Enabled(p, w, AbortStart(a, caller, s, src, id))
    ensures VendorInv(p, Apply(p, w, AbortStart(a, caller, s, src, id)))
  {
    hide VendorInv;
    AbortSideVendor(p, w, Apply(p, w, AbortStart(a, caller, s, src, id)), Aim(w, caller, s, src, id).worker);
  }

  lemma AbortFinishVendor(p: Pool, w: World, a: AbortId)
    requires VendorInv(p, w) && Enabled(p, w, AbortFinish(a))
    ensures VendorInv(p, Apply(p, w, AbortFinish(a)))
  {
    hide VendorInv;
    AbortSideVendor(p, w, Apply(p, w, AbortFinish(a)), w.aborts[a].worker);
  }

  lemma AbortFailsVendor(p: Pool, w: World, a: AbortId)
    requires VendorInv(p, w) && Enabled(p, w, AbortFails(a))
    ensures VendorInv(p, Apply(p, w, AbortFails(a)))
  {
    hide VendorInv;
    AbortSideVendor(p, w, Apply(p, w, AbortFails(a)), w.aborts[a].worker);
  }

  lemma StepVendor(p: Pool, w: World, e: Event)
    requires Inv(p, w) && VendorInv(p, w) && Enabled(p, w, e)
    ensures VendorInv(p, Apply(p, w, e))
  {
    hide VendorInv, Inv, Enabled, Apply;
    match e
    case Begin(t, s, st) => BeginVendor(p, w, t, s, st);
    case OnTurn(t, a) => VendorTurn(p, w, t, a);
    case AbortStart(a, caller, s, src, id) => AbortStartVendor(p, w, a, caller, s, src, id);
    case AbortFinish(a) => AbortFinishVendor(p, w, a);
    case AbortFails(a) => AbortFailsVendor(p, w, a);
    case OnRpc(b, io) => VendorIo(p, w, b, io);
  }

  lemma {:induction false} RunVendor(p: Pool, w: World, es: seq<Event>)
    requires Inv(p, w) && VendorInv(p, w) && Legal(p, w, es)
    ensures VendorInv(p, Exec(p, w, es)) && Inv(p, Exec(p, w, es))
    decreases |es|
  {
    if es != [] {
      StepInv(p, w, es[0]);
      StepVendor(p, w, es[0]);
      RunVendor(p, Apply(p, w, es[0]), es[1..]);
    }
  }
}
