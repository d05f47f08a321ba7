/** The two rendezvous caches between the tool callback and the event stream: dispatch results and plan
    fragments, keyed by session and tool call, bounded, and never evicted under a turn in flight. */
module RendezvousCache {
  import opened OrderedDictionary
  import opened Wrappers

  type Sid = string
  type CallId = string
  type Key = (Sid, CallId)

  type Cache<V> = Dict<Key, V>

  function DropSession<V>(c: Cache<V>, s: Sid): Cache<V> {
    if c == [] then [] else (if c[0].0.0 == s then [] else [c[0]]) + DropSession(c[1..], s)
  }

  // ---------------------------------------------------------------- eviction

  /** Drop the `n` oldest entries whose session has no turn in flight, or all of them if they are fewer. */
  function DropOldest<V>(c: Cache<V>, n: nat, active: set<Sid>): Cache<V> {
    if n == 0 || c == [] then c
    else if c[0].0.0 in active then [c[0]] + DropOldest(c[1..], n, active)
    else DropOldest(c[1..], n - 1, active)
  }

  function Evict<V>(c: Cache<V>, cap: nat, active: set<Sid>): Cache<V> {
    if |c| <= cap then c else DropOldest(c, |c| - cap, active)
  }

  function Inactive<V>(c: Cache<V>, active: set<Sid>): nat {
    if c == [] then 0 else (if c[0].0.0 in active then 0 else 1) + Inactive(c[1..], active)
  }

  /** Exactly `min(n, inactive)` entries go. */
  lemma {:induction false} DropOldestSize<V>(c: Cache<V>, n: nat, active: set<Sid>)
    ensures var gone := if n <= Inactive(c, active) then n else Inactive(c, active);
      gone <= |c| && |DropOldest(c, n, active)| == |c| - gone
  {
    if c != [] && n > 0 {
      DropOldestSize(c[1..], if c[0].0.0 in active then n else n - 1, active);
    } else if c != [] {
      DropOldestSize(c[1..], 0, active);
    }
  }

  lemma EvictionSize<V>(c: Cache<V>, cap: nat, active: set<Sid>)
    requires |c| > cap
    ensures var gone := if |c| - cap <= Inactive(c, active) then |c| - cap else Inactive(c, active);
      |Evict(c, cap, active)| == |c| - gone
  {
    DropOldestSize(c, |c| - cap, active);
  }

  /** The entries that stay are the active ones and the inactive ones behind some cut, in their old order:
      whatever is evicted is inactive and older than every inactive entry that stays. */
  lemma {:induction false} DropOldestCut<V>(c: Cache<V>, n: nat, active: set<Sid>) returns (cut: nat)
    ensures cut <= |c|
    ensures DropOldest(c, n, active) == OnlyActive(c[..cut], active) + c[cut..]
    ensures cut < |c| ==> Inactive(c[..cut], active) == n
  {
    if n == 0 || c == [] {
      cut := 0;
    } else {
      var rest := DropOldestCut(c[1..], if c[0].0.0 in active then n else n - 1, active);
      cut := rest + 1;
      assert c[..cut][1..] == c[1..][..rest] && c[cut..] == c[1..][rest..];
    }
  }

  function OnlyActive<V>(c: Cache<V>, active: set<Sid>): Cache<V> {
    if c == [] then [] else (if c[0].0.0 in active then [c[0]] else []) + OnlyActive(c[1..], active)
  }

  // ---------------------------------------------------------------- lookups through the operations

  lemma {:induction false} LookupConcat<V>(x: Cache<V>, y: Cache<V>, k: Key)
    ensures Lookup(x + y, k) == if Lookup(x, k).Some? then Lookup(x, k) else Lookup(y, k)
    decreases |x|
  {
    if x == [] {
      assert x + y == y;
    } else {
      assert (x + y)[1..] == x[1..] + y;
      LookupConcat(x[1..], y, k);
      LookupCons(x, k);
      LookupCons(x + y, k);
    }
  }

  lemma LookupCons<V>(c: Cache<V>, k: Key)
    requires c != []
    ensures Lookup(c, k) == if c[0].0 == k then Some(c[0].1) else Lookup(c[1..], k)
  {
  }

  lemma {:induction false} DropSessionLookup<V>(c: Cache<V>, s: Sid, k: Key)
    ensures Lookup(DropSession(c, s), k) == if k.0 == s then None else Lookup(c, k)
  {
    if c != [] {
      DropSessionLookup(c[1..], s, k);
      LookupCons(c, k);
      LookupConcat(if c[0].0.0 == s then [] else [c[0]], DropSession(c[1..], s), k);
      LookupCons([c[0]], k);
    }
  }

  /** Eviction leaves every entry of an active session, and otherwise either keeps or loses an entry. */
  lemma {:induction false} EvictedLookup<V>(c: Cache<V>, n: nat, active: set<Sid>, k: Key)
    requires Distinct(c)
    ensures Lookup(DropOldest(c, n, active), k) == Lookup(c, k)
            || (k.0 !in active && Lookup(DropOldest(c, n, active), k) == None)
  {
    if n != 0 && c != [] {
      DistinctTail(c);
      if c[0].0.0 in active {
        EvictedLookup(c[1..], n, active, k);
        LookupCons([c[0]], k);
        LookupConcat([c[0]], DropOldest(c[1..], n, active), k);
      } else {
        EvictedLookup(c[1..], n - 1, active, k);
        if c[0].0 == k { AbsentLookup(c[1..], k); }
      }
      LookupCons(c, k);
    }
  }

  lemma DistinctTail<V>(c: Cache<V>)
    requires Distinct(c) && c != []
    ensures Distinct(c[1..]) && forall j :: 0 <= j < |c[1..]| ==> c[1..][j].0 != c[0].0
  {
  }

  lemma AbsentLookup<V>(c: Cache<V>, k: Key)
    requires forall j :: 0 <= j < |c| ==> c[j].0 != k
    ensures Lookup(c, k) == None
  {
  }

  lemma StoreLookup<V>(c: Cache<V>, k: Key, v: V, q: Key)
    requires Distinct(c)
    ensures Distinct(Put(c, k, v))
    ensures Lookup(Put(c, k, v), q) == if q == k then Some(v) else Lookup(c, q)
  {
    var d := Put(c, k, v);
    var i := Find(c, k);
    if q == k {
      assert d[i].0 == k;
    } else {
      if i == |c| {
        LookupConcat(c, [(k, v)], q);
        LookupCons([(k, v)], q);
      } else {
        var j := Find(c, q);
        assert j < |c| ==> d[j] == c[j];
      }
    }
  }

  lemma ConsDistinct<V>(e: (Key, V), d: Cache<V>)
    requires Distinct(d) && forall x :: x in d ==> x.0 != e.0
    ensures Distinct([e] + d)
  {
  }

  /** `d` is what is left of `c[1..]`; then both `d` and `c[0]` before it are what is left of `c`. */
  lemma LeftOver<V>(c: Cache<V>, d: Cache<V>)
    requires Distinct(c) && c != [] && Distinct(d) && forall e :: e in d ==> e in c[1..]
    ensures Distinct([c[0]] + d)
    ensures forall e :: e in d ==> e in c
    ensures forall e :: e in [c[0]] + d ==> e in c
  {
    forall x | x in d ensures x.0 != c[0].0 && x in c {
      var j :| 0 <= j < |c[1..]| && c[1..][j] == x;
      assert c[j + 1] == x;
    }
    ConsDistinct(c[0], d);
  }

  lemma DropCons<V>(c: Cache<V>, k: Key)
    requires c != []
    ensures Remove(c, k) == if c[0].0 == k then c[1..] else [c[0]] + Remove(c[1..], k)
  {
    if c[0].0 != k {
      var i := Find(c[1..], k);
      assert Find(c, k) == i + 1;
      if i < |c[1..]| {
        assert c[..i + 1] == [c[0]] + c[1..][..i] && c[i + 2..] == c[1..][i + 1..];
      }
    }
  }

  lemma {:induction false} DropLookup<V>(c: Cache<V>, k: Key, q: Key)
    requires Distinct(c)
    ensures Distinct(Remove(c, k)) && forall e :: e in Remove(c, k) ==> e in c
    ensures Lookup(Remove(c, k), q) == if q == k then None else Lookup(c, q)
  {
    if c != [] {
      DropCons(c, k);
      DistinctTail(c);
      LookupCons(c, q);
      if c[0].0 == k {
        if q == k { AbsentLookup(c[1..], k); }
      } else {
        DropLookup(c[1..], k, q);
        LeftOver(c, Remove(c[1..], k));
        LookupCons([c[0]] + Remove(c[1..], k), q);
      }
    }
  }

  lemma {:induction false} DropSessionDistinct<V>(c: Cache<V>, s: Sid)
    requires Distinct(c)
    ensures Distinct(DropSession(c, s)) && forall e :: e in DropSession(c, s) ==> e in c
  {
    if c != [] {
      DistinctTail(c);
      DropSessionDistinct(c[1..], s);
      LeftOver(c, DropSession(c[1..], s));
      assert [] + DropSession(c[1..], s) == DropSession(c[1..], s);
    }
  }

  lemma {:induction false} DropOldestDistinct<V>(c: Cache<V>, n: nat, active: set<Sid>)
    requires Distinct(c)
    ensures Distinct(DropOldest(c, n, active)) && forall e :: e in DropOldest(c, n, active) ==> e in c
  {
    if n != 0 && c != [] {
      DistinctTail(c);
      var m := if c[0].0.0 in active then n else n - 1;
      DropOldestDistinct(c[1..], m, active);
      LeftOver(c, DropOldest(c[1..], m, active));
    }
  }

  // ---------------------------------------------------------------- runs

  /** One cache operation; `active` are the sessions with a turn in flight at that moment. A turn boundary
      clears its session. */
  datatype Op<V> =
    | Cached(key: Key, value: V, active: set<Sid>)
    | Taken(key: Key)
    | Boundary(sid: Sid)

  /** How a new value joins the one that is already there: results replace, fragments are appended. */
  type Merge<!V> = (Option<V>, V) -> V

  function Step<V>(c: Cache<V>, op: Op<V>, cap: nat, merge: Merge<V>): Cache<V> {
    match op
    case Cached(k, v, active) => Evict(Put(c, k, merge(Lookup(c, k), v)), cap, active)
    case Taken(k) => Remove(c, k)
    case Boundary(s) => DropSession(c, s)
  }

  function Run<V>(c: Cache<V>, ops: seq<Op<V>>, cap: nat, merge: Merge<V>): Cache<V>
    decreases |ops|
  {
    if ops == [] then c else Run(Step(c, ops[0], cap, merge), ops[1..], cap, merge)
  }

  /** The same operations on one key of an unbounded table. */
  function Slot<V>(x: Option<V>, op: Op<V>, k: Key, merge: Merge<V>): Option<V> {
    match op
    case Cached(q, v, _) => if q == k then Some(merge(x, v)) else x
    case Taken(q) => if q == k then None else x
    case Boundary(s) => if s == k.0 then None else x
  }

  function SlotRun<V>(x: Option<V>, ops: seq<Op<V>>, k: Key, merge: Merge<V>): Option<V>
    decreases |ops|
  {
    if ops == [] then x else SlotRun(Slot(x, ops[0], k, merge), ops[1..], k, merge)
  }

  /** The session has a turn in flight whenever something is cached. */
  predicate InFlightThroughout<V>(ops: seq<Op<V>>, s: Sid) {
    forall i :: 0 <= i < |ops| && ops[i].Cached? ==> s in ops[i].active
  }

  lemma StepLookup<V>(c: Cache<V>, op: Op<V>, cap: nat, merge: Merge<V>, k: Key)
    requires Distinct(c)
    ensures Distinct(Step(c, op, cap, merge))
    ensures Lookup(Step(c, op, cap, merge), k) == Slot(Lookup(c, k), op, k, merge)
            || (op.Cached? && k.0 !in op.active && Lookup(Step(c, op, cap, merge), k) == None)
  {
    match op
    case Cached(q, v, active) =>
      var d := Put(c, q, merge(Lookup(c, q), v));
      StoreLookup(c, q, merge(Lookup(c, q), v), k);
      if |d| > cap {
        EvictedLookup(d, |d| - cap, active, k);
        DropOldestDistinct(d, |d| - cap, active);
      }
    case Taken(q) => DropLookup(c, q, k);
    case Boundary(s) =>
      DropSessionLookup(c, s, k);
      DropSessionDistinct(c, s);
  }

  /** For a session in flight the bounded cache behaves like an unbounded table: an entry leaves only by a
      take of its own key or a turn boundary of its own session. */
  lemma {:induction false} InFlightRefinesTable<V>(c: Cache<V>, ops: seq<Op<V>>, cap: nat, merge: Merge<V>, k: Key)
    requires Distinct(c) && InFlightThroughout(ops, k.0)
    ensures Lookup(Run(c, ops, cap, merge), k) == SlotRun(Lookup(c, k), ops, k, merge)
    decreases |ops|
  {
    if ops != [] {
      StepLookup(c, ops[0], cap, merge, k);
      assert forall i :: 0 <= i < |ops[1..]| ==> ops[1..][i] == ops[i + 1];
      InFlightRefinesTable(Step(c, ops[0], cap, merge), ops[1..], cap, merge, k);
    }
  }

  /** Whatever is in flight, a key that was taken stays empty until it is cached again: a result is consumed
      at most once, and never under another key. */
  lemma {:induction false} ConsumedAtMostOnce<V>(c: Cache<V>, ops: seq<Op<V>>, cap: nat, merge: Merge<V>, k: Key)
    requires Distinct(c) && Lookup(c, k) == None
    requires forall i :: 0 <= i < |ops| && ops[i].Cached? ==> ops[i].key != k
    ensures Lookup(Run(c, ops, cap, merge), k) == None
    decreases |ops|
  {
    if ops != [] {
      StepLookup(c, ops[0], cap, merge, k);
      assert forall i :: 0 <= i < |ops[1..]| ==> ops[1..][i] == ops[i + 1];
      ConsumedAtMostOnce(Step(c, ops[0], cap, merge), ops[1..], cap, merge, k);
    }
  }

  /** An operation of another session never touches the entry, except by evicting it while its session has no
      turn in flight. */
  lemma OtherSessionsKeepOut<V>(c: Cache<V>, op: Op<V>, cap: nat, merge: Merge<V>, k: Key)
    requires Distinct(c)
    requires match op
      case Cached(q, _, active) => q.0 != k.0 && k.0 in active
      case Taken(q) => q.0 != k.0
      case Boundary(s) => s != k.0
    ensures Lookup(Step(c, op, cap, merge), k) == Lookup(c, k)
  {
    StepLookup(c, op, cap, merge, k);
  }

  function Append(x: Option<string>, v: string): string { (if x.Some? then x.value else "") + v }

  /** The plan fragments cached under `k` since it was last emptied, in order. */
  function FragmentsSince(ops: seq<Op<string>>, k: Key, acc: string): string
    decreases |ops|
  {
    if ops == [] then acc else
      FragmentsSince(ops[1..], k,
        match ops[0]
        case Cached(q, v, _) => if q == k then acc + v else acc
        case Taken(q) => if q == k then "" else acc
        case Boundary(s) => if s == k.0 then "" else acc)
  }

  function OrEmpty(x: Option<string>): string { if x.Some? then x.value else "" }

  lemma {:induction false} SlotRunIsFragments(x: Option<string>, ops: seq<Op<string>>, k: Key)
    ensures OrEmpty(SlotRun(x, ops, k, Append)) == FragmentsSince(ops, k, OrEmpty(x))
    decreases |ops|
  {
    if ops != [] {
      SlotRunIsFragments(Slot(x, ops[0], k, Append), ops[1..], k);
    }
  }

  /** What a turn in flight takes is the concatenation, in order, of every fragment since the last removal. */
  lemma PlanTakenIsComplete(c: Cache<string>, ops: seq<Op<string>>, cap: nat, k: Key)
    requires Distinct(c) && InFlightThroughout(ops, k.0)
    ensures OrEmpty(Lookup(Run(c, ops, cap, Append), k)) == FragmentsSince(ops, k, OrEmpty(Lookup(c, k)))
  {
    InFlightRefinesTable(c, ops, cap, Append, k);
    SlotRunIsFragments(Lookup(c, k), ops, k);
  }

  /** A boundary empties what its session has cached, in flight or not. */
  lemma BoundaryWipes(s: Sid, call: CallId, v: string, cap: nat)
    requires cap > 0
    ensures Lookup(Run([], [Cached((s, call), v, {s})], cap, Append), (s, call)) == Some(v)
    ensures Lookup(Run([], [Cached((s, call), v, {s}), Boundary(s)], cap, Append), (s, call)) == None
  {
    var k := (s, call);
    var put, wipe: Op<string> := Cached(k, v, {s}), Boundary(s);
    InFlightRefinesTable([], [put], cap, Append, k);
    InFlightRefinesTable([], [put, wipe], cap, Append, k);
    assert [put][1..] == [] && [put, wipe][1..] == [wipe] && [wipe][1..] == [];
    assert Slot(None, put, k, Append) == Some(v) by { assert "" + v == v; }
    assert SlotRun(None, [put, wipe], k, Append) == SlotRun(Some(v), [wipe], k, Append) == SlotRun(None, [], k, Append);
  }

  // ---------------------------------------------------------------- the module dictionaries

  const CACHE_MAX: nat := 128

  lemma HeadTail<T>(s: seq<T>, i: nat)
    requires i < |s|
    ensures s[i..] == [s[i]] + s[i + 1..] && s[i..] != [] && s[i..][0] == s[i] && s[i..][1..] == s[i + 1..]
  {
  }

  /** One key of the eviction loop, `n` entries still over the cap. */
  lemma EvictStep<V>(keys: Cache<V>, kept: Cache<V>, i: nat, n: nat, active: set<Sid>)
    requires i < |keys| && n > 0
    ensures var goal := kept + DropOldest(keys[i..], n, active);
      if keys[i].0.0 in active then
        && goal == kept + [keys[i]] + DropOldest(keys[i + 1..], n, active)
        && kept + keys[i..] == kept + [keys[i]] + keys[i + 1..]
      else
        goal == kept + DropOldest(keys[i + 1..], n - 1, active)
  {
    HeadTail(keys, i);
    assert kept + ([keys[i]] + keys[i + 1..]) == kept + [keys[i]] + keys[i + 1..];
    var rest := DropOldest(keys[i + 1..], n, active);
    assert kept + ([keys[i]] + rest) == kept + [keys[i]] + rest;
  }

  /** The eviction loop at key `i`: what is kept so far, what the cache holds, and what it will end with. */
  ghost predicate Midway<V>(keys: Cache<V>, kept: Cache<V>, i: nat, now: Cache<V>, cap: nat, active: set<Sid>,
                            goal: Cache<V>)
  {
    i <= |keys| && now == kept + keys[i..] && |now| > cap && goal == kept + DropOldest(keys[i..], |now| - cap, active)
  }

  lemma MidwayStep<V>(keys: Cache<V>, kept: Cache<V>, i: nat, now: Cache<V>, cap: nat, active: set<Sid>, goal: Cache<V>)
    requires i < |keys| && Midway(keys, kept, i, now, cap, active, goal)
    ensures keys[i].0.0 in active ==> Midway(keys, kept + [keys[i]], i + 1, now, cap, active, goal)
    ensures keys[i].0.0 !in active ==>
      var next := kept + keys[i + 1..];
      if |next| <= cap then next == goal else Midway(keys, kept, i + 1, next, cap, active, goal)
  {
    EvictStep(keys, kept, i, |now| - cap, active);
  }

  lemma MidwayEnd<V>(keys: Cache<V>, kept: Cache<V>, now: Cache<V>, cap: nat, active: set<Sid>, goal: Cache<V>)
    requires Midway(keys, kept, |keys|, now, cap, active, goal)
    ensures now == goal
  {
  }

  /** The boundary loop at key `i`. */
  ghost predicate Sweeping<V>(keys: Cache<V>, kept: Cache<V>, i: nat, now: Cache<V>, sid: Sid, goal: Cache<V>) {
    i <= |keys| && now == kept + keys[i..] && goal == kept + DropSession(keys[i..], sid)
  }

  lemma SweepStep<V>(keys: Cache<V>, kept: Cache<V>, i: nat, now: Cache<V>, sid: Sid, goal: Cache<V>)
    requires i < |keys| && Sweeping(keys, kept, i, now, sid, goal)
    ensures if keys[i].0.0 == sid then Sweeping(keys, kept, i + 1, kept + keys[i + 1..], sid, goal)
            else Sweeping(keys, kept + [keys[i]], i + 1, now, sid, goal)
  {
    HeadTail(keys, i);
    var rest := DropSession(keys[i + 1..], sid);
    if keys[i].0.0 == sid {
      assert [] + rest == rest;
    } else {
      assert kept + ([keys[i]] + keys[i + 1..]) == kept + [keys[i]] + keys[i + 1..];
      assert kept + ([keys[i]] + rest) == kept + [keys[i]] + rest;
    }
  }

  lemma SweepEnd<V>(keys: Cache<V>, kept: Cache<V>, now: Cache<V>, sid: Sid, goal: Cache<V>)
    requires Sweeping(keys, kept, |keys|, now, sid, goal)
    ensures now == goal
  {
  }

  class Caches<V(!new)> {
    var entries: Cache<V>

    constructor ()
      ensures entries == []
    {
      entries := [];
    }

    /** Pops the oldest inactive keys, one by one, until the cache fits. */
    method EvictProtectActive(cap: nat, active: set<Sid>)
      modifies this
      ensures entries == Evict(old(entries), cap, active)
    {
      if |entries| <= cap {
        return;
      }
      var keys := entries;
      ghost var goal := Evict(keys, cap, active);
      var kept: Cache<V> := [];
      var i := 0;
      assert keys[0..] == keys;
      assert Midway(keys, kept, 0, entries, cap, active, goal);
      hide Midway, Evict;
      while i < |keys|
        invariant i <= |keys| && Midway(keys, kept, i, entries, cap, active, goal)
      {
        MidwayStep(keys, kept, i, entries, cap, active, goal);
        if keys[i].0.0 in active {
          kept := kept + [keys[i]];
        } else {
          entries := kept + keys[i + 1..];
          if |entries| <= cap {
            return;
          }
        }
        i := i + 1;
      }
      MidwayEnd(keys, kept, entries, cap, active, goal);
    }

    method CacheEntry(key: Key, value: V, merge: Merge<V>, active: set<Sid>)
      requires Distinct(entries)
      modifies this
      ensures Distinct(entries)
      ensures entries == Step(old(entries), Cached(key, value, active), 128, merge)
    {
      StoreLookup(entries, key, merge(Lookup(entries, key), value), key);
      entries := Put(entries, key, merge(Lookup(entries, key), value));
      ghost var stored := entries;
      EvictProtectActive(CACHE_MAX, active);
      if |stored| > CACHE_MAX { DropOldestDistinct(stored, |stored| - CACHE_MAX, active); }
    }

    /** Read and pop. */
    method TakeEntry(key: Key) returns (value: Option<V>)
      requires Distinct(entries)
      modifies this
      ensures Distinct(entries)
      ensures value == Lookup(old(entries), key) && entries == Remove(old(entries), key)
    {
      DropLookup(entries, key, key);
      value := Lookup(entries, key);
      entries := Remove(entries, key);
    }

    /** A turn boundary of session `sid`: its keys are popped one by one. */
    method PopSessionEntries(sid: Sid)
      requires Distinct(entries)
      modifies this
      ensures Distinct(entries) && entries == DropSession(old(entries), sid)
    {
      DropSessionDistinct(entries, sid);
      var keys := entries;
      ghost var goal := DropSession(keys, sid);
      var kept: Cache<V> := [];
      var i := 0;
      assert keys[0..] == keys;
      assert Sweeping(keys, kept, 0, entries, sid, goal);
      hide Sweeping, DropSession;
      while i < |keys|
        invariant i <= |keys| && Sweeping(keys, kept, i, entries, sid, goal)
      {
        SweepStep(keys, kept, i, entries, sid, goal);
        if keys[i].0.0 == sid {
          entries := kept + keys[i + 1..];
        } else {
          kept := kept + [keys[i]];
        }
        i := i + 1;
      }
      SweepEnd(keys, kept, entries, sid, goal);
    }
  }
}
