/** Lazy respawn of a dead worker process with exponential backoff. Times are exact reals. */
module Respawn {
  import opened Reals
  import opened Wrappers

  /** The three respawn fields of a bridge. */
  datatype Backoff = Backoff(last: real, wait: real, failures: nat)

  const INITIAL := Backoff(0.0, 1.0, 0)
  const LONGEST_WAIT := 30.0

  function Pow2(n: nat): (r: real)
    ensures r >= 1.0
  {
    if n == 0 then 1.0 else 2.0 * Pow2(n - 1)
  }

  /** The wait after the `k`-th consecutive failure. */
  function Delay(k: nat): real
    requires k > 0
  {
    Min(LONGEST_WAIT, Pow2(k - 1))
  }

  datatype Outcome = Succeeds | Fails | Cancelled

  /** One call of `respawn_if_dead`: whether the worker is alive, whether a turn still holds it, the clock,
      and what `start()` would do. */
  datatype Try = Try(alive: bool, held: bool, now: real, outcome: Outcome)

  predicate Attempts(b: Backoff, t: Try) { !t.alive && t.now - b.last >= b.wait && !t.held }

  /** An attempt stamps the clock first; a cancelled one leaves the counters alone. */
  function After(b: Backoff, t: Try): Backoff {
    if !Attempts(b, t) then b
    else match t.outcome
      case Succeeds => Backoff(t.now, 1.0, 0)
      case Fails => Backoff(t.now, Delay(b.failures + 1), b.failures + 1)
      case Cancelled => b.(last := t.now)
  }

  function AfterAll(b: Backoff, ts: seq<Try>): Backoff
    decreases |ts|
  {
    if ts == [] then b else AfterAll(After(b, ts[0]), ts[1..])
  }

  /** The time of the first failed attempt of the current streak of failures. */
  function StreakStart(b: Backoff, ts: seq<Try>, first: Option<real>): Option<real>
    decreases |ts|
  {
    if ts == [] then first else
      var t := ts[0];
      StreakStart(After(b, t), ts[1..],
        if !Attempts(b, t) || t.outcome.Cancelled? then first
        else if t.outcome.Succeeds? then None
        else if first.None? then Some(t.now) else first)
  }

  function SumDelays(k: nat): real { if k == 0 then 0.0 else SumDelays(k - 1) + Delay(k) }

  /** The streak that led to `b` began at `first`. */
  predicate Spaced(b: Backoff, first: Option<real>) {
    && (b.failures == 0 <==> first.None?)
    && b.wait == (if b.failures == 0 then 1.0 else Delay(b.failures))
    && (b.failures > 0 ==> b.last >= first.value + SumDelays(b.failures - 1))
  }

  lemma {:induction false} SpacedRun(b: Backoff, ts: seq<Try>, first: Option<real>)
    requires Spaced(b, first)
    ensures Spaced(AfterAll(b, ts), StreakStart(b, ts, first))
    decreases |ts|
  {
    if ts != [] {
      var t := ts[0];
      var first' := if !Attempts(b, t) || t.outcome.Cancelled? then first
        else if t.outcome.Succeeds? then None
        else if first.None? then Some(t.now) else first;
      if Attempts(b, t) && t.outcome.Fails? && b.failures > 0 {
        assert SumDelays(b.failures) == SumDelays(b.failures - 1) + Delay(b.failures);
      }
      assert Spaced(After(b, t), first');
      SpacedRun(After(b, t), ts[1..], first');
    }
  }

  /** The k-th consecutive failed attempt comes at least the first k-1 delays after the first one, whatever
      deferred, cooled-down or cancelled calls lie between. */
  lemma KthFailureIsLate(ts: seq<Try>, t: Try)
    requires var b := AfterAll(INITIAL, ts); Attempts(b, t) && t.outcome.Fails? && b.failures > 0
    ensures var b := AfterAll(INITIAL, ts);
      var first := StreakStart(INITIAL, ts, None);
      first.Some? && t.now >= first.value + SumDelays(b.failures) && After(b, t).failures == b.failures + 1
  {
    SpacedRun(INITIAL, ts, None);
    var b := AfterAll(INITIAL, ts);
    assert SumDelays(b.failures) == SumDelays(b.failures - 1) + Delay(b.failures);
  }

  /** The delays are 1, 2, 4, 8, 16 seconds and 30 from the sixth failure on. */
  lemma DelayTable(k: nat)
    requires k > 0
    ensures Delay(k) == if k <= 5 then [1.0, 2.0, 4.0, 8.0, 16.0][k - 1] else 30.0
  {
    if k <= 6 {
      assert Pow2(0) == 1.0 && Pow2(1) == 2.0 && Pow2(2) == 4.0 && Pow2(3) == 8.0 && Pow2(4) == 16.0 && Pow2(5) == 32.0;
    } else {
      Pow2Grows(5, k - 1);
      assert Pow2(0) == 1.0 && Pow2(1) == 2.0 && Pow2(2) == 4.0 && Pow2(3) == 8.0 && Pow2(4) == 16.0 && Pow2(5) == 32.0;
    }
  }

  lemma {:induction false} Pow2Grows(m: nat, n: nat)
    requires m <= n
    ensures Pow2(m) <= Pow2(n)
    decreases n
  {
    if m < n { Pow2Grows(m, n - 1); }
  }
}
