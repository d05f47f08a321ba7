/** The two event drains of a turn and their budgets, with ideal timers: a wait returns at the first of the
    next event, the death of the process and its own deadline, and handling an event takes no time. */
module DrainBudget {
  import opened Reals
  import opened Wrappers

  /** Vendor events as far as a drain tells them apart. */
  datatype Kind = MessageUpdate | AgentEnd(willRetry: bool) | AgentSettled | Other

  /** An event of the worker's queue: when it is there, what it is, and the text extracted from it. */
  datatype Arrival = Arrival(at: real, kind: Kind, text: string)

  /** The four environment-tunable constants; all are positive. */
  datatype Budgets = Budgets(grain: real, heartbeat: real, stall: real, total: real)

  predicate Positive(b: Budgets) { b.grain > 0.0 && b.heartbeat > 0.0 && b.stall > 0.0 && b.total > 0.0 }

  /** Events are queued in order. */
  predicate Ordered(es: seq<Arrival>) { forall i, j :: 0 <= i < j < |es| ==> es[i].at <= es[j].at }

  datatype End = Settled | Stalled | TotalSpent | Died

  /** When the drain last heard of the vendor: its start, or the moment it took its last event. */
  function Heard(es: seq<Arrival>, start: real): (r: real)
    ensures r >= start
  {
    if es == [] then start else Max(es[|es| - 1].at, Heard(es[..|es| - 1], start))
  }

  lemma HeardNext(es: seq<Arrival>, n: nat, start: real)
    requires n < |es|
    ensures Heard(es[..n + 1], start) == Max(es[n].at, Heard(es[..n], start))
  {
    assert es[..n + 1][..n] == es[..n];
  }

  /** What asyncio.wait returns. */
  datatype Woken = ByEvent | ByDeath | ByTimeout

  /** Wait from `now` for `timeout`: whatever comes first ends it, a death before an event at the same time. */
  function Wake(now: real, timeout: real, next: Option<real>, death: Option<real>): (r: (Woken, real))
    requires timeout > 0.0
    ensures now <= r.1 <= now + timeout
    ensures r.0.ByTimeout? ==> r.1 == now + timeout
    ensures r.0.ByTimeout? ==> (next.Some? ==> next.value > r.1) && (death.Some? ==> death.value > r.1)
    ensures r.0.ByEvent? ==> next.Some? && r.1 == Max(now, next.value) && (death.Some? ==> death.value > r.1)
    ensures r.0.ByDeath? ==> death.Some? && r.1 == Max(now, death.value) && (next.Some? ==> Max(now, next.value) >= r.1)
  {
    var e := if next.Some? then Max(now, next.value) else now + timeout + 1.0;
    var d := if death.Some? then Max(now, death.value) else now + timeout + 1.0;
    if d <= e && d <= now + timeout then (ByDeath, d)
    else if e <= now + timeout then (ByEvent, e)
    else (ByTimeout, now + timeout)
  }

  // ---------------------------------------------------------------- final text

  /** The non-streaming drain keeps the latest text of any event but a retrying `agent_end`. */
  function PromptText(es: seq<Arrival>): string {
    if es == [] then "" else
      var e := es[|es| - 1];
      if e.text != "" && (match e.kind case AgentEnd(retry) => !retry case AgentSettled => false case _ => true)
      then e.text else PromptText(es[..|es| - 1])
  }

  /** The streaming drain reads text from `message_update` and a final `agent_end` only. */
  function StreamText(es: seq<Arrival>): string {
    if es == [] then "" else
      var e := es[|es| - 1];
      if e.text != "" && (e.kind.MessageUpdate? || e.kind == AgentEnd(false))
      then e.text else StreamText(es[..|es| - 1])
  }

  /** An event with text that both drains read. */
  predicate Shared(e: Arrival) { e.text != "" && (e.kind.MessageUpdate? || e.kind == AgentEnd(false)) }

  /** An event with text that only the non-streaming drain reads. */
  predicate PromptOnly(e: Arrival) { e.text != "" && e.kind.Other? }

  /** The last event with text both drains read. */
  predicate LastShared(es: seq<Arrival>, j: nat)
    requires j < |es|
  {
    Shared(es[j]) && forall k :: j < k < |es| ==> !Shared(es[k])
  }

  /** The last event with text the non-streaming drain reads. */
  predicate LastRead(es: seq<Arrival>, i: nat)
    requires i < |es|
  {
    (Shared(es[i]) || PromptOnly(es[i])) && forall k :: i < k < |es| ==> !Shared(es[k]) && !PromptOnly(es[k])
  }

  lemma {:induction false} StreamTextIs(es: seq<Arrival>)
    ensures if StreamText(es) == "" then forall k :: 0 <= k < |es| ==> !Shared(es[k])
            else exists j: nat :: j < |es| && LastShared(es, j) && es[j].text == StreamText(es)
  {
    if es != [] {
      var n := |es| - 1;
      var init := es[..n];
      StreamTextIs(init);
      assert forall k :: 0 <= k < n ==> init[k] == es[k];
      if Shared(es[n]) {
        assert LastShared(es, n);
      } else if StreamText(init) != "" {
        var j: nat :| j < |init| && LastShared(init, j) && init[j].text == StreamText(init);
        assert LastShared(es, j);
      }
    }
  }

  lemma {:induction false} PromptTextIs(es: seq<Arrival>)
    ensures if PromptText(es) == "" then forall k :: 0 <= k < |es| ==> !Shared(es[k]) && !PromptOnly(es[k])
            else exists i: nat :: i < |es| && LastRead(es, i) && es[i].text == PromptText(es)
  {
    if es != [] {
      var n := |es| - 1;
      var init := es[..n];
      PromptTextIs(init);
      assert forall k :: 0 <= k < n ==> init[k] == es[k];
      if Shared(es[n]) || PromptOnly(es[n]) {
        assert LastRead(es, n);
      } else if PromptText(init) != "" {
        var i: nat :| i < |init| && LastRead(init, i) && init[i].text == PromptText(init);
        assert LastRead(es, i);
      }
    }
  }

  lemma NothingRead(es: seq<Arrival>)
    requires PromptText(es) == ""
    ensures StreamText(es) == "" && forall i: nat :: i < |es| ==> !LastRead(es, i)
  {
    hide PromptText, StreamText;
    PromptTextIs(es);
    StreamTextIs(es);
  }

  lemma OneLastRead(es: seq<Arrival>, i: nat, k: nat)
    requires i < |es| && k < |es| && LastRead(es, i) && LastRead(es, k)
    ensures i == k
  {
  }

  lemma LastSharedIsKept(es: seq<Arrival>, j: nat)
    requires j < |es| && LastShared(es, j)
    ensures StreamText(es) == es[j].text != ""
  {
    hide StreamText;
    StreamTextIs(es);
  }

  /** Unless it is the last event of both, the last shared event is before the last event read. */
  lemma SharedIsRead(es: seq<Arrival>, i: nat)
    requires i < |es| && LastRead(es, i)
    ensures es[i].text != "" && (PromptOnly(es[i]) || LastShared(es, i))
    ensures PromptOnly(es[i]) ==> forall j: nat :: j < |es| && LastShared(es, j) ==> j < i
  {
  }

  /** The two drains keep the same text exactly if the last event with text is one both of them read, or the last
      one that both read carries the same text. */
  lemma {:induction false} TextsAgreeIff(es: seq<Arrival>)
    ensures PromptText(es) == StreamText(es) <==>
            forall i: nat :: i < |es| && LastRead(es, i) && PromptOnly(es[i]) ==>
              exists j: nat :: j < i && LastShared(es, j) && es[j].text == es[i].text
  {
    hide *;
    PromptTextIs(es);
    StreamTextIs(es);
    if PromptText(es) == "" {
      NothingRead(es);
    } else {
      var last: nat :| last < |es| && LastRead(es, last) && es[last].text == PromptText(es);
      forall i: nat | i < |es| && LastRead(es, i) ensures i == last { OneLastRead(es, i, last); }
      forall j: nat | j < |es| && LastShared(es, j) ensures StreamText(es) == es[j].text != "" {
        LastSharedIsKept(es, j);
      }
      SharedIsRead(es, last);
    }
  }

  /** So they do whenever no other event carries any. */
  lemma {:induction false} SameFinalText(es: seq<Arrival>)
    requires forall i :: 0 <= i < |es| && es[i].kind.Other? ==> es[i].text == ""
    ensures PromptText(es) == StreamText(es)
  {
    TextsAgreeIff(es);
  }

  /** But not on a single tool event with text. */
  lemma OtherTextDiffers(at: real, text: string)
    requires text != ""
    ensures PromptText([Arrival(at, Other, text)]) == text && StreamText([Arrival(at, Other, text)]) == ""
  {
    assert [Arrival(at, Other, text)][..0] == [];
  }

  // ---------------------------------------------------------------- the drains

  predicate NoneSettled(es: seq<Arrival>) { forall i :: 0 <= i < |es| ==> !es[i].kind.AgentSettled? }

  /** How a drain ended after taking the first `n` events: only `agent_settled` settles it. */
  predicate EndedBy(es: seq<Arrival>, n: nat, why: End) {
    && n <= |es|
    && if why.Settled? then n > 0 && es[n - 1].kind.AgentSettled? && NoneSettled(es[..n - 1]) else NoneSettled(es[..n])
  }

  /** Event `m` is the first that settles, within the total budget, after silences shorter than the stall budget. */
  ghost predicate LivelyUpTo(b: Budgets, es: seq<Arrival>, start: real, m: nat) {
    && m < |es| && es[m].kind.AgentSettled? && NoneSettled(es[..m])
    && es[m].at < start + b.total
    && forall i :: 0 <= i <= m ==> es[i].at - Heard(es[..i], start) < b.stall
  }

  ghost predicate Lively(b: Budgets, es: seq<Arrival>, start: real) { exists m: nat :: LivelyUpTo(b, es, start, m) }

  /** As long as a lively turn has not settled, its next event is near and within the total budget. */
  lemma LivelyNext(b: Budgets, es: seq<Arrival>, start: real, n: nat)
    requires Positive(b) && Ordered(es) && n <= |es| && NoneSettled(es[..n]) && Lively(b, es, start)
    ensures n < |es| && es[n].at - Heard(es[..n], start) < b.stall && es[n].at < start + b.total
    ensures Heard(es[..n], start) < start + b.total
  {
    var m: nat :| LivelyUpTo(b, es, start, m);
    assert forall i :: 0 <= i < n ==> es[..n][i] == es[i];
    HeardBefore(es, start, n, start + b.total);
  }

  lemma {:induction false} HeardBefore(es: seq<Arrival>, start: real, n: nat, limit: real)
    requires n <= |es| && start < limit && forall i :: 0 <= i < n ==> es[i].at < limit
    ensures Heard(es[..n], start) < limit
  {
    if n > 0 {
      HeardNext(es, n - 1, start);
      HeardBefore(es, start, n - 1, limit);
    } else {
      assert es[..0] == [];
    }
  }

  lemma LivelyFacts(b: Budgets, es: seq<Arrival>, start: real, n: nat)
    requires Positive(b) && Ordered(es) && n <= |es| && NoneSettled(es[..n])
    ensures Lively(b, es, start) ==>
      n < |es| && es[n].at - Heard(es[..n], start) < b.stall && es[n].at < start + b.total
      && Heard(es[..n], start) < start + b.total
  {
    if Lively(b, es, start) { LivelyNext(b, es, start, n); }
  }

  lemma TextNext(es: seq<Arrival>, n: nat)
    requires n < |es|
    ensures StreamText(es[..n + 1]) == if es[n].text != ""
        && (es[n].kind.MessageUpdate? || es[n].kind == AgentEnd(false))
                                       then es[n].text else StreamText(es[..n])
    ensures PromptText(es[..n + 1]) == if es[n].text != "" && es[n].kind != AgentEnd(true) && es[n].kind != AgentSettled
                                       then es[n].text else PromptText(es[..n])
  {
    assert es[..n + 1][..n] == es[..n] && es[..n + 1][n] == es[n];
  }

  lemma NextSettled(es: seq<Arrival>, n: nat)
    requires n < |es| && NoneSettled(es[..n])
    ensures es[..n + 1][..n] == es[..n]
    ensures NoneSettled(es[..n + 1]) <==> !es[n].kind.AgentSettled?
  {
    assert es[..n + 1][n] == es[n];
    assert forall i :: 0 <= i < n ==> es[..n + 1][i] == es[..n][i];
  }

  lemma Quotient(q: real, grain: real, left: real)
    requires grain > 0.0 && q * grain == left
    ensures left / grain == q
  {
    assert (left / grain - q) * grain == 0.0;
  }

  lemma FewerGrains(left: real, grain: real)
    requires grain > 0.0 && left - grain >= 0.0
    ensures 0 <= ((left - grain) / grain).Floor < (left / grain).Floor
  {
    var q := left / grain;
    assert q * grain == left;
    assert (q - 1.0) * grain == left - grain;
    Quotient(q - 1.0, grain, left - grain);
  }

  /** Where a drain stands: the first `n` events are taken, none of them settled it, and the process is alive. */
  ghost predicate Draining(es: seq<Arrival>, start: real, n: nat, last: real, now: real, death: Option<real>) {
    && n <= |es| && NoneSettled(es[..n])
    && last == Heard(es[..n], start) && last <= now
    && (n < |es| ==> es[n].at > now || now == last)
    && (death.Some? ==> now == start || death.value > now)
  }

  /** No event was taken after a silence of more than `longest`. */
  ghost predicate Attentive(es: seq<Arrival>, start: real, n: nat, longest: real) {
    n <= |es| && forall i :: 0 <= i < n ==> es[i].at - Heard(es[..i], start) <= longest
  }

  lemma AttentiveNext(es: seq<Arrival>, start: real, n: nat, longest: real, at: real)
    requires n < |es| && Attentive(es, start, n, longest) && es[n].at <= at && at - Heard(es[..n], start) <= longest
    ensures Attentive(es, start, n + 1, longest)
  {
    hide Heard;
  }

  lemma DrainStart(es: seq<Arrival>, start: real)
    ensures NoneSettled(es[..0]) && Heard(es[..0], start) == start
    ensures PromptText(es[..0]) == "" && StreamText(es[..0]) == ""
    ensures forall longest: real :: Attentive(es, start, 0, longest)
  {
    assert es[..0] == [];
  }

  /** The text `prompt` keeps after one more event that does not settle the turn. */
  method KeepText(e: Arrival, text: string) returns (kept: string)
    requires !e.kind.AgentSettled?
    ensures kept == if e.text != "" && e.kind != AgentEnd(true) then e.text else text
  {
    kept := text;
    if e.kind.AgentEnd? {
      if !e.kind.willRetry && e.text != "" {
        kept := e.text;
      }
    } else if e.text != "" {
      kept := e.text;
    }
  }

  /** The drain loop of `prompt`. It ends within the total budget, and on the death of the process at once. It settles
      with the event that settles it; it never sits through a silence of more than the stall budget, and reports one
      only after it, before the total budget is spent. A lively turn settles unless its process dies. */
  method DrainPrompt(b: Budgets, start: real, es: seq<Arrival>, death: Option<real>)
    returns (why: End, end: real, n: nat, text: string)
    requires Positive(b) && Ordered(es)
    ensures start <= end <= start + b.total
    ensures EndedBy(es, n, why)
    ensures text == PromptText(es[..n])
    ensures why.Settled? ==> end == Heard(es[..n], start)
    ensures why.Stalled? ==> end - Heard(es[..n], start) >= b.stall && (n < |es| ==> es[n].at > end)
    ensures why.Stalled? ==> end < start + b.total
    ensures why.TotalSpent? ==> end == start + b.total
    ensures why.Died? ==> death.Some? && end == Max(start, death.value)
    ensures death.Some? && !why.Died? ==> end < death.value
    ensures Attentive(es, start, n, b.stall) && end - Heard(es[..n], start) <= b.stall
    ensures Lively(b, es, start) ==> why.Settled? || why.Died?
  {
    hide Heard, PromptText, StreamText, NoneSettled, Lively, Wake, Attentive;
    var now, last := start, start;
    n, text := 0, "";
    DrainStart(es, start);
    while true
      invariant Draining(es, start, n, last, now, death) && text == PromptText(es[..n])
      invariant start <= now <= start + b.total && now - last <= b.stall && Attentive(es, start, n, b.stall)
      decreases |es| - n, ((start + b.total - now) / b.grain).Floor
    {
      LivelyFacts(b, es, start, n);
      var stallLeft := b.stall - (now - last);
      var totalLeft := b.total - (now - start);
      var budget := Min(b.grain, Min(stallLeft, totalLeft));
      if budget <= 0.0 {
        why := if totalLeft <= 0.0 then TotalSpent else Stalled;
        end := now;
        return;
      }
      var (woken, at) := Wake(now, budget, if n < |es| then Some(es[n].at) else None, death);
      if woken.ByDeath? {
        why, end := Died, at;
        return;
      }
      if woken.ByEvent? {
        HeardNext(es, n, start);
        TextNext(es, n);
        NextSettled(es, n);
        AttentiveNext(es, start, n, b.stall, at);
        now, last := at, at;
        if es[n].kind.AgentSettled? {
          why, end, n := Settled, now, n + 1;
          return;
        }
        text := KeepText(es[n], text);
        n := n + 1;
      } else {
        ghost var before := now;
        now := at;
        if now - last >= b.stall || now - start >= b.total {
          why := if now - start >= b.total then TotalSpent else Stalled;
          end := now;
          return;
        }
        FewerGrains(start + b.total - before, b.grain);
      }
    }
  }

  /** The drain loop of `stream_prompt`: a wait per heartbeat, the total budget checked after every wait, and silence
      counted in whole heartbeats, so that it may last one more than the stall budget. */
  method DrainStream(b: Budgets, start: real, es: seq<Arrival>, death: Option<real>)
    returns (why: End, end: real, n: nat, text: string)
    requires Positive(b) && Ordered(es)
    ensures start <= end < start + b.total + b.heartbeat
    ensures EndedBy(es, n, why)
    ensures text == StreamText(es[..n])
    ensures why.Settled? ==> end == Heard(es[..n], start)
    ensures why.Stalled? ==> end - Heard(es[..n], start) >= b.stall && (n < |es| ==> es[n].at > end)
    ensures why.TotalSpent? <==> end >= start + b.total
    ensures why.Died? ==> death.Some? && end == Max(start, death.value)
    ensures death.Some? ==> end <= Max(start, death.value)
    ensures death.Some? && (why.Settled? || why.Stalled?) ==> end < death.value
    ensures Attentive(es, start, n, b.stall + b.heartbeat) && end - Heard(es[..n], start) < b.stall + b.heartbeat
    ensures Lively(b, es, start) ==> why.Settled? || why.Died?
  {
    hide Heard, PromptText, StreamText, NoneSettled, Lively, Wake, Attentive;
    var now, silence := start, 0.0;
    ghost var last := start;
    n, text := 0, "";
    DrainStart(es, start);
    while true
      invariant Draining(es, start, n, last, now, death) && text == StreamText(es[..n])
      invariant start <= now < start + b.total && silence == now - last && silence < b.stall
      invariant Attentive(es, start, n, b.stall + b.heartbeat)
      decreases |es| - n, ((start + b.total - now) / b.heartbeat).Floor
    {
      LivelyFacts(b, es, start, n);
      var (woken, at) := Wake(now, b.heartbeat, if n < |es| then Some(es[n].at) else None, death);
      ghost var before := now;
      now := at;
      if now - start >= b.total {
        why, end := TotalSpent, now;
        return;
      }
      if woken.ByDeath? {
        why, end := Died, now;
        return;
      }
      if woken.ByEvent? {
        HeardNext(es, n, start);
        TextNext(es, n);
        NextSettled(es, n);
        AttentiveNext(es, start, n, b.stall + b.heartbeat, now);
        silence, last := 0.0, now;
        if es[n].kind.MessageUpdate? && es[n].text != "" {
          text := es[n].text;
        }
        if es[n].kind.AgentEnd? {
          if !es[n].kind.willRetry && es[n].text != "" {
            text := es[n].text;
          }
        } else if es[n].kind.AgentSettled? {
          why, end, n := Settled, now, n + 1;
          return;
        }
        n := n + 1;
      } else {
        silence := silence + b.heartbeat;
        if silence >= b.stall {
          why, end := Stalled, now;
          return;
        }
        FewerGrains(start + b.total - before, b.heartbeat);
      }
    }
  }
}
