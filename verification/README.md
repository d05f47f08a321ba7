# Verified models of the agent bridge and its gate scripts

Dafny models of the parts of the repository whose correctness depends on interleavings or on arguments over all
inputs. `dafny verify dfyconfig.toml` checks everything.

**The Pi turn protocol** (`app/agent_pi_bridge.py`). `TurnState` is a state machine over a pool of workers. Each
worker has a turn lock, a lease, an active-session marker, a current turn and a bound vendor session; the pool shares
the session-keyed table of turns in flight, the request registries, the vendor processes behind them and the
abort-source ledger. A step is the code between two awaits. A cancellation, a timeout, an exception, a lost writer and
a late shielded task are steps too, possible at every await. `TurnInvariant` and `VendorIsolation` prove what every
step keeps, `TurnTheorems` what follows for every run, `TurnWitness` gives runs that show where the promises stop.
Safety alone would be kept by a bridge that does nothing, so `TurnEffects` and `AbortEffects` say what steps and abort
calls bring about, in the fields of the world, and `TurnCourse` gives the run of a turn that nothing disturbs.
`PiBridge.dfy` holds the mutable bridge, lease, request registry and table. Its object invariant ties lease objects to
the turns of the protocol; under it the methods do what the protocol's steps do, and a whole turn is proved to leave
the bridge free whichever way it goes. `RendezvousCache` and `TurnCaches` treat the two rendezvous caches, their
eviction and their clearing, `AbortLedger` and `TurnLedger` the ledger, `Respawn` the backoff, `DrainBudget` the two
event drains.

**The debt ratchet** (`scripts/debt_ratchet.py`). `MaskLexer` defines the masking twice, with a stack and by recursive
descent, and proves the two equal; `MaskLoop` is the loop over the buffer; `MaskSyntax` says, without the lexer's
definitions, what is to be seen of a program written out from a syntax tree, and proves that the mask is that;
`MaskContainment` shows exactly when lexing errors stay before a line break. `DebtGate` is the gate and its guarantee
over a history of re-baselines.

**The statistical references** (`scripts/gen_science_oracles.py`). `MultipleTesting` ties the BH and Holm loops to
definitions without sorting and to the step-up and step-down procedures; `Geodetector` is the variance decomposition.

**Three smaller gates.** `VersionBounds` and `Requirements` (`scripts/check_dependency_bounds.py`), `AllocMigration`
(`scripts/alloc_migration.py`) and `Calibration` (`scripts/calibrate_cartography_thresholds.py`).

## Assumptions

- Code between two awaits is atomic. In the streaming path `asyncio.wait_for` either returns the lease or raises, as
  since Python 3.12, which `pyproject.toml` requires; so nothing can strike between the end of the acquisition and the
  publication of the turn.
- Turn ids, request ids and abort ids are fresh; callers reach a worker by `bridge_for_session`.
- A shielded unregister or abort may still run at any later time. A writer, a registration, a settlement and a vendor
  reset may each succeed, fail or be cancelled, with or without their effect having landed.
- The pipe to the vendor is first in, first out, and the vendor handles one command at a time. Writing is a separate
  step from issuing, because the request writes through an executor: cancelling the caller drops a job that has not
  started, but a job that is already running goes on and may reach the pipe later. While a write is outstanding only a
  cancellation or a failed write ends the await, and both abort.
- A `new_session` that is answered with success has cleared the vendor's transcript. The bridge does not look at the
  payload of the answer (`app/agent_pi_bridge.py:1484`); an answer that succeeds without a reset is not modelled.
- A process may be declared dead while it runs on, when its event queue overflows with terminal events
  (`app/services/chat/pi_rpc_client.py:511-519`).
- Timers are ideal in `DrainBudget`, and a clock reading is a real number.
- All arithmetic is exact, over integers and reals.

## Where the code and its documentation disagree

- `abort` says that it fails every pending future (`app/agent_pi_bridge.py:1784-1808`); the code fails only those
  pending at the snapshot (line 1893). The model follows the code.
- `_isolate_vendor_session` promises that a session never sees another one's transcript. An anonymous turn and a prompt
  whose turn gave up on it while it was being written both break this. `TranscriptsAreIsolated` says exactly when it
  holds; the two runs are in `TurnWitness`.
- A worker whose process was declared dead while it runs is not respawned before the process exits: `start()` returns
  at once for a running process (`app/services/chat/pi_rpc_client.py:262-263`), and the attempt counts as failed.
- The allocator promises to report numbers claimed by two segments; the branch that would do so is unreachable, because
  the owner is always the first segment that lists the number. Two files with the number are still reported, unless it
  is legacy.
- A comment in the checker says that numbers before the segment regime are checked for duplicates; the code skips them.
- `~=` is the compatible-release operator of PEP 440 only up to nine components, because comparison stops at eight.
- Clearing, ratchet and probes carry limits of their own, stated as lemmas: `PredecessorWipesSuccessor`,
  `SlackCompounds`, `V2PassIff`, `SilentGateMissesIff`, `ConvexSegmentIff`.

## Model

| member | source | states |
|---|---|---|
| TurnState.Route | app/agent_pi_bridge.py:3166-3176 | a session is always routed to one existing worker |
| TurnState.Affinity | app/agent_pi_bridge.py:3166-3176 | a session goes to the one worker its hash leaves over, shares it exactly with the sessions whose hash leaves over the same, and the anonymous session goes to worker 0 |
| TurnInvariant.StartInv | app/agent_pi_bridge.py:1435-1468 | an idle pool satisfies the invariant of the turn protocol |
| TurnInvariant.TurnStepGood | app/agent_pi_bridge.py:2036-2427 | every step of a turn, cancelled or not, keeps its worker well formed: lock owner, lease, marker and current turn agree, no release is refused, and an unregister runs only after the lease is gone and changes nothing on the worker |
| TurnInvariant.OuterGood | app/agent_pi_bridge.py:2416-2427 | the outer finally frees the lock of a turn that still owns its lease and changes nothing after the lease was released |
| TurnInvariant.CoreFrame | app/agent_pi_bridge.py:1166-1197 | a step of one turn leaves the lock, lease, marker and table facts of every other turn and worker intact |
| TurnInvariant.RequestFrame | app/agent_pi_bridge.py:2124-2126 | a pending request always belongs to the turn that is parked on it, on that turn's worker |
| TurnInvariant.AimIsOk | app/agent_pi_bridge.py:1814-1842 | what an abort call remembers before its RPC names only turns and requests of its own session |
| TurnInvariant.StepInv | app/agent_pi_bridge.py:1386-1528 | every step of every task keeps the invariant |
| TurnInvariant.RunInv | app/agent_pi_bridge.py:1386-1528 | every interleaving keeps the invariant |
| TurnTheorems.LeaseSafety | app/agent_pi_bridge.py:1389-1396 | INV-P1 and INV-P2 in every interleaving: at most one turn holds a worker, a lock is held exactly while some turn holds it, acquisitions equal releases plus the one in hand, and the refusing branch of the release is never reached |
| TurnTheorems.CancellationFreesLock | app/agent_pi_bridge.py:2416-2424 | INV-P3: wherever the holder is cancelled, a way out is open: at most three of its own steps, all possible, that leave the worker unlocked, without lease and without marker |
| TurnTheorems.EveryWayOutFrees | app/agent_pi_bridge.py:2416-2424 | INV-P4: every way out frees the lock: once a turn is in its finally, whatever the others do and however its own awaits end, its next two steps at most release the lock for ever, and until then one of them is always possible |
| TurnTheorems.MarkerAndEntryOwnership | app/agent_pi_bridge.py:2069-2083 | a set marker names the session of the worker's current turn, which owns the lease; a turn that owns the lease is the table entry of its session |
| TurnTheorems.LateCleanupIsHarmless | app/agent_pi_bridge.py:1530-1552 | whatever a turn still runs after it released its lease changes no worker field, no other turn and no entry of another turn |
| TurnTheorems.RunOnward | app/agent_pi_bridge.py:1136-1159 | sessions of turns and owners of requests never change, a finished turn stays finished, an abort call keeps what it remembered |
| TurnTheorems.AbortCancelsOnlyItsAim | app/agent_pi_bridge.py:1843-1874 | whatever happens during the abort RPC, the only token that can be ignited is that of a turn of the session registered before the RPC, and of the table entry if there was one |
| TurnTheorems.AbortFailsOnlyItsSession | app/agent_pi_bridge.py:1842-1893 | only futures pending at the snapshot can be failed, and none that another session's turn waits for |
| TurnTheorems.AbortBlamesItsSession | app/agent_pi_bridge.py:1875-1884 | a ledger write names a turn of the session, and exactly the snapshot turn when one was registered; and when one was, there is a write unless another session's turn is marked active by then |
| TurnTheorems.BlamesSuccessorIff | app/agent_pi_bridge.py:1878-1883 | an abort that blames a turn blames one that was not registered when the call was made exactly if the session was not in the table then |
| TurnTheorems.TranscriptsAreIsolated | app/agent_pi_bridge.py:1470-1486 | a prompt its turn still waited for when it was written finds only its own session (and anonymous prompts) on the transcript exactly if no abandoned prompt of another session was handled since the last answered reset; without anonymous turns, only its own session exactly then |
| TurnTheorems.RespawnWaitsForTurns | app/agent_pi_bridge.py:1697-1755 | a respawn can begin exactly when the process is gone and no turn holds the worker, so a draining turn can always observe the death and a dead worker that nobody holds can always be started |
| AbortEffects.AbortIsMade | app/agent_pi_bridge.py:1816-1843 | a call goes to the worker of the turn in the table, and is made in flight exactly if no other session's turn is marked active there; otherwise it asks nothing |
| AbortEffects.FailedAbortDoesNothing | app/agent_pi_bridge.py:1843 | a call whose own request fails gives it up and does nothing else |
| AbortEffects.AbortHitsItsAim | app/agent_pi_bridge.py:1828-1894 | a finishing call that finds another session marked changes nothing; otherwise it ignites the token of the turn that was in the table, or else of the then current turn, fails exactly the futures pending then, and unless it is a cleanup records its source for that turn of the table, or else for the present turn of the session |
| TurnEffects.PhasesOfATurn | app/agent_pi_bridge.py:2036-2427 | a turn gets into its finally by an unwinding only, drains only once its prompt was acknowledged, prompts only when prepared or after an acknowledged reset, and ends without a writer or through its outer finally |
| TurnEffects.UnwindingGoes | app/agent_pi_bridge.py:2338-2427 | a stream that was being registered goes to its outer finally, a turn that needs an abort awaits it, any other settles |
| TurnEffects.AwaitsEnd | app/agent_pi_bridge.py:2519-2555 | a heartbeat timeout retries and any other writer failure ends the turn, with the lock free; a cancelled waiter leaves no trace; a settlement that raises goes to the outer finally |
| TurnEffects.WhatMayStrike | app/agent_pi_bridge.py:2036-2427 | exactly when a waiting turn may be cancelled or get the lock, a turn may lose its writer, and a published one may unwind, for the death of its process or otherwise |
| TurnEffects.PromptLeadsToEvents | app/agent_pi_bridge.py:2126-2246 | an acknowledged prompt leads to the events of the turn and changes nothing else; from there the turn can be told of a death exactly if the process was declared dead |
| TurnEffects.RequestsOfATurn | app/agent_pi_bridge.py:2124-2126 | the first request is a reset exactly if another session is bound, else the turn's prompt in its own session's name, to which the worker is bound then |
| TurnEffects.TableOfATurn | app/agent_pi_bridge.py:1166-1197 | a turn enters the table when it is admitted and leaves it when it is unregistered, unless another turn of its session is there; no other step of a turn touches it |
| TurnEffects.LedgerOfATurn | app/agent_pi_bridge.py:1606-1617 | a lost writer is recorded as a policy stop, a settlement consumes the source of a turn with a session, and no other step of a turn touches the ledger |
| TurnEffects.TokensOfATurn | app/agent_pi_bridge.py:2314-2322 | only a turn that learns of the death of its process ignites a token, its own |
| TurnEffects.SettlingIsCurrent | app/agent_pi_bridge.py:2341-2392 | while it settles, a non-streaming turn is still the current turn of its worker |
| TurnEffects.DeathFailsAll | app/services/chat/pi_rpc_client.py:511-519 | the death of a process, or its declared death, fails every pending request; a start takes the declaration back |
| TurnCourse.UndisturbedTurn | app/agent_pi_bridge.py:2029-2427 | in every reachable world a new turn whose worker is free can go its whole course, given step by step: its prompt is delivered on its session's transcript, or on an empty one if the worker was bound elsewhere, and it ends with one acquisition, one release, a free worker bound to it, no table entry, its source consumed and nothing else changed |
| TurnWitness.SuccessorBlamed | app/agent_pi_bridge.py:1878-1883 | a run in which an abort made before any turn of the session blames the turn that starts meanwhile |
| TurnWitness.AnonymousLeaks | app/agent_pi_bridge.py:1478-1479 | a run without any abandoned prompt in which a session's prompt finds an anonymous one |
| TurnWitness.LateWriteLeaks | app/agent_pi_bridge.py:2124-2126 | a run without anonymous turns in which a cancelled turn's prompt, written and handled after the next session's reset was answered, is on that session's transcript |
| VendorIsolation.PromptVendor | app/agent_pi_bridge.py:1480-1486 | binding a worker and sending the prompt keeps isolation when the worker is unbound, bound to the session, or its reset was answered |
| VendorIsolation.TurnStepVendor | app/agent_pi_bridge.py:2124-2126 | every step of a turn keeps the worker's transcript and pipe free of other sessions |
| VendorIsolation.HandledCleared | app/agent_pi_bridge.py:1481-1486 | from the answer to a reset until the new prompt only abandoned prompts are on the transcript or on their way to it |
| VendorIsolation.HandledSeat | app/agent_pi_bridge.py:1481-1486 | what a parked turn relies on at the vendor survives every command the vendor handles |
| VendorIsolation.StepVendor | app/agent_pi_bridge.py:1470-1486 | every step of every task keeps the isolation invariant |
| VendorIsolation.RunVendor | app/agent_pi_bridge.py:1470-1486 | every interleaving keeps the isolation invariant |
| PiBridgeObjects.PiBridge.constructor | app/agent_pi_bridge.py:1435-1468 | a new bridge is valid and idle, with the initial backoff |
| PiBridgeObjects.PiBridge.IdentityIsOwnership | app/agent_pi_bridge.py:1516-1523 | under the object invariant the release's test on lease objects is the protocol's test on turn ids, and an issued lease is registered exactly while it is unreleased |
| PiBridgeObjects.PiBridge.Enter | app/agent_pi_bridge.py:1488-1504 | lock, writer and admission, with late cleanups of finished turns at both awaits: a fresh unreleased lease and the turn's table entry, or a free bridge without a writer |
| PiBridgeObjects.PiBridge.ReleaseTurnLease | app/agent_pi_bridge.py:1506-1528 | release is idempotent, is refused for a lease that is not the registered object, and for a lease of this bridge is the protocol's release |
| PiBridgeObjects.PiBridge.FinishSettle | app/agent_pi_bridge.py:2386-2393 | after the settle seam the lease is spent and the lock free before the unregister await, by the protocol's release, without a refusal |
| PiBridgeObjects.PiBridge.Settle | app/agent_pi_bridge.py:2341-2394 | the inner finally leaves a valid bridge; if the settlement ends, a free one, and the turn's entry is gone |
| PiBridgeObjects.PiBridge.OuterFinally | app/agent_pi_bridge.py:3097-3107 | the backstop is the protocol's; it frees an unreleased turn completely and, after the lease was released, changes nothing whatever turn has the worker by then |
| PiBridgeObjects.PiBridge.LateCleanups | app/agent_pi_bridge.py:2416-2427 | any number of outer finallies of finished turns, run at another turn's await, changes nothing |
| PiBridgeObjects.PiBridge.LeaveTurn | app/agent_pi_bridge.py:2416-2427 | the outer finally and its unregister leave the bridge free, the lease spent and no other turn's entry touched |
| PiBridgeObjects.PiBridge.WholeTurn | app/agent_pi_bridge.py:2029-2427 | a turn that goes any way, with late cleanups at every await, leaves the bridge valid and free with no release refused, its lease spent, its session without an entry, and the worker bound to it exactly if it got to send |
| PiBridgeObjects.PiBridge.IsolateVendorSession | app/agent_pi_bridge.py:1470-1486 | a reset is asked for exactly when another session is bound; without it the worker is bound at once, and an empty session binds nothing |
| PiBridgeObjects.PiBridge.UnregisterActiveTurn | app/agent_pi_bridge.py:1189-1197 | an entry of another turn is left alone; otherwise it goes, and the bridge forgets the turn if it is its current one |
| PiBridgeObjects.RpcClient.FailPendingIds | app/services/chat/pi_rpc_client.py:621-631 | exactly the given ids that are still pending are failed, and counted |
| PiBridgeObjects.PiBridge.AbortAim | app/agent_pi_bridge.py:1814-1842 | the call fixes, before its RPC, the entry, the token, and, unless another session is marked, the pending futures; it is the protocol's aim |
| PiBridgeObjects.PiBridge.AbortStrike | app/agent_pi_bridge.py:1843-1894 | after the RPC, unless another session is marked, the token remembered is ignited, the futures remembered fail, and the source is recorded for the entry remembered or else for the present turn of the session; it is the protocol's finishing abort |
| PiBridgeObjects.PiBridge.RespawnIfDead | app/agent_pi_bridge.py:1697-1755 | a start is attempted exactly on a dead bridge without marker and lock whose wait is over, which is where the protocol lets a respawn begin; the clock is stamped, success resets the counters, failure doubles the wait, and nothing else changes |
| Respawn.SpacedRun | app/agent_pi_bridge.py:1697-1755 | over any calls the last failed attempt of a streak is at least the sum of the earlier delays after the first |
| Respawn.KthFailureIsLate | app/agent_pi_bridge.py:1735-1755 | the k-th consecutive failed attempt comes at least the first k-1 delays after the first one, whatever deferred or cancelled calls lie between |
| Respawn.DelayTable | app/agent_pi_bridge.py:1745-1750 | the delays are 1, 2, 4, 8, 16 seconds, then 30 |
| AbortLedger.RunHealthy | app/agent_pi_bridge.py:1240-1266 | over any run the ledger stays within 64 entries with distinct turns and never stores a cleanup |
| AbortLedger.SurvivesAt | app/agent_pi_bridge.py:1249-1261 | an entry survives a run without its pop unless the entries behind it and the turns newly inserted reach 64, and holds the last terminal source |
| AbortLedger.RecordedUntilConsumed | app/agent_pi_bridge.py:1249-1266 | a newly recorded source stays until consumed unless 64 other turns are newly inserted after it |
| AbortLedger.EvictedBy64 | app/agent_pi_bridge.py:1260-1261 | 64 other fresh turns do push an entry out |
| AbortLedger.AbsentStays | app/agent_pi_bridge.py:1264-1266 | a turn that is not in the ledger has no source until one is recorded |
| AbortLedger.ConsumedOnce | app/agent_pi_bridge.py:1264-1266 | a source is consumed at most once |
| AbortLedger.TurnAbortSources.RecordTurnAbortSource | app/agent_pi_bridge.py:1249-1261 | recording is the ledger's record step; an empty turn id and a cleanup record nothing |
| AbortLedger.TurnAbortSources.PopTurnAbortSource | app/agent_pi_bridge.py:1264-1266 | popping returns the recorded source and removes it |
| RendezvousCache.EvictionSize | app/agent_pi_bridge.py:310-323 | an overfull cache loses exactly the lesser of its excess and its number of inactive entries |
| RendezvousCache.DropOldestCut | app/agent_pi_bridge.py:318-323 | the evicted entries are the inactive ones before a cut: every inactive entry that stays is newer, and order is kept |
| RendezvousCache.StepLookup | app/agent_pi_bridge.py:342-392 | one operation changes an entry as an unbounded table would, or evicts it while its session has no turn in flight |
| RendezvousCache.InFlightRefinesTable | app/agent_pi_bridge.py:286-327 | for a session in flight the bounded cache equals an unbounded table: entries leave only by a take of their key or a boundary of their session |
| RendezvousCache.ConsumedAtMostOnce | app/agent_pi_bridge.py:369-381 | a taken key stays empty until it is cached again |
| RendezvousCache.OtherSessionsKeepOut | app/agent_pi_bridge.py:300-307 | operations of other sessions never touch an entry of a session in flight |
| RendezvousCache.PlanTakenIsComplete | app/agent_pi_bridge.py:352-366 | what a session in flight takes is the ordered concatenation of the fragments since the last removal |
| RendezvousCache.Caches.EvictProtectActive | app/agent_pi_bridge.py:310-323 | the popping loop ends with exactly the evicted cache |
| RendezvousCache.Caches.CacheEntry | app/agent_pi_bridge.py:342-361 | caching stores, or merges with what is there, and then evicts |
| RendezvousCache.Caches.TakeEntry | app/agent_pi_bridge.py:364-381 | taking returns the entry of exactly this session and call and removes it |
| RendezvousCache.Caches.PopSessionEntries | app/agent_pi_bridge.py:300-307 | a boundary removes the entries of its session and no other |
| TurnCaches.LeasedIsInFlight | app/agent_pi_bridge.py:286-295 | throughout a run in which a turn owns its lease, its session is among those eviction protects |
| TurnCaches.LeasedEntriesSurvive | app/agent_pi_bridge.py:310-327 | while a turn owns its lease, whatever other sessions cache, an entry of its session leaves only by a take of its key or a clearing of its session |
| TurnCaches.BoundariesClear | app/agent_pi_bridge.py:384-405 | a turn is admitted to an empty cache of its session, and leaves it empty when it enters its settlement and at the end of its outer finally; no other step of a turn clears anything |
| TurnCaches.OnlyOwnSettleOrPredecessorClears | app/agent_pi_bridge.py:394-408 | while a turn owns its lease, its session is cleared only by its own inner finally or by the outer finally of a finished turn of the session |
| TurnCaches.PredecessorWipesSuccessor | app/agent_pi_bridge.py:2416-2427 | a run of two turns of a session in which the first one's outer finally ends after the second was admitted and wipes what the second has cached |
| TurnLedger.LedgerOfRun | app/agent_pi_bridge.py:1240-1266 | the ledger of a run is that of its records and consumptions: lost writers, finishing aborts and settlements |
| TurnLedger.LedgerIsHealthy | app/agent_pi_bridge.py:1240-1266 | in every reachable world the ledger holds at most 64 distinct turns and only terminal sources |
| TurnLedger.AbortReachesSettlement | app/agent_pi_bridge.py:1606-1617 | unless 64 other turns come in behind it, the turn an abort blames settles with the latest source recorded for it since, the abort's if there is none, and consumes it |
| DrainBudget.Wake | app/agent_pi_bridge.py:2189-2215 | a wait ends at the first of the next event, the death and its own deadline, and neither of the others has come before |
| DrainBudget.TextsAgreeIff | app/agent_pi_bridge.py:2216-2246 | the two drains keep the same text exactly if the last event with text is one both of them read, or the last event before it that both read carries the same text |
| DrainBudget.SameFinalText | app/agent_pi_bridge.py:2216-2246 | so they do when no other event carries any text |
| DrainBudget.OtherTextDiffers | app/agent_pi_bridge.py:2226-2229 | but not on a single tool event with text |
| DrainBudget.LivelyNext | app/agent_pi_bridge.py:2169-2190 | as long as a lively turn has not settled its next event is within both budgets |
| DrainBudget.DrainPrompt | app/agent_pi_bridge.py:2169-2246 | the drain ends by start plus the total budget and on a death at once, settles only with `agent_settled`, never sits through more than the stall budget of silence and reports a stall only after it; a turn with shorter gaps that settles in time never times out |
| DrainBudget.DrainStream | app/agent_pi_bridge.py:2717-2890 | the same for the streaming drain, which may end up to one heartbeat later and sits through at most one heartbeat more |
| MaskLexer.Next | scripts/debt_ratchet.py:144-244 | every step makes progress and keeps the stack alternating template and interpolation, with positive depths and a quoted string only on top |
| MaskLexer.ScanIsLex | scripts/debt_ratchet.py:144-244 | reading with a stack equals reading the open construct by recursive descent and then what is below it |
| MaskLexer.MaskIsLex | scripts/debt_ratchet.py:144-244 | the masked text is the one of the recursive classifier |
| MaskLoop.MaskSpan | scripts/debt_ratchet.py:137-141 | blanks exactly the span, newlines excepted |
| MaskLoop.FindRegexStart | scripts/debt_ratchet.py:124-134 | the backwards scan decides the look-behind heuristic |
| MaskLoop.FindRegexClose | scripts/debt_ratchet.py:176-204 | the forward scan finds the unescaped closing slash of the same line outside a class, if there is one |
| MaskLoop.LexOne | scripts/debt_ratchet.py:162-243 | one turn of the loop moves, blanks and changes the stack as the lexical step says |
| MaskLoop.MaskTsNoncode | scripts/debt_ratchet.py:144-244 | the index loop over the buffer and the stack computes the classifier's mask, and terminates |
| MaskLoop.MaskPreserves | scripts/debt_ratchet.py:147-149 | same length, newlines in place, and a character changes only to a space |
| MaskLoop.LinesAgree | scripts/debt_ratchet.py:271-272 | an offset of the masked text is on the line of the original |
| MaskSyntax.MaskOfProgram | scripts/debt_ratchet.py:144-244 | the mask of a program written out from a syntax tree blanks exactly its comments, the contents of its strings and templates outside interpolations, and its regular expressions, with nesting, escapes, classes, divisions and lone slashes, complete or broken off |
| MaskSyntax.LiteralIsBlank | scripts/debt_ratchet.py:206-242 | a string or template with nothing special in it keeps its quotes and everything in it goes blank |
| MaskSyntax.RegexStartIff | scripts/debt_ratchet.py:119-134 | a slash may begin a regular expression exactly if, blanks apart, nothing stands before it, or one of the listed characters, or one of the listed words on its own |
| MaskContainment.LineStartsAreClean | scripts/debt_ratchet.py:213-219 | without backtick, block comment and backslash-newline the lexer stands at every line start with an empty stack |
| MaskContainment.MaskSplits | scripts/debt_ratchet.py:213-219 | the mask of such a text splits at every newline |
| MaskContainment.EditStaysOnItsLine | scripts/debt_ratchet.py:213-219 | editing one line, even by unbalancing quotes, changes the mask of no other line |
| MaskContainment.LeaksWithout | scripts/debt_ratchet.py:165-175 | each of the three conditions is needed |
| MaskContainment.SplitsIff | scripts/debt_ratchet.py:144-244 | the mask splits behind a text for every continuation exactly if the lexer, run over the text, stands at the start of the next line with an empty stack and no block comment open |
| DebtGate.CountByPath | scripts/debt_ratchet.py:275-279 | no item is lost or counted twice: counts per path are the occurrences and sum to the number of items |
| DebtGate.TotalOf | scripts/debt_ratchet.py:549-560 | summing in any order gives the total |
| DebtGate.PathwiseBoundsTotal | scripts/debt_ratchet.py:560-570 | path-wise passing implies the total check |
| DebtGate.CheckRule | scripts/debt_ratchet.py:541-570 | one rule reports exactly its missing key, its paths over the baseline and its total over the baseline |
| DebtGate.CheckScalars | scripts/debt_ratchet.py:572-597 | the percentage and the dict count are reported exactly when over, or missing from a new-format baseline |
| DebtGate.CheckGods | scripts/debt_ratchet.py:599-609 | a god module is reported exactly if it is new or grew by more than 50 lines |
| DebtGate.GateFailures | scripts/debt_ratchet.py:533-610 | the loops report exactly the failures, each rule's, both scalars' and the god modules' |
| DebtGate.PassIff | scripts/debt_ratchet.py:533-610 | the gate is silent, for a baseline of either format, exactly if no demanded key is missing, every rule is within its total or its path counts, both scalars are, and god modules are known and grew by at most 50 |
| DebtGate.PassIsAtMost | scripts/debt_ratchet.py:533-610 | a measurement passes a written baseline exactly if every count, total and scalar is at most it and god modules grew by at most 50 |
| DebtGate.RatchetOnlyTightens | scripts/debt_ratchet.py:533-610 | after k re-baselines every count, total and scalar is at most the first one, no god module is new, and each grew by at most 50k |
| DebtGate.SlackCompounds | scripts/debt_ratchet.py:607-609 | growing by 50 lines with every re-baseline passes for ever |
| DebtGate.V2PassImpliesV1Pass | scripts/debt_ratchet.py:520-522 | passing per path implies passing the summed scalar baseline |
| DebtGate.V2PassIff | scripts/debt_ratchet.py:541-597 | a measurement that passes the totals passes the baseline exactly if no key is missing and no path is over its own count |
| DebtGate.V1PassHidesMoves | scripts/debt_ratchet.py:552-559 | under any rule a unit of debt may move from any path to any other: the summed gate passes, the gate does not |
| MultipleTesting.ArgSort | scripts/gen_science_oracles.py:586 | the order lists every index, by value, ties by index |
| MultipleTesting.BHAtRank | scripts/gen_science_oracles.py:589-593 | the running minimum at a rank, clipped, is the minimum over values not below it of p n / #{p' <= p}, a definition without sorting |
| MultipleTesting.HolmAtRank | scripts/gen_science_oracles.py:607-611 | the running maximum at a rank is the maximum over values not above it of p (n - #{p' < p}) |
| MultipleTesting.StepMinIsLeast | scripts/gen_science_oracles.py:588-593 | the running minimum is min(1, min over ranks s >= r of p(s) n / s) |
| MultipleTesting.StepMaxIsGreatest | scripts/gen_science_oracles.py:606-611 | the running maximum is max(0, max over ranks s <= r of p(s) (n - s + 1)) |
| MultipleTesting.OneStaysOne | scripts/gen_science_oracles.py:595 | values of at least 1 adjust to 1, so the override of missing entries changes nothing |
| MultipleTesting.BHReference | scripts/gen_science_oracles.py:580-596 | for p-values and missing entries, which count as 1, sort, running minimum, scatter, clip and override give each entry its order-free BH value; missing entries get 1 |
| MultipleTesting.HolmReference | scripts/gen_science_oracles.py:599-612 | for p-values and missing entries, which count as 1, sort, running maximum, scatter and clip give each entry its order-free Holm value; missing entries get 1 without an override |
| MultipleTesting.BHIsStepUp | scripts/gen_science_oracles.py:580-596 | for levels below 1 the entries adjusted to at most the level are exactly those the Benjamini-Hochberg step-up rejects |
| MultipleTesting.BHAtLevelOne | scripts/gen_science_oracles.py:594 | from level 1 on every adjusted value is at most the level, and the step-up rejects everything exactly if the largest value is at most the level |
| MultipleTesting.BHIsStepUpIff | scripts/gen_science_oracles.py:580-596 | at a level of at least 0 adjusted values and step-up reject the same exactly if the level is below 1 or no value exceeds it |
| MultipleTesting.BHIsStepUpForPValues | scripts/gen_science_oracles.py:580-596 | for values up to 1, as p-values are, adjusted values and step-up reject the same at every level |
| MultipleTesting.HolmIsStepDown | scripts/gen_science_oracles.py:599-612 | for levels below 1 they are exactly those Holm's step-down rejects |
| MultipleTesting.BonferroniRejects | scripts/gen_science_oracles.py:987-992 | Bonferroni rejects exactly the values up to the level divided by their number |
| MultipleTesting.BHBelowHolm | scripts/gen_science_oracles.py:987-992 | BH never exceeds Holm |
| MultipleTesting.HolmBelowBonferroni | scripts/gen_science_oracles.py:987-992 | Holm never exceeds Bonferroni |
| MultipleTesting.AdjustingCommutes | scripts/gen_science_oracles.py:580-612 | adjusting commutes with every permutation of the hypotheses |
| Geodetector.Steiner | scripts/gen_science_oracles.py:1226 | moving the centre off the mean costs n times the squared distance |
| Geodetector.Regroup | scripts/gen_science_oracles.py:1181-1183 | sums taken stratum by stratum equal sums taken value by value, for any centres |
| Geodetector.Decomposition | scripts/gen_science_oracles.py:1175-1184 | the total sum of squares is the within plus the between sum |
| Geodetector.QReference | scripts/gen_science_oracles.py:1175-1184 | the result is the share between the strata, already in [0, 1], and 0 without variance: the clip never acts |
| Geodetector.WithinReference | scripts/gen_science_oracles.py:1221-1226 | the second loop computes the same within sum |
| Geodetector.OwnMeanIsBest | scripts/gen_science_oracles.py:1226 | no other centres give a smaller within sum |
| Geodetector.SplittingNeverLowers | scripts/gen_science_oracles.py:1175-1184 | splitting strata never lowers the statistic |
| Geodetector.PerfectStrata | scripts/gen_science_oracles.py:1187 | the statistic is 1 exactly when every stratum is constant |
| VersionBounds.TotalPreorder | scripts/check_dependency_bounds.py:34-41 | padded comparison is a total preorder |
| VersionBounds.CmpZero | scripts/check_dependency_bounds.py:34-41 | versions compare equal exactly when their first eight padded components agree |
| VersionBounds.RaisingMovesUp | scripts/check_dependency_bounds.py:34-41 | raising a compared component gives a larger version, whatever comes behind it |
| VersionBounds.OperatorsCutTheOrder | scripts/check_dependency_bounds.py:62-84 | the operators cut the order at the reference: exactly one of below, at and above it, each reference admits itself under `>=`, `<=` and `==`, and `==` is their meeting for short versions |
| VersionBounds.AdmitsLoop | scripts/check_dependency_bounds.py:88-97 | the loop admits exactly what every segment admits |
| VersionBounds.UnreadableRefuses | scripts/check_dependency_bounds.py:90-96 | one segment that cannot be read refuses every version |
| VersionBounds.CompatibleIsInterval | scripts/check_dependency_bounds.py:49-61 | up to nine components `~=` admits exactly the half-open interval from the reference to the bumped reference (PEP 440, Compatible release) |
| VersionBounds.CompatibleBeyondNine | scripts/check_dependency_bounds.py:49-61 | from ten components on the interval is empty and the reference itself is admitted |
| VersionBounds.SegmentStrictlyConvex | scripts/check_dependency_bounds.py:44-84 | a segment other than `!=` leaves no gap above its least admitted version, of any length |
| VersionBounds.StrictlyConvex | scripts/check_dependency_bounds.py:88-97 | neither does a specifier |
| VersionBounds.ConvexSegmentIff | scripts/check_dependency_bounds.py:44-84 | a readable segment other than `!=` is convex exactly if it is an order operator or a compatible release of at most nine components; `==` never is |
| VersionBounds.Convex | scripts/check_dependency_bounds.py:88-97 | specifiers are convex for versions of any length, with at most nine components under `~=` and at most eight under `==` |
| VersionBounds.NinthComponentBreaksConvexity | scripts/check_dependency_bounds.py:80-82 | for instance, a ninth component breaks convexity under `==` |
| VersionBounds.Probe | scripts/check_dependency_bounds.py:199-208 | the probe loop reports exactly the listed packages whose specifier admits one of the two probes |
| VersionBounds.CheckDrift | scripts/check_dependency_bounds.py:220-223 | exactly the pins their specifier refuses |
| VersionBounds.CheckRequired | scripts/check_dependency_bounds.py:210-218 | exactly the required packages that are missing, and greenlet if nothing declares or pins it |
| VersionBounds.CheckPhantoms | scripts/check_dependency_bounds.py:225-233 | exactly the names declared for the metadata only |
| VersionBounds.Check | scripts/check_dependency_bounds.py:178-235 | the gate reports exactly these errors |
| VersionBounds.SilentIff | scripts/check_dependency_bounds.py:178-235 | the gate is silent exactly if geopandas is declared, greenlet declared or pinned, nothing declared for the metadata only, every pin meets its requirement, and both sources refuse the first unsafe and the breaking versions of pandas and SQLAlchemy |
| VersionBounds.FirstProbeDecides | scripts/check_dependency_bounds.py:199-208 | if a specifier without `!=` admits something below the first unsafe version, the first probe alone decides whether it admits any unsafe version |
| VersionBounds.SecondProbeAddsNothing | scripts/check_dependency_bounds.py:204 | then the second probe adds nothing |
| VersionBounds.TwoProbesAreEnough | scripts/check_dependency_bounds.py:199-223 | if nothing is reported and the pin is below the first unsafe version, the requirement admits no version from there on, of any length |
| VersionBounds.MissesIffNothingSafe | scripts/check_dependency_bounds.py:199-208 | a specifier without `!=` that refuses the first unsafe version admits an unsafe one exactly if it admits anything and nothing safe |
| VersionBounds.TriedIsAdmitted | scripts/check_dependency_bounds.py:88-97 | below any version a specifier without `!=` admits, it admits zero or the floor of one of its segments |
| VersionBounds.SatisfiableIff | scripts/check_dependency_bounds.py:88-97 | so it admits anything exactly if it admits one of those, which a finite test of its text decides |
| VersionBounds.MissesIffFloor | scripts/check_dependency_bounds.py:199-208 | in terms of its text: exactly if it can be satisfied and has a floor at or above the line |
| VersionBounds.SilentGateMissesIff | scripts/check_dependency_bounds.py:178-235 | a silent gate misses an unsafe version of a listed package exactly if its specifier can be satisfied and has a floor at or above the first unsafe version |
| VersionBounds.ProbesMissHighFloors | scripts/check_dependency_bounds.py:204 | every floor above the second probe slips through both, for every listed package |
| VersionBounds.HighFloorExample | scripts/check_dependency_bounds.py:204 | for instance `>=3.1` for pandas |
| Requirements.ReadsLeastClosure | scripts/check_dependency_bounds.py:110-131 | every file is read at most once, cyclic includes or not, and the files read are the least set closed under includes |
| Requirements.FailsWhenOneIsMissing | scripts/check_dependency_bounds.py:116 | reading fails exactly when a file that can be reached is missing |
| Requirements.FileDeclares | scripts/check_dependency_bounds.py:136-141 | exactly the declarations of the files read are collected |
| Requirements.DeclaredNames | scripts/check_dependency_bounds.py:110-141 | the names kept are exactly those some line of the files read declares |
| Requirements.LastWinsAppend | scripts/check_dependency_bounds.py:129-130 | updating by an included file's result equals reading its lines in place |
| Requirements.LaterLinesWin | scripts/check_dependency_bounds.py:110-141 | lines are read in order: later ones with the files seen so far, and their declarations win |
| Requirements.LastWinsIsLast | scripts/check_dependency_bounds.py:129-141 | the last declaration of a name wins |
| Requirements.Parser.Parse | scripts/check_dependency_bounds.py:110-141 | the recursive parser with its shared set of seen files terminates and returns the last declarations in reading order, for exactly the names the files read declare |
| AllocMigration.MinSegment | scripts/alloc_migration.py:179-182 | the least number of all segments, so that exactly the numbers below every segment count as before the regime |
| AllocMigration.Judge | scripts/alloc_migration.py:116-151 | a number is granted exactly if it is unreserved, not legacy, first listed by this branch's segment and carried by no file |
| AllocMigration.Ledger.Alloc | scripts/alloc_migration.py:116-151 | a granted number is reserved with the branch, revision and predecessor given and no other reservation changes; any refusal changes nothing |
| AllocMigration.GroupRevisions | scripts/alloc_migration.py:165-175 | unparsable and undeclared files are reported, and every other file is counted under its revision |
| AllocMigration.Duplicates | scripts/alloc_migration.py:176-178 | exactly the revisions declared more than once |
| AllocMigration.ChargePrefixes | scripts/alloc_migration.py:183-200 | every prefix in the regime is charged to its first segment or reported, unless it is legacy |
| AllocMigration.CheckCharges | scripts/alloc_migration.py:201-208 | exactly the doubled prefixes are reported, and the cross-segment branch is unreachable |
| AllocMigration.CheckReservations | scripts/alloc_migration.py:210-217 | exactly the reservations whose first file carries another revision |
| AllocMigration.Check | scripts/alloc_migration.py:157-227 | the checker, apart from the heads, reports exactly these failures |
| AllocMigration.GreenIff | scripts/alloc_migration.py:157-218 | the check, apart from the heads, is green exactly if every file declares a revision of its own, numbers of the regime are listed or legacy, no two files share a listed number that is not legacy, and reserved numbers are first carried with the reserved revision |
| AllocMigration.StepDoes | scripts/alloc_migration.py:116-151 | a claim reserves a free number for the branch of the first segment that lists it, a landing adds the file of a reserved number, a merge a file without one |
| AllocMigration.LandsGreenIff | scripts/alloc_migration.py:157-218 | the file of a claimed number lands green exactly if its revision is not empty and no file declares it yet |
| AllocMigration.RunStaysGreen | scripts/alloc_migration.py:116-218 | every interleaving of claims, landings and merge files with fresh revisions keeps the check green |
| AllocMigration.GreenFromTheStart | scripts/alloc_migration.py:116-218 | in particular from any green tree in which nothing has been claimed |
| Calibration.PercentileMonotone | scripts/calibrate_cartography_thresholds.py:151-158 | the percentile grows with the quantile and stays within the samples |
| Calibration.PercentileAtSample | scripts/calibrate_cartography_thresholds.py:151-158 | the percentile passes through the samples |
| Calibration.MedianIsMiddle | scripts/calibrate_cartography_thresholds.py:181 | the reported median is the middle observation or the mean of the two middle ones, before rounding |
| Calibration.MedianReported | scripts/calibrate_cartography_thresholds.py:181 | the reported median is the rounded middle observation or the rounded mean of the two middle ones |
| Calibration.ThresholdsAreSamples | scripts/calibrate_cartography_thresholds.py:46-85 | of 100 k + 1 observations in order the thresholds are those at the metric's percentages |
| Calibration.DigitsPrinted | scripts/calibrate_cartography_thresholds.py:46-85 | the printed digits, the whole-number metric and the metrics where low is bad |
| Calibration.HalfEvenNearest | scripts/calibrate_cartography_thresholds.py:161-164 | rounding goes to the nearest, ties to even |
| Calibration.RoundMonotone | scripts/calibrate_cartography_thresholds.py:161-164 | rounding to the printed digits keeps order |
| Calibration.RoundIsNear | scripts/calibrate_cartography_thresholds.py:161-164 | rounding gives a number with the printed digits at most half a unit of the last one away |
| Calibration.SortedIsSorted | scripts/calibrate_cartography_thresholds.py:174 | sorting keeps the observations |
| Calibration.Calibrate | scripts/calibrate_cartography_thresholds.py:167-190 | one report for every metric, as the specification of a single report says |
| Calibration.ThresholdsOrdered | scripts/calibrate_cartography_thresholds.py:46-85 | the suggested warning never exceeds the failure threshold where high is bad, and the other way round where low is bad |
| Calibration.ReportWithinObservations | scripts/calibrate_cartography_thresholds.py:167-190 | thresholds and median lie within the rounded observations, and the extremes reported are theirs |
| Calibration.FindsTopmost | scripts/calibrate_cartography_thresholds.py:115-130 | exactly the topmost reviews at depth six or less are found |
| Calibration.ReviewsHaveChecks | scripts/calibrate_cartography_thresholds.py:115-130 | a review is an object with a nonempty list of checks, nothing less |

## Left out

- TurnTheorems.TranscriptsAreIsolated: is about prompts their turn still waited for; what an abandoned prompt finds when
  it is written late is not bounded, because nothing in the code bounds it.
- TurnTheorems.EveryWayOutFrees: counts the turn's own steps; that a scheduler takes them is not modelled.
- AllocMigration.RunStaysGreen: leaves the head query out, and assumes one prefix number for one four-digit string.
- VersionBounds.Check: takes specifiers as parsed segments; what counts as a version or a name is decided by regular
  expressions that are not part of this model, and nothing is proved about `!=`.
- Requirements.Parser.Parse: starts from logical lines with resolved include paths; comments, continuation lines, extras
  and environment markers are cut before.
- MaskSyntax.MaskOfProgram: a slash that begins a regular expression behind a brace or a keyword is covered by
  `RegexStartIff` only, and an unbalanced closing brace at the top level by neither.
- MaskLoop.LexOne: stops at the end of the text where the source lets its index run one past a trailing backslash; the
  loop ends either way.
- DebtGate.GateFailures: says which failures are reported, not in which order or with which located lines.
- Geodetector.QReference: requires at least one value; the source yields a NaN for none.
- MultipleTesting.BHReference: leaves floating-point rounding out, as do all members over reals.
- Calibration.Calibrate: the observations are finite numbers already collected from the reviews.
- RendezvousCache.Caches.EvictProtectActive: the sessions in flight are a parameter; `TurnCaches` supplies the table. A
  legacy single-turn context, which the source protects as well, is not modelled.
- `abort(session_id=None)`, the single-slot form without a session guard.
- The Redis registry, writer-lease internals, the subprocess and JSON-RPC transport: success, failure or cancelled.
- Tool gates, disclosure, plan, tracker, trajectory recording, server-sent event formatting: they touch neither lock nor
  registry nor caches.
- PiBridgeObjects.PiBridge.WholeTurn: composes one turn with late cleanups at its awaits; all other interleavings are
  the protocol's.
- The contents of the event queue, and clearing it at the start of a turn.
- Cancelling a turn's token from the watchdogs; only abort calls and a dead process ignite tokens here.
- The executed-set cache: it is evicted and cleared as the two rendezvous caches are.
- File walking, syntax-tree walking, TOML and JSON decoding, and the rest of the oracle generator.
- Lexer idempotence: it does not hold, because a blanked comment changes the look-behind of a later slash.
