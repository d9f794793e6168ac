# Admission, ownership, storage and delivery protocols of free-claude-code

A Dafny model of the stateful protocols of the proxy, and proofs of what they promise over every run.

| part | files | what it models |
|---|---|---|
| provider admission | `RateWindow`, `AdmissionCore`, `AdmissionMachine`, `AdmissionProtocol`, `AdmissionBooks`, `AdmissionRuns`, `AdmissionProgress`, `AdmissionEffects`, `AdmissionWakeups`, `AdmissionController` | many executions sharing a sliding window, a semaphore and one recovery episode with a leader, half-open probes, waiters, generations and a terminal cool-down |
| voice ownership | `VoiceRegistry`, `VoiceMachine`, `VoiceEffects`, `VoiceWaits`, `VoiceObjects` | entries under two keys, the race of completion, discard and cancel, and the protection that keeps cancellations from waiting in a circle |
| session store | `SessionRows`, `SessionHistory`, `SessionTheorems`, `SessionAcceptance`, `SessionStore`, `KeyOrder`, `Paging`, `SessionPages` | tables as maps, transactions, status graphs, revisions, receipts, tombstones, crash restart, keyset pages |
| candidate fallback | `CandidateStream`, `CandidateScript` | the loop over provider candidates with its progress deadline |
| early retry | `StreamRecovery` | the holdback buffer and the failure decision |
| messaging queue | `MessagingQueue`, `MessagingLimiter` | a compacting work queue with futures, its worker and its shutdown |
| session events | `SessionEvents` | bounded fan-out with overflow signals |
| tool names | `ToolNames` | reversible aliases |

`Options` and `Ordering` are small helpers.

Each protocol that interleaves is a state machine whose labelled steps are the await-free stretches of the code: a
body under the lock, or what runs between two awaits. `Run` and `Play` follow any list of steps, so a lemma about
them is about every interleaving, cancellations included. The classes hold the fields the code updates in place;
their methods are proved equal to the functions the machines are made of, loop by loop. What those functions do is in
turn stated without them, in the `Effects`, `Acceptance` and `Script` files: who leads and who waits after each step,
exactly which calls the store accepts, and which event follows which.

Conventions and assumptions:

- The clock never goes back, and a sleep lasts at least as long as asked. Times are `real` or `int`; rounding is not
  modelled. A locked body reads the clock once.
- One task drives an execution at a time, and the operations of one attempt follow each other. Two tasks at the gate
  for the same execution could move `ready_at` under each other; the code has no such caller.
- Wake-ups may be spurious in the machine; `AdmissionWakeups` adds who was notified, and none is lost. Every lock
  acquisition may be cancelled, so a clean-up that is itself cancelled is a step of its own.
- Ids made by `uuid4`, and the futures an enqueue makes, are new.
- What providers, consumers, timers and callbacks do is a script or a step label, and every such script is allowed.

Results that differ from a first reading of the code's own words:

- `rate_limit.py` promises at most `rate_limit` acquisitions "in any interval" of the window's length. That holds for
  half-open intervals. A closed one of exactly that length can hold up to twice as many; `ClosedIntervalsBoundedIff`
  and `ClosedBoundBreaksAtCutoff` say exactly when.
- A leader that returns to the gate gets the next probe, unless its last one was lost: when the clean-up of a
  cancelled admission is itself cancelled before it has the lock (admission.py:517-523), `probe_active` stays set
  with no holder, and from then on nothing starts an attempt or ends the episode (`LostProbeStallsForEver`). That is
  the only way (`OnlyLosingTheProbeWedges`), and without it re-entry is enough (`ReentryIsEnough`). It takes a
  clean-up that has to wait for the lock. No body in the file holds the lock over an await, and asyncio grants a free
  lock without suspending, so with today's asyncio the second cancellation finds no place to strike; that is a fact
  about asyncio, which is not part of this model.
- `discard` protects nobody. Waiting between handoffs can close into a circle through it, exactly under the condition
  of `DiscardClosesACircleIff` and `SelectionClosesACircleIff`; cancellations alone never do (`WaitsAreAcyclic`). A
  caller is safe that is in no handoff, discards its own claim, or one whose handoff is not published
  (`WaitingCirclesIff`). The repository's one caller meets this: messaging/platforms/voice_flow.py:341-351 discards
  the flow's own claim, in a clean-up task (voice_flow.py:308-339) of the flow that waits for the handoff from outside.
  No path in the repository reaches a circle.
- A decision to retry early that is then passed to `flush_uncommitted` commits the new, empty buffer; the output
  theorem covers that too.

## Model

| member | source | states |
|---|---|---|
| `RateWindow.PassKeepsWindow` | src/free_claude_code/core/rate_limit.py:43-65 | one pass keeps: record i+limit is at least a window after record i, and what is remembered is the tail that still counts; only an admission adds a record, a refusal adds none |
| `RateWindow.HalfOpenBound` | src/free_claude_code/core/rate_limit.py:9-14 | every half-open interval of the window's length holds at most `rate_limit` recorded admissions |
| `RateWindow.ClosedBound` | src/free_claude_code/core/rate_limit.py:9-14 | a closed interval of exactly that length holds at most twice the limit |
| `RateWindow.ClosedBoundIsReached` | src/free_claude_code/core/rate_limit.py:46-55 | a run of passes that puts twice the limit into a closed interval: the docstring's "any interval" is true of half-open ones only |
| `RateWindow.ClosedIntervalsBoundedIff` | src/free_claude_code/core/rate_limit.py:46-55 | closed intervals are bounded by the limit if and only if no record is made exactly one window after the record `limit` places before it |
| `RateWindow.ClosedBoundBreaksAtCutoff` | src/free_claude_code/core/rate_limit.py:48-54 | the same for the next admission: it breaks the closed bound if and only if the record `limit` places before it lies exactly one window before the new record |
| `RateWindow.WaitIsExact` | src/free_claude_code/core/rate_limit.py:57-65 | a full window names a positive wait, after which a pass finds room, and before which it does not |
| `RateWindow.PassAdmitsIff` | src/free_claude_code/core/rate_limit.py:43-58 | a pass has room if and only if the record `limit` places back in the whole history is at least a window old; with room it admits exactly what is allowed, without room it waits |
| `RateWindow.StrictSlidingWindowLimiter.Make` | src/free_claude_code/core/rate_limit.py:21-30 | a limit or window that is not positive is refused |
| `RateWindow.StrictSlidingWindowLimiter.Forget` | src/free_claude_code/core/rate_limit.py:48-49 | the pop loop leaves exactly the times after the cutoff |
| `RateWindow.StrictSlidingWindowLimiter.TryAcquirePass` | src/free_claude_code/core/rate_limit.py:45-58 | one locked pass on the object keeps the window invariant over its whole history and does what the specification of a pass says |
| `AdmissionProtocol.StepKeepsProtocol` | src/free_claude_code/providers/admission.py:468-628 | every step of every task, cancellations included, keeps the episode invariant: leader, probe, waiters, pending abandonments |
| `AdmissionBooks.StepKeepsSlots` | src/free_claude_code/providers/admission.py:483-523 | every step keeps the account of semaphore slots |
| `AdmissionBooks.StepKeepsBudgets` | src/free_claude_code/providers/admission.py:194-226 | every step keeps the account of claims, ordinals and verdicts of every execution |
| `AdmissionBooks.StepKeepsRecords` | src/free_claude_code/providers/admission.py:488-501 | every step keeps each claim tied to an earlier admission record of its own |
| `AdmissionBooks.StepKeepsLimiter` | src/free_claude_code/core/rate_limit.py:43-65 | every step of the whole protocol keeps the window invariant of the shared limiter |
| `AdmissionRuns.OneProbeHolder` | src/free_claude_code/providers/admission.py:525-628 | in every reachable state at most one permit, unresolved attempt or pending abandonment of a probe exists, it belongs to the leader, to the current generation and to a non-terminal episode |
| `AdmissionRuns.ProbesAreNeverRefused` | src/free_claude_code/providers/admission.py:488-501 | the two re-checks after the gate only ever refuse ordinary permits |
| `AdmissionRuns.ClaimsRespectTheEpisode` | src/free_claude_code/providers/admission.py:483-516 | an attempt starts only at the claim, as an ordinary one exactly when there is no episode, else only as the probe of the current leader; it pays with a record no other claim uses and stays in budget |
| `AdmissionRuns.AdmissionsStayInWindow` | src/free_claude_code/providers/admission.py:488-501 | over all interleavings the recorded admissions keep the window bound, and every started attempt owns a distinct earlier record |
| `AdmissionRuns.SlotsAreConserved` | src/free_claude_code/providers/admission.py:483-523 | free slots, unclosed attempts and admissions between acquire and claim add up to `max_concurrency` |
| `AdmissionRuns.OrdinalsCountUp` | src/free_claude_code/providers/admission.py:194-213 | the claims of an execution carry 1, 2, ..., never more than `max_attempts`, and one is active exactly while its attempt is unclosed |
| `AdmissionRuns.VerdictsAreFinal` | src/free_claude_code/providers/admission.py:178-226 | succeeded, failed and abandoned are absorbing over every continuation; error and attempt count stay |
| `AdmissionRuns.ClosedGenerationsStayClosed` | src/free_claude_code/providers/admission.py:818-842 | a generation that has ended never comes back |
| `AdmissionRuns.OutdatedStepsAreInert` | src/free_claude_code/providers/admission.py:630-764 | in every state, settling an attempt whose permit is ordinary or of an ended generation leaves the episode alone; only a failure joins or opens one, if retryable, or opens a terminal one, if exhausting with none open |
| `AdmissionRuns.UnsettledProbesAreCurrent` | src/free_claude_code/providers/admission.py:844-874 | an unsettled probe, or a pending abandonment of one, always belongs to the current generation |
| `AdmissionRuns.TerminalEpisodesAreEmpty` | src/free_claude_code/providers/admission.py:744-764 | a terminal episode has no leader, no active probe, no waiters, and nobody holds a probe |
| `AdmissionRuns.ExhaustionFailsTheWaiters` | src/free_claude_code/providers/admission.py:744-764 | the exhausting step fails every waiter still active with the very same error and leaves all other executions alone; the cool-down is the doubled base plus the jitter of that moment, or longer exactly if the server asked for longer |
| `AdmissionRuns.NoClaimUntilCooldownEnds` | src/free_claude_code/providers/admission.py:537-544 | from a terminal state on, over every run, no attempt starts before `terminal_until` has passed and a new generation was opened |
| `AdmissionRuns.NoEarlyProbe` | src/free_claude_code/providers/admission.py:546-592 | a probe permit is handed out no earlier than `ready_at` |
| `AdmissionRuns.WaitAfterFailure` | src/free_claude_code/providers/admission.py:726-738 | after a retryable failure its owner leads, no probe is active, and the wait is at least the base doubled n-1 times up to `max_delay`, at least what the server asked for, and at most `max_delay` plus the jitter unless the server asked for exactly this wait |
| `AdmissionRuns.OnlyTheLeaderMovesOn` | src/free_claude_code/providers/admission.py:549-595 | while the leader does nothing, no run of the others ends the episode, moves `ready_at`, takes the lead or starts an attempt: so an owner that never returns keeps everyone waiting |
| `AdmissionProgress.GateReentryProbes` | src/free_claude_code/providers/admission.py:546-592 | the leader, or anyone while the lead is free, that is back at the gate in a reachable state can get the next probe permit if and only if the last probe was not lost; then only time and its own pending abandonment stand in the way |
| `AdmissionProgress.ReentryIsEnough` | src/free_claude_code/providers/admission.py:546-592 | so over every run that loses no probe, re-entry of the leader is all that progress takes |
| `AdmissionProgress.ActiveProbeIsInHand` | src/free_claude_code/providers/admission.py:486-523 | over every run that loses no probe, an active probe is held by the leader, or its abandonment is on the way |
| `AdmissionProgress.OnlyLosingTheProbeWedges` | src/free_claude_code/providers/admission.py:517-523 | exactly one step loses a probe: a cancellation of the clean-up that should give the permit back |
| `AdmissionProgress.LostProbeStallsForEver` | src/free_claude_code/providers/admission.py:549-552 | after that, over every run, the episode stays, its leader waits for its own probe, and no attempt of any execution starts |
| `AdmissionProgress.ProbesGetLost` | src/free_claude_code/providers/admission.py:486-523 | the machine has such a run: an attempt that fails retryably, its owner back at the gate, and two cancellations |
| `AdmissionWakeups.NoWakeUpIsLost` | src/free_claude_code/providers/admission.py:549-570 | with waiters woken by `notify_all` only: in every reachable state a waiter nobody has notified would wait again, whenever it looked; every such run is one of the machine with spurious wake-ups |
| `AdmissionWakeups.QuietStepsLetSleep` | src/free_claude_code/providers/admission.py:630-764 | a body that notifies nobody gives no sleeper a reason to wake |
| `AdmissionProgress.ProbePermitClaims` | src/free_claude_code/providers/admission.py:486-516 | a probe permit becomes an attempt once the window has passed and a slot is free |
| `AdmissionEffects.AnsweredProbeEndsRecovery` | src/free_claude_code/providers/admission.py:630-691 | an accepted or rejected probe leaves no episode, and whoever enters the gate next goes through as an ordinary one |
| `AdmissionEffects.CorrectedProbeIsReady` | src/free_claude_code/providers/admission.py:654-667 | a corrected probe stays with its leader, ready at once; nobody else notices |
| `AdmissionEffects.AbandonedProbePassesOn` | src/free_claude_code/providers/admission.py:694-708 | a probe given back by a close, a clean-up or a detached abandonment leaves the episode open without a leader; the next one at the gate, whoever it is, leads and probes |
| `AdmissionEffects.RetryableFailureRecovers` | src/free_claude_code/providers/admission.py:710-743 | a retryable failure of the probe keeps generation and waiters; the first one opens the next generation; during the recovery of another execution it joins the waiters, unless the provider is closed |
| `AdmissionEffects.FinishingSettles` | src/free_claude_code/providers/admission.py:280-343 | what finishing does to the own execution: only a rejection, an exhausted failure or a closed provider fails it, each with its own error; the attempt is resolved, and accepted only by `accept` |
| `AdmissionEffects.OthersKeepTheirVerdict` | src/free_claude_code/providers/admission.py:710-764 | a failure that neither opens nor exhausts an episode moves no other verdict |
| `AdmissionEffects.OperationsStart` | src/free_claude_code/providers/admission.py:272-331 | a correction is sent again exactly with budget left; a failure is on record first and takes its delay from the attempts so far; one that may not be retried is a rejection |
| `AdmissionEffects.AttemptsClose` | src/free_claude_code/providers/admission.py:346-364 | a cancelled operation settles nothing; a close ends the attempt, at once if resolved, and gives claim and slot back once; a cancelled close leaves the abandonment to go on alone |
| `AdmissionEffects.OpeningChecks` | src/free_claude_code/providers/admission.py:474-481 | `open_attempt` lets exactly an active execution with budget left to the gate, and the gate turns exactly the failed ones away |
| `AdmissionEffects.GateWithoutLeaders` | src/free_claude_code/providers/admission.py:531-547 | without an episode everyone goes through; a closed provider turns everyone away until its time, and then the first one leads the next generation and probes at once |
| `AdmissionEffects.GateOfAnEpisode` | src/free_claude_code/providers/admission.py:549-570 | in an open episode the first one without a leader leads; the leader probes once `ready_at` has come, sleeps until exactly then, or waits for its own probe; everyone else waits |
| `AdmissionEffects.SleeperClaims` | src/free_claude_code/providers/admission.py:580-592 | a leader that slept gets the probe if and only if it still leads its generation |
| `AdmissionEffects.WakingLooksAgain` | src/free_claude_code/providers/admission.py:549-570 | a notified waiter looks again from the top of the gate, a sleeper after its time |
| `AdmissionEffects.CancelledWaiterLeaves` | src/free_claude_code/providers/admission.py:561-569 | a cancelled waiter is no longer among the waiters, and nobody else moves |
| `AdmissionEffects.CancelledSleeperReturnsTheLead` | src/free_claude_code/providers/admission.py:593-595 | a leader cancelled in its sleep gives the lead back if it still has it |
| `AdmissionEffects.LeadIsReturned` | src/free_claude_code/providers/admission.py:876-891 | the lead is given back only if it is still its own and nobody probes |
| `AdmissionEffects.WindowDecides` | src/free_claude_code/providers/admission.py:488-493 | with room in the window an admission is recorded exactly if it is still wanted: a probe always, an ordinary one only without an episode; without room nothing happens |
| `AdmissionEffects.SlotDecides` | src/free_claude_code/providers/admission.py:494-516 | with its slot an admission still wanted becomes the next attempt of an active execution with budget left; anything else gives the slot back |
| `AdmissionEffects.CancelledAdmission` | src/free_claude_code/providers/admission.py:517-523 | a cancelled admission keeps neither slot nor permit; a held probe is given back next, unless that is cancelled too |
| `AdmissionEffects.MarksSettle` | src/free_claude_code/providers/admission.py:178-192 | a verdict is given to an active execution only |
| `AdmissionCore.BackoffDoubles` | src/free_claude_code/providers/admission.py:896-902 | the backoff is the base at first and doubles with every attempt until it reaches the cap |
| `AdmissionCore.BackoffIsDoubled` | src/free_claude_code/providers/admission.py:896-900 | the capped power of two is the base doubled over and over until the cap |
| `AdmissionCore.RetryDelayBounds` | src/free_claude_code/providers/admission.py:896-902 | the delay is the doubled base plus the jitter, or what Retry-After asks for if that is longer; so it lies between the two bounds |
| `AdmissionController.RunCall` | src/free_claude_code/providers/admission.py:137-176 | the `run_call` loop ends, makes at most the remaining number of calls, retries only after reported retryable failures, and leaves no active claim; the execution is settled unless an exception escapes that is neither an Exception nor a CancelledError; it is interrupted by a cancelled opening, which makes no call, or by a cancellation of the last call, its report or its closing; at the budget's end it raises the last failure |
| `AdmissionController.ReportFailure` | src/free_claude_code/providers/admission.py:302-344 | a retry is allowed exactly for a retryable failure with budget left and no failure of the recovery; else the execution is failed with the right error |
| `AdmissionController.ProviderExecution.MarkSuccess` | src/free_claude_code/providers/admission.py:178-181 | only an active execution succeeds |
| `AdmissionController.ProviderExecution.MarkFailure` | src/free_claude_code/providers/admission.py:183-187 | only an active execution fails, and keeps the error |
| `AdmissionController.ProviderExecution.MarkAbandonment` | src/free_claude_code/providers/admission.py:189-192 | only an active execution is abandoned |
| `AdmissionController.ProviderExecution.ClaimAttempt` | src/free_claude_code/providers/admission.py:194-209 | a claim takes the next ordinal or is refused |
| `AdmissionController.ProviderExecution.CloseAttempt` | src/free_claude_code/providers/admission.py:211-213 | only the active claim is closed |
| `AdmissionController.ProviderAdmissionController.Make` | src/free_claude_code/providers/admission.py:407-446 | a configuration out of range is refused; else a controller without an episode and with all slots free |
| `AdmissionController.ProviderAdmissionController.StartExecution` | src/free_claude_code/providers/admission.py:456-466 | a new execution, everything else unchanged |
| `AdmissionController.ProviderAdmissionController.WaitForGateBody` | src/free_claude_code/providers/admission.py:531-570 | the locked body of the gate on the objects is the gate of the specification |
| `AdmissionController.ProviderAdmissionController.PassGate` | src/free_claude_code/providers/admission.py:546-570 | its part for an episode that is not terminal: lead, probe, sleep or wait |
| `AdmissionController.ProviderAdmissionController.ClaimProbeAfterSleep` | src/free_claude_code/providers/admission.py:582-592 | after the sleep the probe goes to whoever still leads |
| `AdmissionController.ProviderAdmissionController.AbandonWaitingLeader` | src/free_claude_code/providers/admission.py:876-891 | a cancelled sleeper gives the lead back, if it still has it |
| `AdmissionController.ProviderAdmissionController.WaitCancelled` | src/free_claude_code/providers/admission.py:562-569 | a cancelled waiter leaves the waiters |
| `AdmissionController.ProviderAdmissionController.CloseProbedEpisode` | src/free_claude_code/providers/admission.py:630-652 | a matching probe ends the episode |
| `AdmissionController.ProviderAdmissionController.AttemptCorrected` | src/free_claude_code/providers/admission.py:654-667 | a matching probe is corrected in place: ready at once |
| `AdmissionController.ProviderAdmissionController.AttemptRejected` | src/free_claude_code/providers/admission.py:669-692 | a matching probe that is rejected ends the episode, and the execution fails |
| `AdmissionController.ProviderAdmissionController.AbandonProbe` | src/free_claude_code/providers/admission.py:860-874 | a matching probe gives lead and probe back |
| `AdmissionController.ProviderAdmissionController.AttemptFailed` | src/free_claude_code/providers/admission.py:710-764 | the failure body on the objects is the failure of the specification in all six cases |
| `AdmissionController.ProviderAdmissionController.FailWaiters` | src/free_claude_code/providers/admission.py:760-762 | the loop over the waiters fails each active one with the error and nobody else |
| `AdmissionController.ProviderAdmissionController.ExhaustEpisode` | src/free_claude_code/providers/admission.py:744-764 | exhaustion opens an episode if there is none, and leaves it terminal and empty |
| `AdmissionController.ProviderAdmissionController.StartRecoveryEpisode` | src/free_claude_code/providers/admission.py:818-842 | a new episode under the next generation number |
| `AdmissionController.ProviderAdmissionController.ReleaseAttempt` | src/free_claude_code/providers/admission.py:346-364 | closing gives one slot back and closes the claim |
| `AdmissionController.ProviderAttempt.Accept` | src/free_claude_code/providers/admission.py:280-285 | an attempt is accepted once; a matching probe then ends the episode |
| `AdmissionController.ProviderAttempt.Correct` | src/free_claude_code/providers/admission.py:287-300 | a correction retries in place while there is budget, else rejects and fails |
| `AdmissionController.ProviderAttempt.Fail` | src/free_claude_code/providers/admission.py:302-344 | a failure is recorded once and handled by its kind |
| `AdmissionController.ProviderAttempt.Aclose` | src/free_claude_code/providers/admission.py:346-364 | closing is done once: an unresolved probe is abandoned, the claim is closed and one slot comes back |
| `VoiceMachine.ReleasedAtMostOnce` | src/free_claude_code/messaging/voice.py:125-252 | over every run a reserved claim is released at most once among finished handoff, discard and cancel, and exactly once when it is no longer live |
| `VoiceMachine.KeysAndEntriesAgree` | src/free_claude_code/messaging/voice.py:89-123 | over every run a key leads to a claim exactly when the claim is live and the key is its voice key or its bound status key |
| `VoiceMachine.OldClaimsNeverAct` | src/free_claude_code/messaging/voice.py:338-342 | once released, a claim finds, changes and picks nothing in any later state, whoever reserves its message id |
| `VoiceMachine.WaitsAreAcyclic` | src/free_claude_code/messaging/voice.py:193-252 | over every run no chain of handoffs cancelling each other closes into a cycle |
| `VoiceMachine.DrainsCanProceed` | src/free_claude_code/messaging/voice.py:283-303 | an unfinished drain always waits, directly or through others, for a task that no unfinished drain holds up |
| `VoiceWaits.StepClosesACircleIff` | src/free_claude_code/messaging/voice.py:181-252 | counting `discard` in: a step closes a circle of waiting handoffs if and only if it is a discard or a selection, inside a handoff task, of an unfinished task that already leads back to that one |
| `VoiceWaits.DiscardClosesACircleIff` | src/free_claude_code/messaging/voice.py:181-191 | for `discard`: if and only if the claim is live, not the caller's own, its handoff published and unfinished, and it already leads back to the caller; a handoff that discards its own claim waits for nobody |
| `VoiceWaits.SelectionClosesACircleIff` | src/free_claude_code/messaging/voice.py:193-252 | for cancellations with discards in flight: if and only if a picked claim leads back to the caller, which it can only begin with a discard |
| `VoiceWaits.WaitingCirclesIff` | src/free_claude_code/messaging/voice.py:181-252 | over every run there is no circle if and only if no step closes one, and none at all if every discard is called from outside the handoffs, for the own claim, or for one without a published handoff |
| `VoiceWaits.GuardedRunsNeverCircle` | src/free_claude_code/messaging/voice.py:181-252 | the same from any state without circles, for every continuation with guarded discards |
| `VoiceWaits.MutualDiscardsDeadlock` | src/free_claude_code/messaging/voice.py:181-191 | without the guard: two handoffs that discard each other wait for each other |
| `VoiceWaits.DiscardAndCancelDeadlock` | src/free_claude_code/messaging/voice.py:181-211 | one unguarded discard and one cancellation are enough |
| `VoiceMachine.StepInv` | src/free_claude_code/messaging/voice.py:89-376 | every step keeps the index, the protection counts and the order of selections |
| `VoiceEffects.SelectionsTakeExactly` | src/free_claude_code/messaging/voice.py:193-252 | `cancel_scope` and `cancel_all` take exactly the live claims of the scope that are not the caller's own and whose handoff cancels nothing itself, `cancel` the one the message names under the same terms; they wait for exactly the published handoffs of those |
| `VoiceEffects.ReleasesTakeExactly` | src/free_claude_code/messaging/voice.py:181-191 | a finished handoff or a discard releases its own claim, if live, and no other; a discard waits for that handoff unless it runs in it |
| `VoiceEffects.ReservingTakesTheId` | src/free_claude_code/messaging/voice.py:89-104 | a reservation is refused exactly if the message id is taken; else the claim is live under that id alone |
| `VoiceEffects.BindingTakesTheStatus` | src/free_claude_code/messaging/voice.py:106-123 | binding succeeds exactly for a live claim with its own status, or with its first one if no other claim has that id |
| `VoiceEffects.PublishingIsOnce` | src/free_claude_code/messaging/voice.py:125-145 | the handoff is published once, for a live claim with a status |
| `VoiceEffects.CancellationsProtect` | src/free_claude_code/messaging/voice.py:354-366 | a cancellation counts for one in the protection of its handoff from its start to its end |
| `VoiceEffects.WaitsEndWithTheirTasks` | src/free_claude_code/messaging/voice.py:283-303 | a wait ends exactly when every handoff it waits for has ended |
| `VoiceRegistry.ReserveKeepsIndex` | src/free_claude_code/messaging/voice.py:89-104 | reserving keeps the index and every live entry |
| `VoiceRegistry.BindKeepsIndex` | src/free_claude_code/messaging/voice.py:106-123 | binding keeps the index and touches no other claim |
| `VoiceRegistry.PublishKeepsIndex` | src/free_claude_code/messaging/voice.py:125-145 | publishing the handoff task keeps the index and what is live |
| `VoiceRegistry.RemoveDropsExactly` | src/free_claude_code/messaging/voice.py:368-376 | dropping its two keys drops every key of the entry and no other |
| `VoiceRegistry.RemoveAllKeepsIndex` | src/free_claude_code/messaging/voice.py:223-252 | removing a set of claims keeps the index, ends exactly those, touches no other |
| `VoiceRegistry.PicksExactly` | src/free_claude_code/messaging/voice.py:193-247 | a selection picks exactly the live claims it is about, but for the caller's own and the protected ones |
| `VoiceRegistry.DeadClaimsAreInert` | src/free_claude_code/messaging/voice.py:338-342 | a claim that is not live changes nothing |
| `VoiceObjects.PendingVoiceRegistry.ReserveNote` | src/free_claude_code/messaging/voice.py:89-104 | a taken message is refused, else a new claim is indexed |
| `VoiceObjects.PendingVoiceRegistry.EntryForClaim` | src/free_claude_code/messaging/voice.py:338-342 | finds the entry exactly when the claim is live |
| `VoiceObjects.PendingVoiceRegistry.Bind` | src/free_claude_code/messaging/voice.py:106-123 | the object binds and reports as the specification does |
| `VoiceObjects.PendingVoiceRegistry.StartHandoff` | src/free_claude_code/messaging/voice.py:125-145 | the task is published once, for a live claim with a status |
| `VoiceObjects.PendingVoiceRegistry.RemoveEntry` | src/free_claude_code/messaging/voice.py:368-376 | the two keys are dropped if they lead to this entry |
| `VoiceObjects.PendingVoiceRegistry.CompleteIfOwned` | src/free_claude_code/messaging/voice.py:264-270 | completion owns the entry exactly when it is live, and then removes it |
| `VoiceObjects.PendingVoiceRegistry.TakeForDiscard` | src/free_claude_code/messaging/voice.py:181-191 | discard takes a live claim and only that |
| `VoiceObjects.PendingVoiceRegistry.TakeForCancel` | src/free_claude_code/messaging/voice.py:193-211 | cancel by reference takes the claim the key leads to, unless it is the caller's own or protected, and allows only its own messages to be deleted |
| `VoiceObjects.PendingVoiceRegistry.TakeMatching` | src/free_claude_code/messaging/voice.py:223-247 | a scope cancel takes exactly the live claims of the scope that are not the caller's own and not protected; every other live claim stays live |
| `VoiceObjects.PendingVoiceRegistry.RemoveEach` | src/free_claude_code/messaging/voice.py:235-247 | the loop removes exactly the taken claims |
| `VoiceObjects.PendingVoiceRegistry.Collect` | src/free_claude_code/messaging/voice.py:231-240 | the loop over the index collects each matching claim once, though it is under two keys |
| `VoiceObjects.PendingVoiceRegistry.ProtectClaim` | src/free_claude_code/messaging/voice.py:354-357 | one more cancellation runs from the caller's claim |
| `VoiceObjects.PendingVoiceRegistry.UnprotectClaim` | src/free_claude_code/messaging/voice.py:359-366 | one fewer, and no zero is kept |
| `SessionTheorems.OneActiveRunAndExactOrdinals` | src/free_claude_code/runtime/code_sessions_sqlite.py:537-582 | after any history each session has at most one active run, and its run ordinals are exactly 1..n |
| `SessionTheorems.RunsOnlyEvolve` | src/free_claude_code/runtime/code_sessions_sqlite.py:160-206 | over any history a run keeps its identity; the native turn id and the stop and submission flags are written once; finished runs keep status, finish time and error |
| `SessionTheorems.RevisionStep` | src/free_claude_code/runtime/code_sessions_sqlite.py:116-157 | one call moves a session's revision by at most one, never back |
| `SessionTheorems.StaleWritersAreRefused` | src/free_claude_code/runtime/code_sessions_sqlite.py:116-157 | once a revision has been passed, no write that expects it is accepted in any later state |
| `SessionTheorems.SaveStoresEverything` | src/free_claude_code/runtime/code_sessions_sqlite.py:610-635 | an accepted save stores the last version of each item and prompt, the run as sent but for its creation time, and the session's new state; rows it does not name stay |
| `SessionTheorems.CreateReplays` | src/free_claude_code/runtime/code_sessions_sqlite.py:361-383 | `create` again, at any later time while the session exists, answers with the stored session and changes nothing |
| `SessionTheorems.AdmitReplays` | src/free_claude_code/runtime/code_sessions_sqlite.py:542-553 | `admit_run` again answers with the row of the run admitted first and changes nothing |
| `SessionTheorems.ClaimReplays` | src/free_claude_code/runtime/code_sessions_sqlite.py:584-606 | a prompt's response id is written once: the same one succeeds again without a change, another is refused for ever, whatever generation it claims |
| `SessionTheorems.DeletedStaysDeleted` | src/free_claude_code/runtime/code_sessions_sqlite.py:637-645 | after `delete` no history brings back any row of the id, which is refused for ever; deleting again changes nothing |
| `SessionTheorems.RestartSettlesEverything` | src/free_claude_code/runtime/code_sessions_sqlite.py:345-359 | after a restart nothing is in flight: unfinished runs are interrupted with the restart error, prompts that still waited are expired, and all else is untouched |
| `SessionTheorems.AdmissionIff` | src/free_claude_code/runtime/code_sessions_sqlite.py:537-582 | an admission goes through if and only if the session is ready, idle and on the run's model, the revision is current, the item carries the run, and its id, sequence number and all native ids are unused |
| `SessionTheorems.AdmissionAddsTheRun` | src/free_claude_code/runtime/code_sessions_sqlite.py:537-582 | an admission adds exactly the run, under the ordinal after the last, and its item, and changes the settings of the session as sent |
| `SessionTheorems.IndexesNeverFire` | src/free_claude_code/runtime/code_sessions_sqlite.py:562-568 | for an idle session the next ordinal is free and the partial unique index on active runs has no say |
| `SessionAcceptance.SaveIff` | src/free_claude_code/runtime/code_sessions_sqlite.py:610-635 | a save is accepted if and only if the writer read the current revision, the run goes on from where it was (its status never goes back and a finished one stays), and every item and prompt may follow all that is stored and all ahead of it in the same save |
| `SessionAcceptance.RunWriteIff` | src/free_claude_code/runtime/code_sessions_sqlite.py:160-206 | a run write is accepted if and only if it goes on from the stored row and its native turn is not another run's |
| `SessionAcceptance.ItemWritesIff` | src/free_claude_code/runtime/code_sessions_sqlite.py:209-239 | a list of items is accepted if and only if each is of the session, has a run and a positive sequence, and may follow every stored and every earlier item, as its later version or beside it |
| `SessionAcceptance.PromptWritesIff` | src/free_claude_code/runtime/code_sessions_sqlite.py:242-278 | the same for prompts, whose request is their own and whose response is written once |
| `SessionAcceptance.SettingsIff` | src/free_claude_code/runtime/code_sessions_sqlite.py:519-535 | settings change if and only if the session is ready and the revision current, model and effort only while nothing is in flight; exactly the settings are stored and returned |
| `SessionAcceptance.CreateIff` | src/free_claude_code/runtime/code_sessions_sqlite.py:361-383 | a create is refused for a deleted id, another directory or a revision that is not positive, and else answers with the stored row, which for a new id is the row as sent |
| `SessionAcceptance.ClaimIff` | src/free_claude_code/runtime/code_sessions_sqlite.py:584-608 | a prompt is answered once, while pending, in its own generation, with a response id no other prompt has; it is then being answered with it, and nothing else moves |
| `SessionAcceptance.KnownRunsAreReplayed` | src/free_claude_code/runtime/code_sessions_sqlite.py:542-553 | a known run id is never admitted again: the same text is answered with its row, another is refused |
| `SessionAcceptance.DeleteTakesOneSession` | src/free_claude_code/runtime/code_sessions_sqlite.py:637-645 | deleting takes the rows of the one session, and leaves all others |
| `SessionHistory.TransitionsKeepOneActive` | src/free_claude_code/runtime/code_sessions_sqlite.py:160-206 | a run write the transition table accepts never makes a second active run or reuses an ordinal |
| `SessionTheorems.CallIsGood` | src/free_claude_code/runtime/code_sessions_sqlite.py:361-645 | every call, refused ones and restarts included, keeps the tables' invariant and lets rows only evolve |
| `SessionTheorems.HistoryIsGood` | src/free_claude_code/runtime/code_sessions_sqlite.py:361-645 | so does every sequence of calls |
| `SessionStore.SQLiteCodeStore.FindNextOrdinal` | src/free_claude_code/runtime/code_sessions_sqlite.py:564-567 | the loop finds one more than the greatest ordinal of the session |
| `SessionStore.SQLiteCodeStore.Admit` | src/free_claude_code/runtime/code_sessions_sqlite.py:537-582 | the transaction is the specified one; on an error everything is rolled back |
| `SessionStore.SQLiteCodeStore.Save` | src/free_claude_code/runtime/code_sessions_sqlite.py:610-635 | the transaction is the specified one; on an error in any row everything is rolled back |
| `SessionStore.SQLiteCodeStore.PutItemRows` | src/free_claude_code/runtime/code_sessions_sqlite.py:626-629 | the loop writes all items in order or reports the first error |
| `SessionPages.BrowsingShowsEverySession` | src/free_claude_code/runtime/code_sessions_sqlite.py:388-412 | for every limit of at least one, following the cursors ends and shows every matching session once, by update time and id descending |
| `SessionPages.BrowseIsDescending` | src/free_claude_code/runtime/code_sessions_sqlite.py:388-412 | from any cursor the pages together are exactly the rows below it |
| `SessionPages.TranscriptIsOnePage` | src/free_claude_code/runtime/code_sessions_sqlite.py:470-506 | putting older pages before newer ones gives, for every limit, what one unlimited page shows |
| `SessionPages.TranscriptShowsEveryItem` | src/free_claude_code/runtime/code_sessions_sqlite.py:470-506 | the transcript holds every item of the session once, by run ordinal and then sequence ascending |
| `SessionPages.PageRunsOwnItsItems` | src/free_claude_code/runtime/code_sessions_sqlite.py:486-494 | a page comes with exactly the runs its items belong to, in ordinal order |
| `Paging.PageShowsAHead` | src/free_claude_code/runtime/code_sessions_sqlite.py:402-410 | a page is the head of what is left, and names a cursor exactly when it leaves something out |
| `Paging.PagesCover` | src/free_claude_code/runtime/code_sessions_sqlite.py:388-412 | the pages concatenate to the whole list, and all but the last are full |
| `KeyOrder.DescendingIsUnique` | src/free_claude_code/runtime/code_sessions_sqlite.py:402-407 | there is only one list in strictly falling key order of a set of rows |
| `CandidateStream.ProviderBody` | src/free_claude_code/application/execution.py:374-473 | the loop over the candidates does what the run of the specification does, for every script of providers, consumer and clock |
| `CandidateStream.TryCandidate` | src/free_claude_code/application/execution.py:377-459 | one candidate with its clean-up |
| `CandidateStream.ReadStream` | src/free_claude_code/application/execution.py:391-436 | the read loop |
| `CandidateScript.BodyFollowsTheScript` | src/free_claude_code/application/execution.py:374-473 | for every script the history of the loop is the one in which each event is what those before it call for, with its time, and the outcome is what the whole history calls for |
| `CandidateScript.ExpiredReadEndsTheRun` | src/free_claude_code/application/execution.py:408-418 | a read that outlives the deadline ends the run whatever it came back with: the stream is closed, no other candidate is tried, and the deadline error is raised unless closing is cancelled |
| `CandidateScript.SilentFailureFallsBack` | src/free_claude_code/application/execution.py:437-473 | a failure before any output is always answered by the next candidate, if there is one |
| `CandidateStream.BodyKeepsTheRules` | src/free_claude_code/application/execution.py:374-473 | every history keeps the rules of what may follow what, closes what it opened, and its outcome agrees with it |
| `CandidateStream.OneCandidateSpeaks` | src/free_claude_code/application/execution.py:421-436 | all non-empty chunks come from one candidate; every earlier candidate had failed before, and it had not |
| `CandidateStream.OutputIsOneStreams` | src/free_claude_code/application/execution.py:391-436 | what the consumer was given is the non-empty chunks of one stream from its start, in order, without loss or repetition, recorded under that candidate; all of them when the run ends well |
| `CandidateStream.FallbackOnlyAfterSilentFailures` | src/free_claude_code/application/execution.py:437-473 | a candidate is tried only after all earlier ones failed, nothing was shown, and every stream is closed |
| `CandidateStream.ReadsKeepTheDeadline` | src/free_claude_code/application/execution.py:375-397 | every read starts before the time the consumer last came back, plus the limit: fallbacks and empty chunks never extend the deadline |
| `CandidateStream.TheErrorTellsTheStory` | src/free_claude_code/application/execution.py:460-463 | a provider error raised is the last one told, and only with no candidate left or output shown; the deadline error only after that long without output; an all-fail run raises the last failure unless the deadline or a foreign exception comes first |
| `CandidateStream.ExpiryEndsTheRun` | src/free_claude_code/application/execution.py:389-415 | the deadline error is reported for the last candidate tried: no later one is touched |
| `StreamRecovery.OutputIsWhatWasPushed` | src/free_claude_code/providers/stream_recovery.py:54-80 | over every run, what was emitted followed by what is held is exactly what was pushed since the last early retry or uncommitted discard, in order |
| `StreamRecovery.EarlyRetryIsInvisible` | src/free_claude_code/providers/stream_recovery.py:116-145 | an early retry happens only while nothing was ever emitted, and with generated output leaves at least two attempts |
| `StreamRecovery.SettlingSendsWhatIsHeld` | src/free_claude_code/providers/stream_recovery.py:111-164 | after a failure that is not retried unseen, `flush_uncommitted` sends all that is held |
| `StreamRecovery.CommitIsFinal` | src/free_claude_code/providers/stream_recovery.py:54-77 | from the commit on every push goes straight out, and nothing is erased |
| `StreamRecovery.HeldBytesStayUnderTheCap` | src/free_claude_code/providers/stream_recovery.py:54-66 | the byte count is exact and, after every operation, below the cap |
| `StreamRecovery.HoldbackEnds` | src/free_claude_code/providers/stream_recovery.py:61-66 | a push at least the holdback after the first held event sends everything |
| `StreamRecovery.ActionsAre` | src/free_claude_code/providers/stream_recovery.py:116-164 | which failures are retried unseen, recovered from midstream, or final: each exactly when |
| `StreamRecovery.HeldBackIff` | src/free_claude_code/providers/stream_recovery.py:54-66 | a push before the commit is held back if and only if all that is held stays under 64 KiB and the first held event is less than 0.75 seconds old; else everything goes out |
| `StreamRecovery.BytesAreUtf8` | src/free_claude_code/providers/stream_recovery.py:60-60 | what is counted is the length of the text in UTF-8 |
| `StreamRecovery.RecoveryHoldbackBuffer.Push` | src/free_claude_code/providers/stream_recovery.py:54-66 | the object pushes as specified |
| `StreamRecovery.RecoveryHoldbackBuffer.Flush` | src/free_claude_code/providers/stream_recovery.py:68-77 | the object flushes as specified, once |
| `StreamRecovery.RecoveryHoldbackBuffer.Discard` | src/free_claude_code/providers/stream_recovery.py:79-82 | what is held is dropped, the commit stays |
| `StreamRecovery.RecoveryController.FlushUncommitted` | src/free_claude_code/providers/stream_recovery.py:111-114 | what is held goes out when the decision says it was held and uncommitted |
| `StreamRecovery.RecoveryController.AdvanceFailure` | src/free_claude_code/providers/stream_recovery.py:116-164 | the decision, and a new buffer exactly for an early retry |
| `MessagingQueue.QueueIsTheCompactedLog` | src/free_claude_code/messaging/limiter.py:237-263 | over every run the key list has no repeats and equals the map's keys; it is the order the submissions ask for, and a group is the newest function with all futures since the key was last taken |
| `MessagingQueue.WorkerRunsWhatWasTaken` | src/free_claude_code/messaging/limiter.py:61-156 | the worker takes the first key with everything submitted for it, runs the last function once, not before a pause ends, and holds one group at a time |
| `MessagingQueue.OpenFutureIsInOnePlace` | src/free_claude_code/messaging/limiter.py:66-148 | an accepted future without an outcome is in exactly one place: one queued group, once, or the group in hand |
| `MessagingQueue.FinishAnswersTheGroup` | src/free_claude_code/messaging/limiter.py:89-112 | when the function ends every future of the group still open gets the outcome, in enqueue order, and no other future changes |
| `MessagingQueue.EnqueueJoins` | src/free_claude_code/messaging/limiter.py:251-263 | an accepted submission replaces the function under its key, adds its futures behind the others, and leaves the key its place, or gives it one at the back or the front as asked; nothing else moves |
| `MessagingQueue.SubmissionsAreAccepted` | src/free_claude_code/messaging/limiter.py:237-263 | a submission is accepted exactly while the limiter runs and is not shut down, and then each of its futures waits in the group of its key |
| `MessagingQueue.WorkerSteps` | src/free_claude_code/messaging/limiter.py:61-148 | the worker takes the first group whole, runs it no sooner than the pause ends, and a pause asked for holds from then on |
| `MessagingQueue.CancellationSteps` | src/free_claude_code/messaging/limiter.py:158-189 | a cancelled worker cancels what it holds; shutting down stops submissions, and then cancels all that is still open; no other future is touched |
| `MessagingQueue.OutcomesAreFinal` | src/free_claude_code/messaging/limiter.py:91-112 | an outcome is never replaced |
| `MessagingQueue.ShutdownLeavesNothingOpen` | src/free_claude_code/messaging/limiter.py:171-189 | after the shutdown body no accepted future is open and nothing is queued |
| `MessagingQueue.ClearedForGood` | src/free_claude_code/messaging/limiter.py:171-189 | and this stays so over every continuation; nothing more is accepted |
| `MessagingLimiter.MessagingRateLimiter.SettleEach` | src/free_claude_code/messaging/limiter.py:91-93 | the loop sets every future that is not done |
| `MessagingLimiter.MessagingRateLimiter.QueuedFutures` | src/free_claude_code/messaging/limiter.py:176-180 | the loop collects all futures of the map |
| `MessagingLimiter.MessagingRateLimiter.Work` | src/free_claude_code/messaging/limiter.py:61-148 | the worker loop, as long as nobody else gets a turn, takes, runs and answers one group after another; an error asking for a pause that is no number sets none |
| `MessagingQueue.WorkerDrainsInOrder` | src/free_claude_code/messaging/limiter.py:61-148 | left alone for as many turns as there are keys, the worker runs the function of each key once, in queue order, answers every queued future with the outcome of its own group and no other future, and empties the queue |
| `SessionEvents.RegisteredMissesNothing` | src/free_claude_code/application/session_events.py:113-124 | over every run, for a registered subscriber what it saw followed by what is queued is exactly what was published since it subscribed, and the queue keeps its bound |
| `SessionEvents.ReadersSeeAPrefix` | src/free_claude_code/application/session_events.py:61-84 | every reader saw a gap-free stretch from its cursor; it ends with a close, or with an overflow whose cursor lies a whole queue and one event past the last one seen |
| `SessionEvents.TheCutOffAreTold` | src/free_claude_code/application/session_events.py:78-84 | a subscriber out of the feed has read a signal, or has exactly one to read |
| `SessionEvents.IdsHaveNoGap` | src/free_claude_code/application/session_events.py:113-117 | events are numbered 1, 2, ... |
| `SessionEvents.PublishingReaches` | src/free_claude_code/application/session_events.py:113-124 | a published event reaches every registered subscriber with room, behind what it has not read; one without room gets the overflow with the event's number instead of all that, and leaves the feed; nobody else notices |
| `SessionEvents.SubscribingStarts` | src/free_claude_code/application/session_events.py:102-111 | a subscriber starts behind what was published so far; a closed publisher takes none |
| `SessionEvents.ReadersAreTold` | src/free_claude_code/application/session_events.py:61-84 | a reader takes the oldest item and nothing after a signal; closing leaves exactly the close to read |
| `SessionEvents.EventSubscription.Signal` | src/free_claude_code/application/session_events.py:78-84 | the drain loop leaves the signal alone in the queue |
| `SessionEvents.EventPublisher.Make` | src/free_claude_code/application/session_events.py:90-96 | a size that is not positive is refused |
| `SessionEvents.EventPublisher.Subscribe` | src/free_claude_code/application/session_events.py:102-111 | a new subscription at the current cursor, or a refusal when closed |
| `SessionEvents.EventPublisher.Publish` | src/free_claude_code/application/session_events.py:113-124 | every subscriber is offered the event once; the full ones get the overflow and leave the set; nobody blocks |
| `SessionEvents.EventPublisher.CloseSubscription` | src/free_claude_code/application/session_events.py:71-76 | once, and the reader is told |
| `SessionEvents.EventPublisher.DisconnectSubscribers` | src/free_claude_code/application/session_events.py:135-140 | every subscriber gets the close, and none stays |
| `SessionEvents.EventPublisher.Close` | src/free_claude_code/application/session_events.py:129-133 | once |
| `ToolNames.FromNames` | src/free_claude_code/core/openai_tool_names.py:31-51 | the loop builds the codec of the specification |
| `ToolNames.FindUniqueAlias` | src/free_claude_code/core/openai_tool_names.py:165-178 | the loop finds the alias of the first attempt that is not reserved |
| `ToolNames.Sort` | src/free_claude_code/core/openai_tool_names.py:41-41 | the names in their one ascending order |
| `ToolNames.AliasIsPortable` | src/free_claude_code/core/openai_tool_names.py:165-178 | every alias matches the 1-64 character portable alphabet |
| `ToolNames.SqueezingIsByRuns` | src/free_claude_code/core/openai_tool_names.py:166-166 | each run of foreign characters becomes one underscore and portable text stays, in any pieces that cut no run |
| `ToolNames.AliasReadsLikeTheName` | src/free_claude_code/core/openai_tool_names.py:165-175 | an alias is the squeezed name without marks at its ends, cut to fit, or "tool", with the digest of the name, or of the name and the number of the attempt |
| `ToolNames.DecimalReadsBack` | src/free_claude_code/core/openai_tool_names.py:171-171 | that number is written in decimal |
| `ToolNames.EncodeKeepsNamesApart` | src/free_claude_code/core/openai_tool_names.py:58-60 | two strings share an encoding if and only if they are equal or one is the other's alias; no supplied name is an alias |
| `ToolNames.EncodeIsInjective` | src/free_claude_code/core/openai_tool_names.py:58-60 | encode is injective on the supplied names |
| `ToolNames.EncodeIsIdempotent` | src/free_claude_code/core/openai_tool_names.py:58-60 | encoding twice is encoding once, for every string |
| `ToolNames.DecodeUndoesEncode` | src/free_claude_code/core/openai_tool_names.py:58-64 | decoding undoes encoding if and only if the string is not an alias |
| `ToolNames.WireNamesArePortable` | src/free_claude_code/core/openai_tool_names.py:31-60 | a string goes out portable if and only if it was supplied or was portable; portable ones are unchanged |
| `ToolNames.OnlyTheSetOfNamesMatters` | src/free_claude_code/core/openai_tool_names.py:33-51 | order, repeats and empty names make no difference to the codec |
| `ToolNames.SpreadingDigestServes` | src/free_claude_code/core/openai_tool_names.py:169-178 | if the attempts for each name give more aliases than there are names, every search ends |

## Left out

- RateWindow.StrictSlidingWindowLimiter.TryAcquirePass: is one pass of the retry loop; the sleeps between passes are steps of the admission machine and of `WaitIsExact`, because how often a task is overtaken is not bounded.
- AdmissionRuns.AdmissionsStayInWindow: is about recorded admission times; physical start times are later by the wait for a slot and are not bounded by the code.
- AdmissionProgress.ReentryIsEnough: is progress under the premises that the leader returns to the gate and that no probe is lost; without the first the code promises none (`OnlyTheLeaderMovesOn`), without the second there is none (`LostProbeStallsForEver`).
- VoiceMachine.WaitsAreAcyclic: is about cancellations; `VoiceWaits` counts `discard` in. An operation counts as running in a handoff when it runs in that task itself, not in a child task the callback made.
- ToolNames.FromNames: takes for granted that each search for an alias ends; `SpreadingDigestServes` gives a condition on the digest, and sixteen hexadecimal digits cannot serve more names than they can tell apart.
- SessionEvents.EventPublisher.Publish: copies of the event data are values here, so sharing of nested objects between subscribers is not modelled.
- CandidateStream.ProviderBody: a stream's script is finite; an endless stream is covered by each of its finite beginnings followed by a consumer that leaves.
- Failure classification, Retry-After date parsing and HTTP status mapping: each failure carries its label and its requested delay.
- The one second the messaging worker sleeps after an error whose `seconds` is no number (limiter.py:117-134, 157-169): the pause is not set, as in the code, and the next turn may come at any time; how error texts are parsed, and `fire_and_forget` with its retries, are left out.
- The single-row methods of the store and the limiter's bodies without a loop have no row: they are tied to the functions the lemmas are about, field by field.
- The search text of `list_sessions` (case folding and substring) is an arbitrary predicate; the harness column has one value; JSON columns and CHECK constraints beyond those named are values.
- SQLite and asyncio themselves: a transaction is atomic, a failing one changes nothing, and a lock body is one step.
- Read-only queries of the store other than the two paged ones (`get_run`, `runs`, `prompts`, `pending_deletions`): single lookups.
- The rewriting of chat bodies in openai_tool_names.py and the prefix test for streamed aliases: lookups in the codec.
- Voice transcription, callbacks and the consuming of task results: only their end matters to ownership.
- Logging, tracing, redaction, routes, user interfaces and process supervision.
