# Busytok: models and proofs

Busytok keeps AI coding sessions hot in a sidecar process, runs turns on them, and reports
what they used. This project models the parts of it that carry the hardest obligations and
proves what they promise:

- **The hot-session pool of the sidecar** (TypeScript). `PiSession.dfy` is the register of one
  SDK session, `PoolModel.dfy` the pool as a value with one function for each stretch of code
  between two awaits, and `TurnProtocol.dfy` the sidecar as a whole: the pool, every
  `turn_auto` handler and every `session.cancel` request, interleaved in any order. A handler
  is one step for each stretch between awaits; the session factory, the SDK and the clients
  are the environment and choose freely. `SidecarRuns.dfy` proves that every step keeps the
  invariant. On it rest the theorems about whole runs: `RequestAnswers.dfy` (what a request is
  answered), `TurnReports.dfy` (what a turn reports), `CancelGuarantees.dfy`,
  `EvictionGuarantees.dfy`, `LruOrder.dfy`, `TimeGuarantees.dfy`, `TurnOutcomes.dfy`,
  `SessionBindings.dfy`, `ForcedCloses.dfy`. `TurnGenerations.dfy` is about one session alone,
  with turns allowed to overlap, and `SidecarLimits.dfy` holds the runs that show where the
  obvious statement is false. `SessionPools.dfy` and `TurnHandlers.dfy` are the code with its
  mutable fields and session objects; each method is proved to have the effect of the function
  of `PoolModel`, or of the step of `TurnProtocol`, it stands for.
- **Billing blocks** (Rust): `EventOrder.dfy`, `BillingBlocks.dfy`, `BlockGuarantees.dfy`,
  `BlockFields.dfy`.
- **Rollups by session, project, model, day and week** (Rust): `UsageEvents.dfy`,
  `Rollups.dfy`, `RollupGuarantees.dfy`, `RollupRows.dfy`.
- **The read service's connection pool** under interleaving (Rust): `ReadService.dfy`,
  `ReadAnswers.dfy`.
- **Local days under a fixed offset** (Rust): `CivilDays.dfy`.
- **The CLI shim's PATH block and its quoting** (Rust): `ShimPath.dfy`, `ShimGuarantees.dfy`,
  `ShellQuoting.dfy`.

`dafny verify dfyconfig.toml` checks the whole project.

## Reading the model

- Identifiers are integers, compared only for equality. Clocks, timers, SDK outcomes and
  factory results are arguments. A timer is the time it is due; it may fire at any later time.
- The factory fails or returns an adapter id the pool has never seen, for the subagent asked
  for. `maxHot` is at least 1, as the constructor demands.
- `World.cancelled`, `creator` and `holder` record what happened; no step of the code reads
  them. A run is a `Trace`: states, and the labels of the steps between them.
- Token counts are unbounded integers and costs are exact numbers. A `HashMap` is a `map`, so
  the order of the rows it produces is not modelled. A date is a day number.
- `TruncatedRem` and `TruncatedDiv` are Rust's `%` and `/`, which round toward zero.

## Where the code does not do what it says

- A second cancel that names another task, sent while a cancellation is pending, clears the
  fallback timer; so does activating a session whose cancelled turn has not settled. The
  comment at session_pool.ts:300-302 promises that a hung abort cannot quarantine a session
  forever. `TimeGuarantees.ArmedExactly` shows that these two steps, and no others, break it.
- One turn at a time for each subagent holds in every run in which no step closes a session
  in use (`ForcedCloses.OneTurnAtATime`). Two steps do: `close` of a busy session, since it is
  unconditional, and the pool's own fallback timer whenever it finds the cancellation still
  pending, because a pending cancellation is one of a turn in flight. These two steps, and no
  others, take a session from its turn (`ForcedCloses.AttachedIff`); a request of the subagent
  that follows runs beside the first turn exactly if the session was in use
  (`ForcedCloses.CloseAdmitsSecondTurnIff`, `ForcedCloses.TimerAdmitsSecondTurnIff`).
- The grace period of a cancel can be as short as one millisecond: a timer that an earlier,
  settled cancel has left behind is reused (`SidecarLimits.LeftoverTimerCutsGrace`). It is full
  exactly if no such timer is left (`TurnOutcomes.FullGraceIff`).
- A cancelled turn never completes, but it need not report TURN_CANCELLED: it reports the
  failure of its factory, or SESSION_NOT_FOUND if its session was closed before the handler
  resumed, and in these two cases only (`TurnReports.CancelledIff`).
- One cancelled-generation register is enough only because the pool serialises turns
  (`TurnGenerations.SerialisedCancelNeverLost`, `TurnGenerations.OverlapLosesCancel`).
- `floor_to_hour_ms` is no floor before 1970 unless the time is a whole hour, and
  `local_date_for_timestamp_ms` can name the next day in the last second before a local
  midnight before 1970. The lemmas state the exact conditions.
- Project rows written from a scan have no agent and zero times, so they never equal the rows
  of a rebuild (`RollupGuarantees.ScannedProjectsDiffer`).
- Blocks are out of order if a block before a gap is rounded up past its last event, or the
  one after it is rounded up at all; `BlockGuarantees.BlocksAreInOrder` has the exact condition.
- `strip_path_block` says it never discards text after an unterminated block. It counts
  markers by substring and matches them by line, so a reversed pair or an indented END passes
  the count and everything after the BEGIN is dropped. An unterminated block leaves the file
  alone if and only if the two counts differ (`ShimGuarantees.UnterminatedLeftAloneIff`).

## Model

| member | source | states |
|---|---|---|
| CancelGuarantees.NoLostCancel | apps/pi-sidecar/src/session_pool.ts:277-314 | in every run a cancel request is answered yes only if exactly one turn could be cancelled when it arrived, whether that turn was creating its session, admitted or in the SDK, and no only if there was none; that turn has not completed and never will |
| CancelGuarantees.ReportsAreHonest | apps/pi-sidecar/src/pi_session.ts:252-300 | a completed or refused turn was never hit by a cancel, and a turn reports TURN_CANCELLED only if some cancel was aimed at it |
| CancelGuarantees.RunningTurnReportsCancel | apps/pi-sidecar/src/pi_session.ts:252-274 | however the SDK settles, late success and timeout included, the turn ends as cancelled if and only if it was cancelled |
| TurnReports.CancelledIff | apps/pi-sidecar/src/handlers/turn_auto.ts:166-221 | in every run an answered turn reports TURN_CANCELLED if and only if it was cancelled, in whatever phase, and neither its factory failed nor its session was closed between the hand-out and the handler's next step |
| TurnReports.CompletedIff | apps/pi-sidecar/src/pi_session.ts:252-290 | in every run an answered turn has completed if and only if the SDK resolved its call and no cancel had been aimed at it before |
| TurnReports.FailedIff | apps/pi-sidecar/src/pi_session.ts:254-267 | in every run an answered turn reports an error if and only if the SDK threw just that error, or the timeout, and no cancel had been aimed at the turn before, or its factory failed, or its session was closed before the handler resumed |
| TurnReports.HandlerSteps | apps/pi-sidecar/src/handlers/turn_auto.ts:175-192 | a handler that resumes starts the SDK call, as the next generation of its session, exactly if the pool still has the session and the turn was not cancelled; its two later steps settle the turn and answer with the result |
| RequestAnswers.ReusedIff | apps/pi-sidecar/src/session_pool.ts:139-173 | in every run a request is handed a session if and only if it is one of its subagent and of the model asked for, not orphaned for over a minute, running no turn, with no pending cancellation and no reservation of the last two minutes |
| RequestAnswers.CreatesIff | apps/pi-sidecar/src/session_pool.ts:153-213 | a request starts a creation if and only if its subagent has a free session of another model, or has no session and no creation in progress and the pool is not full |
| RequestAnswers.AllBusyIff | apps/pi-sidecar/src/session_pool.ts:139-204 | a request is refused as all-busy if and only if its subagent is having a session created, has one that is not free, or the pool is full and nothing can be evicted |
| RequestAnswers.CandidateIff | apps/pi-sidecar/src/session_pool.ts:195-204 | a request is told a session as candidate if and only if the pool is full, its subagent has no session and no creation, and of all active sessions without a turn or a live reservation this one was used longest ago |
| RequestAnswers.EnsureWithoutTurn | apps/pi-sidecar/src/session_pool.ts:119-238 | without a turn to run, `ensure` gives the same answers and leaves the same pool, but for the busy mark and the lease |
| SessionBindings.BoundForLife | apps/pi-sidecar/src/session_pool.ts:214-236 | in every run a session created for a turn has the subagent and the model of that turn for as long as the pool has it |
| CancelGuarantees.OneLiveTurnPerSubagent | apps/pi-sidecar/src/session_pool.ts:139-210 | in every reachable state, after any closes, sessions and creations together fit in `maxHot`, and no two turns of one subagent are creating or using a session the pool still has; `ForcedCloses.OneTurnAtATime` is about the other turns too |
| ForcedCloses.OneTurnAtATime | apps/pi-sidecar/src/session_pool.ts:139-210 | in every run in which no step closes a session in use, no state has two unfinished turns of one subagent |
| ForcedCloses.AttachedExactly | apps/pi-sidecar/src/session_pool.ts:317-332 | over a whole run every unfinished turn is creating its session or has it in the pool if and only if no step closes a session in use |
| ForcedCloses.AttachedIff | apps/pi-sidecar/src/session_pool.ts:494-505 | a single step takes a session away from an unfinished turn exactly if it is a close of a busy session or a timer that finds the cancellation pending |
| ForcedCloses.StepKeepsInUse | apps/pi-sidecar/src/session_pool.ts:317-361 | any other step keeps every busy session in the pool, apart from the one whose own turn it ends |
| ForcedCloses.CloseAdmitsSecondTurnIff | apps/pi-sidecar/src/session_pool.ts:317-332 | in every run, after a close of a pooled session a request of its subagent runs beside an unfinished turn on that session if and only if the session was busy |
| ForcedCloses.TimerAdmitsSecondTurnIff | apps/pi-sidecar/src/session_pool.ts:494-505 | the same after its fallback timer, if and only if the cancellation was pending; then the session was busy |
| ForcedCloses.PendingIsBusy | apps/pi-sidecar/src/session_pool.ts:484-488 | in every state that satisfies the invariant a session with a pending cancellation is in use by a turn |
| CancelGuarantees.SecondTurnRefused | apps/pi-sidecar/src/session_pool.ts:146-188 | a request for a subagent with a live turn is answered all-busy and starts nothing |
| CancelGuarantees.LaterRun | apps/pi-sidecar/src/session_pool.ts:277-314 | answered turns and answered requests never change afterwards |
| CancelGuarantees.MaxHotFixed | apps/pi-sidecar/src/session_pool.ts:77 | the capacity is the one the pool was made with, in every reachable state |
| SidecarRuns.PoolStaysConsistent | apps/pi-sidecar/src/session_pool.ts:79-96 | every reachable pool satisfies the representation invariant: subagents and sessions are in bijection, sessions are the disjoint union of a duplicate-free `lru` and the pending ones, leases are exactly the busy sessions, reservations are on active idle sessions, timers on pooled ones, creations on subagents without a session; so a mapped subagent always has its session |
| SidecarRuns.InvStep | apps/pi-sidecar/src/session_pool.ts:119-574 | every step of the sidecar, in any state that satisfies the invariant, keeps it |
| PoolModel.EnsureBeginKeeps | apps/pi-sidecar/src/session_pool.ts:119-213 | `ensure` up to its await keeps the representation invariant, through hit, forced eviction, miss and refusal |
| PoolModel.EnsureResumeKeeps | apps/pi-sidecar/src/session_pool.ts:214-238 | `ensure` after its await keeps it, for a failed, a cancelled and a published creation, and never exceeds the capacity |
| PoolModel.CancelBeginKeeps | apps/pi-sidecar/src/session_pool.ts:277-308 | `abortSession` up to its await keeps it in all its branches |
| PoolModel.CloseKeeps | apps/pi-sidecar/src/session_pool.ts:317-332 | `close` keeps it, of a busy session too |
| PoolModel.HousekeepKeeps | apps/pi-sidecar/src/session_pool.ts:126-132 | releasing expired reservations and closing expired pending sessions keeps it |
| PoolModel.ActivateKeeps | apps/pi-sidecar/src/session_pool.ts:378-397 | `activate` keeps it |
| PoolModel.ReserveForEvictionKeeps | apps/pi-sidecar/src/session_pool.ts:468-476 | `reserveForEviction` keeps it |
| PoolModel.LastFreeIsLast | apps/pi-sidecar/src/session_pool.ts:549-559 | the candidate scan finds the entry nearest the end of `lru` that is not skipped, and none exactly if all are |
| EvictionGuarantees.CandidateWasEvictable | apps/pi-sidecar/src/session_pool.ts:195-204 | the candidate a refused request is told was active, not pending, ran no turn, had no live reservation, and is reserved from then on |
| EvictionGuarantees.EvictionIsExclusive | apps/pi-sidecar/src/session_pool.ts:549-574 | once a request has been told a candidate, no request is told or given that session before its reservation has expired, unless it is released; so candidates told within that time differ |
| TimeGuarantees.ReserveAnswers | apps/pi-sidecar/src/session_pool.ts:468-476 | `reserveForEviction` says yes exactly for an active session that runs no turn, and exactly then it is reserved, anew unless a reservation of the last two minutes stands; only expired reservations go |
| TimeGuarantees.ReservedIsExclusive | apps/pi-sidecar/src/session_pool.ts:468-476 | in every run a reserved session, by a yes or as a candidate, is neither told nor given to any request before the reservation is two minutes old, unless it is released |
| TimeGuarantees.ReservationSteps | apps/pi-sidecar/src/session_pool.ts:468-481 | `prepare_hibernate` leaves a session reserved exactly if it was active and ran no turn, and a release ends the reservation at once |
| EvictionGuarantees.HandedOutIsFree | apps/pi-sidecar/src/session_pool.ts:139-152 | a session handed to a turn is pooled, not reserved, has no pending cancellation and is not busy |
| LruOrder.LruIsRecencyOrder | apps/pi-sidecar/src/session_pool.ts:378-397 | in every reachable state `lru` lists the active sessions strictly by last use, latest first, where a use is an activation or a hand-out |
| LruOrder.ActivateAnswers | apps/pi-sidecar/src/session_pool.ts:378-397 | `activate` throws exactly if the pool does not have the session; else the session is active afterwards, in front if it was pending and in its place if not |
| LruOrder.ActivatedIsActive | apps/pi-sidecar/src/session_pool.ts:378-397 | so does the step of a run |
| LruOrder.CandidateIsLeastRecentlyUsed | apps/pi-sidecar/src/session_pool.ts:195-204 | in every run the candidate a refused request is told is active, runs no turn, has no live reservation, and of all such sessions was used longest ago |
| LruOrder.NoCandidateIff | apps/pi-sidecar/src/session_pool.ts:146-204 | a refused request is told no candidate exactly if its subagent has a session or a creation in progress, or there is no such session |
| TimeGuarantees.SlotsRecover | apps/pi-sidecar/src/session_pool.ts:126-204 | from any reachable state with nothing busy, creating or pending cancellation, once the reservation limit has passed a request is never refused as all-busy |
| TurnOutcomes.HandedOutMatches | apps/pi-sidecar/src/session_pool.ts:153-173 | in every run a reused session belongs to the subagent that asked and is bound to the model asked for |
| TurnOutcomes.CancelledCreationIsDisposed | apps/pi-sidecar/src/session_pool.ts:214-228 | a session the factory returns is published, pending and leased if and only if its turn was not cancelled meanwhile; otherwise it is closed, the pool keeps nothing of it and the turn reports cancelled |
| TurnOutcomes.FailedTurnLeavesNoSession | apps/pi-sidecar/src/handlers/turn_auto.ts:175-221 | however a turn ends, after its SDK call or cancelled before it, its session is free afterwards, and a session made for it stays in the pool if and only if the turn reports completed |
| TurnOutcomes.LeavesPoolIff | apps/pi-sidecar/src/session_pool.ts:119-361 | a step takes a session out of the pool exactly if it closes it as an expired orphan, on request, by its fallback timer while the cancellation is pending, for a request of its subagent with another model while it is free, or at the failed end of the turn it was made for |
| TurnOutcomes.OrphanGrace | apps/pi-sidecar/src/session_pool.ts:447-456 | in every run, if a session is still pending after its turn, no request closes it as an orphan for the whole limit, whatever steps come between: within that time it leaves the pool exactly if one of the other ways above applies |
| TurnOutcomes.FullGraceIff | apps/pi-sidecar/src/session_pool.ts:489-507 | a cancel accepted for a running turn sets the fallback timer to the full grace period exactly if the session has no earlier timer due at another time, and never to more |
| TurnOutcomes.NoEarlyTimer | apps/pi-sidecar/src/session_pool.ts:489-507 | in every run, from a moment at which a session has no timer none fires for it before the full grace period has passed, whatever steps come between |
| TimeGuarantees.AnsweredMeansIdle | apps/pi-sidecar/src/session_pool.ts:447-456 | a reachable state in which every turn has been answered is such a state |
| TimeGuarantees.EvictExpiredPendingExactly | apps/pi-sidecar/src/session_pool.ts:343-361 | exactly the pending sessions without a turn that are older than the limit are closed; nothing else changes |
| TimeGuarantees.BoundedQuarantine | apps/pi-sidecar/src/session_pool.ts:489-507 | a cancellation pending from one position to another, with none of the two disarming steps taken on that session in between, has its fallback timer armed, due within the grace period of the first |
| TimeGuarantees.QuarantineEnds | apps/pi-sidecar/src/session_pool.ts:489-507 | if moreover the timer of that session fires on time, its cancellation does not stay pending in the pool for longer than the grace period |
| TimeGuarantees.ArmedExactly | apps/pi-sidecar/src/session_pool.ts:300-313 | over a whole run every pending cancellation of a session has its timer if and only if neither disarming step is taken on that session |
| TimeGuarantees.ArmedUnlessDisarmed | apps/pi-sidecar/src/session_pool.ts:300-313 | a single step leaves the pending cancellation of a session without a timer exactly if it completes a refused second cancel of that session or activates it early |
| TimeGuarantees.TimerEndsQuarantine | apps/pi-sidecar/src/session_pool.ts:494-505 | when the timer fires a session still pending is closed and leaves the pool, and any other is left alone |
| TimeGuarantees.PendingIsNotHandedOut | apps/pi-sidecar/src/session_pool.ts:139-145 | no reachable state hands a session with a pending cancellation to a turn |
| SidecarLimits.SecondCancelDisarms | apps/pi-sidecar/src/session_pool.ts:303-312 | a run of six steps that ends with a pending cancellation and no timer, by a second cancel that names another task |
| SidecarLimits.ActivationDisarms | apps/pi-sidecar/src/session_pool.ts:393-396 | a run of five steps that ends the same way, by activating the session |
| SidecarLimits.ForcedCloseAllowsSecondTurn | apps/pi-sidecar/src/session_pool.ts:317-332 | a run in which two turns of one subagent are in the SDK at once, after a close of the busy session |
| SidecarLimits.LeftoverTimerCutsGrace | apps/pi-sidecar/src/session_pool.ts:489-507 | a run of sixteen steps in which the timer of a cancel that has been carried out closes the session one millisecond after the cancel of a later turn |
| SidecarLimits.FailedCreationHidesCancel | apps/pi-sidecar/src/session_pool.ts:214-238 | a run of three steps in which a turn whose cancel was accepted reports the failure of its factory |
| SidecarLimits.CloseHidesCancel | apps/pi-sidecar/src/session_pool.ts:431-440 | a run of six steps in which a turn whose cancel was accepted reports SESSION_NOT_FOUND, its session having been closed before the handler resumed |
| TurnGenerations.AcceptedIffAimed | apps/pi-sidecar/src/pi_session.ts:314-330 | after any calls, `abort` returns true exactly if the newest turn is open and its task matches |
| TurnGenerations.StaleSettleIsInert | apps/pi-sidecar/src/pi_session.ts:294-300 | with overlapping turns, settling an older generation leaves the newer turn's whole register alone |
| TurnGenerations.CancelledReportIff | apps/pi-sidecar/src/pi_session.ts:260-274 | a settling turn reports cancelled if and only if it was cancelled and no newer one has been cancelled since |
| TurnGenerations.CancelledReportIsEarned | apps/pi-sidecar/src/pi_session.ts:260-274 | a turn that reported cancelled was cancelled by a cancel aimed at that very generation |
| TurnGenerations.SerialisedCancelNeverLost | apps/pi-sidecar/src/pi_session.ts:232-300 | with turns serialised, a settled turn reported cancelled if and only if it was |
| TurnGenerations.OverlapLosesCancel | apps/pi-sidecar/src/pi_session.ts:204-208 | five calls with two overlapping turns after which a cancelled turn has reported completed |
| PiSession.PiSdkSession.SendTurnBegin | apps/pi-sidecar/src/pi_session.ts:228-236 | a closed session refuses and is unchanged; otherwise a new generation is in flight with this task and nothing pending |
| PiSession.PiSdkSession.SendTurnSettle | apps/pi-sidecar/src/pi_session.ts:252-300 | cancelled if and only if the cancelled generation is this one, else completed if the SDK resolved, and the error it threw or the timeout if not; only the newest generation clears the flags |
| PiSession.PiSdkSession.AbortBegin | apps/pi-sidecar/src/pi_session.ts:314-329 | accepts exactly a matching turn in flight and then marks that generation cancelled and pending |
| SessionPools.SessionPool.constructor | apps/pi-sidecar/src/session_pool.ts:98-102 | a new pool is empty and valid |
| SessionPools.SessionPool.EnsureBeforeFactory | apps/pi-sidecar/src/session_pool.ts:119-213 | on the mutable fields and objects: the effect and the answer of `EnsureBegin`, and the pool stays valid; the branch at 174-177 is dead |
| SessionPools.SessionPool.EnsureAfterFactory | apps/pi-sidecar/src/session_pool.ts:214-238 | the effect and the answer of `EnsureResume`, including the disposal of a session created for a cancelled request |
| SessionPools.SessionPool.AbortSession | apps/pi-sidecar/src/session_pool.ts:277-308 | the effect and the answer of `CancelBegin`; the branch at 291 is dead |
| SessionPools.SessionPool.FinishAbort | apps/pi-sidecar/src/session_pool.ts:308-314 | the effect of `CancelResume` and its answer |
| SessionPools.SessionPool.CloseSession | apps/pi-sidecar/src/session_pool.ts:317-332 | the effect of `Close` on the ten fields and the session object, and no other session object changes |
| SessionPools.SessionPool.EvictExpired | apps/pi-sidecar/src/session_pool.ts:343-361 | the loop, in whatever order it visits the pending sessions, closes the same set as `EvictExpiredPending` |
| SessionPools.SessionPool.ReleaseExpired | apps/pi-sidecar/src/session_pool.ts:561-574 | the loop leaves exactly the reservations that have not expired |
| SessionPools.SessionPool.GetLruCandidate | apps/pi-sidecar/src/session_pool.ts:549-559 | the backward scan reserves and returns the candidate of `LruCandidate` |
| SessionPools.SessionPool.TouchSession | apps/pi-sidecar/src/session_pool.ts:528-532 | splice and unshift move an active session to the front and keep the others' order |
| SessionPools.SessionPool.ActivateSession | apps/pi-sidecar/src/session_pool.ts:378-397 | the effect of `Activate`; false stands for the SESSION_NOT_FOUND throw |
| SessionPools.SessionPool.MarkStarted | apps/pi-sidecar/src/session_pool.ts:431-440 | a cancelled lease or one of another task does not start, a missing one does |
| SessionPools.SessionPool.EndSessionTurn | apps/pi-sidecar/src/session_pool.ts:447-456 | the lease and the busy mark go, and a pending session's orphan clock restarts |
| SessionPools.SessionPool.ReserveSession | apps/pi-sidecar/src/session_pool.ts:468-476 | the effect and the answer of `ReserveForEviction` |
| SessionPools.SessionPool.CleanupTimer | apps/pi-sidecar/src/session_pool.ts:494-505 | the effect of `CancelTimerFires` |
| TurnHandlers.ResumeHandler | apps/pi-sidecar/src/handlers/turn_auto.ts:175-192 | from the hand-out to the SDK call the handler does, in any world with this pool, exactly the protocol step `HandlerResumes` |
| TurnHandlers.SettleHandler | apps/pi-sidecar/src/pi_session.ts:252-300 | once the SDK has settled it does exactly the step `SdkSettles`, though the session object may have left the pool |
| TurnHandlers.FinishHandler | apps/pi-sidecar/src/handlers/turn_auto.ts:203-221 | the `finally` block ends the turn and closes a new session whose turn failed |
| EventOrder.SortIsStable | crates/busytok-aggregator/src/blocks.rs:29-30 | the model of the library sort is sorted and keeps, for each moment, the events of that moment in their order |
| EventOrder.StableSortIsUnique | crates/busytok-aggregator/src/blocks.rs:29-30 | there is only one such result |
| BillingBlocks.FloorIffNotNegative | crates/busytok-aggregator/src/blocks.rs:90-94 | the result is a whole hour less than an hour away, and a floor exactly for times that are not negative or are whole hours |
| BillingBlocks.CreateBlock | crates/busytok-aggregator/src/blocks.rs:96-159 | the loop computes the sums, the distinct models in order of first appearance and the last reset time of its entries |
| BillingBlocks.IdentifySessionBlocks | crates/busytok-aggregator/src/blocks.rs:20-88 | the sweep returns the blocks of the groups cut off at the first event that does not fit, with the pauses between them |
| BlockGuarantees.BlocksPartitionEvents | crates/busytok-aggregator/src/blocks.rs:37-79 | the real blocks are the groups one for one, and the groups in a row are the events in order of time |
| BlockGuarantees.UsageConserved | crates/busytok-aggregator/src/blocks.rs:108-137 | over all blocks every token count, both costs and the event count add up to those of the events, in whatever order these came |
| BlockGuarantees.EntriesInWindow | crates/busytok-aggregator/src/blocks.rs:45-69 | every entry lies in its block's window exactly if each block's first entry floors down; then blocks start at a whole hour at most an hour before that entry |
| BlockGuarantees.SinceLastImplied | crates/busytok-aggregator/src/blocks.rs:50 | the second half of the cut condition follows from the first exactly if the block's first entry floors down |
| BlockGuarantees.GapsAreThePauses | crates/busytok-aggregator/src/blocks.rs:55-62 | the gap blocks are exactly the pauses of more than the duration between neighbouring events |
| BlockGuarantees.GapsAreQuiet | crates/busytok-aggregator/src/blocks.rs:163-173 | no event falls strictly inside a gap |
| BlockGuarantees.BlocksAreInOrder | crates/busytok-aggregator/src/blocks.rs:50-66 | for durations of at least an hour each block ends at or before the next one's start, and gaps stand between two blocks, start no earlier than the end before them and reach less than an hour into the block after them, if and only if at every pause the group before starts no later than its last event and the first event after floors down; which holds if all events do |
| BlockGuarantees.RoundingUpOverlaps | crates/busytok-aggregator/src/blocks.rs:90-94 | two events, the first a millisecond before 1970, whose blocks are not in order |
| BlockGuarantees.OnlyTheLastIsActive | crates/busytok-aggregator/src/blocks.rs:103-106 | for any times and any duration, if no event lies in the future at most one block is active, and it is the last |
| BlockFields.ActiveIff | crates/busytok-aggregator/src/blocks.rs:103-106 | when no event lies in the future a block is active if and only if it is the last, it has not ended, and the latest event is less than the duration ago; no gap is |
| BlockFields.BlocksSay | crates/busytok-aggregator/src/blocks.rs:37-159 | for every event list: each real block starts at the hour of its first event and lasts the duration, its last time, its activity, each sum, its models, its reset time and its agent are those of its events, and it goes on exactly as long as the next event is within the duration of its start and of the event before |
| BlockFields.GapsSay | crates/busytok-aggregator/src/blocks.rs:163-190 | the gap blocks are exactly the empty blocks from one duration after an event to the next, for neighbours further apart |
| UsageEvents.MergeCost | crates/busytok-aggregator/src/mutations.rs:361-368 | a merged cost is missing only if both are, and else the sum of those present |
| UsageEvents.CountAndCosts | crates/busytok-aggregator/src/mutations.rs:112-124 | a sum counts its events; its cost is missing exactly if every event's is, and else the total of those present |
| UsageEvents.TokenSums | crates/busytok-aggregator/src/mutations.rs:112-124 | each of the nine token counts of a sum is the total of that count over its events |
| UsageEvents.UsageOfPermutation | crates/busytok-aggregator/src/mutations.rs:112-124 | a sum does not depend on the order of the events |
| UsageEvents.FirstAppearancesAre | crates/busytok-aggregator/src/mutations.rs:179-183 | the list of names has each non-empty name once, in the order of first appearance |
| Rollups.AccumulateSessions | crates/busytok-aggregator/src/mutations.rs:152-187 | the fold gives, for each non-empty session id, the summary of exactly that session's events |
| Rollups.AccumulateProjects | crates/busytok-aggregator/src/mutations.rs:214-251 | the same for each non-empty project hash |
| Rollups.AccumulateModels | crates/busytok-aggregator/src/mutations.rs:266-285 | the same for each non-empty model name |
| Rollups.AccumulateRows | crates/busytok-aggregator/src/mutations.rs:103-125 | the fold gives for each key the sum of its events, and an error exactly if some event cannot be dated |
| Rollups.BuildScanMutations | crates/busytok-aggregator/src/mutations.rs:94-307 | the four rollups of a scan are group-bys of its events, or an error exactly if some event cannot be dated |
| Rollups.RebuildSessions | crates/busytok-aggregator/src/mutations.rs:378-446 | the rebuilt rows are the group-by of the events by session |
| Rollups.RebuildProjects | crates/busytok-aggregator/src/mutations.rs:453-520 | the rebuilt rows are the group-by of the events by project |
| Rollups.RebuildModelSummaries | crates/busytok-aggregator/src/mutations.rs:527-558 | the rebuilt rows are the group-by of the events by model |
| Rollups.BuildWeeklyUsage | crates/busytok-aggregator/src/daily.rs:64-97 | the weekly rows are the sums by week, agent, project and model |
| RollupRows.WeeklyRowsSay | crates/busytok-aggregator/src/daily.rs:76-97 | each weekly row is of a week that starts on a Sunday and is the sum over the events of the seven days from then on with its agent, project and model; there is one exactly for each such week with events |
| RollupRows.DailyRowsSay | crates/busytok-aggregator/src/mutations.rs:103-125 | each daily row is the sum over the events of its day, agent, project and model, and there is one exactly if there are any |
| RollupRows.SessionRowsSay | crates/busytok-aggregator/src/mutations.rs:378-446 | one row for each session id that occurs and is not empty, each column that of its events: the first one's agent and project, the earliest and the latest time, the models once each, tokens, cost and count |
| RollupRows.ProjectRowsSay | crates/busytok-aggregator/src/mutations.rs:453-520 | the same for projects: the first path, the first agent, the name shown, the times, tokens, cost and the number of distinct sessions |
| RollupRows.ModelRowsSay | crates/busytok-aggregator/src/mutations.rs:527-558 | the same for models |
| RollupRows.DisplayNameIs | crates/busytok-aggregator/src/mutations.rs:595-598 | the name shown is the last component of the path: before it comes nothing or a slash, after it slashes only, and it is empty only for a path of slashes |
| RollupGuarantees.ScannedSessionsAreRebuiltSessions | crates/busytok-aggregator/src/mutations.rs:563-585 | the rows written from a scan are those of a rebuild at the same clock |
| RollupGuarantees.ScannedProjectsDiffer | crates/busytok-aggregator/src/mutations.rs:588-615 | project rows agree but for the agent and the two times, and because of these never are equal |
| RollupGuarantees.ScannedModelsAreRebuiltModels | crates/busytok-aggregator/src/mutations.rs:618-628 | the rows written from a scan are those of a rebuild, and each names the model its events have in common |
| RollupGuarantees.EarliestAndLatest | crates/busytok-aggregator/src/mutations.rs:173-178 | first and last seen are the minimum and the maximum over the group |
| RollupGuarantees.SessionsIgnoreOrder | crates/busytok-aggregator/src/mutations.rs:152-187 | totals, cost, count, times and set of models of every session are the same for any order of the events |
| RollupGuarantees.ProjectsIgnoreOrder | crates/busytok-aggregator/src/mutations.rs:214-251 | the same for projects and their number of sessions |
| RollupGuarantees.ModelsIgnoreOrder | crates/busytok-aggregator/src/mutations.rs:266-285 | the model rollup is the same for any order of the events |
| RollupGuarantees.RowsIgnoreOrder | crates/busytok-aggregator/src/mutations.rs:103-125 | so are the daily and the weekly rows |
| RollupGuarantees.WeekStartIs | crates/busytok-aggregator/src/daily.rs:37-58 | the week start falls on the chosen weekday, 0 to 6 days back, is the latest such day and its own week start |
| RollupGuarantees.WeeklyIsDailyRegrouped | crates/busytok-aggregator/src/daily.rs:64-97 | each weekly row is the exact sum of the daily rows of its week with the same agent, project and model, and there are no others |
| ReadService.InvStep | crates/busytok-runtime/src/read_service.rs:193-351 | every step keeps the counts of permits and connections and the place of every connection |
| ReadService.OpenConnectionsBounded | crates/busytok-runtime/src/read_service.rs:203-272 | in every run, with callers that time out or drop the future at any moment, idle connections and those held or being opened are at most `max_connections`, and the free permits are the rest of the running tasks |
| ReadService.ReturnNeverDrops | crates/busytok-runtime/src/read_service.rs:342-351 | a returned connection always has room: the dropping branch is never taken |
| ReadService.ConnectionsAreExclusive | crates/busytok-runtime/src/read_service.rs:330-351 | no connection serves two queries or is idle while it serves one, and none is lost but by a panic |
| ReadService.PermitsComeBack | crates/busytok-runtime/src/read_service.rs:252-260 | when no task runs all permits are back, after failures, panics and timeouts too |
| ReadService.NoLateStart | crates/busytok-runtime/src/read_service.rs:230-239 | no task starts at or after its deadline or after its caller gave up waiting |
| ReadAnswers.AnsweredIff | crates/busytok-runtime/src/read_service.rs:203-315 | in every run a caller is answered with a value if and only if the query returned one and the caller took the answer, with a failed query, a failed opening or a panic likewise, and with a timeout exactly if it gave up at the deadline or got its permit too late |
| ReadAnswers.NoEarlyTimeout | crates/busytok-runtime/src/read_service.rs:199-239 | the deadline is the submission plus the timeout, and no timeout is answered before it |
| ReadAnswers.StartsInTime | crates/busytok-runtime/src/read_service.rs:230-340 | a query that gets its permit before the deadline starts, takes the connection given back last, and opens one exactly if none is idle |
| ReadService.ReadPool.Take | crates/busytok-runtime/src/read_service.rs:330-340 | takes the latest idle connection, and opens one only if there is none |
| ReadService.ReadPool.GiveBack | crates/busytok-runtime/src/read_service.rs:342-351 | keeps the connection while there is room |
| CivilDays.LocalDayIsDayContaining | crates/busytok-domain/src/timezone.rs:113-126 | the local date is the day that starts at or before the time and ends after it, for every offset, exactly unless the time is before 1970, no whole second and in the last second before a local midnight |
| CivilDays.LastMillisecondOf1969 | crates/busytok-domain/src/timezone.rs:113-126 | one such time: the last millisecond of 1969 in UTC is given the date of 1970-01-01 |
| CivilDays.DailyBoundaries | crates/busytok-domain/src/timezone.rs:217-232 | the windows are those of the consecutive days asked for |
| CivilDays.BoundariesTile | crates/busytok-domain/src/timezone.rs:217-232 | they tile their range: every time in it is in exactly one, from 1970 on that of its local date |
| CivilDays.WholeHourIffNoSplit | crates/busytok-domain/src/timezone.rs:105-110 | an offset is of whole hours if and only if no UTC hour holds times of two local days |
| ShellQuoting.ChainIsOnePass | apps/cli/src/shim.rs:359-364 | the four replacements are one pass from left to right |
| ShellQuoting.QuotedReadsBack | apps/cli/src/shim.rs:355-364 | read under the shell's double-quote rules the quoted text is the original, with no active character |
| ShimGuarantees.BlockPrependsDirectory | apps/cli/src/shim.rs:367-375 | the block is a comment, one assignment and a comment, and read by a shell the assignment puts the directory in front of whatever PATH was |
| ShimPath.SetupText | apps/cli/src/shim.rs:272-281 | a file with the block is left alone; otherwise the block follows the text and its newline |
| ShimPath.StripPathBlock | apps/cli/src/shim.rs:383-416 | an unbalanced file is left alone; otherwise the loop keeps the lines outside, trimmed at the end |
| ShimGuarantees.RemovingUndoesAdding | apps/cli/src/shim.rs:254-281 | for every marker-free text and directory, adding the block and removing it leaves what removal would leave anyway |
| ShimGuarantees.RoundTripIff | apps/cli/src/shim.rs:367-416 | the file is restored exactly if it ends with one newline and no other whitespace, and no line ends with a carriage return |
| ShimGuarantees.StripKeepsOutside | apps/cli/src/shim.rs:398-416 | with markers on whole lines, BEGIN and END in turn, exactly the lines outside are kept |
| ShimGuarantees.StripIsIdempotent | apps/cli/src/shim.rs:398-416 | on such a text a second removal changes nothing |
| ShimGuarantees.StripKeepsUnopened | apps/cli/src/shim.rs:400-413 | on every balanced text the lines kept are those that are no markers and have no BEGIN before them without an END between |
| ShimGuarantees.UnterminatedLeftAloneIff | apps/cli/src/shim.rs:383-396 | for every text with a BEGIN line that no END line follows, removal leaves the file alone if and only if the counts of the two markers differ |
| ShimGuarantees.IndentedEndLosesTail | apps/cli/src/shim.rs:384-396 | with any text before the END on its line, but a `#`, the whole rest of the file is lost |
| ShimGuarantees.ReversedMarkersLoseTail | apps/cli/src/shim.rs:384-396 | with END before BEGIN everything after the BEGIN is lost |

## Left out

- The mock `turn_auto` path, which never calls `sendTurn`; its pool calls are those of the real path.
- `last_used_at_ms`, `created_at_ms`, the resolved provider, logging and the text of errors, which nothing reads back.
- Error classification by message: an SDK failure is one of the error classes, chosen freely.
- The defensive branches at session_pool.ts:174-177 and 291 are proved dead, so `SessionPool` has no code for them.
- The interleaving of handlers is modelled on values (`World`); only the pool, the session objects and the handler's stretches are classes and methods.
- The factory's promise to return a fresh adapter id for the subagent asked for is an assumption.
- The two equal copies of each accumulation loop in mutations.rs are modelled once.
- The id strings of blocks, the JSON of model lists and the realtime summary.
- `f64` rounding and `i64` overflow.
- Burn rate, `summary.rs`, cache metrics and event parsing: single-branch facts or floating point.
- IANA time zones and the calendar arithmetic of the date libraries, with their range errors.
- A negative day count for `daily_boundaries`, which panics in the source.
- The in-memory backend of `ReadService`, its logging, and a closed semaphore.
- File access and atomic writes around the PATH block.
- The accessors `isPending`, `get`, `size` and `toArray`.
