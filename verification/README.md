# Verification of the Umbral core protocols

A Dafny project that models the parts of Umbral whose correctness spans several operations, and proves what
every run of them keeps. `dafny verify dfyconfig.toml` checks all of it.

| component | files | what is proved |
|---|---|---|
| durable job runtime | `JobModel`, `JobInvariant`, `JobHistory`, `JobRows`, `JobEffects`, `JobRecovery`, `JobLimits`, `JobSchedule`, `JobRuntime`, `JobWorkers` | lease, retry, outbox and schedule protocol as a state machine; safety over all runs, recoverability, exactly-once handler invocation per attempt; the class with its dictionaries refines the state machine |
| magic links | `MagicLinkModel`, `MagicLinkInvariant`, `MagicLinkHistory`, `MagicLinkEffects`, `IdentityAccess` | issuance and confirmation as interleaved transactions with a program counter per call; uniqueness, supersession order, sessions and people; every session of every run was proven |
| object versions | `ObjectModel`, `ObjectHistory`, `ObjectRuntime` | metadata and bytes under crashes at every step; references that stay readable; reconciliation |
| scoring | `ScoringEvaluators`, `ScoringPolicy`, `ScoringEngine`, `ScoringMeaning`, `ScoringConfidence`, `ScoringRanking`, `ScoringDocuments` | policies and their documents, scores and confidences written out, bounds of scores and confidences, independence of both input orders |
| import capture | `ImportContract`, `ImportCapture`, `ImportReplay` | replay after interruption, when the counters and rows of a replay agree with an undisturbed pass, counters against the quality report |

`Collections` and `Documents` hold optional values, insertion-ordered dictionaries, list selection and decoded values.

## How to read the model

State is a value (`State`, `Store`, `World`), an operation is a function on it, and any interleaving of callers is a
sequence of steps: each method of the job runtime holds one lock, each transaction of the identity store is
serializable, each repository or provider call of the object service is atomic. The classes hold the mutable
dictionaries and loops of the source, and each method is proved to take the state to the value its function gives;
the theorems about the functions therefore hold of the classes.

Instants are whole microseconds. A fresh UUID is a parameter, and a step that would reuse one does nothing. A hash, a
case folding, a URL pattern, a date or number parser is a function parameter, so the theorems hold for every choice.

## Findings

- `record_outcome` clears the lease before the result is checked. A refused result leaves the execution RUNNING with no
  lease, which neither claim nor reap recovers (`JobLimits.RefusedResultWedges` gives a run, `JobLimits.WedgesExactly`
  says when, `JobLimits.WedgedForever` that it lasts). The steps of the model include it, and the safety theorems hold
  with it.
- The CHECK constraint `ck_job_executions_running_lease` admits a RUNNING row whose lease columns are both null, so the
  database does not notice that condition; `JobLimits.SchemaOk` states the constraint as declared.
- `complete` breaks the invariant on every execution that has not ended (`JobLimits.CompleteKeepsInvIff`).
- A due schedule whose submission is refused makes a tick raise once the backlog registered before it is used up, so
  schedules registered after it do not fire; those before it still do (`JobSchedule.TicksThenSettle` says exactly when a
  tick returns 0, `JobSchedule.UnregisteredScheduleRaises` gives an input). A scheduler pass raises with it and skips the
  relay, so as long as the backlog before such a schedule stays below the limit no pass publishes anything
  (`JobWorkers.StuckPassRelaysNothing`).
- An attempt whose issuance dies between its two transactions stays issuing for ever, and only such an attempt does
  (`MagicLinkHistory.IssuingCanEndIff`).
- Both identity stores of the repository roll back when a transaction body raises, so with them an attempt found expired
  is not saved as such; the model allows commit and rollback alike (`commit` in `MagicLinkModel.OpenConfirm`).
- The foreign key of the attempts refuses to let the retention statement delete a request that an attempt refers to, and
  attempts are never deleted by the service; from the first such request whose time has come on, retention in the SQL
  store deletes nothing (`MagicLinkEffects.RetentionFails` gives a run, `MagicLinkEffects.PurgeDeletes` says exactly when it
  happens, `MagicLinkEffects.PurgeStopsForGood` that it stays so).
- Replaying an interrupted import gives the same snapshots in the same order, but the counters and the quarantine need
  not agree with an undisturbed pass. Accepted records and duplicates agree exactly when no interrupted pass reached a
  valid new record, missing fields exactly when none was captured with gaps, and quarantine rows exactly when no
  interrupted pass reached a parse error or an invalid record that is not a duplicate (`ImportReplay.AcceptedAgreeIff`,
  `ImportReplay.DuplicatesAgreeIff`, `ImportCapture.MissingMatchesReportIff`, `ImportReplay.QuarantineAgreesIff`; inputs
  in `ImportCapture.ReplayUndercounts` and `ImportReplay.ReplayRefusesTwice`).
- The policy parser accepts a negative `unknown_penalty`, and with one the confidence of a candidate can exceed 1
  (`ScoringConfidence.NegativePenaltyEscapes`); `ScoringConfidence.ConfidenceInUnitIff` gives the exact bound on the
  penalty under which it cannot.

## Model

| member | source | states |
|---|---|---|
| `JobInvariant.StepInv` | src/umbral/application/jobs/service.py:118-480 | every operation, in any order, keeps the protocol invariant: rows exist for attempts 1..attempt_count and for the next one exactly while the execution waits, attempts are consecutive in time, only the last can be open, index and executions are inverse |
| `JobInvariant.RunInv` | src/umbral/application/jobs/service.py:83-480 | the invariant holds after every sequence of atomic operations by any number of callers |
| `JobInvariant.RelayWritesOnlyWaiting` | src/umbral/application/jobs/service.py:347-353 | the unconditional write of QUEUED only ever reaches an execution that is PENDING, QUEUED or RETRY_WAIT |
| `JobInvariant.RetryInv` | src/umbral/application/jobs/service.py:284-299 | the outbox row a retry writes did not exist before, and writing it keeps the invariant |
| `JobInvariant.ReopenInv` | src/umbral/application/jobs/service.py:366-376 | a published row has refusals to spare, so reopening never takes the exhausted branch |
| `JobHistory.StepMoves` | src/umbral/application/jobs/service.py:195-299 | one operation does one of five things to an existing execution: nothing, queue it, open its next attempt, end the open attempt, or clear its lease |
| `JobHistory.RunEvolves` | src/umbral/application/jobs/service.py:195-480 | along every run identity is fixed, attempts only grow, closed attempts are final and terminal executions stay |
| `JobHistory.TerminalIsFinal` | src/umbral/application/jobs/service.py:207-220 | once SUCCEEDED or FAILED no later operation changes anything about the execution, republished stale rows included |
| `JobHistory.RetryNeverStartsEarly` | src/umbral/application/jobs/service.py:222-229 | the next attempt never starts before the due time fixed when the previous one ended, even after relay moved RETRY_WAIT to QUEUED |
| `JobHistory.ClaimsAreConsecutive` | src/umbral/application/jobs/service.py:195-241 | granted claims are attempts 1, 2, 3, ... without repeat or gap, and never more than max_attempts, although claim does not look at the bound |
| `JobHistory.AttemptEndsOneWay` | src/umbral/application/jobs/service.py:243-299 | an open attempt ends by the outcome of the claim that holds its lease or by abandonment after the lease, and in no other way |
| `JobHistory.AttemptEndsOnce` | src/umbral/application/jobs/service.py:243-299 | over a whole run an attempt is closed once, or not at all while it is still open |
| `JobHistory.ClosedForever` | src/umbral/application/jobs/service.py:243-299 | a closed attempt stays closed |
| `JobRecovery.NothingIsForgotten` | src/umbral/application/jobs/service.py:284-295 | an execution that is neither finished nor wedged is leased or has a row for its next attempt that is pending, published, or failed after exactly 100 refusals |
| `JobRecovery.ReapClearsLeases` | src/umbral/application/jobs/service.py:386-401 | a full reap past every deadline leaves no lease behind, and it ends for good only executions that were running their last attempt |
| `JobRecovery.RebuildReopens` | src/umbral/application/jobs/service.py:361-377 | after a full rebuild no row is published and every row that was is pending and due |
| `JobRecovery.RoundsEffect` | src/umbral/application/jobs/service.py:311-355 | enough relay rounds to an accepting queue send exactly the due rows, each once, in order |
| `JobRecovery.RecoveryIsComplete` | src/umbral/application/jobs/relay.py:18-34 | reap, rebuild and repeated relay leave every execution finished or wedged as it was, failed if it lost its last attempt, or waiting with its row exhausted, backing off, or in flight and claimable |
| `JobRows.StepMovesRows` | src/umbral/application/jobs/service.py:326-376 | one operation publishes a due row, counts one refusal and puts the row off by 1, 2, 4, ... and at most 300 seconds, reopens a published row, or leaves the row as it is; it drops none |
| `JobRows.RunKeepsRows` | src/umbral/application/jobs/service.py:154-158 | along every run no row is dropped; its due time changes only with a refusal and then to a later one, refusals only accumulate, an exhausted row is final, and only the hundredth refusal exhausts one |
| `JobHistory.NextAttemptWaitsForItsBackoff` | src/umbral/application/jobs/service.py:259-288 | after a transient failure of attempt k, attempt k + 1 starts no earlier than the end of attempt k plus 1, 2, 4, ... and at most 300 seconds, or what the handler asked for, along every run |
| `JobLimits.ReachableStates` | alembic/versions/0001_foundation_runtime.py:192-216 | every reachable state meets the table constraints, the identity index is the exact inverse of the executions, and no published row is exhausted |
| `JobLimits.WedgesExactly` | src/umbral/application/jobs/service.py:259-263 | an execution becomes RUNNING without a lease exactly when the holder of its lease returns a value the JSON check refuses |
| `JobLimits.RefusedResultWedges` | src/umbral/application/jobs/service.py:259-263 | a concrete run of one submission, one claim and one refused value that ends in such an execution |
| `JobLimits.WedgedForever` | src/umbral/application/jobs/service.py:389-399 | such an execution is never claimed, recorded or reaped again |
| `JobLimits.CompleteKeepsInvIff` | src/umbral/application/jobs/service.py:301-309 | `complete` keeps the protocol invariant if and only if the execution has already ended |
| `JobLimits.CompleteIsUndoneByRelay` | src/umbral/application/jobs/service.py:301-353 | after `complete` on a waiting execution, a relay whose batch holds the next row and has it accepted puts QUEUED over SUCCEEDED and makes it claimable again; any other relay leaves it SUCCEEDED |
| `JobSchedule.PlannedIsQuotient` | src/umbral/application/jobs/service.py:433-456 | a fixed-interval schedule due at an instant owes floor((now - next) / interval) + 1 occurrences |
| `JobSchedule.TickMeaning` | src/umbral/application/jobs/service.py:433-456 | one tick fires one occurrence while there is a backlog, and otherwise changes nothing |
| `JobSchedule.TicksFireTheBacklog` | src/umbral/application/jobs/service.py:433-456 | k ticks at one instant fire exactly min(k, backlog) times |
| `JobSchedule.TicksThenSettle` | src/umbral/application/jobs/service.py:433-456 | once the backlog is used up a tick returns 0 if and only if no due schedule has a submission that is refused |
| `JobSchedule.UnregisteredScheduleRaises` | src/umbral/application/jobs/service.py:440-450 | a concrete due schedule of an unregistered type, whose ticks raise, the first and all later ones |
| `JobSchedule.TicksSubmit` | src/umbral/application/jobs/service.py:440-455 | the occurrences of a burst have pairwise different second-truncated keys; those filed before keep their executions and exactly the others become new ones |
| `JobRuntime.InMemoryJobRuntime.constructor` | src/umbral/application/jobs/service.py:86-107 | a new runtime is the empty state and satisfies the invariant |
| `JobRuntime.InMemoryJobRuntime.AdvanceTime` | src/umbral/application/jobs/service.py:112-117 | time only moves forward; a negative step raises |
| `JobRuntime.InMemoryJobRuntime.Submit` | src/umbral/application/jobs/service.py:118-161 | existing identities are returned unchanged, new ones get an execution and the row of attempt 1; refused identities raise and change nothing |
| `JobRuntime.InMemoryJobRuntime.Claim` | src/umbral/application/jobs/service.py:195-241 | a claim is granted exactly for the next attempt of a due waiting execution; an expired lease is abandoned, anything else changes nothing |
| `JobRuntime.InMemoryJobRuntime.RecordOutcome` | src/umbral/application/jobs/service.py:243-299 | only the holder of a live lease ends its attempt; a refused result raises after the lease is gone |
| `JobRuntime.InMemoryJobRuntime.RelayDue` | src/umbral/application/jobs/service.py:311-355 | due rows are published oldest first up to the limit; the counts and the sent messages are exact |
| `JobRuntime.InMemoryJobRuntime.RebuildOutbox` | src/umbral/application/jobs/service.py:361-377 | published rows are reopened up to the limit |
| `JobRuntime.InMemoryJobRuntime.ReapExpired` | src/umbral/application/jobs/service.py:386-401 | executions with expired leases are abandoned up to the limit |
| `JobRuntime.InMemoryJobRuntime.RegisterSchedule` | src/umbral/application/jobs/service.py:403-431 | a schedule is stored enabled and unfired unless its interval is below 60 seconds |
| `JobRuntime.InMemoryJobRuntime.ScheduleTick` | src/umbral/application/jobs/service.py:433-456 | the first due schedule in registration order is submitted and advanced |
| `JobWorkers.HandlersRunOnce` | src/umbral/workers/worker.py:37-90 | whatever is delivered, lost, repeated or reordered, and with any number of workers, each (execution, attempt) invokes its handler at most once and no execution more than max_attempts times |
| `JobWorkers.EffectsAreFinal` | src/umbral/application/jobs/reference.py:29-43 | an effect once recorded is never changed |
| `JobWorkers.OneEffectPerExecution` | src/umbral/application/jobs/reference.py:45-66 | every reference execution that succeeded left its one effect and returned it, whatever attempts were lost or retried |
| `JobWorkers.NewWorldIsOk` | src/umbral/workers/worker.py:25-36 | a runtime that has just started satisfies the conditions the worker theorems begin from |
| `JobWorkers.InMemoryWorker.Process` | src/umbral/workers/worker.py:37-90 | processing a message is a claim and, if granted, the record of what its handler answered |
| `JobWorkers.RedeliveryIsHarmless` | src/umbral/workers/worker.py:37-90 | a message processed once is refused ever after |
| `JobWorkers.DrainDue` | src/umbral/workers/scheduler.py:48-53 | the bounded loop fires min(limit, backlog) occurrences |
| `JobWorkers.SchedulerOnce` | src/umbral/workers/scheduler.py:35-65 | reap, fire, relay in that order; the report is min(limit, due); the pass raises exactly for a bad limit or a refused due submission, and then it has reaped and ticked but not relayed |
| `JobWorkers.StuckPassRelaysNothing` | src/umbral/workers/scheduler.py:48-54 | while a refused schedule is due behind a backlog below the limit, a pass leaves every outbox row as it was and the schedule refused |
| `JobWorkers.ReapPending` | src/umbral/workers/scheduler.py:46-53 | reaping first does not change how many occurrences are due |
| `JobLimits.AttemptsNeverOverlap` | src/umbral/application/jobs/service.py:208-229 | in every reachable state each attempt finished before the next one started, and only the last can be running, exactly when the execution is |
| `JobLimits.ResultIffSucceeded` | src/umbral/application/jobs/service.py:259-299 | in every reachable state a result exists exactly when the execution succeeded, and a retry waits between 0 and 300 seconds after its last attempt |
| `JobModel.BackoffWrittenOut` | src/umbral/application/jobs/service.py:278-288 | the delay before a retry is 1, 2, 4, ..., 256 and from the tenth failure on 300 seconds, or what the handler asked for cut to 0..300 |
| `JobEffects.SubmitFiles` | src/umbral/application/jobs/service.py:138-161 | a refused submission and one for existing work change nothing; a new one is a pending execution with the attempts and correlation asked for, its first row due at once |
| `JobEffects.ResolveMeans` | src/umbral/application/jobs/service.py:120-137 | unknown types and refused targets are refused, a target the handler leaves alone leaves the identity alone, and the key is never changed |
| `JobEffects.ClaimOpens` | src/umbral/application/jobs/service.py:215-230 | a granted claim opens the next attempt for the worker with a lease of exactly the configured seconds and touches nothing else |
| `JobEffects.ClaimRefused` | src/umbral/application/jobs/service.py:203-216 | any other claim changes nothing, unless it is for the attempt after an expired lease, which it abandons |
| `JobEffects.OnlyTheHolderRecords` | src/umbral/application/jobs/service.py:250-257 | an outcome changes the state if and only if it comes from the worker that holds the unexpired lease of that attempt |
| `JobEffects.ReturnedSucceeds` | src/umbral/application/jobs/service.py:258-269 | a returned value ends the execution as SUCCEEDED with that value |
| `JobEffects.RejectedWedges` | src/umbral/application/jobs/service.py:258-263 | a refused value leaves the execution RUNNING without a lease and its attempt with an end |
| `JobEffects.PermanentFails` | src/umbral/application/jobs/service.py:271-299 | a permanent or unclassified failure is final however many attempts are left, with its code, and adds no row |
| `JobEffects.TransientRetries` | src/umbral/application/jobs/service.py:271-299 | a transient failure waits with a new row for the next attempt, due after the delay written out, while one is left, and is final at the bound |
| `JobEffects.AbandonGivesUp` | src/umbral/application/jobs/service.py:458-480 | an attempt whose lease ran out is abandoned and the next one waits, due now, while one is left; at the bound the execution fails |
| `JobEffects.ReapGivesUp` | src/umbral/application/jobs/service.py:386-401 | one pass of the reaper does that to exactly the first executions, up to the limit, whose lease ran out, and leaves the others and every existing row as they were |
| `JobEffects.ReapEndsOnlyTheExhausted` | src/umbral/application/jobs/service.py:467-480 | after a full reap an execution has failed only if it had before or lost its last attempt |
| `JobEffects.RelayOffers` | src/umbral/application/jobs/service.py:319-353 | exactly the first rows, up to the limit, that are pending, due and refused less than 100 times are offered; accepted ones are published, refused ones put off as written out or given up at the hundredth time |
| `JobEffects.RelayQueues` | src/umbral/application/jobs/service.py:345-353 | a relay queues exactly the executions whose next row was offered and accepted |
| `JobEffects.RebuildReturns` | src/umbral/application/jobs/service.py:361-377 | a rebuild makes exactly the first published rows, up to the limit, pending again with due time and refusals kept |
| `JobEffects.TickFiresTheFirst` | src/umbral/application/jobs/service.py:433-456 | a tick submits the occurrence of the first due schedule under its planned second, with its attempts, and plans the next one, or none for a one-shot schedule |
| `JobEffects.AddScheduleStores` | src/umbral/application/jobs/service.py:414-431 | a schedule is stored as given, enabled and never fired, unless its interval is under a minute |
| `JobWorkers.ProcessIsThreeEvents` | src/umbral/workers/worker.py:37-90 | processing with nobody interleaving is a delivery, a handling and a recording in the world of workers, so the theorems about worlds hold of the loop |
| `JobWorkers.ProcessIgnores` | src/umbral/workers/worker.py:37-52 | a message for unknown work, of another correlation or not to be claimed reaches no handler, and only the first raises |
| `JobWorkers.ProcessRecordsTheAnswer` | src/umbral/workers/worker.py:53-73 | a job whose type has a handler ends as the handler answers: its value as the result, or its failure |
| `JobWorkers.ProcessWithoutHandler` | src/umbral/workers/worker.py:55-62 | a job whose type has no handler fails for good with job.handler_not_registered |
| `JobRuntime.InMemoryJobRuntime.AbandonLocked` | src/umbral/application/jobs/service.py:458-480 | the open attempt ends as abandoned, and the execution waits at once or fails when its attempts are used up |
| `JobRuntime.InMemoryJobRuntime.EndTransient` | src/umbral/application/jobs/service.py:278-299 | a transient failure writes the row of the next attempt after its backoff, or fails the execution at the bound |
| `JobRuntime.InMemoryJobRuntime.PublishRow` | src/umbral/application/jobs/service.py:326-355 | an accepted row is published and queues its execution only for the next attempt; a refusal backs off, the hundredth is final |
| `MagicLinkInvariant.StepInv` | src/umbral/application/identity/access.py:127-374 | every transaction, in any interleaving, keeps the invariant over requests, attempts, calls, people, links and sessions |
| `MagicLinkInvariant.RunInv` | src/umbral/application/identity/access.py:127-374 | the invariant holds after every interleaving of issuances, confirmations, requests and administration |
| `MagicLinkInvariant.ReachableInv` | src/umbral/application/identity/access.py:127-374 | it holds in every state reachable from an empty store |
| `MagicLinkInvariant.CloseFindsIssuing` | src/umbral/application/identity/access.py:231-239 | the attempt found by the closing transaction of an issuance is still issuing |
| `MagicLinkInvariant.CurrentIsOnly` | src/umbral/application/identity/access.py:235-239 | the current attempt the store answers with is the only issued one of the subject |
| `MagicLinkInvariant.CloseConfirmInv` | src/umbral/application/identity/access.py:314-374 | the confirming transaction keeps addresses, accepted invitations, external identities and sessions consistent |
| `MagicLinkInvariant.UninvitedAddressIsFree` | src/umbral/application/identity/access.py:341-349 | nobody already has the address of an invitation that is not accepted yet |
| `MagicLinkHistory.StepMoves` | src/umbral/application/identity/access.py:192-273 | one transaction moves an attempt along pending, issuing, issued and their ends, and rewrites no other field of its subject |
| `MagicLinkHistory.FinalIsFrozen` | src/umbral/application/identity/access.py:192-374 | consumed, superseded, expired and failed records never change along any run |
| `MagicLinkHistory.StrandedForever` | src/umbral/application/identity/access.py:192-195 | an issuing attempt whose call died between its transactions is never picked up again |
| `MagicLinkHistory.IssuingCanEndIff` | src/umbral/application/identity/access.py:192-273 | an issuing attempt leaves that state in some run exactly when some call between the issuing transactions owns it |
| `MagicLinkHistory.DropStrands` | src/umbral/application/identity/access.py:209-223 | losing the call after the opening transaction leaves the attempt in that condition |
| `MagicLinkHistory.LinksLeadToTheLatest` | src/umbral/application/identity/access.py:241-263 | the path along superseded_by from any attempt visits ever later requests of one subject and ends at an attempt that is not superseded |
| `MagicLinkHistory.TheLatestRequestIsIssued` | src/umbral/application/identity/access.py:235-273 | without confirmations, in whatever order provider calls return or fail, the issued attempt has the greatest (requested_at, request_id) of those delivered and all others are superseded |
| `MagicLinkHistory.OutcomeIgnoresOrder` | src/umbral/application/identity/access.py:235-273 | two histories that delivered the same attempts leave the same one issued |
| `MagicLinkHistory.DeliveryOrderIsIrrelevant` | src/umbral/application/identity/access.py:235-273 | two runs without confirmations that delivered the same attempts in different orders agree on which are issued and which superseded |
| `MagicLinkHistory.OpenIssuancesAreAlone` | src/umbral/application/identity/access.py:209-239 | in every reachable store an issuance between its transactions owns an attempt that is still issuing, and no other call owns it |
| `MagicLinkHistory.OneLinkPerSubject` | alembic/versions/0002_private_beta_identity.py:151-152 | at most one attempt per subject is issued |
| `MagicLinkHistory.SessionsMatchConsumed` | src/umbral/application/identity/access.py:360-371 | sessions and consumed attempts are in one-to-one correspondence |
| `MagicLinkHistory.ConsumedInTime` | src/umbral/domain/identity/models.py:133-140 | consumed_at < expires_at <= provider_generated_at + 15 minutes |
| `MagicLinkHistory.ReachablePeople` | src/umbral/application/identity/access.py:338-364 | addresses are distinct, an accepted invitation names its own user with the same address, an attempt has one subject, an external identity links to one user |
| `IdentityAccess.IdentityAccess.CurrentAttempt` | src/umbral/infrastructure/db/repositories/identity.py:829-847 | the latest issued attempt of the subject, or none when no attempt is issued |
| `IdentityAccess.IdentityAccess.InvitationForEmail` | src/umbral/infrastructure/db/repositories/identity.py:752-760 | an invitation for the address, or none when there is none |
| `IdentityAccess.IdentityAccess.UserForEmail` | src/umbral/infrastructure/db/repositories/identity.py:771-775 | a user with the address, or none when there is none |
| `IdentityAccess.IdentityAccess.LinkForSubject` | src/umbral/infrastructure/db/repositories/identity.py:780-793 | the link of an external identity, or none when it is unknown |
| `IdentityAccess.IdentityAccess.PreloadInvitation` | src/umbral/application/identity/administration.py:21-35 | an invitation for the address exists afterwards, new only if there was none |
| `IdentityAccess.IdentityAccess.RequestMagicLink` | src/umbral/application/identity/access.py:127-182 | the request is recorded with its decision, and an attempt for exactly one subject only when it is eligible |
| `IdentityAccess.IdentityAccess.BeginIssue` | src/umbral/application/identity/access.py:192-211 | a pending attempt becomes issuing, or failed when its subject may not receive it; the call raises exactly for a pending attempt of another correlation |
| `IdentityAccess.IdentityAccess.RefuseIssue` | src/umbral/application/identity/access.py:223-233 | a provider refusal fails the attempt |
| `IdentityAccess.IdentityAccess.FinishIssue` | src/umbral/application/identity/access.py:235-273 | the later request of the subject wins and the other is superseded by it |
| `IdentityAccess.IdentityAccess.BeginConfirm` | src/umbral/application/identity/access.py:277-293 | confirmation goes on exactly for an attempt that is current and valid |
| `IdentityAccess.IdentityAccess.FinishConfirm` | src/umbral/application/identity/access.py:314-374 | a session starts exactly when every check of the closing transaction passes |
| `IdentityAccess.IdentityAccess.FileRequest` | src/umbral/application/identity/access.py:138-182 | the request and its attempt are written as decided, failed at once when the job cannot be submitted |
| `IdentityAccess.IdentityAccess.SignIn` | src/umbral/application/identity/access.py:314-374 | user, invitation, link, attempt and session are written together or not at all |
| `MagicLinkEffects.DecisionMeans` | src/umbral/application/identity/access.py:137-152 | requests are limited from 3 for the address and 20 for the origin on, before eligibility is looked at, and eligible exactly for an open invitation or an active account of the address |
| `MagicLinkEffects.RequestFiles` | src/umbral/application/identity/access.py:153-182 | a request is recorded whatever is decided, and exactly when it is eligible an attempt is filed for the open invitation or else the account |
| `MagicLinkEffects.OpenIssueTakes` | src/umbral/application/identity/access.py:192-211 | a pending attempt is taken up, or failed when its subject cannot receive it; under another correlation and in any other state nothing changes |
| `MagicLinkEffects.FailIssueFails` | src/umbral/application/identity/access.py:223-233 | a refusal fails the attempt of the call, which is still issuing, with its reason |
| `MagicLinkEffects.CloseIssuesAlone` | src/umbral/application/identity/access.py:235-273 | without another issued link of the subject the link is issued, valid to the earlier of the expiry given by the provider and fifteen minutes after generation |
| `MagicLinkEffects.CloseComparesRequests` | src/umbral/application/identity/access.py:240-273 | of two links of one subject the one requested later is issued, ties by request identifier, and the other names it |
| `MagicLinkEffects.OpenConfirmChecks` | src/umbral/application/identity/access.py:277-293 | a link goes on to verification exactly while it is issued and unexpired |
| `MagicLinkEffects.MismatchChangesNothing` | src/umbral/application/identity/access.py:319-349 | a stale link, another address of the account, an accepted invitation or one for another address, and an external identity of somebody else each change nothing |
| `MagicLinkEffects.FittingProofSignsIn` | src/umbral/application/identity/access.py:350-372 | a fitting proof consumes the link, accepts the invitation, links the external identity and starts a session, all for the account of the subject |
| `MagicLinkEffects.SignsInIff` | src/umbral/application/identity/access.py:314-374 | a session starts if and only if the link is fresh and the proof has the address of the subject and an external identity of nobody else |
| `MagicLinkEffects.SessionsAreProven` | src/umbral/application/identity/access.py:275-374 | every session of every run was started by a confirmation whose proof names the address and the external identity its user still has at the end, and an accepted invitation has that address |
| `MagicLinkEffects.PurgeDeletes` | src/umbral/infrastructure/db/repositories/identity.py:707-711 | a purge deletes exactly the requests whose time has come, or none at all when an attempt refers to one of them, as the foreign key of the attempts demands |
| `MagicLinkEffects.PurgeStopsForGood` | alembic/versions/0002_private_beta_identity.py:131-131 | once some attempt has a request whose time has come, no purge along any later run deletes anything |
| `MagicLinkEffects.RetentionFails` | src/umbral/infrastructure/db/repositories/identity.py:707-711 | a concrete run of one invitation and one eligible request whose request a purge a day later does not delete |
| `ObjectHistory.StepOk` | src/umbral/application/objects/service.py:174-320 | every repository or provider step, crash and foreign write keeps the invariant, and only settles records and adds bytes |
| `ObjectHistory.RunOk` | src/umbral/application/objects/service.py:174-320 | so does every interleaving of puts, reconciliation passes, crashes and foreign writes |
| `ObjectHistory.ReturnedRefsOpenForever` | src/umbral/application/objects/service.py:260-266 | a reference once returned opens in every later state, to the same bytes, of its digest and size |
| `ObjectHistory.OneReferencePerVersion` | src/umbral/application/objects/service.py:342-350 | all references ever returned for one version are equal |
| `ObjectHistory.VersionsAreImmutable` | src/umbral/application/objects/service.py:53-127 | digest, size, type, purpose and creation time of a version never change; available records are frozen and failed ones stay failed |
| `ObjectHistory.PassesAddUp` | src/umbral/application/objects/service.py:276-320 | a pass takes no record twice, completed + failed + pending is the number taken, and with an age limit pending is 0 whatever else happens meanwhile |
| `ObjectHistory.OnlyMatchesAreCompleted` | src/umbral/application/objects/service.py:286-318 | a pass makes a record available only when the provider holds its exact bytes |
| `ObjectRuntime.PutAloneIsPut` | src/umbral/application/objects/service.py:174-258 | taken without interruption the steps of a put amount to the service method |
| `ObjectRuntime.PutSucceedsIff` | src/umbral/application/objects/service.py:196-258 | with a provider that answers, a put returns a reference if and only if the bytes are as declared, whatever the case of the digest, the type is normal once stripped and in lower case, and neither the record nor the key holds anything else or has failed |
| `ObjectRuntime.PutReturns` | src/umbral/application/objects/service.py:174-258 | whatever the provider does, a reference that is returned opens to the content that was put |
| `ObjectRuntime.ReconcileDecides` | src/umbral/application/objects/service.py:276-320 | one quiet pass completes records whose exact bytes exist, fails those with other bytes, and fails missing ones when an age limit is given |
| `ObjectRuntime.PassCountsDue` | src/umbral/application/objects/service.py:129-137 | the counters of a quiet pass add up to the records that were eligible when it began |
| `ObjectRuntime.VersionedObjects.constructor` | src/umbral/application/objects/service.py:158-172 | a new service has no versions and satisfies the invariant |
| `ObjectRuntime.VersionedObjects.Put` | src/umbral/application/objects/service.py:174-258 | the reference, the records and the bytes are those of the specification; a fair provider succeeds exactly when the put is acceptable |
| `ObjectRuntime.VersionedObjects.OpenRef` | src/umbral/application/objects/service.py:260-266 | bytes that come back have the digest and size of the reference, and a returned reference opens |
| `ObjectRuntime.VersionedObjects.ReconcilePending` | src/umbral/application/objects/service.py:276-320 | the tally equals the eligible records, nothing is left pending under an age limit, and every record is decided by what the provider holds |
| `ObjectRuntime.SettleDecides` | src/umbral/application/objects/service.py:276-320 | a pass decides every record it still has to see and no other |
| `ObjectRuntime.VersionedObjects.CreatePendingRecord` | src/umbral/application/objects/service.py:53-89 | a version is created pending once; asking again returns it, or conflicts when the content differs |
| `ObjectRuntime.VersionedObjects.MarkAvailableRecord` | src/umbral/application/objects/service.py:91-111 | only a pending version becomes available; an available one must name the same bytes and a failed one refuses |
| `ObjectRuntime.VersionedObjects.MarkFailedRecord` | src/umbral/application/objects/service.py:113-127 | any version that is not available becomes failed; an available one is returned and a missing one is an error |
| `ObjectRuntime.VersionedObjects.Transfer` | src/umbral/application/objects/service.py:221-239 | the bytes are written if absent and then looked at; errors leave the record to the caller |
| `ObjectRuntime.VersionedObjects.RunPass` | src/umbral/application/objects/service.py:276-320 | the loop over the records is the pass of the state machine taken without interruption |
| `ObjectRuntime.RefusedIff` | src/umbral/application/objects/service.py:190-207 | a put is refused before anything is written exactly for a type that is not a plain one, bytes not as declared, or a record that has other content or failed |
| `ObjectRuntime.FailedPutLeaves` | src/umbral/application/objects/service.py:221-239 | whatever the provider does, a refused put changes nothing, one that goes wrong later leaves its record failed with the code of the error, or pending after a conflict, and no other record changes |
| `ScoringEvaluators.RoundToIsNear` | src/umbral/application/scoring/engine.py:129-157 | decimal rounding moves a number by at most half a unit of its last digit |
| `ScoringEvaluators.RoundToStays` | src/umbral/application/scoring/engine.py:157-157 | rounding keeps a number in [0, 1], and one capped at 0.6 at most 0.6 |
| `ScoringEvaluators.FixedFitInUnit` | src/umbral/application/scoring/evaluators.py:92-145 | fixed criteria score and trust within [0, 1] for every profile and listing |
| `ScoringEvaluators.ObservedFitInUnit` | src/umbral/application/scoring/evaluators.py:148-164 | observation criteria score within [0, 1] when the observation does |
| `ScoringPolicy.ParseCriterion` | src/umbral/application/scoring/policy.py:125-174 | an entry parses without error exactly when it is in order and its key is new |
| `ScoringPolicy.ParseCriteria` | src/umbral/application/scoring/policy.py:82-98 | the list is accepted exactly when every entry is in order, keys differ and weights add up to 1 within 1e-6 |
| `ScoringPolicy.CollectCriteria` | src/umbral/application/scoring/policy.py:84-88 | the loop reports no error exactly when every entry is in order and no key repeats |
| `ScoringPolicy.ParseDeltas` | src/umbral/application/scoring/policy.py:177-210 | adjustments are accepted exactly when each names a known criterion, a state and a delta within 0.2 |
| `ScoringPolicy.ParseTieBreak` | src/umbral/application/scoring/policy.py:213-224 | a tie-break is accepted exactly when it starts with the score and uses supported keys |
| `ScoringPolicy.ParsePolicy` | src/umbral/application/scoring/policy.py:68-118 | a document is accepted exactly when it meets every rule; the policy is then the one the document spells out, entry by entry, and its weights, keys, deltas and digits are within their bounds |
| `ScoringEngine.ScoreCandidate` | src/umbral/application/scoring/engine.py:102-170 | stopping at the first excluding mismatch gives the score and evaluations of the definition without early exit |
| `ScoringEngine.Evaluate` | src/umbral/application/scoring/engine.py:115-141 | the loop excludes exactly when some excluding criterion mismatches, and otherwise sums every contribution |
| `ScoringEngine.ApplyDeltas` | src/umbral/application/scoring/engine.py:250-260 | bonuses and penalties are added exactly for criteria in their state |
| `ScoringEngine.CapAndRound` | src/umbral/application/scoring/engine.py:142-157 | either cap brings the total to at most 0.6 before it is clamped and rounded |
| `ScoringEngine.WeightedSumBounds` | src/umbral/application/scoring/engine.py:124-130 | for an accepted policy and unit scores the weighted sum lies in [0, 1 + 1e-6 + n * 5e-7] |
| `ScoringEngine.ScoreBounds` | src/umbral/application/scoring/engine.py:142-157 | the score lies in [0, 1] whatever the adjustments, and a triggered cap keeps it at most 0.6 after rounding |
| `ScoringEngine.CriteriaOrderIsIrrelevant` | src/umbral/application/scoring/engine.py:115-159 | listing the criteria in another order changes neither exclusion nor score nor confidence |
| `ScoringConfidence.ConfidenceInUnitIff` | src/umbral/application/scoring/engine.py:278-287 | all candidates of a policy have a confidence in [0, 1], for observations trusted within [0, 1], exactly when its penalty keeps the worst case, all that can be unknown being unknown, within the slack of three-digit rounding |
| `ScoringConfidence.ConfidenceInUnit` | src/umbral/application/scoring/engine.py:278-287 | in particular for every accepted policy whose unknown_penalty is not negative |
| `ScoringConfidence.ConfidenceAtMostOneIff` | src/umbral/application/scoring/engine.py:278-287 | over all evaluation lists of n criteria the confidence is at most 1 exactly when -penalty * n <= 1.0005 |
| `ScoringConfidence.FitTrust` | src/umbral/application/scoring/evaluators.py:43-164 | an unknown criterion has confidence 0, the location is never unknown, and every confidence lies in [0, 1] when those of the observations do |
| `ScoringConfidence.NegativePenaltyEscapes` | src/umbral/application/scoring/policy.py:227-238 | a concrete accepted document with a negative penalty under which a candidate has confidence 2 |
| `ScoringRanking.ScoreCandidates` | src/umbral/application/scoring/engine.py:62-99 | the result rearranges the candidates that were kept: best score first, at equal scores the cheaper listing first under the full tie-break, and then the smaller identifier |
| `ScoringRanking.RankingIsBestFirst` | src/umbral/application/scoring/engine.py:86-98 | every ranking is in that order, stated on scores, costs and identifiers alone |
| `ScoringRanking.OrderIsUnique` | src/umbral/application/scoring/engine.py:86-98 | candidates told apart by identifier have one order |
| `ScoringRanking.InputOrderIsIrrelevant` | src/umbral/application/scoring/engine.py:75-99 | any rearrangement of candidates with distinct identifiers gives the same sequence |
| `ScoringRanking.ResultHasExactlyTheUnexcluded` | src/umbral/application/scoring/engine.py:117-140 | a listing is in the result exactly when no excluding criterion mismatches, wherever it stands in the policy |
| `ScoringRanking.CostOfCandidate` | src/umbral/application/scoring/engine.py:290-294 | with distinct identifiers the cost looked up is the listing's own |
| `ScoringMeaning.RoundEvenIsNearestEven` | src/umbral/application/scoring/engine.py:157-157 | rounding gives a nearest whole number of units, and the even one of two equally near |
| `ScoringMeaning.BudgetMeans` | src/umbral/application/scoring/evaluators.py:108-116 | a budget is missed exactly by a known cost above it, the score is the share of the budget left to four digits, and a cheaper listing never scores lower |
| `ScoringMeaning.RoomsMean` | src/umbral/application/scoring/evaluators.py:117-124 | rooms never mismatch, and only the exact number, or no wish, scores in full |
| `ScoringMeaning.SurfaceMeans` | src/umbral/application/scoring/evaluators.py:125-139 | a surface is missed exactly below the minimum; above the maximum it scores 0.8, and 0.6 beyond half as much more |
| `ScoringMeaning.ZoneMeans` | src/umbral/application/scoring/evaluators.py:140-145 | a location matches exactly when a wished zone is the neighborhood up to letter case, and is trusted by its precision |
| `ScoringMeaning.RangeMeans` | src/umbral/application/scoring/evaluators.py:43-55 | a range is missed exactly below its minimum, and above its maximum the score is 0.7 |
| `ScoringMeaning.FeatureMeans` | src/umbral/application/scoring/evaluators.py:70-82 | a feature matches from its threshold on, which is one half unless another one but zero is given |
| `ScoringMeaning.ScoreWrittenOut` | src/umbral/application/scoring/engine.py:115-157 | a listing is scored exactly when no criterion bars it; the score is the sum of weight times score and of every delta whose criterion is in its state, cut to 0.6 exactly when a cap holds and otherwise to 1, rounded once |
| `ScoringMeaning.ConfidenceWrittenOut` | src/umbral/application/scoring/engine.py:278-287 | the confidence is the mean over the criteria less the penalty once for each unknown one, not below zero, to three digits |
| `ScoringDocuments.ReadsBack` | src/umbral/application/scoring/policy.py:68-118 | every policy that keeps the bounds and names known matchers has a document that is accepted and read back as that policy |
| `ScoringDocuments.AcceptedIsWritable` | src/umbral/application/scoring/policy.py:68-118 | every accepted document is read as such a policy, so these are exactly the policies there are |
| `ScoringDocuments.SilenceMeans` | src/umbral/application/scoring/policy.py:227-238 | a document that says nothing means four digits and a penalty of 0.2, which a penalty of zero also means |
| `ImportContract.ValidateRecord` | src/umbral/application/ingestion/import_contract.py:180-204 | valid exactly when every field is in order, the first issue is that of the first bad field, and missing counts the absent optional fields |
| `ImportContract.ValueInOrderIff` | src/umbral/application/ingestion/import_contract.py:231-323 | a value is accepted if and only if it keeps every bound of its type: length, range, whole number, listed value, URL, date, and each item of a list |
| `ImportContract.ValueIssueCode` | src/umbral/application/ingestion/import_contract.py:254-303 | a wrong type is reported before a broken bound, and each type has its code |
| `ImportContract.FirstIssueIs` | src/umbral/application/ingestion/import_contract.py:184-199 | what is reported of an invalid record is its first field not in order: missing, or with a bad value |
| `ImportContract.CountMissingByName` | src/umbral/application/ingestion/import_contract.py:207-217 | the report names exactly the optional fields some payload lacks, with how many do |
| `ImportContract.CountField` | src/umbral/application/ingestion/import_contract.py:211-216 | one optional field is counted over all payloads and named only when some payload lacks it |
| `ImportContract.ReportAddsUp` | src/umbral/application/ingestion/import_contract.py:180-217 | counted field by field or record by record, missing fields add up to the same number |
| `ImportCapture.CaptureMeans` | src/umbral/application/ingestion/service.py:226-283 | a record stored already is a duplicate whether in order or not; any other one is stored with its gaps counted when each field is in order, and quarantined under its identifier for its first fault when not |
| `ImportCapture.PassKeys` | src/umbral/application/ingestion/service.py:226-283 | after n records the stored keys are those that were there and those of the valid records |
| `ImportReplay.ReplayGivesTheSameSnapshots` | src/umbral/application/ingestion/service.py:226-283 | interrupted anywhere, any number of times, and replayed, a run stores exactly the snapshots of an undisturbed pass, in the same order |
| `ImportReplay.ReplayStoresEachKeyOnce` | src/umbral/application/ingestion/service.py:226-283 | they are those stored before and the valid records, and no key is stored twice |
| `ImportReplay.ReplayAmongOtherRuns` | src/umbral/application/ingestion/service.py:235-241 | when other runs of the source store snapshots between the passes, the last pass leaves the keys that were there, theirs and those of the valid records, each once |
| `ImportReplay.AcceptedAgreeIff` | src/umbral/application/ingestion/service.py:302-307 | a replay accepts as many records as an undisturbed pass exactly when no interrupted pass reached a record that was valid and new |
| `ImportReplay.DuplicatesAgreeIff` | src/umbral/application/ingestion/service.py:302-307 | it counts as many duplicates exactly on the same condition |
| `ImportReplay.QuarantineAgreesIff` | src/umbral/application/ingestion/service.py:243-299 | a replayed run leaves at least as many quarantine rows, and as many exactly when every interrupted pass settled each record it reached and reached no parse error |
| `ImportReplay.QuarantineAgreesIffNoFaultReached` | src/umbral/application/ingestion/service.py:243-299 | when records with one key are equally valid, that is exactly when no interrupted pass reached a parse error or an invalid record that is not a duplicate |
| `ImportReplay.ReplayRefusesTwice` | src/umbral/application/ingestion/service.py:243-259 | a concrete replay that leaves two quarantine rows where an undisturbed pass leaves one |
| `ImportReplay.Resume` | src/umbral/application/ingestion/service.py:226-283 | capturing from where an earlier pass stopped stores what capturing from the start stores |
| `ImportCapture.TotalsAddUp` | src/umbral/application/ingestion/service.py:284-309 | accepted + quarantined + duplicates is the batch total, and accepted and quarantined are numbers of new rows |
| `ImportCapture.MissingMatchesReportIff` | src/umbral/application/ingestion/service.py:302-307 | missing_fields equals the report's total if and only if the run's earlier passes captured no record with an optional field missing |
| `ImportCapture.SinglePassMatchesReport` | src/umbral/application/ingestion/service.py:302-307 | it does for a single undisturbed pass of a new run |
| `ImportCapture.ReplayUndercounts` | src/umbral/application/ingestion/service.py:232-242 | a concrete replay whose tally is one duplicate and no missing field, while the undisturbed tally is one accepted record and the report says one missing field |
| `ImportCapture.ImportRunService.SnapshotExists` | src/umbral/application/ingestion/service.py:235-241 | whether a snapshot with the key is stored |
| `ImportCapture.ImportRunService.CaptureRecord` | src/umbral/application/ingestion/service.py:226-283 | one record becomes a duplicate, a quarantine row or a snapshot |
| `ImportCapture.ImportRunService.CaptureRecords` | src/umbral/application/ingestion/service.py:226-283 | the loop leaves what capturing the records one after another leaves |
| `ImportCapture.ImportRunService.CapturePartly` | src/umbral/application/ingestion/service.py:226-299 | a pass that stops leaves the rows of what it got through |
| `ImportCapture.ImportRunService.QuarantineParseErrors` | src/umbral/application/ingestion/service.py:284-299 | every parse error becomes one quarantine row |
| `ImportCapture.ImportRunService.Process` | src/umbral/application/ingestion/service.py:175-309 | finished runs are left alone; others are captured from the first record, fail on any permanent or unexpected fault with the rows written so far, and stay running when cut short |

## Left out

- JobModel.Record: returned values are opaque text, and a value that is not a bounded JSON object is the outcome `Rejected`; JSON rules are not modelled.
- JobModel.Submit: identifier normalizers are parameters; regular expressions and length limits are not modelled.
- JobModel.IdemKey: a caller's text key and a schedule's key are kept apart, while in the source a caller could pass the text a schedule would print; its submission would then be taken for the schedule's.
- JobLimits.Complete: kept out of the steps because it breaks the invariant, as the exact condition shows.
- JobWorkers.SchedulerOnce: the purge of identity requests at the end of the pass is the step `DoPurge` of the magic-link model instead, and heartbeats are left out.
- JobWorkers.InMemoryWorker.Process: telemetry signals are left out; a message that is not a well-formed job message is not part of the model.
- Job snapshots leave out the release and the list of submissions; `get`, `identity` and other plain reads are left out.
- MagicLinkModel.RequestLink: the rate-limit windows are two numbers the store answers with; fingerprints, audits and roles are left out.
- MagicLinkModel.CloseConfirm: verification of the proof by the provider, revocation of its session and address normalization happen before the step and can only end the call.
- MagicLinkModel.Purge: follows the SQL store, where deleting a request an attempt refers to is refused and the statement undone; the in-memory store deletes it and leaves the attempt without a request, and audit rows, which refer to requests as well, are left out.
- Sessions are not aged, logged out or revoked in the model; only their creation is.
- ObjectModel.PutIfAbsent: a provider reference is its key; adapters that hand out a new token per process, and the conflict that two tokens for one key would raise, are left out, as are provider versions and storage-key syntax.
- ObjectModel.UploadOf: lower case is that of ASCII letters and white space that of ASCII, which is all a digest or a media type uses; the digest function is taken to print in lower case, as a hexadecimal digest does.
- ObjectModel.MarkFailed: the failure code is stored as given, without the replacement of unusual characters.
- ObjectHistory.PassesAddUp: counts the verdicts of a pass; when another caller settles a record between the look and the mark, `failed` can include a record that is available.
- ScoringPolicy.ParsePolicy: says when a document is refused and that errors are given then, not which codes in which order; a criterion reference that Python cannot hash is refused here and raises a type error there.
- ScoringConfidence.ConfidenceInUnitIff: lets the total cost of a listing be unknown, as the evaluator does; where it never is, the stated bound is sufficient but not necessary for a policy with the budget criterion.
- Scores are exact reals with rounding to the decimal grid, ties to even; IEEE rounding, infinities and NaN are left out.
- Evaluation identifiers, evidence references, reason codes and the contributions mapping of a scored candidate are left out.
- ImportCapture.ImportRunService.Process: submission of the batch, file checks, publication dates, the normalization of error codes and detail texts are left out.
- ImportContract.ValidateRecord: white space is ASCII white space, dates and URLs are given predicates, and numbers are reals.
- Loading the contract document and the abnormal-distribution signals of the quality report are left out; they share no state with the properties above.
- SQLAlchemy repositories, the Redis queue, the S3 and file-system object stores, Supabase and Resend, the web application and settings appear only as the assumptions above.
- Silver normalization and deduplication, radar runs, criteria recomputation, comparison and explanation views are left out: their ordering and atomicity live in repositories that are not part of this model.
