# Verified model of the control plane, alignment and evaluation pipelines

A Dafny model of the stateful core of the repository and of the algorithms that carry its
guarantees. Each part has a specification on values, a class or method that performs the same
steps on mutable state and is proved equal to it, theorems over whole runs, and theorems that say
what the specification answers in other terms than its own.

- **Jobs, attempts and outbox** (`ControlPlane*.dfy`, `LocalControlPlaneStore.dfy`, `Recovery*.dfy`,
  `Job*.dfy`, `Outbox*.dfy`, `CallAcceptance.dfy`). Every store call is one atomic step over jobs,
  numbered attempts, dispatch events and execution tokens. A database is *sound* when its columns,
  numbering, tokens and records agree, and *coupled* when each job status suits its current attempt.
  Soundness holds for arbitrary calls; the coupling for the calls the backends make (a job is moved only
  to dispatching, dispatched or running, an attempt only to dispatched, claimed or running). The full
  transition table would break it, and the exact condition is proved. `CallAcceptance.dfy` says when each
  call is accepted and what it leaves, with the transition tables read by target; `JobHandover.dfy` that
  whoever is handed a new attempt can execute it; `RecoveryRecords.dfy` what a restart writes on each
  record.
- **Refresh families** (`Identity.dfy`, `RefreshFamilies.dfy`, `SessionAccess.dfy`,
  `LocalIdentityService.dfy`). Sessions with rotating refresh tokens, as in section 4.14.2 of RFC 9700,
  over any interleaving of transactions. A login reads the token version in an earlier transaction than
  the one that opens the session, so a session may be opened with an earlier version of its user.
- **Alignment runs** (`Alignment*.dfy`, `FeatureExtractor.dfy`, `DecisionRules.dfy`, `PlanMeaning.dfy`,
  `MonotonicCalibrator.dfy`, `CalibratorMeaning.dfy`, `Binning.dfy`). The resumable stage machine, where
  the process may be cut off before every write, refines a plan that does not know about interruptions.
  Tables are sets of rows and may be read back in any order.
- **Evaluation runs and bad cases** (`Evaluation*.dfy`, `MetricEngine.dfy`, `MetricMeaning.dfy`,
  `BadCase*.dfy`, `FindingRules.dfy`, `RunAnalysis.dfy`). Resuming never repeats a stored case, and
  metrics do not depend on the order of results. Calls of the analyzer and the transition service are
  lists of writes, any of which may be the last; which invariants survive that, which cuts spoil the
  count or the log, and which later calls they block is proved exactly.
- **Algorithms** (`CodeGraph.dfy`, `GraphExpand.dfy`, `Calibration.dfy`, `RankingMetrics.dfy`,
  `EdgeMerge.dfy`): bounded breadth-first expansion, calibration error, F1 and nDCG, and the layered
  merge of knowledge edges.
- **Artifacts** (`ArtifactProtocol.dfy`, `ArtifactHandlers.dfy`): records and files under interleaved
  publications, deletions and maintenance.

Conventions. SHA-256, HMAC and `stable_id` are injective constructors, random tokens and UUIDs are
draws from a counter, ids of rows are their positions, timestamps are integers and floats are reals. A
transaction is one step; a call that commits and then raises returns a new state with an error. A
parameter `around` of a method (`Interference.dfy`) says what may get in its way: nothing, crashes of the
process before any write, or anything, exceptions and other callers included; the artifact handlers know
`calm` and anything only. Job order by `created_at` is insertion order. Methods named `...Among` let any
other callers in between any two of their store calls (`JobInterleaving.dfy` says what those can do to an
attempt).

Where code and expectation differ, the model follows the code.

- A job cancelled while its handler fails retryably is queued again (`JobExecution.Verdict`).
- A job cancelled while it waits for its retry is not cancelled before the next restart
  (`JobTheorems.CancelledWaitsForRestart`).
- A login in flight survives a revocation of all sessions (`RefreshFamilies.LoginInFlightSurvives`).
- A breadth-first expansion never goes beyond depth 98, because 99 stands for a node not reached.
- A cancellation of an alignment run that arrives after its last commit point comes to nothing, because activation
  does not look at the flag (`AlignmentService.ActivateRun`).
- A calibrator fitted with examples and no positive number of bins cannot predict.
- An accepted decision need not select its best-ranked candidate (`FeatureExtractor.BestMayBePassedOver`): it is passed
  over exactly when what was measured of it fails the coverage gate (`FeatureExtractor.BestListedFirstIff`).
- nDCG exceeds one, whatever the discount, exactly for rankings whose first min(gold, k) ranks are all gold
  and are followed by a further hit, which takes a repeated gold item (`RankingMetrics.NdcgAlwaysAboveOneIff`).
- The analyzer and the transition service make up to three writes each, not in one transaction. An analysis cut
  off after its bad case is counted twice (`BadCaseInterruption.ResumedAnalysis`); cut off after the event
  of a recurrence, it blocks every finding of that bad case with another time
  (`BadCaseInterruption.RecurrenceCutBlocksIff`). Resuming an evaluation is safe from that if the results
  are analysed in the order they were analysed in before. A call that resumes the execution lists the stored
  results first and the new ones after them, and the next call lists all of them by case id, so a run can get
  stuck in aggregating (`EvaluationService.OtherOrderSticks`, with the exact condition in `CutStaysReadyIff`).
- A deletion cut off after it was requested is never finished (`ArtifactProtocol.AbandonedDeletionStays`).

## Model

| member | source | states |
|---|---|---|
| LocalControlPlane.LocalControlPlaneStore.CreateJob | backend/app/control_plane/store.py:105-182 | creates a queued job with attempt 1 and one pending event under a fresh token; the same key with the same request returns the job it made before without a token, with another request it is a conflict; tables otherwise unchanged |
| LocalControlPlane.LocalControlPlaneStore.TransitionJob | backend/app/control_plane/store.py:514-540 | moves a job along the transition table under its expected revision; finished_at is set exactly for terminal targets; every refusal leaves the tables alone |
| LocalControlPlane.LocalControlPlaneStore.RequestCancel | backend/app/control_plane/store.py:770-791 | marks a cancellable job cancelling, returns a terminal one unchanged, refuses the rest |
| LocalControlPlane.LocalControlPlaneStore.CreateRetryAttempt | backend/app/control_plane/store.py:607-643 | queues a job in retry_wait with its next attempt and event; an exhausted job is committed as dead and the call still fails |
| LocalControlPlane.LocalControlPlaneStore.CreateManualRetry | backend/app/control_plane/store.py:645-657 | a terminal job is run again as a new job under a key with a fresh nonce |
| LocalControlPlane.LocalControlPlaneStore.TransitionAttempt | backend/app/control_plane/store.py:450-489 | moves an attempt along its table for the holder of its token only |
| LocalControlPlane.LocalControlPlaneStore.HeartbeatAttempt | backend/app/control_plane/store.py:491-512 | records a heartbeat of a claimed or running attempt for the holder of its token only |
| LocalControlPlane.LocalControlPlaneStore.CompleteAttempt | backend/app/control_plane/store.py:542-605 | finishes the current attempt and overwrites the job status by the map of final statuses, without the job table; late, stale and invalid completions change nothing |
| LocalControlPlane.LocalControlPlaneStore.RecoverIncompleteJobs | backend/app/control_plane/store.py:659-768 | the recovery loop: each job whose status column is incomplete is swept and then cancelled, given up or requeued, in creation order; returns the requeued ones |
| LocalControlPlane.LocalControlPlaneStore.ClaimOutbox | backend/app/control_plane/store.py:793-829 | leases the first claimable events to a dispatcher, each under a token of its own |
| LocalControlPlane.LocalControlPlaneStore.MarkOutboxPublished | backend/app/control_plane/store.py:831-859 | acknowledges a publishing event for the holder of its claim only |
| LocalControlPlane.LocalControlPlaneStore.MarkOutboxPublishFailed | backend/app/control_plane/store.py:861-898 | returns a publishing event to pending with a retry time at least one second away, for the holder of its claim only |
| LocalControlPlane.LocalControlPlaneStore.MarkOutboxConsumedLocal | backend/app/control_plane/store.py:900-926 | publishes a pending event without a broker; a published event is returned unchanged |
| ControlPlaneStore.IncompleteJobs | backend/app/control_plane/store.py:666-670 | the recovery scan yields exactly the rows whose status column is not terminal, each once, in order |
| ControlPlaneStore.ClaimableEvents | backend/app/control_plane/store.py:802-808 | the claim scan yields at most the requested number of rows, each claimable by its columns, in order |
| ControlPlaneRuns.ApplySound | backend/app/control_plane/store.py:105-926 | every call keeps the database sound: indexed columns agree with the JSON records, attempts are numbered exactly 1..current within max_attempts, tokens are drawn once, finished_at is set exactly for terminal jobs, claims exist exactly while publishing, keys are unique and the nonces in them drawn |
| ControlPlaneRuns.RunSound | backend/app/control_plane/store.py:484-487 | soundness over every run of arbitrary calls in any order |
| CallAcceptance.TransitionJobIff | backend/app/control_plane/store.py:514-540 | a job transition is accepted if and only if the job stands in one of the sources of its target and at the expected revision; then the job alone changes, to that status, with its start and finish times |
| CallAcceptance.CancelIff | backend/app/control_plane/store.py:770-791 | a cancellation is accepted for every job but one being dispatched or already cancelling; a queued, dispatched, running or waiting job becomes cancelling with the request noted, a terminal one stays as it is |
| CallAcceptance.RetryIff | backend/app/control_plane/store.py:607-643 | a retry is accepted if and only if the job waits for one and has attempts left; it is then queued for its next attempt, without error; a waiting job without attempts left is dead and the call fails; anything else is refused without a change |
| CallAcceptance.TransitionAttemptIff | backend/app/control_plane/store.py:450-489 | an attempt is moved if and only if the token is its own and it stands in a source of the target; claim and start are heartbeats, the start is timed, nothing else changes |
| CallAcceptance.HeartbeatIff | backend/app/control_plane/store.py:491-512 | a heartbeat is accepted if and only if it comes from the holder of a claimed or running attempt, and then it only sets the time |
| CallAcceptance.CompletionIff | backend/app/control_plane/store.py:550-587 | a completion is accepted if and only if it comes from the holder of the current attempt of its job with a result that attempt can still be given and at most 200 entries; refused, it changes nothing |
| CallAcceptance.CompletionEnds | backend/app/control_plane/store.py:579-605 | an accepted completion ends the attempt with its result and error and gives the job its verdict and results, and changes nothing else |
| CallAcceptance.PublishedIff | backend/app/control_plane/store.py:831-859 | an acknowledgement is accepted if and only if it comes from the holder of the claim; the event is then published under the message, without claim or lease |
| CallAcceptance.GivenBackIff | backend/app/control_plane/store.py:861-898 | a claim is given back by its holder only; the event can be claimed again exactly from its retry time on, at least a second later |
| CallAcceptance.ConsumedIff | backend/app/control_plane/store.py:900-926 | a pending event is published without a broker, a published one returned as it is, any other refused |
| CallAcceptance.ClaimableIff | backend/app/control_plane/store.py:802-808 | who may claim an event, by its own record: due and pending, or publishing under a lease that has passed |
| JobCreation.CreationIsIdempotent | backend/app/control_plane/store.py:105-182 | creating a job is idempotent over any run: whatever was called since, the same key leads back to the same job, with its present attempt and no token, and changes nothing; with another request it is a conflict |
| JobCreation.RetryStandsAlone | backend/app/control_plane/store.py:645-657 | whatever is called after a manual retry of a terminal job, the job it made is there with the request of the old one and a link to it, no client leads back to it by any key, and every further manual retry makes yet another job |
| JobHandover.CreationIff | backend/app/control_plane/store.py:105-182 | a creation succeeds if and only if the key is new and asks for one to a hundred attempts, or is known with the same request; it hands out a token exactly for a new job, and changes nothing otherwise |
| JobHandover.CreatedAsAsked | backend/app/control_plane/store.py:137-182 | a new job holds what was asked for, and its attempt, event and token are those the call returns |
| JobHandover.CreatedIsHandedOver | backend/app/control_plane/store.py:137-182 | what a creation returns can be executed: the job is queued with that attempt, whose stored hash is that of the returned token, and its event is pending and claimable at once |
| JobHandover.RetryIsHandedOver | backend/app/control_plane/store.py:607-643 | a retry with attempts left succeeds and hands over the next attempt of the same job, whose rows and token are of this call |
| JobHandover.ManualRetryIsHandedOver | backend/app/control_plane/store.py:645-657 | a manual retry of a terminal job hands over the first attempt of the job it makes |
| JobHandover.RecoveredIsHandedOver | backend/app/control_plane/store.py:659-768 | each attempt a recovery returns can be executed |
| JobHandover.HandedOverDecides | backend/app/control_plane/jobs.py:186-282 | an execution of what was handed over reaches its handler with job and attempt running, and the verdict on the handler decides the job unless somebody else ended the attempt meanwhile |
| JobHandover.HandedOverCompletes | backend/app/control_plane/jobs.py:186-282 | handed over and executed undisturbed by a handler that returns, the job is completed with its results |
| JobHandover.FailedIsHandedOn | backend/app/control_plane/jobs.py:247-270 | a retryable failure with attempts left hands over the next attempt in turn |
| JobHandover.AttemptEndsAs | backend/app/control_plane/jobs.py:228-274 | how a running attempt ends when its handler does, with the error noted: cancelled if its job was to be cancelled, succeeded with its results, failed for more than 200 of them, lost in a shutdown, cancelled, or failed with the code of the error |
| JobHandover.SwallowedIff | backend/app/control_plane/jobs.py:307-319 | a completion raises into the execution exactly if the attempt does not exist or the status does not end it; late, stale and repeated ones are passed over |
| JobHandover.UnstartedEndsAs | backend/app/control_plane/jobs.py:186-227 | an execution that does not come to its handler ends its attempt all the same: cancelled for a job to be cancelled, failed if a dispatch call raised or no handler is there |
| Recovery.RecoveryTheorem | backend/app/control_plane/store.py:659-768 | recovery of any sound database: terminal jobs untouched, cancelling jobs cancelled, exhausted ones dead, the rest queued with one fresh attempt, token and pending event; each swept attempt lost or superseded and its event failed; the returned list is exactly the requeued jobs in order |
| RecoveryRecords.RestartExact | backend/app/control_plane/store.py:671-766 | all a restart of any sound database writes on the record of each job that is not terminal, of its attempt and of its event, with their errors and times, and nothing on a terminal one |
| Recovery.RecoverJobFrame | backend/app/control_plane/store.py:671-766 | recovering one job changes no other job, attempt or event |
| Recovery.ScanIsExact | backend/app/control_plane/store.py:666-670 | scanning by column selects exactly what filtering the records would |
| JobProtocol.ApplyCoupled | backend/app/control_plane/store.py:542-605 | every backend call keeps each job status coupled to the status of its current attempt and every earlier attempt given up |
| JobProtocol.RunCoupled | backend/app/control_plane/jobs.py:186-282 | the coupling over every run of backend calls |
| JobProtocol.TransitionJobCoupledIff | backend/app/control_plane/store.py:514-540 | an arbitrary transition of the job alone keeps the coupling if and only if the new status suits the current attempt as it stands |
| JobTheorems.ReachableJobs | backend/app/control_plane/store.py:542-768 | in every database the backends reach: one attempt for each number 1..current, completed exactly when an attempt succeeded and it is the current one, earlier attempts given up, queued to running jobs with a live current attempt, waiting and terminal jobs without |
| JobTheorems.TerminalForever | backend/app/control_plane/store.py:588-603 | in every backend run a terminal job never changes again |
| JobTheorems.CancelStrandsIff | backend/app/control_plane/store.py:770-791 | a cancellation leaves a job cancelling without a live attempt if and only if the job was waiting for its retry or was left so before |
| JobTheorems.CancelledWaitsForRestart | backend/app/control_plane/store.py:659-791 | a job cancelled while it waits for its retry stays cancelling, unchanged, through every backend run without a restart, and the next restart cancels it |
| JobTheorems.RunKeeps | backend/app/control_plane/store.py:982-990 | over any run a job with the same revision is the same job, its attempt number and revision never fall, and a finished attempt is never written |
| JobTheorems.CallKeeps | backend/app/control_plane/store.py:982-990 | one call raises the revision of a job by exactly one or leaves the job as it is |
| JobTheorems.Fenced | backend/app/control_plane/store.py:469-472 | once an attempt has finished, every later transition, heartbeat and completion of it fails without a change, in every later state and for every token |
| JobTheorems.RetriedOverIsLate | backend/app/control_plane/store.py:575-578 | an attempt that was retried over can never complete, even while it is live |
| JobTheorems.WrongTokenRejected | backend/app/control_plane/store.py:562-567 | a caller without the token of an attempt changes nothing through it |
| JobTheorems.AtMostOneResult | backend/app/control_plane/store.py:562-576 | in any run each attempt has at most one accepted completion |
| JobTermination.JobsTerminate | backend/app/control_plane/store.py:29-57 | in any backend run a job changes its protocol state fewer than 35 times per allowed attempt |
| JobTermination.CallDescends | backend/app/control_plane/store.py:514-791 | every call that changes the state of a job lowers the measure of attempts left, attempt rank and job rank |
| JobLimits.TerminalWritableIff | backend/app/control_plane/store.py:588-603 | a completion could still rewrite a terminal job if and only if its current attempt is live |
| JobLimits.CompletedJobRevives | backend/app/control_plane/store.py:29-42 | with every transition of the table allowed, any running job can be completed directly and then revived by a lost result |
| Outbox.ScanExact | backend/app/control_plane/store.py:802-808 | the claimed batch is the first events whose own records are claimable: the column filter misses none and adds none |
| Outbox.ClaimOutboxExact | backend/app/control_plane/store.py:809-829 | each claimed event carries its own new token, lease and publish count, and no other event changes |
| Outbox.CallMoves | backend/app/control_plane/store.py:793-926 | everything any call can do to an event: lease it anew, settle it for the holder of its claim, consume it locally, or fail it in recovery |
| Outbox.PublishAttemptsCountClaims | backend/app/control_plane/store.py:817-820 | publish_attempt rises by exactly the number of claims handed out, over any run |
| Outbox.FailedForever | backend/app/control_plane/store.py:684-700 | a failed event never changes again and is never claimed |
| Outbox.AcknowledgedOnce | backend/app/control_plane/store.py:831-926 | in any run an event is acknowledged at most once |
| Outbox.LeaseIsExclusive | backend/app/control_plane/store.py:802-829 | until its lease has passed, a claimed event is claimed by nobody else and stays as its claimant left it, whatever other dispatchers do; the claimant can still acknowledge it |
| Outbox.StaleClaimRejected | backend/app/control_plane/store.py:841-846 | a token that is not the present claim never becomes it again and every use of it is rejected in every later state |
| OutboxDispatch.OutboxDispatcher.DispatchOnce | backend/app/control_plane/outbox.py:23-44 | a round that nobody interrupts leaves exactly the claimable events published with their message or pending for a retry, and returns the number published |
| OutboxDispatch.OutboxDispatcher.Settle | backend/app/control_plane/outbox.py:26-43 | in such a round one claim is published and acknowledged, or given back |
| OutboxDispatch.OutboxDispatcher.DispatchAmong | backend/app/control_plane/outbox.py:23-44 | a round with any calls of others, other dispatchers among them, before each of its own: it stops at the first claim it has lost, none of the claims it came to is held afterwards, and if it lost none it returns the number published |
| JobBackend.InProcessJobBackend.Execute | backend/app/control_plane/jobs.py:186-282 | the store calls of one execution of an attempt just created, in order and with every exception path, as the function `JobExecution.Execute`, other callers reaching the store while the handler runs; afterwards the database is sound and coupled and the held attempt has finished |
| JobBackend.InProcessJobBackend.ExecuteAmong | backend/app/control_plane/jobs.py:186-282 | an execution with other callers between any two of its calls, also of an attempt that was swept or finished while it waited for its turn: its attempt has finished at the end, and the database is sound and coupled |
| JobInterleaving.ForeignRunKeeps | backend/app/control_plane/store.py:469-472 | whatever callers without the token of an attempt do, and however much, they leave the attempt in its status or finish it |
| JobBackend.InProcessJobBackend.FinishSafely | backend/app/control_plane/jobs.py:307-319 | late, stale and invalid completions are swallowed, any other error is raised |
| JobBackend.InProcessJobBackend.Dispatch | backend/app/control_plane/jobs.py:197-210 | the calls up to the handler, stopping at the first that raises |
| JobExecution.DispatchEffect | backend/app/control_plane/jobs.py:197-210 | the handler is reached, with job and attempt running, if and only if the job is queued and its event pending or published; otherwise the attempt is as it was created |
| JobExecution.ExecutionSettles | backend/app/control_plane/jobs.py:186-282 | whatever the handler does and whatever other calls reach the store meanwhile, at the end the held attempt has finished and the coupling holds |
| JobExecution.ExecutionDecides | backend/app/control_plane/jobs.py:228-274 | if the attempt is still running when its handler ends, the execution alone decides the job: completed, failed, cancelled, retry_wait, dead, or queued with a new attempt; otherwise it changes nothing |
| JobExecution.RetryDecides | backend/app/control_plane/store.py:607-643 | a job in retry_wait is queued again exactly when attempts are left, and dead otherwise |
| JobExecution.RunKeepsRunning | backend/app/control_plane/jobs.py:221-227 | while its handler runs, other calls leave an attempt running or finish it |
| LocalIdentity.LocalIdentityService.CreateUser | backend/app/control_plane/auth.py:137-154 | a new active user at version 1, unless the name or the password is short or the name is taken |
| LocalIdentity.LocalIdentityService.CreateLocalSession | backend/app/control_plane/auth.py:156-186 | a session for the named user, created when missing, refused when inactive |
| LocalIdentity.LocalIdentityService.Login | backend/app/control_plane/auth.py:188-203 | a session for an active user whose password matched; one error for every other case |
| LocalIdentity.LocalIdentityService.Refresh | backend/app/control_plane/auth.py:252-286 | an active, unexpired token with the right CSRF token is spent and replaced; a used one revokes its family and still fails |
| LocalIdentity.LocalIdentityService.VerifyAccess | backend/app/control_plane/auth.py:288-307 | accepts a signed, unexpired token whose session is active and whose version is current |
| LocalIdentity.LocalIdentityService.Logout | backend/app/control_plane/auth.py:309-322 | revokes the session and its family |
| LocalIdentity.LocalIdentityService.RevokeSession | backend/app/control_plane/auth.py:214-221 | logs a session out for its own user only |
| LocalIdentity.LocalIdentityService.RevokeAllSessions | backend/app/control_plane/auth.py:324-342 | revokes every session of the user and raises the token version |
| LocalIdentity.LocalIdentityService.ChangePassword | backend/app/control_plane/auth.py:223-250 | after the checks, revokes every session and raises the token version |
| RefreshFamilies.RunKeeps | backend/app/control_plane/auth.py:223-342 | over any interleaving: each family belongs to one session, tokens are unique, a session is active exactly while it has an active token and has at most one; revocation, use and version changes are never undone |
| RefreshFamilies.AtMostOneActive | backend/app/control_plane/auth.py:252-286 | in every reachable state a family has at most one active token, and then its session is active |
| RefreshFamilies.RefreshAcceptedIff | backend/app/control_plane/auth.py:271-276 | a refresh succeeds if and only if the token is active and unexpired, the CSRF token is the last one issued and the user is active; the session check adds nothing |
| RefreshFamilies.RedeemedOnce | backend/app/control_plane/auth.py:277-280 | in any run each refresh token redeems at most once |
| RefreshFamilies.ReplayEndsFamily | backend/app/control_plane/auth.py:267-270 | replaying a used token is refused, and no refresh of its family and no access token of its session is accepted in any later state |
| RefreshFamilies.RevocationEndsSessions | backend/app/control_plane/auth.py:309-342 | after a logout the session is over, after a revocation of all sessions every session the user had is |
| RefreshFamilies.OldVersionsRefused | backend/app/control_plane/auth.py:301-342 | in any run, each access token issued to a user before his version is raised is refused in every state after it |
| RefreshFamilies.IssuedInUpToDate | backend/app/control_plane/auth.py:376-403 | no token issued in a run has a version its user has not reached by the end of the run |
| RefreshFamilies.StaleSession | backend/app/control_plane/auth.py:188-203 | a session opened with a version read earlier: its access token is accepted if and only if that version is still the present one, while its refresh token redeems in either case, for an access token that is accepted |
| RefreshFamilies.LoginInFlightSurvives | backend/app/control_plane/auth.py:188-203 | a login that read the version before a revocation of all sessions and opens its session after it ends with a session whose refresh token redeems; had it opened its session before, that session would be over |
| RefreshFamilies.IssuedTokensWork | backend/app/control_plane/auth.py:359-403 | what a new session was issued verifies and redeems until it expires, whatever the other sessions do |
| RefreshFamilies.LoginIsRun | backend/app/control_plane/auth.py:188-203 | a login leaves the tables as a run of at most one transaction does |
| RefreshFamilies.LocalSessionIsRun | backend/app/control_plane/auth.py:156-186 | a local session is a run of at most two transactions |
| RefreshFamilies.ChangePasswordIsRun | backend/app/control_plane/auth.py:223-250 | a password change is a run of at most one transaction |
| RefreshFamilies.RevokeSessionIsRun | backend/app/control_plane/auth.py:214-221 | revoking a session is a run of at most one transaction |
| SessionAccess.RegistrationIff | backend/app/control_plane/auth.py:137-154 | an account is created if and only if the name has three letters and is free and the password has twelve; nothing else changes |
| SessionAccess.RunNames | backend/app/control_plane/auth.py:137-154 | over any run no two users have the same name |
| SessionAccess.LoginAcceptedIff | backend/app/control_plane/auth.py:188-203 | a login succeeds if and only if some user has that name, is active and the password matched; otherwise the tables are unchanged and the error is the same in every case |
| SessionAccess.LoginOpensOne | backend/app/control_plane/auth.py:188-203 | a successful login adds one session, of that user, whose access token verifies and whose refresh token redeems exactly until they expire; every other row is as it was |
| SessionAccess.LocalSessionIff | backend/app/control_plane/auth.py:156-186 | a local session is opened if and only if the name has three letters and is not that of an inactive user |
| SessionAccess.LocalSessionOpensOne | backend/app/control_plane/auth.py:156-186 | a local session is one new session of the user of that name, who is created if there was none |
| SessionAccess.RefreshRotates | backend/app/control_plane/auth.py:276-286 | a refresh spends exactly the token presented and hands out tokens of the same session that open it until they expire |
| SessionAccess.RefreshRefused | backend/app/control_plane/auth.py:263-276 | a refused refresh changes nothing, unless it presents a used token: then exactly the session of that token is over |
| SessionAccess.SessionRevokedIff | backend/app/control_plane/auth.py:214-221 | a session is revoked if and only if it is the own one of the user, and then exactly that session is over |
| SessionAccess.FamilyEndsOne | backend/app/control_plane/auth.py:309-322 | a logout ends exactly its session and revokes every token of its family, used ones too |
| SessionAccess.AllEndsUser | backend/app/control_plane/auth.py:324-342 | a revocation of all sessions ends exactly the sessions of the user, revokes their active tokens and raises his version by one |
| SessionAccess.PasswordChangedIff | backend/app/control_plane/auth.py:223-250 | a password is changed if and only if the new one has twelve letters, the user is active and the old one matched; then exactly his sessions are over and his version is raised, otherwise nothing changes |
| SessionAccess.AccessAcceptedIff | backend/app/control_plane/auth.py:288-307 | an access token is accepted if and only if its signature is that of its claims, it has not expired, and it names an active session of an active user at his present version; which error it gets otherwise |
| AlignmentRuns.AlignmentService.ProcessRun | backend/app/alignment/alignment_service.py:117-262 | one call, cut off anywhere or not: what is saved always vouches for the status; if it activates the run, the tables are exactly those of the plan; with only crashes around it and no cancellation asked for, it activates the run or is cut off, and asks for none |
| AlignmentRuns.AlignmentService.ProcessRepeatedly | backend/app/alignment/alignment_service.py:117-262 | after any number of calls cut off by crashes alone a calm call ends with the run activated and every table as planned; with cancellations and exceptions around, the run is cancelled, failed or activated as planned |
| AlignmentRuns.AlignmentService.ProfileStage | backend/app/alignment/alignment_service.py:132-150 | profiles are extracted and saved, or read back when the status is past them |
| AlignmentRuns.AlignmentService.RecallStage | backend/app/alignment/alignment_service.py:152-163 | candidates of all profiles are saved, or read back in any order |
| AlignmentRuns.AlignmentService.FeatureStage | backend/app/alignment/alignment_service.py:167-187 | feature vectors of the known entities are saved, or read back |
| AlignmentRuns.AlignmentService.ScoreStage | backend/app/alignment/alignment_service.py:189-220 | scores and then decisions are saved by two transactions of one stage, or read back |
| AlignmentRuns.AlignmentService.VerifyStage | backend/app/alignment/alignment_service.py:222-245 | without a provider the verifier keeps every decision and adds one fallback verification for each profile |
| AlignmentRuns.AlignmentService.FinishRun | backend/app/alignment/alignment_service.py:246-247 | activation of a finished run never fails its integrity check |
| AlignmentRuns.AlignmentService.StageCommitGuard | backend/app/alignment/alignment_service.py:378-391 | a requested cancellation ends the run at the commit point and keeps what was saved |
| AlignmentRuns.AlignmentService.GenerateCandidates | backend/app/alignment/alignment_service.py:304-317 | recall over the profiles in any order gives the same rows, with distinct keys exactly when the plan has them |
| AlignmentRuns.AlignmentService.BuildDecisions | backend/app/alignment/alignment_service.py:196-215 | one decision for each profile, the same whichever order candidates and scores were read in |
| AlignmentStorage.AlignmentStore.UpdateStatus | backend/app/persistence/alignment_store.py:242-271 | moves a run whose status is allowed, accepts the status it already has, refuses the rest |
| AlignmentStorage.AlignmentStore.RequestCancel | backend/app/persistence/alignment_store.py:273-284 | flags a run under construction; refused when ready, active or superseded |
| AlignmentStorage.AlignmentStore.SaveProfiles | backend/app/persistence/alignment_store.py:289-299 | replaces the profiles; the delete cascades to candidates, vectors, scores and decisions; a repeated key rolls back |
| AlignmentStorage.AlignmentStore.SaveCandidates | backend/app/persistence/alignment_store.py:301-311 | replaces the candidates; the delete cascades to vectors and scores; a repeated id, a repeated pair of profile and entity or a missing profile rolls back |
| AlignmentStorage.AlignmentStore.SaveDecisions | backend/app/persistence/alignment_store.py:337-374 | replaces the decisions as a whole |
| AlignmentStorage.AlignmentStore.MarkReadyAndActivate | backend/app/persistence/alignment_store.py:413-436 | activates a run with as many decisions as profiles, superseding the active run of its key, and keeps at most one active run for each key |
| AlignmentPlan.DecisionFromRows | backend/app/alignment/alignment_service.py:196-215 | deciding from saved rows read in any order is deciding at once |
| AlignmentPlan.FallbackFromRows | backend/app/alignment/verifier.py:240-253 | the fallback verification allows the same candidates in whatever order they are read |
| AlignmentPlan.EveryProfileDecided | backend/app/persistence/alignment_store.py:420-424 | the tables of a finished run hold one decision for each profile |
| PlanMeaning.PlannedDecision | backend/app/alignment/alignment_service.py:196-215 | the decision of a profile in a finished run follows the rules from exactly the scores of the candidates recalled for it whose entity is known |
| PlanMeaning.PlannedRows | backend/app/alignment/alignment_service.py:152-195 | the candidate rows of a finished run are what recall found for its profiles, the vectors and scores those of the candidates with known entities |
| PlanMeaning.FallbackAllowsAll | backend/app/alignment/verifier.py:240-253 | the fallback allows each candidate of the profile as often as it is listed, and nothing else |
| AlignmentScorer.DecideOrderFree | backend/app/alignment/scorer.py:73-148 | a decision depends only on which candidates and scores there are |
| AlignmentScorer.RankedOrderFree | backend/app/alignment/scorer.py:86 | the ranking by descending probability and id is unique |
| AlignmentScorer.RaisedProbability | backend/app/alignment/scorer.py:41-51 | raising any available features never lowers the calibrated probability, under any monotone calibrator |
| AlignmentScorer.CalibratorsMonotone | backend/app/alignment/calibrator.py:24-25 | the identity and the fitted calibrators are monotone |
| AlignmentScorer.RawInUnit | backend/app/alignment/scorer.py:42-48 | with feature values in the unit interval the raw score is there too |
| AlignmentScorer.AcceptedIsCovered | backend/app/alignment/scorer.py:91-111 | an accepted decision has one to five selections, each above the threshold with full coverage and hence penalty one, and its best score leads every other by the margin |
| AlignmentScorer.CoverageNotPenalised | backend/app/alignment/feature_extractor.py:65-70 | a vector with the required coverage has penalty one |
| AlignmentScorer.FirstSelectionIsBestIff | backend/app/alignment/scorer.py:87-111 | an accepted decision lists the best-ranked candidate first if and only if that one is itself eligible and known |
| DecisionRules.StatusIff | backend/app/alignment/scorer.py:86-126 | the four statuses from the scores alone: accepted exactly if some known score is among the five best fit ones and some score leads every other by 0.08; else no implementation if confirmed so; else for review exactly if some score is at least 0.45; else abstained |
| DecisionRules.SelectionExact | backend/app/alignment/scorer.py:88-126 | what is selected: accepted, all known ones of the five best fit scores in rank order; for review, all known ones of the five best; otherwise none; each described by its own score and evidence |
| DecisionRules.SetScoreIsMean | backend/app/alignment/scorer.py:96-97 | the set score is the mean probability of the five best fit scores, none without one |
| DecisionRules.CoverageIsShare | backend/app/alignment/scorer.py:138 | the coverage is the share of the scores that is selected, within zero and one |
| DecisionRules.MarginIsLead | backend/app/alignment/scorer.py:86-90 | the best probability is the highest there is, and the margin how far it is ahead of the best of the others |
| DecisionRules.WithoutScores | backend/app/alignment/scorer.py:86-147 | without scores nothing is selected, and set score, coverage, margin and best are none or zero |
| FeatureExtractor.CoverageGateIff | backend/app/alignment/feature_extractor.py:53-70 | the vector extracted for a candidate meets the required coverage if and only if the candidate has its structure from the code graph, or the profile a role, or inputs or outputs together with a shape, formula or figure, or shape, formula and figure at once |
| FeatureExtractor.BestListedFirstIff | backend/app/alignment/scorer.py:86-111 | an accepted decision lists its best-ranked candidate, which is among the candidates, first if and only if what was measured of it meets the coverage gate |
| FeatureExtractor.BestMayBePassedOver | backend/app/alignment/scorer.py:86-111 | two candidates of one profile, as the extractor measures them: the perfect one is not in the code graph and so lacks coverage, is ranked best and leads by the margin, and the fair one is accepted on the strength of it |
| FeatureExtractor.RawIsMean | backend/app/alignment/scorer.py:41-46 | the raw score of an extracted vector is the weighted mean of what was measured: times the available weight it is the sum of the gains |
| FeatureExtractor.ScoreExact | backend/app/alignment/scorer.py:46-51 | the probability is what the calibrator makes of the raw score, scaled down by the part of the coverage of 0.65 that is missing |
| FeatureExtractor.UnweightedScoreZero | backend/app/alignment/scorer.py:41-46 | features of other names than the nine, or that do not apply, score zero with no coverage |
| FeatureExtractor.RepeatedCountsOnce | backend/app/alignment/scorer.py:41-46 | a feature listed again adds its weight to the denominator each time, but only its last value to the sum |
| MonotonicCalibrator.Fit | backend/app/alignment/calibrator.py:34-48 | one flat bin without examples, otherwise the requested number of equal bins with the running maximum of smoothed label rates, for any integer labels |
| MonotonicCalibrator.FitAscends | backend/app/alignment/calibrator.py:34-48 | for any integer labels, fitted bins are contiguous over the unit interval and their probabilities never fall |
| MonotonicCalibrator.FitCalibratesIff | backend/app/alignment/calibrator.py:34-48 | the fitted probabilities lie strictly between zero and one if and only if the labels of the first bin do not sum below zero and those of no bin above its number of examples |
| MonotonicCalibrator.FitCalibrates | backend/app/alignment/calibrator.py:34-48 | with labels of zero and one, fitted bins are contiguous over the unit interval with non-decreasing probabilities strictly between zero and one |
| MonotonicCalibrator.FitCountsEveryExample | backend/app/alignment/calibrator.py:40-47 | the sample counts of the bins add up to the number of examples scored in the unit interval |
| MonotonicCalibrator.Predict | backend/app/alignment/calibrator.py:50-55 | the first bin covering the clamped score decides; a calibrator without bins fails |
| MonotonicCalibrator.PredictMonotone | backend/app/alignment/calibrator.py:50-55 | prediction never falls as the score rises, and stays strictly between zero and one if the bins do |
| MonotonicCalibrator.FitThenPredict | backend/app/alignment/calibrator.py:34-55 | a fitted calibrator can predict if and only if there were no examples or a positive number of bins |
| CalibratorMeaning.FitDivides | backend/app/alignment/calibrator.py:40-42 | fitted bins divide the unit interval into equal widths |
| CalibratorMeaning.FitMeans | backend/app/alignment/calibrator.py:41-48 | a bin counts the examples it holds, the last one its upper edge too, and its probability is the largest of zero and the smoothed label rates of the bins up to it |
| CalibratorMeaning.PredictsFirst | backend/app/alignment/calibrator.py:50-55 | a score, moved into the unit interval, is answered by the first bin that contains it, and by the last one if none does |
| CalibratorMeaning.FittedAnswers | backend/app/alignment/calibrator.py:34-55 | a fitted calibrator answers every score from the first bin that contains it |
| GraphExpansion.GraphExpand | backend/app/alignment/candidate_generator.py:167-192 | the hits are exactly the nodes at distance one to min(max_hops, 98) from the seeds over allowed edges, each once, at its distance, with a walk of that many edges |
| GraphExpansion.BuildAdjacency | backend/app/alignment/candidate_generator.py:170-176 | the adjacency lists hold exactly the allowed edges, in both directions |
| GraphExpansion.Visit | backend/app/alignment/candidate_generator.py:182-191 | a visit adds the neighbours not reached as soon before, none beyond depth 98 |
| CodeGraph.LevelIsWalk | backend/app/alignment/candidate_generator.py:177-192 | a node is within d edges exactly when a walk of at most d edges leads to it from a seed |
| Calibration.ExpectedCalibrationError | backend/app/alignment/metrics.py:40-68 | the error and its bins for equal non-empty lists, the mean net gap of the bins |
| Calibration.Ece | backend/app/evaluation/metric_engine.py:361-382 | the same error in the evaluation engine, none for no probabilities |
| Calibration.Agree | backend/app/evaluation/metric_engine.py:361-382 | both implementations return the same value for every input the report accepts |
| Calibration.ErrorBounds | backend/app/alignment/metrics.py:46-67 | the error lies between the net miscalibration and the mean distance, and never exceeds one |
| Calibration.BrierScore | backend/app/alignment/metrics.py:34-37 | the mean squared distance, an error for unequal or empty lists |
| Calibration.ErrorSquaredAtMostBrier | backend/app/alignment/metrics.py:34-68 | the squared calibration error never exceeds the Brier score, for any number of bins |
| Binning.BinsPartition | backend/app/alignment/metrics.py:49-55 | every score in the unit interval lies in exactly one bin, every other in none |
| RankingMetrics.F1IsDice | backend/app/evaluation/metric_engine.py:347-353 | F1 is twice the overlap over the sum of the sizes, one for two empty sets |
| RankingMetrics.F1Extremes | backend/app/alignment/metrics.py:25-31 | F1 is within zero and one, one exactly for equal sets, zero exactly for disjoint ones, and symmetric |
| RankingMetrics.ComputeNdcg | backend/app/evaluation/metric_engine.py:339-344 | the discounted gain of the first k ranks over the ideal one |
| RankingMetrics.NdcgWithinOneIff | backend/app/evaluation/metric_engine.py:339-344 | nDCG stays within zero and one under every positive decreasing discount if and only if the ranks considered hold no more hits than gold items, which a duplicate-free ranking meets |
| RankingMetrics.NdcgAlwaysAboveOneIff | backend/app/evaluation/metric_engine.py:339-344 | nDCG exceeds one under every positive decreasing discount, the engine's included, if and only if the first min(gold, k) ranks are all gold and a further hit follows within the first k |
| RankingMetrics.RepeatedGoldExceeds | backend/app/evaluation/metric_engine.py:339-344 | the ranking [g, g] with gold {g} exceeds one at every k of two or more, whatever the discount |
| RankingMetrics.NdcgPerfectIff | backend/app/evaluation/metric_engine.py:339-344 | for a duplicate-free ranking nDCG is one if and only if the first min(gold, k) ranks exist and are all gold |
| RankingMetrics.NdcgZeroIff | backend/app/evaluation/metric_engine.py:339-344 | nDCG is zero exactly if there is a gold item and none among the ranks considered, for every ranking and cut-off |
| EvaluationRuns.EvaluationService.ProcessRun | backend/app/evaluation/evaluation_service.py:205-272 | one call in any interference: stored results never change, no case with a stored result is started and no other more than once, no stored metric conflicts; a terminal run is refused; a run cut off is not terminal; a finished run has every result and every metric; a calm call on a run not to be cancelled finishes it if and only if no bad case is blocked for the first of its new findings, and otherwise raises the analyzer's error with the run still aggregating |
| EvaluationRuns.EvaluationService.ProcessRepeatedly | backend/app/evaluation/evaluation_service.py:205-272 | after any number of calls cut off by crashes, inside the analyzer or anywhere else, and a calm one, every planned case has a result and no case was started again after its result was stored; a run past its execution is finished if and only if it was ready, and otherwise raises the analyzer's error in every call and stays aggregating; any run whose bad cases were sound is finished, unless a call that resumed the execution analysed the results in another order than by case id |
| EvaluationRuns.EvaluationService.StaysReady | backend/app/evaluation/evaluation_service.py:205-253 | analysing the results of a ready run by case id is not blocked, and after being cut off anywhere the run is ready again if and only if that analysis was not blocked |
| EvaluationRuns.EvaluationService.CutStaysReadyIff | backend/app/evaluation/evaluation_service.py:232-253 | a call that analysed the results in any order and was cut off after the event of a recurrence leaves the run ready if and only if the first new finding of that bad case by case id has the time of the recurrence |
| EvaluationRuns.EvaluationService.OtherOrderSticks | backend/app/evaluation/evaluation_service.py:232-253 | the run that gets stuck: two new findings of one closed bad case with different times, the one of the higher case id stored first, and the call that resumed the execution cut off after its recurrence |
| EvaluationRuns.EvaluationService.ExecutePending | backend/app/evaluation/evaluation_service.py:221-233 | only cases without a result are started, each at most once, side by side up to the concurrency limit and in any order; without a cancellation every planned case then has a result |
| EvaluationRuns.EvaluationService.SaveMetrics | backend/app/evaluation/evaluation_service.py:243-247 | recomputed metrics equal those saved by an interrupted call, so saving never conflicts |
| EvaluationRuns.EvaluationService.AggregationPhase | backend/app/evaluation/evaluation_service.py:240-272 | from aggregating on, metrics are complete and the run ends completed exactly when every result is a complete verdict, partial otherwise; cut off inside the analysis or stopped by its error, it leaves what that analysis had written |
| EvaluationRuns.EvaluationService.MoveTo | backend/app/evaluation/evaluation_service.py:289-308 | a status change the transition table allows is written |
| EvaluationRuns.EvaluationService.AnalyzeResults | backend/app/evaluation/evaluation_service.py:248-253 | the findings of the results are analysed in order, up to the first error, or cut off before any write of the analyzer |
| FindingRules.FindingIff | backend/app/evaluation/bad_case_analyzer.py:104-113 | which results are findings: an incomplete one always, a complete one that ran if it failed or could not be judged, one that did not run unless it passed |
| FindingRules.FindingExact | backend/app/evaluation/bad_case_analyzer.py:25-36 | a finding names its result and time, and its trigger follows from whether it ran and how it ended |
| FindingRules.FindingsInOrder | backend/app/evaluation/evaluation_service.py:248-253 | the findings of a list of results are those of each of them, in their order |
| FindingRules.CompleteIff | backend/app/evaluation/evaluation_service.py:254-259 | a run is complete exactly if each of its cases ran, passed or failed, and was complete |
| EvaluationStorage.InMemoryEvaluationStore.UpdateRun | backend/app/evaluation/in_memory_store.py:193-202 | a terminal run is immutable and a status follows the table |
| FindingRules.RunSourcesExact | backend/app/evaluation/in_memory_store.py:38-44 | from which statuses a run may be moved to each, and that exactly the terminal ones lead nowhere |
| EvaluationStorage.InMemoryEvaluationStore.SaveCaseResult | backend/app/evaluation/in_memory_store.py:204-205 | a result may be stored again only unchanged |
| EvaluationStorage.InMemoryEvaluationStore.SaveMetricResult | backend/app/evaluation/in_memory_store.py:225-226 | a metric may be stored again only unchanged |
| EvaluationStorage.InMemoryEvaluationStore.SaveBadCase | backend/app/evaluation/in_memory_store.py:276-284 | a stored bad case is replaced by its next revision only; the same one again is accepted |
| EvaluationStorage.InMemoryEvaluationStore.AppendEvent | backend/app/evaluation/in_memory_store.py:304-305 | an event may be stored again only unchanged |
| EvaluationStorage.InMemoryEvaluationStore.AppendOccurrence | backend/app/evaluation/in_memory_store.py:295-299 | an occurrence may be stored again only unchanged |
| EvaluationStorage.InMemoryEvaluationStore.SaveVerification | backend/app/evaluation/in_memory_store.py:307-311 | a verification may be stored again only unchanged |
| EvaluationStorage.InMemoryEvaluationStore.ListCaseResults | backend/app/evaluation/in_memory_store.py:207-211 | lists each result of the run once, by case id |
| MetricEngine.MetricsOrderFree | backend/app/evaluation/metric_engine.py:101-151 | which metrics there are, and each of their values, numerators, denominators, completeness and time, do not depend on the order of the results; quotients, counts, Brier scores and calibration errors alike |
| MetricEngine.CalibrationPermuted | backend/app/evaluation/metric_engine.py:361-382 | the calibration error of the samples of a group does not depend on the order of the results |
| MetricMeaning.TimesExact | backend/app/evaluation/metric_engine.py:108-119 | a result is a row of a group of its own component once for all, its split, its source and its repository, and as often as its case has the tag |
| MetricMeaning.RowsExact | backend/app/evaluation/metric_engine.py:108-119 | the rows of a group are exactly the results of known cases of that component which belong to it |
| MetricMeaning.MetricExists | backend/app/evaluation/metric_engine.py:125-133 | there is a metric exactly for a definition and a group of its component with a row |
| MetricMeaning.MetricComplete | backend/app/evaluation/metric_engine.py:121-158 | a metric is complete if and only if every row of its group is a complete verdict, and it has samples if it is made of them; its time is the last finish of any result |
| MetricMeaning.QuotientExact | backend/app/evaluation/metric_engine.py:323-328 | the value of a quotient times its denominator is its numerator, both sums over the results as often as they belong to the group; there is no value if and only if the denominator is zero |
| MetricMeaning.CountExact | backend/app/evaluation/metric_engine.py:320 | a count is its numerator and its denominator the number of rows |
| MetricMeaning.RateExact | backend/app/evaluation/metric_engine.py:323-324 | a rate lies between zero and one, is one exactly if the numerator is the whole in every row, and zero exactly if it is nothing in every row |
| MetricMeaning.PassRate | backend/app/evaluation/metric_engine.py:153-163 | a pass rate is there exactly if some row has a verdict, one exactly if none failed, and zero exactly if none passed |
| MetricMeaning.SamplesExact | backend/app/evaluation/metric_engine.py:361-382 | Brier score and calibration error are those of all samples of the rows, and missing exactly without samples |
| MetricMeaning.BrierExact | backend/app/evaluation/metric_engine.py:323-328 | a Brier score times the number of samples is the sum of their squared distances, both summed over the group |
| BadCaseWorkflow.BadCaseAnalyzer.Analyze | backend/app/evaluation/bad_case_analyzer.py:25-101 | a new finding opens its bad case or counts on it, reopening a closed one with an event; a known one changes nothing; cut off before any write, the writes before it stand |
| BadCaseWorkflow.BadCaseService.Transition | backend/app/evaluation/bad_case_service.py:30-108 | a transition with its requirements, verification evidence and revision check, written as verification, event and bad case; cut off before any write, the writes before it stand |
| BadCaseHistory.ReachableBadCases | backend/app/evaluation/bad_case_service.py:14-108 | after any run of whole calls the event log replays to the status, each event starts where the log stood and is allowed, each status has its root cause, fix and verification, and the occurrence count is the number of occurrences |
| BadCaseHistory.RunSound | backend/app/evaluation/bad_case_service.py:14-108 | whole calls in any order keep the log genuine and gapless, the fields of every status and the exact counts |
| BadCaseHistory.RunKeeps | backend/app/evaluation/bad_case_service.py:14-108 | calls cut off before any write, in any order, keep every change of status explained by an event, the fields of every status, each occurrence with its bad case, and counts no lower than the occurrences |
| BadCaseHistory.InterruptedBadCases | backend/app/evaluation/bad_case_service.py:14-108 | after any run of calls cut off anywhere, each change of status of a bad case is in its log, no status lacks its fields and no occurrence is uncounted |
| BadCaseHistory.AnalyzeFailsIff | backend/app/evaluation/bad_case_analyzer.py:66-90 | an analysis fails if and only if another event is stored where its recurrence would go, and then writes nothing |
| BadCaseHistory.TransitionFailsIff | backend/app/evaluation/bad_case_service.py:79-108 | a transition that is not refused fails if and only if another verification or event is stored where it writes |
| BadCaseEvidence.RefusedIff | backend/app/evaluation/bad_case_service.py:30-76 | a transition is not refused if and only if it is based on the present revision, the step is in the table and the target has its evidence: a root cause, a fix, all three, or a verification in which case, regression and rules passed, with a rule id, a complete passed result and a reproduced promotion of its case |
| BadCaseEvidence.RefusedWhy | backend/app/evaluation/bad_case_service.py:30-76 | which error a refused transition gets, by the first reason there is |
| BadCaseEvidence.MovedExact | backend/app/evaluation/bad_case_service.py:77-108 | what an accepted transition writes: the new status at the next revision with what the request brought, its event, and for verified its verification; nothing else |
| BadCaseEvidence.AnalyzedExact | backend/app/evaluation/bad_case_analyzer.py:25-101 | what an analysis of a new finding writes: a new bad case, or one more occurrence, reopening a closed one with its event; nothing else |
| BadCaseEvidence.VerifiedMeansPassed | backend/app/evaluation/bad_case_service.py:49-76 | after any run of calls cut off anywhere, a verified or closed bad case names a stored verification of its own in which case, regression and rules passed, with a rule id; a confirmed one or later has its root cause, a fixed one or later its fix |
| BadCaseInterruption.AnalysisCutSoundIff | backend/app/evaluation/bad_case_analyzer.py:66-101 | cut off after n writes, an analysis leaves sound records if and only if it had made none or all of them |
| BadCaseInterruption.TransitionCutSoundIff | backend/app/evaluation/bad_case_service.py:77-107 | cut off after n writes, a transition leaves sound records if and only if it had made none, all, or only that of its verification |
| BadCaseInterruption.ReanalysisIsNoOp | backend/app/evaluation/bad_case_analyzer.py:37-42 | analysing a result again changes nothing, whatever calls came in between, cut off or not |
| BadCaseInterruption.ResumedAnalysis | backend/app/evaluation/bad_case_analyzer.py:66-101 | an analysis cut off anywhere succeeds when done again; it ends as an uninterrupted one if and only if the cut was not the one before its last write, which counts and revises the bad case once too often and does nothing else |
| BadCaseInterruption.InterruptedAnalysisCountsTwice | backend/app/evaluation/bad_case_analyzer.py:91-101 | cut off before its last write and done again, an analysis leaves a count of exactly one more than the occurrences, in whatever status the bad case was |
| BadCaseInterruption.RecurrenceCutBlocksIff | backend/app/evaluation/bad_case_analyzer.py:66-91 | cut off after the event of a recurrence, the analyzer takes another new finding of the bad case if and only if it has the time of the first |
| BadCaseInterruption.ClosedAheadStays | backend/app/evaluation/bad_case_analyzer.py:66-91 | a closed bad case whose next event is stored stays as it is, without another occurrence, whatever calls come, until one writes that very event |
| BadCaseInterruption.CutTransitionBlocksIff | backend/app/evaluation/bad_case_service.py:93-107 | after a transition cut off between its event and its bad case, an otherwise acceptable transition goes through if and only if it writes the very same event, and its verification if it has one is not taken by another |
| RunAnalysis.AnalyzesAllIff | backend/app/evaluation/evaluation_service.py:248-253 | the analysis of a whole run goes through if and only if no bad case is blocked for the first of its new findings |
| RunAnalysis.ResumedInSameOrder | backend/app/evaluation/evaluation_service.py:248-253 | cut off anywhere, the analysis of a run goes through when done again in the same order if and only if it would have without the cut |
| RunAnalysis.ResumedInOtherOrderIff | backend/app/evaluation/evaluation_service.py:232-253 | cut off after the event of a recurrence, the analysis of any list of findings goes through if and only if the first new finding of that bad case in it has the time of the recurrence |
| RunAnalysis.ResumedInOtherOrderIsStuck | backend/app/evaluation/evaluation_service.py:232-253 | otherwise it fails in every later state as well, until somebody writes that recurrence |
| EdgeMerge.MergeEdges | backend/app/indexing/index_service.py:416-424 | merging in place, also when an edge object is listed twice, gives the merge of the values and changes no other edge |
| EdgeMerge.MergeIsHomomorphism | backend/app/indexing/index_service.py:222-228 | merging two parts and then the results equals merging everything at once, in edges, order and evidence |
| EdgeMerge.LayeredMerge | backend/app/indexing/call_graph_builder.py:182-190 | the same for any number of builders merged first on their own |
| EdgeMerge.EvidenceConserved | backend/app/indexing/index_service.py:416-424 | merging keeps each reference with its edge and invents none |
| EdgeMerge.AbsorbAllIds | backend/app/indexing/import_resolver.py:126-134 | edges come out once each, in the order of first appearance |
| ArtifactProtocol.AvailableIsReadable | backend/app/control_plane/domain_handlers.py:652-712 | in every state any interleaving of publications, deletions and maintenance reaches, with failures after any write, an available record names a file with its hash and size |
| ArtifactProtocol.AvailableUntilDeleted | backend/app/control_plane/domain_handlers.py:384-390 | an available artifact keeps its record and its bytes until its deletion is requested |
| ArtifactProtocol.SaveSound | backend/app/control_plane/store.py:317-354 | saving a record along its transitions keeps records, files and removals consistent |
| ArtifactProtocol.SavedIff | backend/app/control_plane/store.py:317-354 | a record is saved if and only if it is new and staged, or stands in one of the statuses that lead to its target; the whole record is replaced and nothing else |
| ArtifactProtocol.MoveSound | backend/app/control_plane/artifacts.py:71-77 | moving a staged file into place after its hash check keeps them consistent |
| ArtifactProtocol.MovedIff | backend/app/control_plane/artifacts.py:71-77 | a staged file is moved if and only if it is there with the expected hash, and every other file stays as it is |
| ArtifactProtocol.ListedExactly | backend/app/control_plane/store.py:395-420 | maintenance lists exactly the files of records that are staged, rejected or orphaned |
| ArtifactProtocol.StepsInOrder | backend/app/control_plane/domain_handlers.py:684-712 | records are saved before the file is moved and the file moved before the record is available; after an exception nothing but the cleaning up happens, and only who requested a deletion carries it out |
| ArtifactProtocol.RefusedStepAborts | backend/app/control_plane/domain_handlers.py:684-712 | a record or move that is refused ends the publication |
| ArtifactProtocol.AbandonedDeletionStays | backend/app/control_plane/domain_handlers.py:366-392 | a deletion cut off after it was requested is never taken up: its record stays as it is and its file stays, whatever publications, maintenance and other deletions do |
| ArtifactHandlers.ArtifactHandlers.PublishFile | backend/app/control_plane/domain_handlers.py:652-712 | an id is returned only for an artifact available with exactly the given content; undisturbed it always is; whatever fails, the staged file is gone, an unpublished record is orphaned and the state stays sound |
| ArtifactHandlers.ArtifactHandlers.CleanUp | backend/app/control_plane/domain_handlers.py:690-712 | after a publication that failed its staged file is gone and a record of it that was not published is orphaned, whatever other processes do in between |
| ArtifactHandlers.ArtifactHandlers.DeleteArtifact | backend/app/control_plane/domain_handlers.py:366-392 | with other processes in between all its steps: if it is done, the record is deleted and the file gone; cut off, the deletion stays requested; if another deletion was first, it raises; a deleted artifact is done, a missing or unpublished one is an error and is left alone; undisturbed, it is done |
| ArtifactHandlers.ArtifactHandlers.Verify | backend/app/control_plane/domain_handlers.py:535-561 | reading record and file again finds at worst that another deletion came first, never other content |
| ArtifactHandlers.ArtifactHandlers.Maintain | backend/app/control_plane/domain_handlers.py:340-363 | removes the files of stale records only, from a list that may be out of date |

## Left out

- The SQLite, PostgreSQL and Celery engines, the Team profile, HTTP routers and the command line: a call is one atomic step, and everything around it is plumbing.
- Audit events, domain runs and the Celery task id: written beside the modelled rows and read by no modelled query; the job request is a field of its job.
- Memberships, projects, access policy and provider reservations: single-branch guards.
- Error codes that an execution merely passes on when the store raises inside its try block are one constant text.
- Python's text comparison of ids and Unicode normalisation of user names: ids are ordered numbers, and names arrive normalised.
- Provider-verified alignment: only the fallback verifier is modelled, because verifying a verified decision again appends reason codes. The order of `allowed_candidate_ids` is not modelled.
- Extraction of profiles, recall sources and feature values are deterministic functions of the facts, and `FeatureExtractor.dfy` says which of the nine features a value is there for; `alignment_selections` rows repeat what a decision holds.
- Timestamps of decisions and candidates, stage manifests and counts; the reason codes, compatibility and confidence of a decision, which follow from its status, selections and set score.
- Symptoms, failure codes and root-cause suggestions of a finding are one given fingerprint; its severity and evidence ids are not modelled.
- `rejected` uploads through the HTTP router differ from `orphaned` publications in the saved status only, which the model allows for any publication.
- AST walking, symbol tables and the paper extractors of the index.
- Asyncio scheduling, semaphores, heartbeat timers and `shutdown` of the backend: calls of other coroutines reach the store between the calls of an execution, and a shutdown is one of the handler's outcomes.
- JobBackend.InProcessJobBackend.Execute: other callers come in while the handler runs only; `ExecuteAmong` has them between all calls and states less about the end.
- JobBackend.InProcessJobBackend.ExecuteAmong: states how the held attempt and the database end, not which status the job gets, which other callers decide as well.
- OutboxDispatch.OutboxDispatcher.DispatchOnce: nobody interrupts the round; `DispatchAmong` is the round with other callers, and a round that is cut off leaves its claims to their leases (`Outbox.LeaseIsExclusive`).
- OutboxDispatch.OutboxDispatcher.Settle: the claim is still held; `DispatchAmong` also has claims that were lost.
- LocalIdentity.LocalIdentityService.Login: does not model the login rate limit, whose counter no other modelled call reads; a login takes whether the password matched.
- Bootstrap tokens, OIDC links and Argon2.
- AlignmentRuns.AlignmentService.ProcessRun: takes runs under construction only, because its one caller holds a lease, and a lease is given for no other run (alignment_store.py:189-211).
- Reviews, deployments and lease times of alignment runs: a lost lease ends a call like a crash.
- EvaluationRuns.EvaluationService.ExecutePending: an adapter does not raise. In the program an exception of one case ends the call while the other cases run on.
- The individual measures of the metric engine but the pass rate: a metric is a quotient of sums or a count over the rows of its group, or the Brier score or calibration error of their samples. `statistics.mean` and float sums are exact here.
- Baselines, comparisons, gates and replay manifests of evaluations.
- ArtifactHandlers.ArtifactHandlers.CleanUp: the orphaned record is saved if its transition is allowed; in the program any error of that save is ignored, also one of the database.
- ArtifactHandlers.ArtifactHandlers.Maintain: the age cut-off and the row limit are not modelled; any listed file may be skipped.
