# Verification model of the Avto School backend

This project models, in Dafny, the five parts of the backend that carry real state or transformation, and proves
what they guarantee over all inputs and all runs.

* **Step queue** (`StepQueue*.dfy`). Sequences of steps are created PENDING, only the first gets a job and a Bull
  message, each success queues the next, a failure parks the sequence, and a retry resumes it. `StepQueueModel` is a
  transition system with one action for each database statement, enqueue, and handler entry or exit, in which any
  number of creations, deliveries and retries of any number of sequences interleave. Handlers may throw and enqueues
  may be refused at any time. `StepQueueService` is the class itself; at every await the other calls may do whatever
  they are able to do, and each method is proved to be a run of the transition system (`StepQueueReach`). On top of its
  invariant stand termination and draining (`StepQueueProgress`), isolation of sequences (`StepQueueIsolation`), refused
  starts (`StepQueueStalling`), job payloads (`StepQueuePayloads`), and the agreement of steps with their jobs
  (`StepQueueJobs`, `StepQueueAgreement`, `StepQueueOvertaking`). The invariant gives each sequence one seat (free, a
  queued message, or a call) and reads its history with a small automaton (`StepQueueTally`).
* **Sessions and refresh tokens** (`Sessions`, `SessionRuns`, `AuthService`). Flagged rows refine one newest-first
  list of at most three sessions per user.
* **Exams** (`Exams`, `ExamRuns`, `ExamsService`). Start, resume, lazy expiry and finish.
* **Answer bank** (`AnswerBank`, `AnswersService`). At most one live correct answer per question, and what exam
  validation then comes down to.
* **Question migration** (`Migration`, `MigrationLaws`, `MigrationScript`) and **pagination** (`Pagination`).

`Lists` and `Wrappers` hold what the parts share.

## Assumptions

* Each Bull message is delivered exactly once, and `stepQueue.add` throws only if nothing was enqueued.
* Database writes succeed, step and job rows are not deleted, and the reset of `retryStep` is atomic with its status
  check. The handler lookup of `executeStep` is one action with the write that follows it.
* The manual `process-next` endpoint is not called: `executeStep` does not check the status of its step.
* Methods of the auth, exam and answer services are serial. Fresh ids are unused, no session id is a user id,
  `createdAt` of sessions is distinct, and each call reads the clock once.
* A signed token is the value it carries and the secret that signs it. Sorting with a random comparator is an
  arbitrary permutation. The id drawn k-th in the migration is the first id plus k; the scraped fields have the types
  of the scraped data.

## Where the code and its comments differ

The model follows the code.

* `refreshTokens` says that it deactivates all sessions of the user, but filters `userId` by the token's session id
  (src/modules/auth/services/auth.service.ts:271-278). `SessionIdFilterHits` gives the exact condition under which that
  update does anything, and `RefreshFilterHitsNothing` shows it never does. A refresh therefore keeps the two newest
  sessions, as a login does, including the one refreshed if it is among them.
* `generateTokens` says that it keeps one previous session (line 373) and keeps two.
* `logout` flags the refresh-token row equal to the request's bearer token, which is an access token, so it flags
  nothing (`LogoutLeavesTokenRows`). Revocation holds all the same, through the session check (`LogoutRevokes`).
* A retry can overtake the last write of the catch block that failed the step. `OvertakingRetryDisagrees` is a reachable
  state in which the step is then COMPLETED and its job FAILED. `RetryOvertakesIff` gives the exact condition, and
  `GuardedRetryIff` gives it as a test of the job's status that the caller of `retryStep` can make before the call.
* A step without a handler is marked FAILED and its job is left as it was. `RejectedStepKeepsItsJob` is an instance, and
  `FailedStepsJob` says exactly when the job of a FAILED step is FAILED.
* When the very first enqueue of a sequence is refused, `createStepSequence` throws and its steps stay PENDING for good:
  `FirstEnqueueRefused` is an instance, `RefusedStartIff` the exact condition and `RefusedForGood` the permanence.
* Marking a deleted answer as correct clears the mark on the live ones (`MarkedIsTheOnlyOne`).
* `finish` checks neither the time nor that the ids submitted belong to the exam, and an exam past its end time stays
  active until someone starts its slot again.

## Model

| member | source | states |
|---|---|---|
| `StepQueueRuns.OneTokenPerSequence` | src/modules/queue/services/step-queue.service.ts:68-98 | In every interleaving of any number of workers, retries and sequences, a sequence has at most one queued message or one call at work (from its start until it returns or has marked the failed step FAILED), never both |
| `StepQueueRuns.FrontierShape` | src/modules/queue/services/step-queue.service.ts:184-206 | In every reachable state the rows of a sequence by stepNumber are COMPLETED, then at most one row in any state, then PENDING, also after handler failures, refused enqueues and retries |
| `StepQueueRuns.OneProcessing` | src/modules/queue/services/step-queue.service.ts:392-404 | At most one step of a sequence is PROCESSING, so the first one a status report finds is the only one |
| `StepQueueRuns.FrontierCounts` | src/modules/queue/services/step-queue.service.ts:401-402 | The counts a status report takes over a list of that shape say exactly where its frontier is and what stands there |
| `StepQueueRuns.StatusReport` | src/modules/queue/services/step-queue.service.ts:392-404 | A report of a whole sequence: `completedSteps` is the length of the COMPLETED prefix and the only PROCESSING or FAILED step is the one right after it |
| `StepQueueRuns.RetrySelectsItsStep` | src/modules/queue/services/step-queue.service.ts:357-381 | Whatever ran since the reset, a retry rebuilds the whole sequence in order and its search selects exactly the step retried |
| `StepQueueRuns.HandsOverToSuccessor` | src/modules/queue/services/step-queue.service.ts:247-256 | After a success the step chosen next is the immediate successor, and none after the last |
| `StepQueueRuns.IdleOutcome` | src/modules/queue/services/step-queue.service.ts:211-266 | A sequence nobody works on is all COMPLETED, or COMPLETED up to k, FAILED at k and PENDING after, with k + 1 deliveries, or its first enqueue was refused and that is its whole history; handler calls = steps passed + throws + refused enqueues, and every failure but the last was answered by one retry |
| `StepQueueRuns.CleanRunCompletes` | src/modules/queue/services/step-queue.service.ts:247-256 | Without throws, refusals and missing handlers an idle started sequence is all COMPLETED after exactly n deliveries and n handler calls |
| `StepQueueRuns.HandlerOrder` | src/modules/queue/services/step-queue.service.ts:211-266 | Handler calls of a sequence start at step 1, never go back, rise by at most one from each call to the next, never overlap, and step k + 1 is called only after a successful call of step k |
| `StepQueueRuns.HandlerOutcomes` | src/modules/queue/services/step-queue.service.ts:247-258 | Every return or throw is that of the handler entered last, for the same step, with nothing of the sequence in between |
| `StepQueueRuns.SuccessPrefix` | src/modules/queue/services/step-queue.service.ts:247-256 | Until an enqueue is refused the successful calls are steps 1, 2, ..., m, once each |
| `StepQueueRuns.CallsBounded` | src/modules/queue/services/step-queue.service.ts:211-266 | Deliveries are at most n, handler calls at most n plus the number of retries |
| `StepQueueRuns.NeverStuck` | src/modules/queue/services/step-queue.service.ts:184-206 | In every reachable state every call in progress can take its next action: the rows it needs exist |
| `StepQueueProgress.MessagesAreDeliverable` | src/modules/queue/services/step-queue.service.ts:127-135 | In every reachable state every queued message, and no other, can be delivered |
| `StepQueueProgress.EventPays` | src/modules/queue/services/step-queue.service.ts:33-266 | Each action and each delivery consumes work that only creations and retries provide |
| `StepQueueProgress.RunsAreFinite` | src/modules/queue/services/step-queue.service.ts:33-387 | The length of any run is bounded by its commands: 22 for a creation and 17 for each of its steps, 17 for a retry, 1 for a registration; actions and deliveries cost nothing |
| `StepQueueProgress.WorkIsLimited` | src/modules/queue/services/step-queue.service.ts:127-266 | From any reachable state actions and deliveries alone come to an end within what remains to be done |
| `StepQueueProgress.QuiescentIff` | src/modules/queue/services/step-queue.service.ts:127-266 | No action and no delivery is possible if and only if the queue is empty and every call has returned; then every sequence is idle |
| `StepQueueProgress.CanDrain` | src/modules/queue/services/step-queue.service.ts:127-266 | From every reachable state, whatever handlers and enqueues decide, actions and deliveries lead to such a state |
| `StepQueueProgress.DrainOutcome` | src/modules/queue/services/step-queue.service.ts:211-266 | With enqueues accepted, handlers present and no retry, every run that can go no further has delivered exactly k messages of a sequence whose handlers first throw at step k and leaves it COMPLETED, FAILED at k, PENDING after, with an empty queue; without a throw all n are delivered and COMPLETED |
| `StepQueueIsolation.EventApart` | src/modules/queue/services/step-queue.service.ts:33-387 | An event of one sequence changes no row, job or history of another |
| `StepQueueIsolation.Isolation` | src/modules/queue/services/step-queue.service.ts:33-387 | Whatever runs elsewhere, the rows, jobs and history of a sequence stay as they are |
| `StepQueueStalling.RefusedStartIff` | src/modules/queue/services/step-queue.service.ts:57-60 | The first enqueue of a sequence was refused if and only if the sequence has steps, none was ever delivered, and nobody is at work on it |
| `StepQueueStalling.NothingHappens` | src/modules/queue/services/step-queue.service.ts:57-60 | No event of any kind can then work on it: it has no message, no call and no step to retry |
| `StepQueueStalling.RefusedForGood` | src/modules/queue/services/step-queue.service.ts:57-60 | In every continuation its rows stay PENDING, and rows, jobs and history unchanged |
| `StepQueueRace.FirstEnqueueRefused` | src/modules/queue/services/step-queue.service.ts:57-60 | A reachable state at rest with such a sequence |
| `StepQueueSafety.KeepEvent` | src/modules/queue/services/step-queue.service.ts:68-266 | The invariant behind these results survives each single action of each call |
| `StepQueueSafety.KeepRun` | src/modules/queue/services/step-queue.service.ts:68-387 | The invariant holds in every reachable state |
| `StepQueueTrace.Ledger` | src/modules/queue/services/step-queue.service.ts:211-266 | In an orderly history deliveries, retries, entries, returns, throws, refusals and rejections balance |
| `StepQueueTrace.DeliveriesInOrder` | src/modules/queue/services/step-queue.service.ts:96-97 | The m-th message delivered for a sequence is that of its step m |
| `StepQueueTrace.NoOverlap` | src/modules/queue/services/step-queue.service.ts:247-247 | Between two handler entries of one sequence the first handler has returned or thrown |
| `StepQueueTrace.NeverGoesBack` | src/modules/queue/services/step-queue.service.ts:184-206 | Nothing that happens to a sequence concerns an earlier step than what happened before |
| `StepQueueContexts.HandlerContext` | src/modules/queue/services/step-queue.service.ts:236-245 | In every execution `currentStepNumber` is the stored stepNumber and `totalSteps` the length of the sequence, wherever the id list came from |
| `StepQueueContexts.ContextsTruthful` | src/modules/queue/services/step-queue.service.ts:236-245 | The same as an invariant of every run: every recorded handler call was given true numbers |
| `StepQueuePayloads.PayloadsListSequences` | src/modules/queue/services/step-queue.service.ts:76-88 | In every run the payload of every job names an existing step and lists exactly the steps of its sequence, in order |
| `StepQueueAgreement.JobsNameSteps` | src/modules/queue/services/step-queue.service.ts:76-94 | In every run a step's jobId names an existing job about that step, and completedAt is set exactly on COMPLETED jobs |
| `StepQueueAgreement.FailedStepsJob` | src/modules/queue/services/step-queue.service.ts:216-264 | In every run, once its catch blocks have finished, a FAILED step has a FAILED job if and only if its handler was ever entered, and a PENDING job otherwise (only ever rejected for want of a handler) |
| `StepQueueAgreement.LastDeedEntered` | src/modules/queue/services/step-queue.service.ts:216-264 | The last deed of the sequence of a FAILED step is a failure of that step, and unless it is a rejection the handler was entered |
| `StepQueueAgreement.CompletedStepsJob` | src/modules/queue/services/step-queue.service.ts:249-253 | If the step was never retried while its job was PROCESSING or COMPLETED, a COMPLETED step has a COMPLETED job, or a call is about to write it; missing handlers do not matter |
| `StepQueueAgreement.GuardIff` | src/modules/queue/services/step-queue.service.ts:257-265 | In such runs the job of a FAILED step is FAILED or PENDING if and only if no catch block of it is under way, and FAILED if and only if moreover its handler was entered |
| `StepQueueOvertaking.RetryOvertakesIff` | src/modules/queue/services/step-queue.service.ts:348-381 | In any reachable state a retry can lead, without a further retry of the step, to a COMPLETED step with a FAILED job and nobody at work if and only if a catch block of the step is still under way when it is taken |
| `StepQueueOvertaking.GuardedRetryIff` | src/modules/queue/services/step-queue.service.ts:348-381 | What a caller can check: after careful retries, the next one can do that harm if and only if the job is then neither FAILED nor PENDING |
| `StepQueueJobs.TrackedRun` | src/modules/queue/services/step-queue.service.ts:216-264 | The invariant behind the job of a FAILED or waiting step, in every run |
| `StepQueueAgreement.CarefulRunAgrees` | src/modules/queue/services/step-queue.service.ts:222-265 | The invariant behind the job of a COMPLETED step, in every careful run |
| `StepQueueRace.OvertakingRetryDisagrees` | src/modules/queue/services/step-queue.service.ts:257-265 | A reachable state at rest in which the step is COMPLETED and its job FAILED, because a retry overtook the last write of the catch block |
| `StepQueueRace.RejectedStepKeepsItsJob` | src/modules/queue/services/step-queue.service.ts:216-220 | A reachable state at rest with a FAILED step without a handler whose job is PENDING |
| `StepQueueReach.RanExtends` | src/modules/queue/services/step-queue.service.ts:43-54 | Over any run the history only grows, and no step ever changes its type, number or sequence |
| `StepQueueServices.StepQueueService.FindNextPendingStep` | src/modules/queue/services/step-queue.service.ts:184-206 | Returns the first PENDING row in stepNumber order with no PENDING or FAILED row before it, and null exactly when there is no such row |
| `StepQueueServices.StepQueueService.FindJobForStep` | src/modules/queue/services/step-queue.service.ts:271-277 | A step being executed always has its job |
| `StepQueueServices.StepQueueService.CreateAndQueueNextJob` | src/modules/queue/services/step-queue.service.ts:68-98 | Is a run of the protocol whatever others do at its awaits. For a new sequence it succeeds if and only if the enqueue is accepted, and then the message of the first step is queued, otherwise the refusal of the start is recorded; after a step it succeeds if and only if the enqueue is accepted or that was the last step, and the next step's message is queued or its refusal recorded |
| `StepQueueServices.StepQueueService.TryStep` | src/modules/queue/services/step-queue.service.ts:222-256 | Succeeds if and only if the handler returns and either the enqueue is accepted or the step was the last; records the handler's return or throw, and queues the next step's message or records its refusal |
| `StepQueueServices.StepQueueService.SettleFailure` | src/modules/queue/services/step-queue.service.ts:257-265 | The catch block runs to its end whatever others do |
| `StepQueueServices.StepQueueService.ExecuteStep` | src/modules/queue/services/step-queue.service.ts:211-266 | Is a run of the protocol that ends the call; it rejects exactly a step whose type has no handler, and otherwise records the handler's outcome and then queues the next step's message or records its refusal |
| `StepQueueServices.StepQueueService.ProcessStepJob` | src/modules/queue/services/step-queue.service.ts:127-166 | Takes the message, records its delivery first, executes exactly its step to its outcome and ends, in any interleaving |
| `StepQueueServices.StepQueueService.ProcessNextStep` | src/modules/queue/services/step-queue.service.ts:171-179 | Called by a retry, executes exactly the step retried |
| `StepQueueServices.StepQueueService.RetryStep` | src/modules/queue/services/step-queue.service.ts:348-387 | Succeeds exactly on a FAILED step, records the retry first, rebuilds the whole sequence in order and executes that step to its outcome; otherwise nothing changes |
| `StepQueueServices.StepQueueService.CreateStepSequence` | src/modules/queue/services/step-queue.service.ts:33-63 | Inserts one row a type, numbered 1 to n in order, and returns their ids, whatever others do meanwhile; it succeeds if and only if the enqueue is accepted or there is no type, and then the first step's message is queued, otherwise the start was refused |
| `StepQueueServices.StepQueueService.GetSequenceStatus` | src/modules/queue/services/step-queue.service.ts:392-415 | The counts are those of the ordered rows, the current step is the first PROCESSING row and null exactly if there is none, and each line gives a row with the status of the job it names |
| `SessionRuns.StepRefines` | src/modules/auth/services/auth.service.ts:358-434 | The rows implement a newest-first list per user: issue and accepted refresh put the new session before the two newest, logout removes one, reset clears, every other list stays |
| `SessionRuns.KeptHeadTheList` | src/modules/auth/services/auth.service.ts:374-400 | The rows spared from retirement are those of the first two sessions of the list |
| `SessionRuns.OthersUntouched` | src/modules/auth/services/auth.service.ts:387-400 | Issuing for one user leaves every row of every other user as it was |
| `SessionRuns.KeepRun` | src/modules/auth/services/auth.service.ts:242-315 | In every run ids stay distinct and every stored refresh token belongs to a session row of its user; rows are only added and never revived |
| `SessionRuns.AtMostThree` | src/modules/auth/services/auth.service.ts:373-412 | No user ever has more than three live sessions |
| `SessionRuns.FromEmptyTables` | src/modules/auth/services/auth.service.ts:358-434 | In any run from empty tables the invariant holds and no user ever has more than three live sessions, all distinct |
| `SessionRuns.ThreeNewest` | src/modules/auth/services/auth.service.ts:373-412 | Without logouts and resets of a user, the list is the three newest of all sessions ever issued |
| `SessionRuns.ValidIffListed` | src/modules/auth/services/auth.service.ts:317-327 | A session validates exactly when it stands in its owner's list |
| `SessionRuns.Survives` | src/modules/auth/services/auth.service.ts:317-327 | Not logged out and not reset, a session at position p stays valid through any run with fewer than 3 - p later issues for its user |
| `SessionRuns.SurvivesExactly` | src/modules/auth/services/auth.service.ts:317-327 | Without logouts and resets a session just issued is valid after a run if and only if fewer than three more were issued |
| `SessionRuns.StaysInvalid` | src/modules/auth/services/auth.service.ts:317-327 | An issued session that does not validate never validates again |
| `SessionRuns.AcceptedIffListed` | src/modules/auth/services/auth.service.ts:248-267 | A refresh token is accepted if and only if it is stored, not flagged, and its session stands in its user's list |
| `SessionRuns.IssuedIsAccepted` | src/modules/auth/services/auth.service.ts:402-431 | A token just issued is accepted and its session heads the list |
| `SessionRuns.ResetRevokes` | src/modules/auth/services/auth.service.ts:588-602 | After a reset no token of any earlier session of the user is accepted in any continuation |
| `SessionRuns.LogoutRevokes` | src/modules/auth/services/auth.service.ts:288-315 | After a logout no token of that session is accepted in any continuation |
| `SessionRuns.StepTokens` | src/modules/auth/services/auth.service.ts:290-297 | A stored token is deleted by a reset of its user, flagged by a logout with it as bearer, and touched by nothing else |
| `SessionRuns.NewTokens` | src/modules/auth/services/auth.service.ts:426-432 | The only token an event stores is the one it issues, not flagged |
| `SessionRuns.AcceptedSurvives` | src/modules/auth/services/auth.service.ts:248-267 | An accepted refresh token stays accepted through every run that does not log out its session, reset its user or use it as bearer of a logout, and issues fewer than 3 - p sessions to its user |
| `SessionRuns.AcceptedExactly` | src/modules/auth/services/auth.service.ts:248-267 | Without logouts and resets of its user, a token just issued is accepted after a run if and only if fewer than three more sessions were issued |
| `SessionRuns.IssueRows` | src/modules/auth/services/auth.service.ts:374-412 | An issue flags the user's rows outside the first two of the list and adds one live row; no other row changes |
| `SessionRuns.LogoutLeavesTokenRows` | src/modules/auth/services/auth.service.ts:290-297 | The token update of a logout, given the access token of the request, changes no row |
| `SessionRuns.SessionIdFilterHits` | src/modules/auth/services/auth.service.ts:271-278 | The update of a refresh changes the table if and only if the session id it filters by owns a live row as a user |
| `SessionRuns.RefreshFilterHitsNothing` | src/modules/auth/services/auth.service.ts:271-278 | With session ids and user ids disjoint that update changes nothing |
| `AuthServices.AuthService.GenerateTokens` | src/modules/auth/services/auth.service.ts:358-434 | Row by row: the user's sessions outside the two newest live ones are flagged inactive and deleted, all other rows stay, one live row is added; the new refresh token is stored and accepted, every other stored token stays |
| `AuthServices.AuthService.RefreshTokens` | src/modules/auth/services/auth.service.ts:242-286 | Succeeds exactly for an unexpired, accepted token, with the rows and tokens of an issue; a refusal changes nothing |
| `AuthServices.AuthService.Logout` | src/modules/auth/services/auth.service.ts:288-315 | Row by row: the live rows of the session become inactive, all others stay; of the tokens only one equal to the bearer and owned by the user would be flagged, so none for an access token |
| `AuthServices.AuthService.ResetPassword` | src/modules/auth/services/auth.service.ts:588-602 | Row by row: the user's active sessions are flagged, all others stay; exactly the user's stored tokens are deleted, every other keeps its value |
| `AuthServices.AuthService.ValidateSession` | src/modules/auth/services/auth.service.ts:317-327 | True exactly for the id of a row that is active and not deleted |
| `ExamRuns.TimeIsUpAtTheEnd` | src/modules/exams/services/exams.service.ts:321-330 | The remaining time, from elapsed minutes rounded down, is 0 exactly from startedAt + timeLimit * 60000 on, the reported end time; before that it is the time left rounded up to minutes |
| `ExamRuns.RemainingNeverRises` | src/modules/exams/services/exams.service.ts:321-322 | Remaining time does not rise as time passes |
| `ExamRuns.CandidatesAre` | src/modules/exams/services/exams.service.ts:226-260 | The candidates are exactly the questions not deleted with the requested subject or ticket, in stored order |
| `ExamRuns.LiveAnswersAre` | src/modules/exams/services/exams.service.ts:254-257 | The options of a question are exactly its answers that are not deleted |
| `ExamRuns.WellPosedIff` | src/modules/exams/services/exams.service.ts:279-282 | A question passes exactly if it has two options or more and one of them and no other is correct |
| `ExamRuns.ObstacleTells` | src/modules/exams/services/exams.service.ts:202-289 | Each refusal, in the order of the checks, with its condition and its numbers |
| `ExamRuns.SelectionIsSound` | src/modules/exams/services/exams.service.ts:226-289 | The questions of a new exam are live, fit the request, have two options or more and one correct, are distinct, at least one, exactly twenty for RANDOM, and all that fit otherwise |
| `ExamRuns.KeepStep` | src/modules/exams/services/exams.service.ts:11-61 | Each start and finish keeps one active exam per (user, SUBJECT, subject), (user, TICKET, ticket) and (user, RANDOM), endedAt set exactly when not active, and plans with limit = count = number of ids |
| `ExamRuns.KeepRun` | src/modules/exams/services/exams.service.ts:11-61 | The same in every serial run |
| `ExamRuns.RunAdvances` | src/modules/exams/services/exams.service.ts:296-308 | Between any two moments of a run questions, count, limit and start of a row are the same, and a row no longer active is unchanged |
| `ExamRuns.ResumesRunning` | src/modules/exams/services/exams.service.ts:179-200 | A start that names its slot resumes the one active exam there |
| `ExamRuns.StaysUntilDeadline` | src/modules/exams/services/exams.service.ts:324-330 | Until its end time an exam not finished stays as it is, whatever is started |
| `ExamRuns.StartsResumeUntilDeadline` | src/modules/exams/services/exams.service.ts:11-14 | Every start for the slot before the end time returns that exam with time left and adds no row |
| `ExamRuns.ExpiresThenCreates` | src/modules/exams/services/exams.service.ts:324-330 | The first start from the end time on returns the exam with no time left and expires it; the next creates a new one or is refused for the reason the checks give |
| `ExamRuns.AfterExpiryOnlyNewer` | src/modules/exams/services/exams.service.ts:179-200 | After that, whatever the slot resumes was created later |
| `ExamRuns.EndedIsFinal` | src/modules/exams/services/exams.service.ts:28-61 | An exam that has ended is never resumed or finished again |
| `ExamRuns.CreatedStays` | src/modules/exams/services/exams.service.ts:291-315 | The row of a created exam keeps the ids of a sound selection, the count, the start and the limit of one minute a question for the rest of the run |
| `ExamRuns.CreatedIsActive` | src/modules/exams/services/exams.service.ts:291-315 | A creation adds one row, and that row is active, not ended, without correct ids, with the user, the request, the start and a minute a question |
| `ExamRuns.CreatedResumes` | src/modules/exams/services/exams.service.ts:11-14 | After a creation every start for the same request before startedAt + timeLimit * 60000 resumes that exam with time left and adds no row, unless the exam was finished |
| `ExamRuns.CreatedFinishes` | src/modules/exams/services/exams.service.ts:28-61 | The owner's first finish of a created exam is accepted and completes it, unless a start after its end time expired it first |
| `ExamRuns.StillLiveOrder` | src/modules/exams/services/exams.service.ts:365-385 | A resume returns exactly the stored ids that name a question not deleted, in stored order |
| `ExamRuns.ResumeReturnsAll` | src/modules/exams/services/exams.service.ts:333-385 | On the questions the exam was created from, a resume returns all of them |
| `ExamRuns.DeletionsCompose` | src/modules/exams/services/exams.service.ts:333-337 | When questions are only deleted, a later resume shows what an earlier one would show after the later deletions |
| `ExamRuns.ValidatorOnSoundBank` | src/modules/exams/services/exams.service.ts:272-289 | Given at most one correct answer a question, validation passes exactly when there are enough questions and each has two options and some correct one |
| `ExamsServices.ExamsService.StartExam` | src/modules/exams/services/exams.service.ts:11-26 | Is one step of the protocol; a created row is active and last in the table; the response shows the row's plan and end time and, for each stored id still live, the question with some arrangement of its live answers |
| `ExamsServices.ExamsService.FindActiveExam` | src/modules/exams/services/exams.service.ts:179-200 | Finds a row of the user that is active, of the type, and of the subject or ticket if one is given, any of them, exactly when there is one |
| `ExamsServices.ExamsService.GetQuestionsByType` | src/modules/exams/services/exams.service.ts:226-270 | Refuses with the first failing check, otherwise selects questions that are not deleted and carry the requested subject or ticket: some twenty in some order for RANDOM, all in stored order otherwise |
| `ExamsServices.ExamsService.CreateExamSession` | src/modules/exams/services/exams.service.ts:291-315 | Appends an active row with the ids of the questions in order, their number as count and limit, and the start |
| `ExamsServices.ExamsService.FormatResumed` | src/modules/exams/services/exams.service.ts:317-403 | Sets the row expired and its end exactly from startedAt + timeLimit * 60000 on, and shows its questions either way |
| `ExamsServices.ExamsService.FormatQuestions` | src/modules/exams/services/exams.service.ts:333-385 | One entry a stored id still live, in stored order, with its live answers rearranged; no question shown is deleted |
| `ExamsServices.ExamsService.FormatNew` | src/modules/exams/services/exams.service.ts:406-436 | A new exam shows the questions just selected, in that order, with their live answers rearranged |
| `ExamsServices.ExamsService.Finish` | src/modules/exams/services/exams.service.ts:28-61 | Succeeds exactly on the user's own active exam, completes it and stores the ids submitted |
| `Lists.Shuffle` | src/modules/exams/services/exams.service.ts:264-264 | Sorting with a random comparator gives some rearrangement |
| `AnswerBank.KeepRequest` | src/modules/answers/services/answers.service.ts:106-276 | No create, bulk create, update or removal, accepted or refused, gives a question two live correct answers |
| `AnswerBank.KeepRun` | src/modules/answers/services/answers.service.ts:106-276 | The same after any sequence of requests |
| `AnswerBank.SoundCounts` | src/modules/answers/services/answers.service.ts:109-115 | The invariant says that the set of live correct answers of each question has at most one element |
| `AnswerBank.RefinesKeys` | src/modules/answers/services/answers.service.ts:106-276 | The table refines one optional key per question: each request changes the keys of each question as stated and no others |
| `AnswerBank.MarkedIsTheOnlyOne` | src/modules/answers/services/answers.service.ts:209-245 | Marking an answer correct makes it the only one; on a deleted answer it leaves the question with none |
| `AnswerBank.BulkCreatesOne` | src/modules/answers/services/answers.service.ts:134-180 | An accepted bulk creation leaves the question with exactly the correct answer marked in the request |
| `AnswersServices.AnswersService.Create` | src/modules/answers/services/answers.service.ts:106-132 | Refused exactly if marked correct while the question has a live correct answer, and then nothing changes; otherwise one row with the given fields is added |
| `AnswersServices.AnswersService.CreateMultiple` | src/modules/answers/services/answers.service.ts:134-180 | Refused for two marks, for none, or for a live correct answer before, each exactly then; otherwise one row an item with the given fields is added, in order |
| `AnswersServices.AnswersService.Update` | src/modules/answers/services/answers.service.ts:209-265 | Refused exactly if there is no such answer; otherwise the row gets the given title and mark, a marking takes the mark from the question's other rows not deleted, and no row changes otherwise |
| `AnswersServices.AnswersService.Remove` | src/modules/answers/services/answers.service.ts:267-276 | Refused exactly if there is no such answer; otherwise that row is flagged deleted and every other row stays as it was |
| `MigrationScript.MigrateQuestions` | scripts/migrate_questions.js:24-167 | Succeeds exactly if every lesson with questions is a known subject, and fails with the first question, by id, that has none; the tables are those described by the laws below, with a sound answer table |
| `MigrationScript.PushAnswers` | scripts/migrate_questions.js:100-131 | The loop appends one row an index of the longest language, with ids drawn in order |
| `MigrationScript.MapQuestions` | scripts/migrate_questions.js:81-145 | The mapping loop with its mutable answer list produces exactly the rekeyed questions and their answers, or stops at the first question without a subject |
| `MigrationLaws.GroupingIsKept` | scripts/migrate_questions.js:86-97 | Questions share a ticket if and only if they share a bilet, a subject if and only if they share a lesson |
| `MigrationLaws.FilesAreKept` | scripts/migrate_questions.js:93-93 | Questions share a file if and only if they share a photo, and have none if and only if the photo is null |
| `MigrationLaws.KeysResolve` | scripts/migrate_questions.js:86-93 | Every key of a question names a row that carries the bilet, the subject's name or the photo it replaces |
| `MigrationLaws.AnswersResolve` | scripts/migrate_questions.js:121-123 | Every answer belongs to a migrated question |
| `MigrationLaws.QuestionIdsDiffer` | scripts/migrate_questions.js:84-84 | Question ids are distinct |
| `MigrationLaws.AnswersOfQuestion` | scripts/migrate_questions.js:100-131 | The answers of a question are its scraped ones: at each index the text of each language's list, or nothing beyond its end, and the mark exactly where the status points; none lost or given to another question |
| `MigrationLaws.AnswerCountIsLongest` | scripts/migrate_questions.js:104-108 | Their number is the length of the longest of the three lists |
| `MigrationLaws.OneCorrectIff` | scripts/migrate_questions.js:102-112 | At most one answer is correct, and one is if and only if the status, or 1 if absent or 0, is between 1 and their number |
| `MigrationLaws.AnswersAreSound` | scripts/migrate_questions.js:81-131 | The migrated answers satisfy the answer bank's invariant |
| `MigrationLaws.WellPosedIff` | scripts/migrate_questions.js:99-131 | A migrated question can be asked in an exam if and only if it has two answers and its status points at one |
| `MigrationLaws.QuestionsAreKept` | scripts/migrate_questions.js:37-45 | No question is lost or invented; they are sorted by id, and those with equal ids keep their order |
| `MigrationLaws.FlattenAt` | scripts/migrate_questions.js:37-44 | The j-th question of the k-th lesson comes after those of earlier lessons and the j before it, tagged with its lesson |
| `MigrationLaws.SubjectsAre` | scripts/migrate_questions.js:24-35 | One subject row an entry of the data, in order, with its name, under different ids |
| `MigrationLaws.TicketsAre` | scripts/migrate_questions.js:47-60 | One ticket a bilet of the questions, in ascending order, under different ids |
| `MigrationScript.PhotosAreFiles` | scripts/migrate_questions.js:62-79 | There is one file for each photo that is not null, in whatever order |
| `Pagination.LastPageIsLeast` | src/common/utils/api-response.util.ts:50-50 | The reported last page is the number of pages needed: enough, and one fewer is not |
| `Pagination.RecordSays` | src/common/utils/api-response.util.ts:50-65 | The record gives the number of rows as total, the page and limit asked for, and the last page |
| `Pagination.PagesPartition` | src/modules/answers/services/answers.service.ts:91-103 | Reading pages 1 to the last in turn gives every row exactly once, in order |
| `Pagination.PageSizes` | src/modules/answers/services/answers.service.ts:91-103 | Pages before the last are full, the last holds the rest and is non-empty unless the list is empty, later ones are empty |
| `Pagination.RowIsOnPage` | src/modules/answers/services/answers.service.ts:94-94 | Each row is on exactly one page, at the place its position says |

## Left out

- StepQueueServices.StepQueueService.ProcessStepJob: its own catch block is not modelled, because it is reached only when a step row is missing or a write fails.
- StepQueueServices.StepQueueService.RetryStep: the check of the status and the reset are one action.
- StepQueueServices.StepQueueService.GetSequenceStatus: the timestamps of the report are not modelled.
- AuthServices.AuthService.RefreshTokens: the age of a token is a verdict of the token library and a parameter here; `expiresAt` of stored rows is written but never read by the code.
- ExamsServices.ExamsService.StartExam: `isSaved`, files, info texts, and subject and ticket details of the response are copied from other tables and not modelled.
- AnswersServices.AnswersService.Create: the foreign-key check on the question is the database's.
- MigrationScript.MigrateQuestions: `created_at` stamps and the order of files (whose comparator is not an order) are not modelled; the batch inserts are the database's.
- The manual `process-next` endpoint and the redelivery of stalled Bull messages.
- Data and results of jobs, user ids of steps, step timestamps and WebSocket events.
- `getExamStatistics`: counts and a maximum over the rows modelled here.
- One-time codes, mail, Google sign-in, roles and permissions, user administration, saved questions, file storage, and the list filters of `findAll`.
- JWT signing, bcrypt, Redis, MinIO, translation and search are foreign libraries.
- The scraper and photo downloader scripts, controllers, DTO validation and Swagger.
- Races between concurrent check-then-insert calls of the exam, answer and auth services.
