# Verification of the résumé-matching services

This project models the parts of the system whose correctness depends on many functions working
together, and proves what they promise for every input, every interleaving and every run:

* **The durable task protocol** (processing tasks, transactional outbox, publishers, queue and local
  workers, temporary uploads, résumé revisions). `Rows` holds the tables, `Tasks`, `Outbox`, `Resume`
  and `Worker` say what each transaction does to them, and `Deployment` is the whole system as a state
  machine: every transaction, queue operation and storage operation is one step, anything may happen
  between two steps, and a crashed process is one that takes no further step. `Database`, `Publisher`
  and `LocalWorker` are the same code in its imperative form (classes with the loops and row updates),
  proved equal to those functions and to runs of the state machine. What an operation leaves in the
  rows is said without those functions in `TaskLaws`, `ResumeLaws`, `WorkerLaws` and `PublisherLaws`,
  which also say what one transaction means for the next.
* **The idempotent save, browser and server together** (`SaveController`, `SaveProtocol`): any number
  of browsers with the retrying controller, a network that loses, delays and duplicates, and the save
  handler with its two transactions, on top of `Deployment`. `SaveReports` says what the user is told;
  `DraftStuck`, `DraftRuns`, `RequestFate` and `KeyFinality` settle for which answers a browser may give
  its key up.
* **The processing slot** (`Slot`, `SlotService`): threads, leases with deferred release, killable
  children and their pipes; what can never happen (`SlotTheorems`) and what always can (`SlotProgress`).
* **Catalogue import and ranking** (`Catalogue`, `Importer`, `ImportSession`, `ImportRuns`, `Scoring`,
  `SqlRanking`): the optimistic import with its vector cache, the in-memory scorer and the SQL query;
  `ImportLaws` and `RankingLaws` say on the rows what is stored and ranked.
* **Chunking under a token limit** (`Chunking`, `ChunkText`, `ResumeChunks`) and **calendar durations**
  (`ContractDuration`).

`dafny verify dfyconfig.toml` checks the whole project.

## What the proofs brought to light

* Local mode can stop for good. `run_one` rolls back the transition that ends a task without attempts
  left, so an embedding whose last attempt was lost stays due, and no younger embedding
  of any user starts until its owner deletes the résumé (`LocalQueue.QueueStopsUntilDeleted`; such
  states occur, `LocalQueue.JammedIsReachable`). `run_one` makes progress exactly when an attempt is
  left (`LocalQueue.ClaimedExactlyWithAttemptsLeft`); queue mode ends such a task. The comment at
  src/backend/app/processing/local_worker.py:49 speaks of no lost work, and nothing is lost: it waits.
* Queue mode can lose a task's last message after a retry. `run_queue_message` deletes a message
  whenever its row is RETRY_WAIT, also between a publisher's send and its acknowledgement
  (`LostMessage`). An acknowledgement leaves its live task published without an undeleted message if and
  only if the message sent by that very publication was received inside this window and the task has no
  other undeleted one (`WindowLoss.AcknowledgementLosesExactly`). Before the first recorded retry, and in
  every publication without such a receipt, a published live task has an undeleted message.
* A published RETRY_WAIT row is always due, so its receipt claims it; the deletion above can only hit
  a row whose event is not SENT (`QueueSafety.PublishedRetryIsClaimed`).
* The comment at src/frontend/src/features/resume/model/saveController.ts:342-343 says that the server
  stored a terminal result for every remaining error. For a 503 from the privacy check, and for a draft
  that is not good, it did not, and a duplicate of the request may still be saved under the key that the
  controller has dropped. The model follows the code. A request can still be saved by some run exactly
  when it is saved already, or its key is free, the account has not passed its revision and the draft it
  names, if any, is good or is still being made and can be finished
  (`KeyFinality.EverSavedExactlyWhileOpen`). So dropping the key (`KeyFinality.RefusalsSettleExactly`)
  - after REVIEW_REQUIRED is always final;
  - after REVISION_CONFLICT is final unless the request is ahead of the account and names no draft;
  - after OPERATION_EXPIRED is final unless the operation has succeeded;
  - after IDEMPOTENCY_CONFLICT is final unless the request was saved while the server ran another
    embedding version, which is part of the payload hash;
  - after TASK_NOT_FOUND is final unless the draft named is the account's own live extraction at the
    request's revision, the store's TTL is positive and the extraction can be finished;
  - after SERVICE_UNAVAILABLE is final only as the general condition says;
    `KeyFinality.UnavailableIsReachable` is a run in which the user is told FAILED and the save happens.
* No operation row is ever stored PROCESSING, so SAVE_IN_PROGRESS is never answered
  (`SaveTheorems.RowsAreSettled`).
* Importer and scorer use different keys for logical duplicates. They differ exactly when one row has
  no alternatives and the other has its own text as its only alternative; then the SQL query and the
  scorer average over different requirements, and their rankings can list the same jobs in opposite
  orders on a catalogue that one import of two jobs produces (`RankingGap`). They average over the same
  requirements exactly when no two REQUIRED rows of the job collide, and then the rankings are equal
  (`RankingEquality`); in general the rankings are equal exactly when the duplicates move no scored job's
  mean (`RankingExactness`).
* The total reported by `rank_jobs_sql` is wrong exactly for limit 0 and offset 0 on a non-empty
  ranking (`RankingEquality.PagesAndTotals`).
* A hard split loses what stands before the first token of a unit, and a unit without tokens; nothing
  else (`Chunking.HardSplitKeepsTheText`).
* The slot holder never frees the slot before a child it has given up is dead, joined and closed. A
  child taken by `stop()` is in `stop()`'s hands instead and may be dying while the slot is free already;
  `SlotTheorems.OperatesOnlyUnderALease` therefore excepts it. A child that dies while idle is dropped by
  `try_acquire` without join and without closing its pipe.

## Assumptions

* Each database transaction is atomic and sees one clock reading; READ COMMITTED anomalies, lock waits,
  `skip_locked` and the ORM's identity map are not modelled. Times are whole seconds and never go back.
* Every `uuid4()` is a fresh number. Hashes (`_payload_hash`, `job_content_hash`, `contentSignature`)
  are injective, so rows hold what was hashed. An outbox event is keyed by its task.
* Model internals are arbitrary functions: the embedding of a content or text under a version, the
  similarity of two vectors, one rounding function shared by both rankings, the token counter. Vectors
  and scores are exact reals.
* Uploads are enqueued within the TTL of the temporary store.
* A browser that reads the profile again at the end of a save sees it as it is at that moment.
* `start()` of the processing service runs once and does not overlap `stop()`; installing a replacement
  child and the end of the thread that loaded it are one step.

## Model

| member | source | states |
|---|---|---|
| Database.Database.EnqueueTask | src/backend/app/processing/tasks.py:74-103 | adds exactly one PENDING task with its PENDING event, or nothing when the identity is taken |
| Database.Database.ClaimTask | src/backend/app/processing/tasks.py:106-144 | the whole new state of a claim: refused, ended for lack of attempts together with its event, or leased under a fresh token |
| Database.Database.ClaimPublishedTask | src/backend/app/processing/tasks.py:179-199 | only a SENT task of the asked kind is claimed, with its own owner |
| Database.Database.CompleteTask | src/backend/app/processing/tasks.py:202-246 | success only for the live lease holder at the account's revision; a stale revision cancels task and event |
| Database.Database.FailTask | src/backend/app/processing/tasks.py:249-297 | only the live lease holder moves the task, to RETRY_WAIT with a requeued event or to FAILED with a cancelled one |
| Database.Database.CancelOwnerTasks | src/backend/app/processing/tasks.py:300-336 | the loop cancels all live work and kept drafts of the owner with their events, counts them, and touches nothing else |
| Database.Database.CancelOutbox | src/backend/app/processing/tasks.py:339-345 | the event of the task, if any, is CANCELLED and gives up its lease |
| Database.Database.ClaimOutboxBatch | src/backend/app/processing/outbox.py:42-85 | of the events due at the query's time the first in its order, at most `limit`, are leased, each under its own fresh token until the end of the lease, and delivered once in that order; nothing else changes |
| Outbox.SelectionExists | src/backend/app/processing/outbox.py:54-68 | the query has a result for every table, limit and time |
| Database.Database.AckOutbox | src/backend/app/processing/outbox.py:88-107 | only the live holder of the event makes it SENT |
| Database.Database.RetryOutbox | src/backend/app/processing/outbox.py:110-132 | only the live holder of the event gives it back as PENDING, due later |
| Database.Database.SaveResume | src/backend/app/api/resume.py:424-479 | the save transaction with all its refusals, including the rollback when enqueueing fails |
| Database.Database.DeleteResumeRows | src/backend/app/api/resume.py:498-529 | a deletion at the expected revision cancels the owner's work, removes profile and chunks and reports the uploads to delete |
| Database.Database.DiscardExtraction | src/backend/app/api/resume.py:316-354 | only the owner's extraction is cancelled, with its event, and its upload is reported |
| Database.Database.FinishExtraction | src/backend/app/processing/local_worker.py:221-243 | a draft is stored only by a fenced completion; a stale one keeps its cancellation; the upload to delete in each case |
| Database.Database.FinishEmbedding | src/backend/app/processing/local_worker.py:245-272 | chunks are replaced only by a fenced completion |
| Database.Database.FailClaimed | src/backend/app/processing/local_worker.py:274-305 | a failure ends or retries only the caller's own claim, and deletes an upload only when it ended the task |
| Database.Database.CleanUpRows | src/backend/app/processing/local_worker.py:307-343 | expired drafts are forgotten, stale extractions ended with their events, and the references read are those still live afterwards |
| Database.CleanedInTwoPasses | src/backend/app/processing/local_worker.py:311-338 | the two loops of the clean-up commute into one independent decision per row |
| Publisher.OutboxPublisher.PublishOnce | src/backend/app/processing/outbox_publisher.py:19-62 | tables, messages and count after a whole call on the rows the query selects, at most its limit, whatever fails for each delivery |
| Publisher.OutboxPublisher.DispatchOutbox | src/backend/app/processing/local_worker.py:46-84 | the same for the local dispatcher, which acknowledges without a message, 20 rows at most |
| Publisher.BatchIsRun | src/backend/app/processing/outbox.py:42-85 | one batch transaction is a run of single claims of the system |
| Publisher.PublishBatchIsRun | src/backend/app/processing/outbox_publisher.py:19-62 | a whole publisher call, transport faults included, is a run of the system, so every theorem about runs covers it |
| LocalWorker.LocalWorker.RunQueueMessage | src/backend/app/processing/local_worker.py:124-198 | malformed messages are kept and hidden, the first well-formed one is handled: tables, messages, visibility delays, stored objects and the boolean result afterwards, for every handler result |
| LocalWorker.LocalWorker.ProcessClaimed | src/backend/app/processing/local_worker.py:102-122 | the handler's result or exception decides which transaction ends the claim |
| LocalWorker.LocalWorker.RunOne | src/backend/app/processing/local_worker.py:86-100 | one local pass, with the rollback of a claim that yields nothing; the result is true exactly if a task was claimed |
| LocalWorker.RunMessageIsRun | src/backend/app/processing/local_worker.py:124-198 | a whole pass over a message is a run of the system |
| LocalWorker.RunNextIsRun | src/backend/app/processing/local_worker.py:86-122 | a whole local pass is a run of the system |
| RowInvariant.EnqueueKeeps | src/backend/app/db/models.py:172-187 | enqueueing keeps the check constraints, the identities and the coupling of tasks and events |
| RowInvariant.ClaimKeeps | src/backend/app/processing/tasks.py:106-144 | a claim keeps them and is a legal evolution of the row |
| RowInvariant.CompleteKeeps | src/backend/app/processing/tasks.py:202-246 | a completion keeps them and is a legal evolution of the row |
| RowInvariant.FailKeeps | src/backend/app/processing/tasks.py:249-297 | a failure keeps them and is a legal evolution of the row |
| TaskLaws.ClaimCompletesUntilTheLeaseEnds | src/backend/app/processing/tasks.py:106-246 | a claim's token completes the task if and only if its lease still runs and task and account are at the revision given |
| TaskLaws.ClaimExcludesUntilTheLeaseEnds | src/backend/app/processing/tasks.py:106-144 | a second claim is refused exactly while the lease runs or for another owner; afterwards it takes the task under a newer token if an attempt is left |
| TaskLaws.RetryWaitsForItsDelay | src/backend/app/processing/tasks.py:249-297 | a failure is retried exactly while attempts are left, and then task and event are due exactly from the delay on |
| TaskLaws.EventIsAcknowledgedOnce | src/backend/app/processing/outbox.py:88-107 | a claimed event is acknowledged exactly until its lease ends, and once |
| TaskLaws.EventIsDueAgain | src/backend/app/processing/outbox.py:42-132 | a leased event is due again exactly when its lease has ended, a returned one exactly after its delay |
| TaskLaws.IdentityIsTakenOnce | src/backend/app/processing/tasks.py:74-103 | enqueueing takes exactly one identity |
| TaskLaws.CancellationIsComplete | src/backend/app/processing/tasks.py:300-336 | no work or kept draft of the owner survives, everybody else's rows are untouched |
| TaskLaws.CancellationIsIdempotent | src/backend/app/processing/tasks.py:300-336 | a second cancellation finds nothing and changes nothing |
| TaskLaws.ClaimTakesAnAttempt | src/backend/app/processing/tasks.py:106-144 | what a claim leaves in the rows: an attempt counted and a lease with a fresh token, the end of a task without attempts together with its event, or nothing, and exactly when each |
| TaskLaws.CompletionLeaves | src/backend/app/processing/tasks.py:202-246 | what a completion leaves in the rows for the live holder at the account's revision, for a stale one and for anybody else |
| TaskLaws.FailureLeaves | src/backend/app/processing/tasks.py:249-297 | what a failure leaves in the rows: a later retry with the event offered again, the end with the event cancelled, or nothing, and exactly when each |
| TaskLaws.QueryTakesTheOldest | src/backend/app/processing/outbox.py:54-68 | the publisher's query returns due events only, those due longest first, and leaves none out before its limit |
| TaskLaws.QueryTakesTheNext | src/backend/app/processing/tasks.py:147-176 | the local worker's query returns a waiting task that no other precedes, and returns one whenever there is one |
| TaskLaws.CleanUpLeaves | src/backend/app/processing/local_worker.py:307-343 | the clean-up row by row: stale extractions end with their events, expired drafts are forgotten, nothing else changes |
| TaskLaws.CleanUpRefs | src/backend/app/processing/local_worker.py:311-343 | the uploads a clean-up deletes are those of the extractions it ends, those it keeps are those of live tasks |
| WorkerLaws.ExtractionIsStored | src/backend/app/processing/local_worker.py:86-243 | a pass of either mode over a startable extraction stores the draft at the account's revision for the TTL, ends the task as SUCCEEDED, deletes upload and message, and changes nothing else |
| WorkerLaws.StaleExtractionIsCancelled | src/backend/app/processing/local_worker.py:221-243 | when the account has moved on, the draft is dropped, task and event are cancelled, upload and message deleted |
| WorkerLaws.EmbeddingIsStored | src/backend/app/processing/local_worker.py:86-272 | a pass over a startable embedding of the current profile stores exactly its chunks in place of all others, and ends the task as SUCCEEDED |
| WorkerLaws.FailureIsRetriedOrEnds | src/backend/app/processing/local_worker.py:102-305 | a handler error, a missing input or a stale profile leads to a retry five seconds later exactly while it is retryable and an attempt is left, otherwise to FAILED with the upload deleted; in both modes |
| WorkerLaws.IdleMessage | src/backend/app/processing/local_worker.py:142-170 | a message that starts no task: attempts used up end the task, otherwise the tables stay; the message is deleted exactly when nothing is left to do for it, and hidden for the stated time otherwise |
| WorkerLaws.IdlePass | src/backend/app/processing/local_worker.py:86-97 | a local pass that starts no task changes nothing |
| WorkerLaws.FirstIsTaken | src/backend/app/processing/local_worker.py:124-141 | of a receive the first well-formed message is handled, those before it stay and are hidden for 30 seconds |
| PublisherLaws.TakenRowsArePublished | src/backend/app/processing/outbox_publisher.py:19-62 | every row a call takes ends SENT under no fault, and otherwise PENDING and due five seconds later; in queue mode each row has one new message unless its send failed; the result counts the SENT ones; nothing else changes |
| PublisherLaws.DeliveriesAreHandled | src/backend/app/processing/outbox_publisher.py:27-62 | the same for deliveries whose tasks and leases have changed since they were taken: given-up tasks get their events cancelled, lost leases change nothing |
| ResumeLaws.SaveStoresWhatWasSent | src/backend/app/api/resume.py:424-479 | an accepted save leaves exactly the content sent, a new revision if and only if the content is new, no old chunks, and other accounts alone |
| ResumeLaws.ReplayRepeatsTheAnswer | src/backend/app/api/resume.py:146-166 | the same key and payload repeat the revision until the row expires, another payload is refused, nothing is written |
| ResumeLaws.SavingAgainChangesNothing | src/backend/app/api/resume.py:424-479 | saving the same content under another key creates no second revision, and succeeds exactly while the draft it names, if any, is still good |
| ResumeLaws.DeletionIsComplete | src/backend/app/api/resume.py:498-529 | a deletion leaves neither profile nor chunks, and moves the revision if and only if there was a resume or work |
| ResumeLaws.DeletionOutdatesWhatWasRead | src/backend/app/api/resume.py:379-388 | saves and deletions based on an earlier revision are refused after an effective deletion |
| ResumeLaws.DraftIsGoodUntilItExpires | src/backend/app/api/resume.py:436-447 | a finished draft can be saved exactly until it expires, by its owner at its revision, and never after it was discarded |
| ResumeLaws.SaveLeavesItsTask | src/backend/app/api/resume.py:449-473 | an accepted save of new content leaves exactly one new PENDING embedding at the new revision, one of unchanged content exactly one if and only if an embedding of its revision has FAILED |
| ResumeLaws.SaveAnswers | src/backend/app/api/resume.py:379-447 | which answer a save gets, in the order of its checks; a refusal writes nothing |
| ResumeLaws.SaveStoresItsKey | src/backend/app/api/resume.py:474-479 | an accepted save stores its key with request and revision for a day, and no other operation |
| ResumeLaws.ReviewIsStored | src/backend/app/api/resume.py:398-435 | a privacy review uses the key up for a day and writes nothing else |
| ResumeLaws.UploadIsEnqueued | src/backend/app/api/resume.py:242-265 | an upload becomes one PENDING extraction at the account's revision with its event, unless it was enqueued before |
| ResumeLaws.DiscardingEndsTheExtraction | src/backend/app/api/resume.py:316-354 | discarding cancels the account's own extraction with its event and reports its upload; nobody else's task and no embedding is touched |
| ResumeLaws.DeletionReportsUploads | src/backend/app/api/resume.py:509-526 | a deletion reports exactly the uploads of the account's extractions |
| DeploymentTheorems.StepKeeps | src/backend/app/processing/local_worker.py:124-356 | every step of every process keeps the system invariant, and the tables only move forward |
| DeploymentTheorems.RowsCoupled | src/backend/app/db/models.py:172-221 | in every reachable state: lease fields exactly in the leased states, attempt bounds, and FAILED or CANCELLED if and only if the event is CANCELLED, PROCESSING or SUCCEEDED only with SENT |
| DeploymentTheorems.ChunksAreCurrent | src/backend/app/processing/local_worker.py:211-272 | stored chunks, and a SUCCEEDED embedding at the account's revision, always mean the embedding of the profile's content at that revision: no late or superseded worker publishes a stale one |
| ContentSafety.StepKeepsContent | src/backend/app/api/resume.py:424-479 | saves, deletions and completions together keep profile, revision, chunks and what workers have read consistent |
| ContentSafety.DeleteEmptiesRows | src/backend/app/processing/local_worker.py:256-258 | deleting by revision leaves no row of the user, so the unique position index cannot be violated |
| DeploymentTheorems.CompletesAtMostOnce | src/backend/app/processing/tasks.py:202-246 | no task completes twice in a run |
| DeploymentTheorems.CompletionIsFenced | src/backend/app/processing/tasks.py:202-246 | whoever completes holds the newest token ever issued for the task, under a live lease and the account's revision |
| DeploymentTheorems.SupersededHolderIsPowerless | src/backend/app/processing/tasks.py:202-297 | after its token was reissued or given up a holder changes nothing by completing or failing, at any later time |
| DeploymentTheorems.ExpiredHolderIsPowerless | src/backend/app/processing/tasks.py:202-297 | the same once its lease has run out, claimed again or not |
| DeploymentTheorems.TerminalIsFinal | src/backend/app/processing/tasks.py:300-336 | terminal states are final apart from the owner's cancellation, which absorbs |
| DeploymentTheorems.TransitionsBounded | src/backend/app/processing/tasks.py:121-143 | every lifecycle transition lowers a measure of unused attempts, processing bit and terminal rank |
| DeploymentTheorems.TransitionsOfATask | src/backend/app/processing/tasks.py:121-143 | a task makes at most 3 + 2 * max_attempts transitions, whatever happens |
| DeploymentTheorems.ClaimsBounded | src/backend/app/processing/tasks.py:130-143 | a task is claimed at most max_attempts times, reclaims after lost leases included |
| DeploymentTheorems.LiveInputIsStored | src/backend/app/processing/local_worker.py:282-356 | a live extraction's upload is stored, and no deletion decided or still to be decided by a started sweep can hit it |
| StorageSafety.UploadIsNew | src/backend/app/api/resume.py:242-265 | the upload reference is new to every task, so prepare_resume never meets the unique constraint |
| StorageSafety.SweepObjectKeeps | src/backend/app/processing/local_storage.py:85-99 | an orphan sweep that read its references earlier deletes no live input |
| StorageSafety.CleanUpDeletes | src/backend/app/processing/local_worker.py:307-356 | a clean-up deletes the uploads of the extractions it ends and sweeps exactly the objects that no live task needs and that are as old as the TTL |
| DeploymentTheorems.PublishedTaskHasMessage | src/backend/app/processing/local_worker.py:142-196 | a SENT live task has a message nobody has decided to delete, unless the message of its last publication was received between send and acknowledgement |
| DeploymentTheorems.NoLossBeforeFirstRetry | src/backend/app/processing/outbox_publisher.py:27-58 | before a task's first recorded retry a SENT live task always has an undeleted message, despite lease expiry, duplicates and crashes |
| QueueSafety.PublishedRetryIsClaimed | src/backend/app/processing/local_worker.py:142-164 | a published RETRY_WAIT row is due, so its receipt claims it |
| QueueSafety.DisposedSafely | src/backend/app/processing/local_worker.py:142-170 | when a received message may be thrown away without losing its task |
| WindowLoss.AcknowledgementLosesExactly | src/backend/app/processing/local_worker.py:142-170 | in every run an acknowledgement leaves its live task SENT without an undeleted message if and only if the message its own publication sent was received inside its window and the task has no other undeleted one |
| WindowLoss.ExposedWasReceived | src/backend/app/processing/outbox_publisher.py:38-42 | a task counts as exposed only if such a receipt happened in the publication that holds its event |
| LostMessage.WindowReceiptLoses | src/backend/app/processing/local_worker.py:156-157 | every receipt of the only message inside that window loses the task's delivery |
| LostMessage.LossIsReachable | src/backend/app/processing/local_worker.py:156-157 | a run from the empty system to a published live task without any message |
| LocalQueue.ClaimedExactlyWithAttemptsLeft | src/backend/app/processing/local_worker.py:86-97 | run_one claims the oldest due task if and only if an attempt is left, and otherwise writes nothing |
| LocalQueue.QueueModeEndsIt | src/backend/app/processing/tasks.py:130-136 | the queue worker ends such a task with ATTEMPTS_EXHAUSTED |
| LocalQueue.JammedStays | src/backend/app/processing/local_worker.py:86-97 | in local mode no step but the owner's deletion moves an embedding whose last attempt was lost |
| LocalQueue.QueueStopsUntilDeleted | src/backend/app/processing/tasks.py:158-171 | from then on no younger embedding of any user is ever claimed until that deletion |
| LocalQueue.JammedIsReachable | src/backend/app/processing/local_worker.py:86-97 | three crashed workers lead there from the empty system |
| SaveController.ResumeSaveController.HoldAttempt | src/frontend/src/features/resume/model/idempotency.ts:48-72 | the held key is kept exactly for the same revision and payload, otherwise a new one is drawn |
| SaveController.ResumeSaveController.SendUntilSettled | src/frontend/src/features/resume/model/saveController.ts:165-356 | at most four PUTs of one key and request; each but the last was answered by an outcome that asks for another |
| SaveController.ResumeSaveController.Save | src/frontend/src/features/resume/model/saveController.ts:141-357 | one call as a conversation: what was sent and the waits; for the last outcome exactly which status is reported, with which revision, and when the profile is read again and the key held on |
| SaveController.ResumeSaveController.ResolveOperation | src/frontend/src/features/resume/model/saveController.ts:364-456 | polls one operation only; a saved status if and only if the last answer says SUCCEEDED, at the revision it names; the key is dropped exactly on settled answers |
| SaveTheorems.CallIsAConversation | src/frontend/src/features/resume/model/saveController.ts:141-357 | what the controller's code does in a call is what its browser does in the protocol |
| SaveTheorems.NetStepKeeps | src/backend/app/api/resume.py:358-494 | every step of browsers, network and server keeps the protocol's invariant |
| SaveTheorems.CommitsOncePerKey | src/backend/app/api/resume.py:146-166 | under loss, delay and duplication a key commits exactly once if its row is SUCCEEDED, and never otherwise |
| SaveTheorems.RevisionsCreatedOnce | src/backend/app/api/resume.py:424-479 | no revision of an account is created by two commits, and later ones create later revisions |
| SaveTheorems.KeyHasOneRequest | src/frontend/src/features/resume/model/idempotency.ts:61-72 | every key a browser has sent stands for one account, revision and payload |
| SaveTheorems.SavedIsTrue | src/frontend/src/features/resume/model/saveController.ts:169-213 | SAVED is reported only when this very request has committed, exactly once, at the reported revision, and stays true |
| SaveTheorems.ReviewIsFinal | src/backend/app/api/resume.py:398-435 | a key answered REVIEW_REQUIRED never commits, now or later |
| SaveTheorems.ConflictIsFinal | src/backend/app/api/resume.py:379-388 | a request answered REVISION_CONFLICT for a revision the account has passed is never saved |
| SaveTheorems.RowsAreSettled | src/backend/app/api/resume.py:146-166 | no answer is ever SAVE_IN_PROGRESS, and every conflict names the current revision |
| SaveTheorems.UnknownIsRetriedUnderItsKey | src/frontend/src/features/resume/model/saveController.ts:198-213 | an outcome reported as unknown is retried under the same key |
| SaveTheorems.UnavailableIsNotFinal | src/frontend/src/features/resume/model/saveController.ts:342-353 | after a 503 the key is dropped although a duplicate of the request can still be saved |
| SaveReports.ReplyIsReported | src/frontend/src/features/resume/model/saveController.ts:165-353 | from each answer of the handler to the status reported, the revision in it, and whether the browser keeps its key |
| SaveReports.ReportedRevisionsAreTrue | src/frontend/src/features/resume/model/saveController.ts:242-287 | a reported conflict always names a revision and the account has had it, as it has every revision read back after a save |
| SaveReports.EveryRevisionWasHad | src/backend/app/api/resume.py:449-463 | an account has had every revision up to its current one |
| KeyFinality.CarriedOutExactlyWhileOpen | src/backend/app/api/resume.py:424-479 | in every state a request is carried out by some run if and only if it has been, or its key is free, the account has not passed its revision and its draft, if any, may serve |
| KeyFinality.EverSavedExactlyWhileOpen | src/frontend/src/features/resume/model/saveController.ts:342-353 | the same for a PUT of a browser, whatever embedding version the server runs |
| KeyFinality.RefusalsSettleExactly | src/frontend/src/features/resume/model/saveController.ts:242-353 | for each answer after which the controller drops the key: exactly when the request can still be saved under it |
| KeyFinality.SettledForGood | src/frontend/src/features/resume/model/saveController.ts:342-353 | a request that no run can save is never saved, whatever is delayed or duplicated |
| KeyFinality.UnavailableIsReachable | src/frontend/src/features/resume/model/saveController.ts:342-353 | a run from the empty system: 503, FAILED, key dropped, and a duplicate saved under it |
| KeyFinality.ConflictSettlesExactlyPastRevisions | src/backend/app/api/resume.py:379-388 | a request answered REVISION_CONFLICT can still be carried out by some run if and only if it is ahead of the account and names no draft |
| RequestFate.CarriedBy | src/backend/app/api/resume.py:424-479 | only the request's own save carries it out, at the account's revision and with a good draft if it names one |
| RequestFate.HopelessForever | src/backend/app/api/resume.py:424-479 | a taken key, a passed revision or a draft that cannot serve rules a request out along every run |
| RequestFate.NoDraftStays | src/backend/app/api/resume.py:436-447 | a draft that is not good and cannot be finished never becomes good |
| DraftStuck.StuckStays | src/backend/app/processing/local_worker.py:124-198 | an extraction that nobody holds a lease of, and that has no attempt left or, in queue mode, is published with no message left and none to be sent, stays so until it ends without a draft |
| DraftRuns.DraftIsMade | src/backend/app/processing/local_worker.py:211-243 | every other live extraction is finished by some run, whatever else is in the tables |
| SlotService.LeaseObject.EnterRun | src/backend/app/processing/slot.py:59-69 | an operation starts only on an unreleased lease without pending release or other operation |
| SlotService.LeaseObject.ExitRun | src/backend/app/processing/slot.py:70-76 | the end of an operation carries out a release asked for meanwhile, once |
| SlotService.LeaseObject.Release | src/backend/app/processing/slot.py:78-88 | a release is done, deferred or already done |
| SlotService.ProcessingService.Examine | src/backend/app/processing/slot.py:162-178 | the admission decision, with the recovery it starts for a dead child |
| SlotService.ProcessingService.Detach | src/backend/app/processing/slot.py:259-275 | the failed child is taken out of service before it is killed |
| SlotService.ProcessingService.Stop | src/backend/app/processing/slot.py:129-144 | stop() takes the current child and forbids further ones |
| SlotService.ProcessingService.RespawnLoop | src/backend/app/processing/slot.py:236-257 | the first child that loads is installed, three failures fail the service, a stopped service is left alone |
| SlotService.Pipe.Serve | src/backend/app/processing/worker.py:43-66 | the child answers what it owes, as far as the parent takes it, and stops at the end of the pipe |
| SlotService.OwedInOrder | src/backend/app/processing/worker.py:43-66 | one reply per request, in order, under the request's own id, up to the end of the pipe |
| SlotSafety.StepKeeps | src/backend/app/processing/slot.py:49-323 | every step of every thread and child keeps the slot's invariant |
| SlotTheorems.ReleasedExactlyOnce | src/backend/app/processing/slot.py:59-88 | a released lease has freed the lock once or is about to, an unreleased one has not; it is freed only while it is held for that lease and all others have given it back |
| SlotTheorems.DeferredReleaseIsNotForgotten | src/backend/app/processing/slot.py:59-88 | the end of an operation frees the slot if and only if a release was asked for meanwhile |
| SlotTheorems.OneOperationAtATime | src/backend/app/processing/slot.py:59-94 | never two operations at a time, whatever timed out, crashed or was stopped |
| SlotTheorems.OperatesOnlyUnderALease | src/backend/app/processing/slot.py:162-188 | a child works only while a lease whose call answers for it holds the slot |
| SlotTheorems.FreeSlotIsQuiescent | src/backend/app/processing/slot.py:277-323 | whenever the slot is free and the service READY, the pipe and the child hold nothing |
| SlotTheorems.RepliesMatch | src/backend/app/processing/slot.py:277-323 | a received reply always answers the request it is received for |
| SlotTheorems.FreedAfterTheChildIsGone | src/backend/app/processing/slot.py:259-275 | the slot is free only after every child given up on a deadline or crash is dead, joined and closed |
| SlotTheorems.NoOrphans | src/backend/app/processing/slot.py:191-275 | every living child is current, being loaded, in stop()'s hands or being killed by the slot holder |
| SlotTheorems.RecoveryIsUnderWay | src/backend/app/processing/slot.py:229-275 | while RECOVERING, a thread is loading a replacement or the slot holder is about to start one |
| SlotProgress.OperationIsCarriedOut | src/backend/app/processing/slot.py:59-94 | from every reachable state with a free slot and a living child, any operation can be carried out: its caller gets the answer to its own request, the slot is freed once and the child is as before |
| SlotProgress.LostChildIsReplaced | src/backend/app/processing/slot.py:229-275 | from every reachable state in which a call has lost its child, the service can come back with the old child dead, joined and closed, a new one loaded and the slot free |
| SlotProgress.DeadChildIsReplaced | src/backend/app/processing/slot.py:162-178 | a child can die while the slot is free, and then the next caller is refused and the service can come back with a new child |
| Catalogue.DedupeRequirements | src/backend/app/catalogue/importer.py:65-82 | the loop with its index keeps what the specification keeps and counts the rest |
| Catalogue.DedupeKeepsOnePerKey | src/backend/app/catalogue/importer.py:65-82 | exactly one row per key: the first REQUIRED one, else the first |
| Catalogue.DedupeKeepsTheOrder | src/backend/app/catalogue/importer.py:65-82 | keys stay in the order of their first appearance |
| Catalogue.DistinctUnchanged | src/backend/app/catalogue/importer.py:65-82 | rows that are distinct already are left alone |
| Catalogue.WhatDedupeKeeps | src/backend/app/catalogue/importer.py:65-82 | for every row exactly one row of the input is kept that has the same normalised text and alternatives: the first REQUIRED one of these, else the first |
| ImportSession.Session.ImportCatalogue | src/backend/app/catalogue/importer.py:106-235 | the import with its loops and dictionaries: catalogue, revision and summary afterwards, refusals included |
| ImportSession.GatherVectors | src/backend/app/catalogue/importer.py:158-175 | each text is reused when cached for this version and asked for once otherwise |
| Importer.LookupsAreDefined | src/backend/app/catalogue/importer.py:199-228 | every text that is written has a vector |
| ImportTheorems.ImportIsIdempotent | src/backend/app/catalogue/importer.py:137-187 | importing the same file again finds every job unchanged, embeds and writes nothing and keeps the revision |
| ImportTheorems.ImportStoresTheFile | src/backend/app/catalogue/importer.py:199-228 | after an import every job of the file is stored with its deduplicated content and all its texts embedded by this version, whatever was stored before |
| ImportTheorems.ImportKeepsCoherence | src/backend/app/catalogue/importer.py:199-228 | every stored vector embeds its text under its version, every job has all its texts embedded by one version and no duplicates |
| ImportTheorems.AbsentJobsUntouched | src/backend/app/catalogue/importer.py:199-228 | jobs the file does not name stay as they are, whatever the outcome |
| ImportTheorems.ImportKeepsIds | src/backend/app/catalogue/importer.py:199-228 | job and requirement identifiers stay unique |
| ImportLaws.JobsAreWritten | src/backend/app/catalogue/importer.py:199-228 | a job that is not up to date is written as the file has it, keeping the id it had; a new one gets a fresh id; jobs that are up to date are left alone |
| ImportLaws.ImportReports | src/backend/app/catalogue/importer.py:137-235 | the counts of new, changed and current jobs, the texts embedded and reused, the revision, and exactly when a text over the token limit stops the import |
| ImportLaws.GatherIs | src/backend/app/catalogue/importer.py:158-175 | exactly the cached texts are reused, exactly the other wanted ones are asked for, each once |
| ImportRuns.ImportsAreSerialisable | src/backend/app/catalogue/importer.py:124-135 | any interleaving of importers equals the committed imports one after the other |
| ImportRuns.WrittenAsPlanned | src/backend/app/catalogue/importer.py:189-198 | an import that writes applies its plan to exactly the catalogue it was planned against, and bumps the revision |
| ImportRuns.CataloguesAreProduced | src/backend/app/catalogue/importer.py:106-235 | every catalogue that concurrent imports build from nothing is coherent |
| Scoring.LoadRequirements | src/backend/app/catalogue/loader.py:14-36 | the dictionary-filling loops give each requirement its vectors of the version in index order |
| Scoring.RequirementMatch | src/backend/app/matching/scoring.py:78-83 | the best similarity, at its first position in row-major order |
| Scoring.ScoreJobLoop | src/backend/app/matching/scoring.py:86-104 | the loop scores the mean of the best similarities over the distinct REQUIRED requirements, or says why not |
| Scoring.RankJobs | src/backend/app/matching/scoring.py:111-126 | the page of the one ranking of all matches, its length and the counts of jobs left out |
| Scoring.RankingIsUnique | src/backend/app/matching/scoring.py:107-108 | a set of matches has exactly one ranking |
| RankingTheorems.JobAgrees | src/backend/app/matching/sql.py:21-62 | query and scorer rank, score or omit a job alike |
| RankingEquality.SqlRankingIsTheInMemoryRanking | src/backend/app/matching/sql.py:21-62 | on every catalogue imports produce without scorer duplicates, both rankings are the same sequence |
| RankingEquality.NoChunksNoRanking | src/backend/app/matching/sql.py:21-62 | without chunks the query ranks nothing |
| RankingEquality.PagesAndTotals | src/backend/app/matching/sql.py:99-120 | pages for every limit and offset; the total is right if and only if not limit 0 and offset 0 on a non-empty ranking |
| RankingEquality.PagesJoin | src/backend/app/matching/sql.py:60-62 | consecutive pages join without gap or repetition |
| RankingEquality.PagesCoverTheRanking | src/backend/app/matching/sql.py:60-62 | enough pages, one after the other, are the ranking |
| RankingEquality.CountsAddUp | src/backend/app/matching/scoring.py:111-126 | matches and both kinds of left-out jobs add up to the jobs |
| RankingEquality.OmittedAreTheIncomplete | src/backend/app/matching/sql.py:99-120 | the query's omitted count is the scorer's count of incomplete jobs |
| RankingEquality.CollisionsAreTextAlternatives | src/backend/app/matching/scoring.py:74-75 | rows with different importer keys share a scorer key if and only if one has no alternatives and the other its own text as the only one |
| RankingExactness.RankingsAgreeExactly | src/backend/app/matching/sql.py:21-62 | on every catalogue imports produce the two rankings are the same sequence if and only if for each candidate that is scored the mean over its distinct REQUIRED requirements is the mean over all of them |
| RankingExactness.JobTreated | src/backend/app/matching/scoring.py:86-104 | with or without duplicates both rank the same jobs, the scorer by the first mean and the query by the second |
| RankingExactness.SameRequirementsExactlyWhenDistinct | src/backend/app/matching/scoring.py:86-104 | the query averages a job over as many requirements as the scorer if and only if no two REQUIRED rows share a scorer key |
| RankingLaws.WhichJobsAreListed | src/backend/app/matching/sql.py:21-62 | both rankings list exactly the active jobs that pass the filters, have a REQUIRED requirement and have all their vectors under the version asked for |
| RankingLaws.QueryScoreIsTheMean | src/backend/app/matching/sql.py:29-58 | a score of the query is the mean over all REQUIRED requirements of the best similarity of one of its texts to a chunk |
| RankingLaws.MemoryScoreIsTheMean | src/backend/app/matching/scoring.py:78-104 | a score in memory is that mean over the first of every group of duplicates |
| RankingGap.StoreIsImported | src/backend/app/catalogue/importer.py:106-235 | the import of two jobs into the empty catalogue, computed to the stored rows, identifiers, vectors and summary |
| RankingGap.RankingsCanDiffer | src/backend/app/catalogue/importer.py:69 | on the catalogue of that import the two rankings list the same two jobs in opposite orders |
| Chunking.HardSplit | src/backend/app/processing/chunking.py:49-70 | ends for every counter; the pieces are consecutive slices that fit, and an error comes exactly for a window below 8 or when no piece from some cut's token fits |
| Chunking.CutsAreUnique | src/backend/app/processing/chunking.py:49-70 | the cuts are determined by the text, so the condition for an error does not depend on the run |
| Chunking.HardSplitKeepsTheText | src/backend/app/processing/chunking.py:49-70 | with sorted offsets no non-white character from the first token on is lost |
| Chunking.ChunkEntry | src/backend/app/processing/chunking.py:73-98 | the groups hold the pieces in order, each fits, each is maximal; the final check never fails |
| Chunking.GreedyIsOptimal | src/backend/app/processing/chunking.py:73-98 | for a monotone counter no order-preserving grouping that fits has fewer chunks |
| ChunkText.ChunksAreTheirPieces | src/backend/app/processing/chunking.py:45-98 | every chunk is its heading, a line break and its pieces in order with one blank between two of them; no piece is left out, repeated or moved |
| ChunkText.ChunksHoldTheText | src/backend/app/processing/chunking.py:49-98 | the chunk bodies of an entry, one after the other, have the non-white characters of its units, of a split unit those from its first token on |
| ChunkText.StripIs | src/backend/app/processing/chunking.py:63-66 | white space goes from both ends of a piece and nothing else does |
| ResumeChunks.ChunkResumeContent | src/backend/app/processing/chunking.py:101-116 | projects before experience, every chunk kept, an error exactly for more than 100 chunks or an entry with an unsplittable unit |
| ResumeChunks.PositionsAreDistinct | src/backend/app/processing/chunking.py:101-116 | no two chunks share section, entry and index, and they come in that order |
| ResumeChunks.ChunksFit | src/backend/app/processing/chunking.py:101-116 | every chunk is within the token limit |
| ChunkText.SectionIsComplete | src/backend/app/processing/chunking.py:101-116 | a section has exactly one row for every chunk of every entry, under both numbers |
| ContractDuration.Anniversary | src/frontend/src/features/catalogue/contractDuration.ts:10-18 | the date arithmetic in place gives the day of the target month, clamped to its length |
| ContractDuration.CalculateContractDuration | src/frontend/src/features/catalogue/contractDuration.ts:25-31 | none exactly for an end before the start; else months and days with anniversary(months) <= end < anniversary(months + 1) |
| ContractDuration.DurationIsUnique | src/frontend/src/features/catalogue/contractDuration.ts:25-31 | no other months, days and total satisfy this |
| ContractDuration.DaysStayBelowAMonth | src/frontend/src/features/catalogue/contractDuration.ts:25-31 | at most 30 days are left over |
| ContractDuration.AnniversariesOrdered | src/frontend/src/features/catalogue/contractDuration.ts:10-18 | later anniversaries are later days, month-end clamping included |
| ContractDuration.AnniversaryIs | src/frontend/src/features/catalogue/contractDuration.ts:10-18 | the anniversary is in the month `months` later, on the date of the start or the last of a shorter month |
| ContractDuration.DaysAreNumbered | src/frontend/src/features/catalogue/contractDuration.ts:4-8 | days are numbered one after the other through the Gregorian calendar from 1 January 1970 (section 21.4.1 of ECMA-262) |
| ContractDuration.FormatIs | src/frontend/src/features/catalogue/contractDuration.ts:4-8 | a format is YYYY-MM-DD in decimal digits |
| ContractDuration.DatesAreDays | src/frontend/src/features/catalogue/contractDuration.ts:4-8 | proleptic Gregorian dates and day numbers (section 21.4.1 of ECMA-262) correspond one to one |
| ContractDuration.DatesRoundTrip | src/frontend/src/features/catalogue/contractDuration.ts:4-8 | every date of the years 0 to 9999 is read back from its format |
| ContractDuration.AcceptedRoundTrips | src/frontend/src/features/catalogue/contractDuration.ts:4-8 | only the format of an existing date is accepted |

## Left out

- RankingEquality.SqlRankingIsTheInMemoryRanking: a sufficient condition on the catalogue alone; the exact one, RankingExactness.RankingsAgreeExactly, depends on the similarities as well.
- KeyFinality.RefusalsSettleExactly: for drafts named by an identifier that the server has issued; an identifier guessed before its task exists is not covered.
- LocalWorker.LocalWorker.RunQueueMessage: every received message carries a receipt handle.
- SlotTheorems.OperatesOnlyUnderALease: excepts the child that stop() has taken, which may still be working while it is killed.
- SlotService.ProcessingService.RespawnLoop: one thread without interference; the interleavings with stop() and other threads are steps of Slot.
- ImportSession.Session.ImportCatalogue: one importer; concurrent importers are the subject of ImportRuns.
- Chunking.HardSplitKeepsTheText: assumes sorted token offsets, as fast tokenizers give them.
- LocalQueue.QueueStopsUntilDeleted: for embeddings; a stuck extraction is ended by the clean-up once it is older than the store's TTL.
- Task rows without `updated_at` and `sent_at`; failure codes of handlers are abstract.
- When a hidden message becomes visible again: any message in the queue may be received at any time. Heartbeats and the polling loop of the worker process.
- PDF parsing, redaction, tokenizer and model internals; splitting bodies into lines and sentences.
- HTTP routing, sessions, CSRF, rate limits and body limits, apart from the outcomes the controller distinguishes; the deleting client; reading profiles, active extractions and task status.
- Queue retention and redrive, object-store lifecycle rules, the file system behind the temporary store.
- Field validation of catalogue files beyond distinct job keys, dry runs, closest passages of a match.
- The bytes of generated idempotency keys.
- Joining and closing of a child that died while idle: the code does neither, so nothing is claimed about it.
- Deletion of users: no code path does it, so accounts only ever gain revisions.
