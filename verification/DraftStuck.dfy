/** When an extraction can no longer produce a draft.
  *
  * A live extraction is stuck when nobody holds its lease and either no attempt is left, or, in queue
  * mode, it is published and neither a message for it nor a publisher that could still send one is
  * left. Every step keeps a stuck extraction stuck, or ends it without a draft.
  */
module DraftStuck {
  import opened Wrappers
  import opened Rows
  import opened Tasks
  import opened Outbox
  import opened Resume
  import opened Worker
  import opened RowInvariant
  import opened Deployment
  import opened Invariants
  import DeploymentTheorems
  import Transactions

  /** A worker has the task in hand under a running lease. */
  predicate Held(s: Sys, id: TaskId) {
    id in s.db.tasks
    && var t := s.db.tasks[id];
       t.state == Processing && t.leaseEnd.Some? && t.leaseEnd.value > s.clock
       && exists job | job in s.jobs :: job.claim.task == id && t.token == Some(job.claim.token)
  }

  /** A message that names the task is in the queue, or can still be sent. */
  predicate Receivable(s: Sys, id: TaskId) {
    (exists m | m in s.messages :: s.messages[m] == id)
    || exists p | p in s.publications :: p.delivery.task == id && p.message.None?
  }

  /** A live extraction can still finish: its lease is held, or an attempt is left and it can be claimed again. */
  predicate CanFinish(s: Sys, id: TaskId) {
    id in s.db.tasks
    && (Held(s, id)
        || (s.db.tasks[id].attempts < s.db.tasks[id].maxAttempts
            && (!s.queueMode || !Published(s.db, id) || Receivable(s, id))))
  }

  predicate Stuck(s: Sys, id: TaskId) {
    && id in s.db.tasks && s.db.tasks[id].kind == Extraction && Live(s.db.tasks[id]) && Published(s.db, id) && !Held(s, id)
    && (s.db.tasks[id].attempts == s.db.tasks[id].maxAttempts || (s.queueMode && !Receivable(s, id)))
  }

  lemma StuckIs(s: Sys, id: TaskId)
    requires DbOk(s.db, s.clock) && id in s.db.tasks && s.db.tasks[id].kind == Extraction && Live(s.db.tasks[id])
    ensures Stuck(s, id) <==> !CanFinish(s, id)
  {
    RowAt(s.db, id, s.clock);
    hide DbOk, Held, Receivable;
  }

  // ---- what a transaction does to the row

  /** The row is as it was, apart from a result, and so is its event. */
  predicate Still(db: Db, db': Db, id: TaskId) {
    && id in db.tasks && id in db'.tasks && id in db.events && id in db'.events && db'.events[id] == db.events[id]
    && db'.tasks[id] == db.tasks[id].(result := db'.tasks[id].result, expires := db'.tasks[id].expires)
  }

  /** The task has ended without a draft. */
  predicate Ended(db: Db, id: TaskId) {
    id in db.tasks && !Live(db.tasks[id]) && db.tasks[id].state != Succeeded
  }

  predicate StillOrEnded(db: Db, db': Db, id: TaskId) {
    Still(db, db', id) || Ended(db', id)
  }

  predicate Known(db: Db, id: TaskId) {
    id in db.tasks && id in db.events && id < db.next && Live(db.tasks[id]) && db.tasks[id].kind == Extraction
    && db.events[id].state == Sent
  }

  /** No claim that is still fenced in names this token. */
  predicate Unheld(db: Db, c: Claim, id: TaskId, now: Time) {
    c.task == id && id in db.tasks ==> !HoldsLease(db.tasks[id], c.token, now)
  }

  lemma EnqueueStill(db: Db, owner: UserId, kind: Kind, key: TaskKey, revision: nat, payload: Option<Ref>, now: Time, id: TaskId)
    requires Known(db, id) && Enqueue(db, owner, kind, key, revision, payload, MAX_ATTEMPTS, now).Some?
    ensures Still(db, Enqueue(db, owner, kind, key, revision, payload, MAX_ATTEMPTS, now).value, id)
  {
  }

  lemma SaveStill(db: Db, user: UserId, op: OpId, payload: Payload, now: Time, id: TaskId)
    requires user in db.users && Known(db, id)
    ensures Still(db, SaveMain(db, user, op, payload, now).db, id)
  {
    Transactions.SaveMainCases(db, user, op, payload, now);
    hide SaveMain, Enqueue, Transactions.CaseOf;
    match Transactions.CaseOf(db, user, op, payload, now)
    case NoWrite =>
    case Changed => EnqueueStill(Republish(db, user, payload), user, Embedding, SaveKey(op), db.users[user] + 1, None, now, id);
    case Requeued => EnqueueStill(db, user, Embedding, RetryKey(op), db.users[user], None, now, id);
    case Unchanged =>
  }

  lemma DeleteStill(db: Db, user: UserId, expected: nat, id: TaskId)
    requires user in db.users && Known(db, id)
    ensures StillOrEnded(db, DeleteResume(db, user, expected).db, id)
  {
  }

  lemma DiscardStill(db: Db, user: UserId, other: TaskId, id: TaskId)
    requires Known(db, id)
    ensures StillOrEnded(db, Discard(db, user, other).db, id)
  {
  }

  lemma FencedStill(db: Db, c: Claim, now: Time, id: TaskId)
    requires Known(db, id) && Unheld(db, c, id, now)
    ensures var r := Complete(db, c.task, c.owner, c.revision, c.token, now);
            Still(db, r.db, id) && (c.task == id ==> r == FlagResult(db, false))
  {
    if c.task == id { } else { }
  }

  lemma FencedFails(db: Db, c: Claim, code: FailureCode, retryable: bool, now: Time, id: TaskId)
    requires Known(db, id) && Unheld(db, c, id, now)
    ensures var r := Fail(db, c.task, c.owner, c.token, code, retryable, RETRY_DELAY, None, now);
            Still(db, r.db, id) && (c.task == id ==> r == FlagResult(db, false))
  {
    if c.task == id { } else { }
  }

  lemma ExtractionStill(db: Db, c: Claim, draft: Draft, ttl: nat, now: Time, id: TaskId)
    requires Known(db, id) && Unheld(db, c, id, now)
    ensures Still(db, CompleteExtraction(db, c, draft, ttl, now).db, id)
  {
    FencedStill(db, c, now, id);
    hide Unheld, Complete;
    if c.task == id { } else { }
  }

  lemma EmbeddingStill(db: Db, c: Claim, version: Version, bodies: seq<ChunkBody>, now: Time, id: TaskId)
    requires Known(db, id) && Unheld(db, c, id, now)
    ensures Still(db, CompleteEmbedding(db, c, version, bodies, now), id)
  {
    FencedStill(db, c, now, id);
    hide Unheld, Complete, ChunkRows, WithoutRevision;
    if c.task == id { } else { }
  }

  lemma FailStill(db: Db, c: Claim, code: FailureCode, retryable: bool, now: Time, id: TaskId)
    requires Known(db, id) && Unheld(db, c, id, now)
    ensures Still(db, FailClaim(db, c, code, retryable, now).db, id)
  {
    FencedFails(db, c, code, retryable, now, id);
    hide Unheld, Fail;
    if c.task == id { } else { }
  }

  /** A claim of a task without attempts ends it or leaves it; one of another task leaves it. */
  lemma ClaimStill(db: Db, other: TaskId, owner: UserId, now: Time, id: TaskId)
    requires Known(db, id) && (other == id ==> db.tasks[id].attempts == db.tasks[id].maxAttempts)
    ensures StillOrEnded(db, Tasks.Claim(db, other, owner, LEASE_FOR, None, now).db, id)
    ensures other == id ==> Tasks.Claim(db, other, owner, LEASE_FOR, None, now).token.None?
  {
    if other == id { } else { }
  }

  lemma CleanUpStill(db: Db, ttl: nat, asOf: Time, id: TaskId)
    requires Known(db, id)
    ensures StillOrEnded(db, Cleaned(db, ttl, asOf), id)
  {
  }

  lemma EventStill(db: Db, other: TaskId, token: Token, now: Time, id: TaskId)
    requires Known(db, id)
    ensures Still(db, Ack(db, other, token, now).db, id) && Still(db, RetryEvent(db, other, token, RETRY_DELAY, now).db, id)
    ensures other != id ==> Still(db, CancelEvent(db, other), id)
    ensures other in db.events && other != id ==> Still(db, ClaimEvent(db, other, OUTBOX_LEASE, now), id)
  {
    if other == id { } else { }
  }

  // ---- what a step does to the row

  lemma KnownFrom(s: Sys, id: TaskId)
    requires DbOk(s.db, s.clock) && Stuck(s, id)
    ensures Known(s.db, id)
  {
    hide Held, Receivable;
  }

  /** A job cannot act for a stuck task. */
  lemma StuckUnheld(s: Sys, job: Job, id: TaskId)
    requires Stuck(s, id) && job in s.jobs
    ensures Unheld(s.db, job.claim, id, s.clock)
  {
    hide Receivable;
  }

  lemma AccountRow(env: Env, s: Sys, a: Action, id: TaskId)
    requires Known(s.db, id) && Enabled(env, s, s.clock, a) && (a.Save? || a.Delete? || a.DiscardDraft?)
    ensures StillOrEnded(s.db, Effect(env, s, s.clock, a).db, id)
  {
    hide Known, Still, SaveMain, DeleteResume, Discard, Doom, Ended;
    match a
    case Save(user, op, payload) => SaveStill(s.db, user, op, payload, s.clock, id);
    case Delete(user, expected) => DeleteStill(s.db, user, expected, id);
    case DiscardDraft(user, other) => DiscardStill(s.db, user, other, id);
  }

  lemma UploadRow(env: Env, s: Sys, user: UserId, ref: Ref, id: TaskId)
    requires Known(s.db, id) && Enabled(env, s, s.clock, CommitUpload(user, ref))
    ensures StillOrEnded(s.db, Effect(env, s, s.clock, CommitUpload(user, ref)).db, id)
  {
    hide Enqueue;
    if Prepare(s.db, user, ref, s.clock).Some? {
      EnqueueStill(s.db, user, Extraction, Upload(ref), s.db.users[user], Some(ref), s.clock, id);
    }
  }

  lemma PublisherRow(env: Env, s: Sys, a: Action, id: TaskId)
    requires Known(s.db, id) && Enabled(env, s, s.clock, a)
    requires a.ClaimPublication? || a.CancelPublication? || a.Acknowledge? || a.RetryPublication?
    ensures StillOrEnded(s.db, Effect(env, s, s.clock, a).db, id)
  {
    match a {
      case ClaimPublication(other, _) => assert other != id; EventStill(s.db, other, 0, s.clock, id);
      case CancelPublication(other) => assert other != id; EventStill(s.db, other, 0, s.clock, id);
      case Acknowledge(p) => EventStill(s.db, p.delivery.task, p.delivery.token, s.clock, id);
      case RetryPublication(p) => EventStill(s.db, p.delivery.task, p.delivery.token, s.clock, id);
      case _ =>
    }
    hide Known, Still, Ack, RetryEvent, CancelEvent, ClaimEvent, DueEvent;
  }

  lemma LocalRow(env: Env, s: Sys, other: TaskId, kind: Kind, id: TaskId)
    requires Known(s.db, id) && Enabled(env, s, s.clock, ClaimNext(other, kind))
    requires other == id ==> s.db.tasks[id].attempts == s.db.tasks[id].maxAttempts
    ensures StillOrEnded(s.db, Effect(env, s, s.clock, ClaimNext(other, kind)).db, id)
  {
    ClaimStill(s.db, other, s.db.tasks[other].owner, s.clock, id);
    StillSelf(s.db, id);
    hide Known, Still, Ended, Tasks.Claim, ClaimOf;
  }

  lemma StillSelf(db: Db, id: TaskId)
    requires Known(db, id)
    ensures Still(db, db, id)
  {
  }

  lemma ReceiveRow(env: Env, s: Sys, m: MsgId, kind: Kind, id: TaskId)
    requires Known(s.db, id) && Enabled(env, s, s.clock, Receive(m, kind))
    requires s.messages[m] == id ==> s.db.tasks[id].attempts == s.db.tasks[id].maxAttempts
    ensures StillOrEnded(s.db, Effect(env, s, s.clock, Receive(m, kind)).db, id)
  {
    ReceivedRow(s.db, s.messages[m], kind, s.clock, id);
    hide Known, StillOrEnded, ClaimPublished, ClaimOf, Disposed, WindowMessage;
  }

  lemma ReceivedRow(db: Db, other: TaskId, kind: Kind, now: Time, id: TaskId)
    requires Known(db, id) && (other == id ==> db.tasks[id].attempts == db.tasks[id].maxAttempts)
    ensures StillOrEnded(db, ClaimPublished(db, other, kind, LEASE_FOR, now).db, id)
  {
    if other in db.tasks { ClaimStill(db, other, db.tasks[other].owner, now, id); }
    StillSelf(db, id);
    hide Known, Still, Ended, Tasks.Claim;
  }

  lemma WorkerRow(env: Env, s: Sys, a: Action, id: TaskId)
    requires Known(s.db, id) && Enabled(env, s, s.clock, a) && (a.FinishExtraction? || a.FinishEmbedding? || a.FailJob?)
    requires Unheld(s.db, a.job.claim, id, s.clock)
    ensures StillOrEnded(s.db, Effect(env, s, s.clock, a).db, id)
  {
    hide Known, Still, Ended, Unheld, CompleteExtraction, CompleteEmbedding, FailClaim, WithCompletion, Doom;
    match a
    case FinishExtraction(job, draft) => ExtractionStill(s.db, job.claim, draft, env.ttl, s.clock, id);
    case FinishEmbedding(job, version) =>
      EmbeddingStill(s.db, job.claim, version, env.embed(version, job.content.value), s.clock, id);
    case FailJob(job, code, retryable) => FailStill(s.db, job.claim, code, retryable, s.clock, id);
  }

  lemma CleanUpRow(env: Env, s: Sys, asOf: Time, id: TaskId)
    requires Known(s.db, id) && Enabled(env, s, s.clock, CleanUp(asOf))
    ensures StillOrEnded(s.db, Effect(env, s, s.clock, CleanUp(asOf)).db, id)
  {
    CleanUpStill(s.db, env.ttl, asOf, id);
    hide Known, StillOrEnded, Cleaned, StaleRefs, LiveRefs;
  }

  lemma OtherRow(env: Env, s: Sys, a: Action, id: TaskId)
    requires Known(s.db, id) && Enabled(env, s, s.clock, a)
    requires !(a.Save? || a.Delete? || a.DiscardDraft? || a.CommitUpload? || a.ClaimPublication? || a.CancelPublication?)
    requires !(a.Acknowledge? || a.RetryPublication? || a.ClaimNext? || a.Receive? || a.FinishExtraction? || a.FinishEmbedding?)
    requires !a.FailJob? && !a.CleanUp?
    ensures Still(s.db, Effect(env, s, s.clock, a).db, id)
  {
    hide Replay;
  }

  /** Work on a stuck extraction has lost its lease, and a claim of it finds no attempt left. */
  lemma StuckWork(env: Env, s: Sys, a: Action, id: TaskId)
    requires DbOk(s.db, s.clock) && Enabled(env, s, s.clock, a) && Stuck(s, id)
    ensures (a.FinishExtraction? || a.FinishEmbedding? || a.FailJob?) ==> Unheld(s.db, a.job.claim, id, s.clock)
    ensures (a.ClaimNext? && a.id == id) || (a.Receive? && s.messages[a.message] == id) ==>
              s.db.tasks[id].attempts == s.db.tasks[id].maxAttempts
  {
    hide DbOk, Unheld, Held, OldestDue;
    if a.FinishExtraction? || a.FinishEmbedding? || a.FailJob? {
      StuckUnheld(s, a.job, id);
    }
  }

  lemma StuckRow(env: Env, s: Sys, a: Action, id: TaskId)
    requires DbOk(s.db, s.clock) && Enabled(env, s, s.clock, a) && Stuck(s, id)
    ensures StillOrEnded(s.db, Effect(env, s, s.clock, a).db, id)
  {
    hide DbOk, Known, Unheld, Effect, Enabled, Stuck, Still, Ended;
    KnownFrom(s, id);
    StuckWork(env, s, a, id);
    match a
    case Save(_, _, _) => AccountRow(env, s, a, id);
    case Delete(_, _) => AccountRow(env, s, a, id);
    case DiscardDraft(_, _) => AccountRow(env, s, a, id);
    case CommitUpload(user, ref) => UploadRow(env, s, user, ref, id);
    case ClaimPublication(_, _) => PublisherRow(env, s, a, id);
    case CancelPublication(_) => PublisherRow(env, s, a, id);
    case Acknowledge(_) => PublisherRow(env, s, a, id);
    case RetryPublication(_) => PublisherRow(env, s, a, id);
    case ClaimNext(other, kind) => LocalRow(env, s, other, kind, id);
    case Receive(m, kind) => ReceiveRow(env, s, m, kind, id);
    case FinishExtraction(_, _) => WorkerRow(env, s, a, id);
    case FinishEmbedding(_, _) => WorkerRow(env, s, a, id);
    case FailJob(_, _, _) => WorkerRow(env, s, a, id);
    case CleanUp(asOf) => CleanUpRow(env, s, asOf, id);
    case _ => OtherRow(env, s, a, id);
  }

  // ---- what a step does around it

  /** A new claim has a new token; every other claim in a worker's hands was there before. */
  lemma JobsFrom(env: Env, s: Sys, a: Action, job: Job)
    requires Enabled(env, s, s.clock, a) && job in Effect(env, s, s.clock, a).jobs
    ensures (exists j | j in s.jobs :: j.claim == job.claim) || job.claim.token >= s.db.next
  {
    if a.ClaimNext? {
      LocalJob(s, a.id, job);
    } else if a.Receive? {
      ReceivedJob(s, a.message, a.kind, job);
    } else {
      OtherJobs(env, s, a, job);
    }
  }

  lemma TokenIsNew(db: Db, id: TaskId, owner: UserId, now: Time)
    ensures var r := Tasks.Claim(db, id, owner, LEASE_FOR, None, now); r.token.Some? ==> r.token.value == db.next
  {
  }

  lemma LocalJob(s: Sys, id: TaskId, job: Job)
    requires id in s.db.tasks && job in AfterLocalClaim(s, id, s.clock).jobs
    ensures job in s.jobs || job.claim.token >= s.db.next
  {
    TokenIsNew(s.db, id, s.db.tasks[id].owner, s.clock);
    hide Tasks.Claim;
  }

  lemma ReceivedJob(s: Sys, m: MsgId, kind: Kind, job: Job)
    requires m in s.messages && job in AfterReceive(s, m, kind, s.clock).jobs
    ensures job in s.jobs || job.claim.token >= s.db.next
  {
    var id := s.messages[m];
    if id in s.db.tasks { TokenIsNew(s.db, id, s.db.tasks[id].owner, s.clock); }
    hide Tasks.Claim, Disposed, WindowMessage;
  }

  lemma OtherJobs(env: Env, s: Sys, a: Action, job: Job)
    requires Enabled(env, s, s.clock, a) && !a.ClaimNext? && !a.Receive? && job in Effect(env, s, s.clock, a).jobs
    ensures exists j | j in s.jobs :: j.claim == job.claim
  {
  }

  lemma ReceivableFrom(env: Env, s: Sys, a: Action, id: TaskId)
    requires Enabled(env, s, s.clock, a) && Receivable(Effect(env, s, s.clock, a), id) && !(a.ClaimPublication? && a.id == id)
    ensures Receivable(s, id)
  {
    MessagesFrom(env, s, a);
    hide Effect, Enabled;
  }

  lemma MessagesFrom(env: Env, s: Sys, a: Action)
    requires Enabled(env, s, s.clock, a)
    ensures var s' := Effect(env, s, s.clock, a);
            && (forall m | m in s'.messages ::
                  (m in s.messages && s.messages[m] == s'.messages[m])
                  || exists p | p in s.publications :: p.delivery.task == s'.messages[m] && p.message.None?)
            && (forall p | p in s'.publications && p.message.None? ::
                  p in s.publications || (a.ClaimPublication? && p.delivery.task == a.id))
  {
  }

  lemma HeldFrom(env: Env, s: Sys, a: Action, id: TaskId)
    requires DbOk(s.db, s.clock) && Enabled(env, s, s.clock, a) && id in s.db.tasks && Live(s.db.tasks[id])
    requires Still(s.db, Effect(env, s, s.clock, a).db, id) && Effect(env, s, s.clock, a).clock == s.clock
    requires Held(Effect(env, s, s.clock, a), id)
    ensures Held(s, id)
  {
    hide DbOk, Effect, Enabled;
    var s' := Effect(env, s, s.clock, a);
    RowAt(s.db, id, s.clock);
    var job :| job in s'.jobs && job.claim.task == id && s'.db.tasks[id].token == Some(job.claim.token);
    JobsFrom(env, s, a, job);
    var j :| j in s.jobs && j.claim == job.claim;
    assert j.claim.task == id && s.db.tasks[id].token == Some(j.claim.token);
  }

  /** A stuck extraction stays stuck until it ends without a draft. */
  lemma StuckStays(env: Env, s: Sys, a: Action, id: TaskId)
    requires SysOk(env, s) && Enabled(env, s, s.clock, a) && Stuck(s, id)
    ensures var s' := Effect(env, s, s.clock, a); Ended(s'.db, id) || Stuck(s', id)
  {
    var s' := Effect(env, s, s.clock, a);
    DeploymentTheorems.ClockUntouched(env, s, s.clock, a);
    TablesOf(env, s);
    hide SysOk, DbOk, Effect, Enabled, Held, Receivable;
    StuckRow(env, s, a, id);
    if !Ended(s'.db, id) {
      if Held(s', id) { HeldFrom(env, s, a, id); }
      if s.queueMode && Receivable(s', id) {
        NotDue(env, s, a, id);
        ReceivableFrom(env, s, a, id);
      }
    }
  }

  lemma NotDue(env: Env, s: Sys, a: Action, id: TaskId)
    requires Enabled(env, s, s.clock, a) && Published(s.db, id)
    ensures !(a.ClaimPublication? && a.id == id)
  {
  }

  lemma TablesOf(env: Env, s: Sys)
    requires SysOk(env, s)
    ensures DbOk(s.db, s.clock)
  {
    hide StorageOk, QueueOk, ProfilesOk, CompletionsOk, ReadsOk, JobsOk, DbOk;
  }
}
