/** Every step keeps the row invariant and moves the tables forward; claims and completions stay coherent. */
module TableSafety {
  import opened Wrappers
  import opened Rows
  import opened Tasks
  import opened Outbox
  import opened Resume
  import opened Worker
  import opened RowInvariant
  import opened Transactions
  import opened Deployment
  import opened Invariants

  predicate TablesKept(db: Db, db': Db, now: Time) {
    DbOk(db', now) && Later(db, db')
  }

  lemma NextOnlyKeeps(db: Db, now: Time)
    requires DbOk(db, now)
    ensures TablesKept(db, db.(next := db.next + 1), now)
  {
    OtherTablesKeep(db, db.(next := db.next + 1), now);
  }

  lemma CreateUserKeeps(db: Db, user: UserId, now: Time)
    requires DbOk(db, now) && user !in db.users
    ensures TablesKept(db, db.(users := db.users[user := 0]), now)
  {
    OtherTablesKeep(db, db.(users := db.users[user := 0]), now);
  }

  lemma ReceiveKeeps(s: Sys, m: MsgId, kind: Kind, now: Time)
    requires DbOk(s.db, now) && m in s.messages
    ensures TablesKept(s.db, AfterReceive(s, m, kind, now).db, now)
  {
    hide DbOk, Later, Tasks.Claim;
    LaterSelf(s.db);
    var id := s.messages[m];
    if id in s.db.tasks && Published(s.db, id) { ClaimKeeps(s.db, id, LEASE_FOR, None, now); }
  }

  lemma LocalClaimKeeps(s: Sys, id: TaskId, now: Time)
    requires DbOk(s.db, now) && id in s.db.tasks && Published(s.db, id)
    ensures TablesKept(s.db, AfterLocalClaim(s, id, now).db, now)
  {
    hide DbOk, Later, Tasks.Claim;
    LaterSelf(s.db);
    ClaimKeeps(s.db, id, LEASE_FOR, None, now);
  }

  lemma CommitUploadKeeps(env: Env, s: Sys, user: UserId, ref: Ref, now: Time)
    requires DbOk(s.db, now) && StorageOk(env, s) && Enabled(env, s, now, CommitUpload(user, ref))
    ensures TablesKept(s.db, Effect(env, s, now, CommitUpload(user, ref)).db, now)
  {
    assert StagedOk(env, s, ref);
    hide DbOk, Later, Prepare, StorageOk;
    LaterSelf(s.db);
    if Prepare(s.db, user, ref, now).Some? { PrepareKeeps(s.db, user, ref, now); }
  }

  lemma AccountStepKeepsTables(env: Env, s: Sys, now: Time, a: Action)
    requires DbOk(s.db, now) && StorageOk(env, s) && Enabled(env, s, now, a) && AccountAction(a)
    ensures TablesKept(s.db, Effect(env, s, now, a).db, now)
  {
    LaterSelf(s.db);
    hide DbOk, Later, StorageOk, SaveMain, SaveReview, DeleteResume, Discard, Prepare, Doom;
    match a
    case CreateUser(user) => CreateUserKeeps(s.db, user, now);
    case StoreUpload => NextOnlyKeeps(s.db, now);
    case CommitUpload(user, ref) => CommitUploadKeeps(env, s, user, ref, now);
    case Save(user, op, payload) => SaveMainKeeps(s.db, user, op, payload, now);
    case StoreReview(user, op, payload) => SaveReviewKeeps(s.db, user, op, payload, now);
    case Delete(user, expected) => DeleteResumeKeeps(s.db, user, expected, now);
    case DiscardDraft(user, id) => DiscardKeeps(s.db, user, id, now);
    case _ =>
  }

  lemma PublisherStepKeepsTables(env: Env, s: Sys, now: Time, a: Action)
    requires DbOk(s.db, now) && Enabled(env, s, now, a) && PublisherAction(a)
    ensures TablesKept(s.db, Effect(env, s, now, a).db, now)
  {
    LaterSelf(s.db);
    hide DbOk, Later, ClaimEvent, CancelEvent, Ack, RetryEvent, DueEvent;
    match a
    case ClaimPublication(id, queryTime) => ClaimEventKeeps(s.db, id, queryTime, OUTBOX_LEASE, now);
    case CancelPublication(id) => CancelEventKeeps(s.db, id, now);
    case Publish(p) => NextOnlyKeeps(s.db, now);
    case Acknowledge(p) => AckKeeps(s.db, p.delivery.task, p.delivery.token, now);
    case RetryPublication(p) => RetryEventKeeps(s.db, p.delivery.task, p.delivery.token, RETRY_DELAY, now);
    case _ =>
  }

  lemma WorkerStepKeepsTables(env: Env, s: Sys, now: Time, a: Action)
    requires DbOk(s.db, now) && Enabled(env, s, now, a) && WorkerAction(a)
    ensures TablesKept(s.db, Effect(env, s, now, a).db, now)
  {
    hide DbOk, Later, AfterLocalClaim, AfterReceive, CompleteExtraction, CompleteEmbedding, FailClaim, Cleaned,
         StaleRefs, LiveRefs, OldestDue, Published, WithCompletion, Doom;
    LaterSelf(s.db);
    if a.ClaimNext? { OldestIsPublished(s.db, a.id, a.kind, now); }
    match a
    case ClaimNext(id, kind) => LocalClaimKeeps(s, id, now);
    case Receive(m, kind) => ReceiveKeeps(s, m, kind, now);
    case FinishExtraction(job, draft) => CompleteExtractionKeeps(s.db, job.claim, draft, env.ttl, now);
    case FinishEmbedding(job, version) =>
      CompleteEmbeddingKeeps(s.db, job.claim, version, env.embed(version, job.content.value), now);
    case FailJob(job, code, retryable) => FailClaimKeeps(s.db, job.claim, code, retryable, now);
    case CleanUp(asOf) => CleanedKeeps(s.db, env.ttl, asOf, now);
    case _ =>
  }

  predicate AccountAction(a: Action) {
    a.CreateUser? || a.StoreUpload? || a.CommitUpload? || a.Save? || a.StoreReview? || a.Delete? || a.DiscardDraft?
  }

  predicate PublisherAction(a: Action) {
    a.ClaimPublication? || a.CancelPublication? || a.Publish? || a.Acknowledge? || a.RetryPublication?
  }

  predicate WorkerAction(a: Action) {
    a.ClaimNext? || a.Receive? || a.FinishExtraction? || a.FinishEmbedding? || a.FailJob? || a.CleanUp?
  }

  /** The steps that touch no table. */
  lemma OtherStepKeepsTables(env: Env, s: Sys, now: Time, a: Action)
    requires Enabled(env, s, now, a) && !AccountAction(a) && !PublisherAction(a) && !WorkerAction(a)
    ensures Effect(env, s, now, a).db == s.db
  {
  }

  lemma StepKeepsTables(env: Env, s: Sys, now: Time, a: Action)
    requires DbOk(s.db, s.clock) && StorageOk(env, s) && s.clock <= now && Enabled(env, s, now, a)
    ensures TablesKept(s.db, Effect(env, s, now, a).db, now)
  {
    hide DbOk, Later, StorageOk, Enabled, Effect, AccountAction, PublisherAction, WorkerAction;
    ClockForward(s.db, s.clock, now);
    LaterSelf(s.db);
    if AccountAction(a) {
      AccountStepKeepsTables(env, s, now, a);
    } else if PublisherAction(a) {
      PublisherStepKeepsTables(env, s, now, a);
    } else if WorkerAction(a) {
      WorkerStepKeepsTables(env, s, now, a);
    } else {
      OtherStepKeepsTables(env, s, now, a);
    }
  }

  lemma OldestIsPublished(db: Db, id: TaskId, kind: Kind, now: Time)
    requires OldestDue(db, id, kind, now)
    ensures id in db.tasks && Published(db, id)
  {
  }

  lemma ClaimLater(db: Db, db': Db, c: Claim)
    requires Later(db, db') && ClaimOk(db, c)
    ensures ClaimOk(db', c)
  {
    assert TaskLater(db.tasks[c.task], db'.tasks[c.task], db.next);
  }

  lemma JobsLater(s: Sys, s': Sys)
    requires JobsOk(s) && Later(s.db, s'.db) && s'.jobs == s.jobs
    ensures JobsOk(s')
  {
    hide Later, ClaimOk;
    LaterNext(s.db, s'.db);
    forall job | job in s'.jobs ensures ClaimOk(s'.db, job.claim) { ClaimLater(s.db, s'.db, job.claim); }
  }

  lemma LaterNext(db: Db, db': Db)
    requires Later(db, db')
    ensures db.next <= db'.next
  {
  }

  lemma JobAdded(s: Sys, s': Sys, job: Job)
    requires JobsOk(s) && Later(s.db, s'.db) && s'.jobs == s.jobs + {job}
    requires ClaimOk(s'.db, job.claim) && (job.message.Some? ==> job.message.value < s'.db.next)
    ensures JobsOk(s')
  {
    hide Later, ClaimOk;
    JobsLater(s, s'.(jobs := s.jobs));
  }

  /** A claim that yields a token describes the row it left. */
  lemma ClaimDescribes(db: Db, id: TaskId, now: Time)
    requires DbOk(db, now) && id in db.tasks
    ensures var r := Tasks.Claim(db, id, db.tasks[id].owner, LEASE_FOR, None, now);
            r.token.Some? ==> id in r.db.tasks && ClaimOk(r.db, ClaimOf(r.db, id, r.token.value))
  {
    RowAt(db, id, now);
    hide DbOk;
    if Claimable(db.tasks[id], now) { ClaimShape(db, id, LEASE_FOR, None, now); }
  }

  lemma MessageOld(s: Sys, m: MsgId)
    requires QueueOk(s) && m in s.messages
    ensures m < s.db.next
  {
  }

  lemma ReceiveShape(s: Sys, m: MsgId, kind: Kind, now: Time)
    requires m in s.messages
    ensures var id := s.messages[m];
            var r := ClaimPublished(s.db, id, kind, LEASE_FOR, now);
            var s' := AfterReceive(s, m, kind, now);
            && s'.db == r.db
            && s'.jobs == if r.token.Some? && id in r.db.tasks
                          then s.jobs + {Job(ClaimOf(r.db, id, r.token.value), Some(m), None)} else s.jobs
  {
    hide ClaimPublished, Disposed;
  }

  lemma PublishedDescribes(db: Db, id: TaskId, kind: Kind, now: Time)
    requires DbOk(db, now)
    ensures var r := ClaimPublished(db, id, kind, LEASE_FOR, now);
            r.token.Some? ==> id in r.db.tasks && ClaimOk(r.db, ClaimOf(r.db, id, r.token.value))
  {
    hide DbOk, Tasks.Claim, ClaimOk, ClaimOf;
    if id in db.tasks { ClaimDescribes(db, id, now); }
  }

  lemma ReceiveJobs(env: Env, s: Sys, m: MsgId, kind: Kind, now: Time)
    requires DbOk(s.db, now) && JobsOk(s) && QueueOk(s) && m in s.messages
    ensures JobsOk(AfterReceive(s, m, kind, now))
  {
    hide *;
    var s' := AfterReceive(s, m, kind, now);
    MessageOld(s, m);
    ReceiveKeeps(s, m, kind, now);
    UnfoldKept(s.db, s'.db, now);
    LaterNext(s.db, s'.db);
    var id := s.messages[m];
    PublishedDescribes(s.db, id, kind, now);
    ReceiveShape(s, m, kind, now);
    var r := ClaimPublished(s.db, id, kind, LEASE_FOR, now);
    if r.token.Some? {
      JobAdded(s, s', Job(ClaimOf(r.db, id, r.token.value), Some(m), None));
    } else {
      JobsLater(s, s');
    }
  }

  lemma UnfoldKept(db: Db, db': Db, now: Time)
    requires TablesKept(db, db', now)
    ensures DbOk(db', now) && Later(db, db')
  {
  }

  lemma LocalClaimJobs(s: Sys, id: TaskId, now: Time)
    requires DbOk(s.db, now) && JobsOk(s) && id in s.db.tasks && Published(s.db, id)
    ensures JobsOk(AfterLocalClaim(s, id, now))
  {
    var s' := AfterLocalClaim(s, id, now);
    LocalClaimKeeps(s, id, now);
    ClaimDescribes(s.db, id, now);
    var r := ClaimLocal(s.db, id, now);
    hide DbOk, Later, Tasks.Claim, ClaimOk, JobsOk, ClaimOf;
    if r.token.Some? && id in r.db.tasks {
      JobAdded(s, s', Job(ClaimOf(r.db, id, r.token.value), None, None));
    } else {
      JobsLater(s, s');
    }
  }

  lemma ReadJobs(s: Sys, job: Job, content: Option<Content>)
    requires JobsOk(s) && job in s.jobs
    ensures JobsOk(s.(jobs := s.jobs + {job.(content := content)}))
  {
  }

  lemma StepKeepsJobs(env: Env, s: Sys, now: Time, a: Action)
    requires SysOk(env, s) && s.clock <= now && Enabled(env, s, now, a)
    ensures JobsOk(Effect(env, s, now, a))
  {
    var s' := Effect(env, s, now, a);
    hide DbOk, Later, StorageOk, QueueOk, ProfilesOk, CompletionsOk, ReadsOk, JobsOk, AfterReceive, AfterLocalClaim,
         OldestDue, Published;
    ClockForward(s.db, s.clock, now);
    StepKeepsTables(env, s, now, a);
    if a.ClaimNext? { OldestIsPublished(s.db, a.id, a.kind, now); }
    if a.Receive? {
      ReceiveJobs(env, s, a.message, a.kind, now);
    } else if a.ClaimNext? {
      LocalClaimJobs(s, a.id, now);
    } else if a.ReadContent? {
      ReadJobs(s, a.job, ApprovedContent(s.db, a.job.claim.owner, a.job.claim.revision));
    } else {
      JobsFrame(env, s, now, a);
      JobsLater(s, s');
    }
  }

  lemma JobsFrame(env: Env, s: Sys, now: Time, a: Action)
    requires Enabled(env, s, now, a) && !a.Receive? && !a.ClaimNext? && !a.ReadContent?
    ensures Effect(env, s, now, a).jobs == s.jobs
  {
  }
}
