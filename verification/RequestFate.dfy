/** What carries a request out under its key, and when nothing can any more. */
module RequestFate {
  import opened Wrappers
  import opened Rows
  import opened Tasks
  import opened Outbox
  import opened Resume
  import opened Worker
  import opened RowInvariant
  import opened Quiet
  import opened Deployment
  import opened Invariants
  import opened TableSafety
  import opened QueueSafety
  import DeploymentTheorems
  import Transactions
  import SaveSafety
  import opened DraftStuck

  /** The request has been carried out under this key. */
  predicate Carried(db: Db, user: UserId, op: OpId, payload: Payload) {
    (user, op) in db.ops && db.ops[(user, op)].state == OpSucceeded && db.ops[(user, op)].result.Some?
    && db.ops[(user, op)].payload == payload
  }

  /** The named task is this user's extraction at the request's revision. */
  predicate NamesOwnDraft(db: Db, user: UserId, payload: Payload) {
    payload.extraction.Some?
    && var id := payload.extraction.value;
       id in db.tasks && db.tasks[id].owner == user && db.tasks[id].kind == Extraction && db.tasks[id].revision == payload.expected
  }

  /** No draft is named, or the named one is good, or it is still being made and can be finished. */
  predicate DraftMayServe(env: Env, s: Sys, user: UserId, payload: Payload) {
    || payload.extraction.None?
    || ReviewedDraft(s.db, user, payload, s.clock)
    || (NamesOwnDraft(s.db, user, payload) && Live(s.db.tasks[payload.extraction.value]) && 0 < env.ttl
        && CanFinish(s, payload.extraction.value))
  }

  /** A draft that the server has issued the identifier for, and that cannot serve any more. */
  predicate NoDraft(env: Env, s: Sys, user: UserId, payload: Payload) {
    payload.extraction.Some? && payload.extraction.value < s.db.next && !DraftMayServe(env, s, user, payload)
  }

  // ---- drafts that are gone stay gone

  /** An extraction succeeds only by its handler's result, and then its draft lives for the store's TTL. */
  lemma DraftsAreFinished(env: Env, s: Sys, a: Action, id: TaskId)
    requires SysOk(env, s) && Enabled(env, s, s.clock, a) && id in s.db.tasks && Live(s.db.tasks[id])
    requires s.db.tasks[id].kind == Extraction
    requires var db' := Effect(env, s, s.clock, a).db; id in db'.tasks && db'.tasks[id].state == Succeeded
    ensures Effect(env, s, s.clock, a).db.tasks[id].expires == Some(s.clock + env.ttl)
  {
    hide SysOk, DbOk, QueueOk, JobsOk, Effect, Enabled, CompleteExtraction;
    PartsOf(env, s);
    if a.FinishExtraction? {
      FinishDb(env, s, a.job, a.draft);
      FinishedBy(env, s, a.job, a.draft, id);
    } else {
      NotFinishedBy(env, s, a, id);
      assert false;
    }
  }

  lemma FinishDb(env: Env, s: Sys, job: Job, draft: Draft)
    requires Enabled(env, s, s.clock, FinishExtraction(job, draft))
    ensures Effect(env, s, s.clock, FinishExtraction(job, draft)).db == CompleteExtraction(s.db, job.claim, draft, env.ttl, s.clock).db
  {
    hide CompleteExtraction, WithCompletion, Doom;
  }

  lemma PartsOf(env: Env, s: Sys)
    requires SysOk(env, s)
    ensures DbOk(s.db, s.clock) && QueueOk(s) && JobsOk(s)
  {
    hide StorageOk, QueueOk, ProfilesOk, CompletionsOk, ReadsOk, JobsOk, DbOk;
  }

  lemma FinishedBy(env: Env, s: Sys, job: Job, draft: Draft, id: TaskId)
    requires id in s.db.tasks && Live(s.db.tasks[id])
    requires var db' := CompleteExtraction(s.db, job.claim, draft, env.ttl, s.clock).db; id in db'.tasks && db'.tasks[id].state == Succeeded
    ensures CompleteExtraction(s.db, job.claim, draft, env.ttl, s.clock).db.tasks[id].expires == Some(s.clock + env.ttl)
  {
    CompletedRow(s.db, job.claim, s.clock, id);
    hide Complete;
    if job.claim.task == id { } else { }
  }

  lemma CompletedRow(db: Db, c: Claim, now: Time, id: TaskId)
    requires id in db.tasks && Live(db.tasks[id])
    ensures var r := Complete(db, c.task, c.owner, c.revision, c.token, now);
            id in r.db.tasks && (r.db.tasks[id].state == Succeeded ==> r.ok && c.task == id)
  {
    hide HoldsLease;
    if c.task == id { } else { }
  }

  lemma QuietSucceeds(db: Db, db': Db, id: TaskId)
    requires QuietChange(db, db') && id in db.tasks && Live(db.tasks[id])
    ensures id in db'.tasks ==> db'.tasks[id].state != Succeeded
  {
    if id in db'.tasks { assert QuietRow(db, db', id); }
  }

  lemma NotFinishedBy(env: Env, s: Sys, a: Action, id: TaskId)
    requires DbOk(s.db, s.clock) && QueueOk(s) && JobsOk(s) && Enabled(env, s, s.clock, a) && !a.FinishExtraction?
    requires id in s.db.tasks && Live(s.db.tasks[id]) && s.db.tasks[id].kind == Extraction
    ensures id in Effect(env, s, s.clock, a).db.tasks ==> Effect(env, s, s.clock, a).db.tasks[id].state != Succeeded
  {
    hide DbOk, QueueOk, QuietChange, JobsOk;
    if TableAction(a) {
      TableActionQuiet(env, s, a);
      QuietSucceeds(s.db, Effect(env, s, s.clock, a).db, id);
    } else if EndingWork(a) {
      WorkNotFinished(env, s, a, id);
    } else if MessageAction(a) {
      MessageNotFinished(env, s, a, id);
    } else {
      RemainingQuiet(env, s, a);
    }
  }

  lemma WorkNotFinished(env: Env, s: Sys, a: Action, id: TaskId)
    requires DbOk(s.db, s.clock) && JobsOk(s) && Enabled(env, s, s.clock, a) && (a.FinishEmbedding? || a.FailJob? || a.CommitUpload?)
    requires id in s.db.tasks && Live(s.db.tasks[id]) && s.db.tasks[id].kind == Extraction
    ensures id in Effect(env, s, s.clock, a).db.tasks ==> Effect(env, s, s.clock, a).db.tasks[id].state != Succeeded
  {
    hide DbOk, JobsOk, Prepare, CompleteEmbedding, FailClaim, WithCompletion, Doom;
    match a
    case FinishEmbedding(job, version) => EmbeddingNotFinished(s, job, version, env.embed(version, job.content.value), id);
    case FailJob(job, code, retryable) => FailNotFinished(s.db, job.claim, code, retryable, s.clock, id);
    case CommitUpload(user, ref) => UploadNotFinished(s, user, ref, id);
  }

  lemma EmbeddingNotFinished(s: Sys, job: Job, version: Version, bodies: seq<ChunkBody>, id: TaskId)
    requires JobsOk(s) && job in s.jobs && job.claim.kind == Embedding
    requires id in s.db.tasks && Live(s.db.tasks[id]) && s.db.tasks[id].kind == Extraction
    ensures var db' := CompleteEmbedding(s.db, job.claim, version, bodies, s.clock);
            id in db'.tasks ==> db'.tasks[id].state != Succeeded
  {
    assert ClaimOk(s.db, job.claim);
    hide ChunkRows, WithoutRevision;
  }

  lemma FailNotFinished(db: Db, c: Claim, code: FailureCode, retryable: bool, now: Time, id: TaskId)
    requires id in db.tasks && Live(db.tasks[id])
    ensures var db' := FailClaim(db, c, code, retryable, now).db; id in db'.tasks ==> db'.tasks[id].state != Succeeded
  {
    FailedNotFinished(db, c, code, retryable, now, id);
    hide Fail;
    if c.task == id { } else { }
  }

  lemma FailedNotFinished(db: Db, c: Claim, code: FailureCode, retryable: bool, now: Time, id: TaskId)
    requires id in db.tasks && Live(db.tasks[id])
    ensures var db' := Fail(db, c.task, c.owner, c.token, code, retryable, RETRY_DELAY, None, now).db;
            id in db'.tasks ==> db'.tasks[id].state != Succeeded
  {
    hide HoldsLease, AttemptLimit;
    if c.task == id { } else { }
  }

  lemma UploadNotFinished(s: Sys, user: UserId, ref: Ref, id: TaskId)
    requires user in s.db.users && id in s.db.tasks && Live(s.db.tasks[id])
    ensures var r := Prepare(s.db, user, ref, s.clock); r.Some? && id in r.value.tasks ==> r.value.tasks[id].state != Succeeded
  {
  }

  lemma ClaimNotFinished(db: Db, other: TaskId, owner: UserId, now: Time, id: TaskId)
    requires id in db.tasks && Live(db.tasks[id])
    ensures var db' := Tasks.Claim(db, other, owner, LEASE_FOR, None, now).db; id in db'.tasks ==> db'.tasks[id].state != Succeeded
  {
    hide Claimable, AttemptLimit, BadLimit;
    if other == id { } else { }
  }

  lemma LocalNotFinished(s: Sys, other: TaskId, id: TaskId)
    requires other in s.db.tasks && id in s.db.tasks && Live(s.db.tasks[id])
    ensures var db' := AfterLocalClaim(s, other, s.clock).db; id in db'.tasks ==> db'.tasks[id].state != Succeeded
  {
    ClaimNotFinished(s.db, other, s.db.tasks[other].owner, s.clock, id);
    hide Tasks.Claim, ClaimOf;
  }

  lemma ReceiveNotFinished(s: Sys, m: MsgId, kind: Kind, id: TaskId)
    requires m in s.messages && id in s.db.tasks && Live(s.db.tasks[id])
    ensures var db' := AfterReceive(s, m, kind, s.clock).db; id in db'.tasks ==> db'.tasks[id].state != Succeeded
  {
    hide ClaimPublished, ClaimOf, Disposed, WindowMessage;
    PublishedNotFinished(s.db, s.messages[m], kind, s.clock, id);
  }

  lemma PublishedNotFinished(db: Db, other: TaskId, kind: Kind, now: Time, id: TaskId)
    requires id in db.tasks && Live(db.tasks[id])
    ensures var db' := ClaimPublished(db, other, kind, LEASE_FOR, now).db; id in db'.tasks ==> db'.tasks[id].state != Succeeded
  {
    hide Tasks.Claim, Published;
    if other in db.tasks { ClaimNotFinished(db, other, db.tasks[other].owner, now, id); }
  }

  lemma DeliveryNotFinished(env: Env, s: Sys, a: Action)
    requires Enabled(env, s, s.clock, a) && MessageAction(a) && !a.ClaimNext? && !a.Receive?
    ensures Effect(env, s, s.clock, a).db.tasks == s.db.tasks
  {
    hide SettledAfterWork, ApprovedContent, DueEvent;
  }

  lemma MessageNotFinished(env: Env, s: Sys, a: Action, id: TaskId)
    requires DbOk(s.db, s.clock) && Enabled(env, s, s.clock, a) && MessageAction(a)
    requires id in s.db.tasks && Live(s.db.tasks[id])
    ensures id in Effect(env, s, s.clock, a).db.tasks ==> Effect(env, s, s.clock, a).db.tasks[id].state != Succeeded
  {
    hide DbOk, AfterLocalClaim, AfterReceive, SettledAfterWork, ApprovedContent;
    if a.ClaimNext? {
      LocalNotFinished(s, a.id, id);
    } else if a.Receive? {
      ReceiveNotFinished(s, a.message, a.kind, id);
    } else {
      DeliveryNotFinished(env, s, a);
    }
  }

  /** Once it has ended, an extraction's draft only ever gets older or is dropped. */
  lemma EndedDraftStays(db: Db, db': Db, clock: Time, user: UserId, payload: Payload)
    requires Later(db, db') && payload.extraction.Some? && payload.extraction.value < db.next
    requires !ReviewedDraft(db, user, payload, clock)
    requires NamesOwnDraft(db, user, payload) ==> !Live(db.tasks[payload.extraction.value])
    ensures !ReviewedDraft(db', user, payload, clock)
    ensures NamesOwnDraft(db', user, payload) ==> !Live(db'.tasks[payload.extraction.value])
  {
    var id := payload.extraction.value;
    if id in db.tasks { assert TaskLater(db.tasks[id], db'.tasks[id], db.next); }
  }

  /** A live extraction that cannot finish does not make a draft that is good. */
  lemma LiveDraftStays(env: Env, s: Sys, a: Action, user: UserId, payload: Payload)
    requires SysOk(env, s) && Enabled(env, s, s.clock, a) && NamesOwnDraft(s.db, user, payload)
    requires Live(s.db.tasks[payload.extraction.value]) && (env.ttl == 0 || !CanFinish(s, payload.extraction.value))
    ensures var s', id := Effect(env, s, s.clock, a), payload.extraction.value;
            && !ReviewedDraft(s'.db, user, payload, s.clock)
            && (id in s'.db.tasks && Live(s'.db.tasks[id]) ==> env.ttl == 0 || !CanFinish(s', id))
  {
    var s', id := Effect(env, s, s.clock, a), payload.extraction.value;
    PartsOf(env, s);
    hide SysOk, DbOk, QueueOk, JobsOk, Effect, Enabled, CanFinish, Stuck;
    if env.ttl == 0 {
      if id in s'.db.tasks && s'.db.tasks[id].state == Succeeded { DraftsAreFinished(env, s, a, id); }
    } else {
      StuckIs(s, id);
      StuckStays(env, s, a, id);
      NoLongerFinishes(env, s, a, id);
    }
  }

  /** A draft that cannot serve never will. */
  lemma NoDraftStays(env: Env, s: Sys, a: Action, user: UserId, payload: Payload)
    requires SysOk(env, s) && Enabled(env, s, s.clock, a) && NoDraft(env, s, user, payload)
    requires Later(s.db, Effect(env, s, s.clock, a).db)
    ensures NoDraft(env, Effect(env, s, s.clock, a), user, payload)
  {
    var s', id := Effect(env, s, s.clock, a), payload.extraction.value;
    DeploymentTheorems.ClockUntouched(env, s, s.clock, a);
    LaterNext(s.db, s'.db);
    hide SysOk, Effect, Enabled, CanFinish, ReviewedDraft, Later;
    if NamesOwnDraft(s.db, user, payload) && Live(s.db.tasks[id]) {
      LiveDraftStays(env, s, a, user, payload);
    } else {
      EndedDraftStays(s.db, s'.db, s.clock, user, payload);
    }
  }

  lemma NoLongerFinishes(env: Env, s: Sys, a: Action, id: TaskId)
    requires SysOk(env, s) && Enabled(env, s, s.clock, a)
    requires Ended(Effect(env, s, s.clock, a).db, id) || Stuck(Effect(env, s, s.clock, a), id)
    ensures id in Effect(env, s, s.clock, a).db.tasks && Effect(env, s, s.clock, a).db.tasks[id].state != Succeeded
    ensures Live(Effect(env, s, s.clock, a).db.tasks[id]) ==> !CanFinish(Effect(env, s, s.clock, a), id)
  {
    hide SysOk, DbOk, Effect, Enabled, CanFinish, Stuck, Ended;
    TablesAfter(env, s, a);
    EndedOrStuck(Effect(env, s, s.clock, a), id);
  }

  lemma TablesAfter(env: Env, s: Sys, a: Action)
    requires SysOk(env, s) && Enabled(env, s, s.clock, a)
    ensures DbOk(Effect(env, s, s.clock, a).db, s.clock) && Effect(env, s, s.clock, a).clock == s.clock
  {
    hide SysOk, DbOk, StorageOk, Effect, Enabled;
    PartsAll(env, s);
    StepKeepsTables(env, s, s.clock, a);
    UnfoldKept(s.db, Effect(env, s, s.clock, a).db, s.clock);
    DeploymentTheorems.ClockUntouched(env, s, s.clock, a);
  }

  lemma EndedOrStuck(s: Sys, id: TaskId)
    requires DbOk(s.db, s.clock) && (Ended(s.db, id) || Stuck(s, id))
    ensures id in s.db.tasks && s.db.tasks[id].state != Succeeded && (Live(s.db.tasks[id]) ==> !CanFinish(s, id))
  {
    if Stuck(s, id) { StuckIs(s, id); }
    hide DbOk, CanFinish, Held, Receivable;
  }

  lemma PartsAll(env: Env, s: Sys)
    requires SysOk(env, s)
    ensures DbOk(s.db, s.clock) && StorageOk(env, s)
  {
    hide StorageOk, QueueOk, ProfilesOk, CompletionsOk, ReadsOk, JobsOk, DbOk;
  }

  // ---- what is carried out, and what never is

  /** A request is carried out only by its own save, at the account's revision and with a good draft if it names one. */
  lemma CarriedBy(env: Env, s: Sys, a: Action, user: UserId, op: OpId, payload: Payload)
    requires Enabled(env, s, s.clock, a) && (user, op) !in s.db.ops
    requires Carried(Effect(env, s, s.clock, a).db, user, op, payload)
    ensures user in s.db.users && s.db.users[user] == payload.expected && ReviewedDraft(s.db, user, payload, s.clock)
  {
    if a.Save? {
      SaveSafety.SaveEffect(env, s, s.clock, a);
      hide Effect, Enabled;
      SavedBy(s.db, a.user, a.op, a.payload, s.clock, user, op, payload);
    } else if a.StoreReview? {
      SaveSafety.SaveEffect(env, s, s.clock, a);
      hide Effect, Enabled;
      ReviewStoresFailure(s.db, a.user, a.op, a.payload, s.clock, user, op, payload);
    } else {
      SaveSafety.OtherOps(env, s, s.clock, a);
    }
  }

  lemma SavedBy(db: Db, user: UserId, op: OpId, payload: Payload, now: Time, user': UserId, op': OpId, payload': Payload)
    requires user in db.users && (user', op') !in db.ops && Carried(SaveMain(db, user, op, payload, now).db, user', op', payload')
    ensures user' == user && payload' == payload && db.users[user] == payload.expected && ReviewedDraft(db, user, payload, now)
  {
    Transactions.SaveMainCases(db, user, op, payload, now);
    SaveSafety.CaseOps(db, user, op, payload, now);
    hide SaveMain, Transactions.CaseDb, Enqueue, Changes, FailedEmbedding, ReviewedDraft;
    if (user', op') != (user, op) { }
  }

  lemma ReviewStoresFailure(db: Db, user: UserId, op: OpId, payload: Payload, now: Time, user': UserId, op': OpId, payload': Payload)
    requires (user', op') !in db.ops
    ensures !Carried(SaveReview(db, user, op, payload, now).db, user', op', payload')
  {
    hide Replay;
  }

  /** Nothing can carry the request out any more: its key is taken by something else, the account has passed its revision,
    * or its draft is gone. */
  predicate Hopeless(env: Env, s: Sys, user: UserId, op: OpId, payload: Payload) {
    && !Carried(s.db, user, op, payload) && user in s.db.users
    && ((user, op) in s.db.ops || payload.expected < s.db.users[user] || NoDraft(env, s, user, payload))
  }

  lemma HopelessStays(env: Env, s: Sys, a: Action, user: UserId, op: OpId, payload: Payload)
    requires SysOk(env, s) && Enabled(env, s, s.clock, a) && Hopeless(env, s, user, op, payload)
    requires Later(s.db, Effect(env, s, s.clock, a).db)
    ensures Hopeless(env, Effect(env, s, s.clock, a), user, op, payload)
  {
    var s' := Effect(env, s, s.clock, a);
    if NoDraft(env, s, user, payload) { NoDraftStays(env, s, a, user, payload); }
    hide SysOk, Effect, Enabled, TaskLater;
    if (user, op) !in s.db.ops && Carried(s'.db, user, op, payload) {
      CarriedBy(env, s, a, user, op, payload);
      assert false;
    }
    hide NoDraft;
  }

  lemma HopelessAges(env: Env, s: Sys, now: Time, user: UserId, op: OpId, payload: Payload)
    requires SysOk(env, s) && Hopeless(env, s, user, op, payload) && s.clock <= now
    ensures Hopeless(env, s.(clock := now), user, op, payload)
  {
    PartsOf(env, s);
    hide SysOk;
    if NoDraft(env, s, user, payload) && NamesOwnDraft(s.db, user, payload) && Live(s.db.tasks[payload.extraction.value]) {
      AgedFinish(s, now, payload.extraction.value);
    }
    hide DbOk, QueueOk, JobsOk, CanFinish;
  }

  lemma AgedFinish(s: Sys, now: Time, id: TaskId)
    requires s.clock <= now
    ensures CanFinish(s.(clock := now), id) ==> CanFinish(s, id)
  {
  }

  /** It stays so along every run. */
  lemma {:induction false} HopelessForever(env: Env, states: seq<Sys>, steps: seq<Step>, user: UserId, op: OpId, payload: Payload, i: nat)
    requires IsRun(env, states, steps) && SysOk(env, states[0]) && Hopeless(env, states[0], user, op, payload) && i < |states|
    ensures SysOk(env, states[i]) && Hopeless(env, states[i], user, op, payload)
  {
    if i > 0 {
      HopelessForever(env, states, steps, user, op, payload, i - 1);
      assert Next(env, states[i - 1], steps[i - 1], states[i]);
      HopelessStep(env, states[i - 1], steps[i - 1], states[i], user, op, payload);
    }
    hide SysOk, Hopeless, IsRun;
  }

  lemma HopelessStep(env: Env, s: Sys, step: Step, s': Sys, user: UserId, op: OpId, payload: Payload)
    requires SysOk(env, s) && Next(env, s, step, s') && Hopeless(env, s, user, op, payload)
    ensures SysOk(env, s') && Hopeless(env, s', user, op, payload)
  {
    DeploymentTheorems.StepKeeps(env, s, step, s');
    DeploymentTheorems.ClockOk(env, s, step.now);
    hide SysOk, Hopeless, Effect, Enabled, Later;
    HopelessAges(env, s, step.now, user, op, payload);
    HopelessStays(env, s.(clock := step.now), step.action, user, op, payload);
  }
}
