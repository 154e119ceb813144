/** The local queue (run_one), where a claim that only ends a task is rolled back: when it moves, and what stops it.
  *
  * claim_task ends a task that has no attempt left instead of claiming it, and returns nothing. The
  * queue worker commits that; run_one rolls it back, so the task stays the oldest due one.
  */
module LocalQueue {
  import opened Wrappers
  import opened Rows
  import opened Tasks
  import opened Outbox
  import opened Resume
  import opened Worker
  import opened RowInvariant
  import opened Deployment
  import opened Invariants
  import DeploymentTheorems
  import Transactions

  // ---- one pass

  /** run_one claims the oldest due task exactly when an attempt is left; otherwise it writes nothing. */
  lemma ClaimedExactlyWithAttemptsLeft(db: Db, id: TaskId, kind: Kind, now: Time)
    requires DbOk(db, now) && OldestDue(db, id, kind, now)
    ensures ClaimLocal(db, id, now).token.Some? <==> db.tasks[id].attempts < db.tasks[id].maxAttempts
    ensures db.tasks[id].attempts == db.tasks[id].maxAttempts ==> ClaimLocal(db, id, now) == ClaimResult(db, None)
  {
    RowAt(db, id, now);
    hide DbOk;
  }

  /** An embedding whose last attempt was lost with its lease. */
  predicate Jammed(db: Db, id: TaskId, now: Time) {
    id in db.tasks
    && var t := db.tasks[id];
       t.kind == Embedding && t.state == Processing && t.leaseEnd.Some? && t.leaseEnd.value <= now && t.available <= now
       && t.attempts == t.maxAttempts
  }

  /** The queue worker ends such a task on the next message for it. */
  lemma QueueModeEndsIt(db: Db, id: TaskId, now: Time)
    requires DbOk(db, now) && Jammed(db, id, now)
    ensures var r := ClaimPublished(db, id, Embedding, LEASE_FOR, now);
            r.token.None? && id in r.db.tasks && r.db.tasks[id].state == Failed && r.db.tasks[id].failure == Some(AttemptsExhausted)
  {
    RowAt(db, id, now);
    hide DbOk;
  }

  // ---- steps

  /** The row is as it was, apart from a result. */
  predicate Unmoved(db: Db, db': Db, id: TaskId) {
    id in db.tasks && id in db'.tasks
    && db'.tasks[id] == db.tasks[id].(result := db'.tasks[id].result, expires := db'.tasks[id].expires)
  }

  lemma EnqueueUnmoved(db: Db, owner: UserId, kind: Kind, key: TaskKey, revision: nat, payload: Option<Ref>, now: Time, id: TaskId)
    requires id in db.tasks && id < db.next && Enqueue(db, owner, kind, key, revision, payload, MAX_ATTEMPTS, now).Some?
    ensures Unmoved(db, Enqueue(db, owner, kind, key, revision, payload, MAX_ATTEMPTS, now).value, id)
  {
  }

  lemma SaveUnmoved(db: Db, user: UserId, op: OpId, payload: Payload, now: Time, id: TaskId)
    requires user in db.users && id in db.tasks && id < db.next
    ensures Unmoved(db, SaveMain(db, user, op, payload, now).db, id)
  {
    Transactions.SaveMainCases(db, user, op, payload, now);
    hide SaveMain, Enqueue, Transactions.CaseOf;
    var revision := db.users[user];
    match Transactions.CaseOf(db, user, op, payload, now)
    case NoWrite =>
    case Changed => EnqueueUnmoved(Republish(db, user, payload), user, Embedding, SaveKey(op), revision + 1, None, now, id);
    case Requeued => EnqueueUnmoved(db, user, Embedding, RetryKey(op), revision, None, now, id);
    case Unchanged =>
  }

  lemma DeleteUnmoved(db: Db, user: UserId, expected: nat, id: TaskId)
    requires user in db.users && id in db.tasks && db.tasks[id].owner != user
    ensures Unmoved(db, DeleteResume(db, user, expected).db, id)
  {
  }

  /** Late workers are fenced off by the lease that has run out. */
  lemma FencedUnmoved(db: Db, c: Claim, code: FailureCode, retryable: bool, now: Time, id: TaskId)
    requires Jammed(db, id, now)
    ensures var r := Complete(db, c.task, c.owner, c.revision, c.token, now);
            Unmoved(db, r.db, id) && (c.task == id ==> r == FlagResult(db, false))
    ensures var r := Fail(db, c.task, c.owner, c.token, code, retryable, RETRY_DELAY, None, now);
            Unmoved(db, r.db, id) && (c.task == id ==> r == FlagResult(db, false))
  {
    if c.task == id { } else { }
  }

  lemma ExtractionUnmoved(db: Db, c: Claim, draft: Draft, ttl: nat, now: Time, id: TaskId)
    requires Jammed(db, id, now)
    ensures Unmoved(db, CompleteExtraction(db, c, draft, ttl, now).db, id)
  {
    hide Jammed, Complete;
    FencedUnmoved(db, c, StaleRevision, false, now, id);
    if c.task == id { } else { }
  }

  lemma EmbeddingUnmoved(db: Db, c: Claim, version: Version, bodies: seq<ChunkBody>, now: Time, id: TaskId)
    requires Jammed(db, id, now)
    ensures Unmoved(db, CompleteEmbedding(db, c, version, bodies, now), id)
  {
    hide Jammed, Complete, ChunkRows, WithoutRevision;
    FencedUnmoved(db, c, StaleRevision, false, now, id);
    if c.task == id { } else { }
  }

  lemma FailUnmoved(db: Db, c: Claim, code: FailureCode, retryable: bool, now: Time, id: TaskId)
    requires Jammed(db, id, now)
    ensures Unmoved(db, FailClaim(db, c, code, retryable, now).db, id)
  {
    hide Fail;
    FencedUnmoved(db, c, code, retryable, now, id);
    if c.task == id { } else { }
  }

  lemma LocalClaimUnmoved(db: Db, other: TaskId, now: Time, id: TaskId)
    requires DbOk(db, now) && other in db.tasks && Jammed(db, id, now)
    ensures Unmoved(db, ClaimLocal(db, other, now).db, id)
  {
    RowAt(db, id, now);
    hide DbOk;
    if other == id { } else { }
  }

  lemma CleanUpUnmoved(db: Db, ttl: nat, asOf: Time, id: TaskId)
    requires id in db.tasks && db.tasks[id].kind == Embedding
    ensures Unmoved(db, Cleaned(db, ttl, asOf), id)
  {
  }

  lemma DiscardUnmoved(db: Db, user: UserId, other: TaskId, id: TaskId)
    requires id in db.tasks && db.tasks[id].kind == Embedding
    ensures Unmoved(db, Discard(db, user, other).db, id)
  {
  }

  /** The owner deletes the resume the task belongs to. */
  predicate DeletedBy(db: Db, id: TaskId, a: Action) {
    a.Delete? && id in db.tasks && db.tasks[id].owner == a.user
  }

  lemma JammedKind(db: Db, id: TaskId, now: Time)
    requires DbOk(db, now) && Jammed(db, id, now)
    ensures id in db.tasks && id < db.next && db.tasks[id].kind == Embedding
  {
  }

  lemma ClaimStepUnmoved(env: Env, s: Sys, other: TaskId, kind: Kind, id: TaskId)
    requires DbOk(s.db, s.clock) && Enabled(env, s, s.clock, ClaimNext(other, kind)) && Jammed(s.db, id, s.clock)
    ensures Unmoved(s.db, Effect(env, s, s.clock, ClaimNext(other, kind)).db, id)
  {
    LocalClaimUnmoved(s.db, other, s.clock, id);
    hide DbOk, Jammed, Unmoved, ClaimLocal, ClaimOf;
  }

  lemma ExtractionStepUnmoved(env: Env, s: Sys, job: Job, draft: Draft, id: TaskId)
    requires Enabled(env, s, s.clock, FinishExtraction(job, draft)) && Jammed(s.db, id, s.clock)
    ensures Unmoved(s.db, Effect(env, s, s.clock, FinishExtraction(job, draft)).db, id)
  {
    ExtractionUnmoved(s.db, job.claim, draft, env.ttl, s.clock, id);
    hide Jammed, Unmoved, CompleteExtraction, WithCompletion, Doom;
  }

  lemma EmbeddingStepUnmoved(env: Env, s: Sys, job: Job, version: Version, id: TaskId)
    requires Enabled(env, s, s.clock, FinishEmbedding(job, version)) && Jammed(s.db, id, s.clock)
    ensures Unmoved(s.db, Effect(env, s, s.clock, FinishEmbedding(job, version)).db, id)
  {
    EmbeddingUnmoved(s.db, job.claim, version, env.embed(version, job.content.value), s.clock, id);
    hide Jammed, Unmoved, CompleteEmbedding, WithCompletion;
  }

  lemma FailStepUnmoved(env: Env, s: Sys, job: Job, code: FailureCode, retryable: bool, id: TaskId)
    requires Enabled(env, s, s.clock, FailJob(job, code, retryable)) && Jammed(s.db, id, s.clock)
    ensures Unmoved(s.db, Effect(env, s, s.clock, FailJob(job, code, retryable)).db, id)
  {
    FailUnmoved(s.db, job.claim, code, retryable, s.clock, id);
    hide Jammed, Unmoved, FailClaim, Doom;
  }

  lemma CleanUpStepUnmoved(env: Env, s: Sys, asOf: Time, id: TaskId)
    requires Enabled(env, s, s.clock, CleanUp(asOf)) && id in s.db.tasks && s.db.tasks[id].kind == Embedding
    ensures Unmoved(s.db, Effect(env, s, s.clock, CleanUp(asOf)).db, id)
  {
    CleanUpUnmoved(s.db, env.ttl, asOf, id);
    hide Unmoved, Cleaned, StaleRefs, LiveRefs;
  }

  lemma WorkUnmoved(env: Env, s: Sys, a: Action, id: TaskId)
    requires DbOk(s.db, s.clock) && Enabled(env, s, s.clock, a) && Jammed(s.db, id, s.clock)
    requires a.ClaimNext? || a.FinishExtraction? || a.FinishEmbedding? || a.FailJob? || a.CleanUp?
    ensures Unmoved(s.db, Effect(env, s, s.clock, a).db, id)
  {
    hide DbOk, Jammed, Unmoved, Enabled, Effect;
    JammedKind(s.db, id, s.clock);
    match a
    case ClaimNext(other, kind) => ClaimStepUnmoved(env, s, other, kind, id);
    case FinishExtraction(job, draft) => ExtractionStepUnmoved(env, s, job, draft, id);
    case FinishEmbedding(job, version) => EmbeddingStepUnmoved(env, s, job, version, id);
    case FailJob(job, code, retryable) => FailStepUnmoved(env, s, job, code, retryable, id);
    case CleanUp(asOf) => CleanUpStepUnmoved(env, s, asOf, id);
  }

  lemma SaveStepUnmoved(env: Env, s: Sys, user: UserId, op: OpId, payload: Payload, id: TaskId)
    requires Enabled(env, s, s.clock, Save(user, op, payload)) && id in s.db.tasks && id < s.db.next
    ensures Unmoved(s.db, Effect(env, s, s.clock, Save(user, op, payload)).db, id)
  {
    SaveUnmoved(s.db, user, op, payload, s.clock, id);
    hide Unmoved, SaveMain;
  }

  lemma DeleteStepUnmoved(env: Env, s: Sys, user: UserId, expected: nat, id: TaskId)
    requires Enabled(env, s, s.clock, Delete(user, expected)) && id in s.db.tasks && !DeletedBy(s.db, id, Delete(user, expected))
    ensures Unmoved(s.db, Effect(env, s, s.clock, Delete(user, expected)).db, id)
  {
    DeleteUnmoved(s.db, user, expected, id);
    hide Unmoved, DeleteResume;
  }

  lemma DiscardStepUnmoved(env: Env, s: Sys, user: UserId, other: TaskId, id: TaskId)
    requires Enabled(env, s, s.clock, DiscardDraft(user, other)) && id in s.db.tasks && s.db.tasks[id].kind == Embedding
    ensures Unmoved(s.db, Effect(env, s, s.clock, DiscardDraft(user, other)).db, id)
  {
    DiscardUnmoved(s.db, user, other, id);
    hide Unmoved, Discard, Doom;
  }

  lemma UploadStepUnmoved(env: Env, s: Sys, user: UserId, ref: Ref, id: TaskId)
    requires Enabled(env, s, s.clock, CommitUpload(user, ref)) && id in s.db.tasks && id < s.db.next
    ensures Unmoved(s.db, Effect(env, s, s.clock, CommitUpload(user, ref)).db, id)
  {
    hide Enqueue;
    if Prepare(s.db, user, ref, s.clock).Some? {
      EnqueueUnmoved(s.db, user, Extraction, Upload(ref), s.db.users[user], Some(ref), s.clock, id);
    }
  }

  lemma TablesUnmoved(env: Env, s: Sys, a: Action, id: TaskId)
    requires DbOk(s.db, s.clock) && Enabled(env, s, s.clock, a) && Jammed(s.db, id, s.clock) && !DeletedBy(s.db, id, a)
    requires a.Save? || a.Delete? || a.DiscardDraft? || a.CommitUpload?
    ensures Unmoved(s.db, Effect(env, s, s.clock, a).db, id)
  {
    hide DbOk, Jammed, Unmoved, Enabled, Effect, DeletedBy;
    JammedKind(s.db, id, s.clock);
    match a
    case Save(user, op, payload) => SaveStepUnmoved(env, s, user, op, payload, id);
    case Delete(user, expected) => DeleteStepUnmoved(env, s, user, expected, id);
    case DiscardDraft(user, other) => DiscardStepUnmoved(env, s, user, other, id);
    case CommitUpload(user, ref) => UploadStepUnmoved(env, s, user, ref, id);
  }

  lemma OthersUnmoved(env: Env, s: Sys, a: Action, id: TaskId)
    requires Enabled(env, s, s.clock, a) && !s.queueMode && id in s.db.tasks
    requires !(a.ClaimNext? || a.FinishExtraction? || a.FinishEmbedding? || a.FailJob? || a.CleanUp?)
    requires !(a.Save? || a.Delete? || a.DiscardDraft? || a.CommitUpload?)
    ensures Unmoved(s.db, Effect(env, s, s.clock, a).db, id)
  {
    hide Replay;
  }

  /** In local mode nothing but its owner's deletion moves such a task. */
  lemma JammedStays(env: Env, s: Sys, step: Step, s': Sys, id: TaskId)
    requires SysOk(env, s) && Next(env, s, step, s') && !s.queueMode && Jammed(s.db, id, s.clock)
    requires !DeletedBy(s.db, id, step.action)
    ensures Unmoved(s.db, s'.db, id) && Jammed(s'.db, id, s'.clock)
  {
    var at, a := s.(clock := step.now), step.action;
    DeploymentTheorems.ClockUntouched(env, at, step.now, a);
    Aged(env, s, step.now, id);
    hide SysOk, DbOk, Effect, Enabled, Jammed, Unmoved, DeletedBy;
    if a.ClaimNext? || a.FinishExtraction? || a.FinishEmbedding? || a.FailJob? || a.CleanUp? {
      WorkUnmoved(env, at, a, id);
    } else if a.Save? || a.Delete? || a.DiscardDraft? || a.CommitUpload? {
      TablesUnmoved(env, at, a, id);
    } else {
      OthersUnmoved(env, at, a, id);
    }
    StillJammed(s.db, s'.db, id, step.now);
  }

  lemma Aged(env: Env, s: Sys, now: Time, id: TaskId)
    requires SysOk(env, s) && s.clock <= now && Jammed(s.db, id, s.clock)
    ensures id in s.db.tasks && DbOk(s.db, now) && Jammed(s.db, id, now)
  {
    ClockForward(s.db, s.clock, now);
    hide DbOk;
  }

  lemma StillJammed(db: Db, db': Db, id: TaskId, now: Time)
    requires Jammed(db, id, now) && Unmoved(db, db', id)
    ensures Jammed(db', id, now)
  {
  }

  // ---- runs

  /** The order of the local queue. */
  predicate Younger(t: Task, id: TaskId, other: Task, otherId: TaskId) {
    t.created < other.created || (t.created == other.created && id < otherId)
  }

  /** While such a task is there, no younger embedding is ever the one that run_one's query returns. */
  lemma JammedBlocksTheYounger(db: Db, id: TaskId, other: TaskId, now: Time)
    requires DbOk(db, now) && Jammed(db, id, now) && OldestDue(db, other, Embedding, now)
    ensures other in db.tasks && !Younger(db.tasks[id], id, db.tasks[other], other)
  {
    RowAt(db, id, now);
    hide DbOk;
    assert DueForKind(db, id, Embedding, now);
  }

  /** Local mode: once the last attempt of an embedding is lost, no younger embedding of any user starts until its owner
    * deletes the resume. */
  lemma {:induction false} QueueStopsUntilDeleted(env: Env, states: seq<Sys>, steps: seq<Step>, i: nat, j: nat, id: TaskId)
    requires RunFromStart(env, states, steps) && i <= j < |steps| && !states[i].queueMode
    requires Jammed(states[i].db, id, states[i].clock)
    requires forall k | i <= k < j :: !DeletedBy(states[i].db, id, steps[k].action)
    ensures !states[j].queueMode && Jammed(states[j].db, id, states[j].clock) && Unmoved(states[i].db, states[j].db, id)
    ensures steps[j].action.ClaimNext? && steps[j].action.kind == Embedding ==>
              var other := steps[j].action.id;
              other in states[j].db.tasks && !Younger(states[i].db.tasks[id], id, states[j].db.tasks[other], other)
    decreases j - i
  {
    hide RunFromStart, Next, SysOk, Jammed, Unmoved, DeletedBy, OldestDue, Younger;
    StepOf(env, states, steps, j);
    if i == j {
      UnmovedSelf(states[i].db, id, states[i].clock);
    } else {
      QueueStopsUntilDeleted(env, states, steps, i, j - 1, id);
      StepOf(env, states, steps, j - 1);
      SameOwner(states[i].db, states[j - 1].db, id, steps[j - 1].action);
      JammedStays(env, states[j - 1], steps[j - 1], states[j], id);
      ModeKept(env, states[j - 1], steps[j - 1], states[j]);
      UnmovedTransitive(states[i].db, states[j - 1].db, states[j].db, id);
    }
    if steps[j].action.ClaimNext? && steps[j].action.kind == Embedding {
      ClaimedInOrder(env, states[j], steps[j], states[j + 1], id);
      SameAge(states[i].db, states[j].db, id, states[j].db.tasks[steps[j].action.id], steps[j].action.id);
    }
  }

  lemma StepOf(env: Env, states: seq<Sys>, steps: seq<Step>, n: nat)
    requires RunFromStart(env, states, steps) && n < |steps|
    ensures |states| == |steps| + 1 && SysOk(env, states[n]) && Next(env, states[n], steps[n], states[n + 1])
  {
    DeploymentTheorems.RunSafe(env, states, steps, n);
    hide SysOk, Next;
  }

  lemma ModeKept(env: Env, s: Sys, step: Step, s': Sys)
    requires Next(env, s, step, s')
    ensures s'.queueMode == s.queueMode
  {
    DeploymentTheorems.ClockUntouched(env, s.(clock := step.now), step.now, step.action);
    hide Effect, Enabled;
  }

  lemma ClaimedInOrder(env: Env, s: Sys, step: Step, s': Sys, id: TaskId)
    requires SysOk(env, s) && Next(env, s, step, s') && Jammed(s.db, id, s.clock)
    requires step.action.ClaimNext? && step.action.kind == Embedding
    ensures id in s.db.tasks && step.action.id in s.db.tasks
    ensures !Younger(s.db.tasks[id], id, s.db.tasks[step.action.id], step.action.id)
  {
    hide SysOk, Effect, Jammed, OldestDue, Younger;
    Aged(env, s, step.now, id);
    JammedBlocksTheYounger(s.db, id, step.action.id, step.now);
  }

  lemma UnmovedSelf(db: Db, id: TaskId, now: Time)
    requires Jammed(db, id, now)
    ensures Unmoved(db, db, id)
  {
  }

  lemma UnmovedTransitive(a: Db, b: Db, c: Db, id: TaskId)
    requires Unmoved(a, b, id) && Unmoved(b, c, id)
    ensures Unmoved(a, c, id)
  {
  }

  lemma SameOwner(db: Db, db': Db, id: TaskId, a: Action)
    requires Unmoved(db, db', id)
    ensures DeletedBy(db, id, a) <==> DeletedBy(db', id, a)
  {
  }

  lemma SameAge(db: Db, db': Db, id: TaskId, other: Task, otherId: TaskId)
    requires Unmoved(db, db', id)
    ensures id in db.tasks && id in db'.tasks
    ensures Younger(db.tasks[id], id, other, otherId) <==> Younger(db'.tasks[id], id, other, otherId)
  {
  }

  // ---- such a task exists

  /** One embedding task of user 0, published, that can be claimed at `now` after `attempts` claims. */
  predicate Alone(s: Sys, now: Time, attempts: nat) {
    && !s.queueMode && s.clock <= now && s.db.tasks.Keys == {0} && Published(s.db, 0)
    && var t := s.db.tasks[0];
       && t.kind == Embedding && t.attempts == attempts && t.maxAttempts == MAX_ATTEMPTS && t.available <= now
       && (t.state == Pending || (t.state == Processing && t.leaseEnd.Some? && t.leaseEnd.value <= now))
  }

  lemma ClaimAlone(env: Env, s: Sys, now: Time, attempts: nat) returns (s': Sys)
    requires Reachable(env, s) && Alone(s, now, attempts) && attempts < MAX_ATTEMPTS
    ensures Reachable(env, s') && Alone(s', now + LEASE_FOR, attempts + 1) && s'.db.tasks[0].state == Processing
  {
    hide Reachable;
    var at := s.(clock := now);
    assert OldestDue(at.db, 0, Embedding, now);
    s' := AfterLocalClaim(at, 0, now);
    ReachNext(env, s, Step(now, ClaimNext(0, Embedding)), s');
  }

  lemma SavedAlone(env: Env) returns (s: Sys)
    ensures Reachable(env, s) && !s.queueMode && s.clock == 0 && s.db.tasks.Keys == {0}
    ensures s.db.tasks[0] == NewTask(0, Embedding, SaveKey(0), 1, None, MAX_ATTEMPTS, 0) && s.db.events == map[0 := NewEvent(0)]
    ensures s.publications == {} && s.db.next == 1
  {
    ReachInit(env, false);
    hide Reachable;
    var s0, payload := Init(false, 0), Payload(0, "", None, 0);
    var s1 := s0.(db := s0.db.(users := map[0 := 0]));
    assert s0.db.users[0 := 0] == map[0 := 0];
    ReachNext(env, s0, Step(0, CreateUser(0)), s1);
    s := s1.(db := SaveMain(s1.db, 0, 0, payload, 0).db);
    ReachNext(env, s1, Step(0, Save(0, 0, payload)), s);
  }

  lemma PublishedAlone(env: Env) returns (s: Sys)
    ensures Reachable(env, s) && Alone(s, 0, 0)
  {
    var s1 := SavedAlone(env);
    hide Reachable;
    var s2 := AfterClaimPublication(s1, 0, 0);
    ReachNext(env, s1, Step(0, ClaimPublication(0, 0)), s2);
    var p := Publication(Delivery(0, 1), None);
    assert p in s2.publications;
    s := s2.(db := Ack(s2.db, 0, 1, 0).db);
    ReachNext(env, s2, Step(0, Acknowledge(p)), s);
  }

  /** Three workers that crash with an embedding leave the local queue in this state. */
  lemma JammedIsReachable(env: Env)
    ensures exists s :: Reachable(env, s) && !s.queueMode && Jammed(s.db, 0, s.clock)
  {
    var s0 := PublishedAlone(env);
    var s1 := ClaimAlone(env, s0, 0, 0);
    var s2 := ClaimAlone(env, s1, LEASE_FOR, 1);
    var s3 := ClaimAlone(env, s2, 2 * LEASE_FOR, 2);
    hide Reachable;
    var s4 := s3.(clock := 3 * LEASE_FOR, db := s3.db.(next := s3.db.next + 1),
                  objects := s3.objects[s3.db.next := 3 * LEASE_FOR], staged := s3.staged[s3.db.next := 3 * LEASE_FOR]);
    ReachNext(env, s3, Step(3 * LEASE_FOR, StoreUpload), s4);
    assert Jammed(s4.db, 0, s4.clock);
  }
}
