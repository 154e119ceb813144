/** A task completes at most once: the completion history of a run has no repetition. */
module CompletionSafety {
  import opened Wrappers
  import opened Rows
  import opened Tasks
  import opened Worker
  import opened RowInvariant
  import opened Transactions
  import opened Deployment
  import opened Invariants
  import opened TableSafety

  lemma CompletionsLater(s: Sys, s': Sys)
    requires CompletionsOk(s) && Later(s.db, s'.db) && s'.completions == s.completions
    ensures CompletionsOk(s')
  {
    forall i | 0 <= i < |s'.completions|
      ensures s'.completions[i].0 in s'.db.tasks
      ensures s'.db.tasks[s'.completions[i].0].state == Succeeded || s'.db.tasks[s'.completions[i].0].state == Cancelled
    {
      var id := s.completions[i].0;
      assert TaskLater(s.db.tasks[id], s'.db.tasks[id], s.db.next);
    }
  }

  lemma NewCompletion(s: Sys, s': Sys, id: TaskId, token: Token)
    requires CompletionsOk(s) && Later(s.db, s'.db) && s'.completions == s.completions + [(id, token)]
    requires id in s.db.tasks && s.db.tasks[id].state == Processing && id in s'.db.tasks && s'.db.tasks[id].state == Succeeded
    ensures CompletionsOk(s')
  {
    hide Later;
    CompletionsLater(s, s'.(completions := s.completions));
    assert forall i | 0 <= i < |s.completions| :: s.completions[i].0 != id;
  }

  lemma CompleteStarts(db: Db, id: TaskId, owner: UserId, revision: nat, token: Token, now: Time)
    requires Complete(db, id, owner, revision, token, now).ok
    ensures id in db.tasks && db.tasks[id].state == Processing && db.tasks[id].token == Some(token)
    ensures owner in db.users && db.users[owner] == revision == db.tasks[id].revision && db.tasks[id].owner == owner
    ensures db.tasks[id].leaseEnd.Some? && now < db.tasks[id].leaseEnd.value
    ensures var db' := Complete(db, id, owner, revision, token, now).db;
            db' == db.(tasks := db.tasks[id := SucceededTask(db.tasks[id])])
  {
  }

  lemma FinishExtractionCompletes(env: Env, s: Sys, c: Claim, draft: Draft, now: Time)
    requires DbOk(s.db, now) && CompletionsOk(s)
    requires Later(s.db, AfterFinishExtraction(env, s, c, draft, now).db)
    ensures CompletionsOk(AfterFinishExtraction(env, s, c, draft, now))
  {
    var s' := AfterFinishExtraction(env, s, c, draft, now);
    hide DbOk, Later, Complete, CompletionsOk;
    if Complete(s.db, c.task, c.owner, c.revision, c.token, now).ok {
      CompleteStarts(s.db, c.task, c.owner, c.revision, c.token, now);
      NewCompletion(s, s', c.task, c.token);
    } else {
      CompletionsLater(s, s');
    }
  }

  lemma FinishEmbeddingCompletes(env: Env, s: Sys, job: Job, version: Version, now: Time)
    requires DbOk(s.db, now) && CompletionsOk(s) && job.content.Some?
    requires Later(s.db, AfterFinishEmbedding(env, s, job, version, now).db)
    ensures CompletionsOk(AfterFinishEmbedding(env, s, job, version, now))
  {
    var s', c := AfterFinishEmbedding(env, s, job, version, now), job.claim;
    hide DbOk, Later, Complete, CompletionsOk, ChunkRows, WithoutRevision;
    if Complete(s.db, c.task, c.owner, c.revision, c.token, now).ok {
      CompleteStarts(s.db, c.task, c.owner, c.revision, c.token, now);
      NewCompletion(s, s', c.task, c.token);
    } else {
      CompletionsLater(s, s');
    }
  }

  lemma CompletionsFrame(env: Env, s: Sys, now: Time, a: Action)
    requires Enabled(env, s, now, a) && !a.FinishExtraction? && !a.FinishEmbedding?
    ensures Effect(env, s, now, a).completions == s.completions
  {
  }

  lemma StepKeepsCompletions(env: Env, s: Sys, now: Time, a: Action)
    requires SysOk(env, s) && s.clock <= now && Enabled(env, s, now, a)
    ensures CompletionsOk(Effect(env, s, now, a))
  {
    hide DbOk, Later, StorageOk, QueueOk, ProfilesOk, CompletionsOk, ReadsOk, JobsOk, AfterFinishExtraction, AfterFinishEmbedding;
    ClockForward(s.db, s.clock, now);
    StepKeepsTables(env, s, now, a);
    if a.FinishExtraction? {
      FinishExtractionCompletes(env, s, a.job.claim, a.draft, now);
    } else if a.FinishEmbedding? {
      FinishEmbeddingCompletes(env, s, a.job, a.version, now);
    } else {
      CompletionsFrame(env, s, now, a);
      CompletionsLater(s, Effect(env, s, now, a));
    }
  }
}
