/** Every step of the save protocol keeps its invariant. */
module SaveSafety {
  import opened Wrappers
  import opened Rows
  import opened Tasks
  import opened Outbox
  import opened Resume
  import opened Worker
  import opened RowInvariant
  import opened Transactions
  import opened Deployment
  import opened Invariants
  import opened TableSafety
  import DeploymentTheorems
  import C = SaveController
  import opened SaveProtocol

  // ---- what a step of the deployment does to the operations

  /** A row that a step adds is settled, and a succeeded one is the step's commit, at the revision the request named. */
  predicate NewRowOk(db: Db, db': Db, k: (UserId, OpId), new_: seq<Commit>)
    requires k in db'.ops
  {
    var row := db'.ops[k];
    && OpOk(row)
    && (row.state == OpSucceeded ==>
          && k.0 in db.users && k.0 in db'.users && row.payload.expected == db.users[k.0]
          && row.result == Some(db'.users[k.0])
          && new_ == [Commit(k.0, k.1, db'.users[k.0], db'.users[k.0] != db.users[k.0])])
  }

  predicate OpsStep(db: Db, db': Db, new_: seq<Commit>) {
    && (forall k | k in db'.ops && k !in db.ops :: NewRowOk(db, db', k, new_))
    && (new_ == [] || (|new_| == 1 && (new_[0].user, new_[0].op) !in db.ops && (new_[0].user, new_[0].op) in db'.ops
                       && db'.ops[(new_[0].user, new_[0].op)].state == OpSucceeded))
  }

  lemma SameOpsStep(db: Db, db': Db)
    requires db'.ops == db.ops
    ensures OpsStep(db, db', [])
  {
  }

  lemma EnqueueOps(db: Db, owner: UserId, kind: Kind, key: TaskKey, revision: nat, payload: Option<Ref>, maxAttempts: nat, now: Time)
    ensures var r := Enqueue(db, owner, kind, key, revision, payload, maxAttempts, now);
            r.Some? ==> r.value.ops == db.ops && r.value.users == db.users
  {
  }

  lemma CaseOps(db: Db, user: UserId, op: OpId, payload: Payload, now: Time)
    requires user in db.users
    ensures var c, r := CaseOf(db, user, op, payload, now), CaseDb(db, user, op, payload, now);
            && (c == NoWrite ==> r == db)
            && (c != NoWrite ==>
                  var revision := if c == Changed then db.users[user] + 1 else db.users[user];
                  && r.users == (if c == Changed then db.users[user := revision] else db.users)
                  && r.ops == db.ops[(user, op) := Operation(payload, OpSucceeded, Some(revision), None, now + SAVE_RETENTION)])
  {
    var key := if CaseOf(db, user, op, payload, now) == Changed then SaveKey(op) else RetryKey(op);
    EnqueueOps(db, user, Embedding, key, db.users[user], None, MAX_ATTEMPTS, now);
    EnqueueOps(Republish(db, user, payload), user, Embedding, key, db.users[user] + 1, None, MAX_ATTEMPTS, now);
    hide Enqueue, ReviewedDraft, Changes, FailedEmbedding;
  }

  lemma SaveOps(db: Db, user: UserId, op: OpId, payload: Payload, now: Time)
    requires user in db.users
    ensures var r := SaveMain(db, user, op, payload, now);
            && OpsStep(db, r.db, NewCommit(db, r.db, user, op)) && OneRevisionMore(db, r.db)
            && (NewCommit(db, r.db, user, op) != [] ==>
                  && payload.expected == db.users[user] && r.reply.Saved?
                  && r.db.ops[(user, op)].payload == payload)
  {
    SaveMainCases(db, user, op, payload, now);
    CaseOps(db, user, op, payload, now);
    hide SaveMain, CaseOf, CaseDb;
  }

  lemma ReviewOps(db: Db, user: UserId, op: OpId, payload: Payload, now: Time)
    ensures OpsStep(db, SaveReview(db, user, op, payload, now).db, []) && OneRevisionMore(db, SaveReview(db, user, op, payload, now).db)
  {
    hide Replay;
  }

  predicate SameOps(db: Db, db': Db) {
    db'.ops == db.ops && db'.users == db.users
  }

  /** Accounts start at revision 0, and no step skips a revision. */
  predicate OneRevisionMore(db: Db, db': Db) {
    forall u | u in db'.users :: if u in db.users then db'.users[u] <= db.users[u] + 1 else db'.users[u] == 0
  }

  lemma AccountOps(env: Env, s: Sys, now: Time, a: Action)
    requires Enabled(env, s, now, a) && AccountAction(a) && !a.Save? && !a.StoreReview?
    ensures Effect(env, s, now, a).db.ops == s.db.ops && OneRevisionMore(s.db, Effect(env, s, now, a).db)
  {
    hide CancelAll, OwnedWorkIds, TempRefs;
    if a.CommitUpload? {
      EnqueueOps(s.db, a.user, Extraction, Upload(a.ref), s.db.users[a.user], Some(a.ref), MAX_ATTEMPTS, now);
      hide Enqueue;
    } else if a.Delete? {
      CancelAllOps(s.db, OwnedWorkIds(s.db, a.user));
    }
  }

  lemma CancelAllOps(db: Db, ids: set<TaskId>)
    ensures SameOps(db, CancelAll(db, ids))
  {
  }

  lemma CleanedOps(db: Db, ttl: nat, asOf: Time)
    ensures SameOps(db, Cleaned(db, ttl, asOf))
  {
  }

  lemma LifecycleOps(db: Db, c: Worker.Claim, code: FailureCode, retryable: bool, now: Time)
    ensures SameOps(db, Tasks.Claim(db, c.task, c.owner, LEASE_FOR, None, now).db)
    ensures SameOps(db, Complete(db, c.task, c.owner, c.revision, c.token, now).db)
    ensures SameOps(db, Fail(db, c.task, c.owner, c.token, code, retryable, RETRY_DELAY, None, now).db)
  {
    hide Claimable, AttemptLimit, BadLimit, HoldsLease;
  }

  lemma ClaimOps(db: Db, id: TaskId, kind: Kind, now: Time)
    ensures id in db.tasks ==> SameOps(db, ClaimLocal(db, id, now).db)
    ensures SameOps(db, ClaimPublished(db, id, kind, LEASE_FOR, now).db)
  {
    hide Tasks.Claim, Published;
    if id in db.tasks {
      LifecycleOps(db, Worker.Claim(id, db.tasks[id].owner, db.tasks[id].kind, 0, 0, None), StaleRevision, false, now);
    }
  }

  lemma ClaimStepOps(env: Env, s: Sys, now: Time, a: Action)
    requires Enabled(env, s, now, a) && (a.ClaimNext? || a.Receive?)
    ensures SameOps(s.db, Effect(env, s, now, a).db)
  {
    hide ClaimLocal, ClaimPublished, Disposed, ClaimOf, WindowMessage;
    ClaimOps(s.db, if a.ClaimNext? then a.id else s.messages[a.message], a.kind, now);
  }

  lemma FinishExtractionOps(env: Env, s: Sys, c: Worker.Claim, draft: Draft, now: Time)
    ensures SameOps(s.db, AfterFinishExtraction(env, s, c, draft, now).db)
  {
    LifecycleOps(s.db, c, StaleRevision, false, now);
    hide Complete, Doom, WithCompletion;
  }

  lemma FinishEmbeddingOps(env: Env, s: Sys, job: Job, version: Version, now: Time)
    requires job.content.Some?
    ensures SameOps(s.db, AfterFinishEmbedding(env, s, job, version, now).db)
  {
    LifecycleOps(s.db, job.claim, StaleRevision, false, now);
    hide Complete, WithCompletion, WithoutRevision, ChunkRows;
  }

  lemma FailOps(s: Sys, c: Worker.Claim, code: FailureCode, retryable: bool, now: Time)
    ensures SameOps(s.db, AfterFail(s, c, code, retryable, now).db)
  {
    LifecycleOps(s.db, c, code, retryable, now);
    hide Fail, Doom;
  }

  lemma CleanUpOps(env: Env, s: Sys, asOf: Time)
    ensures SameOps(s.db, AfterCleanUp(env, s, asOf).db)
  {
    hide Cleaned, StaleRefs, LiveRefs;
    CleanedOps(s.db, env.ttl, asOf);
  }

  lemma WorkerOps(env: Env, s: Sys, now: Time, a: Action)
    requires Enabled(env, s, now, a) && WorkerAction(a)
    ensures SameOps(s.db, Effect(env, s, now, a).db)
  {
    hide AfterFinishExtraction, AfterFinishEmbedding, AfterFail, AfterCleanUp, AfterLocalClaim, AfterReceive, OldestDue;
    match a
    case ClaimNext(_, _) => ClaimStepOps(env, s, now, a);
    case Receive(_, _) => ClaimStepOps(env, s, now, a);
    case FinishExtraction(job, draft) => FinishExtractionOps(env, s, job.claim, draft, now);
    case FinishEmbedding(job, version) => FinishEmbeddingOps(env, s, job, version, now);
    case FailJob(job, code, retryable) => FailOps(s, job.claim, code, retryable, now);
    case CleanUp(asOf) => CleanUpOps(env, s, asOf);
  }

  lemma PublisherOps(env: Env, s: Sys, now: Time, a: Action)
    requires Enabled(env, s, now, a) && PublisherAction(a)
    ensures SameOps(s.db, Effect(env, s, now, a).db)
  {
    hide HoldsEvent, DueEvent;
  }

  lemma OtherOps(env: Env, s: Sys, now: Time, a: Action)
    requires Enabled(env, s, now, a) && !a.Save? && !a.StoreReview?
    ensures Effect(env, s, now, a).db.ops == s.db.ops && OneRevisionMore(s.db, Effect(env, s, now, a).db)
  {
    hide Enabled, Effect;
    if AccountAction(a) { AccountOps(env, s, now, a); }
    else if PublisherAction(a) { PublisherOps(env, s, now, a); }
    else if WorkerAction(a) { WorkerOps(env, s, now, a); }
    else { OtherStepKeepsTables(env, s, now, a); }
  }

  lemma SaveEffect(env: Env, s: Sys, now: Time, a: Action)
    requires Enabled(env, s, now, a) && (a.Save? || a.StoreReview?)
    ensures a.user in s.db.users
    ensures Effect(env, s, now, a).db == if a.Save? then SaveMain(s.db, a.user, a.op, a.payload, now).db
                                         else SaveReview(s.db, a.user, a.op, a.payload, now).db
  {
  }

  /** The commits that `AfterStep` records. */
  function StepCommits(env: Env, s: Sys, step: Step): seq<Commit>
    requires CanRun(env, s, step)
  {
    if step.action.Save? then NewCommit(s.db, Run(env, s, step).db, step.action.user, step.action.op) else []
  }

  /** A step of the deployment keeps its invariant, moves the tables forward and settles operations. */
  lemma RunKeeps(env: Env, s: Sys, step: Step)
    requires SysOk(env, s) && CanRun(env, s, step)
    ensures var s' := Run(env, s, step);
            SysOk(env, s') && Later(s.db, s'.db) && OpsStep(s.db, s'.db, StepCommits(env, s, step))
            && OneRevisionMore(s.db, s'.db)
  {
    var at, s' := s.(clock := step.now), Run(env, s, step);
    assert Next(env, s, step, s');
    hide SysOk, Later, Next, Effect, Enabled, OpsStep, NewCommit, SaveMain, SaveReview, OneRevisionMore;
    DeploymentTheorems.StepKeeps(env, s, step, s');
    if step.action.Save? {
      SaveEffect(env, at, step.now, step.action);
      SaveOps(s.db, step.action.user, step.action.op, step.action.payload, step.now);
    } else if step.action.StoreReview? {
      SaveEffect(env, at, step.now, step.action);
      ReviewOps(s.db, step.action.user, step.action.op, step.action.payload, step.now);
    } else {
      OtherOps(env, at, step.now, step.action);
      SameOpsStep(s.db, s'.db);
    }
  }

  // ---- the invariants of the history

  lemma OpsKept(db: Db, db': Db, new_: seq<Commit>)
    requires OpsOk(db) && Later(db, db') && OpsStep(db, db', new_)
    ensures OpsOk(db')
  {
    hide TaskLater;
  }

  lemma CommitStays(db: Db, db': Db, c: Commit)
    requires CommitOk(db, c) && Later(db, db')
    ensures CommitOk(db', c)
  {
    hide TaskLater;
    assert (c.user, c.op) in db'.ops;
  }

  lemma CommittedStays(commits: seq<Commit>, new_: seq<Commit>, user: UserId, op: OpId)
    requires Committed(commits, user, op)
    ensures Committed(commits + new_, user, op)
  {
    var i :| 0 <= i < |commits| && Names(commits[i], user, op);
    assert (commits + new_)[i] == commits[i];
  }

  lemma CommitsKept(db: Db, db': Db, commits: seq<Commit>, new_: seq<Commit>)
    requires CommitsOk(db, commits) && Later(db, db') && OpsStep(db, db', new_)
    ensures CommitsOk(db', commits + new_)
  {
    var all := commits + new_;
    hide TaskLater, CommitOk;
    forall i | 0 <= i < |all| ensures CommitOk(db', all[i]) {
      if i < |commits| { CommitStays(db, db', commits[i]); } else { NewCommitFacts(db, db', new_); }
    }
    forall i, j | 0 <= i < j < |all|
      ensures !Names(all[j], all[i].user, all[i].op)
      ensures all[j].user == all[i].user && all[j].changed ==> all[i].revision < all[j].revision
    {
      if j == |commits| {
        assert all[i] == commits[i] && all[j] == new_[0];
        NewCommitFacts(db, db', new_);
        CommitBounded(db, commits[i]);
      } else {
        assert all[i] == commits[i] && all[j] == commits[j];
      }
    }
    forall k | k in db'.ops && db'.ops[k].state == OpSucceeded ensures Committed(all, k.0, k.1) {
      if k in db.ops {
        assert Committed(commits, k.0, k.1);
        CommittedStays(commits, new_, k.0, k.1);
      } else {
        assert NewRowOk(db, db', k, new_);
        assert all[|commits|] == new_[0] && Names(new_[0], k.0, k.1);
      }
    }
  }

  lemma CommitBounded(db: Db, c: Commit)
    requires CommitOk(db, c)
    ensures (c.user, c.op) in db.ops && c.user in db.users && c.revision <= db.users[c.user]
  {
  }

  lemma NewCommitFacts(db: Db, db': Db, new_: seq<Commit>)
    requires Later(db, db') && OpsStep(db, db', new_) && new_ != []
    ensures CommitOk(db', new_[0]) && |new_| == 1 && (new_[0].user, new_[0].op) !in db.ops
    ensures new_[0].user in db.users && new_[0].changed ==> db.users[new_[0].user] < new_[0].revision
  {
    hide TaskLater;
    assert NewRowOk(db, db', (new_[0].user, new_[0].op), new_);
  }

  lemma AnswerStays(db: Db, db': Db, puts: seq<Put>, puts': seq<Put>, new_: seq<Commit>, put: PutId, r: Reply)
    requires AnswerOk(db, puts, put, r) && Later(db, db') && OpsStep(db, db', new_) && puts <= puts'
    ensures AnswerOk(db', puts', put, r)
  {
    hide TaskLater;
    assert puts'[put] == puts[put];
    var k := (puts[put].user, puts[put].key);
    if k in db'.ops && k !in db.ops { assert NewRowOk(db, db', k, new_); }
  }

  lemma AnswersKept(db: Db, db': Db, puts: seq<Put>, puts': seq<Put>, new_: seq<Commit>, answers: set<(PutId, Reply)>)
    requires AnswersOk(db, puts, answers) && Later(db, db') && OpsStep(db, db', new_) && puts <= puts'
    ensures AnswersOk(db', puts', answers)
  {
    hide AnswerOk, Later, OpsStep;
    forall a | a in answers ensures AnswerOk(db', puts', a.0, a.1) {
      AnswerStays(db, db', puts, puts', new_, a.0, a.1);
    }
  }

  lemma SavedForStays(db: Db, db': Db, sent: Put, revision: nat)
    requires SavedFor(db, sent, revision) && Later(db, db')
    ensures SavedFor(db', sent, revision)
  {
    hide TaskLater;
  }

  lemma HadStays(db: Db, db': Db, user: UserId, revision: nat)
    requires HasHad(db, user, revision) && Later(db, db')
    ensures HasHad(db', user, revision)
  {
    hide TaskLater;
  }

  lemma ReportStays(db: Db, db': Db, r: Report)
    requires ReportOk(db, r) && Later(db, db')
    ensures ReportOk(db', r)
  {
    hide TaskLater, SavedFor, Later, HasHad;
    match r.status
    case SavedStatus(revision, _, refreshed) =>
      SavedForStays(db, db', r.sent, revision);
      if refreshed.Some? && refreshed.value.Some? { HadStays(db, db', r.sent.user, refreshed.value.value); }
    case SavedRefreshRequired =>
      var revision :| SavedFor(db, r.sent, revision);
      SavedForStays(db, db', r.sent, revision);
    case ReviewStatus => ReviewStays(db, db', r.sent);
    case ConflictStatus(current) => HadStays(db, db', r.sent.user, current.value);
    case _ =>
  }

  lemma ReviewStays(db: Db, db': Db, sent: Put)
    requires ReviewStoredFor(db, sent) && Later(db, db')
    ensures ReviewStoredFor(db', sent)
  {
    hide TaskLater;
  }

  lemma ReportsKept(db: Db, db': Db, reports: seq<Report>)
    requires ReportsOk(db, reports) && Later(db, db')
    ensures ReportsOk(db', reports)
  {
    hide ReportOk, Later;
    forall i | 0 <= i < |reports| ensures ReportOk(db', reports[i]) { ReportStays(db, db', reports[i]); }
  }

  // ---- answers of the handler

  lemma ReplayAnswer(db: Db, puts: seq<Put>, put: PutId, version: Version, now: Time)
    requires OpsOk(db) && put < |puts|
    requires (puts[put].user, puts[put].key) in db.ops
    ensures var row := db.ops[(puts[put].user, puts[put].key)];
            var payload := PayloadOf(puts[put].request, version);
            && (ReviewStored(row, payload) ==> AnswerOk(db, puts, put, ReviewRequired))
            && AnswerOk(db, puts, put, Replay(row, payload, now))
  {
    assert OpOk(db.ops[(puts[put].user, puts[put].key)]);
  }

  lemma ConflictAnswer(db: Db, puts: seq<Put>, put: PutId)
    requires put < |puts| && puts[put].user in db.users && (puts[put].user, puts[put].key) !in db.ops
    ensures AnswerOk(db, puts, put, RevisionConflict(Some(db.users[puts[put].user])))
  {
  }

  lemma CheckAnswer(db: Db, puts: seq<Put>, put: PutId, version: Version, now: Time)
    requires OpsOk(db) && put < |puts| && puts[put].user in db.users
    ensures var r := Precheck(db, puts[put].user, puts[put].key, PayloadOf(puts[put].request, version), now);
            r.Some? ==> AnswerOk(db, puts, put, r.value)
  {
    hide OpsOk, AnswerOk, Replay, ReviewStored, PayloadOf;
    if (puts[put].user, puts[put].key) in db.ops {
      ReplayAnswer(db, puts, put, version, now);
    } else {
      ConflictAnswer(db, puts, put);
    }
  }

  lemma ReviewAnswer(db: Db, puts: seq<Put>, put: PutId, version: Version, now: Time)
    requires OpsOk(db) && put < |puts|
    ensures var p := puts[put];
            var r := SaveReview(db, p.user, p.key, PayloadOf(p.request, version), now);
            AnswerOk(r.db, puts, put, r.reply)
  {
    var p := puts[put];
    if (p.user, p.key) in db.ops {
      ReplayAnswer(db, puts, put, version, now);
      assert OpOk(db.ops[(p.user, p.key)]);
    }
  }

  lemma MainAnswer(db: Db, puts: seq<Put>, put: PutId, version: Version, now: Time)
    requires OpsOk(db) && put < |puts| && puts[put].user in db.users
    ensures var p := puts[put];
            var r := SaveMain(db, p.user, p.key, PayloadOf(p.request, version), now);
            AnswerOk(r.db, puts, put, r.reply)
  {
    var p := puts[put];
    var payload := PayloadOf(p.request, version);
    SaveMainCases(db, p.user, p.key, payload, now);
    CaseOps(db, p.user, p.key, payload, now);
    SavedReply(db, p.user, p.key, payload, now);
    if CaseOf(db, p.user, p.key, payload, now) == NoWrite {
      NoWriteReply(db, p.user, p.key, payload, now);
      hide AnswerOk, SaveMain, CaseOf, CaseDb, OpsOk, Replay;
      if (p.user, p.key) in db.ops { ReplayAnswer(db, puts, put, version, now); }
      else { ConflictAnswer(db, puts, put); PlainAnswers(db, puts, put); }
    } else {
      hide SaveMain, CaseOf, CaseDb, OpsOk;
    }
  }

  lemma PlainAnswers(db: Db, puts: seq<Put>, put: PutId)
    requires put < |puts|
    ensures AnswerOk(db, puts, put, DraftGone) && AnswerOk(db, puts, put, InternalError)
    ensures AnswerOk(db, puts, put, ServiceUnavailable)
  {
  }

  lemma SavedReply(db: Db, user: UserId, op: OpId, payload: Payload, now: Time)
    requires user in db.users
    ensures var c := CaseOf(db, user, op, payload, now);
            c != NoWrite ==> SaveMain(db, user, op, payload, now).reply
                               == Saved(if c == Changed then db.users[user] + 1 else db.users[user], c == Changed)
  {
    hide Enqueue, Replay, ReviewedDraft, Changes, Republish, Succeed, FailedEmbedding;
  }

  lemma NoWriteReply(db: Db, user: UserId, op: OpId, payload: Payload, now: Time)
    requires user in db.users && CaseOf(db, user, op, payload, now) == NoWrite
    ensures var r := SaveMain(db, user, op, payload, now).reply;
            if (user, op) in db.ops then
              r == if ReviewStored(db.ops[(user, op)], payload) then ReviewRequired else Replay(db.ops[(user, op)], payload, now)
            else r == RevisionConflict(Some(db.users[user])) || r == DraftGone || r == InternalError
  {
    hide Enqueue, Replay, ReviewedDraft, Changes, Republish, Succeed, FailedEmbedding, ReviewStored;
  }
}
