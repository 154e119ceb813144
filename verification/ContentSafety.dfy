/** Stored chunks always belong to the current revision and embed exactly the current content. */
module ContentSafety {
  import opened Wrappers
  import opened Rows
  import opened Tasks
  import opened Resume
  import opened Worker
  import opened RowInvariant
  import opened Transactions
  import opened Quiet
  import opened Deployment
  import opened Invariants
  import opened TableSafety
  import opened CompletionSafety
  import QueueSafety

  predicate SameContent(db: Db, db': Db) {
    db'.users == db.users && db'.profiles == db.profiles && db'.chunks == db.chunks
  }

  /** No embedding task is new and none has succeeded since. */
  predicate NoNewSuccess(db: Db, db': Db) {
    forall id | id in db'.tasks && db'.tasks[id].kind == Embedding ::
      && id in db.tasks && db.tasks[id].kind == Embedding
      && db'.tasks[id].owner == db.tasks[id].owner && db'.tasks[id].revision == db.tasks[id].revision
      && (db'.tasks[id].state == Succeeded ==> db.tasks[id].state == Succeeded)
  }

  lemma EmbeddedFrame(env: Env, db: Db, db': Db, user: UserId)
    requires Embedded(env, db, user) && user in db'.profiles && db'.profiles[user] == db.profiles[user]
    requires ChunksOf(db', user) == ChunksOf(db, user)
    ensures Embedded(env, db', user)
  {
  }

  lemma ProfilesLater(env: Env, db: Db, db': Db)
    requires ProfilesOk(env, db) && SameContent(db, db') && NoNewSuccess(db, db')
    ensures ProfilesOk(env, db')
  {
    hide Embedded;
    forall u | Embedded(env, db, u) && u in db.profiles ensures Embedded(env, db', u) { EmbeddedFrame(env, db, db', u); }
    forall id | id in db'.tasks && db'.tasks[id].kind == Embedding && db'.tasks[id].owner in db'.users
                && db'.tasks[id].revision == db'.users[db'.tasks[id].owner]
      ensures db'.tasks[id].owner in db'.profiles
      ensures db'.tasks[id].state == Succeeded ==> Embedded(env, db', db'.tasks[id].owner)
    {
      EmbeddedHasProfile(env, db, db.tasks[id].owner);
    }
    forall u | u in db'.chunks && db'.chunks[u] != [] ensures Embedded(env, db', u) {
      EmbeddedHasProfile(env, db, u);
    }
  }

  lemma EmbeddedHasProfile(env: Env, db: Db, user: UserId)
    ensures Embedded(env, db, user) ==> user in db.profiles
  {
  }

  lemma ReadsLater(s: Sys, s': Sys)
    requires ReadsOk(s) && SameContent(s.db, s'.db) && s'.jobs == s.jobs
    ensures ReadsOk(s')
  {
    forall job | job in s'.jobs ensures ReadOk(s'.db, job) { assert ReadOk(s.db, job); }
  }

  // ---- the embedding that succeeds

  /** The unique position index cannot be violated: the delete by revision leaves no row of the user. */
  lemma DeleteEmptiesRows(rows: seq<Chunk>, revision: nat)
    requires forall i | 0 <= i < |rows| :: rows[i].revision == revision
    ensures WithoutRevision(rows, revision) == []
  {
  }

  lemma NothingLeft(env: Env, db: Db, user: UserId)
    requires ProfilesOk(env, db) && user in db.users
    ensures WithoutRevision(ChunksOf(db, user), db.users[user]) == []
  {
    if ChunksOf(db, user) != [] {
      assert Embedded(env, db, user);
      DeleteEmptiesRows(ChunksOf(db, user), db.users[user]);
    }
  }

  /** The tables after a successful embedding. */
  lemma EmbeddingShape(db: Db, c: Claim, version: Version, bodies: seq<ChunkBody>, now: Time)
    requires Complete(db, c.task, c.owner, c.revision, c.token, now).ok
    ensures var db' := CompleteEmbedding(db, c, version, bodies, now);
            && db'.users == db.users && db'.profiles == db.profiles
            && c.task in db.tasks && db'.tasks == db.tasks[c.task := SucceededTask(db.tasks[c.task])]
            && db'.chunks == db.chunks[c.owner :=
                 WithoutRevision(ChunksOf(db, c.owner), c.revision) + ChunkRows(c.revision, version, bodies)]
  {
    CompleteStarts(db, c.task, c.owner, c.revision, c.token, now);
    hide Complete;
  }

  lemma EmbeddingPublishes(env: Env, s: Sys, job: Job, version: Version)
    requires ProfilesOk(env, s.db) && ReadsOk(s) && JobsOk(s) && job in s.jobs
    requires job.content.Some? && job.claim.kind == Embedding
    requires Complete(s.db, job.claim.task, job.claim.owner, job.claim.revision, job.claim.token, s.clock).ok
    ensures ProfilesOk(env, CompleteEmbedding(s.db, job.claim, version, env.embed(version, job.content.value), s.clock))
  {
    var c := job.claim;
    var bodies := env.embed(version, job.content.value);
    var db' := CompleteEmbedding(s.db, c, version, bodies, s.clock);
    assert ClaimOk(s.db, c) && ReadOk(s.db, job);
    CompleteStarts(s.db, c.task, c.owner, c.revision, c.token, s.clock);
    EmbeddingShape(s.db, c, version, bodies, s.clock);
    NothingLeft(env, s.db, c.owner);
    hide Complete, CompleteEmbedding, ReadsOk, JobsOk, WithoutRevision;
    assert s.db.tasks[c.task].kind == Embedding;
    assert ChunksOf(db', c.owner) == ChunkRows(db'.profiles[c.owner].revision, version, env.embed(version, db'.profiles[c.owner].content));
    assert Embedded(env, db', c.owner);
    PublishedProfiles(env, s.db, db', c.task, c.owner);
  }

  lemma PublishedProfiles(env: Env, db: Db, db': Db, id: TaskId, owner: UserId)
    requires ProfilesOk(env, db) && Embedded(env, db', owner)
    requires db'.users == db.users && db'.profiles == db.profiles
    requires id in db.tasks && db.tasks[id].owner == owner && db'.tasks == db.tasks[id := SucceededTask(db.tasks[id])]
    requires owner in db'.chunks && db'.chunks == db.chunks[owner := db'.chunks[owner]]
    ensures ProfilesOk(env, db')
  {
    forall u | u != owner && u in db.profiles && Embedded(env, db, u) ensures Embedded(env, db', u) {
      EmbeddedFrame(env, db, db', u);
    }
    assert Embedded(env, db', owner);
    hide Embedded;
    forall x | x in db'.tasks && db'.tasks[x].kind == Embedding && db'.tasks[x].owner in db'.users
               && db'.tasks[x].revision == db'.users[db'.tasks[x].owner]
      ensures db'.tasks[x].owner in db'.profiles
      ensures db'.tasks[x].state == Succeeded ==> Embedded(env, db', db'.tasks[x].owner)
    {
      EmbeddedHasProfile(env, db, db.tasks[x].owner);
    }
    forall u | u in db'.chunks && db'.chunks[u] != [] ensures Embedded(env, db', u) {
      EmbeddedHasProfile(env, db, u);
    }
  }

  // ---- saving

  /** A transaction that moves one user to a new revision, or leaves that user's profile as it is. */
  predicate UserMoved(db: Db, db': Db, user: UserId) {
    && user in db.users && user in db'.users && db'.users == db.users[user := db'.users[user]]
    && db'.profiles - {user} == db.profiles - {user} && db'.chunks - {user} == db.chunks - {user}
    && (db'.users[user] == db.users[user] ==> SameProfile(db, db', user))
    && (user in db'.profiles ==> db'.profiles[user].revision == db'.users[user])
    && (db'.users[user] != db.users[user] ==> db'.users[user] == db.users[user] + 1 && user !in db'.chunks)
  }

  predicate SameProfile(db: Db, db': Db, user: UserId) {
    && (user in db'.profiles <==> user in db.profiles)
    && (user in db.profiles ==> db'.profiles[user] == db.profiles[user])
    && ChunksOf(db', user) == ChunksOf(db, user)
  }

  /** New embedding tasks belong to the moved user's present profile; no task has newly succeeded. */
  predicate MovedTasks(db: Db, db': Db, user: UserId) {
    forall id | id in db'.tasks && db'.tasks[id].kind == Embedding ::
      if id in db.tasks then
        && db.tasks[id].kind == Embedding && db'.tasks[id].owner == db.tasks[id].owner
        && db'.tasks[id].revision == db.tasks[id].revision
        && (db'.tasks[id].state == Succeeded ==> db.tasks[id].state == Succeeded)
      else db'.tasks[id].owner == user && db'.tasks[id].state == Pending && user in db'.profiles
  }

  predicate RevisionsReached(db: Db) {
    forall id | id in db.tasks :: db.tasks[id].owner in db.users && db.tasks[id].revision <= db.users[db.tasks[id].owner]
  }

  lemma ProfilesMoved(env: Env, db: Db, db': Db, user: UserId)
    requires ProfilesOk(env, db) && UserMoved(db, db', user) && MovedTasks(db, db', user) && RevisionsReached(db)
    ensures ProfilesOk(env, db')
  {
    forall u | u in db.profiles && u in db'.profiles && Embedded(env, db, u) && (u != user || db'.users[user] == db.users[user])
      ensures Embedded(env, db', u)
    {
      OtherUser(db, db', user, u);
      EmbeddedFrame(env, db, db', u);
    }
    hide Embedded;
    forall id | id in db'.tasks && db'.tasks[id].kind == Embedding && db'.tasks[id].owner in db'.users
                && db'.tasks[id].revision == db'.users[db'.tasks[id].owner]
      ensures db'.tasks[id].owner in db'.profiles
      ensures db'.tasks[id].state == Succeeded ==> Embedded(env, db', db'.tasks[id].owner)
    {
      var u := db'.tasks[id].owner;
      if id in db.tasks {
        assert db.tasks[id].revision <= db.users[u];
        OtherUser(db, db', user, u);
        EmbeddedHasProfile(env, db, u);
      }
    }
    forall u | u in db'.profiles ensures u in db'.users && db'.profiles[u].revision == db'.users[u] {
      if u != user { OtherUser(db, db', user, u); }
    }
    forall u | u in db'.chunks && db'.chunks[u] != [] ensures Embedded(env, db', u) {
      OtherUser(db, db', user, u);
      EmbeddedHasProfile(env, db, u);
    }
  }

  lemma OtherUser(db: Db, db': Db, user: UserId, u: UserId)
    requires UserMoved(db, db', user) && (u != user || db'.users[user] == db.users[user])
    ensures SameProfile(db, db', u)
  {
    if u != user {
      assert u in db'.profiles - {user} <==> u in db.profiles - {user};
      assert u in db'.chunks - {user} <==> u in db.chunks - {user};
      if u in db.profiles { assert (db'.profiles - {user})[u] == (db.profiles - {user})[u]; }
      if u in db.chunks { assert (db'.chunks - {user})[u] == (db.chunks - {user})[u]; }
    }
  }

  lemma ReadsMoved(s: Sys, s': Sys, user: UserId)
    requires ReadsOk(s) && JobsOk(s) && RevisionsReached(s.db) && UserMoved(s.db, s'.db, user) && s'.jobs == s.jobs
    ensures ReadsOk(s')
  {
    forall job | job in s'.jobs ensures ReadOk(s'.db, job) {
      assert ReadOk(s.db, job) && ClaimOk(s.db, job.claim);
      var u := job.claim.owner;
      if u != user || s'.db.users[user] == s.db.users[user] { OtherUser(s.db, s'.db, user, u); }
    }
  }

  lemma SaveMoves(env: Env, db: Db, user: UserId, op: OpId, payload: Payload, now: Time)
    requires DbOk(db, now) && ProfilesOk(env, db) && user in db.users
    ensures UserMoved(db, SaveMain(db, user, op, payload, now).db, user)
    ensures MovedTasks(db, SaveMain(db, user, op, payload, now).db, user)
  {
    hide SaveMain, DbOk, Embedded, ReviewedDraft;
    SaveMainCases(db, user, op, payload, now);
    IdsBelow(db, now);
    var c := CaseOf(db, user, op, payload, now);
    if c == Changed {
      ChangedMoves(db, user, op, payload, now);
    } else if c == Requeued {
      RequeuedMoves(env, db, user, op, payload, now);
    }
  }

  lemma ChangedMoves(db: Db, user: UserId, op: OpId, payload: Payload, now: Time)
    requires user in db.users && (forall id | id in db.tasks :: id < db.next)
    requires Enqueue(Republish(db, user, payload), user, Embedding, SaveKey(op), db.users[user] + 1, None, MAX_ATTEMPTS, now).Some?
    ensures var db' := Succeed(Enqueue(Republish(db, user, payload), user, Embedding, SaveKey(op), db.users[user] + 1, None,
                                       MAX_ATTEMPTS, now).value, user, op, payload, db.users[user] + 1, now);
            UserMoved(db, db', user) && MovedTasks(db, db', user)
  {
    var r := Republish(db, user, payload);
    assert r.profiles - {user} == db.profiles - {user} && r.chunks - {user} == db.chunks - {user};
  }

  lemma RequeuedMoves(env: Env, db: Db, user: UserId, op: OpId, payload: Payload, now: Time)
    requires user in db.users && user in db.profiles && ProfilesOk(env, db) && (forall id | id in db.tasks :: id < db.next)
    requires Enqueue(db, user, Embedding, RetryKey(op), db.users[user], None, MAX_ATTEMPTS, now).Some?
    ensures var db' := Succeed(Enqueue(db, user, Embedding, RetryKey(op), db.users[user], None, MAX_ATTEMPTS, now).value,
                               user, op, payload, db.users[user], now);
            UserMoved(db, db', user) && MovedTasks(db, db', user)
  {
    hide Embedded;
  }

  // ---- deleting

  lemma DeleteMoves(env: Env, db: Db, user: UserId, expected: nat)
    requires ProfilesOk(env, db) && user in db.users
    ensures UserMoved(db, DeleteResume(db, user, expected).db, user)
    ensures MovedTasks(db, DeleteResume(db, user, expected).db, user)
  {
    hide Embedded;
    var db' := DeleteResume(db, user, expected).db;
    if db.users[user] == expected {
      assert db'.profiles - {user} == db.profiles - {user} && db'.chunks - {user} == db.chunks - {user};
      if user !in db.profiles { NoProfileNoChunks(env, db, user); }
      CancelledSuccess(db, OwnedWorkIds(db, user));
    }
  }

  lemma CancelledSuccess(db: Db, ids: set<TaskId>)
    ensures forall id | id in CancelAll(db, ids).tasks :: id in db.tasks
              && CancelAll(db, ids).tasks[id].kind == db.tasks[id].kind
              && CancelAll(db, ids).tasks[id].owner == db.tasks[id].owner
              && CancelAll(db, ids).tasks[id].revision == db.tasks[id].revision
              && (CancelAll(db, ids).tasks[id].state == Succeeded ==> db.tasks[id].state == Succeeded)
  {
  }

  lemma NoProfileNoChunks(env: Env, db: Db, user: UserId)
    requires ProfilesOk(env, db) && user !in db.profiles
    ensures ChunksOf(db, user) == []
  {
    assert user in db.chunks && db.chunks[user] != [] ==> Embedded(env, db, user);
  }

  // ---- the step

  predicate MovingAction(a: Action) {
    a.Save? || a.Delete?
  }

  lemma ReachedFromDb(db: Db, now: Time)
    requires DbOk(db, now)
    ensures RevisionsReached(db)
  {
    forall id | id in db.tasks
      ensures db.tasks[id].owner in db.users && db.tasks[id].revision <= db.users[db.tasks[id].owner]
    {
      assert Linked(db, db.tasks[id]);
    }
  }

  lemma MovingActionKeeps(env: Env, s: Sys, a: Action)
    requires DbOk(s.db, s.clock) && JobsOk(s) && ReadsOk(s) && ProfilesOk(env, s.db)
    requires Enabled(env, s, s.clock, a) && MovingAction(a)
    ensures ProfilesOk(env, Effect(env, s, s.clock, a).db) && ReadsOk(Effect(env, s, s.clock, a))
  {
    var s' := Effect(env, s, s.clock, a);
    ReachedFromDb(s.db, s.clock);
    hide DbOk, JobsOk, ReadsOk, ProfilesOk, SaveMain, DeleteResume, UserMoved, MovedTasks, RevisionsReached;
    if a.Save? {
      SaveMoves(env, s.db, a.user, a.op, a.payload, s.clock);
    } else {
      DeleteMoves(env, s.db, a.user, a.expected);
    }
    ProfilesMoved(env, s.db, s'.db, a.user);
    ReadsMoved(s, s', a.user);
  }

  lemma FinishEmbeddingKeeps(env: Env, s: Sys, job: Job, version: Version)
    requires DbOk(s.db, s.clock) && JobsOk(s) && ReadsOk(s) && ProfilesOk(env, s.db)
    requires job in s.jobs && job.content.Some? && job.claim.kind == Embedding
    ensures ProfilesOk(env, AfterFinishEmbedding(env, s, job, version, s.clock).db)
    ensures ReadsOk(AfterFinishEmbedding(env, s, job, version, s.clock))
  {
    var s' := AfterFinishEmbedding(env, s, job, version, s.clock);
    var c := job.claim;
    if Complete(s.db, c.task, c.owner, c.revision, c.token, s.clock).ok {
      EmbeddingShape(s.db, c, version, env.embed(version, job.content.value), s.clock);
      EmbeddingPublishes(env, s, job, version);
      hide DbOk, JobsOk, ProfilesOk, Complete, CompleteEmbedding;
      forall j | j in s'.jobs ensures ReadOk(s'.db, j) { assert ReadOk(s.db, j); }
    } else {
      RejectedEmbedding(s.db, c, version, env.embed(version, job.content.value), s.clock);
      hide DbOk, JobsOk, ReadsOk, ProfilesOk, Complete, CompleteEmbedding;
      ProfilesLater(env, s.db, s'.db);
      ReadsLater(s, s');
    }
  }

  lemma RejectedEmbedding(db: Db, c: Claim, version: Version, bodies: seq<ChunkBody>, now: Time)
    requires !Complete(db, c.task, c.owner, c.revision, c.token, now).ok
    ensures SameContent(db, CompleteEmbedding(db, c, version, bodies, now))
    ensures NoNewSuccess(db, CompleteEmbedding(db, c, version, bodies, now))
  {
  }

  lemma CreateUserContent(env: Env, s: Sys, user: UserId)
    requires DbOk(s.db, s.clock) && ProfilesOk(env, s.db) && user !in s.db.users
    ensures ProfilesOk(env, s.db.(users := s.db.users[user := 0]))
  {
    hide Embedded, DbOk;
    var db' := s.db.(users := s.db.users[user := 0]);
    ReachedFromDb(s.db, s.clock);
    forall u | u in db'.chunks && db'.chunks[u] != [] ensures Embedded(env, db', u) {
      StillEmbedded(env, s.db, db', u);
    }
    forall id | id in db'.tasks && db'.tasks[id].kind == Embedding && db'.tasks[id].owner in db'.users
                && db'.tasks[id].revision == db'.users[db'.tasks[id].owner]
      ensures db'.tasks[id].owner in db'.profiles
      ensures db'.tasks[id].state == Succeeded ==> Embedded(env, db', db'.tasks[id].owner)
    {
      assert s.db.tasks[id].owner in s.db.users;
      if s.db.tasks[id].state == Succeeded { StillEmbedded(env, s.db, db', s.db.tasks[id].owner); }
    }
  }

  lemma StillEmbedded(env: Env, db: Db, db': Db, user: UserId)
    requires Embedded(env, db, user) && db'.profiles == db.profiles && db'.chunks == db.chunks
    ensures Embedded(env, db', user)
  {
    EmbeddedHasProfile(env, db, user);
    EmbeddedFrame(env, db, db', user);
  }

  lemma CreateUserReads(s: Sys, user: UserId)
    requires DbOk(s.db, s.clock) && JobsOk(s) && ReadsOk(s) && user !in s.db.users
    ensures ReadsOk(s.(db := s.db.(users := s.db.users[user := 0])))
  {
    var s' := s.(db := s.db.(users := s.db.users[user := 0]));
    ReachedFromDb(s.db, s.clock);
    hide DbOk;
    forall j | j in s'.jobs ensures ReadOk(s'.db, j) { assert ReadOk(s.db, j) && ClaimOk(s.db, j.claim); }
  }

  lemma ReadContentKeeps(env: Env, s: Sys, job: Job)
    requires ReadsOk(s) && ProfilesOk(env, s.db) && job in s.jobs && job.claim.kind == Embedding
    ensures ReadsOk(s.(jobs := s.jobs + {job.(content := ApprovedContent(s.db, job.claim.owner, job.claim.revision))}))
  {
  }

  /** The jobs a step may add carry no content yet. */
  predicate FreshJobs(s: Sys, s': Sys) {
    forall job | job in s'.jobs :: job in s.jobs || job.content.None?
  }

  lemma ReadsGrow(s: Sys, s': Sys)
    requires ReadsOk(s) && SameContent(s.db, s'.db) && FreshJobs(s, s')
    ensures ReadsOk(s')
  {
    forall job | job in s'.jobs ensures ReadOk(s'.db, job) {
      if job in s.jobs { assert ReadOk(s.db, job); }
    }
  }

  predicate ContentAction(a: Action) {
    MovingAction(a) || a.FinishEmbedding? || a.CreateUser? || a.ReadContent?
  }

  /** The successes a step may add are those of extractions. */
  predicate SuccessKept(db: Db, db': Db) {
    forall id | id in db'.tasks && db'.tasks[id].kind == Embedding ::
      id in db.tasks && (db'.tasks[id].state == Succeeded ==> db.tasks[id].state == Succeeded)
  }

  lemma NoNewSuccessKept(db: Db, db': Db, now: Time)
    requires TablesKept(db, db', now) && SuccessKept(db, db')
    ensures NoNewSuccess(db, db')
  {
    forall id | id in db'.tasks && db'.tasks[id].kind == Embedding
      ensures db.tasks[id].kind == Embedding
      ensures db'.tasks[id].owner == db.tasks[id].owner && db'.tasks[id].revision == db.tasks[id].revision
    {
      assert TaskLater(db.tasks[id], db'.tasks[id], db.next);
    }
  }

  /** At most the task `id` differs, and it has not succeeded unless it is an extraction. */
  predicate OneTask(db: Db, db': Db, id: TaskId) {
    && SameContent(db, db')
    && (db'.tasks == db.tasks
        || (id in db.tasks && id in db'.tasks && db'.tasks == db.tasks[id := db'.tasks[id]]
            && db'.tasks[id].kind == db.tasks[id].kind
            && (db'.tasks[id].state == Succeeded && db.tasks[id].kind == Embedding ==> db.tasks[id].state == Succeeded)))
  }

  lemma OneTaskSuccess(db: Db, db': Db, id: TaskId)
    requires OneTask(db, db', id)
    ensures SuccessKept(db, db')
  {
  }

  lemma ClaimOneTask(db: Db, id: TaskId, owner: UserId, now: Time)
    ensures OneTask(db, Tasks.Claim(db, id, owner, LEASE_FOR, None, now).db, id)
  {
    hide AttemptLimit;
  }

  lemma ClaimSuccess(db: Db, id: TaskId, kind: Kind, now: Time)
    ensures SuccessKept(db, ClaimPublished(db, id, kind, LEASE_FOR, now).db)
    ensures SameContent(db, ClaimPublished(db, id, kind, LEASE_FOR, now).db)
    ensures id in db.tasks ==> SuccessKept(db, ClaimLocal(db, id, now).db) && SameContent(db, ClaimLocal(db, id, now).db)
  {
    OneTaskSuccess(db, db, id);
    if id in db.tasks {
      ClaimOneTask(db, id, db.tasks[id].owner, now);
      OneTaskSuccess(db, Tasks.Claim(db, id, db.tasks[id].owner, LEASE_FOR, None, now).db, id);
    }
    hide Tasks.Claim, SuccessKept;
  }

  lemma FinishExtractionSuccess(db: Db, c: Claim, draft: Draft, ttl: nat, now: Time)
    requires ClaimOk(db, c) && c.kind == Extraction
    ensures SuccessKept(db, CompleteExtraction(db, c, draft, ttl, now).db)
    ensures SameContent(db, CompleteExtraction(db, c, draft, ttl, now).db)
  {
    hide SuccessKept;
    CompleteOneTask(db, c, now);
    var r := Complete(db, c.task, c.owner, c.revision, c.token, now);
    hide Complete, ClaimOk;
    var db' := CompleteExtraction(db, c, draft, ttl, now).db;
    assert OneTask(db, db', c.task);
    OneTaskSuccess(db, db', c.task);
  }

  lemma CompleteOneTask(db: Db, c: Claim, now: Time)
    requires ClaimOk(db, c) && c.kind == Extraction
    ensures OneTask(db, Complete(db, c.task, c.owner, c.revision, c.token, now).db, c.task)
    ensures c.task in Complete(db, c.task, c.owner, c.revision, c.token, now).db.tasks
    ensures db.tasks[c.task].kind == Extraction
  {
  }

  lemma FailSuccess(db: Db, c: Claim, code: FailureCode, retryable: bool, now: Time)
    ensures SuccessKept(db, FailClaim(db, c, code, retryable, now).db)
    ensures SameContent(db, FailClaim(db, c, code, retryable, now).db)
  {
    hide SuccessKept;
    FailOneTask(db, c, code, retryable, now);
    hide Fail;
    var db' := FailClaim(db, c, code, retryable, now).db;
    assert OneTask(db, db', c.task);
    OneTaskSuccess(db, db', c.task);
  }

  lemma FailOneTask(db: Db, c: Claim, code: FailureCode, retryable: bool, now: Time)
    ensures OneTask(db, Fail(db, c.task, c.owner, c.token, code, retryable, RETRY_DELAY, None, now).db, c.task)
    ensures c.task in Fail(db, c.task, c.owner, c.token, code, retryable, RETRY_DELAY, None, now).db.tasks ==> c.task in db.tasks
  {
    hide AttemptLimit;
  }

  predicate ClaimingAction(a: Action) {
    a.Receive? || a.ClaimNext? || a.FinishExtraction? || a.FailJob?
  }

  /** What ProfilesLater and ReadsGrow need of a step. */
  predicate ContentFrame(s: Sys, s': Sys) {
    SuccessKept(s.db, s'.db) && SameContent(s.db, s'.db) && FreshJobs(s, s')
  }

  lemma ReceiveFrame(s: Sys, m: MsgId, kind: Kind)
    requires m in s.messages
    ensures ContentFrame(s, AfterReceive(s, m, kind, s.clock))
  {
    ClaimSuccess(s.db, s.messages[m], kind, s.clock);
    hide ClaimPublished, SuccessKept, SameContent, Disposed;
  }

  lemma ClaimNextFrame(s: Sys, id: TaskId, kind: Kind)
    requires OldestDue(s.db, id, kind, s.clock)
    ensures ContentFrame(s, AfterLocalClaim(s, id, s.clock))
  {
    ClaimSuccess(s.db, id, kind, s.clock);
    hide ClaimLocal, SuccessKept, SameContent;
  }

  lemma ClaimingFrame(env: Env, s: Sys, a: Action)
    requires JobsOk(s) && Enabled(env, s, s.clock, a) && ClaimingAction(a)
    ensures ContentFrame(s, Effect(env, s, s.clock, a))
  {
    if a.FinishExtraction? {
      assert ClaimOk(s.db, a.job.claim);
      FinishExtractionSuccess(s.db, a.job.claim, a.draft, env.ttl, s.clock);
    }
    if a.FailJob? { FailSuccess(s.db, a.job.claim, a.code, a.retryable, s.clock); }
    if a.Receive? { ReceiveFrame(s, a.message, a.kind); }
    if a.ClaimNext? { ClaimNextFrame(s, a.id, a.kind); }
    hide JobsOk, ClaimOk, AfterReceive, AfterLocalClaim, CompleteExtraction, FailClaim, SuccessKept, SameContent,
         WithCompletion, Doom, OldestDue;
  }

  predicate RowAction(a: Action) {
    a.DiscardDraft? || a.CleanUp? || a.CommitUpload?
  }

  lemma DiscardSuccess(db: Db, user: UserId, id: TaskId)
    ensures SuccessKept(db, Discard(db, user, id).db) && SameContent(db, Discard(db, user, id).db)
  {
    OneTaskSuccess(db, Discard(db, user, id).db, id);
  }

  lemma CleanedSuccess(db: Db, ttl: nat, asOf: Time)
    ensures SuccessKept(db, Cleaned(db, ttl, asOf)) && SameContent(db, Cleaned(db, ttl, asOf))
  {
    hide StaleIds;
  }

  lemma PrepareSuccess(db: Db, user: UserId, ref: Ref, now: Time)
    requires user in db.users && (forall id | id in db.tasks :: id < db.next)
    ensures var r := Prepare(db, user, ref, now);
            r.Some? ==> SuccessKept(db, r.value) && SameContent(db, r.value)
  {
  }

  lemma IdsBelow(db: Db, clock: Time)
    requires DbOk(db, clock)
    ensures forall id | id in db.tasks :: id < db.next
  {
    hide RowOk, Linked, UniqueIdentity;
  }

  lemma NoneChanged(db: Db)
    ensures SuccessKept(db, db) && SameContent(db, db)
  {
  }

  lemma RowFrame(env: Env, s: Sys, a: Action)
    requires DbOk(s.db, s.clock) && Enabled(env, s, s.clock, a) && RowAction(a)
    ensures ContentFrame(s, Effect(env, s, s.clock, a))
  {
    hide DbOk, StaleRefs, LiveRefs, Cleaned, Discard, Prepare, SuccessKept, SameContent, Doom;
    IdsBelow(s.db, s.clock);
    NoneChanged(s.db);
    if a.DiscardDraft? {
      DiscardSuccess(s.db, a.user, a.id);
    } else if a.CleanUp? {
      CleanedSuccess(s.db, env.ttl, a.asOf);
    } else if a.CommitUpload? {
      PrepareSuccess(s.db, a.user, a.ref, s.clock);
    }
  }

  lemma OtherFrame(env: Env, s: Sys, a: Action)
    requires Enabled(env, s, s.clock, a) && !ContentAction(a) && !ClaimingAction(a) && !RowAction(a)
    ensures ContentFrame(s, Effect(env, s, s.clock, a))
  {
    OtherShape(env, s, a);
    hide Enabled, Effect;
  }

  predicate SameShape(s: Sys, s': Sys) {
    s'.db.tasks == s.db.tasks && s'.db.users == s.db.users && s'.db.profiles == s.db.profiles && s'.db.chunks == s.db.chunks
    && s'.jobs == s.jobs
  }

  predicate EventAction(a: Action) {
    a.ClaimPublication? || a.CancelPublication? || a.Publish? || a.Acknowledge? || a.RetryPublication?
  }

  lemma OtherShape(env: Env, s: Sys, a: Action)
    requires Enabled(env, s, s.clock, a) && !ContentAction(a) && !ClaimingAction(a) && !RowAction(a)
    ensures SameShape(s, Effect(env, s, s.clock, a))
  {
    hide Enabled, Effect, SameShape;
    if EventAction(a) { EventShape(env, s, a); } else { StoreShape(env, s, a); }
  }

  lemma EventShape(env: Env, s: Sys, a: Action)
    requires Enabled(env, s, s.clock, a) && EventAction(a)
    ensures SameShape(s, Effect(env, s, s.clock, a))
  {
    if a.Publish? { } else { }
  }

  lemma StoreShape(env: Env, s: Sys, a: Action)
    requires Enabled(env, s, s.clock, a) && !ContentAction(a) && !ClaimingAction(a) && !RowAction(a) && !EventAction(a)
    ensures SameShape(s, Effect(env, s, s.clock, a))
  {
    hide Replay, SettledAfterWork;
  }

  lemma StepKeepsContent(env: Env, s: Sys, a: Action)
    requires SysOk(env, s) && Enabled(env, s, s.clock, a)
    ensures ProfilesOk(env, Effect(env, s, s.clock, a).db) && ReadsOk(Effect(env, s, s.clock, a))
  {
    var s' := Effect(env, s, s.clock, a);
    hide StorageOk, DbOk, QueueOk, ProfilesOk, CompletionsOk, ReadsOk, JobsOk, TablesKept,
         ClaimingAction, MovingAction, RowAction, SuccessKept, SameContent, FreshJobs, AfterFinishEmbedding;
    if MovingAction(a) {
      MovingActionKeeps(env, s, a);
    } else if a.FinishEmbedding? {
      FinishEmbeddingKeeps(env, s, a.job, a.version);
    } else if a.CreateUser? {
      CreateUserContent(env, s, a.user);
      CreateUserReads(s, a.user);
    } else if a.ReadContent? {
      ReadContentKeeps(env, s, a.job);
    } else {
      hide Effect, Enabled;
      StepKeepsTables(env, s, s.clock, a);
      if ClaimingAction(a) {
        ClaimingFrame(env, s, a);
      } else if RowAction(a) {
        RowFrame(env, s, a);
      } else {
        OtherFrame(env, s, a);
      }
      NoNewSuccessKept(s.db, s'.db, s.clock);
      ProfilesLater(env, s.db, s'.db);
      ReadsGrow(s, s');
    }
  }
}
