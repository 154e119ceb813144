/** The resume transactions of src/backend/app/api/resume.py as functions on the tables. */
module Resume {
  import opened Wrappers
  import opened Rows
  import opened Tasks

  const SAVE_RETENTION: Time := 24 * 60 * 60
  const MAX_ATTEMPTS: nat := 3

  /** What a save request is answered; InternalError is the status-500 family, whose outcome a client cannot know. */
  datatype Reply =
    | Saved(revision: nat, changed: bool)
    | IdempotencyConflict
    | OperationExpired
    | SaveInProgress
    | ReviewRequired
    | RevisionConflict(current: Option<nat>)
    | DraftGone
    | ServiceUnavailable
    | OtherRefusal
    | InternalError

  datatype SaveResult = SaveResult(db: Db, reply: Reply)

  /** _replay_or_raise */
  function Replay(op: Operation, payload: Payload, now: Time): Reply {
    if op.payload != payload then IdempotencyConflict
    else if op.expires <= now then OperationExpired
    else if op.state == OpProcessing then SaveInProgress
    else if op.state == OpFailed then
      (match op.failure
       case Some(ReviewFailure) => ReviewRequired
       case Some(ConflictFailure) => RevisionConflict(None)
       case _ => OtherRefusal)
    else if op.result.Some? then Saved(op.result.value, false)
    else InternalError
  }

  predicate ReviewStored(op: Operation, payload: Payload) {
    op.state == OpFailed && op.failure == Some(ReviewFailure) && op.payload == payload
  }

  /** The read-only part of save_resume before the privacy check: None lets the request go on. */
  function Precheck(db: Db, user: UserId, op: OpId, payload: Payload, now: Time): Option<Reply>
    requires user in db.users
  {
    if (user, op) in db.ops then
      var row := db.ops[(user, op)];
      if ReviewStored(row, payload) && row.expires > now then Some(ReviewRequired)
      else Some(Replay(row, payload, now))
    else if db.users[user] != payload.expected then Some(RevisionConflict(Some(db.users[user])))
    else None
  }

  /** The branch in which the privacy check changed the content. */
  function SaveReview(db: Db, user: UserId, op: OpId, payload: Payload, now: Time): SaveResult {
    if (user, op) in db.ops then
      var row := db.ops[(user, op)];
      SaveResult(db,
        if row.payload != payload then IdempotencyConflict
        else if row.state == OpFailed && row.failure == Some(ReviewFailure) then ReviewRequired
        else Replay(row, payload, now))
    else
      var row := Operation(payload, OpFailed, None, Some(ReviewFailure), now + SAVE_RETENTION);
      SaveResult(db.(ops := db.ops[(user, op) := row]), ReviewRequired)
  }

  /** The reviewed extraction a save may name. */
  predicate ReviewedDraft(db: Db, user: UserId, payload: Payload, now: Time) {
    payload.extraction.None?
    || (var id := payload.extraction.value;
        && id in db.tasks && db.tasks[id].owner == user && db.tasks[id].kind == Extraction
        && db.tasks[id].state == Succeeded && db.tasks[id].revision == payload.expected
        && db.tasks[id].expires.Some? && db.tasks[id].expires.value > now)
  }

  predicate Changes(db: Db, user: UserId, payload: Payload) {
    user !in db.profiles || db.profiles[user].content != payload.content
    || db.profiles[user].version != payload.version
  }

  predicate FailedEmbedding(t: Task, user: UserId, revision: nat) {
    t.owner == user && t.kind == Embedding && t.revision == revision && t.state == Failed
  }

  /** The writes of the changed branch, before its task is enqueued. */
  function Republish(db: Db, user: UserId, payload: Payload): Db
    requires user in db.users
  {
    var revision := db.users[user] + 1;
    db.(chunks := db.chunks - {user},
        profiles := db.profiles[user := Profile(revision, payload.content, payload.version)],
        users := db.users[user := revision])
  }

  function Succeed(db: Db, user: UserId, op: OpId, payload: Payload, revision: nat, now: Time): Db {
    db.(ops := db.ops[(user, op) := Operation(payload, OpSucceeded, Some(revision), None, now + SAVE_RETENTION)])
  }

  /** The main transaction of save_resume, under the user's row lock. */
  function SaveMain(db: Db, user: UserId, op: OpId, payload: Payload, now: Time): SaveResult
    requires user in db.users
  {
    var revision := db.users[user];
    if (user, op) in db.ops then
      var row := db.ops[(user, op)];
      SaveResult(db, if ReviewStored(row, payload) then ReviewRequired else Replay(row, payload, now))
    else if revision != payload.expected then SaveResult(db, RevisionConflict(Some(revision)))
    else if !ReviewedDraft(db, user, payload, now) then SaveResult(db, DraftGone)
    else if Changes(db, user, payload) then
      match Enqueue(Republish(db, user, payload), user, Embedding, SaveKey(op), revision + 1, None, MAX_ATTEMPTS, now)
      case None => SaveResult(db, InternalError)
      case Some(queued) =>
        SaveResult(Succeed(queued, user, op, payload, revision + 1, now), Saved(revision + 1, true))
    else if exists id | id in db.tasks.Keys :: FailedEmbedding(db.tasks[id], user, revision) then
      match Enqueue(db, user, Embedding, RetryKey(op), revision, None, MAX_ATTEMPTS, now)
      case None => SaveResult(db, InternalError)
      case Some(queued) => SaveResult(Succeed(queued, user, op, payload, revision, now), Saved(revision, false))
    else SaveResult(Succeed(db, user, op, payload, revision, now), Saved(revision, false))
  }

  /** The references delete_resume reads before it cancels. */
  function TempRefs(db: Db, user: UserId): set<Ref> {
    set id | id in db.tasks.Keys && db.tasks[id].owner == user && db.tasks[id].kind == Extraction
             && db.tasks[id].payload.Some? :: db.tasks[id].payload.value
  }

  datatype DeleteResult = DeleteResult(db: Db, revision: Option<nat>, refs: set<Ref>)

  /** delete_resume: revision None is the conflict answer. */
  function DeleteResume(db: Db, user: UserId, expected: nat): DeleteResult
    requires user in db.users
  {
    if db.users[user] != expected then DeleteResult(db, None, {})
    else
      var (cancelled, count) := CancelOwner(db, user);
      var bump := user in db.profiles || count > 0;
      var revision := if bump then db.users[user] + 1 else db.users[user];
      DeleteResult(cancelled.(users := db.users[user := revision], profiles := db.profiles - {user},
                              chunks := db.chunks - {user}),
                   Some(revision), TempRefs(db, user))
  }

  datatype DiscardResult = DiscardResult(db: Db, found: bool, ref: Option<Ref>)

  /** discard_extraction_task */
  function Discard(db: Db, user: UserId, id: TaskId): DiscardResult {
    if id in db.tasks && db.tasks[id].owner == user && db.tasks[id].kind == Extraction then
      DiscardResult(CancelEvent(db.(tasks := db.tasks[id := CancelledTask(db.tasks[id])]), id), true,
                    db.tasks[id].payload)
    else DiscardResult(db, false, None)
  }

  /** The transaction of prepare_resume. */
  function Prepare(db: Db, user: UserId, ref: Ref, now: Time): Option<Db>
    requires user in db.users
  {
    Enqueue(db, user, Extraction, Upload(ref), db.users[user], Some(ref), MAX_ATTEMPTS, now)
  }
}
