/** The transactions of src/backend/app/processing/local_worker.py as functions on the tables. */
module Worker {
  import opened Wrappers
  import opened Rows
  import opened Tasks

  const LEASE_FOR: nat := 15 * 60
  const OUTBOX_LEASE: nat := 60
  const RETRY_DELAY: nat := 5

  /** What a worker carries out of its claim transaction. */
  datatype Claim = Claim(task: TaskId, owner: UserId, kind: Kind, revision: nat, token: Token, payload: Option<Ref>)

  /** A transaction together with the object it decides to delete once committed. */
  datatype WorkResult = WorkResult(db: Db, delete: Option<Ref>)

  function ClaimOf(db: Db, id: TaskId, token: Token): Claim
    requires id in db.tasks
  {
    var t := db.tasks[id];
    Claim(id, t.owner, t.kind, t.revision, token, t.payload)
  }

  /** run_one: a claim that yields nothing is rolled back. */
  function ClaimLocal(db: Db, id: TaskId, now: Time): ClaimResult
    requires id in db.tasks
  {
    var r := Tasks.Claim(db, id, db.tasks[id].owner, LEASE_FOR, None, now);
    if r.token.None? then ClaimResult(db, None) else r
  }

  /** _approved_content */
  function ApprovedContent(db: Db, owner: UserId, revision: nat): Option<Content> {
    if owner in db.profiles && db.profiles[owner].revision == revision then Some(db.profiles[owner].content) else None
  }

  /** _complete_extraction */
  function CompleteExtraction(db: Db, c: Claim, draft: Draft, ttl: nat, now: Time): WorkResult {
    var r := Complete(db, c.task, c.owner, c.revision, c.token, now);
    if !r.ok then
      if c.task in r.db.tasks && r.db.tasks[c.task].state == Cancelled then WorkResult(r.db, c.payload)
      else WorkResult(db, None)
    else
      WorkResult(r.db.(tasks := r.db.tasks[c.task :=
                   r.db.tasks[c.task].(result := Some(draft), expires := Some(now + ttl), payload := None)]),
                 c.payload)
  }

  /** The rows of one embedding result. */
  function ChunkRows(revision: nat, version: Version, bodies: seq<ChunkBody>): (rows: seq<Chunk>)
    ensures |rows| == |bodies|
  {
    seq(|bodies|, i requires 0 <= i < |bodies| => Chunk(revision, version, bodies[i]))
  }

  /** DELETE FROM resume_chunks WHERE profile_revision = revision, for one user. */
  function WithoutRevision(rows: seq<Chunk>, revision: nat): seq<Chunk> {
    if rows == [] then []
    else (if rows[0].revision == revision then [] else [rows[0]]) + WithoutRevision(rows[1..], revision)
  }

  function ChunksOf(db: Db, user: UserId): seq<Chunk> {
    if user in db.chunks then db.chunks[user] else []
  }

  /** _complete_embedding */
  function CompleteEmbedding(db: Db, c: Claim, version: Version, bodies: seq<ChunkBody>, now: Time): Db {
    var r := Complete(db, c.task, c.owner, c.revision, c.token, now);
    if !r.ok then
      if c.task in r.db.tasks && r.db.tasks[c.task].state == Cancelled then r.db else db
    else
      r.db.(chunks := r.db.chunks[c.owner :=
              WithoutRevision(ChunksOf(r.db, c.owner), c.revision) + ChunkRows(c.revision, version, bodies)])
  }

  /** _fail */
  function FailClaim(db: Db, c: Claim, code: FailureCode, retryable: bool, now: Time): WorkResult {
    var owned := c.task in db.tasks && db.tasks[c.task].owner == c.owner
                 && db.tasks[c.task].state == Processing && db.tasks[c.task].token == Some(c.token);
    var r := Fail(db, c.task, c.owner, c.token, code, retryable, RETRY_DELAY, None, now);
    if owned && c.task in r.db.tasks && (r.db.tasks[c.task].state == Failed || r.db.tasks[c.task].state == Cancelled) then
      WorkResult(r.db.(tasks := r.db.tasks[c.task :=
                   r.db.tasks[c.task].(payload := None, result := None, expires := None)]),
                 r.db.tasks[c.task].payload)
    else WorkResult(r.db, None)
  }

  /** What run_queue_message decides about a message whose task it could not claim. */
  datatype Disposition = Terminal | Invalid | DurableRetry | Leased | NotReady

  function Disposed(db: Db, id: TaskId, kind: Kind): Disposition {
    if id !in db.tasks || !Live(db.tasks[id]) then Terminal
    else if db.tasks[id].kind != kind then Invalid
    else if id !in db.events || db.events[id].state == EventPending || db.events[id].state == EventCancelled
            || db.tasks[id].state == RetryWait then DurableRetry
    else if db.tasks[id].state == Processing && db.tasks[id].leaseEnd.Some? then Leased
    else NotReady
  }

  predicate DeletesMessage(d: Disposition) {
    d == Terminal || d == DurableRetry
  }

  /** The check after processing a claimed message. */
  predicate SettledAfterWork(db: Db, id: TaskId) {
    id !in db.tasks || !Live(db.tasks[id])
    || (db.tasks[id].state == RetryWait && id in db.events && db.events[id].state == EventPending)
  }

  /** The rows cleanup() expires. */
  predicate Expired(t: Task, asOf: Time) {
    t.expires.Some? && t.expires.value <= asOf && t.result.Some?
  }

  predicate Stale(t: Task, ttl: nat, asOf: Time) {
    && t.kind == Extraction && Live(t) && t.created <= asOf - ttl
    && (t.state != Processing || (t.leaseEnd.Some? && t.leaseEnd.value <= asOf))
  }

  function ForgottenResult(t: Task): Task {
    t.(result := None, expires := None)
  }

  function ExpiredTask(t: Task): Task {
    t.(state := Failed, failure := Some(TaskExpired), payload := None, result := None, expires := None,
       token := None, leaseEnd := None)
  }

  function CleanedTask(t: Task, ttl: nat, asOf: Time): Task {
    if Stale(t, ttl, asOf) then ExpiredTask(t) else if Expired(t, asOf) then ForgottenResult(t) else t
  }

  function StaleIds(db: Db, ttl: nat, asOf: Time): set<TaskId> {
    set id | id in db.tasks.Keys && Stale(db.tasks[id], ttl, asOf)
  }

  /** The database part of cleanup(). */
  function Cleaned(db: Db, ttl: nat, asOf: Time): Db {
    db.(tasks := map id | id in db.tasks.Keys :: CleanedTask(db.tasks[id], ttl, asOf),
        events := map id | id in db.events.Keys ::
          if id in StaleIds(db, ttl, asOf) then CancelledEvent(db.events[id]) else db.events[id])
  }

  function StaleRefs(db: Db, ttl: nat, asOf: Time): set<Ref> {
    set id | id in db.tasks.Keys && Stale(db.tasks[id], ttl, asOf) && db.tasks[id].payload.Some? ::
      db.tasks[id].payload.value
  }

  /** live_refs */
  function LiveRefs(db: Db): set<Ref> {
    set id | id in db.tasks.Keys && Live(db.tasks[id]) && db.tasks[id].payload.Some? :: db.tasks[id].payload.value
  }
}
