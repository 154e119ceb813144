/** Task lifecycle transactions (src/backend/app/processing/tasks.py) as functions on the tables. */
module Tasks {
  import opened Wrappers
  import opened Rows

  datatype ClaimResult = ClaimResult(db: Db, token: Option<Token>)
  datatype FlagResult = FlagResult(db: Db, ok: bool)

  function Min(a: nat, b: nat): nat { if a <= b then a else b }

  function WithPair(db: Db, id: TaskId, t: Task, e: Event): Db {
    db.(tasks := db.tasks[id := t], events := db.events[id := e])
  }

  function CancelledEvent(e: Event): Event {
    e.(state := EventCancelled, token := None, leaseEnd := None)
  }

  /** _cancel_outbox */
  function CancelEvent(db: Db, id: TaskId): Db {
    if id in db.events then db.(events := db.events[id := CancelledEvent(db.events[id])]) else db
  }

  predicate SameIdentity(t: Task, owner: UserId, kind: Kind, key: TaskKey) {
    t.owner == owner && t.kind == kind && t.key == key
  }

  function NewTask(owner: UserId, kind: Kind, key: TaskKey, revision: nat, payload: Option<Ref>,
                   maxAttempts: nat, now: Time): Task {
    Task(owner, kind, key, revision, payload, None, None, Pending, 0, maxAttempts, now, None, None, None, now)
  }

  function NewEvent(now: Time): Event {
    Event(EventPending, 0, now, None, None, now)
  }

  /** enqueue_task: None is the unique-constraint violation that rolls the caller's transaction back. */
  function Enqueue(db: Db, owner: UserId, kind: Kind, key: TaskKey, revision: nat, payload: Option<Ref>,
                   maxAttempts: nat, now: Time): Option<Db> {
    if exists id | id in db.tasks.Keys :: SameIdentity(db.tasks[id], owner, kind, key) then None
    else Some(WithPair(db.(next := db.next + 1), db.next,
                       NewTask(owner, kind, key, revision, payload, maxAttempts, now), NewEvent(now)))
  }

  /** The guard of claim_task up to its attempt check. */
  predicate Claimable(t: Task, now: Time) {
    && Live(t)
    && !(t.state == Processing && t.leaseEnd.Some? && t.leaseEnd.value > now)
    && t.available <= now
  }

  /** A limit of zero counts as no limit in fail_task; claim_task has refused it before it gets here. */
  function AttemptLimit(t: Task, limit: Option<nat>): nat {
    if limit.Some? && limit.value > 0 then Min(limit.value, t.maxAttempts) else t.maxAttempts
  }

  function ExhaustedTask(t: Task): Task {
    t.(state := Failed, failure := Some(AttemptsExhausted), token := None, leaseEnd := None)
  }

  function ClaimedTask(t: Task, token: Token, leaseEnd: Time): Task {
    t.(attempts := t.attempts + 1, state := Processing, failure := None,
       token := Some(token), leaseEnd := Some(leaseEnd))
  }

  /** The ValueError of claim_task. */
  predicate BadLimit(t: Task, limit: Option<nat>) {
    (if limit.Some? then limit.value else t.maxAttempts) < 1
  }

  /** claim_task */
  function Claim(db: Db, id: TaskId, owner: UserId, leaseFor: nat, limit: Option<nat>, now: Time): ClaimResult {
    if id !in db.tasks || db.tasks[id].owner != owner || !Claimable(db.tasks[id], now)
       || BadLimit(db.tasks[id], limit) then
      ClaimResult(db, None)
    else
      var t := db.tasks[id];
      if t.attempts >= AttemptLimit(t, limit) then
        ClaimResult(CancelEvent(db.(tasks := db.tasks[id := ExhaustedTask(t)]), id), None)
      else
        ClaimResult(db.(next := db.next + 1, tasks := db.tasks[id := ClaimedTask(t, db.next, now + leaseFor)]),
                    Some(db.next))
  }

  predicate Published(db: Db, id: TaskId) {
    id in db.events && db.events[id].state == Sent
  }

  /** claim_published_task */
  function ClaimPublished(db: Db, id: TaskId, kind: Kind, leaseFor: nat, now: Time): ClaimResult {
    if id in db.tasks && db.tasks[id].kind == kind && Published(db, id) then
      Claim(db, id, db.tasks[id].owner, leaseFor, None, now)
    else ClaimResult(db, None)
  }

  /** The candidates of claim_next_task's query. */
  predicate DueForKind(db: Db, id: TaskId, kind: Kind, now: Time) {
    && id in db.tasks && db.tasks[id].kind == kind && Published(db, id) && Live(db.tasks[id])
    && db.tasks[id].available <= now
    && (db.tasks[id].state != Processing
        || (db.tasks[id].leaseEnd.Some? && db.tasks[id].leaseEnd.value <= now))
  }

  /** ORDER BY created_at, task_id LIMIT 1 over those candidates. */
  predicate OldestDue(db: Db, id: TaskId, kind: Kind, now: Time) {
    && DueForKind(db, id, kind, now)
    && forall other | other in db.tasks.Keys && DueForKind(db, other, kind, now) ::
         db.tasks[id].created < db.tasks[other].created
         || (db.tasks[id].created == db.tasks[other].created && id <= other)
  }

  /** The lease fence shared by complete_task and fail_task. */
  predicate HoldsLease(t: Task, token: Token, now: Time) {
    t.state == Processing && t.token == Some(token) && t.leaseEnd.Some? && t.leaseEnd.value > now
  }

  function SucceededTask(t: Task): Task {
    t.(state := Succeeded, failure := None, token := None, leaseEnd := None)
  }

  function StaleTask(t: Task): Task {
    t.(state := Cancelled, failure := Some(StaleRevision), result := None, expires := None,
       token := None, leaseEnd := None)
  }

  /** complete_task */
  function Complete(db: Db, id: TaskId, owner: UserId, revision: nat, token: Token, now: Time): FlagResult {
    if owner !in db.users || id !in db.tasks || db.tasks[id].owner != owner
       || !HoldsLease(db.tasks[id], token, now) || db.tasks[id].revision != revision then
      FlagResult(db, false)
    else if db.users[owner] != revision then
      FlagResult(CancelEvent(db.(tasks := db.tasks[id := StaleTask(db.tasks[id])]), id), false)
    else
      FlagResult(db.(tasks := db.tasks[id := SucceededTask(db.tasks[id])]), true)
  }

  function RetriedTask(t: Task, code: FailureCode, due: Time): Task {
    t.(state := RetryWait, available := due, failure := Some(code), token := None, leaseEnd := None)
  }

  function FailedTask(t: Task, code: FailureCode): Task {
    t.(state := Failed, failure := Some(code), token := None, leaseEnd := None)
  }

  function RequeuedEvent(e: Event, due: Time): Event {
    e.(state := EventPending, available := due, token := None, leaseEnd := None)
  }

  /** fail_task */
  function Fail(db: Db, id: TaskId, owner: UserId, token: Token, code: FailureCode, retryable: bool,
                after: nat, limit: Option<nat>, now: Time): FlagResult {
    if id !in db.tasks || db.tasks[id].owner != owner || !HoldsLease(db.tasks[id], token, now) then
      FlagResult(db, false)
    else
      var t := db.tasks[id];
      if retryable && t.attempts < AttemptLimit(t, limit) then
        FlagResult(db.(tasks := db.tasks[id := RetriedTask(t, code, now + after)],
                       events := if id in db.events then db.events[id := RequeuedEvent(db.events[id], now + after)]
                                 else db.events), true)
      else
        FlagResult(CancelEvent(db.(tasks := db.tasks[id := FailedTask(t, code)]), id), false)
  }

  /** The rows cancel_owner_tasks locks. */
  predicate OwnedWork(t: Task, owner: UserId) {
    t.owner == owner && (Live(t) || (t.kind == Extraction && t.result.Some?))
  }

  function CancelledTask(t: Task): Task {
    t.(state := Cancelled, failure := Some(CancelledByOwner), result := None, expires := None,
       payload := None, token := None, leaseEnd := None)
  }

  function OwnedWorkIds(db: Db, owner: UserId): set<TaskId> {
    set id | id in db.tasks.Keys && OwnedWork(db.tasks[id], owner)
  }

  /** Every task of `ids` cancelled together with its event, everything else kept. */
  function CancelAll(db: Db, ids: set<TaskId>): Db {
    db.(tasks := map id | id in db.tasks.Keys ::
          if id in ids then CancelledTask(db.tasks[id]) else db.tasks[id],
        events := map id | id in db.events.Keys ::
          if id in ids then CancelledEvent(db.events[id]) else db.events[id])
  }

  /** cancel_owner_tasks */
  function CancelOwner(db: Db, owner: UserId): (Db, nat) {
    if owner !in db.users then (db, 0)
    else (CancelAll(db, OwnedWorkIds(db, owner)), |OwnedWorkIds(db, owner)|)
  }
}
