/** What every transaction keeps of the task and outbox tables, and how a row may change over time.
  *
  * `DbOk` contains the check constraints of src/backend/app/db/models.py (the lease fields are set
  * exactly in the leased state, the attempt bounds, one identity per task) and the coupling of a
  * task to its outbox event. `Later` is the order in which the tables evolve.
  */
module RowInvariant {
  import opened Wrappers
  import opened Rows
  import opened Tasks
  import opened Outbox
  import opened Resume
  import opened Worker

  /** The coupling of task and event states. */
  predicate Coupled(t: TaskState, e: EventState) {
    match t
    case Pending => e != EventCancelled
    case RetryWait => e != EventCancelled
    case Processing => e == Sent
    case Succeeded => e == Sent
    case Failed => e == EventCancelled
    case Cancelled => e == EventCancelled
  }

  predicate LeaseFieldsOk(t: Task, e: Event, next: nat) {
    && (t.token.Some? <==> t.state == Processing) && (t.leaseEnd.Some? <==> t.state == Processing)
    && (e.token.Some? <==> e.state == Claimed) && (e.leaseEnd.Some? <==> e.state == Claimed)
    && (t.token.Some? ==> t.token.value < next) && (e.token.Some? ==> e.token.value < next)
  }

  predicate AttemptsOk(t: Task) {
    && 0 < t.maxAttempts && t.attempts <= t.maxAttempts
    && (t.state == Pending || t.state == RetryWait ==> t.attempts < t.maxAttempts)
  }

  /** An event is never due before its waiting task, so a published waiting task is itself due. */
  predicate DueTimesOk(t: Task, e: Event, clock: Time) {
    t.state == Pending || t.state == RetryWait ==>
      && t.available <= e.available
      && (e.state == Claimed || e.state == Sent ==> t.available <= clock)
  }

  predicate PayloadOk(t: Task, next: nat) {
    && (t.kind == Extraction <==> t.key.Upload?)
    && (t.key.Upload? ==> t.key.ref < next)
    && (t.payload.Some? ==> t.key == Upload(t.payload.value))
    && (t.kind == Extraction && Live(t) ==> t.payload.Some?)
  }

  predicate RowOk(t: Task, e: Event, next: nat, clock: Time) {
    Coupled(t.state, e.state) && LeaseFieldsOk(t, e, next) && AttemptsOk(t) && DueTimesOk(t, e, clock)
    && PayloadOk(t, next)
  }

  /** Foreign keys: the owner exists and has reached the task's revision; a saved task has its operation. */
  predicate Linked(db: Db, t: Task) {
    && t.owner in db.users && t.revision <= db.users[t.owner]
    && (t.key.SaveKey? || t.key.RetryKey? ==> (t.owner, t.key.op) in db.ops)
  }

  predicate UniqueIdentity(db: Db) {
    forall a, b | a in db.tasks && b in db.tasks
                  && SameIdentity(db.tasks[a], db.tasks[b].owner, db.tasks[b].kind, db.tasks[b].key) :: a == b
  }

  predicate DbOk(db: Db, clock: Time) {
    && db.tasks.Keys == db.events.Keys
    && (forall id | id in db.tasks :: id < db.next && RowOk(db.tasks[id], db.events[id], db.next, clock)
                                      && Linked(db, db.tasks[id]))
    && UniqueIdentity(db)
  }

  /** Unused attempts, then the processing bit, then the terminal rank. */
  function Measure(t: Task): int {
    if Live(t) then 2 + 2 * (t.maxAttempts - t.attempts) + (if t.state == Processing then 1 else 0)
    else if t.state == Cancelled then 0 else 1
  }

  predicate SameLifecycle(t: Task, t': Task) {
    t.state == t'.state && t.attempts == t'.attempts && t.token == t'.token
  }

  /** How one task row may have changed; `next` is the identifier supply at the earlier time. */
  predicate TaskLater(t: Task, t': Task, next: nat) {
    && t'.owner == t.owner && t'.kind == t.kind && t'.key == t.key && t'.revision == t.revision
    && t'.maxAttempts == t.maxAttempts && t'.created == t.created
    && (t.state == Cancelled ==> t'.state == Cancelled)
    && (t.state == Succeeded ==> t'.state == Succeeded || t'.state == Cancelled)
    && (t.state == Failed ==> t'.state == Failed || t'.state == Cancelled)
    && (t'.payload == t.payload || (t'.payload.None? && !Live(t')))
    && (!Live(t) ==> t'.expires == t.expires || t'.expires.None?)
    && t.attempts <= t'.attempts
    && (t'.token == t.token || t'.token.None? || t'.token.value >= next)
    && (t'.token == t.token && t.token.Some? && t.token.value < next ==> t'.leaseEnd == t.leaseEnd)
    && (if SameLifecycle(t, t') then Measure(t') == Measure(t) else Measure(t') < Measure(t))
  }

  predicate Later(db: Db, db': Db) {
    && db.next <= db'.next
    && (forall u | u in db.users :: u in db'.users && db.users[u] <= db'.users[u])
    && (forall k | k in db.ops :: k in db'.ops && db'.ops[k] == db.ops[k])
    && (forall id | id in db.tasks :: id in db'.tasks && TaskLater(db.tasks[id], db'.tasks[id], db.next))
    && (forall id | id in db'.tasks && id !in db.tasks :: db.next <= id)
  }

  predicate SameKey(t: Task, t': Task) {
    SameIdentity(t', t.owner, t.kind, t.key) && t'.revision == t.revision
  }

  lemma LaterSameKey(t: Task, t': Task, next: nat)
    requires TaskLater(t, t', next)
    ensures SameKey(t, t')
  {
  }

  lemma TaskLaterSelf(t: Task, next: nat)
    ensures TaskLater(t, t, next)
  {
  }

  lemma TaskLaterTransitive(a: Task, b: Task, c: Task, next: nat, next': nat)
    requires TaskLater(a, b, next) && TaskLater(b, c, next') && next <= next'
    ensures TaskLater(a, c, next)
  {
  }

  lemma LaterTransitive(a: Db, b: Db, c: Db)
    requires Later(a, b) && Later(b, c)
    ensures Later(a, c)
  {
    hide TaskLater;
    forall id | id in a.tasks ensures id in c.tasks && TaskLater(a.tasks[id], c.tasks[id], a.next) {
      TaskLaterTransitive(a.tasks[id], b.tasks[id], c.tasks[id], a.next, b.next);
    }
  }

  lemma RowOkGrows(t: Task, e: Event, next: nat, next': nat, clock: Time, now: Time)
    requires RowOk(t, e, next, clock) && next <= next' && clock <= now
    ensures RowOk(t, e, next', now)
  {
  }

  lemma ClockForward(db: Db, clock: Time, now: Time)
    requires DbOk(db, clock) && clock <= now
    ensures DbOk(db, now)
  {
    hide RowOk;
    forall x | x in db.tasks ensures RowOk(db.tasks[x], db.events[x], db.next, now) {
      RowOkGrows(db.tasks[x], db.events[x], db.next, db.next, clock, now);
    }
  }

  /** Identities stay unique while the rows keep their owner, kind and key. */
  lemma KeepsIdentities(db: Db, db': Db)
    requires UniqueIdentity(db) && db'.tasks.Keys == db.tasks.Keys
    requires forall id | id in db.tasks :: SameKey(db.tasks[id], db'.tasks[id])
    ensures UniqueIdentity(db')
  {
    forall a, b | a in db'.tasks && b in db'.tasks
                  && SameIdentity(db'.tasks[a], db'.tasks[b].owner, db'.tasks[b].kind, db'.tasks[b].key)
      ensures a == b
    {
      assert SameKey(db.tasks[a], db'.tasks[a]) && SameKey(db.tasks[b], db'.tasks[b]);
      assert SameIdentity(db.tasks[a], db.tasks[b].owner, db.tasks[b].kind, db.tasks[b].key);
    }
  }

  /** Replacing rows: every row is kept or becomes an allowed later row. */
  lemma ReplaceRows(db: Db, db': Db, now: Time)
    requires DbOk(db, now) && db'.tasks.Keys == db.tasks.Keys && db'.events.Keys == db.events.Keys
    requires db.next <= db'.next && db'.ops == db.ops
    requires forall u | u in db.users :: u in db'.users && db.users[u] <= db'.users[u]
    requires forall id | id in db.tasks :: RowOk(db'.tasks[id], db'.events[id], db'.next, now)
                                           && TaskLater(db.tasks[id], db'.tasks[id], db.next)
    ensures DbOk(db', now) && Later(db, db')
  {
    hide RowOk, TaskLater, UniqueIdentity;
    forall x | x in db'.tasks ensures SameKey(db.tasks[x], db'.tasks[x]) && Linked(db', db'.tasks[x]) {
      LaterSameKey(db.tasks[x], db'.tasks[x], db.next);
      assert Linked(db, db.tasks[x]);
    }
    KeepsIdentities(db, db');
  }

  /** Replacing one task together with its event. */
  lemma ReplacePair(db: Db, id: TaskId, t: Task, e: Event, next: nat, now: Time)
    requires DbOk(db, now) && id in db.tasks && db.next <= next
    requires RowOk(t, e, next, now) && TaskLater(db.tasks[id], t, db.next)
    ensures DbOk(WithPair(db, id, t, e).(next := next), now) && Later(db, WithPair(db, id, t, e).(next := next))
  {
    hide RowOk, TaskLater, UniqueIdentity, Linked;
    var db' := WithPair(db, id, t, e).(next := next);
    forall x | x in db.tasks
      ensures RowOk(db'.tasks[x], db'.events[x], next, now) && TaskLater(db.tasks[x], db'.tasks[x], db.next)
    {
      if x != id {
        RowOkGrows(db.tasks[x], db.events[x], db.next, next, now, now);
        TaskLaterSelf(db.tasks[x], db.next);
      }
    }
    ReplaceRows(db, db', now);
  }

  lemma ReplaceTask(db: Db, id: TaskId, t: Task, next: nat, now: Time)
    requires DbOk(db, now) && id in db.tasks && db.next <= next
    requires RowOk(t, db.events[id], next, now) && TaskLater(db.tasks[id], t, db.next)
    ensures DbOk(db.(tasks := db.tasks[id := t], next := next), now)
    ensures Later(db, db.(tasks := db.tasks[id := t], next := next))
  {
    hide RowOk, TaskLater, UniqueIdentity, Linked;
    ReplacePair(db, id, t, db.events[id], next, now);
    assert db.events[id := db.events[id]] == db.events;
  }

  lemma ReplaceEvent(db: Db, id: TaskId, e: Event, next: nat, now: Time)
    requires DbOk(db, now) && id in db.tasks && db.next <= next && RowOk(db.tasks[id], e, next, now)
    ensures DbOk(db.(events := db.events[id := e], next := next), now)
    ensures Later(db, db.(events := db.events[id := e], next := next))
  {
    hide RowOk, TaskLater, UniqueIdentity, Linked;
    TaskLaterSelf(db.tasks[id], db.next);
    ReplacePair(db, id, db.tasks[id], e, next, now);
    assert db.tasks[id := db.tasks[id]] == db.tasks;
  }

  /** A terminal row of any kind, paired with its cancelled event. */
  lemma TerminalRow(t: Task, e: Event, t': Task, next: nat, now: Time)
    requires RowOk(t, e, next, now) && SameKey(t, t')
    requires t'.maxAttempts == t.maxAttempts && t'.created == t.created && t'.attempts == t.attempts
    requires t'.state == Cancelled || (t'.state == Failed && Live(t))
    requires t'.token.None? && t'.leaseEnd.None? && (t'.payload == t.payload || t'.payload.None?)
    requires t'.expires == t.expires || t'.expires.None?
    ensures RowOk(t', CancelledEvent(e), next, now) && TaskLater(t, t', next)
  {
  }

  lemma ClaimKeeps(db: Db, id: TaskId, leaseFor: nat, limit: Option<nat>, now: Time)
    requires DbOk(db, now) && Published(db, id) && id in db.tasks
    ensures DbOk(Tasks.Claim(db, id, db.tasks[id].owner, leaseFor, limit, now).db, now)
    ensures Later(db, Tasks.Claim(db, id, db.tasks[id].owner, leaseFor, limit, now).db)
  {
    LaterSelf(db);
    if Claimable(db.tasks[id], now) && !BadLimit(db.tasks[id], limit) { ClaimDueKeeps(db, id, leaseFor, limit, now); }
  }

  lemma ClaimDueKeeps(db: Db, id: TaskId, leaseFor: nat, limit: Option<nat>, now: Time)
    requires DbOk(db, now) && Published(db, id) && id in db.tasks && Claimable(db.tasks[id], now)
    requires !BadLimit(db.tasks[id], limit)
    ensures DbOk(Tasks.Claim(db, id, db.tasks[id].owner, leaseFor, limit, now).db, now)
    ensures Later(db, Tasks.Claim(db, id, db.tasks[id].owner, leaseFor, limit, now).db)
  {
    hide *;
    ClaimFacts(db, id, now);
    var t, e := db.tasks[id], db.events[id];
    ClaimShape(db, id, leaseFor, limit, now);
    if t.attempts >= AttemptLimit(t, limit) {
      ExhaustedRow(t, e, db.next, now);
      ReplacePair(db, id, ExhaustedTask(t), CancelledEvent(e), db.next, now);
    } else {
      ClaimedRow(t, e, limit, db.next, now + leaseFor, now);
      ReplaceTask(db, id, ClaimedTask(t, db.next, now + leaseFor), db.next + 1, now);
    }
  }

  lemma ClaimFacts(db: Db, id: TaskId, now: Time)
    requires DbOk(db, now) && Published(db, id) && id in db.tasks && Claimable(db.tasks[id], now)
    ensures id in db.events && RowOk(db.tasks[id], db.events[id], db.next, now)
    ensures Live(db.tasks[id]) && db.events[id].state == Sent
  {
  }

  lemma ClaimShape(db: Db, id: TaskId, leaseFor: nat, limit: Option<nat>, now: Time)
    requires id in db.tasks && id in db.events && Claimable(db.tasks[id], now) && !BadLimit(db.tasks[id], limit)
    ensures Tasks.Claim(db, id, db.tasks[id].owner, leaseFor, limit, now).db
         == if db.tasks[id].attempts >= AttemptLimit(db.tasks[id], limit)
            then WithPair(db, id, ExhaustedTask(db.tasks[id]), CancelledEvent(db.events[id])).(next := db.next)
            else db.(tasks := db.tasks[id := ClaimedTask(db.tasks[id], db.next, now + leaseFor)], next := db.next + 1)
  {
  }

  lemma ExhaustedRow(t: Task, e: Event, next: nat, now: Time)
    requires RowOk(t, e, next, now) && Live(t)
    ensures RowOk(ExhaustedTask(t), CancelledEvent(e), next, now) && TaskLater(t, ExhaustedTask(t), next)
  {
    TerminalRow(t, e, ExhaustedTask(t), next, now);
  }

  lemma RowAt(db: Db, id: TaskId, now: Time)
    requires DbOk(db, now) && id in db.tasks
    ensures id in db.events && RowOk(db.tasks[id], db.events[id], db.next, now)
  {
  }

  lemma LaterSelf(db: Db)
    ensures Later(db, db)
  {
  }

  lemma ClaimedRow(t: Task, e: Event, limit: Option<nat>, next: nat, leaseEnd: Time, now: Time)
    requires RowOk(t, e, next, now) && Live(t) && e.state == Sent && t.attempts < AttemptLimit(t, limit)
    ensures RowOk(ClaimedTask(t, next, leaseEnd), e, next + 1, now)
    ensures TaskLater(t, ClaimedTask(t, next, leaseEnd), next)
  {
  }

  lemma CompleteKeeps(db: Db, id: TaskId, owner: UserId, revision: nat, token: Token, now: Time)
    requires DbOk(db, now)
    ensures DbOk(Complete(db, id, owner, revision, token, now).db, now)
    ensures Later(db, Complete(db, id, owner, revision, token, now).db)
  {
    LaterSelf(db);
    if id in db.tasks { RowAt(db, id, now); }
    hide RowOk, DbOk, Later, TaskLater;
    if owner in db.users && id in db.tasks && db.tasks[id].owner == owner
       && HoldsLease(db.tasks[id], token, now) && db.tasks[id].revision == revision {
      var t, e := db.tasks[id], db.events[id];
      if db.users[owner] != revision {
        TerminalRow(t, e, StaleTask(t), db.next, now);
        ReplacePair(db, id, StaleTask(t), CancelledEvent(e), db.next, now);
      } else {
        SucceededRow(t, e, t.result, t.expires, t.payload, db.next, now);
        ReplaceTask(db, id, SucceededTask(t), db.next, now);
      }
    }
  }

  lemma SucceededRow(t: Task, e: Event, result: Option<Draft>, expires: Option<Time>, payload: Option<Ref>,
                     next: nat, now: Time)
    requires RowOk(t, e, next, now) && t.state == Processing && (payload == t.payload || payload.None?)
    ensures RowOk(SucceededTask(t).(result := result, expires := expires, payload := payload), e, next, now)
    ensures TaskLater(t, SucceededTask(t).(result := result, expires := expires, payload := payload), next)
  {
  }

  lemma FailKeeps(db: Db, id: TaskId, owner: UserId, token: Token, code: FailureCode, retryable: bool,
                  after: nat, limit: Option<nat>, now: Time)
    requires DbOk(db, now)
    ensures DbOk(Fail(db, id, owner, token, code, retryable, after, limit, now).db, now)
    ensures Later(db, Fail(db, id, owner, token, code, retryable, after, limit, now).db)
  {
    LaterSelf(db);
    if id in db.tasks && db.tasks[id].owner == owner && HoldsLease(db.tasks[id], token, now) {
      FailHeldKeeps(db, id, token, code, retryable, after, limit, now);
    }
  }

  lemma FailHeldKeeps(db: Db, id: TaskId, token: Token, code: FailureCode, retryable: bool,
                      after: nat, limit: Option<nat>, now: Time)
    requires DbOk(db, now) && id in db.tasks && HoldsLease(db.tasks[id], token, now)
    ensures DbOk(Fail(db, id, db.tasks[id].owner, token, code, retryable, after, limit, now).db, now)
    ensures Later(db, Fail(db, id, db.tasks[id].owner, token, code, retryable, after, limit, now).db)
  {
    hide *;
    RowAt(db, id, now);
    var t, e := db.tasks[id], db.events[id];
    FailShape(db, id, token, code, retryable, after, limit, now);
    if retryable && t.attempts < AttemptLimit(t, limit) {
      RetriedRow(t, e, code, limit, now + after, db.next, now);
      ReplacePair(db, id, RetriedTask(t, code, now + after), RequeuedEvent(e, now + after), db.next, now);
    } else {
      FailedRow(t, e, code, db.next, now);
      ReplacePair(db, id, FailedTask(t, code), CancelledEvent(e), db.next, now);
    }
  }

  lemma FailShape(db: Db, id: TaskId, token: Token, code: FailureCode, retryable: bool,
                  after: nat, limit: Option<nat>, now: Time)
    requires id in db.tasks && id in db.events && HoldsLease(db.tasks[id], token, now)
    ensures db.tasks[id].state == Processing
    ensures Fail(db, id, db.tasks[id].owner, token, code, retryable, after, limit, now).db
         == if retryable && db.tasks[id].attempts < AttemptLimit(db.tasks[id], limit)
            then WithPair(db, id, RetriedTask(db.tasks[id], code, now + after),
                          RequeuedEvent(db.events[id], now + after)).(next := db.next)
            else WithPair(db, id, FailedTask(db.tasks[id], code), CancelledEvent(db.events[id])).(next := db.next)
  {
  }

  lemma FailedRow(t: Task, e: Event, code: FailureCode, next: nat, now: Time)
    requires RowOk(t, e, next, now) && t.state == Processing
    ensures RowOk(FailedTask(t, code), CancelledEvent(e), next, now) && TaskLater(t, FailedTask(t, code), next)
  {
    TerminalRow(t, e, FailedTask(t, code), next, now);
  }

  lemma RetriedRow(t: Task, e: Event, code: FailureCode, limit: Option<nat>, due: Time, next: nat, now: Time)
    requires RowOk(t, e, next, now) && t.state == Processing && t.attempts < AttemptLimit(t, limit)
    ensures RowOk(RetriedTask(t, code, due), RequeuedEvent(e, due), next, now)
    ensures TaskLater(t, RetriedTask(t, code, due), next)
  {
  }

  lemma CancelAllKeeps(db: Db, ids: set<TaskId>, now: Time)
    requires DbOk(db, now)
    ensures DbOk(CancelAll(db, ids), now) && Later(db, CancelAll(db, ids))
  {
    hide RowOk, TaskLater, UniqueIdentity, Linked;
    var db' := CancelAll(db, ids);
    forall id | id in db.tasks
      ensures RowOk(db'.tasks[id], db'.events[id], db.next, now) && TaskLater(db.tasks[id], db'.tasks[id], db.next)
    {
      TerminalRow(db.tasks[id], db.events[id], CancelledTask(db.tasks[id]), db.next, now);
      TaskLaterSelf(db.tasks[id], db.next);
    }
    ReplaceRows(db, db', now);
  }

  lemma CleanedKeeps(db: Db, ttl: nat, asOf: Time, now: Time)
    requires DbOk(db, now)
    ensures DbOk(Cleaned(db, ttl, asOf), now) && Later(db, Cleaned(db, ttl, asOf))
  {
    hide RowOk, TaskLater, UniqueIdentity, Linked;
    var db' := Cleaned(db, ttl, asOf);
    forall id | id in db.tasks
      ensures RowOk(db'.tasks[id], db'.events[id], db.next, now) && TaskLater(db.tasks[id], db'.tasks[id], db.next)
    {
      var t := db.tasks[id];
      if Stale(t, ttl, asOf) {
        TerminalRow(t, db.events[id], ExpiredTask(t), db.next, now);
      } else if Expired(t, asOf) {
        ForgottenRow(t, db.events[id], db.next, now);
      } else {
        TaskLaterSelf(t, db.next);
      }
    }
    ReplaceRows(db, db', now);
  }

  lemma ForgottenRow(t: Task, e: Event, next: nat, now: Time)
    requires RowOk(t, e, next, now)
    ensures RowOk(ForgottenResult(t), e, next, now) && TaskLater(t, ForgottenResult(t), next)
  {
  }

  predicate FreshTaskOk(db: Db, t: Task) {
    && t.state == Pending && t.attempts == 0 < t.maxAttempts && t.token.None? && t.leaseEnd.None?
    && Linked(db, t) && PayloadOk(t, db.next)
  }

  lemma NewIdentityUnique(db: Db, id: TaskId, t: Task)
    requires UniqueIdentity(db) && id !in db.tasks
    requires forall x | x in db.tasks :: !SameIdentity(db.tasks[x], t.owner, t.kind, t.key)
    ensures UniqueIdentity(db.(tasks := db.tasks[id := t]))
  {
    var db' := db.(tasks := db.tasks[id := t]);
    forall a, b | a in db'.tasks && b in db'.tasks
                  && SameIdentity(db'.tasks[a], db'.tasks[b].owner, db'.tasks[b].kind, db'.tasks[b].key)
      ensures a == b
    {
      if a in db.tasks && b in db.tasks {
        assert SameIdentity(db.tasks[a], db.tasks[b].owner, db.tasks[b].kind, db.tasks[b].key);
      } else if b in db.tasks {
        assert !SameIdentity(db.tasks[b], t.owner, t.kind, t.key);
      }
    }
  }

  /** Adding one task with its event under a fresh identifier. */
  lemma EnqueueKeeps(db: Db, t: Task, now: Time)
    requires DbOk(db, now) && FreshTaskOk(db, t)
    requires t == NewTask(t.owner, t.kind, t.key, t.revision, t.payload, t.maxAttempts, now)
    requires Enqueue(db, t.owner, t.kind, t.key, t.revision, t.payload, t.maxAttempts, now).Some?
    ensures DbOk(Enqueue(db, t.owner, t.kind, t.key, t.revision, t.payload, t.maxAttempts, now).value, now)
    ensures Later(db, Enqueue(db, t.owner, t.kind, t.key, t.revision, t.payload, t.maxAttempts, now).value)
  {
    hide TaskLater, UniqueIdentity;
    var db' := Enqueue(db, t.owner, t.kind, t.key, t.revision, t.payload, t.maxAttempts, now).value;
    FreshRow(t, db.next, now);
    hide RowOk, Linked;
    assert db'.tasks == db.tasks[db.next := t] && db'.events == db.events[db.next := NewEvent(now)];
    assert db.next !in db.tasks;
    NewIdentityUnique(db, db.next, t);
    SameTasksUnique(db.(tasks := db.tasks[db.next := t]), db');
    forall x | x in db'.tasks
      ensures x < db'.next && RowOk(db'.tasks[x], db'.events[x], db'.next, now) && Linked(db', db'.tasks[x])
    {
      if x in db.tasks {
        RowOkGrows(db.tasks[x], db.events[x], db.next, db'.next, now, now);
        LinkedFrame(db, db', db.tasks[x]);
      } else {
        LinkedFrame(db, db', t);
      }
    }
    forall x | x in db.tasks ensures TaskLater(db.tasks[x], db'.tasks[x], db.next) {
      TaskLaterSelf(db.tasks[x], db.next);
    }
  }

  lemma SameTasksUnique(db: Db, db': Db)
    requires UniqueIdentity(db) && db'.tasks == db.tasks
    ensures UniqueIdentity(db')
  {
  }

  lemma FreshRow(t: Task, next: nat, now: Time)
    requires t.state == Pending && t.attempts == 0 < t.maxAttempts && t.token.None? && t.leaseEnd.None?
    requires t.available == now && PayloadOk(t, next)
    ensures RowOk(t, NewEvent(now), next + 1, now)
  {
  }

  lemma LinkedFrame(db: Db, db': Db, t: Task)
    requires Linked(db, t) && db'.users == db.users && db'.ops == db.ops
    ensures Linked(db', t)
  {
  }
}
