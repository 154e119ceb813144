/** Every transaction of the deployment keeps the row invariant and moves the tables forward. */
module Transactions {
  import opened Wrappers
  import opened Rows
  import opened Tasks
  import opened Outbox
  import opened Resume
  import opened Worker
  import opened RowInvariant

  /** A change outside the task and outbox tables. */
  lemma OtherTablesKeep(db: Db, db': Db, now: Time)
    requires DbOk(db, now) && db'.tasks == db.tasks && db'.events == db.events && db.next <= db'.next
    requires forall u | u in db.users :: u in db'.users && db.users[u] <= db'.users[u]
    requires forall k | k in db.ops :: k in db'.ops && db'.ops[k] == db.ops[k]
    ensures DbOk(db', now) && Later(db, db')
  {
    hide RowOk, TaskLater;
    forall x | x in db.tasks
      ensures RowOk(db.tasks[x], db.events[x], db'.next, now) && TaskLater(db.tasks[x], db'.tasks[x], db.next)
    {
      RowOkGrows(db.tasks[x], db.events[x], db.next, db'.next, now, now);
      TaskLaterSelf(db.tasks[x], db.next);
    }
  }

  lemma RewriteSucceeded(db: Db, id: TaskId, t': Task, now: Time)
    requires DbOk(db, now) && id in db.tasks && !Live(db.tasks[id])
    requires t' == db.tasks[id].(result := t'.result, expires := None, payload := None)
    ensures DbOk(db.(tasks := db.tasks[id := t']), now) && Later(db, db.(tasks := db.tasks[id := t']))
  {
    RowAt(db, id, now);
    PayloadDropped(db.tasks[id], db.events[id], t'.result, None, db.next, now);
    hide *;
    ReplaceTask(db, id, t', db.next, now);
  }

  lemma PayloadDropped(t: Task, e: Event, result: Option<Draft>, expires: Option<Time>, next: nat, now: Time)
    requires RowOk(t, e, next, now) && !Live(t) && (expires == t.expires || expires.None?)
    ensures RowOk(t.(result := result, expires := expires, payload := None), e, next, now)
    ensures TaskLater(t, t.(result := result, expires := expires, payload := None), next)
  {
  }

  /** The row of an extraction that its lease holder has just finished. */
  function FinishedTask(t: Task, draft: Draft, expires: Time): Task {
    SucceededTask(t).(result := Some(draft), expires := Some(expires), payload := None)
  }

  lemma FinishedShape(db: Db, c: Claim, draft: Draft, ttl: nat, now: Time)
    requires Complete(db, c.task, c.owner, c.revision, c.token, now).ok
    ensures c.task in db.tasks && db.tasks[c.task].state == Processing
    ensures CompleteExtraction(db, c, draft, ttl, now).db
         == db.(tasks := db.tasks[c.task := FinishedTask(db.tasks[c.task], draft, now + ttl)])
  {
  }

  lemma CompleteExtractionKeeps(db: Db, c: Claim, draft: Draft, ttl: nat, now: Time)
    requires DbOk(db, now)
    ensures DbOk(CompleteExtraction(db, c, draft, ttl, now).db, now)
    ensures Later(db, CompleteExtraction(db, c, draft, ttl, now).db)
  {
    LaterSelf(db);
    CompleteKeeps(db, c.task, c.owner, c.revision, c.token, now);
    if Complete(db, c.task, c.owner, c.revision, c.token, now).ok {
      FinishedShape(db, c, draft, ttl, now);
      RowAt(db, c.task, now);
      SucceededRow(db.tasks[c.task], db.events[c.task], Some(draft), Some(now + ttl), None, db.next, now);
      hide *;
      ReplaceTask(db, c.task, FinishedTask(db.tasks[c.task], draft, now + ttl), db.next, now);
    } else {
      hide DbOk, Later, Complete;
    }
  }

  lemma CompleteEmbeddingKeeps(db: Db, c: Claim, version: Version, bodies: seq<ChunkBody>, now: Time)
    requires DbOk(db, now)
    ensures DbOk(CompleteEmbedding(db, c, version, bodies, now), now)
    ensures Later(db, CompleteEmbedding(db, c, version, bodies, now))
  {
    hide DbOk, Later, Complete;
    LaterSelf(db);
    CompleteKeeps(db, c.task, c.owner, c.revision, c.token, now);
    var r := Complete(db, c.task, c.owner, c.revision, c.token, now);
    if r.ok {
      OtherTablesKeep(r.db, CompleteEmbedding(db, c, version, bodies, now), now);
      LaterTransitive(db, r.db, CompleteEmbedding(db, c, version, bodies, now));
    }
  }

  lemma FailClaimKeeps(db: Db, c: Claim, code: FailureCode, retryable: bool, now: Time)
    requires DbOk(db, now)
    ensures DbOk(FailClaim(db, c, code, retryable, now).db, now)
    ensures Later(db, FailClaim(db, c, code, retryable, now).db)
  {
    hide DbOk, Later, Fail;
    FailKeeps(db, c.task, c.owner, c.token, code, retryable, RETRY_DELAY, None, now);
    var r := Fail(db, c.task, c.owner, c.token, code, retryable, RETRY_DELAY, None, now);
    if c.task in r.db.tasks && (r.db.tasks[c.task].state == Failed || r.db.tasks[c.task].state == Cancelled) {
      var t' := r.db.tasks[c.task].(payload := None, result := None, expires := None);
      RewriteSucceeded(r.db, c.task, t', now);
      LaterTransitive(db, r.db, r.db.(tasks := r.db.tasks[c.task := t']));
    }
  }

  lemma SaveReviewKeeps(db: Db, user: UserId, op: OpId, payload: Payload, now: Time)
    requires DbOk(db, now)
    ensures DbOk(SaveReview(db, user, op, payload, now).db, now)
    ensures Later(db, SaveReview(db, user, op, payload, now).db)
  {
    hide DbOk, Later, Replay;
    OtherTablesKeep(db, SaveReview(db, user, op, payload, now).db, now);
  }

  lemma QueueEmbeddingKeeps(db: Db, user: UserId, key: TaskKey, now: Time)
    requires DbOk(db, now) && user in db.users && !key.Upload? && (user, key.op) in db.ops
    requires Enqueue(db, user, Embedding, key, db.users[user], None, MAX_ATTEMPTS, now).Some?
    ensures DbOk(Enqueue(db, user, Embedding, key, db.users[user], None, MAX_ATTEMPTS, now).value, now)
    ensures Later(db, Enqueue(db, user, Embedding, key, db.users[user], None, MAX_ATTEMPTS, now).value)
  {
    var t := NewTask(user, Embedding, key, db.users[user], None, MAX_ATTEMPTS, now);
    assert FreshTaskOk(db, t);
    hide DbOk, Later, FreshTaskOk, Enqueue;
    EnqueueKeeps(db, t, now);
  }

  /** Recording the operation first and enqueueing afterwards leaves the same tables as the code's order. */
  lemma EnqueueCommutes(db: Db, user: UserId, op: OpId, payload: Payload, key: TaskKey, revision: nat, now: Time)
    requires Enqueue(db, user, Embedding, key, revision, None, MAX_ATTEMPTS, now).Some?
    ensures Enqueue(Succeed(db, user, op, payload, revision, now), user, Embedding, key, revision, None, MAX_ATTEMPTS, now)
         == Some(Succeed(Enqueue(db, user, Embedding, key, revision, None, MAX_ATTEMPTS, now).value,
                         user, op, payload, revision, now))
  {
  }

  lemma SucceedAndQueueKeeps(db: Db, user: UserId, op: OpId, payload: Payload, key: TaskKey, now: Time)
    requires DbOk(db, now) && user in db.users && (user, op) !in db.ops && !key.Upload? && key.op == op
    requires Enqueue(db, user, Embedding, key, db.users[user], None, MAX_ATTEMPTS, now).Some?
    ensures var db' := Succeed(Enqueue(db, user, Embedding, key, db.users[user], None, MAX_ATTEMPTS, now).value,
                               user, op, payload, db.users[user], now);
            DbOk(db', now) && Later(db, db')
  {
    var noted := Succeed(db, user, op, payload, db.users[user], now);
    OtherTablesKeep(db, noted, now);
    EnqueueCommutes(db, user, op, payload, key, db.users[user], now);
    assert (user, key.op) in noted.ops && noted.users == db.users;
    hide DbOk, Later, Enqueue, Succeed;
    QueueEmbeddingKeeps(noted, user, key, now);
    LaterTransitive(db, noted, Enqueue(noted, user, Embedding, key, db.users[user], None, MAX_ATTEMPTS, now).value);
  }

  lemma RepublishKeeps(db: Db, user: UserId, payload: Payload, now: Time)
    requires DbOk(db, now) && user in db.users
    ensures DbOk(Republish(db, user, payload), now) && Later(db, Republish(db, user, payload))
  {
    hide DbOk, Later;
    OtherTablesKeep(db, Republish(db, user, payload), now);
  }

  /** The cases in which the main save transaction writes. */
  datatype SaveCase = NoWrite | Changed | Requeued | Unchanged

  function CaseOf(db: Db, user: UserId, op: OpId, payload: Payload, now: Time): SaveCase
    requires user in db.users
  {
    var revision := db.users[user];
    if (user, op) in db.ops || revision != payload.expected || !ReviewedDraft(db, user, payload, now) then NoWrite
    else if Changes(db, user, payload) then
      if Enqueue(Republish(db, user, payload), user, Embedding, SaveKey(op), revision + 1, None, MAX_ATTEMPTS, now).None?
      then NoWrite else Changed
    else if exists id | id in db.tasks.Keys :: FailedEmbedding(db.tasks[id], user, revision) then
      if Enqueue(db, user, Embedding, RetryKey(op), revision, None, MAX_ATTEMPTS, now).None? then NoWrite else Requeued
    else Unchanged
  }

  function CaseDb(db: Db, user: UserId, op: OpId, payload: Payload, now: Time): Db
    requires user in db.users
  {
    match CaseOf(db, user, op, payload, now)
    case NoWrite => db
    case Changed =>
      Succeed(Enqueue(Republish(db, user, payload), user, Embedding, SaveKey(op), db.users[user] + 1, None,
                      MAX_ATTEMPTS, now).value, user, op, payload, db.users[user] + 1, now)
    case Requeued =>
      Succeed(Enqueue(db, user, Embedding, RetryKey(op), db.users[user], None, MAX_ATTEMPTS, now).value,
              user, op, payload, db.users[user], now)
    case Unchanged => Succeed(db, user, op, payload, db.users[user], now)
  }

  lemma SaveMainCases(db: Db, user: UserId, op: OpId, payload: Payload, now: Time)
    requires user in db.users
    ensures SaveMain(db, user, op, payload, now).db == CaseDb(db, user, op, payload, now)
    ensures CaseOf(db, user, op, payload, now) != NoWrite ==> (user, op) !in db.ops && db.users[user] == payload.expected
    ensures CaseOf(db, user, op, payload, now) != NoWrite
        <==> SaveMain(db, user, op, payload, now).reply.Saved? && (user, op) !in db.ops
  {
    hide Enqueue, Replay, ReviewedDraft, Changes, Republish, Succeed, FailedEmbedding;
  }

  lemma SaveMainKeeps(db: Db, user: UserId, op: OpId, payload: Payload, now: Time)
    requires DbOk(db, now) && user in db.users
    ensures DbOk(SaveMain(db, user, op, payload, now).db, now)
    ensures Later(db, SaveMain(db, user, op, payload, now).db)
  {
    SaveMainCases(db, user, op, payload, now);
    LaterSelf(db);
    var c := CaseOf(db, user, op, payload, now);
    var r := Republish(db, user, payload);
    assert r.users[user] == db.users[user] + 1 && r.ops == db.ops;
    hide DbOk, Later, Enqueue, Republish, Succeed, SaveMain;
    match c
    case NoWrite =>
    case Changed =>
      RepublishKeeps(db, user, payload, now);
      SucceedAndQueueKeeps(r, user, op, payload, SaveKey(op), now);
      LaterTransitive(db, r, CaseDb(db, user, op, payload, now));
    case Requeued => SucceedAndQueueKeeps(db, user, op, payload, RetryKey(op), now);
    case Unchanged => SucceedKeeps(db, user, op, payload, now);
  }

  lemma SucceedKeeps(db: Db, user: UserId, op: OpId, payload: Payload, now: Time)
    requires DbOk(db, now) && user in db.users && (user, op) !in db.ops
    ensures DbOk(Succeed(db, user, op, payload, db.users[user], now), now)
    ensures Later(db, Succeed(db, user, op, payload, db.users[user], now))
  {
    hide DbOk, Later;
    OtherTablesKeep(db, Succeed(db, user, op, payload, db.users[user], now), now);
  }

  lemma DeleteResumeKeeps(db: Db, user: UserId, expected: nat, now: Time)
    requires DbOk(db, now) && user in db.users
    ensures DbOk(DeleteResume(db, user, expected).db, now) && Later(db, DeleteResume(db, user, expected).db)
  {
    LaterSelf(db);
    if db.users[user] == expected {
      var cancelled := CancelAll(db, OwnedWorkIds(db, user));
      var db' := DeleteResume(db, user, expected).db;
      assert db'.tasks == cancelled.tasks && db'.events == cancelled.events;
      assert cancelled.users == db.users && cancelled.ops == db.ops && db'.ops == db.ops;
      assert db'.next == cancelled.next;
      hide DbOk, Later, CancelAll;
      CancelAllKeeps(db, OwnedWorkIds(db, user), now);
      OtherTablesKeep(cancelled, db', now);
      LaterTransitive(db, cancelled, db');
    }
  }

  lemma DiscardKeeps(db: Db, user: UserId, id: TaskId, now: Time)
    requires DbOk(db, now)
    ensures DbOk(Discard(db, user, id).db, now) && Later(db, Discard(db, user, id).db)
  {
    LaterSelf(db);
    if id in db.tasks && db.tasks[id].owner == user && db.tasks[id].kind == Extraction {
      RowAt(db, id, now);
      TerminalRow(db.tasks[id], db.events[id], CancelledTask(db.tasks[id]), db.next, now);
      DiscardShape(db, user, id);
      hide *;
      ReplacePair(db, id, CancelledTask(db.tasks[id]), CancelledEvent(db.events[id]), db.next, now);
    }
  }

  lemma DiscardShape(db: Db, user: UserId, id: TaskId)
    requires id in db.tasks && id in db.events && db.tasks[id].owner == user && db.tasks[id].kind == Extraction
    ensures Discard(db, user, id).db
         == WithPair(db, id, CancelledTask(db.tasks[id]), CancelledEvent(db.events[id])).(next := db.next)
  {
  }

  lemma PrepareKeeps(db: Db, user: UserId, ref: Ref, now: Time)
    requires DbOk(db, now) && user in db.users && ref < db.next && Prepare(db, user, ref, now).Some?
    ensures DbOk(Prepare(db, user, ref, now).value, now) && Later(db, Prepare(db, user, ref, now).value)
  {
    var t := NewTask(user, Extraction, Upload(ref), db.users[user], Some(ref), MAX_ATTEMPTS, now);
    assert FreshTaskOk(db, t);
    hide DbOk, Later, FreshTaskOk, Enqueue;
    EnqueueKeeps(db, t, now);
  }

  lemma ClaimEventKeeps(db: Db, id: TaskId, queryTime: Time, leaseFor: nat, now: Time)
    requires DbOk(db, now) && DueEvent(db, id, queryTime) && queryTime <= now
    ensures DbOk(ClaimEvent(db, id, leaseFor, now), now) && Later(db, ClaimEvent(db, id, leaseFor, now))
  {
    hide *;
    DueEventFacts(db, id, queryTime, now);
    var e' := ClaimedEvent(db.events[id], db.next, now + leaseFor);
    ClaimedEventRow(db.tasks[id], db.events[id], db.next, now + leaseFor, now);
    ReplaceEvent(db, id, e', db.next + 1, now);
    ClaimEventShape(db, id, leaseFor, now);
  }

  lemma ClaimEventShape(db: Db, id: TaskId, leaseFor: nat, now: Time)
    requires id in db.events
    ensures ClaimEvent(db, id, leaseFor, now)
         == db.(events := db.events[id := ClaimedEvent(db.events[id], db.next, now + leaseFor)], next := db.next + 1)
  {
  }

  lemma DueEventFacts(db: Db, id: TaskId, queryTime: Time, now: Time)
    requires DbOk(db, now) && DueEvent(db, id, queryTime) && queryTime <= now
    ensures id in db.tasks && id in db.events && RowOk(db.tasks[id], db.events[id], db.next, now)
    ensures db.tasks[id].state == Pending || db.tasks[id].state == RetryWait
    ensures db.events[id].state == EventPending || db.events[id].state == Claimed
    ensures db.events[id].available <= now
  {
  }

  lemma ClaimedEventRow(t: Task, e: Event, next: nat, leaseEnd: Time, now: Time)
    requires RowOk(t, e, next, now) && (e.state == EventPending || e.state == Claimed) && e.available <= now
    requires t.state == Pending || t.state == RetryWait
    ensures RowOk(t, ClaimedEvent(e, next, leaseEnd), next + 1, now)
  {
  }

  /** A waiting task whose event is claimed, acknowledged or requeued. */
  lemma EventRow(t: Task, e: Event, e': Event, next: nat, next': nat, now: Time)
    requires RowOk(t, e, next, now) && (e.state == EventPending || e.state == Claimed) && next <= next'
    requires t.state == Pending || t.state == RetryWait
    requires e'.state != EventCancelled && (e'.token.Some? <==> e'.state == Claimed) && (e'.leaseEnd.Some? <==> e'.state == Claimed)
    requires e'.token.Some? ==> e'.token.value < next'
    requires t.available <= e'.available && (e'.state != EventPending ==> t.available <= now)
    ensures RowOk(t, e', next', now)
  {
  }

  lemma ClaimedEventTask(t: Task, e: Event, next: nat, now: Time)
    requires RowOk(t, e, next, now) && e.state == Claimed
    ensures t.state == Pending || t.state == RetryWait
    ensures t.available <= e.available && t.available <= now
  {
  }

  lemma AckKeeps(db: Db, id: TaskId, token: Token, now: Time)
    requires DbOk(db, now)
    ensures DbOk(Ack(db, id, token, now).db, now) && Later(db, Ack(db, id, token, now).db)
  {
    LaterSelf(db);
    if HoldsEvent(db, id, token, now) {
      assert id in db.tasks.Keys;
      RowAt(db, id, now);
      ClaimedEventTask(db.tasks[id], db.events[id], db.next, now);
      var e' := db.events[id].(state := Sent, token := None, leaseEnd := None);
      hide RowOk, DbOk, Later;
      EventRow(db.tasks[id], db.events[id], e', db.next, db.next, now);
      ReplaceEvent(db, id, e', db.next, now);
    }
  }

  lemma RetryEventKeeps(db: Db, id: TaskId, token: Token, after: nat, now: Time)
    requires DbOk(db, now)
    ensures DbOk(RetryEvent(db, id, token, after, now).db, now) && Later(db, RetryEvent(db, id, token, after, now).db)
  {
    LaterSelf(db);
    if HoldsEvent(db, id, token, now) {
      assert id in db.tasks.Keys;
      RowAt(db, id, now);
      ClaimedEventTask(db.tasks[id], db.events[id], db.next, now);
      var e' := RequeuedEvent(db.events[id], now + after);
      hide RowOk, DbOk, Later;
      EventRow(db.tasks[id], db.events[id], e', db.next, db.next, now);
      ReplaceEvent(db, id, e', db.next, now);
    }
  }

  lemma CancelEventKeeps(db: Db, id: TaskId, now: Time)
    requires DbOk(db, now) && id in db.tasks && (db.tasks[id].state == Failed || db.tasks[id].state == Cancelled)
    ensures DbOk(CancelEvent(db, id), now) && Later(db, CancelEvent(db, id))
  {
    RowAt(db, id, now);
    var e' := CancelledEvent(db.events[id]);
    assert RowOk(db.tasks[id], e', db.next, now);
    hide RowOk, DbOk, Later;
    ReplaceEvent(db, id, e', db.next, now);
  }
}
