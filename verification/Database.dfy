/** The tables as the transactions update them in place.
  *
  * A `Database` holds one field per table. Its methods follow the source statement by statement,
  * and each is proved to move the tables exactly as the function of the same transaction in
  * `Tasks`, `Outbox`, `Resume` or `Worker` says; a rollback puts back the tables of the call.
  */
module Database {
  import opened Wrappers
  import opened Rows
  import opened Tasks
  import opened Outbox
  import opened Resume
  import opened Worker

  class Database {
    var users: map<UserId, nat>
    var profiles: map<UserId, Profile>
    var chunks: map<UserId, seq<Chunk>>
    var tasks: map<TaskId, Task>
    var events: map<TaskId, Event>
    var ops: map<(UserId, OpId), Operation>
    var next: nat

    function View(): Db
      reads this
    {
      Db(users, profiles, chunks, tasks, events, ops, next)
    }

    constructor ()
      ensures View() == EmptyDb()
    {
      users, profiles, chunks, tasks, events, ops, next := map[], map[], map[], map[], map[], map[], 0;
    }

    method Restore(saved: Db)
      modifies this
      ensures View() == saved
    {
      users, profiles, chunks, tasks := saved.users, saved.profiles, saved.chunks, saved.tasks;
      events, ops, next := saved.events, saved.ops, saved.next;
    }

    method NewUuid() returns (id: nat)
      modifies this`next
      ensures id == old(next) && next == old(next) + 1
    {
      id := next;
      next := next + 1;
    }

    // ---- tasks.py

    method CancelOutbox(id: TaskId)
      modifies this`events
      ensures View() == CancelEvent(old(View()), id)
    {
      if id in events {
        var event := events[id];
        event := event.(state := EventCancelled);
        event := event.(token := None);
        event := event.(leaseEnd := None);
        events := events[id := event];
      }
    }

    method EnqueueTask(owner: UserId, kind: Kind, key: TaskKey, revision: nat, payload: Option<Ref>,
                       maxAttempts: nat, now: Time) returns (ok: bool)
      modifies this
      ensures ok == Enqueue(old(View()), owner, kind, key, revision, payload, maxAttempts, now).Some?
      ensures ok ==> View() == Enqueue(old(View()), owner, kind, key, revision, payload, maxAttempts, now).value
      ensures !ok ==> View() == old(View())
    {
      if exists id | id in tasks.Keys :: SameIdentity(tasks[id], owner, kind, key) {
        return false;
      }
      var id := NewUuid();
      tasks := tasks[id := NewTask(owner, kind, key, revision, payload, maxAttempts, now)];
      events := events[id := NewEvent(now)];
      ok := true;
    }

    method ClaimTask(id: TaskId, owner: UserId, leaseFor: nat, limit: Option<nat>, now: Time)
      returns (token: Option<Token>)
      modifies this
      ensures View() == Tasks.Claim(old(View()), id, owner, leaseFor, limit, now).db
      ensures token == Tasks.Claim(old(View()), id, owner, leaseFor, limit, now).token
    {
      token := None;
      if id !in tasks || tasks[id].owner != owner || !Live(tasks[id]) { return; }
      var task := tasks[id];
      if task.state == Processing && task.leaseEnd.Some? && task.leaseEnd.value > now { return; }
      if task.available > now { return; }
      var attemptLimit := if limit.Some? then limit.value else task.maxAttempts;
      if attemptLimit < 1 { return; }
      if task.attempts >= Min(attemptLimit, task.maxAttempts) {
        task := task.(state := Failed, failure := Some(AttemptsExhausted), token := None, leaseEnd := None);
        tasks := tasks[id := task];
        CancelOutbox(id);
        return;
      }
      var lease := NewUuid();
      task := task.(attempts := task.attempts + 1);
      task := task.(state := Processing, failure := None, token := Some(lease), leaseEnd := Some(now + leaseFor));
      tasks := tasks[id := task];
      token := Some(lease);
    }

    method ClaimPublishedTask(id: TaskId, kind: Kind, leaseFor: nat, now: Time) returns (token: Option<Token>)
      modifies this
      ensures View() == ClaimPublished(old(View()), id, kind, leaseFor, now).db
      ensures token == ClaimPublished(old(View()), id, kind, leaseFor, now).token
    {
      token := None;
      if id in tasks && tasks[id].kind == kind && id in events && events[id].state == Sent {
        token := ClaimTask(id, tasks[id].owner, leaseFor, None, now);
      }
    }

    method CompleteTask(id: TaskId, owner: UserId, revision: nat, token: Token, now: Time) returns (ok: bool)
      modifies this
      ensures View() == Complete(old(View()), id, owner, revision, token, now).db
      ensures ok == Complete(old(View()), id, owner, revision, token, now).ok
    {
      ok := false;
      if owner !in users || id !in tasks || tasks[id].owner != owner { return; }
      var task := tasks[id];
      if task.state != Processing || task.token != Some(token)
         || task.leaseEnd.None? || task.leaseEnd.value <= now || task.revision != revision { return; }
      if users[owner] != revision {
        task := task.(state := Cancelled, failure := Some(StaleRevision));
        task := task.(result := None, expires := None);
        task := task.(token := None, leaseEnd := None);
        tasks := tasks[id := task];
        CancelOutbox(id);
        return;
      }
      task := task.(state := Succeeded, failure := None);
      task := task.(token := None, leaseEnd := None);
      tasks := tasks[id := task];
      ok := true;
    }

    method FailTask(id: TaskId, owner: UserId, token: Token, code: FailureCode, retryable: bool,
                    after: nat, limit: Option<nat>, now: Time) returns (retrying: bool)
      modifies this
      ensures View() == Fail(old(View()), id, owner, token, code, retryable, after, limit, now).db
      ensures retrying == Fail(old(View()), id, owner, token, code, retryable, after, limit, now).ok
    {
      retrying := false;
      if id !in tasks || tasks[id].owner != owner { return; }
      var task := tasks[id];
      if task.state != Processing || task.token != Some(token)
         || task.leaseEnd.None? || task.leaseEnd.value <= now { return; }
      var attemptLimit := Min(if limit.Some? && limit.value != 0 then limit.value else task.maxAttempts, task.maxAttempts);
      if retryable && task.attempts < attemptLimit {
        task := task.(state := RetryWait, available := now + after);
        if id in events {
          var event := events[id];
          event := event.(state := EventPending, available := task.available);
          event := event.(token := None, leaseEnd := None);
          events := events[id := event];
        }
        retrying := true;
      } else {
        task := task.(state := Failed);
        CancelOutbox(id);
      }
      task := task.(failure := Some(code));
      task := task.(token := None, leaseEnd := None);
      tasks := tasks[id := task];
    }

    method CancelOwnerTasks(owner: UserId) returns (count: nat)
      modifies this
      ensures (View(), count) == CancelOwner(old(View()), owner)
    {
      hide CancelAll, OwnedWork;
      count := 0;
      if owner !in users { return; }
      ghost var before := View();
      var rows := set id | id in tasks.Keys && OwnedWork(tasks[id], owner);
      var left := rows;
      CancelNone(before);
      assert rows - left == {};
      while left != {}
        invariant left <= rows <= before.tasks.Keys
        invariant View() == CancelAll(before, rows - left)
        invariant count == |rows| - |left|
      {
        var id :| id in left;
        ghost var done := rows - left;
        left := left - {id};
        CancelOneMore(before, done, id);
        var task := tasks[id];
        task := task.(state := Cancelled, failure := Some(CancelledByOwner));
        task := task.(result := None, expires := None, payload := None);
        task := task.(token := None, leaseEnd := None);
        tasks := tasks[id := task];
        CancelOutbox(id);
        count := count + 1;
        assert rows - left == done + {id};
      }
      assert rows - left == OwnedWorkIds(before, owner);
    }

    // ---- outbox.py

    /** claim_outbox_batch on the rows that its query returns; a limit or lease of zero is the ValueError. The events
      * taken are exactly the selected ones, each under a fresh token of its own until the end of its lease. */
    method ClaimOutboxBatch(rows: seq<TaskId>, limit: nat, leaseFor: nat, queryTime: Time, now: Time)
      returns (deliveries: seq<Delivery>)
      requires 0 < limit && 0 < leaseFor && Selected(View(), rows, limit, queryTime)
      modifies this
      ensures old(RowsExist(View(), rows)) && (View(), deliveries) == ClaimBatch(old(View()), rows, leaseFor, now)
      ensures |deliveries| == |rows| <= limit && TakenInOrder(old(View()), View(), rows, deliveries, now + leaseFor)
    {
      hide ClaimBatch, DueEvent, EventBefore, TakenInOrder;
      BatchExists(View(), rows, queryTime);
      BatchContents(View(), rows, leaseFor, now);
      deliveries := ClaimRows(rows, leaseFor, now);
    }

    /** The loop over the rows. */
    method ClaimRows(rows: seq<TaskId>, leaseFor: nat, now: Time) returns (deliveries: seq<Delivery>)
      requires RowsExist(View(), rows)
      modifies this
      ensures (View(), deliveries) == ClaimBatch(old(View()), rows, leaseFor, now)
    {
      deliveries := [];
      ghost var before := View();
      assert rows[..0] == [];
      for n := 0 to |rows|
        invariant events.Keys == before.events.Keys
        invariant (View(), deliveries) == ClaimBatch(before, rows[..n], leaseFor, now)
      {
        var id := rows[n];
        var token := NewUuid();
        var event := events[id];
        event := event.(state := Claimed, attempts := event.attempts + 1);
        event := event.(token := Some(token), leaseEnd := Some(now + leaseFor));
        events := events[id := event];
        deliveries := deliveries + [Delivery(id, token)];
        assert rows[..n + 1][..n] == rows[..n] && rows[..n + 1] != [];
      }
      assert rows[..|rows|] == rows;
    }

    method AckOutbox(id: TaskId, token: Token, now: Time) returns (ok: bool)
      modifies this`events
      ensures View() == Ack(old(View()), id, token, now).db && ok == Ack(old(View()), id, token, now).ok
    {
      ok := false;
      if id !in events { return; }
      var event := events[id];
      if event.state != Claimed || event.token != Some(token)
         || event.leaseEnd.None? || event.leaseEnd.value <= now { return; }
      event := event.(state := Sent);
      event := event.(token := None, leaseEnd := None);
      events := events[id := event];
      ok := true;
    }

    method RetryOutbox(id: TaskId, token: Token, after: nat, now: Time) returns (ok: bool)
      modifies this`events
      ensures View() == RetryEvent(old(View()), id, token, after, now).db
      ensures ok == RetryEvent(old(View()), id, token, after, now).ok
    {
      ok := false;
      if id !in events { return; }
      var event := events[id];
      if event.state != Claimed || event.token != Some(token)
         || event.leaseEnd.None? || event.leaseEnd.value <= now { return; }
      event := event.(state := EventPending, available := now + after);
      event := event.(token := None, leaseEnd := None);
      events := events[id := event];
      ok := true;
    }

    // ---- resume.py

    /** The main transaction of save_resume. */
    method SaveResume(user: UserId, op: OpId, payload: Payload, now: Time) returns (reply: Reply)
      requires user in users
      modifies this
      ensures View() == SaveMain(old(View()), user, op, payload, now).db
      ensures reply == SaveMain(old(View()), user, op, payload, now).reply
    {
      var saved := View();
      if (user, op) in ops {
        var row := ops[(user, op)];
        if row.state == OpFailed && row.failure == Some(ReviewFailure) && row.payload == payload {
          return ReviewRequired;
        }
        return Replay(row, payload, now);
      }
      if users[user] != payload.expected { return RevisionConflict(Some(users[user])); }
      if !ReviewedDraft(View(), user, payload, now) { return DraftGone; }
      var revision := users[user];
      var changed := user !in profiles || profiles[user].content != payload.content
                     || profiles[user].version != payload.version;
      var queued := true;
      if changed {
        queued := PublishContent(user, op, payload, now);
        revision := revision + 1;
      } else if exists id | id in tasks.Keys :: FailedEmbedding(tasks[id], user, revision) {
        queued := EnqueueTask(user, Embedding, RetryKey(op), revision, None, MAX_ATTEMPTS, now);
      }
      if !queued {
        Restore(saved);
        return InternalError;
      }
      ops := ops[(user, op) := Operation(payload, OpSucceeded, Some(revision), None, now + SAVE_RETENTION)];
      reply := Saved(revision, changed);
    }

    /** The changed branch of that transaction; a failure leaves its writes for the rollback. */
    method PublishContent(user: UserId, op: OpId, payload: Payload, now: Time) returns (queued: bool)
      requires user in users
      modifies this
      ensures var r := Enqueue(Republish(old(View()), user, payload), user, Embedding, SaveKey(op),
                               old(users)[user] + 1, None, MAX_ATTEMPTS, now);
              queued == r.Some? && (queued ==> View() == r.value)
    {
      var revision := users[user] + 1;
      chunks := chunks - {user};
      profiles := profiles[user := Profile(revision, payload.content, payload.version)];
      users := users[user := revision];
      queued := EnqueueTask(user, Embedding, SaveKey(op), revision, None, MAX_ATTEMPTS, now);
    }

    method DeleteResumeRows(user: UserId, expected: nat) returns (revision: Option<nat>, refs: set<Ref>)
      requires user in users
      modifies this
      ensures DeleteResult(View(), revision, refs) == DeleteResume(old(View()), user, expected)
    {
      hide OwnedWorkIds, CancelledTask, CancelledEvent;
      if users[user] != expected { return None, {}; }
      var hadProfile := user in profiles;
      refs := set id | id in tasks.Keys && tasks[id].owner == user && tasks[id].kind == Extraction
                       && tasks[id].payload.Some? :: tasks[id].payload.value;
      var cancelled := CancelOwnerTasks(user);
      profiles := profiles - {user};
      chunks := chunks - {user};
      if hadProfile || cancelled > 0 {
        users := users[user := users[user] + 1];
      } else {
        assert users[user := users[user]] == users;
      }
      revision := Some(users[user]);
    }

    method DiscardExtraction(user: UserId, id: TaskId) returns (found: bool, ref: Option<Ref>)
      modifies this
      ensures DiscardResult(View(), found, ref) == Discard(old(View()), user, id)
    {
      if id !in tasks || tasks[id].owner != user || tasks[id].kind != Extraction { return false, None; }
      var task := tasks[id];
      ref := task.payload;
      task := task.(state := Cancelled, failure := Some(CancelledByOwner));
      task := task.(payload := None, result := None, expires := None);
      task := task.(token := None, leaseEnd := None);
      tasks := tasks[id := task];
      CancelOutbox(id);
      found := true;
    }

    // ---- local_worker.py

    method FinishExtraction(c: Claim, draft: Draft, ttl: nat, now: Time) returns (delete: Option<Ref>)
      modifies this
      ensures WorkResult(View(), delete) == CompleteExtraction(old(View()), c, draft, ttl, now)
    {
      delete := None;
      var saved := View();
      var ok := CompleteTask(c.task, c.owner, c.revision, c.token, now);
      if !ok {
        if c.task in tasks && tasks[c.task].state == Cancelled {
          delete := c.payload;
        } else {
          Restore(saved);
        }
        return;
      }
      var task := tasks[c.task];
      task := task.(result := Some(draft));
      task := task.(expires := Some(now + ttl));
      task := task.(payload := None);
      tasks := tasks[c.task := task];
      delete := c.payload;
    }

    method FinishEmbedding(c: Claim, version: Version, bodies: seq<ChunkBody>, now: Time)
      modifies this
      ensures View() == CompleteEmbedding(old(View()), c, version, bodies, now)
    {
      var saved := View();
      var ok := CompleteTask(c.task, c.owner, c.revision, c.token, now);
      if !ok {
        if !(c.task in tasks && tasks[c.task].state == Cancelled) {
          Restore(saved);
        }
        return;
      }
      var rows := WithoutRevision(ChunksOf(View(), c.owner), c.revision);
      ghost var kept := rows;
      for n := 0 to |bodies|
        invariant rows == kept + ChunkRows(c.revision, version, bodies)[..n]
      {
        rows := rows + [Chunk(c.revision, version, bodies[n])];
      }
      assert ChunkRows(c.revision, version, bodies)[..|bodies|] == ChunkRows(c.revision, version, bodies);
      chunks := chunks[c.owner := rows];
    }

    method FailClaimed(c: Claim, code: FailureCode, retryable: bool, now: Time) returns (delete: Option<Ref>)
      modifies this
      ensures WorkResult(View(), delete) == FailClaim(old(View()), c, code, retryable, now)
    {
      delete := None;
      var ownedLease := c.task in tasks && tasks[c.task].owner == c.owner
                        && tasks[c.task].state == Processing && tasks[c.task].token == Some(c.token);
      var _ := FailTask(c.task, c.owner, c.token, code, retryable, RETRY_DELAY, None, now);
      if ownedLease && c.task in tasks && (tasks[c.task].state == Failed || tasks[c.task].state == Cancelled) {
        var task := tasks[c.task];
        delete := task.payload;
        task := task.(payload := None, result := None, expires := None);
        tasks := tasks[c.task := task];
      }
    }

    /** The transaction of cleanup(): the expired results, the stale tasks, then the live references. */
    method CleanUpRows(ttl: nat, asOf: Time) returns (refs: set<Ref>, liveRefs: set<Ref>)
      modifies this
      ensures View() == Cleaned(old(View()), ttl, asOf)
      ensures refs == StaleRefs(old(View()), ttl, asOf) && liveRefs == LiveRefs(View())
    {
      StaleAfterForgetting(View(), ttl, asOf);
      CleanedInTwoPasses(View(), ttl, asOf);
      ForgetExpired(asOf);
      refs := ExpireStale(ttl, asOf);
      liveRefs := set id | id in tasks.Keys && Live(tasks[id]) && tasks[id].payload.Some? :: tasks[id].payload.value;
    }

    method ForgetExpired(asOf: Time)
      modifies this`tasks
      ensures View() == Forgotten(old(View()), ExpiredIds(old(View()), asOf))
    {
      ghost var before := View();
      ForgetNone(before);
      hide Forgotten;
      var expired := set id | id in tasks.Keys && Expired(tasks[id], asOf);
      var left := expired;
      assert expired - left == {};
      while left != {}
        invariant left <= expired <= before.tasks.Keys == tasks.Keys
        invariant View() == Forgotten(before, expired - left)
      {
        var id :| id in left;
        ghost var done := expired - left;
        left := left - {id};
        var task := tasks[id];
        task := task.(result := None);
        task := task.(expires := None);
        ForgetOneMore(before, done, id);
        tasks := tasks[id := task];
        assert expired - left == done + {id};
      }
      assert expired - left == ExpiredIds(before, asOf);
    }

    method ExpireStale(ttl: nat, asOf: Time) returns (refs: set<Ref>)
      modifies this
      ensures View() == ExpireAll(old(View()), StaleIds(old(View()), ttl, asOf))
      ensures refs == StaleRefs(old(View()), ttl, asOf)
    {
      ghost var before := View();
      refs := {};
      ExpireNone(before, ttl, asOf);
      hide ExpireAll, PayloadRefs, CancelEvent;
      var stale := set id | id in tasks.Keys && Stale(tasks[id], ttl, asOf);
      var left := stale;
      assert stale - left == {};
      while left != {}
        invariant left <= stale <= before.tasks.Keys == tasks.Keys
        invariant View() == ExpireAll(before, stale - left)
        invariant refs == PayloadRefs(before, stale - left)
      {
        var id :| id in left;
        ghost var done := stale - left;
        left := left - {id};
        var task := tasks[id];
        if task.payload.Some? { refs := refs + {task.payload.value}; }
        task := task.(state := Failed, failure := Some(TaskExpired));
        task := task.(payload := None, result := None, expires := None);
        task := task.(token := None, leaseEnd := None);
        ExpireOneMore(before, done, id);
        tasks := tasks[id := task];
        CancelOutbox(id);
        assert stale - left == done + {id};
      }
      assert stale - left == StaleIds(before, ttl, asOf);
    }
  }

  // ---- the loops

  /** The events of the rows are leased, in order, each under its own fresh token, and nothing else has changed. */
  predicate TakenInOrder(db: Db, db': Db, rows: seq<TaskId>, ds: seq<Delivery>, leaseEnd: Time) {
    && db' == db.(events := db'.events, next := db.next + |rows|) && |ds| == |rows| && db'.events.Keys == db.events.Keys
    && (forall i | 0 <= i < |rows| :: ds[i] == Delivery(rows[i], db.next + i) && rows[i] in db.events
          && db'.events[rows[i]] == db.events[rows[i]].(state := Claimed, attempts := db.events[rows[i]].attempts + 1,
                                                        token := Some(db.next + i), leaseEnd := Some(leaseEnd)))
    && (forall id | id in db.events && id !in rows :: db'.events[id] == db.events[id])
  }

  lemma {:induction false} BatchContents(db: Db, rows: seq<TaskId>, leaseFor: nat, now: Time)
    requires RowsExist(db, rows) && forall i, j | 0 <= i < j < |rows| :: rows[i] != rows[j]
    ensures var (after, ds) := ClaimBatch(db, rows, leaseFor, now); TakenInOrder(db, after, rows, ds, now + leaseFor)
  {
    if rows != [] {
      var front, id := rows[..|rows| - 1], rows[|rows| - 1];
      BatchContents(db, front, leaseFor, now);
      hide TakenInOrder, ClaimEvent;
      var prior := ClaimBatch(db, front, leaseFor, now);
      assert rows == front + [id];
      TakenOneMore(db, prior.0, front, prior.1, id, leaseFor, now);
    }
  }

  lemma TakenOneMore(db: Db, db': Db, rows: seq<TaskId>, ds: seq<Delivery>, id: TaskId, leaseFor: nat, now: Time)
    requires TakenInOrder(db, db', rows, ds, now + leaseFor) && id in db.events && id !in rows && id in db'.events
    ensures TakenInOrder(db, ClaimEvent(db', id, leaseFor, now), rows + [id], ds + [Delivery(id, db'.next)], now + leaseFor)
  {
    assert db'.events[id] == db.events[id];
  }

  lemma CancelNone(db: Db)
    ensures CancelAll(db, {}) == db
  {
    assert CancelAll(db, {}).tasks == db.tasks && CancelAll(db, {}).events == db.events;
  }

  lemma CancelOneMore(db: Db, done: set<TaskId>, id: TaskId)
    requires id in db.tasks && id !in done
    ensures var d := CancelAll(db, done);
            && id in d.tasks && d.tasks[id] == db.tasks[id]
            && CancelAll(db, done + {id}) == CancelEvent(d.(tasks := d.tasks[id := CancelledTask(db.tasks[id])]), id)
  {
    var d := CancelAll(db, done);
    var r := CancelEvent(d.(tasks := d.tasks[id := CancelledTask(db.tasks[id])]), id);
    assert CancelAll(db, done + {id}).tasks == r.tasks;
    assert CancelAll(db, done + {id}).events == r.events;
  }

  ghost function Forgotten(db: Db, ids: set<TaskId>): Db {
    db.(tasks := map id | id in db.tasks.Keys :: if id in ids then ForgottenResult(db.tasks[id]) else db.tasks[id])
  }

  lemma ForgetNone(db: Db)
    ensures Forgotten(db, {}) == db
  {
    assert Forgotten(db, {}).tasks == db.tasks;
  }

  lemma ForgetOneMore(db: Db, done: set<TaskId>, id: TaskId)
    requires id in db.tasks && id !in done
    ensures var d := Forgotten(db, done);
            && d.tasks.Keys == db.tasks.Keys && d.tasks[id] == db.tasks[id]
            && Forgotten(db, done + {id}) == d.(tasks := d.tasks[id := ForgottenResult(db.tasks[id])])
  {
    var d := Forgotten(db, done);
    assert Forgotten(db, done + {id}).tasks == d.tasks[id := ForgottenResult(db.tasks[id])];
  }

  ghost function ExpireAll(db: Db, ids: set<TaskId>): Db {
    db.(tasks := map id | id in db.tasks.Keys :: if id in ids then ExpiredTask(db.tasks[id]) else db.tasks[id],
        events := map id | id in db.events.Keys :: if id in ids then CancelledEvent(db.events[id]) else db.events[id])
  }

  ghost function PayloadRefs(db: Db, ids: set<TaskId>): set<Ref> {
    set id | id in db.tasks.Keys && id in ids && db.tasks[id].payload.Some? :: db.tasks[id].payload.value
  }

  lemma ExpireNone(db: Db, ttl: nat, asOf: Time)
    ensures ExpireAll(db, {}) == db && PayloadRefs(db, {}) == {}
    ensures PayloadRefs(db, StaleIds(db, ttl, asOf)) == StaleRefs(db, ttl, asOf)
  {
    assert ExpireAll(db, {}).tasks == db.tasks && ExpireAll(db, {}).events == db.events;
  }

  lemma ExpireOneMore(db: Db, done: set<TaskId>, id: TaskId)
    requires id in db.tasks && id !in done
    ensures var d := ExpireAll(db, done);
            && d.tasks.Keys == db.tasks.Keys && d.tasks[id] == db.tasks[id]
            && ExpireAll(db, done + {id}) == CancelEvent(d.(tasks := d.tasks[id := ExpiredTask(db.tasks[id])]), id)
    ensures PayloadRefs(db, done + {id})
              == PayloadRefs(db, done) + (if db.tasks[id].payload.Some? then {db.tasks[id].payload.value} else {})
  {
    var d := ExpireAll(db, done);
    var r := CancelEvent(d.(tasks := d.tasks[id := ExpiredTask(db.tasks[id])]), id);
    assert ExpireAll(db, done + {id}).tasks == r.tasks;
    assert ExpireAll(db, done + {id}).events == r.events;
  }

  ghost function ExpiredIds(db: Db, asOf: Time): set<TaskId> {
    set id | id in db.tasks.Keys && Expired(db.tasks[id], asOf)
  }

  lemma StaleAfterForgetting(db: Db, ttl: nat, asOf: Time)
    ensures StaleIds(Forgotten(db, ExpiredIds(db, asOf)), ttl, asOf) == StaleIds(db, ttl, asOf)
    ensures StaleRefs(Forgotten(db, ExpiredIds(db, asOf)), ttl, asOf) == StaleRefs(db, ttl, asOf)
  {
    var d := Forgotten(db, ExpiredIds(db, asOf));
    assert forall id | id in db.tasks ::
        d.tasks[id].payload == db.tasks[id].payload && Stale(d.tasks[id], ttl, asOf) == Stale(db.tasks[id], ttl, asOf);
    assert StaleIds(d, ttl, asOf) == StaleIds(db, ttl, asOf);
    assert StaleRefs(d, ttl, asOf) == PayloadRefs(d, StaleIds(d, ttl, asOf));
    assert StaleRefs(db, ttl, asOf) == PayloadRefs(db, StaleIds(db, ttl, asOf));
  }

  /** Forgetting the expired results and then expiring the stale tasks is what `Cleaned` says in one pass. */
  lemma CleanedInTwoPasses(db: Db, ttl: nat, asOf: Time)
    ensures ExpireAll(Forgotten(db, ExpiredIds(db, asOf)), StaleIds(db, ttl, asOf)) == Cleaned(db, ttl, asOf)
  {
    var r := ExpireAll(Forgotten(db, ExpiredIds(db, asOf)), StaleIds(db, ttl, asOf));
    assert r.tasks == Cleaned(db, ttl, asOf).tasks;
    assert r.events == Cleaned(db, ttl, asOf).events;
  }
}
