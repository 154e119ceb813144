/** What most transactions leave alone: publication states, successes, upload identities, retries. */
module Quiet {
  import opened Wrappers
  import opened Rows
  import opened Tasks
  import opened Outbox
  import opened Resume
  import opened Worker
  import opened RowInvariant
  import opened Transactions

  predicate QuietRow(db: Db, db': Db, id: TaskId)
    requires id in db'.tasks
  {
    && (id !in db.tasks ==> !db'.tasks[id].key.Upload? && db'.tasks[id].state == Pending)
    && (db'.tasks[id].state == Succeeded ==> id in db.tasks && db.tasks[id].state == Succeeded)
    && (Live(db'.tasks[id]) && id in db.tasks ==> Live(db.tasks[id]))
    && (db'.tasks[id].state == RetryWait ==> id in db.tasks && db.tasks[id].state == RetryWait)
  }

  predicate QuietEvent(db: Db, db': Db, id: TaskId)
    requires id in db'.tasks
  {
    Live(db'.tasks[id]) ==>
      && id in db'.events
      && (db'.events[id].state == EventPending || (id in db.events && db'.events[id] == db.events[id]))
  }

  predicate QuietRows(db: Db, db': Db) {
    forall id | id in db'.tasks :: QuietRow(db, db', id)
  }

  predicate QuietEvents(db: Db, db': Db) {
    forall id | id in db'.tasks :: QuietEvent(db, db', id)
  }

  predicate QuietChange(db: Db, db': Db) {
    QuietRows(db, db') && QuietEvents(db, db')
  }

  lemma SameTables(db: Db, db': Db)
    requires db'.tasks == db.tasks && db'.events == db.events && db.tasks.Keys == db.events.Keys
    ensures QuietChange(db, db')
  {
  }

  lemma QuietTransitive(a: Db, b: Db, c: Db)
    requires QuietChange(a, b) && b.tasks == c.tasks && b.events == c.events
    ensures QuietChange(a, c)
  {
    forall id | id in c.tasks ensures QuietRow(a, c, id) && QuietEvent(a, c, id) {
      assert QuietRow(a, b, id) && QuietEvent(a, b, id);
    }
  }

  /** A pair whose task ends, or is claimed again with its event kept. */
  lemma QuietPair(db: Db, db': Db, id: TaskId)
    requires db.tasks.Keys == db.events.Keys && id in db.tasks && id in db'.tasks && id in db'.events
    requires db'.tasks == db.tasks[id := db'.tasks[id]] && db'.events == db.events[id := db'.events[id]]
    requires QuietRow(db, db', id) && QuietEvent(db, db', id)
    ensures QuietChange(db, db')
  {
    forall x | x in db'.tasks ensures QuietRow(db, db', x) && QuietEvent(db, db', x) {
    }
  }

  lemma ClaimQuiet(db: Db, id: TaskId, leaseFor: nat, now: Time)
    requires db.tasks.Keys == db.events.Keys && id in db.tasks
    ensures QuietChange(db, Tasks.Claim(db, id, db.tasks[id].owner, leaseFor, None, now).db)
  {
    var db' := Tasks.Claim(db, id, db.tasks[id].owner, leaseFor, None, now).db;
    if Claimable(db.tasks[id], now) && !BadLimit(db.tasks[id], None) {
      ClaimShape(db, id, leaseFor, None, now);
      hide Tasks.Claim;
      assert db'.events == db.events[id := db'.events[id]];
      QuietPair(db, db', id);
    }
  }

  lemma CompleteQuietEvents(db: Db, id: TaskId, owner: UserId, revision: nat, token: Token, now: Time)
    requires db.tasks.Keys == db.events.Keys
    ensures QuietEvents(db, Complete(db, id, owner, revision, token, now).db)
  {
    var db' := Complete(db, id, owner, revision, token, now).db;
    forall x | x in db'.tasks ensures QuietEvent(db, db', x) {
    }
  }

  lemma CancelAllQuiet(db: Db, ids: set<TaskId>)
    requires db.tasks.Keys == db.events.Keys
    ensures QuietChange(db, CancelAll(db, ids))
  {
    var db' := CancelAll(db, ids);
    forall x | x in db'.tasks ensures QuietRow(db, db', x) && QuietEvent(db, db', x) {
    }
  }

  lemma CleanedQuiet(db: Db, ttl: nat, asOf: Time)
    requires db.tasks.Keys == db.events.Keys
    ensures QuietChange(db, Cleaned(db, ttl, asOf))
  {
    var db' := Cleaned(db, ttl, asOf);
    forall x | x in db'.tasks ensures QuietRow(db, db', x) && QuietEvent(db, db', x) {
      assert Stale(db.tasks[x], ttl, asOf) <==> x in StaleIds(db, ttl, asOf);
    }
  }

  lemma EnqueueQuiet(db: Db, owner: UserId, kind: Kind, key: TaskKey, revision: nat, payload: Option<Ref>, now: Time)
    requires db.tasks.Keys == db.events.Keys && !key.Upload? && (forall id | id in db.tasks :: id < db.next)
    requires Enqueue(db, owner, kind, key, revision, payload, MAX_ATTEMPTS, now).Some?
    ensures QuietChange(db, Enqueue(db, owner, kind, key, revision, payload, MAX_ATTEMPTS, now).value)
  {
    var db' := Enqueue(db, owner, kind, key, revision, payload, MAX_ATTEMPTS, now).value;
    forall x | x in db'.tasks ensures QuietRow(db, db', x) && QuietEvent(db, db', x) {
    }
  }

  lemma EnqueueQuietEvents(db: Db, owner: UserId, kind: Kind, key: TaskKey, revision: nat, payload: Option<Ref>, now: Time)
    requires db.tasks.Keys == db.events.Keys && (forall id | id in db.tasks :: id < db.next)
    requires Enqueue(db, owner, kind, key, revision, payload, MAX_ATTEMPTS, now).Some?
    ensures var db' := Enqueue(db, owner, kind, key, revision, payload, MAX_ATTEMPTS, now).value;
            QuietEvents(db, db') && forall id | id in db'.tasks && db'.tasks[id].state == RetryWait ::
                                      id in db.tasks && db.tasks[id].state == RetryWait
  {
    var db' := Enqueue(db, owner, kind, key, revision, payload, MAX_ATTEMPTS, now).value;
    forall x | x in db'.tasks ensures QuietEvent(db, db', x) {
    }
  }

  /** A completing worker changes no event except that of a task it cancels. */
  lemma FinishQuiet(db: Db, db': Db, c: Claim, now: Time)
    requires db.tasks.Keys == db.events.Keys
    requires db' == db || (var r := Complete(db, c.task, c.owner, c.revision, c.token, now).db;
                           && db'.events == r.events && db'.tasks.Keys == r.tasks.Keys
                           && forall id | id in r.tasks :: db'.tasks[id].state == r.tasks[id].state)
    ensures QuietEvents(db, db')
    ensures forall id | id in db'.tasks && db'.tasks[id].state == RetryWait :: id in db.tasks && db.tasks[id].state == RetryWait
  {
    CompleteQuietEvents(db, c.task, c.owner, c.revision, c.token, now);
    var r := Complete(db, c.task, c.owner, c.revision, c.token, now).db;
    assert forall id | id in r.tasks && r.tasks[id].state == RetryWait :: id in db.tasks && db.tasks[id].state == RetryWait;
    hide Complete;
    forall x | x in db'.tasks ensures QuietEvent(db, db', x) {
      if db' != db { assert QuietEvent(db, r, x); }
    }
  }

  lemma SaveMainQuiet(db: Db, user: UserId, op: OpId, payload: Payload, now: Time)
    requires db.tasks.Keys == db.events.Keys && (forall id | id in db.tasks :: id < db.next) && user in db.users
    ensures QuietChange(db, SaveMain(db, user, op, payload, now).db)
  {
    hide SaveMain, Enqueue, QuietChange;
    SaveMainCases(db, user, op, payload, now);
    var c := CaseOf(db, user, op, payload, now);
    var db' := SaveMain(db, user, op, payload, now).db;
    SameTables(db, db);
    match c
    case NoWrite =>
    case Changed =>
      var r := Republish(db, user, payload);
      var q := Enqueue(r, user, Embedding, SaveKey(op), db.users[user] + 1, None, MAX_ATTEMPTS, now).value;
      EnqueueQuiet(r, user, Embedding, SaveKey(op), db.users[user] + 1, None, now);
      QuietFromSame(db, r, q);
      QuietTransitive(db, q, db');
    case Requeued =>
      var q := Enqueue(db, user, Embedding, RetryKey(op), db.users[user], None, MAX_ATTEMPTS, now).value;
      EnqueueQuiet(db, user, Embedding, RetryKey(op), db.users[user], None, now);
      QuietTransitive(db, q, db');
    case Unchanged => QuietTransitive(db, db, db');
  }

  lemma QuietFromSame(a: Db, b: Db, c: Db)
    requires a.tasks == b.tasks && a.events == b.events && QuietChange(b, c)
    ensures QuietChange(a, c)
  {
    forall id | id in c.tasks ensures QuietRow(a, c, id) && QuietEvent(a, c, id) {
      assert QuietRow(b, c, id) && QuietEvent(b, c, id);
    }
  }

  lemma DeleteResumeQuiet(db: Db, user: UserId, expected: nat)
    requires db.tasks.Keys == db.events.Keys && user in db.users
    ensures QuietChange(db, DeleteResume(db, user, expected).db)
  {
    CancelAllQuiet(db, OwnedWorkIds(db, user));
    SameTables(db, db);
    var cancelled := CancelAll(db, OwnedWorkIds(db, user));
    var db' := DeleteResume(db, user, expected).db;
    if db.users[user] == expected {
      assert db'.tasks == cancelled.tasks && db'.events == cancelled.events;
      hide DeleteResume, CancelAll, QuietChange;
      QuietTransitive(db, cancelled, db');
    }
  }

  lemma DiscardQuiet(db: Db, user: UserId, id: TaskId)
    requires db.tasks.Keys == db.events.Keys
    ensures QuietChange(db, Discard(db, user, id).db)
  {
    SameTables(db, db);
    var db' := Discard(db, user, id).db;
    if Discard(db, user, id).found { QuietPair(db, db', id); }
  }

  lemma EventOnlyQuiet(db: Db, db': Db, id: TaskId)
    requires db.tasks.Keys == db.events.Keys && id in db.tasks && db'.tasks == db.tasks && id in db'.events
    requires db'.events == db.events[id := db'.events[id]]
    requires db'.events[id].state == EventPending || !Live(db.tasks[id])
    ensures QuietChange(db, db')
  {
    QuietPair(db, db', id);
  }

  /** Every transaction of a failing worker except the retry it records. */
  lemma FailClaimQuiet(db: Db, c: Claim, code: FailureCode, retryable: bool, now: Time)
    requires db.tasks.Keys == db.events.Keys
    ensures var db' := FailClaim(db, c, code, retryable, now).db;
            && QuietEvents(db, db') && db'.tasks.Keys == db.tasks.Keys
            && (forall id | id in db'.tasks && id != c.task :: QuietRow(db, db', id))
            && (c.task in db'.tasks && db'.tasks[c.task].state != RetryWait ==> QuietRow(db, db', c.task))
            && (c.task in db'.tasks && db'.tasks[c.task].state == Succeeded ==> db.tasks[c.task].state == Succeeded)
            && (c.task in db'.tasks && Live(db'.tasks[c.task]) ==> Live(db.tasks[c.task]))
  {
    var db' := FailClaim(db, c, code, retryable, now).db;
    var r := Fail(db, c.task, c.owner, c.token, code, retryable, RETRY_DELAY, None, now);
    if c.task in db.tasks && db.tasks[c.task].owner == c.owner && HoldsLease(db.tasks[c.task], c.token, now) {
      FailShape(db, c.task, c.token, code, retryable, RETRY_DELAY, None, now);
      hide Fail;
      forall x | x in db'.tasks ensures QuietEvent(db, db', x) && (x != c.task ==> QuietRow(db, db', x)) {
      }
    } else {
      assert r.db == db;
      hide Fail;
      forall x | x in db'.tasks ensures QuietEvent(db, db', x) && (x != c.task ==> QuietRow(db, db', x)) {
      }
    }
  }
}
