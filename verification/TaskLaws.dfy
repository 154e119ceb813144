/** What one transaction means for the next one on the same task: leases, delays, identities, cancellation. */
module TaskLaws {
  import opened Wrappers
  import opened Rows
  import opened Tasks
  import opened Outbox
  import opened Resume
  import opened Worker

  // ---- leases

  /** The token of a claim completes the task exactly until the lease ends, at the task's revision, if the account is
    * still there; afterwards it does nothing. */
  lemma ClaimCompletesUntilTheLeaseEnds(db: Db, id: TaskId, owner: UserId, leaseFor: nat, limit: Option<nat>, now: Time,
                                        revision: nat, later: Time)
    requires Tasks.Claim(db, id, owner, leaseFor, limit, now).token.Some?
    ensures var r := Tasks.Claim(db, id, owner, leaseFor, limit, now);
            var c := Complete(r.db, id, owner, revision, r.token.value, later);
            && id in db.tasks
            && (c.ok <==> later < now + leaseFor && owner in db.users && revision == db.tasks[id].revision == db.users[owner])
            && (later >= now + leaseFor ==> c.db == r.db)
  {
  }

  /** While a lease runs nobody else can claim the task; once it has ended the next claim takes it or ends it. */
  lemma ClaimExcludesUntilTheLeaseEnds(db: Db, id: TaskId, owner: UserId, leaseFor: nat, limit: Option<nat>, now: Time,
                                       other: UserId, length: nat, later: Time)
    requires Tasks.Claim(db, id, owner, leaseFor, limit, now).token.Some? && now <= later
    ensures var r := Tasks.Claim(db, id, owner, leaseFor, limit, now);
            var second := Tasks.Claim(r.db, id, other, length, None, later);
            && id in r.db.tasks
            && (second == ClaimResult(r.db, None) <==> later < now + leaseFor || other != owner)
            && (second.token.Some? ==> second.token.value > r.token.value)
            && (second.token.Some? <==> later >= now + leaseFor && other == owner
                                        && r.db.tasks[id].attempts < r.db.tasks[id].maxAttempts)
  {
  }

  /** A failure under a live lease is retried exactly while attempts are left, and then not before its delay. */
  lemma RetryWaitsForItsDelay(db: Db, id: TaskId, owner: UserId, token: Token, code: FailureCode, after: nat, now: Time,
                              leaseFor: nat, later: Time)
    requires id in db.tasks && db.tasks[id].owner == owner && HoldsLease(db.tasks[id], token, now) && id in db.events
    ensures var r := Fail(db, id, owner, token, code, true, after, None, now);
            && (r.ok <==> db.tasks[id].attempts < db.tasks[id].maxAttempts)
            && (r.ok ==> (Tasks.Claim(r.db, id, owner, leaseFor, None, later).token.Some? <==> later >= now + after)
                         && (DueEvent(r.db, id, later) <==> later >= now + after))
            && (!r.ok ==> !Live(r.db.tasks[id]) && !DueEvent(r.db, id, later)
                          && Tasks.Claim(r.db, id, owner, leaseFor, None, later) == ClaimResult(r.db, None))
  {
  }

  // ---- publication

  /** A claimed event is acknowledged exactly until its lease ends, once; a publisher that is late changes nothing. */
  lemma EventIsAcknowledgedOnce(db: Db, id: TaskId, leaseFor: nat, now: Time, later: Time, again: Time)
    requires id in db.events
    ensures var claimed := ClaimEvent(db, id, leaseFor, now);
            var r := Ack(claimed, id, db.next, later);
            && (r.ok <==> later < now + leaseFor) && (!r.ok ==> r.db == claimed)
            && (r.ok ==> Published(r.db, id) && Ack(r.db, id, db.next, again) == FlagResult(r.db, false)
                         && RetryEvent(r.db, id, db.next, leaseFor, again) == FlagResult(r.db, false))
  {
  }

  /** A leased event is not due to any publisher until its lease ends, and a returned one not before its delay. */
  lemma EventIsDueAgain(db: Db, id: TaskId, leaseFor: nat, after: nat, queryTime: Time, now: Time, later: Time, query: Time)
    requires DueEvent(db, id, queryTime) && queryTime <= now <= later
    ensures id in db.events
    ensures var claimed := ClaimEvent(db, id, leaseFor, now);
            && (queryTime <= query ==> (DueEvent(claimed, id, query) <==> query >= now + leaseFor))
            && (later < now + leaseFor ==>
                  (DueEvent(RetryEvent(claimed, id, db.next, after, later).db, id, query) <==> query >= later + after))
  {
  }

  // ---- identities

  /** A task is enqueued once per identity, and does not take any other identity. */
  lemma IdentityIsTakenOnce(db: Db, owner: UserId, kind: Kind, key: TaskKey, revision: nat, payload: Option<Ref>, maxAttempts: nat,
                            now: Time, owner': UserId, kind': Kind, key': TaskKey, later: Time)
    requires db.next !in db.tasks && Enqueue(db, owner, kind, key, revision, payload, maxAttempts, now).Some?
    ensures var db' := Enqueue(db, owner, kind, key, revision, payload, maxAttempts, now).value;
            Enqueue(db', owner', kind', key', revision, payload, maxAttempts, later).None?
            <==> (owner, kind, key) == (owner', kind', key')
                 || Enqueue(db, owner', kind', key', revision, payload, maxAttempts, later).None?
  {
    var db' := Enqueue(db, owner, kind, key, revision, payload, maxAttempts, now).value;
    assert SameIdentity(db'.tasks[db.next], owner, kind, key);
    if id :| id in db.tasks.Keys && SameIdentity(db.tasks[id], owner', kind', key') {
      assert SameIdentity(db'.tasks[id], owner', kind', key');
    }
  }

  // ---- cancellation

  /** Cancelling an owner's work ends everything live and every kept draft, tells how much there was, and leaves everybody
    * else's alone. */
  lemma CancellationIsComplete(db: Db, owner: UserId, id: TaskId)
    requires owner in db.users && id in db.tasks && db.tasks.Keys == db.events.Keys
    ensures var r, t, e := CancelOwner(db, owner).0, db.tasks[id], db.events[id];
            && r == db.(tasks := r.tasks, events := r.events) && r.tasks.Keys == db.tasks.Keys && r.events.Keys == db.events.Keys
            && !OwnedWork(r.tasks[id], owner)
            && (OwnedWork(t, owner) <==> t.owner == owner && (t.state == Pending || t.state == Processing || t.state == RetryWait
                                                              || (t.kind == Extraction && t.result.Some?)))
            && (OwnedWork(t, owner) ==>
                  && r.tasks[id] == t.(state := Cancelled, failure := Some(CancelledByOwner), result := None, expires := None,
                                       payload := None, token := None, leaseEnd := None)
                  && r.events[id] == e.(state := EventCancelled, token := None, leaseEnd := None))
            && (!OwnedWork(t, owner) ==> r.tasks[id] == t && r.events[id] == e)
    ensures CancelOwner(db, owner).1 == |set x | x in db.tasks.Keys && OwnedWork(db.tasks[x], owner)|
  {
    assert OwnedWorkIds(db, owner) == set x | x in db.tasks.Keys && OwnedWork(db.tasks[x], owner);
  }

  /** A second cancellation finds nothing. */
  lemma CancellationIsIdempotent(db: Db, owner: UserId)
    requires owner in db.users && db.tasks.Keys == db.events.Keys
    ensures CancelOwner(CancelOwner(db, owner).0, owner) == (CancelOwner(db, owner).0, 0)
  {
    var r := CancelOwner(db, owner).0;
    forall id | id in db.tasks ensures !OwnedWork(r.tasks[id], owner) { CancellationIsComplete(db, owner, id); }
    hide CancelOwner;
    NothingToCancel(r, owner);
  }

  lemma NothingToCancel(db: Db, owner: UserId)
    requires owner in db.users && forall id | id in db.tasks :: !OwnedWork(db.tasks[id], owner)
    ensures CancelOwner(db, owner) == (db, 0)
  {
    assert OwnedWorkIds(db, owner) == {};
    assert CancelAll(db, {}).tasks == db.tasks && CancelAll(db, {}).events == db.events;
  }

  // ---- rows, field by field

  /** A claim of a due task takes an attempt if the smaller of both limits leaves one, and ends the task if not; any other
    * claim, and one with a limit below 1, changes nothing. */
  lemma ClaimTakesAnAttempt(db: Db, id: TaskId, owner: UserId, leaseFor: nat, limit: Option<nat>, now: Time)
    requires db.tasks.Keys == db.events.Keys
    ensures var r := Tasks.Claim(db, id, owner, leaseFor, limit, now);
            var due := id in db.tasks && db.tasks[id].owner == owner && db.tasks[id].available <= now
                       && (db.tasks[id].state == Pending || db.tasks[id].state == RetryWait
                           || (db.tasks[id].state == Processing && (db.tasks[id].leaseEnd.Some? ==> db.tasks[id].leaseEnd.value <= now)))
                       && 1 <= (if limit.Some? then limit.value else db.tasks[id].maxAttempts);
            if due then
              var t, e := db.tasks[id], db.events[id];
              if t.attempts < t.maxAttempts && (limit.Some? ==> t.attempts < limit.value) then
                r == ClaimResult(db.(next := db.next + 1,
                                     tasks := db.tasks[id := t.(state := Processing, attempts := t.attempts + 1, failure := None,
                                                                token := Some(db.next), leaseEnd := Some(now + leaseFor))]),
                                 Some(db.next))
              else
                r == ClaimResult(db.(tasks := db.tasks[id := t.(state := Failed, failure := Some(AttemptsExhausted), token := None,
                                                                leaseEnd := None)],
                                     events := db.events[id := e.(state := EventCancelled, token := None, leaseEnd := None)]), None)
            else r == ClaimResult(db, None)
  {
  }

  /** Only the holder of a running lease completes a task, at the revision of task and account; a stale revision of the
    * account cancels task and event, and anybody else changes nothing. */
  lemma CompletionLeaves(db: Db, id: TaskId, owner: UserId, revision: nat, token: Token, now: Time)
    requires db.tasks.Keys == db.events.Keys
    ensures var r := Complete(db, id, owner, revision, token, now);
            if owner in db.users && id in db.tasks && db.tasks[id].owner == owner && db.tasks[id].revision == revision
               && db.tasks[id].state == Processing && db.tasks[id].token == Some(token)
               && db.tasks[id].leaseEnd.Some? && db.tasks[id].leaseEnd.value > now then
              var t, e := db.tasks[id], db.events[id];
              if db.users[owner] == revision then
                r == FlagResult(db.(tasks := db.tasks[id := t.(state := Succeeded, failure := None, token := None, leaseEnd := None)]), true)
              else
                r == FlagResult(db.(tasks := db.tasks[id := t.(state := Cancelled, failure := Some(StaleRevision), result := None,
                                                               expires := None, token := None, leaseEnd := None)],
                                    events := db.events[id := e.(state := EventCancelled, token := None, leaseEnd := None)]), false)
            else r == FlagResult(db, false)
  {
  }

  /** Only the holder of a running lease fails a task: to a retry with its event offered again, or for good. */
  lemma FailureLeaves(db: Db, id: TaskId, owner: UserId, token: Token, code: FailureCode, retryable: bool, after: nat,
                      limit: Option<nat>, now: Time)
    requires db.tasks.Keys == db.events.Keys
    ensures var r := Fail(db, id, owner, token, code, retryable, after, limit, now);
            if id in db.tasks && db.tasks[id].owner == owner && db.tasks[id].state == Processing && db.tasks[id].token == Some(token)
               && db.tasks[id].leaseEnd.Some? && db.tasks[id].leaseEnd.value > now then
              var t, e := db.tasks[id], db.events[id];
              if retryable && t.attempts < t.maxAttempts && (limit.Some? && limit.value > 0 ==> t.attempts < limit.value) then
                r == FlagResult(db.(tasks := db.tasks[id := t.(state := RetryWait, failure := Some(code), available := now + after,
                                                               token := None, leaseEnd := None)],
                                    events := db.events[id := e.(state := EventPending, available := now + after, token := None,
                                                                 leaseEnd := None)]), true)
              else
                r == FlagResult(db.(tasks := db.tasks[id := t.(state := Failed, failure := Some(code), token := None, leaseEnd := None)],
                                    events := db.events[id := e.(state := EventCancelled, token := None, leaseEnd := None)]), false)
            else r == FlagResult(db, false)
  {
    if id in db.tasks && db.tasks[id].owner == owner && HoldsLease(db.tasks[id], token, now) { } else { }
  }

  /** What the publisher's query returns: due events only, the ones longest due first, and none left out before the limit. */
  lemma QueryTakesTheOldest(db: Db, rows: seq<TaskId>, limit: nat, queryTime: Time, id: TaskId)
    requires Selected(db, rows, limit, queryTime) && id in db.tasks && id in db.events
    ensures var t, e := db.tasks[id], db.events[id];
            var due := (t.state == Pending || t.state == RetryWait) && e.available <= queryTime
                       && (e.state == EventPending
                           || (e.state == Claimed && e.leaseEnd.Some? && e.leaseEnd.value <= queryTime));
            && |rows| <= limit
            && (id in rows ==> due)
            && (due && id !in rows ==>
                  |rows| == limit
                  && forall i | 0 <= i < |rows| ::
                       rows[i] in db.events
                       && (db.events[rows[i]].available < e.available
                           || (db.events[rows[i]].available == e.available && db.events[rows[i]].created <= e.created)))
            && (forall i, j | 0 <= i < j < |rows| :: rows[i] != rows[j])
  {
    if id in rows {
      var i :| 0 <= i < |rows| && rows[i] == id;
      assert DueEvent(db, rows[i], queryTime);
    } else if DueEvent(db, id, queryTime) {
      forall i | 0 <= i < |rows| ensures rows[i] in db.events && !EventBefore(db, id, rows[i]) {
        assert DueEvent(db, rows[i], queryTime);
      }
    }
  }

  /** The row of a task that a local worker can take. */
  predicate Waiting(db: Db, id: TaskId, kind: Kind, now: Time) {
    id in db.tasks && id in db.events && db.events[id].state == Sent
    && var t := db.tasks[id];
       t.kind == kind && t.available <= now
       && (t.state == Pending || t.state == RetryWait
           || (t.state == Processing && t.leaseEnd.Some? && t.leaseEnd.value <= now))
  }

  /** What the local worker's query returns: a waiting task, and none older; it returns one whenever there is one. */
  lemma QueryTakesTheNext(db: Db, id: TaskId, kind: Kind, now: Time)
    ensures OldestDue(db, id, kind, now) <==>
              (Waiting(db, id, kind, now)
               && forall other | other in db.tasks && Waiting(db, other, kind, now) ::
                    db.tasks[id].created < db.tasks[other].created
                    || (db.tasks[id].created == db.tasks[other].created && id <= other))
    ensures Waiting(db, id, kind, now) ==> exists first :: OldestDue(db, first, kind, now)
  {
    forall other ensures Waiting(db, other, kind, now) <==> DueForKind(db, other, kind, now) { }
    hide Waiting, DueForKind;
    if Waiting(db, id, kind, now) {
      WaitingExists(db, id, kind, now);
      var due := set x | x in db.tasks.Keys && DueForKind(db, x, kind, now);
      assert id in due;
      var first := FirstDue(db, due);
      assert OldestDue(db, first, kind, now);
    }
  }

  lemma WaitingExists(db: Db, id: TaskId, kind: Kind, now: Time)
    requires Waiting(db, id, kind, now)
    ensures id in db.tasks
  {
  }

  lemma {:induction false} FirstDue(db: Db, due: set<TaskId>) returns (first: TaskId)
    requires due != {} && due <= db.tasks.Keys
    ensures first in due
    ensures forall x | x in due ::
              db.tasks[first].created < db.tasks[x].created || (db.tasks[first].created == db.tasks[x].created && first <= x)
  {
    var x :| x in due;
    if due == {x} {
      first := x;
    } else {
      var y := FirstDue(db, due - {x});
      first := if db.tasks[x].created < db.tasks[y].created || (db.tasks[x].created == db.tasks[y].created && x <= y) then x else y;
      assert forall z | z in due :: z == x || z in due - {x};
    }
  }

  /** The clean-up, task by task: a stale extraction ends with its event, an expired draft is forgotten, and nothing else
    * changes. The uploads it deletes are those of the stale extractions. */
  lemma CleanUpLeaves(db: Db, ttl: nat, asOf: Time, id: TaskId)
    requires id in db.tasks && db.tasks.Keys == db.events.Keys
    ensures var r, t, e := Cleaned(db, ttl, asOf), db.tasks[id], db.events[id];
            var stale := t.kind == Extraction && t.created <= asOf - ttl
                         && (t.state == Pending || t.state == RetryWait
                             || (t.state == Processing && t.leaseEnd.Some? && t.leaseEnd.value <= asOf));
            && r == db.(tasks := r.tasks, events := r.events) && r.tasks.Keys == db.tasks.Keys && r.events.Keys == db.events.Keys
            && r.tasks[id] == (if stale then t.(state := Failed, failure := Some(TaskExpired), payload := None, result := None,
                                                expires := None, token := None, leaseEnd := None)
                               else if t.result.Some? && t.expires.Some? && t.expires.value <= asOf then t.(result := None, expires := None)
                               else t)
            && r.events[id] == (if stale then e.(state := EventCancelled, token := None, leaseEnd := None) else e)
            && (stale && t.payload.Some? ==> t.payload.value in StaleRefs(db, ttl, asOf))
            && ((t.state == Pending || t.state == RetryWait || t.state == Processing) && t.payload.Some? ==>
                  t.payload.value in LiveRefs(db))
  {
  }

  /** The uploads the clean-up deletes and those it keeps. */
  lemma CleanUpRefs(db: Db, ttl: nat, asOf: Time, ref: Ref)
    ensures ref in StaleRefs(db, ttl, asOf) <==>
              exists id | id in db.tasks :: db.tasks[id].payload == Some(ref) && Stale(db.tasks[id], ttl, asOf)
    ensures ref in LiveRefs(db) <==>
              exists id | id in db.tasks ::
                db.tasks[id].payload == Some(ref)
                && (db.tasks[id].state == Pending || db.tasks[id].state == RetryWait || db.tasks[id].state == Processing)
  {
  }
}
