/** Leased outbox publication (src/backend/app/processing/outbox.py) as functions on the tables. */
module Outbox {
  import opened Wrappers
  import opened Rows
  import opened Tasks

  datatype Delivery = Delivery(task: TaskId, token: Token)

  /** The rows claim_outbox_batch selects. */
  predicate DueEvent(db: Db, id: TaskId, queryTime: Time) {
    && id in db.tasks && id in db.events
    && (db.tasks[id].state == Pending || db.tasks[id].state == RetryWait)
    && db.events[id].available <= queryTime
    && (db.events[id].state == EventPending
        || (db.events[id].state == Claimed && db.events[id].leaseEnd.Some? && db.events[id].leaseEnd.value <= queryTime))
  }

  predicate DueBatch(db: Db, rows: seq<TaskId>, queryTime: Time) {
    && (forall i | 0 <= i < |rows| :: DueEvent(db, rows[i], queryTime))
    && (forall i, j | 0 <= i < j < |rows| :: rows[i] != rows[j])
  }

  /** ORDER BY available_at, created_at */
  predicate EventBefore(db: Db, a: TaskId, b: TaskId) {
    a in db.events && b in db.events
    && (db.events[a].available < db.events[b].available
        || (db.events[a].available == db.events[b].available && db.events[a].created < db.events[b].created))
  }

  /** What the query of claim_outbox_batch returns when no row is locked: distinct due rows in its order, at most `limit`,
    * and no due row is left out unless the limit is reached by rows that do not come after it. */
  predicate Selected(db: Db, rows: seq<TaskId>, limit: nat, queryTime: Time) {
    && DueBatch(db, rows, queryTime) && |rows| <= limit
    && (forall i, j | 0 <= i < j < |rows| :: !EventBefore(db, rows[j], rows[i]))
    && (forall id | id in db.events.Keys && DueEvent(db, id, queryTime) && id !in rows ::
          |rows| == limit && forall i | 0 <= i < |rows| :: !EventBefore(db, id, rows[i]))
  }

  /** The query always has such a result. */
  lemma SelectionExists(db: Db, limit: nat, queryTime: Time) returns (rows: seq<TaskId>)
    ensures Selected(db, rows, limit, queryTime)
  {
    hide DueEvent, EventBefore;
    var due := set id | id in db.events.Keys && DueEvent(db, id, queryTime);
    rows := SelectFrom(db, due, limit);
    forall i | 0 <= i < |rows| ensures DueEvent(db, rows[i], queryTime) { assert rows[i] in due; }
  }

  lemma {:induction false} SelectFrom(db: Db, due: set<TaskId>, limit: nat) returns (rows: seq<TaskId>)
    requires due <= db.events.Keys
    ensures |rows| <= limit && (forall i | 0 <= i < |rows| :: rows[i] in due)
    ensures forall i, j | 0 <= i < j < |rows| :: rows[i] != rows[j] && !EventBefore(db, rows[j], rows[i])
    ensures forall id | id in due && id !in rows :: |rows| == limit && forall i | 0 <= i < |rows| :: !EventBefore(db, id, rows[i])
  {
    if limit == 0 || due == {} {
      rows := [];
    } else {
      var first := FirstEvent(db, due);
      var rest := SelectFrom(db, due - {first}, limit - 1);
      hide EventBefore;
      rows := [first] + rest;
      forall id | id in due && id !in rows ensures |rows| == limit && forall i | 0 <= i < |rows| :: !EventBefore(db, id, rows[i]) {
        assert id in due - {first} && id !in rest;
      }
    }
  }

  lemma {:induction false} FirstEvent(db: Db, due: set<TaskId>) returns (first: TaskId)
    requires due != {} && due <= db.events.Keys
    ensures first in due && forall id | id in due :: !EventBefore(db, id, first)
  {
    var x :| x in due;
    if due == {x} {
      first := x;
    } else {
      var y := FirstEvent(db, due - {x});
      first := if EventBefore(db, x, y) then x else y;
      forall id | id in due ensures !EventBefore(db, id, first) {
        assert id == x || id in due - {x};
      }
    }
  }

  function ClaimedEvent(e: Event, token: Token, leaseEnd: Time): Event {
    e.(state := Claimed, attempts := e.attempts + 1, token := Some(token), leaseEnd := Some(leaseEnd))
  }

  /** One iteration of the batch loop. */
  function ClaimEvent(db: Db, id: TaskId, leaseFor: nat, now: Time): Db
    requires id in db.events
  {
    db.(next := db.next + 1, events := db.events[id := ClaimedEvent(db.events[id], db.next, now + leaseFor)])
  }

  predicate HoldsEvent(db: Db, id: TaskId, token: Token, now: Time) {
    && id in db.events && db.events[id].state == Claimed && db.events[id].token == Some(token)
    && db.events[id].leaseEnd.Some? && db.events[id].leaseEnd.value > now
  }

  /** ack_outbox */
  function Ack(db: Db, id: TaskId, token: Token, now: Time): FlagResult {
    if HoldsEvent(db, id, token, now) then
      FlagResult(db.(events := db.events[id := db.events[id].(state := Sent, token := None, leaseEnd := None)]), true)
    else FlagResult(db, false)
  }

  /** retry_outbox */
  function RetryEvent(db: Db, id: TaskId, token: Token, after: nat, now: Time): FlagResult {
    if HoldsEvent(db, id, token, now) then
      FlagResult(db.(events := db.events[id := RequeuedEvent(db.events[id], now + after)]), true)
    else FlagResult(db, false)
  }

  predicate RowsExist(db: Db, rows: seq<TaskId>) {
    forall i | 0 <= i < |rows| :: rows[i] in db.events
  }

  lemma BatchExists(db: Db, rows: seq<TaskId>, queryTime: Time)
    requires DueBatch(db, rows, queryTime)
    ensures RowsExist(db, rows)
  {
    forall i | 0 <= i < |rows| ensures rows[i] in db.events { assert DueEvent(db, rows[i], queryTime); }
  }

  /** claim_outbox_batch over the selected rows: the deliveries and the tables they leave. */
  function ClaimBatch(db: Db, rows: seq<TaskId>, leaseFor: nat, now: Time): (r: (Db, seq<Delivery>))
    requires RowsExist(db, rows)
    ensures r.0.events.Keys == db.events.Keys && |r.1| == |rows|
  {
    if rows == [] then (db, [])
    else
      var prior := ClaimBatch(db, rows[..|rows| - 1], leaseFor, now);
      var id := rows[|rows| - 1];
      (ClaimEvent(prior.0, id, leaseFor, now), prior.1 + [Delivery(id, prior.0.next)])
  }
}
