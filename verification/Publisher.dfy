/** The publisher loops: publish_once (src/backend/app/processing/outbox_publisher.py) and its local
  * counterpart dispatch_outbox, and their place in the deployment.
  *
  * What one call does when nobody interferes is the fold `PublishAll` over the claimed deliveries;
  * `PublishAllIsRun` shows that it is one of the runs of `Deployment`.
  */
module Publisher {
  import opened Wrappers
  import opened Rows
  import opened Tasks
  import opened Outbox
  import opened Worker
  import opened Deployment
  import D = Database

  /** What goes wrong while one delivery is handled: nothing, the send or acknowledgement, or the reply to a send. */
  datatype Fault = NoFault | NotSent | SentUnheard

  datatype Published = Published(db: Db, messages: map<MsgId, TaskId>, sent: nat)

  predicate GivenUp(db: Db, id: TaskId) {
    id !in db.tasks || db.tasks[id].state == Cancelled || db.tasks[id].state == Failed
  }

  /** One iteration; the local queue has no transport and counts a delivery before it knows the acknowledgement. */
  function PublishOne(queueMode: bool, p: Published, d: Delivery, fault: Fault, now: Time): Published {
    if GivenUp(p.db, d.task) then p.(db := CancelEvent(p.db, d.task))
    else if fault == NotSent then p.(db := RetryEvent(p.db, d.task, d.token, RETRY_DELAY, now).db)
    else if !queueMode then
      if fault == SentUnheard then p.(db := RetryEvent(p.db, d.task, d.token, RETRY_DELAY, now).db)
      else p.(db := Ack(p.db, d.task, d.token, now).db, sent := p.sent + 1)
    else
      var db := p.db.(next := p.db.next + 1);
      var messages := p.messages[p.db.next := d.task];
      if fault == SentUnheard then Published(RetryEvent(db, d.task, d.token, RETRY_DELAY, now).db, messages, p.sent)
      else
        var r := Ack(db, d.task, d.token, now);
        Published(r.db, messages, if r.ok then p.sent + 1 else p.sent)
  }

  function PublishAll(queueMode: bool, p: Published, ds: seq<Delivery>, faults: nat -> Fault, now: Time): Published {
    if ds == [] then p
    else PublishOne(queueMode, PublishAll(queueMode, p, ds[..|ds| - 1], faults, now), ds[|ds| - 1], faults(|ds| - 1), now)
  }

  const BATCH: nat := 20

  /** A call that nobody interferes with. */
  function PublishBatch(queueMode: bool, db: Db, messages: map<MsgId, TaskId>, rows: seq<TaskId>, faults: nat -> Fault,
                        now: Time): Published
    requires RowsExist(db, rows)
  {
    var (claimed, deliveries) := ClaimBatch(db, rows, OUTBOX_LEASE, now);
    PublishAll(queueMode, Published(claimed, messages, 0), deliveries, faults, now)
  }

  class OutboxPublisher {
    const db: D.Database
    var messages: map<MsgId, TaskId>

    constructor (db: D.Database)
      ensures this.db == db && messages == map[]
    {
      this.db := db;
      messages := map[];
    }

    function State(sent: nat): Published
      reads this, db
    {
      Published(db.View(), messages, sent)
    }

    method Deliver(d: Delivery, fault: Fault, counted: nat, now: Time) returns (sent: nat)
      modifies this, db
      ensures State(sent) == PublishOne(true, old(State(counted)), d, fault, now)
    {
      sent := counted;
      if d.task !in db.tasks || db.tasks[d.task].state == Cancelled || db.tasks[d.task].state == Failed {
        db.CancelOutbox(d.task);
        return;
      }
      if fault == NotSent {
        var _ := db.RetryOutbox(d.task, d.token, RETRY_DELAY, now);
        return;
      }
      var message := db.NewUuid();
      messages := messages[message := d.task];
      if fault == SentUnheard {
        var _ := db.RetryOutbox(d.task, d.token, RETRY_DELAY, now);
      } else {
        var ok := db.AckOutbox(d.task, d.token, now);
        if ok { sent := sent + 1; }
      }
    }

    method Dispatch(d: Delivery, fault: Fault, counted: nat, now: Time) returns (sent: nat)
      modifies db
      ensures State(sent) == PublishOne(false, old(State(counted)), d, fault, now)
    {
      sent := counted;
      if d.task in db.tasks && db.tasks[d.task].state != Cancelled && db.tasks[d.task].state != Failed {
        if fault == NoFault {
          var _ := db.AckOutbox(d.task, d.token, now);
          sent := sent + 1;
        } else {
          var _ := db.RetryOutbox(d.task, d.token, RETRY_DELAY, now);
        }
      } else {
        db.CancelOutbox(d.task);
      }
    }

    /** publish_once over the rows its query returned; `faults` says what happens to each delivery. A limit of zero is
      * the ValueError. */
    method PublishOnce(rows: seq<TaskId>, limit: nat, faults: nat -> Fault, queryTime: Time, now: Time) returns (sent: nat)
      requires 0 < limit && Selected(db.View(), rows, limit, queryTime)
      modifies this, db
      ensures old(RowsExist(db.View(), rows)) && State(sent) == PublishBatch(true, old(db.View()), old(messages), rows, faults, now)
    {
      hide PublishOne, Selected;
      var deliveries := db.ClaimOutboxBatch(rows, limit, OUTBOX_LEASE, queryTime, now);
      sent := 0;
      ghost var claimed := State(0);
      assert deliveries[..0] == [];
      for n := 0 to |deliveries|
        invariant State(sent) == PublishAll(true, claimed, deliveries[..n], faults, now)
      {
        assert deliveries[..n + 1][..n] == deliveries[..n];
        sent := Deliver(deliveries[n], faults(n), sent, now);
      }
      assert deliveries[..|deliveries|] == deliveries;
    }

    /** dispatch_outbox, which publishes to the local queue. */
    method DispatchOutbox(rows: seq<TaskId>, faults: nat -> Fault, queryTime: Time, now: Time) returns (sent: nat)
      requires Selected(db.View(), rows, BATCH, queryTime)
      modifies db
      ensures old(RowsExist(db.View(), rows)) && State(sent) == PublishBatch(false, old(db.View()), messages, rows, faults, now)
    {
      hide PublishOne, Selected;
      var deliveries := db.ClaimOutboxBatch(rows, BATCH, OUTBOX_LEASE, queryTime, now);
      sent := 0;
      ghost var claimed := State(0);
      assert deliveries[..0] == [];
      for n := 0 to |deliveries|
        invariant State(sent) == PublishAll(false, claimed, deliveries[..n], faults, now)
      {
        assert deliveries[..n + 1][..n] == deliveries[..n];
        sent := Dispatch(deliveries[n], faults(n), sent, now);
      }
      assert deliveries[..|deliveries|] == deliveries;
    }
  }

  // ---- runs

  lemma {:induction false} BatchLeavesOthers(db: Db, rows: seq<TaskId>, leaseFor: nat, now: Time)
    requires RowsExist(db, rows)
    ensures var r := ClaimBatch(db, rows, leaseFor, now).0;
            r.tasks == db.tasks && forall id | id in db.events && id !in rows :: r.events[id] == db.events[id]
  {
    if rows != [] { BatchLeavesOthers(db, rows[..|rows| - 1], leaseFor, now); }
  }

  predicate Offered(s: Sys, ds: seq<Delivery>) {
    forall i | 0 <= i < |ds| :: ds[i].task in s.db.tasks && Publication(ds[i], None) in s.publications
  }

  /** What the steps of one publisher keep of the rest of the system. */
  predicate Beside(s: Sys, s': Sys, now: Time) {
    s'.queueMode == s.queueMode && s'.clock <= now && s'.db.tasks == s.db.tasks
  }

  /** What claiming keeps. */
  predicate Claiming(s: Sys, s': Sys, now: Time) {
    Beside(s, s', now) && s.publications <= s'.publications
  }

  /** Publications of other deliveries stay in their publisher's hands. */
  predicate OthersKept(s: Sys, s': Sys, ds: seq<Delivery>) {
    forall p | p in s.publications && p.delivery !in ds :: p in s'.publications
  }

  predicate Distinct(ds: seq<Delivery>) {
    forall i, j | 0 <= i < j < |ds| :: ds[i] != ds[j]
  }

  /** Claiming a batch in one transaction is a run of single claims. */
  lemma {:induction false} BatchIsRun(env: Env, s: Sys, rows: seq<TaskId>, queryTime: Time, now: Time) returns (s': Sys)
    requires DueBatch(s.db, rows, queryTime) && queryTime <= now && s.clock <= now
    ensures RowsExist(s.db, rows)
    ensures Leads(env, s, s') && Claiming(s, s', now) && s'.messages == s.messages
    ensures s'.db == ClaimBatch(s.db, rows, OUTBOX_LEASE, now).0 && Offered(s', ClaimBatch(s.db, rows, OUTBOX_LEASE, now).1)
  {
    hide Leads, DueBatch, ClaimBatch, Claiming, Offered;
    BatchExists(s.db, rows, queryTime);
    if rows == [] {
      s' := s;
      LeadsSelf(env, s);
      EmptyBatch(s, now);
    } else {
      var front := rows[..|rows| - 1];
      FrontDue(s.db, rows, queryTime);
      var mid := BatchIsRun(env, s, front, queryTime, now);
      s' := BatchMore(env, s, mid, rows, queryTime, now);
    }
  }

  lemma EmptyBatch(s: Sys, now: Time)
    requires s.clock <= now
    ensures ClaimBatch(s.db, [], OUTBOX_LEASE, now) == (s.db, []) && Claiming(s, s, now) && Offered(s, [])
  {
  }

  lemma FrontDue(db: Db, rows: seq<TaskId>, queryTime: Time)
    requires DueBatch(db, rows, queryTime) && rows != []
    ensures DueBatch(db, rows[..|rows| - 1], queryTime)
    ensures DueEvent(db, rows[|rows| - 1], queryTime) && rows[|rows| - 1] !in rows[..|rows| - 1]
  {
    hide DueEvent;
  }

  /** One more row of the batch. */
  lemma BatchMore(env: Env, s: Sys, mid: Sys, rows: seq<TaskId>, queryTime: Time, now: Time) returns (s': Sys)
    requires rows != [] && DueBatch(s.db, rows, queryTime) && queryTime <= now && s.clock <= now
    requires RowsExist(s.db, rows)
    requires var front := rows[..|rows| - 1];
             && Leads(env, s, mid) && Claiming(s, mid, now) && mid.messages == s.messages
             && mid.db == ClaimBatch(s.db, front, OUTBOX_LEASE, now).0
             && Offered(mid, ClaimBatch(s.db, front, OUTBOX_LEASE, now).1)
    ensures Leads(env, s, s') && Claiming(s, s', now) && s'.messages == s.messages
    ensures s'.db == ClaimBatch(s.db, rows, OUTBOX_LEASE, now).0 && Offered(s', ClaimBatch(s.db, rows, OUTBOX_LEASE, now).1)
  {
    hide Leads, DueBatch, DueEvent, ClaimEvent;
    var front, id := rows[..|rows| - 1], rows[|rows| - 1];
    FrontDue(s.db, rows, queryTime);
    BatchLeavesOthers(s.db, front, OUTBOX_LEASE, now);
    StillDue(s.db, mid.db, id, queryTime);
    s' := ClaimLeads(env, s, mid, id, queryTime, now);
  }

  lemma StillDue(db: Db, db': Db, id: TaskId, queryTime: Time)
    requires DueEvent(db, id, queryTime) && db'.tasks == db.tasks && id in db'.events && db'.events[id] == db.events[id]
    ensures DueEvent(db', id, queryTime)
  {
  }

  lemma ClaimLeads(env: Env, s: Sys, mid: Sys, id: TaskId, queryTime: Time, now: Time) returns (s': Sys)
    requires Leads(env, s, mid) && DueEvent(mid.db, id, queryTime) && queryTime <= now && mid.clock <= now
    ensures Leads(env, s, s') && id in mid.db.events && s'.db == ClaimEvent(mid.db, id, OUTBOX_LEASE, now)
    ensures s'.messages == mid.messages && Claiming(mid, s', now) && Publication(Delivery(id, mid.db.next), None) in s'.publications
  {
    s' := AfterClaimPublication(mid.(clock := now), id, now);
    assert Next(env, mid, Step(now, ClaimPublication(id, queryTime)), s');
    hide Leads, Next;
    LeadsNext(env, s, mid, Step(now, ClaimPublication(id, queryTime)), s');
  }

  lemma CancelNext(env: Env, s: Sys, d: Delivery, now: Time)
    requires s.clock <= now && d.task in s.db.tasks && GivenUp(s.db, d.task)
    ensures Next(env, s, Step(now, CancelPublication(d.task)), s.(clock := now, db := CancelEvent(s.db, d.task)))
  {
  }

  lemma RetryNext(env: Env, s: Sys, p: Publication, now: Time)
    requires s.clock <= now && p in s.publications
    ensures Next(env, s, Step(now, RetryPublication(p)),
                 s.(clock := now, db := RetryEvent(s.db, p.delivery.task, p.delivery.token, RETRY_DELAY, now).db))
  {
    hide RetryEvent;
  }

  lemma AckNext(env: Env, s: Sys, p: Publication, now: Time)
    requires s.clock <= now && p in s.publications && (s.queueMode ==> p.message.Some?)
    ensures Next(env, s, Step(now, Acknowledge(p)),
                 s.(clock := now, db := Ack(s.db, p.delivery.task, p.delivery.token, now).db))
  {
    hide Ack;
  }

  lemma SendNext(env: Env, s: Sys, d: Delivery, now: Time)
    requires s.clock <= now && s.queueMode && Publication(d, None) in s.publications
    ensures var s' := AfterPublish(s.(clock := now), Publication(d, None));
            && Next(env, s, Step(now, Publish(Publication(d, None))), s')
            && Publication(d, Some(s.db.next)) in s'.publications && Beside(s, s', now) && OthersKept(s, s', [d])
            && s'.db == s.db.(next := s.db.next + 1) && s'.messages == s.messages[s.db.next := d.task]
  {
  }

  lemma SettledTables(s: Sys, d: Delivery, now: Time)
    ensures RetryEvent(s.db, d.task, d.token, RETRY_DELAY, now).db.tasks == s.db.tasks
    ensures Ack(s.db, d.task, d.token, now).db.tasks == s.db.tasks && CancelEvent(s.db, d.task).tasks == s.db.tasks
  {
  }

  /** Handling one delivery is a run of at most two steps. */
  lemma PublishOneIsRun(env: Env, s: Sys, mid: Sys, d: Delivery, fault: Fault, sent: nat, now: Time) returns (s': Sys)
    requires Leads(env, s, mid) && Offered(mid, [d]) && mid.clock <= now
    ensures Leads(env, s, s') && Beside(mid, s', now) && OthersKept(mid, s', [d])
    ensures var p := PublishOne(mid.queueMode, Published(mid.db, mid.messages, sent), d, fault, now);
            s'.db == p.db && s'.messages == p.messages
  {
    hide Leads, Next, Ack, RetryEvent, CancelEvent;
    assert [d][0] == d && mid.publications == mid.(clock := now).publications;
    var at, first := mid.(clock := now), Publication(d, None);
    SettledTables(mid, d, now);
    if GivenUp(mid.db, d.task) {
      CancelNext(env, mid, d, now);
      s' := at.(db := CancelEvent(at.db, d.task));
      LeadsNext(env, s, mid, Step(now, CancelPublication(d.task)), s');
    } else if fault == NotSent || (!mid.queueMode && fault == SentUnheard) {
      RetryNext(env, mid, first, now);
      s' := at.(db := RetryEvent(at.db, d.task, d.token, RETRY_DELAY, now).db);
      LeadsNext(env, s, mid, Step(now, RetryPublication(first)), s');
    } else if !mid.queueMode {
      AckNext(env, mid, first, now);
      s' := at.(db := Ack(at.db, d.task, d.token, now).db);
      LeadsNext(env, s, mid, Step(now, Acknowledge(first)), s');
    } else {
      s' := SendThenSettle(env, s, mid, d, fault, now);
    }
  }

  lemma SendThenSettle(env: Env, s: Sys, mid: Sys, d: Delivery, fault: Fault, now: Time) returns (s': Sys)
    requires Leads(env, s, mid) && Publication(d, None) in mid.publications && mid.clock <= now && mid.queueMode
    ensures Leads(env, s, s') && Beside(mid, s', now) && OthersKept(mid, s', [d])
    ensures var db := mid.db.(next := mid.db.next + 1);
            && s'.messages == mid.messages[mid.db.next := d.task]
            && s'.db == if fault == SentUnheard then RetryEvent(db, d.task, d.token, RETRY_DELAY, now).db
                        else Ack(db, d.task, d.token, now).db
  {
    hide Leads, Next, Ack, RetryEvent, AfterPublish;
    var first, second := Publication(d, None), Publication(d, Some(mid.db.next));
    var sent := AfterPublish(mid.(clock := now), first);
    SendNext(env, mid, d, now);
    LeadsNext(env, s, mid, Step(now, Publish(first)), sent);
    SettledTables(sent, d, now);
    assert sent.clock <= now;
    if fault == SentUnheard {
      RetryNext(env, sent, second, now);
      s' := sent.(clock := now, db := RetryEvent(sent.db, d.task, d.token, RETRY_DELAY, now).db);
      LeadsNext(env, s, sent, Step(now, RetryPublication(second)), s');
    } else {
      AckNext(env, sent, second, now);
      s' := sent.(clock := now, db := Ack(sent.db, d.task, d.token, now).db);
      LeadsNext(env, s, sent, Step(now, Acknowledge(second)), s');
    }
  }

  lemma {:induction false} PublishAllIsRun(env: Env, s: Sys, mid: Sys, ds: seq<Delivery>, faults: nat -> Fault, now: Time)
    returns (s': Sys)
    requires Leads(env, s, mid) && Offered(mid, ds) && Distinct(ds) && mid.clock <= now
    ensures Leads(env, s, s') && Beside(mid, s', now) && OthersKept(mid, s', ds)
    ensures var p := PublishAll(mid.queueMode, Published(mid.db, mid.messages, 0), ds, faults, now);
            s'.db == p.db && s'.messages == p.messages
  {
    hide Leads, PublishOne;
    if ds == [] {
      s' := mid;
    } else {
      var front, d := ds[..|ds| - 1], ds[|ds| - 1];
      assert Offered(mid, front) && d !in front;
      var next := PublishAllIsRun(env, s, mid, front, faults, now);
      var p := PublishAll(mid.queueMode, Published(mid.db, mid.messages, 0), front, faults, now);
      assert Offered(next, [d]);
      s' := PublishOneIsRun(env, s, next, d, faults(|ds| - 1), p.sent, now);
    }
  }

  /** A whole publisher call, transport faults included, is a run of the deployment. */
  lemma PublishBatchIsRun(env: Env, s: Sys, rows: seq<TaskId>, limit: nat, faults: nat -> Fault, queryTime: Time, now: Time)
    returns (s': Sys)
    requires Selected(s.db, rows, limit, queryTime) && queryTime <= now && s.clock <= now
    ensures RowsExist(s.db, rows)
    ensures Leads(env, s, s')
    ensures var p := PublishBatch(s.queueMode, s.db, s.messages, rows, faults, now);
            s'.db == p.db && s'.messages == p.messages
  {
    var mid := BatchIsRun(env, s, rows, queryTime, now);
    D.BatchContents(s.db, rows, OUTBOX_LEASE, now);
    hide Leads, PublishAll, ClaimBatch;
    s' := PublishAllIsRun(env, s, mid, ClaimBatch(s.db, rows, OUTBOX_LEASE, now).1, faults, now);
  }
}
