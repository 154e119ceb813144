/** A published live task keeps a message, unless a receipt hit the window between publish and acknowledgement. */
module QueueSafety {
  import opened Wrappers
  import opened Rows
  import opened Tasks
  import opened Outbox
  import opened Resume
  import opened Worker
  import opened RowInvariant
  import opened Transactions
  import opened Quiet
  import opened Deployment
  import opened Invariants
  import opened TableSafety

  predicate RetriesKnown(s: Sys) {
    forall id | id in s.db.tasks && s.db.tasks[id].state == RetryWait :: id in s.retried
  }

  predicate SameQueue(s: Sys, s': Sys) {
    && s'.messages == s.messages && s'.deleting == s.deleting && s'.publications == s.publications
    && s'.queueMode == s.queueMode && s.exposed == s'.exposed && s.retried <= s'.retried && s'.clock == s.clock
  }

  lemma LiveBefore(db: Db, db': Db, id: TaskId)
    requires Later(db, db') && id in db.tasks && id in db'.tasks && Live(db'.tasks[id])
    ensures Live(db.tasks[id])
  {
    assert TaskLater(db.tasks[id], db'.tasks[id], db.next);
  }

  lemma EventFacts(db: Db, id: TaskId, now: Time)
    requires DbOk(db, now) && id in db.tasks
    ensures id in db.events && (db.events[id].token.Some? <==> db.events[id].state == Claimed)
    ensures Live(db.tasks[id]) ==> db.events[id].state != EventCancelled
    ensures db.events[id].token.Some? ==> db.events[id].token.value < db.next
    ensures db.events[id].token.Some? ==> db.tasks[id].state == Pending || db.tasks[id].state == RetryWait
    ensures db.tasks[id].state == RetryWait && db.events[id].state == Sent ==>
              db.tasks[id].available <= now && db.tasks[id].attempts < db.tasks[id].maxAttempts
  {
    RowAt(db, id, now);
  }

  lemma PublicationLater(s: Sys, s': Sys, p: Publication)
    requires DbOk(s.db, s.clock) && TablesKept(s.db, s'.db, s.clock) && QuietEvents(s.db, s'.db) && SameQueue(s, s')
    requires PublicationOk(s, p)
    ensures PublicationOk(s', p)
  {
    var id := p.delivery.task;
    UnfoldKept(s.db, s'.db, s.clock);
    LaterNext(s.db, s'.db);
    KeptTask(s.db, s'.db, id);
    if Live(s'.db.tasks[id]) {
      LiveBefore(s.db, s'.db, id);
      EventFacts(s'.db, id, s.clock);
      assert QuietEvent(s.db, s'.db, id);
    }
  }

  lemma KeptTask(db: Db, db': Db, id: TaskId)
    requires Later(db, db') && id in db.tasks
    ensures id in db'.tasks
  {
  }

  lemma SentLater(s: Sys, s': Sys, id: TaskId)
    requires DbOk(s.db, s.clock) && TablesKept(s.db, s'.db, s.clock) && QuietEvents(s.db, s'.db) && SameQueue(s, s')
    requires id in s'.db.tasks && (id in s.db.tasks ==> SentOk(s, id))
    ensures SentOk(s', id)
  {
    if Live(s'.db.tasks[id]) && Published(s'.db, id) && id !in s'.exposed {
      assert QuietEvent(s.db, s'.db, id);
      assert s.db.tasks.Keys == s.db.events.Keys;
      UnfoldKept(s.db, s'.db, s.clock);
      hide DbOk, Later;
      LiveBefore(s.db, s'.db, id);
      assert HasMessage(s, id);
      var m :| m in s.messages && Deliverable(s, m, id);
      assert Deliverable(s', m, id);
    }
  }

  lemma QueueLater(s: Sys, s': Sys)
    requires DbOk(s.db, s.clock) && QueueOk(s) && TablesKept(s.db, s'.db, s.clock) && QuietEvents(s.db, s'.db)
    requires SameQueue(s, s') && s'.jobs == s.jobs && RetriesKnown(s')
    ensures QueueOk(s')
  {
    UnfoldKept(s.db, s'.db, s.clock);
    LaterNext(s.db, s'.db);
    hide DbOk, Later, TablesKept, QuietEvents, PublicationOk, SentOk;
    forall p | p in s'.publications ensures PublicationOk(s', p) { PublicationLater(s, s', p); }
    if s'.queueMode {
      forall id | id in s'.db.tasks ensures SentOk(s', id) { SentLater(s, s', id); }
    }
    forall job | job in s'.jobs ensures JobMessageOk(s', job) { assert JobMessageOk(s, job); }
  }

  lemma RetriesLater(s: Sys, s': Sys)
    requires QueueOk(s) && QuietRows(s.db, s'.db) && s.retried <= s'.retried
    ensures RetriesKnown(s')
  {
    forall id | id in s'.db.tasks && s'.db.tasks[id].state == RetryWait ensures id in s'.retried {
      assert QuietRow(s.db, s'.db, id);
    }
  }

  lemma QueueFrame(s: Sys, s': Sys)
    requires DbOk(s.db, s.clock) && QueueOk(s) && TablesKept(s.db, s'.db, s.clock) && QuietChange(s.db, s'.db)
    requires SameQueue(s, s') && s'.jobs == s.jobs
    ensures QueueOk(s')
  {
    hide DbOk, TablesKept, QueueOk, QuietRows, QuietEvents;
    RetriesLater(s, s');
    QueueLater(s, s');
  }

  // ---- claiming, publishing and acknowledging

  lemma ClaimPublicationQueue(s: Sys, id: TaskId, queryTime: Time)
    requires DbOk(s.db, s.clock) && QueueOk(s) && DueEvent(s.db, id, queryTime)
    ensures QueueOk(AfterClaimPublication(s, id, s.clock))
  {
    var s' := AfterClaimPublication(s, id, s.clock);
    hide DbOk;
    forall p | p in s'.publications ensures PublicationOk(s', p) {
      if p in s.publications { assert PublicationOk(s, p); }
    }
    forall x | x in s'.db.tasks && s'.queueMode ensures SentOk(s', x) {
      assert SentOk(s, x);
      if x != id && Live(s.db.tasks[x]) && Published(s.db, x) && x !in s.exposed { SameMessages(s, s', x); }
    }
    forall job | job in s'.jobs ensures JobMessageOk(s', job) { assert JobMessageOk(s, job); }
  }

  lemma SameMessages(s: Sys, s': Sys, id: TaskId)
    requires HasMessage(s, id) && s'.messages == s.messages && s'.deleting == s.deleting
    ensures HasMessage(s', id)
  {
    var m :| m in s.messages && Deliverable(s, m, id);
    assert Deliverable(s', m, id);
  }

  /** Nothing under way has come back to life. */
  lemma UndoneStays(s: Sys, s': Sys, id: TaskId)
    requires Undone(s, id) && s'.deleting >= s.deleting && (id in s'.db.events ==> id in s.db.events)
    requires id in s'.db.events ==> s'.db.events[id].token.None? || s'.db.events[id].token == s.db.events[id].token
    requires forall p | p in s.publications && p.message.Some? :: p in s'.publications
    requires forall p | p in s.publications && p.message.Some? && p.message.value in s'.messages ::
               p.message.value in s.messages && s'.messages[p.message.value] == s.messages[p.message.value]
    ensures Undone(s', id)
  {
    if id in s'.db.events && s'.db.events[id].token.Some? {
      var p :| p in s.publications && p.delivery == Delivery(id, s.db.events[id].token.value) && p.message.Some?
               && !Deliverable(s, p.message.value, id);
      assert p in s'.publications && !Deliverable(s', p.message.value, id);
    }
  }

  lemma PublishQueue(s: Sys, p: Publication)
    requires DbOk(s.db, s.clock) && JobsOk(s) && QueueOk(s) && p in s.publications && p.message.None?
    ensures QueueOk(AfterPublish(s, p))
  {
    var s' := AfterPublish(s, p);
    hide DbOk;
    assert PublicationOk(s, p);
    forall q | q in s.publications && q.message.Some? ensures q.message.value < s.db.next { assert PublicationOk(s, q); }
    forall id | id in s'.exposed ensures Undone(s', id) { UndoneStays(s, s', id); }
    hide Undone;
    forall q | q in s'.publications ensures PublicationOk(s', q) {
      if q in s.publications { assert PublicationOk(s, q); }
    }
    forall x | x in s'.db.tasks && s'.queueMode ensures SentOk(s', x) {
      assert SentOk(s, x);
      if Live(s.db.tasks[x]) && Published(s.db, x) && x !in s.exposed {
        var m :| m in s.messages && Deliverable(s, m, x);
        assert Deliverable(s', m, x);
      }
    }
    forall job | job in s'.jobs ensures JobMessageOk(s', job) { assert JobMessageOk(s, job); }
  }

  lemma AcknowledgeQueue(s: Sys, p: Publication)
    requires DbOk(s.db, s.clock) && QueueOk(s) && p in s.publications && (s.queueMode ==> p.message.Some?)
    ensures QueueOk(s.(db := Ack(s.db, p.delivery.task, p.delivery.token, s.clock).db))
  {
    var s' := s.(db := Ack(s.db, p.delivery.task, p.delivery.token, s.clock).db);
    hide DbOk;
    assert PublicationOk(s, p);
    forall q | q in s'.publications ensures PublicationOk(s', q) { assert PublicationOk(s, q); }
    forall x | x in s'.db.tasks && s'.queueMode ensures SentOk(s', x) {
      assert SentOk(s, x);
      if HasMessage(s, x) { SameMessages(s, s', x); }
    }
    forall job | job in s'.jobs ensures JobMessageOk(s', job) { assert JobMessageOk(s, job); }
  }

  // ---- receiving and deleting

  /** Deciding to delete a message costs nothing to a task that is to be published, or whose publication under way has
    * sent another message. */
  predicate NeedsNoMessage(s: Sys, m: MsgId, id: TaskId) {
    id in s.db.tasks ==>
      || !Live(s.db.tasks[id])
      || (id in s.db.events && (s.db.events[id].state == EventPending
                                || (s.db.events[id].state == Claimed && !WindowMessage(s.db, s.publications, m, id))))
  }

  /** Somebody decides to delete a message; a retry may be exposed by it. */
  function Decided(s: Sys, m: MsgId, exposed: set<TaskId>): Sys {
    s.(deleting := s.deleting + {m}, exposed := s.exposed + exposed)
  }

  lemma DecidedUndone(s: Sys, m: MsgId, exposed: set<TaskId>)
    requires QueueOk(s)
    requires forall id | id in exposed :: WindowMessage(s.db, s.publications, m, id)
    ensures forall id | id in Decided(s, m, exposed).exposed :: Undone(Decided(s, m, exposed), id)
  {
    var s' := Decided(s, m, exposed);
    forall id | id in s'.exposed ensures Undone(s', id) {
      if id in exposed {
        var p :| p in s.publications && p.delivery.task == id && p.message == Some(m)
                 && s.db.events[id].token == Some(p.delivery.token);
        assert p.delivery == Delivery(id, s.db.events[id].token.value) && !Deliverable(s', m, id);
      } else {
        UndoneStays(s, s', id);
      }
    }
  }

  lemma DecidedPublication(s: Sys, m: MsgId, exposed: set<TaskId>, p: Publication)
    requires DbOk(s.db, s.clock) && QueueOk(s) && p in s.publications
    requires m in s.messages ==> s.messages[m] in exposed || NeedsNoMessage(s, m, s.messages[m])
    ensures PublicationOk(Decided(s, m, exposed), p)
  {
    assert PublicationOk(s, p);
    EventFacts(s.db, p.delivery.task, s.clock);
    hide DbOk, QueueOk;
  }

  lemma DecideToDelete(s: Sys, m: MsgId, exposed: set<TaskId>)
    requires DbOk(s.db, s.clock) && QueueOk(s) && m < s.db.next && exposed <= s.retried
    requires m in s.messages ==> s.messages[m] in exposed || NeedsNoMessage(s, m, s.messages[m])
    requires forall id | id in exposed :: WindowMessage(s.db, s.publications, m, id)
    ensures QueueOk(Decided(s, m, exposed))
  {
    hide DbOk, Undone, WindowMessage, PublicationOk;
    var s' := Decided(s, m, exposed);
    DecidedUndone(s, m, exposed);
    forall p | p in s'.publications ensures PublicationOk(s', p) { DecidedPublication(s, m, exposed, p); }
    forall x | x in s'.db.tasks && s'.queueMode ensures SentOk(s', x) {
      assert SentOk(s, x);
      if Live(s.db.tasks[x]) && Published(s.db, x) && x !in s'.exposed {
        var k :| k in s.messages && Deliverable(s, k, x);
        assert Deliverable(s', k, x);
      }
    }
    forall job | job in s'.jobs ensures JobMessageOk(s', job) { assert JobMessageOk(s, job); }
  }

  lemma AddJobKeeps(s: Sys, job: Job)
    requires QueueOk(s) && JobMessageOk(s, job)
    ensures QueueOk(s.(jobs := s.jobs + {job}))
  {
    var s' := s.(jobs := s.jobs + {job});
    forall p | p in s'.publications ensures PublicationOk(s', p) { assert PublicationOk(s, p); }
    forall x | x in s'.db.tasks && s'.queueMode ensures SentOk(s', x) {
      assert SentOk(s, x);
      if HasMessage(s, x) { SameMessages(s, s', x); }
    }
    forall j | j in s'.jobs ensures JobMessageOk(s', j) {
      if j in s.jobs { assert JobMessageOk(s, j); }
    }
  }

  lemma ClaimPublishedQuiet(db: Db, id: TaskId, kind: Kind, now: Time)
    requires DbOk(db, now)
    ensures QuietChange(db, ClaimPublished(db, id, kind, LEASE_FOR, now).db)
    ensures TablesKept(db, ClaimPublished(db, id, kind, LEASE_FOR, now).db, now)
  {
    SameTables(db, db);
    LaterSelf(db);
    hide DbOk, Later, Tasks.Claim, QuietChange;
    if id in db.tasks && db.tasks[id].kind == kind && Published(db, id) {
      SameKeys(db, now);
      ClaimQuiet(db, id, LEASE_FOR, now);
      ClaimKeeps(db, id, LEASE_FOR, None, now);
    }
  }

  lemma SameKeys(db: Db, now: Time)
    requires DbOk(db, now)
    ensures db.tasks.Keys == db.events.Keys
  {
  }

  /** A published retry is due, so its receipt claims it: it is never thrown away. */
  lemma PublishedRetryIsClaimed(db: Db, id: TaskId, now: Time)
    requires DbOk(db, now) && id in db.tasks && db.tasks[id].state == RetryWait && Published(db, id)
    ensures ClaimPublished(db, id, db.tasks[id].kind, LEASE_FOR, now).token.Some?
  {
    EventFacts(db, id, now);
    hide DbOk;
  }

  /** Why a received message may be thrown away. */
  lemma DisposedSafely(db: Db, id: TaskId, kind: Kind, now: Time)
    requires DbOk(db, now)
    requires var r := ClaimPublished(db, id, kind, LEASE_FOR, now);
             r.token.None? && DeletesMessage(Disposed(r.db, id, kind))
    ensures var db' := ClaimPublished(db, id, kind, LEASE_FOR, now).db;
            id in db'.tasks && Live(db'.tasks[id]) ==>
              && id in db'.events
              && (db'.events[id].state == EventPending
                  || (db'.tasks[id].state == RetryWait && db'.events[id].state == Claimed))
  {
    var r := ClaimPublished(db, id, kind, LEASE_FOR, now);
    ClaimPublishedQuiet(db, id, kind, now);
    if id in r.db.tasks && Live(r.db.tasks[id]) {
      EventFacts(r.db, id, now);
      hide DbOk, ClaimPublished;
      UnclaimedSame(db, id, kind, now);
      if r.db.tasks[id].state == RetryWait && r.db.events[id].state == Sent {
        PublishedRetryIsClaimed(db, id, now);
        assert false;
      }
    }
  }

  /** A claim that yields no token leaves the tables as they are, or ends the task. */
  lemma UnclaimedSame(db: Db, id: TaskId, kind: Kind, now: Time)
    requires ClaimPublished(db, id, kind, LEASE_FOR, now).token.None?
    ensures var db' := ClaimPublished(db, id, kind, LEASE_FOR, now).db;
            db' == db || (id in db'.tasks && !Live(db'.tasks[id]))
  {
  }

  lemma ReceiveQueue(s: Sys, m: MsgId, kind: Kind)
    requires DbOk(s.db, s.clock) && QueueOk(s) && m in s.messages
    ensures QueueOk(AfterReceive(s, m, kind, s.clock))
  {
    var id := s.messages[m];
    var r := ClaimPublished(s.db, id, kind, LEASE_FOR, s.clock);
    var s1 := s.(db := r.db);
    MessageOld(s, m);
    ClaimPublishedQuiet(s.db, id, kind, s.clock);
    UnfoldKept(s.db, r.db, s.clock);
    LaterNext(s.db, r.db);
    hide DbOk, Later, QuietChange, ClaimPublished, QueueOk, TablesKept, WindowMessage;
    QueueFrame(s, s1);
    if r.token.Some? && id in r.db.tasks {
      AddJobKeeps(s1, Job(ClaimOf(r.db, id, r.token.value), Some(m), None));
    } else if DeletesMessage(Disposed(r.db, id, kind)) {
      NoTokenNoTask(s.db, id, kind, s.clock);
      DisposedSafely(s.db, id, kind, s.clock);
      DecideOrExpose(s, s1, m, id);
    }
  }

  lemma DecideOrExpose(s: Sys, s1: Sys, m: MsgId, id: TaskId)
    requires DbOk(s1.db, s1.clock) && QueueOk(s1) && m in s1.messages && s1.messages[m] == id && m < s1.db.next
    requires s1.publications == s.publications
    requires id in s1.db.tasks && Live(s1.db.tasks[id]) ==>
               id in s1.db.events && (s1.db.events[id].state == EventPending
                                      || (s1.db.tasks[id].state == RetryWait && s1.db.events[id].state == Claimed))
    ensures var exposed := if id in s1.db.tasks && s1.db.tasks[id].state == RetryWait && WindowMessage(s1.db, s.publications, m, id)
                           then s1.exposed + {id} else s1.exposed;
            QueueOk(s1.(deleting := s1.deleting + {m}, exposed := exposed))
  {
    hide DbOk, QueueOk;
    if id in s1.db.tasks && s1.db.tasks[id].state == RetryWait && WindowMessage(s1.db, s.publications, m, id) {
      RetriedAt(s1, id);
      DecideToDelete(s1, m, {id});
      assert Decided(s1, m, {id}) == s1.(deleting := s1.deleting + {m}, exposed := s1.exposed + {id});
    } else {
      DecideToDelete(s1, m, {});
      assert Decided(s1, m, {}) == s1.(deleting := s1.deleting + {m});
    }
  }

  lemma NoTokenNoTask(db: Db, id: TaskId, kind: Kind, now: Time)
    ensures var r := ClaimPublished(db, id, kind, LEASE_FOR, now); r.token.Some? ==> id in r.db.tasks
  {
  }

  lemma RetriedAt(s: Sys, id: TaskId)
    requires QueueOk(s) && id in s.db.tasks && s.db.tasks[id].state == RetryWait
    ensures id in s.retried
  {
  }

  lemma SettleQueue(s: Sys, job: Job)
    requires DbOk(s.db, s.clock) && QueueOk(s) && JobsOk(s) && job in s.jobs && job.message.Some?
    requires SettledAfterWork(s.db, job.claim.task)
    ensures QueueOk(s.(deleting := s.deleting + {job.message.value}))
  {
    assert JobMessageOk(s, job) && job.message.value < s.db.next;
    hide DbOk, QueueOk, JobsOk;
    DecideToDelete(s, job.message.value, {});
    assert Decided(s, job.message.value, {}) == s.(deleting := s.deleting + {job.message.value});
  }

  lemma DeleteMessageQueue(s: Sys, m: MsgId)
    requires QueueOk(s) && m in s.deleting
    ensures QueueOk(s.(messages := s.messages - {m}))
  {
    var s' := s.(messages := s.messages - {m});
    forall p | p in s'.publications ensures PublicationOk(s', p) { assert PublicationOk(s, p); }
    forall x | x in s'.db.tasks && s'.queueMode ensures SentOk(s', x) {
      assert SentOk(s, x);
      if HasMessage(s, x) {
        var k :| k in s.messages && Deliverable(s, k, x);
        assert Deliverable(s', k, x);
      }
    }
    forall job | job in s'.jobs ensures JobMessageOk(s', job) { assert JobMessageOk(s, job); }
  }

  lemma ReadQueue(s: Sys, job: Job, content: Option<Content>)
    requires QueueOk(s) && job in s.jobs
    ensures QueueOk(s.(jobs := s.jobs + {job.(content := content)}))
  {
    assert JobMessageOk(s, job);
    hide QueueOk;
    AddJobKeeps(s, job.(content := content));
  }

  lemma ClaimLocalQuiet(db: Db, id: TaskId, now: Time)
    requires DbOk(db, now) && id in db.tasks && Published(db, id)
    ensures QuietChange(db, ClaimLocal(db, id, now).db) && TablesKept(db, ClaimLocal(db, id, now).db, now)
  {
    SameKeys(db, now);
    SameTables(db, db);
    LaterSelf(db);
    hide DbOk, Later, QuietChange, Tasks.Claim;
    ClaimQuiet(db, id, LEASE_FOR, now);
    ClaimKeeps(db, id, LEASE_FOR, None, now);
  }

  lemma ClaimNextQueue(s: Sys, id: TaskId)
    requires DbOk(s.db, s.clock) && QueueOk(s) && id in s.db.tasks && Published(s.db, id)
    ensures QueueOk(AfterLocalClaim(s, id, s.clock))
  {
    hide DbOk, TablesKept, QuietChange, ClaimLocal, QueueOk, ClaimOf;
    var r := ClaimLocal(s.db, id, s.clock);
    ClaimLocalQuiet(s.db, id, s.clock);
    QueueFrame(s, s.(db := r.db));
    if r.token.Some? && id in r.db.tasks {
      AddJobKeeps(s.(db := r.db), Job(ClaimOf(r.db, id, r.token.value), None, None));
    }
  }

  predicate MessageAction(a: Action) {
    a.ClaimPublication? || a.Publish? || a.Acknowledge? || a.Receive? || a.Settle? || a.DeleteMessage?
    || a.ReadContent? || a.ClaimNext?
  }

  predicate EndingWork(a: Action) {
    a.FinishExtraction? || a.FinishEmbedding? || a.FailJob? || a.CommitUpload?
  }

  lemma MessageActionKeeps(env: Env, s: Sys, a: Action)
    requires DbOk(s.db, s.clock) && JobsOk(s) && QueueOk(s) && Enabled(env, s, s.clock, a) && MessageAction(a)
    ensures QueueOk(Effect(env, s, s.clock, a))
  {
    hide DbOk, QueueOk, JobsOk, AfterClaimPublication, AfterPublish, AfterReceive, AfterLocalClaim, Ack, DueEvent,
         OldestDue, SettledAfterWork, Published;
    if a.ClaimNext? { OldestIsPublished(s.db, a.id, a.kind, s.clock); }
    match a
    case ClaimPublication(id, queryTime) => ClaimPublicationQueue(s, id, queryTime);
    case Publish(p) => PublishQueue(s, p);
    case Acknowledge(p) => AcknowledgeQueue(s, p);
    case Receive(m, kind) => ReceiveQueue(s, m, kind);
    case Settle(job) => if SettledAfterWork(s.db, job.claim.task) { SettleQueue(s, job); }
    case DeleteMessage(m) => DeleteMessageQueue(s, m);
    case ReadContent(job) => ReadQueue(s, job, ApprovedContent(s.db, job.claim.owner, job.claim.revision));
    case ClaimNext(id, _) => ClaimNextQueue(s, id);
    case _ =>
  }

  lemma FinishExtractionShape(db: Db, c: Claim, draft: Draft, ttl: nat, now: Time)
    ensures var db' := CompleteExtraction(db, c, draft, ttl, now).db;
            db' == db || (var r := Complete(db, c.task, c.owner, c.revision, c.token, now).db;
                          && db'.events == r.events && db'.tasks.Keys == r.tasks.Keys
                          && forall id | id in r.tasks :: db'.tasks[id].state == r.tasks[id].state)
  {
  }

  lemma FinishEmbeddingShape(db: Db, c: Claim, version: Version, bodies: seq<ChunkBody>, now: Time)
    ensures var db' := CompleteEmbedding(db, c, version, bodies, now);
            db' == db || (var r := Complete(db, c.task, c.owner, c.revision, c.token, now).db;
                          db'.events == r.events && db'.tasks == r.tasks)
  {
    hide Complete;
  }

  /** What QueueLater needs of a step. */
  predicate QueueStep(s: Sys, s': Sys) {
    QuietEvents(s.db, s'.db) && SameQueue(s, s') && s'.jobs == s.jobs && RetriesKnown(s')
  }

  /** What QueueFrame needs of a step. */
  predicate TableStep(s: Sys, s': Sys) {
    QuietChange(s.db, s'.db) && SameQueue(s, s') && s'.jobs == s.jobs
  }

  lemma TableFacts(s: Sys)
    requires DbOk(s.db, s.clock) && QueueOk(s)
    ensures s.db.tasks.Keys == s.db.events.Keys && RetriesKnown(s)
    ensures forall id | id in s.db.tasks :: id < s.db.next
  {
  }

  lemma FinishExtractionQuiet(env: Env, s: Sys, job: Job, draft: Draft)
    requires s.db.tasks.Keys == s.db.events.Keys && RetriesKnown(s)
    ensures QueueStep(s, AfterFinishExtraction(env, s, job.claim, draft, s.clock))
  {
    var s' := AfterFinishExtraction(env, s, job.claim, draft, s.clock);
    hide QuietEvents, CompleteExtraction, WithCompletion, Doom;
    FinishExtractionShape(s.db, job.claim, draft, env.ttl, s.clock);
    FinishQuiet(s.db, s'.db, job.claim, s.clock);
  }

  lemma FinishEmbeddingQuiet(env: Env, s: Sys, job: Job, version: Version)
    requires s.db.tasks.Keys == s.db.events.Keys && RetriesKnown(s) && job.content.Some?
    ensures QueueStep(s, AfterFinishEmbedding(env, s, job, version, s.clock))
  {
    var s' := AfterFinishEmbedding(env, s, job, version, s.clock);
    hide QuietEvents, CompleteEmbedding, WithCompletion;
    FinishEmbeddingShape(s.db, job.claim, version, env.embed(version, job.content.value), s.clock);
    FinishQuiet(s.db, s'.db, job.claim, s.clock);
  }

  lemma FailJobQuiet(s: Sys, job: Job, code: FailureCode, retryable: bool)
    requires s.db.tasks.Keys == s.db.events.Keys && RetriesKnown(s)
    ensures QueueStep(s, AfterFail(s, job.claim, code, retryable, s.clock))
  {
    var s' := AfterFail(s, job.claim, code, retryable, s.clock);
    hide QuietEvents, FailClaim, Doom;
    FailClaimQuiet(s.db, job.claim, code, retryable, s.clock);
    forall id | id in s'.db.tasks && s'.db.tasks[id].state == RetryWait ensures id in s'.retried {
      if id != job.claim.task { assert QuietRow(s.db, s'.db, id); }
    }
  }

  lemma PreparedQuiet(s: Sys, user: UserId, ref: Ref, s': Sys)
    requires s.db.tasks.Keys == s.db.events.Keys && RetriesKnown(s) && (forall id | id in s.db.tasks :: id < s.db.next)
    requires user in s.db.users && Prepare(s.db, user, ref, s.clock).Some?
    requires s' == s.(db := Prepare(s.db, user, ref, s.clock).value, staged := s.staged - {ref})
    ensures QueueStep(s, s')
  {
    hide QuietEvents, Enqueue;
    EnqueueQuietEvents(s.db, user, Extraction, Upload(ref), s.db.users[user], Some(ref), s.clock);
  }

  lemma RefusedQuiet(s: Sys, ref: Ref)
    requires s.db.tasks.Keys == s.db.events.Keys && RetriesKnown(s)
    ensures QueueStep(s, s.(staged := s.staged - {ref}, doomed := s.doomed + {ref}))
  {
    SameTables(s.db, s.db);
    hide QuietEvents;
  }

  lemma CommitUploadQuiet(env: Env, s: Sys, user: UserId, ref: Ref)
    requires s.db.tasks.Keys == s.db.events.Keys && RetriesKnown(s) && (forall id | id in s.db.tasks :: id < s.db.next)
    requires Enabled(env, s, s.clock, CommitUpload(user, ref))
    ensures QueueStep(s, Effect(env, s, s.clock, CommitUpload(user, ref)))
  {
    hide QueueStep, Prepare, RetriesKnown;
    match Prepare(s.db, user, ref, s.clock)
    case None => RefusedQuiet(s, ref);
    case Some(db) => PreparedQuiet(s, user, ref, s.(db := db, staged := s.staged - {ref}));
  }

  lemma EndingWorkQuiet(env: Env, s: Sys, a: Action)
    requires DbOk(s.db, s.clock) && QueueOk(s) && Enabled(env, s, s.clock, a) && EndingWork(a)
    ensures QueueStep(s, Effect(env, s, s.clock, a))
  {
    TableFacts(s);
    hide DbOk, QueueOk, AfterFinishExtraction, AfterFinishEmbedding, AfterFail, QueueStep, RetriesKnown, Prepare;
    match a {
      case FinishExtraction(job, draft) => FinishExtractionQuiet(env, s, job, draft);
      case FinishEmbedding(job, version) => FinishEmbeddingQuiet(env, s, job, version);
      case FailJob(job, code, retryable) => FailJobQuiet(s, job, code, retryable);
      case CommitUpload(user, ref) => CommitUploadQuiet(env, s, user, ref);
      case _ =>
    }
  }

  predicate TableAction(a: Action) {
    a.Save? || a.Delete? || a.DiscardDraft? || a.CancelPublication? || a.RetryPublication? || a.CleanUp?
  }

  lemma CleanUpQuiet(env: Env, s: Sys, asOf: Time)
    requires s.db.tasks.Keys == s.db.events.Keys
    ensures TableStep(s, AfterCleanUp(env, s, asOf))
  {
    hide QuietChange, Cleaned, StaleRefs, LiveRefs;
    CleanedQuiet(s.db, env.ttl, asOf);
  }

  lemma CancelPublicationQuiet(s: Sys, id: TaskId)
    requires s.db.tasks.Keys == s.db.events.Keys && id in s.db.tasks
    requires s.db.tasks[id].state == Cancelled || s.db.tasks[id].state == Failed
    ensures TableStep(s, s.(db := CancelEvent(s.db, id)))
  {
    hide QuietChange;
    EventOnlyQuiet(s.db, CancelEvent(s.db, id), id);
  }

  lemma SaveQuiet(s: Sys, user: UserId, op: OpId, payload: Payload)
    requires DbOk(s.db, s.clock) && user in s.db.users
    ensures TableStep(s, s.(db := SaveMain(s.db, user, op, payload, s.clock).db))
  {
    SaveMainQuiet(s.db, user, op, payload, s.clock);
    hide *;
    UnfoldTableStep(s, s.(db := SaveMain(s.db, user, op, payload, s.clock).db));
  }

  lemma DeleteQuiet(s: Sys, user: UserId, expected: nat)
    requires DbOk(s.db, s.clock) && user in s.db.users
    ensures var r := DeleteResume(s.db, user, expected); TableStep(s, s.(db := r.db, doomed := s.doomed + r.refs))
  {
    SameKeys(s.db, s.clock);
    DeleteResumeQuiet(s.db, user, expected);
    hide *;
    var r := DeleteResume(s.db, user, expected);
    UnfoldTableStep(s, s.(db := r.db, doomed := s.doomed + r.refs));
  }

  lemma DiscardDraftQuiet(s: Sys, user: UserId, id: TaskId)
    requires DbOk(s.db, s.clock) && user in s.db.users
    ensures var r := Discard(s.db, user, id); TableStep(s, s.(db := r.db, doomed := Doom(s, r.ref)))
  {
    SameKeys(s.db, s.clock);
    DiscardQuiet(s.db, user, id);
    hide *;
    var r := Discard(s.db, user, id);
    UnfoldTableStep(s, s.(db := r.db, doomed := Doom(s, r.ref)));
  }

  lemma RetryQuiet(s: Sys, d: Delivery)
    requires DbOk(s.db, s.clock)
    ensures TableStep(s, s.(db := RetryEvent(s.db, d.task, d.token, RETRY_DELAY, s.clock).db))
  {
    SameKeys(s.db, s.clock);
    RetryPublicationQuiet(s.db, d, s.clock);
    hide DbOk, RetryEvent, QuietChange;
  }

  lemma UnfoldTableStep(s: Sys, s': Sys)
    ensures TableStep(s, s') <==> QuietChange(s.db, s'.db) && SameQueue(s, s') && s'.jobs == s.jobs
    ensures SameQueue(s, s') <==>
            && s'.messages == s.messages && s'.deleting == s.deleting && s'.publications == s.publications
            && s'.queueMode == s.queueMode && s.exposed == s'.exposed && s.retried <= s'.retried && s'.clock == s.clock
  {
    hide QuietChange;
  }

  lemma TableActionQuiet(env: Env, s: Sys, a: Action)
    requires DbOk(s.db, s.clock) && Enabled(env, s, s.clock, a) && TableAction(a)
    ensures TableStep(s, Effect(env, s, s.clock, a))
  {
    hide DbOk, TableStep, AfterCleanUp, SaveMain, DeleteResume, Discard, RetryEvent, CancelEvent, Doom;
    SameKeys(s.db, s.clock);
    match a
    case Save(user, op, payload) => SaveQuiet(s, user, op, payload);
    case Delete(user, expected) => DeleteQuiet(s, user, expected);
    case DiscardDraft(user, id) => DiscardDraftQuiet(s, user, id);
    case CancelPublication(id) => CancelPublicationQuiet(s, id);
    case RetryPublication(p) => RetryQuiet(s, p.delivery);
    case CleanUp(asOf) => CleanUpQuiet(env, s, asOf);
    case _ =>
  }

  lemma RetryPublicationQuiet(db: Db, d: Delivery, now: Time)
    requires db.tasks.Keys == db.events.Keys
    ensures QuietChange(db, RetryEvent(db, d.task, d.token, RETRY_DELAY, now).db)
  {
    SameTables(db, db);
    hide QuietChange;
    if HoldsEvent(db, d.task, d.token, now) {
      assert d.task in db.tasks.Keys;
      EventOnlyQuiet(db, RetryEvent(db, d.task, d.token, RETRY_DELAY, now).db, d.task);
    }
  }

  /** The remaining steps touch neither the queue nor the task tables. */
  lemma RemainingQuiet(env: Env, s: Sys, a: Action)
    requires Enabled(env, s, s.clock, a) && !MessageAction(a) && !EndingWork(a) && !TableAction(a)
    ensures var s' := Effect(env, s, s.clock, a);
            s'.db.tasks == s.db.tasks && s'.db.events == s.db.events && SameQueue(s, s') && s'.jobs == s.jobs
  {
    hide SaveMain, DeleteResume, Discard, Cleaned, StaleRefs, LiveRefs, Replay;
  }

  lemma StepKeepsQueue(env: Env, s: Sys, a: Action)
    requires SysOk(env, s) && Enabled(env, s, s.clock, a)
    ensures QueueOk(Effect(env, s, s.clock, a))
  {
    var s' := Effect(env, s, s.clock, a);
    SameKeys(s.db, s.clock);
    hide StorageOk, DbOk, QueueOk, ProfilesOk, CompletionsOk, ReadsOk, JobsOk, Effect, Enabled, TablesKept, QuietChange,
         MessageAction, EndingWork, TableAction, RetriesKnown, QuietEvents, SameQueue;
    if MessageAction(a) {
      MessageActionKeeps(env, s, a);
    } else {
      StepKeepsTables(env, s, s.clock, a);
      if EndingWork(a) {
        EndingWorkQuiet(env, s, a);
        QueueLater(s, s');
      } else {
        if TableAction(a) {
          TableActionQuiet(env, s, a);
        } else {
          RemainingQuiet(env, s, a);
          SameTables(s.db, s'.db);
        }
        QueueFrame(s, s');
      }
    }
  }
}
