/** After a recorded retry a published task can be left without a message.
  *
  * run_queue_message throws a message away whenever its row is RETRY_WAIT, also while the publisher
  * that sent it has not acknowledged yet. `WindowReceiptLoses` shows that every such receipt of a
  * task's only message loses the task's delivery, and `LossIsReachable` that such states occur.
  */
module LostMessage {
  import opened Wrappers
  import opened Rows
  import opened Tasks
  import opened Outbox
  import opened Resume
  import opened Worker
  import opened Deployment

  /** The task waits for its retry, a publisher has sent its only message and not yet acknowledged. */
  predicate InWindow(s: Sys, p: Publication, m: MsgId) {
    var id := p.delivery.task;
    && s.queueMode && p in s.publications && p.message == Some(m)
    && id in s.db.tasks && s.db.tasks[id].state == RetryWait && HoldsEvent(s.db, id, p.delivery.token, s.clock)
    && m in s.messages && s.messages[m] == id && (forall k | k in s.messages && s.messages[k] == id :: k == m)
  }

  predicate Lost(s: Sys, id: TaskId) {
    && id in s.db.tasks && Live(s.db.tasks[id]) && Published(s.db, id)
    && forall k | k in s.messages :: s.messages[k] != id
  }

  /** Receiving that message now, deleting it and acknowledging leaves the task published without any message. */
  lemma WindowReceiptLoses(env: Env, s: Sys, p: Publication, m: MsgId)
    requires InWindow(s, p, m)
    ensures var id := p.delivery.task;
            var s1 := AfterReceive(s, m, s.db.tasks[id].kind, s.clock);
            var s2 := s1.(messages := s1.messages - {m});
            var s3 := s2.(db := Ack(s2.db, id, p.delivery.token, s2.clock).db);
            && Next(env, s, Step(s.clock, Receive(m, s.db.tasks[id].kind)), s1)
            && Next(env, s1, Step(s.clock, DeleteMessage(m)), s2)
            && Next(env, s2, Step(s.clock, Acknowledge(p)), s3)
            && s1.exposed == s.exposed + {id} && Lost(s3, id)
  {
  }

  // ---- a run that gets there

  const TASK := NewTask(0, Extraction, Upload(0), 0, Some(0), MAX_ATTEMPTS, 0)
  const JOB := Job(Claim.Claim(1, 0, Extraction, 0, 4, Some(0)), Some(3), None)

  function Stored(): Sys {
    Init(true, 0).(db := EmptyDb().(users := map[0 := 0], next := 1), objects := map[0 := 0], staged := map[0 := 0])
  }

  function Queued(): Sys {
    Stored().(db := Stored().db.(tasks := map[1 := TASK], events := map[1 := NewEvent(0)], next := 2), staged := map[])
  }

  function Offered(): Sys {
    Queued().(db := Queued().db.(events := map[1 := ClaimedEvent(NewEvent(0), 2, OUTBOX_LEASE)], next := 4),
              messages := map[3 := 1],
              publications := {Publication(Delivery(1, 2), Some(3))})
  }

  function Sent1(): Event {
    ClaimedEvent(NewEvent(0), 2, OUTBOX_LEASE).(state := Sent, token := None, leaseEnd := None)
  }

  function Working(): Sys {
    Offered().(db := Offered().db.(tasks := map[1 := ClaimedTask(TASK, 4, LEASE_FOR)], events := map[1 := Sent1()], next := 5),
               jobs := {JOB})
  }

  function Waiting(): Sys {
    Working().(db := Working().db.(
                 tasks := map[1 := RetriedTask(ClaimedTask(TASK, 4, LEASE_FOR), HandlerCode(0), RETRY_DELAY)],
                 events := map[1 := RequeuedEvent(Sent1(), RETRY_DELAY)]),
               retried := {1}, deleting := {3}, messages := map[])
  }

  function Window(): Sys {
    Waiting().(db := Waiting().db.(
                 events := map[1 := ClaimedEvent(RequeuedEvent(Sent1(), RETRY_DELAY), 5, RETRY_DELAY + OUTBOX_LEASE)], next := 7),
               clock := RETRY_DELAY, messages := map[6 := 1],
               publications := Waiting().publications + {Publication(Delivery(1, 5), Some(6))})
  }

  lemma ReachStored(env: Env)
    ensures Reachable(env, Stored())
  {
    ReachInit(env, true);
    var s0 := Init(true, 0);
    var s1 := s0.(db := s0.db.(users := map[0 := 0]));
    assert s0.db.users[0 := 0] == map[0 := 0];
    ReachNext(env, s0, Step(0, CreateUser(0)), s1);
    assert s1.objects[0 := 0] == map[0 := 0] && s1.staged[0 := 0] == map[0 := 0];
    ReachNext(env, s1, Step(0, StoreUpload), Stored());
  }

  lemma ReachQueued(env: Env)
    requires 0 < env.ttl
    ensures Reachable(env, Queued())
  {
    ReachStored(env);
    var s := Stored();
    hide Reachable;
    assert s.db.tasks[1 := TASK] == map[1 := TASK] && s.db.events[1 := NewEvent(0)] == map[1 := NewEvent(0)];
    assert Prepare(s.db, 0, 0, 0) == Some(Queued().db);
    assert s.staged - {0} == map[];
    ReachNext(env, s, Step(0, CommitUpload(0, 0)), Queued());
  }

  lemma ReachOffered(env: Env)
    requires 0 < env.ttl
    ensures Reachable(env, Offered())
  {
    ReachQueued(env);
    var s := Queued();
    hide Reachable;
    var s1 := AfterClaimPublication(s, 1, 0);
    assert s1.db.events == map[1 := ClaimedEvent(NewEvent(0), 2, OUTBOX_LEASE)];
    ReachNext(env, s, Step(0, ClaimPublication(1, 0)), s1);
    assert AfterPublish(s1, Publication(Delivery(1, 2), None)).messages == map[3 := 1];
    assert AfterPublish(s1, Publication(Delivery(1, 2), None)).publications == Offered().publications;
    ReachNext(env, s1, Step(0, Publish(Publication(Delivery(1, 2), None))), Offered());
  }

  lemma ReachWorking(env: Env)
    requires 0 < env.ttl
    ensures Reachable(env, Working())
  {
    ReachOffered(env);
    var s := Offered();
    hide Reachable;
    var s1 := s.(db := s.db.(events := map[1 := Sent1()]));
    assert s.db.events[1 := Sent1()] == map[1 := Sent1()];
    ReachNext(env, s, Step(0, Acknowledge(Publication(Delivery(1, 2), Some(3)))), s1);
    ReceiveFirst(env, s1);
    ReachNext(env, s1, Step(0, Receive(3, Extraction)), Working());
  }

  lemma ReceiveFirst(env: Env, s: Sys)
    requires s == Offered().(db := Offered().db.(events := map[1 := Sent1()]))
    ensures AfterReceive(s, 3, Extraction, 0) == Working()
  {
    assert s.db.tasks[1 := ClaimedTask(TASK, 4, LEASE_FOR)] == map[1 := ClaimedTask(TASK, 4, LEASE_FOR)];
    var r := ClaimPublished(s.db, 1, Extraction, LEASE_FOR, 0);
    assert r.db == Working().db && r.token == Some(4);
    assert ClaimOf(r.db, 1, 4) == JOB.claim;
  }

  function Failed1(): Sys {
    Working().(db := Waiting().db, retried := {1})
  }

  lemma ReachFailed(env: Env)
    requires 0 < env.ttl
    ensures Reachable(env, Failed1())
  {
    ReachWorking(env);
    FailFirst(env, Working());
    hide Reachable, AfterFail, Waiting;
    ReachNext(env, Working(), Step(0, FailJob(JOB, HandlerCode(0), true)), Failed1());
  }

  lemma SettleFirst(env: Env)
    ensures Next(env, Failed1(), Step(0, Settle(JOB)), Failed1().(deleting := {3}))
  {
    assert SettledAfterWork(Failed1().db, 1);
  }

  lemma DeleteFirst(env: Env)
    ensures Next(env, Failed1().(deleting := {3}), Step(0, DeleteMessage(3)), Waiting())
  {
    assert Failed1().messages - {3} == map[];
  }

  lemma ReachWaiting(env: Env)
    requires 0 < env.ttl
    ensures Reachable(env, Waiting())
  {
    hide *;
    ReachFailed(env);
    SettleFirst(env);
    ReachNext(env, Failed1(), Step(0, Settle(JOB)), Failed1().(deleting := {3}));
    DeleteFirst(env);
    ReachNext(env, Failed1().(deleting := {3}), Step(0, DeleteMessage(3)), Waiting());
  }

  lemma FailFirst(env: Env, s: Sys)
    requires s == Working()
    ensures AfterFail(s, JOB.claim, HandlerCode(0), true, 0) == s.(db := Waiting().db, retried := {1})
  {
    var r := Fail(s.db, 1, 0, 4, HandlerCode(0), true, RETRY_DELAY, None, 0);
    assert r.db.tasks == Waiting().db.tasks && r.db.events == Waiting().db.events;
  }

  lemma ReachWindow(env: Env)
    requires 0 < env.ttl
    ensures Reachable(env, Window())
  {
    ReachWaiting(env);
    var s := Waiting();
    hide Reachable;
    var at := s.(clock := RETRY_DELAY);
    var s1 := AfterClaimPublication(at, 1, RETRY_DELAY);
    assert s1.db.events == Window().db.events;
    ReachNext(env, s, Step(RETRY_DELAY, ClaimPublication(1, RETRY_DELAY)), s1);
    var p := Publication(Delivery(1, 5), None);
    assert AfterPublish(s1, p).messages == map[6 := 1];
    assert AfterPublish(s1, p).publications == Window().publications;
    ReachNext(env, s1, Step(RETRY_DELAY, Publish(p)), Window());
  }

  /** A reachable state of queue mode in which a live task is published and has no message at all. */
  lemma LossIsReachable(env: Env)
    requires 0 < env.ttl
    ensures exists s :: Reachable(env, s) && s.queueMode && Lost(s, 1)
  {
    ReachWindow(env);
    var s, p := Window(), Publication(Delivery(1, 5), Some(6));
    assert InWindow(s, p, 6);
    WindowReceiptLoses(env, s, p, 6);
    hide Next, Reachable, InWindow, Lost;
    var s1 := AfterReceive(s, 6, s.db.tasks[1].kind, s.clock);
    var s2 := s1.(messages := s1.messages - {6});
    var s3 := s2.(db := Ack(s2.db, 1, 5, s2.clock).db);
    ReachNext(env, s, Step(s.clock, Receive(6, s.db.tasks[1].kind)), s1);
    ReachNext(env, s1, Step(s.clock, DeleteMessage(6)), s2);
    ReachNext(env, s2, Step(s.clock, Acknowledge(p)), s3);
    assert s3.queueMode;
  }
}
