/** Runs that finish an extraction: every one that can finish does so in some run, whatever else is in the tables. */
module DraftRuns {
  import opened Wrappers
  import opened Rows
  import opened Tasks
  import opened Outbox
  import opened Resume
  import opened Worker
  import opened RowInvariant
  import opened Deployment
  import opened Invariants
  import DeploymentTheorems
  import opened DraftStuck

  /** An extraction that a request at this revision is waiting for, with the request's key still free. */
  predicate Wanted(s: Sys, id: TaskId, user: UserId, op: OpId, expected: nat) {
    && user in s.db.users && s.db.users[user] == expected && (user, op) !in s.db.ops
    && id in s.db.tasks && s.db.tasks[id].kind == Extraction && Live(s.db.tasks[id])
    && s.db.tasks[id].owner == user && s.db.tasks[id].revision == expected
  }

  /** Some run leads here, and the extraction is still wanted. */
  ghost predicate Reached(env: Env, start: Sys, s: Sys, id: TaskId, user: UserId, op: OpId, expected: nat) {
    Leads(env, start, s) && SysOk(env, s) && Wanted(s, id, user, op, expected)
  }

  lemma Advance(env: Env, start: Sys, s: Sys, step: Step, s': Sys, id: TaskId, user: UserId, op: OpId, expected: nat)
    requires Reached(env, start, s, id, user, op, expected) && Next(env, s, step, s') && Wanted(s', id, user, op, expected)
    ensures Reached(env, start, s', id, user, op, expected)
  {
    hide Leads, SysOk, Next, Wanted;
    LeadsNext(env, start, s, step, s');
    DeploymentTheorems.StepKeeps(env, s, step, s');
  }

  /** The same for a step at the current time. */
  lemma Go(env: Env, start: Sys, s: Sys, a: Action, id: TaskId, user: UserId, op: OpId, expected: nat)
    requires Reached(env, start, s, id, user, op, expected) && Enabled(env, s, s.clock, a)
    requires Wanted(Effect(env, s, s.clock, a), id, user, op, expected)
    ensures Reached(env, start, Effect(env, s, s.clock, a), id, user, op, expected)
  {
    hide Reached, Effect, Enabled, Wanted;
    assert s.(clock := s.clock) == s;
    Advance(env, start, s, Step(s.clock, a), Effect(env, s, s.clock, a), id, user, op, expected);
  }

  lemma ReachedRow(env: Env, start: Sys, s: Sys, id: TaskId, user: UserId, op: OpId, expected: nat)
    requires Reached(env, start, s, id, user, op, expected)
    ensures Wanted(s, id, user, op, expected) && id in s.db.events && RowOk(s.db.tasks[id], s.db.events[id], s.db.next, s.clock)
    ensures id < s.db.next
  {
    TablesOf(env, s);
    hide SysOk, Leads, Wanted;
    RowAt(s.db, id, s.clock);
  }

  // ---- waiting

  function Waited(s: Sys, now: Time): Sys {
    s.(clock := now, db := s.db.(next := s.db.next + 1), objects := s.objects[s.db.next := now], staged := s.staged[s.db.next := now])
  }

  lemma Wait(env: Env, start: Sys, s: Sys, now: Time, id: TaskId, user: UserId, op: OpId, expected: nat)
    requires Reached(env, start, s, id, user, op, expected) && s.clock <= now
    ensures Reached(env, start, Waited(s, now), id, user, op, expected)
  {
    hide Leads, SysOk;
    assert Next(env, s, Step(now, StoreUpload), Waited(s, now));
    hide Next;
    Advance(env, start, s, Step(now, StoreUpload), Waited(s, now), id, user, op, expected);
  }

  function Latest(a: Time, b: Time): Time { if a >= b then a else b }

  /** When a lease is over at the latest. */
  function After(a: Time, lease: Option<Time>): Time {
    if lease.Some? then Latest(a, lease.value) else a
  }

  // ---- publishing

  /** The task is as it was, and published; in queue mode a message names it. */
  predicate Ready(s: Sys, id: TaskId) {
    Published(s.db, id) && (s.queueMode ==> exists m | m in s.messages :: s.messages[m] == id)
  }

  /** A step that leaves the rows of the tasks, the accounts and the operations alone. */
  predicate Beside(s: Sys, s': Sys) {
    && s'.db.tasks == s.db.tasks && s'.db.users == s.db.users && s'.db.ops == s.db.ops
    && s'.queueMode == s.queueMode && s'.clock == s.clock
  }

  lemma StillWanted(s: Sys, s': Sys, id: TaskId, user: UserId, op: OpId, expected: nat)
    requires Wanted(s, id, user, op, expected) && Beside(s, s')
    ensures Wanted(s', id, user, op, expected)
  {
  }

  lemma GoBeside(env: Env, start: Sys, s: Sys, a: Action, id: TaskId, user: UserId, op: OpId, expected: nat)
    requires Reached(env, start, s, id, user, op, expected) && Enabled(env, s, s.clock, a)
    requires Beside(s, Effect(env, s, s.clock, a))
    ensures Reached(env, start, Effect(env, s, s.clock, a), id, user, op, expected)
  {
    hide Leads, SysOk, Effect, Enabled, Wanted, Beside;
    StillWanted(s, Effect(env, s, s.clock, a), id, user, op, expected);
    Go(env, start, s, a, id, user, op, expected);
  }

  lemma OfferEffect(env: Env, s: Sys, id: TaskId)
    requires DueEvent(s.db, id, s.clock)
    ensures Enabled(env, s, s.clock, ClaimPublication(id, s.clock))
    ensures var s' := Effect(env, s, s.clock, ClaimPublication(id, s.clock));
            && Beside(s, s') && Publication(Delivery(id, s.db.next), None) in s'.publications
            && HoldsEvent(s'.db, id, s.db.next, s.clock)
  {
  }

  lemma SendEffect(env: Env, s: Sys, p: Publication)
    requires s.queueMode && p in s.publications && p.message.None?
    ensures Enabled(env, s, s.clock, Publish(p))
    ensures var s' := Effect(env, s, s.clock, Publish(p));
            && Beside(s, s') && p.(message := Some(s.db.next)) in s'.publications && s'.db.events == s.db.events
            && s.db.next in s'.messages && s'.messages[s.db.next] == p.delivery.task
  {
  }

  lemma AckEffect(env: Env, s: Sys, p: Publication)
    requires p in s.publications && (s.queueMode ==> p.message.Some?)
    requires HoldsEvent(s.db, p.delivery.task, p.delivery.token, s.clock)
    ensures Enabled(env, s, s.clock, Acknowledge(p))
    ensures var s' := Effect(env, s, s.clock, Acknowledge(p));
            Beside(s, s') && Published(s'.db, p.delivery.task) && s'.messages == s.messages
  {
  }

  lemma Offer(env: Env, start: Sys, s: Sys, id: TaskId, user: UserId, op: OpId, expected: nat) returns (s': Sys)
    requires Reached(env, start, s, id, user, op, expected) && DueEvent(s.db, id, s.clock)
    ensures Reached(env, start, s', id, user, op, expected) && Ready(s', id)
    ensures s'.db.tasks == s.db.tasks && s'.queueMode == s.queueMode
  {
    hide Reached, Effect, Enabled, Published, DueEvent, HoldsEvent;
    OfferEffect(env, s, id);
    var s1 := Effect(env, s, s.clock, ClaimPublication(id, s.clock));
    var p := Publication(Delivery(id, s.db.next), None);
    GoBeside(env, start, s, ClaimPublication(id, s.clock), id, user, op, expected);
    if s.queueMode {
      s' := SendAndAcknowledge(env, start, s1, p, id, user, op, expected);
    } else {
      AckEffect(env, s1, p);
      GoBeside(env, start, s1, Acknowledge(p), id, user, op, expected);
      s' := Effect(env, s1, s1.clock, Acknowledge(p));
    }
  }

  lemma SendAndAcknowledge(env: Env, start: Sys, s: Sys, p: Publication, id: TaskId, user: UserId, op: OpId, expected: nat)
    returns (s': Sys)
    requires Reached(env, start, s, id, user, op, expected) && s.queueMode && p in s.publications && p.message.None?
    requires p.delivery.task == id && HoldsEvent(s.db, id, p.delivery.token, s.clock)
    ensures Reached(env, start, s', id, user, op, expected) && Ready(s', id)
    ensures s'.db.tasks == s.db.tasks && s'.queueMode == s.queueMode
  {
    hide Reached, Effect, Enabled, Published;
    var q := p.(message := Some(s.db.next));
    SendEffect(env, s, p);
    GoBeside(env, start, s, Publish(p), id, user, op, expected);
    var s1 := Effect(env, s, s.clock, Publish(p));
    assert HoldsEvent(s1.db, id, p.delivery.token, s1.clock);
    hide HoldsEvent;
    AckEffect(env, s1, q);
    GoBeside(env, start, s1, Acknowledge(q), id, user, op, expected);
    s' := Effect(env, s1, s1.clock, Acknowledge(q));
    assert s'.messages[s.db.next] == id;
  }

  lemma Send(env: Env, start: Sys, s: Sys, p: Publication, id: TaskId, user: UserId, op: OpId, expected: nat) returns (s': Sys)
    requires Reached(env, start, s, id, user, op, expected) && s.queueMode && Published(s.db, id)
    requires p in s.publications && p.delivery.task == id && p.message.None?
    ensures Reached(env, start, s', id, user, op, expected) && Ready(s', id)
    ensures s'.db.tasks == s.db.tasks && s'.queueMode == s.queueMode
  {
    hide Reached, Effect, Enabled;
    SendEffect(env, s, p);
    GoBeside(env, start, s, Publish(p), id, user, op, expected);
    s' := Effect(env, s, s.clock, Publish(p));
  }

  /** An extraction that has to be claimed again, and can, gets ready to be. */
  lemma GetReady(env: Env, start: Sys, s: Sys, id: TaskId, user: UserId, op: OpId, expected: nat) returns (s': Sys)
    requires Reached(env, start, s, id, user, op, expected) && (!s.queueMode || !Published(s.db, id) || Receivable(s, id))
    ensures Reached(env, start, s', id, user, op, expected) && Ready(s', id)
    ensures s'.db.tasks == s.db.tasks && s'.queueMode == s.queueMode
  {
    hide Reached, Published, Receivable;
    if !Published(s.db, id) {
      s' := PublishFirst(env, start, s, id, user, op, expected);
    } else if s.queueMode && !exists m | m in s.messages :: s.messages[m] == id {
      var p := Unsent(s, id);
      s' := Send(env, start, s, p, id, user, op, expected);
    } else {
      s' := s;
    }
  }

  lemma Unsent(s: Sys, id: TaskId) returns (p: Publication)
    requires Receivable(s, id) && !exists m | m in s.messages :: s.messages[m] == id
    ensures p in s.publications && p.delivery.task == id && p.message.None?
  {
    p :| p in s.publications && p.delivery.task == id && p.message.None?;
  }

  lemma DueThen(t: Task, e: Event, next: nat, clock: Time)
    requires RowOk(t, e, next, clock) && Live(t) && e.state != Sent
    ensures var now := After(Latest(clock, e.available), e.leaseEnd);
            && clock <= now && e.available <= now && (t.state == Pending || t.state == RetryWait)
            && (e.state == EventPending || (e.state == Claimed && e.leaseEnd.Some? && e.leaseEnd.value <= now))
  {
  }

  lemma PublishFirst(env: Env, start: Sys, s: Sys, id: TaskId, user: UserId, op: OpId, expected: nat) returns (s': Sys)
    requires Reached(env, start, s, id, user, op, expected) && !Published(s.db, id)
    ensures Reached(env, start, s', id, user, op, expected) && Ready(s', id)
    ensures s'.db.tasks == s.db.tasks && s'.queueMode == s.queueMode
  {
    ReachedRow(env, start, s, id, user, op, expected);
    var e := s.db.events[id];
    var now := After(Latest(s.clock, e.available), e.leaseEnd);
    DueThen(s.db.tasks[id], e, s.db.next, s.clock);
    hide Reached, RowOk, After, Latest, Live;
    Wait(env, start, s, now, id, user, op, expected);
    s' := Offer(env, start, Waited(s, now), id, user, op, expected);
  }

  // ---- claiming

  /** No other extraction is live. */
  function Rivals(s: Sys, id: TaskId): set<TaskId> {
    set x | x in s.db.tasks.Keys && x != id && s.db.tasks[x].kind == Extraction && Live(s.db.tasks[x])
  }

  /** The owners of all other live extractions discard them. */
  lemma {:induction false} ClearTheWay(env: Env, start: Sys, s: Sys, id: TaskId, user: UserId, op: OpId, expected: nat) returns (s': Sys)
    requires Reached(env, start, s, id, user, op, expected) && Published(s.db, id)
    ensures Reached(env, start, s', id, user, op, expected) && Published(s'.db, id) && Rivals(s', id) == {}
    ensures s'.db.tasks[id] == s.db.tasks[id] && s'.queueMode == s.queueMode && s'.clock == s.clock
    decreases |Rivals(s, id)|
  {
    hide Leads, SysOk, Wanted, Reached;
    if Rivals(s, id) == {} {
      s' := s;
      ReachedRow(env, start, s, id, user, op, expected);
    } else {
      var x :| x in Rivals(s, id);
      var s1 := DiscardRival(env, start, s, x, id, user, op, expected);
      assert Rivals(s1, id) < Rivals(s, id);
      FewerRivals(Rivals(s1, id), Rivals(s, id));
      s' := ClearTheWay(env, start, s1, id, user, op, expected);
    }
  }

  lemma FewerRivals(a: set<TaskId>, b: set<TaskId>)
    requires a < b
    ensures |a| < |b|
  {
    var x :| x in b && x !in a;
    assert a <= b - {x};
    Smaller(a, b - {x});
  }

  lemma {:induction false} Smaller(a: set<TaskId>, b: set<TaskId>)
    requires a <= b
    ensures |a| <= |b|
  {
    if a != {} {
      var x :| x in a;
      Smaller(a - {x}, b - {x});
    }
  }

  lemma DiscardTables(db: Db, owner: UserId, x: TaskId)
    requires x in db.tasks && db.tasks[x].owner == owner && db.tasks[x].kind == Extraction
    ensures var r := Discard(db, owner, x).db;
            && r.users == db.users && r.ops == db.ops && r.tasks.Keys == db.tasks.Keys && !Live(r.tasks[x])
            && (forall y | y in db.tasks && y != x :: r.tasks[y] == db.tasks[y] && Published(r, y) == Published(db, y))
  {
  }

  lemma DiscardEffect(env: Env, s: Sys, owner: UserId, x: TaskId)
    requires owner in s.db.users
    ensures Enabled(env, s, s.clock, DiscardDraft(owner, x))
    ensures var s' := Effect(env, s, s.clock, DiscardDraft(owner, x));
            s'.db == Discard(s.db, owner, x).db && s'.queueMode == s.queueMode && s'.clock == s.clock
  {
    hide Discard, Doom;
  }

  lemma OwnerOf(env: Env, s: Sys, x: TaskId)
    requires SysOk(env, s) && x in s.db.tasks
    ensures s.db.tasks[x].owner in s.db.users
  {
    TablesOf(env, s);
    hide SysOk;
    assert Linked(s.db, s.db.tasks[x]);
  }

  lemma OneRivalLess(s: Sys, s': Sys, x: TaskId, id: TaskId)
    requires s'.db.tasks.Keys == s.db.tasks.Keys && x in s.db.tasks && !Live(s'.db.tasks[x])
    requires forall y | y in s.db.tasks && y != x :: s'.db.tasks[y] == s.db.tasks[y]
    ensures Rivals(s', id) == Rivals(s, id) - {x}
  {
    hide Live;
  }

  lemma DiscardRival(env: Env, start: Sys, s: Sys, x: TaskId, id: TaskId, user: UserId, op: OpId, expected: nat) returns (s': Sys)
    requires Reached(env, start, s, id, user, op, expected) && Published(s.db, id) && x in Rivals(s, id)
    ensures Reached(env, start, s', id, user, op, expected) && Published(s'.db, id) && id in s'.db.tasks && id in s.db.tasks
    ensures s'.db.tasks[id] == s.db.tasks[id] && s'.queueMode == s.queueMode && s'.clock == s.clock
    ensures Rivals(s', id) == Rivals(s, id) - {x}
  {
    hide Leads, SysOk, Effect, Enabled, Discard, Published, Live;
    var owner := s.db.tasks[x].owner;
    OwnerOf(env, s, x);
    DiscardEffect(env, s, owner, x);
    DiscardTables(s.db, owner, x);
    s' := Effect(env, s, s.clock, DiscardDraft(owner, x));
    OneRivalLess(s, s', x, id);
    hide Rivals;
    Go(env, start, s, DiscardDraft(owner, x), id, user, op, expected);
  }

  /** Claimed: the lease is held, and the extraction is still wanted. */
  lemma Claim(env: Env, start: Sys, s: Sys, id: TaskId, user: UserId, op: OpId, expected: nat) returns (s': Sys)
    requires Reached(env, start, s, id, user, op, expected) && Ready(s, id)
    requires s.db.tasks[id].attempts < s.db.tasks[id].maxAttempts
    ensures Reached(env, start, s', id, user, op, expected) && Held(s', id)
  {
    ReachedRow(env, start, s, id, user, op, expected);
    var t := s.db.tasks[id];
    var now := After(Latest(s.clock, t.available), t.leaseEnd);
    ClaimableThen(t, s.db.events[id], s.db.next, s.clock);
    hide Reached, Wanted, Leads, SysOk, Held, RowOk, Claimable, After, Latest, Live;
    Wait(env, start, s, now, id, user, op, expected);
    var s1 := Waited(s, now);
    if s.queueMode {
      var m :| m in s1.messages && s1.messages[m] == id;
      s' := ClaimMessage(env, start, s1, m, id, user, op, expected);
    } else {
      var s2 := ClearTheWay(env, start, s1, id, user, op, expected);
      s' := ClaimLocally(env, start, s2, id, user, op, expected);
    }
  }

  lemma ClaimableThen(t: Task, e: Event, next: nat, clock: Time)
    requires RowOk(t, e, next, clock) && Live(t)
    ensures var now := After(Latest(clock, t.available), t.leaseEnd); clock <= now && Claimable(t, now)
  {
  }

  lemma TokenTaken(db: Db, id: TaskId, now: Time)
    requires id in db.tasks && Claimable(db.tasks[id], now) && db.tasks[id].attempts < db.tasks[id].maxAttempts
    ensures Tasks.Claim(db, id, db.tasks[id].owner, LEASE_FOR, None, now)
         == ClaimResult(db.(next := db.next + 1, tasks := db.tasks[id := ClaimedTask(db.tasks[id], db.next, now + LEASE_FOR)]),
                        Some(db.next))
  {
  }

  lemma MessageEffect(env: Env, s: Sys, m: MsgId, id: TaskId)
    requires m in s.messages && s.messages[m] == id && s.queueMode
    requires id in s.db.tasks && s.db.tasks[id].kind == Extraction && Published(s.db, id)
    requires Claimable(s.db.tasks[id], s.clock) && s.db.tasks[id].attempts < s.db.tasks[id].maxAttempts
    ensures Enabled(env, s, s.clock, Receive(m, Extraction))
    ensures TakenUp(s, Effect(env, s, s.clock, Receive(m, Extraction)), id, Some(m))
  {
    TokenTaken(s.db, id, s.clock);
    hide Tasks.Claim, Disposed, WindowMessage, Claimable;
  }

  lemma LocalEffect(env: Env, s: Sys, id: TaskId)
    requires !s.queueMode && OldestDue(s.db, id, Extraction, s.clock) && id in s.db.tasks
    requires Claimable(s.db.tasks[id], s.clock) && s.db.tasks[id].attempts < s.db.tasks[id].maxAttempts
    ensures Enabled(env, s, s.clock, ClaimNext(id, Extraction))
    ensures TakenUp(s, Effect(env, s, s.clock, ClaimNext(id, Extraction)), id, None)
  {
    TokenTaken(s.db, id, s.clock);
    hide Tasks.Claim, OldestDue, Claimable;
  }

  /** The claim of the task by a worker that starts now. */
  predicate TakenUp(s: Sys, s': Sys, id: TaskId, message: Option<MsgId>) {
    && id in s.db.tasks && s'.clock == s.clock
    && s'.db == s.db.(next := s.db.next + 1, tasks := s.db.tasks[id := ClaimedTask(s.db.tasks[id], s.db.next, s.clock + LEASE_FOR)])
    && Job(ClaimOf(s'.db, id, s.db.next), message, None) in s'.jobs
  }

  lemma ClaimedHolds(s: Sys, s': Sys, id: TaskId, message: Option<MsgId>, user: UserId, op: OpId, expected: nat)
    requires TakenUp(s, s', id, message) && Wanted(s, id, user, op, expected)
    ensures Held(s', id) && Wanted(s', id, user, op, expected)
  {
    var job := Job(ClaimOf(s'.db, id, s.db.next), message, None);
    assert job in s'.jobs;
  }

  lemma ClaimMessage(env: Env, start: Sys, s: Sys, m: MsgId, id: TaskId, user: UserId, op: OpId, expected: nat) returns (s': Sys)
    requires Reached(env, start, s, id, user, op, expected) && Published(s.db, id) && s.queueMode
    requires m in s.messages && s.messages[m] == id
    requires Claimable(s.db.tasks[id], s.clock) && s.db.tasks[id].attempts < s.db.tasks[id].maxAttempts
    ensures Reached(env, start, s', id, user, op, expected) && Held(s', id)
  {
    MessageEffect(env, s, m, id);
    s' := Effect(env, s, s.clock, Receive(m, Extraction));
    ClaimedHolds(s, s', id, Some(m), user, op, expected);
    hide Leads, SysOk, Effect, Enabled, Wanted, Held, TakenUp, Claimable, Published;
    Go(env, start, s, Receive(m, Extraction), id, user, op, expected);
  }

  lemma ClaimLocally(env: Env, start: Sys, s: Sys, id: TaskId, user: UserId, op: OpId, expected: nat) returns (s': Sys)
    requires Reached(env, start, s, id, user, op, expected) && Published(s.db, id) && !s.queueMode && Rivals(s, id) == {}
    requires Claimable(s.db.tasks[id], s.clock) && s.db.tasks[id].attempts < s.db.tasks[id].maxAttempts
    ensures Reached(env, start, s', id, user, op, expected) && Held(s', id)
  {
    ReachedRow(env, start, s, id, user, op, expected);
    OnlyDue(s, id);
    LocalEffect(env, s, id);
    s' := Effect(env, s, s.clock, ClaimNext(id, Extraction));
    ClaimedHolds(s, s', id, None, user, op, expected);
    hide Leads, SysOk, Effect, Enabled, Wanted, Held, TakenUp, Claimable, Published, OldestDue, Rivals, RowOk;
    Go(env, start, s, ClaimNext(id, Extraction), id, user, op, expected);
  }

  lemma OnlyDue(s: Sys, id: TaskId)
    requires id in s.db.tasks && id in s.db.events && Published(s.db, id) && Rivals(s, id) == {} && s.db.tasks[id].kind == Extraction
    requires Claimable(s.db.tasks[id], s.clock) && RowOk(s.db.tasks[id], s.db.events[id], s.db.next, s.clock)
    ensures OldestDue(s.db, id, Extraction, s.clock)
  {
    forall other | other in s.db.tasks.Keys && DueForKind(s.db, other, Extraction, s.clock) ensures other == id {
      Alone(s, id, other);
    }
  }

  lemma Alone(s: Sys, id: TaskId, other: TaskId)
    requires Rivals(s, id) == {} && DueForKind(s.db, other, Extraction, s.clock)
    ensures other == id
  {
    assert other == id || other in Rivals(s, id);
  }

  // ---- finishing

  /** The draft is good, and everything else the save needs is as it was. */
  ghost predicate Drafted(env: Env, start: Sys, s: Sys, id: TaskId, user: UserId, op: OpId, expected: nat) {
    && Leads(env, start, s) && SysOk(env, s)
    && user in s.db.users && s.db.users[user] == expected && (user, op) !in s.db.ops
    && (forall payload: Payload | payload.expected == expected && payload.extraction == Some(id) ::
          ReviewedDraft(s.db, user, payload, s.clock))
  }

  lemma Finish(env: Env, start: Sys, s: Sys, id: TaskId, user: UserId, op: OpId, expected: nat) returns (s': Sys)
    requires Reached(env, start, s, id, user, op, expected) && Held(s, id) && 0 < env.ttl
    ensures Drafted(env, start, s', id, user, op, expected)
  {
    var job :| job in s.jobs && job.claim.task == id && s.db.tasks[id].token == Some(job.claim.token);
    JobOf(env, s, job);
    FinishEffect(env, s, job);
    s' := Effect(env, s, s.clock, FinishExtraction(job, ""));
    FinishedDraft(s.db, job.claim, "", env.ttl, s.clock, user, op, expected);
    hide Leads, SysOk, Effect, Enabled, CompleteExtraction, ReviewedDraft, Wanted, Held, ClaimOk, HoldsLease;
    Stepped(env, start, s, FinishExtraction(job, ""));
  }

  lemma FinishEffect(env: Env, s: Sys, job: Job)
    requires job in s.jobs && job.claim.kind == Extraction
    ensures Enabled(env, s, s.clock, FinishExtraction(job, ""))
    ensures var s' := Effect(env, s, s.clock, FinishExtraction(job, ""));
            s'.db == CompleteExtraction(s.db, job.claim, "", env.ttl, s.clock).db && s'.clock == s.clock
  {
    hide CompleteExtraction, WithCompletion, Doom;
  }

  lemma Stepped(env: Env, start: Sys, s: Sys, a: Action)
    requires Leads(env, start, s) && SysOk(env, s) && Enabled(env, s, s.clock, a)
    ensures Leads(env, start, Effect(env, s, s.clock, a)) && SysOk(env, Effect(env, s, s.clock, a))
  {
    var s' := Effect(env, s, s.clock, a);
    hide Leads, SysOk, Effect, Enabled;
    assert s.(clock := s.clock) == s;
    LeadsNext(env, start, s, Step(s.clock, a), s');
    DeploymentTheorems.StepKeeps(env, s, Step(s.clock, a), s');
  }

  lemma JobOf(env: Env, s: Sys, job: Job)
    requires SysOk(env, s) && job in s.jobs
    ensures ClaimOk(s.db, job.claim)
  {
    hide DbOk, StorageOk, QueueOk, ProfilesOk, CompletionsOk, ReadsOk;
  }

  lemma FinishedDraft(db: Db, c: Claim, draft: Draft, ttl: nat, now: Time, user: UserId, op: OpId, expected: nat)
    requires ClaimOk(db, c) && HoldsLease(db.tasks[c.task], c.token, now) && 0 < ttl
    requires c.owner == user && c.kind == Extraction && c.revision == expected
    requires user in db.users && db.users[user] == expected && (user, op) !in db.ops
    ensures var db' := CompleteExtraction(db, c, draft, ttl, now).db;
            && user in db'.users && db'.users[user] == expected && (user, op) !in db'.ops
            && (forall payload: Payload | payload.expected == expected && payload.extraction == Some(c.task) ::
                  ReviewedDraft(db', user, payload, now))
  {
  }

  /** An extraction that can finish does so in some run. */
  lemma DraftIsMade(env: Env, start: Sys, s: Sys, id: TaskId, user: UserId, op: OpId, expected: nat) returns (s': Sys)
    requires Reached(env, start, s, id, user, op, expected) && CanFinish(s, id) && 0 < env.ttl
    ensures Drafted(env, start, s', id, user, op, expected)
  {
    hide Reached, Drafted, Held, Ready, Receivable, Published;
    if Held(s, id) {
      s' := Finish(env, start, s, id, user, op, expected);
    } else {
      var s1 := GetReady(env, start, s, id, user, op, expected);
      var s2 := Claim(env, start, s1, id, user, op, expected);
      s' := Finish(env, start, s2, id, user, op, expected);
    }
  }
}
