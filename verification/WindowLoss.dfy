/** Exactly when an acknowledgement leaves a live task published without a message.
  *
  * `exposed` is a history variable; here it is tied to the receipts of a run.
  */
module WindowLoss {
  import opened Wrappers
  import opened Rows
  import opened Tasks
  import opened Outbox
  import opened Worker
  import opened RowInvariant
  import opened Transactions
  import opened Quiet
  import opened Deployment
  import opened Invariants
  import opened TableSafety
  import opened QueueSafety
  import opened DeploymentTheorems

  // ---- who holds an event

  /** Leases of events are given up or kept; only a claim of the event issues a new one. */
  predicate TokenKept(db: Db, db': Db, id: TaskId) {
    id in db'.events && db'.events[id].token.Some? ==> id in db.events && db'.events[id].token == db.events[id].token
  }

  lemma QuietToken(db: Db, db': Db, id: TaskId, now: Time)
    requires DbOk(db', now) && QuietEvents(db, db')
    ensures TokenKept(db, db', id)
  {
    if id in db'.events {
      RowAt(db', id, now);
      assert QuietEvent(db, db', id);
    }
    hide DbOk;
  }

  lemma LocalToken(s: Sys, other: TaskId, kind: Kind, id: TaskId)
    requires DbOk(s.db, s.clock) && OldestDue(s.db, other, kind, s.clock)
    ensures other in s.db.tasks && TokenKept(s.db, AfterLocalClaim(s, other, s.clock).db, id)
  {
    OldestIsPublished(s.db, other, kind, s.clock);
    ClaimLocalQuiet(s.db, other, s.clock);
    UnfoldKept(s.db, ClaimLocal(s.db, other, s.clock).db, s.clock);
    hide DbOk, ClaimLocal, OldestDue, TablesKept, Later, ClaimOf, QuietEvents, TokenKept;
    QuietToken(s.db, ClaimLocal(s.db, other, s.clock).db, id, s.clock);
  }

  lemma ReceiveToken(s: Sys, m: MsgId, kind: Kind, id: TaskId)
    requires DbOk(s.db, s.clock) && m in s.messages
    ensures TokenKept(s.db, AfterReceive(s, m, kind, s.clock).db, id)
  {
    var r := ClaimPublished(s.db, s.messages[m], kind, LEASE_FOR, s.clock);
    ReceivedTables(s, m, kind);
    ClaimPublishedQuiet(s.db, s.messages[m], kind, s.clock);
    UnfoldKept(s.db, r.db, s.clock);
    hide DbOk, ClaimPublished, TablesKept, Later, QuietEvents, TokenKept, AfterReceive;
    QuietToken(s.db, r.db, id, s.clock);
  }

  lemma ReceivedTables(s: Sys, m: MsgId, kind: Kind)
    requires m in s.messages
    ensures AfterReceive(s, m, kind, s.clock).db == ClaimPublished(s.db, s.messages[m], kind, LEASE_FOR, s.clock).db
  {
    hide ClaimPublished, ClaimOf, Disposed, WindowMessage;
  }

  lemma MessageToken(env: Env, s: Sys, a: Action, id: TaskId)
    requires DbOk(s.db, s.clock) && Enabled(env, s, s.clock, a) && MessageAction(a)
    requires !(a.ClaimPublication? && a.id == id)
    ensures TokenKept(s.db, Effect(env, s, s.clock, a).db, id)
  {
    hide DbOk, AfterLocalClaim, AfterReceive, OldestDue, TokenKept;
    if a.ClaimNext? {
      LocalToken(s, a.id, a.kind, id);
    } else if a.Receive? {
      ReceiveToken(s, a.message, a.kind, id);
    } else {
      DeliveryToken(env, s, a, id);
    }
  }

  lemma DeliveryToken(env: Env, s: Sys, a: Action, id: TaskId)
    requires Enabled(env, s, s.clock, a) && MessageAction(a) && !a.ClaimNext? && !a.Receive?
    requires !(a.ClaimPublication? && a.id == id)
    ensures TokenKept(s.db, Effect(env, s, s.clock, a).db, id)
  {
    hide SettledAfterWork, ApprovedContent, DueEvent;
  }

  lemma StepToken(env: Env, s: Sys, a: Action, id: TaskId)
    requires SysOk(env, s) && Enabled(env, s, s.clock, a) && !(a.ClaimPublication? && a.id == id)
    ensures TokenKept(s.db, Effect(env, s, s.clock, a).db, id)
  {
    var s' := Effect(env, s, s.clock, a);
    StepKeepsTables(env, s, s.clock, a);
    UnfoldKept(s.db, s'.db, s.clock);
    SameKeys(s.db, s.clock);
    hide StorageOk, DbOk, QueueOk, ProfilesOk, CompletionsOk, ReadsOk, JobsOk, Effect, Enabled, TablesKept, QuietRows, QuietEvents,
         MessageAction, EndingWork, TableAction, RetriesKnown, SameQueue, TokenKept;
    if MessageAction(a) {
      MessageToken(env, s, a, id);
    } else {
      if EndingWork(a) {
        EndingWorkQuiet(env, s, a);
      } else if TableAction(a) {
        TableActionQuiet(env, s, a);
      } else {
        RemainingQuiet(env, s, a);
        SameTables(s.db, s'.db);
      }
      QuietToken(s.db, s'.db, id, s.clock);
    }
  }

  // ---- what a step does to the window

  /** The step receives, inside its window, the message that the publication with this token has sent. */
  predicate ReceivesIn(s: Sys, a: Action, id: TaskId, token: Token) {
    && a.Receive? && a.message in s.messages && s.messages[a.message] == id
    && id in s.db.tasks && s.db.tasks[id].state == RetryWait && s.db.tasks[id].kind == a.kind
    && id in s.db.events && s.db.events[id].token == Some(token)
    && Publication(Delivery(id, token), Some(a.message)) in s.publications
  }

  /** A task is exposed by such a receipt, and only until its event is claimed again. */
  lemma ExposedBy(env: Env, s: Sys, a: Action, id: TaskId)
    requires DbOk(s.db, s.clock) && Enabled(env, s, s.clock, a) && id in Effect(env, s, s.clock, a).exposed
    ensures !(a.ClaimPublication? && a.id == id)
    ensures id in s.exposed || exists token :: ReceivesIn(s, a, id, token)
  {
    if a.Receive? {
      hide DbOk;
      if id !in s.exposed { ReceiveExposes(s, a.message, a.kind, id); }
    } else {
      ExposedFrame(env, s, a);
    }
  }

  lemma ExposedFrame(env: Env, s: Sys, a: Action)
    requires Enabled(env, s, s.clock, a) && !a.Receive?
    ensures Effect(env, s, s.clock, a).exposed == if a.ClaimPublication? then s.exposed - {a.id} else s.exposed
  {
  }

  lemma ReceiveExposes(s: Sys, m: MsgId, kind: Kind, id: TaskId)
    requires m in s.messages && id in AfterReceive(s, m, kind, s.clock).exposed && id !in s.exposed
    ensures exists token :: ReceivesIn(s, Receive(m, kind), id, token)
  {
    var r := ClaimPublished(s.db, id, kind, LEASE_FOR, s.clock);
    assert s.messages[m] == id && WindowMessage(r.db, s.publications, m, id) && DeletesMessage(Disposed(r.db, id, kind));
    assert r.db == s.db;
    var p :| p in s.publications && p.delivery.task == id && p.message == Some(m) && r.db.events[id].token == Some(p.delivery.token);
    assert p == Publication(Delivery(id, p.delivery.token), Some(m));
    assert ReceivesIn(s, Receive(m, kind), id, p.delivery.token);
  }

  /** What is sent stays sent, and what somebody has decided to delete stays so. */
  lemma SentAndDoomedStay(env: Env, s: Sys, a: Action, p: Publication)
    requires Enabled(env, s, s.clock, a)
    ensures p in s.publications && p.message.Some? ==> p in Effect(env, s, s.clock, a).publications
    ensures s.deleting <= Effect(env, s, s.clock, a).deleting
  {
  }

  /** The message of such a receipt is one that the worker has decided to delete. */
  lemma ReceiptDooms(env: Env, s: Sys, a: Action, id: TaskId, token: Token)
    requires DbOk(s.db, s.clock) && Enabled(env, s, s.clock, a) && ReceivesIn(s, a, id, token)
    ensures a.message in Effect(env, s, s.clock, a).deleting
  {
    EventFacts(s.db, id, s.clock);
    hide DbOk;
  }

  // ---- runs

  lemma StepAt(env: Env, states: seq<Sys>, steps: seq<Step>, k: nat) returns (at: Sys)
    requires RunFromStart(env, states, steps) && k < |steps|
    ensures at == states[k].(clock := steps[k].now) && SysOk(env, at) && Enabled(env, at, at.clock, steps[k].action)
    ensures states[k + 1] == Effect(env, at, at.clock, steps[k].action) && SysOk(env, states[k])
  {
    RunSafe(env, states, steps, k);
    assert Next(env, states[k], steps[k], states[k + 1]);
    at := states[k].(clock := steps[k].now);
    hide SysOk, Effect, Enabled, RunFromStart;
    ClockOk(env, states[k], steps[k].now);
  }

  /** In the first `i` steps, the message of this publication has been received inside its window. */
  ghost predicate ReceivedInWindow(states: seq<Sys>, steps: seq<Step>, i: nat, id: TaskId, token: Token)
    requires i <= |steps| < |states|
  {
    exists k | 0 <= k < i :: ReceivesIn(states[k], steps[k].action, id, token)
  }

  lemma TablesAt(env: Env, s: Sys)
    requires SysOk(env, s)
    ensures DbOk(s.db, s.clock) && QueueOk(s)
  {
    hide DbOk, StorageOk, QueueOk, ProfilesOk, CompletionsOk, ReadsOk, JobsOk;
  }

  lemma ExposedStep(env: Env, s: Sys, a: Action, id: TaskId, token: Token)
    requires SysOk(env, s) && Enabled(env, s, s.clock, a)
    requires var s' := Effect(env, s, s.clock, a);
             id in s'.exposed && id in s'.db.events && s'.db.events[id].token == Some(token)
    ensures (id in s.exposed && id in s.db.events && s.db.events[id].token == Some(token)) || ReceivesIn(s, a, id, token)
  {
    TablesAt(env, s);
    hide SysOk, Effect, Enabled, DbOk, QueueOk;
    NotJustClaimed(env, s, a, id);
    StepToken(env, s, a, id);
    ExposedBy(env, s, a, id);
  }

  predicate ExposedUnder(s: Sys, id: TaskId, token: Token) {
    id in s.exposed && id in s.db.events && s.db.events[id].token == Some(token)
  }

  lemma ExposedBefore(env: Env, states: seq<Sys>, steps: seq<Step>, i: nat, id: TaskId, token: Token)
    requires RunFromStart(env, states, steps) && i < |steps| && i + 1 < |states| && ExposedUnder(states[i + 1], id, token)
    ensures ExposedUnder(states[i], id, token) || ReceivesIn(states[i], steps[i].action, id, token)
  {
    hide RunFromStart, SysOk, Effect, Enabled, ReceivesIn;
    var at := StepAt(env, states, steps, i);
    ExposedStep(env, at, steps[i].action, id, token);
    if ReceivesIn(at, steps[i].action, id, token) { ReceiptToken(at, states[i], steps[i].action, id, token); }
  }

  /** An exposed task whose event is claimed has had the message of that very publication received inside its window. */
  lemma {:induction false} ExposedWasReceived(env: Env, states: seq<Sys>, steps: seq<Step>, i: nat, id: TaskId, token: Token)
    requires RunFromStart(env, states, steps) && i < |states| && ExposedUnder(states[i], id, token)
    ensures |states| == |steps| + 1 && ReceivedInWindow(states, steps, i, id, token)
  {
    RunLengths(env, states, steps);
    hide RunFromStart, ReceivesIn;
    if i > 0 {
      hide ExposedUnder;
      ExposedBefore(env, states, steps, i - 1, id, token);
      if ExposedUnder(states[i - 1], id, token) {
        ExposedWasReceived(env, states, steps, i - 1, id, token);
      }
    }
  }

  lemma RunLengths(env: Env, states: seq<Sys>, steps: seq<Step>)
    requires RunFromStart(env, states, steps)
    ensures |states| == |steps| + 1
    ensures states[0].exposed == {}
  {
    hide Next;
  }

  lemma NotJustClaimed(env: Env, s: Sys, a: Action, id: TaskId)
    requires Enabled(env, s, s.clock, a) && id in Effect(env, s, s.clock, a).exposed
    ensures !(a.ClaimPublication? && a.id == id)
  {
    if a.ClaimPublication? { ExposedFrame(env, s, a); }
  }

  lemma ReceiptToken(at: Sys, s: Sys, a: Action, id: TaskId, token: Token)
    requires ReceivesIn(at, a, id, token) && s == at.(clock := s.clock)
    ensures ReceivesIn(s, a, id, token) && id in s.db.events && s.db.events[id].token == Some(token)
  {
  }

  predicate SentAndDoomed(s: Sys, p: Publication) {
    p in s.publications && p.message.Some? && p.message.value in s.deleting
  }

  lemma DoomedAfter(env: Env, states: seq<Sys>, steps: seq<Step>, i: nat, p: Publication)
    requires RunFromStart(env, states, steps) && i < |steps| && i + 1 < |states| && SentAndDoomed(states[i], p)
    ensures SentAndDoomed(states[i + 1], p)
  {
    hide RunFromStart, SysOk, Effect, Enabled;
    var at := StepAt(env, states, steps, i);
    SentAndDoomedStay(env, at, steps[i].action, p);
  }

  lemma DoomedByReceipt(env: Env, states: seq<Sys>, steps: seq<Step>, k: nat, id: TaskId, token: Token)
    requires RunFromStart(env, states, steps) && k < |steps| && k + 1 < |states| && ReceivesIn(states[k], steps[k].action, id, token)
    ensures steps[k].action.Receive?
    ensures SentAndDoomed(states[k + 1], Publication(Delivery(id, token), Some(steps[k].action.message)))
  {
    hide RunFromStart, SysOk, Effect, Enabled;
    var at := StepAt(env, states, steps, k);
    ReceiptToken(states[k], at, steps[k].action, id, token);
    JustReceived(env, at, steps[k].action, id, token);
    SentAndDoomedStay(env, at, steps[k].action, Publication(Delivery(id, token), Some(steps[k].action.message)));
  }

  /** A message received inside the window of its publication is doomed from then on, and its publication stays known. */
  lemma {:induction false} ReceivedIsDoomed(env: Env, states: seq<Sys>, steps: seq<Step>, k: nat, i: nat, id: TaskId, token: Token)
    requires RunFromStart(env, states, steps) && k < i < |states| && k < |steps|
    requires ReceivesIn(states[k], steps[k].action, id, token)
    ensures SentAndDoomed(states[i], Publication(Delivery(id, token), Some(steps[k].action.message)))
    decreases i
  {
    RunLengths(env, states, steps);
    hide RunFromStart, SentAndDoomed;
    if k < i - 1 {
      ReceivedIsDoomed(env, states, steps, k, i - 1, id, token);
      DoomedAfter(env, states, steps, i - 1, Publication(Delivery(id, token), Some(steps[k].action.message)));
    } else {
      DoomedByReceipt(env, states, steps, k, id, token);
    }
  }

  lemma JustReceived(env: Env, s: Sys, a: Action, id: TaskId, token: Token)
    requires SysOk(env, s) && Enabled(env, s, s.clock, a) && ReceivesIn(s, a, id, token)
    ensures a.message in Effect(env, s, s.clock, a).deleting
    ensures Publication(Delivery(id, token), Some(a.message)) in s.publications
  {
    TablesAt(env, s);
    hide SysOk, Effect, Enabled, DbOk, QueueOk;
    ReceiptDooms(env, s, a, id, token);
  }

  predicate AllDoomed(s: Sys, id: TaskId) {
    forall m | m in s.messages && s.messages[m] == id :: m in s.deleting
  }

  predicate OthersDoomed(s: Sys, id: TaskId, own: MsgId) {
    forall m | m in s.messages && s.messages[m] == id && m != own :: m in s.deleting
  }

  lemma AcknowledgedFacts(env: Env, s: Sys, p: Publication)
    requires DbOk(s.db, s.clock) && QueueOk(s) && s.queueMode && Enabled(env, s, s.clock, Acknowledge(p))
    requires HoldsEvent(s.db, p.delivery.task, p.delivery.token, s.clock)
    ensures p in s.publications && p.message.Some? && p.delivery.task in s.db.tasks
    ensures s.db.events[p.delivery.task].token == Some(p.delivery.token)
    ensures !Deliverable(s, p.message.value, p.delivery.task) ==> p.delivery.task in s.exposed
    ensures var s', id := Effect(env, s, s.clock, Acknowledge(p)), p.delivery.task;
            && s'.messages == s.messages && s'.deleting == s.deleting
            && id in s'.db.tasks && Live(s'.db.tasks[id]) && Published(s'.db, id)
  {
    assert PublicationOk(s, p);
    EventFacts(s.db, p.delivery.task, s.clock);
    hide DbOk, QueueOk;
  }

  lemma SamePublication(s: Sys, p: Publication, q: Publication)
    requires QueueOk(s) && p in s.publications && q in s.publications && p.delivery.token == q.delivery.token
    ensures p == q
  {
  }

  /** An acknowledgement makes its live task SENT without an undeleted message if and only if the message that its own
    * publisher sent has been received inside the window and no other undeleted message of the task remains. */
  lemma AcknowledgementLosesExactly(env: Env, states: seq<Sys>, steps: seq<Step>, i: nat, p: Publication)
    requires RunFromStart(env, states, steps) && i < |steps| && states[i].queueMode && steps[i].action == Acknowledge(p)
    requires HoldsEvent(states[i].db, p.delivery.task, p.delivery.token, steps[i].now)
    ensures |states| == |steps| + 1 && p.message.Some?
    ensures var id, s' := p.delivery.task, states[i + 1];
            && id in s'.db.tasks && Live(s'.db.tasks[id]) && Published(s'.db, id)
            && (AllDoomed(s', id) <==> ReceivedInWindow(states, steps, i, id, p.delivery.token)
                                       && OthersDoomed(states[i], id, p.message.value))
  {
    var id, token := p.delivery.task, p.delivery.token;
    var at := StepAt(env, states, steps, i);
    TablesAt(env, at);
    AcknowledgedFacts(env, at, p);
    hide RunFromStart, SysOk, Effect, Enabled, DbOk, QueueOk, ReceivesIn;
    if AllDoomed(at, id) {
      assert !Deliverable(at, p.message.value, id);
      ExposedWasReceived(env, states, steps, i, id, token);
    }
    if ReceivedInWindow(states, steps, i, id, token) {
      var k :| 0 <= k < i && ReceivesIn(states[k], steps[k].action, id, token);
      ReceivedIsDoomed(env, states, steps, k, i, id, token);
      SamePublication(at, p, Publication(Delivery(id, token), Some(steps[k].action.message)));
    }
  }
}
