/** What one call of a publisher leaves of the events it took, and what it sends. */
module PublisherLaws {
  import opened Wrappers
  import opened Rows
  import opened Tasks
  import opened Outbox
  import opened Worker
  import opened Deployment
  import opened Publisher
  import D = Database

  /** The publisher still holds the event of this delivery. */
  predicate Leased(db: Db, d: Delivery, now: Time) {
    d.task in db.events
    && var e := db.events[d.task]; e.state == Claimed && e.token == Some(d.token) && e.leaseEnd.Some? && e.leaseEnd.value > now
  }

  /** The task is missing, cancelled or failed, so nothing is to be published. */
  predicate Dropped(db: Db, id: TaskId) {
    id in db.tasks ==> db.tasks[id].state == Cancelled || db.tasks[id].state == Failed
  }

  /** The event after its delivery has been handled. */
  predicate EventSettled(db: Db, db': Db, d: Delivery, fault: Fault, now: Time) {
    d.task in db.events ==>
      d.task in db'.events
      && var e, e' := db.events[d.task], db'.events[d.task];
         if Dropped(db, d.task) then e' == e.(state := EventCancelled, token := None, leaseEnd := None)
         else if !Leased(db, d, now) then e' == e
         else if fault == NoFault then e' == e.(state := Sent, token := None, leaseEnd := None)
         else e' == e.(state := EventPending, available := now + 5, token := None, leaseEnd := None)
  }

  /** A message of its own is sent for the task unless it is dropped or the send fails; the local queue needs none. */
  predicate Sends(queueMode: bool, db: Db, d: Delivery, fault: Fault) {
    queueMode && !Dropped(db, d.task) && fault != NotSent
  }

  /** What the call counts: acknowledged deliveries, in local mode also those that came too late. */
  predicate Counts(queueMode: bool, db: Db, d: Delivery, fault: Fault, now: Time) {
    !Dropped(db, d.task) && fault == NoFault && (queueMode ==> Leased(db, d, now))
  }

  predicate TasksDiffer(ds: seq<Delivery>) {
    forall i, j | 0 <= i < j < |ds| :: ds[i].task != ds[j].task
  }

  predicate MessagesBelow(messages: map<MsgId, TaskId>, next: nat) {
    forall m | m in messages :: m < next
  }

  /** What is left of one call, from the tables and messages at the time its deliveries are handled. */
  predicate Handled(queueMode: bool, p: Published, p': Published, ds: seq<Delivery>, faults: nat -> Fault, now: Time) {
    && p'.db == p.db.(events := p'.db.events, next := p'.db.next) && p.db.next <= p'.db.next && p'.db.events.Keys == p.db.events.Keys
    && (forall i | 0 <= i < |ds| :: EventSettled(p.db, p'.db, ds[i], faults(i), now))
    && (forall id | id in p.db.events && (forall i | 0 <= i < |ds| :: ds[i].task != id) :: p'.db.events[id] == p.db.events[id])
    && (forall m | m in p.messages :: m in p'.messages && p'.messages[m] == p.messages[m])
    && MessagesBelow(p'.messages, p'.db.next)
    && p'.sent == p.sent + |set i | 0 <= i < |ds| && Counts(queueMode, p.db, ds[i], faults(i), now)|
  }

  /** The tasks of the messages that are new. */
  function NewlyNamed(p: Published, p': Published): set<TaskId> {
    set m | m in p'.messages.Keys && m !in p.messages :: p'.messages[m]
  }

  function Senders(queueMode: bool, db: Db, ds: seq<Delivery>, faults: nat -> Fault): set<nat> {
    set i | 0 <= i < |ds| && Sends(queueMode, db, ds[i], faults(i))
  }

  function SendingTasks(queueMode: bool, db: Db, ds: seq<Delivery>, faults: nat -> Fault): set<TaskId> {
    set i | 0 <= i < |ds| && Sends(queueMode, db, ds[i], faults(i)) :: ds[i].task
  }

  /** Exactly the deliveries that send have a new message, and there are as many messages as deliveries that send. */
  predicate EachSendsOnce(queueMode: bool, p: Published, p': Published, ds: seq<Delivery>, faults: nat -> Fault) {
    && NewlyNamed(p, p') == SendingTasks(queueMode, p.db, ds, faults)
    && |p'.messages| == |p.messages| + |Senders(queueMode, p.db, ds, faults)|
  }

  lemma OneEvent(queueMode: bool, p: Published, d: Delivery, fault: Fault, now: Time)
    ensures var p' := PublishOne(queueMode, p, d, fault, now);
            p'.db.events.Keys == p.db.events.Keys && EventSettled(p.db, p'.db, d, fault, now)
  {
    if GivenUp(p.db, d.task) { } else if HoldsEvent(p.db, d.task, d.token, now) { } else { }
  }

  lemma OneFrame(queueMode: bool, p: Published, d: Delivery, fault: Fault, now: Time)
    ensures var p' := PublishOne(queueMode, p, d, fault, now);
            && p'.db == p.db.(events := p'.db.events, next := p'.db.next)
            && p'.db.next == p.db.next + (if Sends(queueMode, p.db, d, fault) then 1 else 0)
            && (forall id | id in p.db.events && id != d.task :: id in p'.db.events && p'.db.events[id] == p.db.events[id])
            && p'.messages == (if Sends(queueMode, p.db, d, fault) then p.messages[p.db.next := d.task] else p.messages)
  {
    hide HoldsEvent;
    if GivenUp(p.db, d.task) { } else if queueMode { } else { }
  }

  lemma OneCounted(queueMode: bool, p: Published, d: Delivery, fault: Fault, now: Time)
    ensures PublishOne(queueMode, p, d, fault, now).sent == p.sent + (if Counts(queueMode, p.db, d, fault, now) then 1 else 0)
  {
    hide RetryEvent, CancelEvent;
    if GivenUp(p.db, d.task) { } else if HoldsEvent(p.db, d.task, d.token, now) { } else { }
  }

  /** One delivery. */
  lemma OneHandled(queueMode: bool, p: Published, d: Delivery, fault: Fault, now: Time)
    requires MessagesBelow(p.messages, p.db.next)
    ensures var p' := PublishOne(queueMode, p, d, fault, now);
            && p'.db == p.db.(events := p'.db.events, next := p'.db.next) && p.db.next <= p'.db.next
            && p'.db.events.Keys == p.db.events.Keys && EventSettled(p.db, p'.db, d, fault, now)
            && (forall id | id in p.db.events && id != d.task :: p'.db.events[id] == p.db.events[id])
            && MessagesBelow(p'.messages, p'.db.next)
            && p'.messages == (if Sends(queueMode, p.db, d, fault) then p.messages[p.db.next := d.task] else p.messages)
            && p'.sent == p.sent + (if Counts(queueMode, p.db, d, fault, now) then 1 else 0)
  {
    OneEvent(queueMode, p, d, fault, now);
    OneFrame(queueMode, p, d, fault, now);
    OneCounted(queueMode, p, d, fault, now);
    hide PublishOne, EventSettled, Sends, Counts;
  }

  lemma NothingHandled(queueMode: bool, p: Published, faults: nat -> Fault, now: Time)
    requires MessagesBelow(p.messages, p.db.next)
    ensures Handled(queueMode, p, p, [], faults, now) && EachSendsOnce(queueMode, p, p, [], faults)
  {
    assert NewlyNamed(p, p) == {};
  }

  lemma CountMore(queueMode: bool, db: Db, ds: seq<Delivery>, faults: nat -> Fault, now: Time)
    requires ds != []
    ensures var n := |ds| - 1;
            |set i | 0 <= i < |ds| && Counts(queueMode, db, ds[i], faults(i), now)|
              == |set i | 0 <= i < n && Counts(queueMode, db, ds[..n][i], faults(i), now)|
                 + (if Counts(queueMode, db, ds[n], faults(n), now) then 1 else 0)
  {
    hide Counts;
    var n := |ds| - 1;
    var before := set i | 0 <= i < n && Counts(queueMode, db, ds[..n][i], faults(i), now);
    var all := set i | 0 <= i < |ds| && Counts(queueMode, db, ds[i], faults(i), now);
    assert all == if Counts(queueMode, db, ds[n], faults(n), now) then before + {n} else before;
  }

  /** The rows a delivery looks at are still as they were if they belong to another task. */
  lemma OthersDoNotMatter(db: Db, mid: Db, db': Db, queueMode: bool, d: Delivery, fault: Fault, now: Time)
    requires mid.tasks == db.tasks && mid.events.Keys == db.events.Keys && (d.task in db.events ==> mid.events[d.task] == db.events[d.task])
    ensures EventSettled(mid, db', d, fault, now) <==> EventSettled(db, db', d, fault, now)
    ensures Sends(queueMode, mid, d, fault) <==> Sends(queueMode, db, d, fault)
    ensures Counts(queueMode, mid, d, fault, now) <==> Counts(queueMode, db, d, fault, now)
  {
  }

  lemma StaysSettled(db: Db, mid: Db, db': Db, d: Delivery, fault: Fault, now: Time)
    requires EventSettled(db, mid, d, fault, now) && db'.events.Keys == mid.events.Keys && mid.events.Keys == db.events.Keys
    requires d.task in mid.events ==> db'.events[d.task] == mid.events[d.task]
    ensures EventSettled(db, db', d, fault, now)
  {
  }

  lemma HandledMore(queueMode: bool, p: Published, mid: Published, ds: seq<Delivery>, faults: nat -> Fault, now: Time)
    requires ds != [] && TasksDiffer(ds)
    requires Handled(queueMode, p, mid, ds[..|ds| - 1], faults, now)
    ensures var n := |ds| - 1; Handled(queueMode, p, PublishOne(queueMode, mid, ds[n], faults(n), now), ds, faults, now)
  {
    hide PublishOne, EventSettled, Counts, Sends;
    var n := |ds| - 1;
    var d, front := ds[n], ds[..n];
    var p' := PublishOne(queueMode, mid, d, faults(n), now);
    OneHandled(queueMode, mid, d, faults(n), now);
    assert forall i | 0 <= i < n :: front[i].task != d.task by { assert forall i | 0 <= i < n :: front[i] == ds[i]; }
    OthersDoNotMatter(p.db, mid.db, p'.db, queueMode, d, faults(n), now);
    forall i | 0 <= i < |ds| ensures EventSettled(p.db, p'.db, ds[i], faults(i), now) {
      if i < n {
        assert ds[i] == front[i];
        StaysSettled(p.db, mid.db, p'.db, ds[i], faults(i), now);
      }
    }
    CountMore(queueMode, p.db, ds, faults, now);
  }

  lemma SendersMore(queueMode: bool, db: Db, ds: seq<Delivery>, faults: nat -> Fault)
    requires ds != []
    ensures var n := |ds| - 1;
            Senders(queueMode, db, ds, faults)
              == Senders(queueMode, db, ds[..n], faults) + (if Sends(queueMode, db, ds[n], faults(n)) then {n} else {})
            && n !in Senders(queueMode, db, ds[..n], faults)
    ensures var n := |ds| - 1;
            SendingTasks(queueMode, db, ds, faults)
              == SendingTasks(queueMode, db, ds[..n], faults)
                 + (if Sends(queueMode, db, ds[n], faults(n)) then {ds[n].task} else {})
  {
    hide Sends;
  }

  lemma NamedMore(p: Published, mid: Published, p': Published, m: MsgId, id: TaskId)
    requires p'.messages == mid.messages[m := id] && m !in mid.messages && p.messages.Keys <= mid.messages.Keys
    ensures NewlyNamed(p, p') == NewlyNamed(p, mid) + {id} && |p'.messages| == |mid.messages| + 1
  {
    assert m in p'.messages.Keys && m !in p.messages;
    forall k | k in mid.messages.Keys && k !in p.messages ensures mid.messages[k] in NewlyNamed(p, p') {
      assert k in p'.messages.Keys && p'.messages[k] == mid.messages[k];
    }
  }

  /** The last delivery is untouched by those before it. */
  lemma SeenAsBefore(queueMode: bool, p: Published, mid: Published, ds: seq<Delivery>, faults: nat -> Fault, now: Time)
    requires ds != [] && TasksDiffer(ds) && Handled(queueMode, p, mid, ds[..|ds| - 1], faults, now)
    ensures var n := |ds| - 1; Sends(queueMode, mid.db, ds[n], faults(n)) <==> Sends(queueMode, p.db, ds[n], faults(n))
    ensures MessagesBelow(mid.messages, mid.db.next) && p.messages.Keys <= mid.messages.Keys
  {
    hide EventSettled, Counts, Sends;
    var n := |ds| - 1;
    assert forall i | 0 <= i < n :: ds[..n][i] == ds[i] && ds[i].task != ds[n].task;
    OthersDoNotMatter(p.db, mid.db, mid.db, queueMode, ds[n], faults(n), now);
  }

  lemma SentMore(queueMode: bool, p: Published, mid: Published, ds: seq<Delivery>, faults: nat -> Fault, now: Time)
    requires ds != [] && TasksDiffer(ds)
    requires Handled(queueMode, p, mid, ds[..|ds| - 1], faults, now) && EachSendsOnce(queueMode, p, mid, ds[..|ds| - 1], faults)
    ensures var n := |ds| - 1; EachSendsOnce(queueMode, p, PublishOne(queueMode, mid, ds[n], faults(n), now), ds, faults)
  {
    hide PublishOne, EventSettled, Counts, Sends, Senders, SendingTasks, NewlyNamed, Handled;
    var n := |ds| - 1;
    var d, front := ds[n], ds[..n];
    var p' := PublishOne(queueMode, mid, d, faults(n), now);
    SeenAsBefore(queueMode, p, mid, ds, faults, now);
    OneHandled(queueMode, mid, d, faults(n), now);
    SendersMore(queueMode, p.db, ds, faults);
    if Sends(queueMode, p.db, d, faults(n)) {
      NamedMore(p, mid, p', mid.db.next, d.task);
    } else {
      SameNamed(p, mid, p');
    }
  }

  lemma SameNamed(p: Published, mid: Published, p': Published)
    requires p'.messages == mid.messages
    ensures NewlyNamed(p, p') == NewlyNamed(p, mid)
  {
  }

  /** The deliveries of one call, whatever has happened to their tasks and leases since they were taken. */
  lemma {:induction false} DeliveriesAreHandled(queueMode: bool, p: Published, ds: seq<Delivery>, faults: nat -> Fault, now: Time)
    requires TasksDiffer(ds) && MessagesBelow(p.messages, p.db.next)
    ensures var p' := PublishAll(queueMode, p, ds, faults, now);
            Handled(queueMode, p, p', ds, faults, now) && EachSendsOnce(queueMode, p, p', ds, faults)
  {
    hide Handled, EachSendsOnce, PublishOne;
    if ds == [] {
      NothingHandled(queueMode, p, faults, now);
    } else {
      var front := ds[..|ds| - 1];
      assert TasksDiffer(front);
      DeliveriesAreHandled(queueMode, p, front, faults, now);
      HandledMore(queueMode, p, PublishAll(queueMode, p, front, faults, now), ds, faults, now);
      SentMore(queueMode, p, PublishAll(queueMode, p, front, faults, now), ds, faults, now);
    }
  }

  // ---- a call that nobody interferes with

  /** Every row taken is leased, and none of them is dropped. */
  lemma TakenRows(db: Db, db': Db, rows: seq<TaskId>, ds: seq<Delivery>, now: Time, queryTime: Time, i: nat)
    requires D.TakenInOrder(db, db', rows, ds, now + OUTBOX_LEASE) && i < |rows| && DueEvent(db, rows[i], queryTime)
    ensures ds[i].task == rows[i] && Leased(db', ds[i], now) && !Dropped(db', rows[i])
    ensures db'.events[rows[i]] == db.events[rows[i]].(state := Claimed, attempts := db.events[rows[i]].attempts + 1,
                                                       token := Some(ds[i].token), leaseEnd := Some(now + 60))
  {
  }

  function Unfaulty(n: nat, faults: nat -> Fault): set<nat> {
    set i | 0 <= i < n && faults(i) == NoFault
  }

  function SentIn(queueMode: bool, rows: seq<TaskId>, faults: nat -> Fault): set<TaskId> {
    set i | 0 <= i < |rows| && queueMode && faults(i) != NotSent :: rows[i]
  }

  /** The rows as they were taken: leased, each by its own delivery, and none of them dropped. */
  predicate TakenAs(db: Db, claimed: Db, rows: seq<TaskId>, ds: seq<Delivery>, now: Time) {
    && |ds| == |rows| && claimed == db.(events := claimed.events, next := claimed.next) && claimed.events.Keys == db.events.Keys
    && db.next <= claimed.next
    && (forall i | 0 <= i < |rows| :: ds[i].task == rows[i] && Leased(claimed, ds[i], now) && !Dropped(claimed, rows[i])
          && rows[i] in db.events && var e := db.events[rows[i]];
             claimed.events[rows[i]] == e.(state := Claimed, attempts := e.attempts + 1, token := Some(ds[i].token), leaseEnd := Some(now + 60)))
    && (forall id | id in db.events && id !in rows :: claimed.events[id] == db.events[id])
    && (forall i, j | 0 <= i < j < |rows| :: rows[i] != rows[j])
  }

  lemma BatchIsTaken(db: Db, rows: seq<TaskId>, limit: nat, queryTime: Time, now: Time)
    requires Selected(db, rows, limit, queryTime)
    ensures RowsExist(db, rows)
    ensures var (claimed, ds) := ClaimBatch(db, rows, OUTBOX_LEASE, now); TakenAs(db, claimed, rows, ds, now)
  {
    BatchExists(db, rows, queryTime);
    D.BatchContents(db, rows, OUTBOX_LEASE, now);
    var (claimed, ds) := ClaimBatch(db, rows, OUTBOX_LEASE, now);
    hide ClaimBatch, DueEvent, EventBefore, Leased, Dropped;
    forall i | 0 <= i < |rows|
      ensures ds[i].task == rows[i] && Leased(claimed, ds[i], now) && !Dropped(claimed, rows[i])
      ensures var e := db.events[rows[i]];
              claimed.events[rows[i]] == e.(state := Claimed, attempts := e.attempts + 1, token := Some(ds[i].token), leaseEnd := Some(now + 60))
    {
      TakenRows(db, claimed, rows, ds, now, queryTime, i);
    }
  }

  lemma TakenDiffer(db: Db, claimed: Db, rows: seq<TaskId>, ds: seq<Delivery>, now: Time)
    requires TakenAs(db, claimed, rows, ds, now)
    ensures TasksDiffer(ds)
  {
    hide Leased, Dropped;
  }

  lemma TakenEvents(queueMode: bool, db: Db, rows: seq<TaskId>, ds: seq<Delivery>, faults: nat -> Fault, now: Time,
                    p: Published, p': Published)
    requires TakenAs(db, p.db, rows, ds, now) && Handled(queueMode, p, p', ds, faults, now)
    ensures forall i | 0 <= i < |rows| ::
              rows[i] in db.events && rows[i] in p'.db.events
              && var e := db.events[rows[i]];
                 p'.db.events[rows[i]] ==
                   if faults(i) == NoFault then e.(state := EventState.Sent, attempts := e.attempts + 1, token := None, leaseEnd := None)
                   else e.(state := EventPending, attempts := e.attempts + 1, available := now + 5, token := None, leaseEnd := None)
  {
    forall i | 0 <= i < |rows|
      ensures rows[i] in db.events && rows[i] in p'.db.events
      ensures var e := db.events[rows[i]];
              p'.db.events[rows[i]] ==
                if faults(i) == NoFault then e.(state := EventState.Sent, attempts := e.attempts + 1, token := None, leaseEnd := None)
                else e.(state := EventPending, attempts := e.attempts + 1, available := now + 5, token := None, leaseEnd := None)
    {
      assert EventSettled(p.db, p'.db, ds[i], faults(i), now);
      hide Leased, Dropped, Counts;
    }
  }

  lemma TakenOthers(queueMode: bool, db: Db, rows: seq<TaskId>, ds: seq<Delivery>, faults: nat -> Fault, now: Time,
                    p: Published, p': Published)
    requires TakenAs(db, p.db, rows, ds, now) && Handled(queueMode, p, p', ds, faults, now)
    ensures p'.db == db.(events := p'.db.events, next := p'.db.next) && p'.db.events.Keys == db.events.Keys
    ensures forall id | id in db.events && id !in rows :: p'.db.events[id] == db.events[id]
    ensures forall m | m in p.messages :: m in p'.messages && p'.messages[m] == p.messages[m]
  {
    hide Leased, Dropped, EventSettled, Counts, MessagesBelow;
  }

  lemma TakenSenders(queueMode: bool, db: Db, claimed: Db, rows: seq<TaskId>, ds: seq<Delivery>, faults: nat -> Fault, now: Time)
    requires TakenAs(db, claimed, rows, ds, now)
    ensures SendingTasks(queueMode, claimed, ds, faults) == SentIn(queueMode, rows, faults)
    ensures |Senders(queueMode, claimed, ds, faults)| == |SentIn(queueMode, rows, faults)|
  {
    hide Leased, Dropped;
    forall i | 0 <= i < |rows| ensures Sends(queueMode, claimed, ds[i], faults(i)) <==> queueMode && faults(i) != NotSent { }
    hide Sends;
    Images(rows, Senders(queueMode, claimed, ds, faults));
    assert SentIn(queueMode, rows, faults) == Chosen(rows, Senders(queueMode, claimed, ds, faults));
  }

  function Chosen(rows: seq<TaskId>, at: set<nat>): set<TaskId> {
    set i | i in at && i < |rows| :: rows[i]
  }

  /** Distinct rows at a set of places are as many as the places. */
  lemma {:induction false} Images(rows: seq<TaskId>, at: set<nat>)
    requires (forall i | i in at :: i < |rows|) && forall i, j | 0 <= i < j < |rows| :: rows[i] != rows[j]
    ensures |Chosen(rows, at)| == |at|
  {
    if at == {} {
      assert Chosen(rows, at) == {};
    } else {
      var k :| k in at;
      Images(rows, at - {k});
      assert Chosen(rows, at) == Chosen(rows, at - {k}) + {rows[k]};
    }
  }

  lemma TakenCounts(queueMode: bool, db: Db, claimed: Db, rows: seq<TaskId>, ds: seq<Delivery>, faults: nat -> Fault, now: Time)
    requires TakenAs(db, claimed, rows, ds, now)
    ensures (set i | 0 <= i < |ds| && Counts(queueMode, claimed, ds[i], faults(i), now)) == Unfaulty(|rows|, faults)
  {
    hide Leased, Dropped;
  }

  lemma Totals(queueMode: bool, p: Published, p': Published, ds: seq<Delivery>, faults: nat -> Fault, now: Time)
    requires Handled(queueMode, p, p', ds, faults, now) && EachSendsOnce(queueMode, p, p', ds, faults)
    ensures (set m | m in p'.messages.Keys && m !in p.messages :: p'.messages[m]) == SendingTasks(queueMode, p.db, ds, faults)
    ensures |p'.messages| == |p.messages| + |Senders(queueMode, p.db, ds, faults)|
    ensures p'.sent == p.sent + |set i | 0 <= i < |ds| && Counts(queueMode, p.db, ds[i], faults(i), now)|
  {
    hide Counts, EventSettled, Senders, SendingTasks;
  }

  /** A call that nobody interferes with publishes every row it takes: the event is SENT unless the delivery fails, and then
    * it is offered again five seconds later. In queue mode every row has one new message unless its send fails. The call
    * returns the number of events it has made SENT, and nothing else changes. */
  lemma TakenRowsArePublished(queueMode: bool, db: Db, messages: map<MsgId, TaskId>, rows: seq<TaskId>, limit: nat,
                              faults: nat -> Fault, queryTime: Time, now: Time)
    requires Selected(db, rows, limit, queryTime) && MessagesBelow(messages, db.next)
    ensures RowsExist(db, rows)
    ensures var p := PublishBatch(queueMode, db, messages, rows, faults, now);
            && p.db == db.(events := p.db.events, next := p.db.next) && p.db.events.Keys == db.events.Keys
            && (forall i | 0 <= i < |rows| ::
                  var e := db.events[rows[i]];
                  p.db.events[rows[i]] ==
                    if faults(i) == NoFault then e.(state := EventState.Sent, attempts := e.attempts + 1, token := None, leaseEnd := None)
                    else e.(state := EventPending, attempts := e.attempts + 1, available := now + 5, token := None, leaseEnd := None))
            && (forall id | id in db.events && id !in rows :: p.db.events[id] == db.events[id])
            && (forall m | m in messages :: m in p.messages && p.messages[m] == messages[m])
            && (set m | m in p.messages.Keys && m !in messages :: p.messages[m]) == SentIn(queueMode, rows, faults)
            && |p.messages| == |messages| + |SentIn(queueMode, rows, faults)|
            && p.sent == |Unfaulty(|rows|, faults)|
  {
    BatchIsTaken(db, rows, limit, queryTime, now);
    var (claimed, ds) := ClaimBatch(db, rows, OUTBOX_LEASE, now);
    var start := Published(claimed, messages, 0);
    var p := PublishAll(queueMode, start, ds, faults, now);
    hide *;
    TakenDiffer(db, claimed, rows, ds, now);
    DeliveriesAreHandled(queueMode, start, ds, faults, now);
    TakenEvents(queueMode, db, rows, ds, faults, now, start, p);
    TakenOthers(queueMode, db, rows, ds, faults, now, start, p);
    TakenSenders(queueMode, db, claimed, rows, ds, faults, now);
    TakenCounts(queueMode, db, claimed, rows, ds, faults, now);
    Totals(queueMode, start, p, ds, faults, now);
  }
}
