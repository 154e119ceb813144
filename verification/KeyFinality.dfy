/** Exactly when a request can still be saved under its key, and for which refusals dropping the key is therefore final. */
module KeyFinality {
  import opened Wrappers
  import opened Rows
  import opened Resume
  import opened RowInvariant
  import opened Deployment
  import opened Invariants
  import DeploymentTheorems
  import Tasks
  import Transactions
  import C = SaveController
  import opened SaveProtocol
  import opened SaveSafety
  import opened SaveTheorems
  import opened DraftStuck
  import opened RequestFate
  import DraftRuns

  // ---- runs that carry a request out

  /** An operation number that no row uses, other than `op`. */
  lemma FreshOp(ops: set<(UserId, OpId)>, op: OpId) returns (r: OpId)
    ensures r != op && forall k | k in ops :: k.1 < r
  {
    if ops == {} {
      r := op + 1;
    } else {
      var k :| k in ops;
      var below := FreshOp(ops - {k}, op);
      r := if below > k.1 then below else if k.1 + 1 == op then k.1 + 2 else k.1 + 1;
      assert forall j | j in ops :: j == k || j in ops - {k};
    }
  }

  function OtherContent(db: Db, user: UserId): Content {
    if user in db.profiles then db.profiles[user].content + "x" else "x"
  }

  lemma OtherContentChanges(db: Db, user: UserId, expected: nat)
    ensures Changes(db, user, Payload(expected, OtherContent(db, user), None, 0))
  {
    if user in db.profiles {
      assert |OtherContent(db, user)| == |db.profiles[user].content| + 1;
    }
  }

  /** The tables as a save of a current request leaves them, reached in one step. */
  lemma SaveStep(env: Env, s: Sys, user: UserId, op: OpId, payload: Payload) returns (s': Sys)
    requires SysOk(env, s) && user in s.db.users && s.db.users[user] == payload.expected
    requires (user, op) !in s.db.ops && ReviewedDraft(s.db, user, payload, s.clock)
    ensures Next(env, s, Step(s.clock, Save(user, op, payload)), s') && SysOk(env, s')
    ensures s'.db.users == s.db.users[user := if Changes(s.db, user, payload) then s.db.users[user] + 1 else s.db.users[user]]
    ensures s'.db.ops.Keys == s.db.ops.Keys + {(user, op)} && Carried(s'.db, user, op, payload)
  {
    hide *;
    s' := SaveStepTables(env, s, user, op, payload);
    DbOf(env, s);
    CarriedOut(s.db, user, op, payload, s.clock);
  }

  lemma CarriedOut(db: Db, user: UserId, op: OpId, payload: Payload, now: Time)
    requires DbOk(db, now) && user in db.users && db.users[user] == payload.expected
    requires (user, op) !in db.ops && ReviewedDraft(db, user, payload, now)
    ensures var r := SaveMain(db, user, op, payload, now).db;
            && r.users == db.users[user := if Changes(db, user, payload) then db.users[user] + 1 else db.users[user]]
            && r.ops.Keys == db.ops.Keys + {(user, op)} && Carried(r, user, op, payload)
  {
    AcceptedWhenCurrent(db, now, user, op, payload, now);
    hide DbOk, SaveMain, Changes, Transactions.CaseOf;
  }

  lemma SaveStepTables(env: Env, s: Sys, user: UserId, op: OpId, payload: Payload) returns (s': Sys)
    requires SysOk(env, s) && user in s.db.users
    ensures Next(env, s, Step(s.clock, Save(user, op, payload)), s') && SysOk(env, s')
    ensures s'.db == SaveMain(s.db, user, op, payload, s.clock).db
  {
    var step := Step(s.clock, Save(user, op, payload));
    s' := Run(env, s, step);
    SaveEffect(env, s, s.clock, step.action);
    assert Next(env, s, step, s');
    hide SysOk, SaveMain, Effect, Next;
    DeploymentTheorems.StepKeeps(env, s, step, s');
  }

  lemma DbOf(env: Env, s: Sys)
    requires SysOk(env, s)
    ensures DbOk(s.db, s.clock)
  {
    hide StorageOk, QueueOk, ProfilesOk, CompletionsOk, ReadsOk, JobsOk, DbOk;
  }

  /** Some run saves its way up to the requested revision and then carries the request out. */
  lemma {:induction false} CatchesUp(env: Env, start: Sys, s: Sys, user: UserId, op: OpId, payload: Payload)
    requires Leads(env, start, s) && SysOk(env, s) && user in s.db.users && s.db.users[user] <= payload.expected
    requires (user, op) !in s.db.ops && payload.extraction.None?
    ensures exists s' :: Leads(env, start, s') && Carried(s'.db, user, op, payload)
    decreases payload.expected - s.db.users[user]
  {
    hide Leads, SysOk, Next, Changes, Carried;
    if s.db.users[user] == payload.expected {
      var s' := SaveStep(env, s, user, op, payload);
      LeadsNext(env, start, s, Step(s.clock, Save(user, op, payload)), s');
      assert Leads(env, start, s') && Carried(s'.db, user, op, payload);
    } else {
      var other := FreshOp(s.db.ops.Keys, op);
      var change := Payload(s.db.users[user], OtherContent(s.db, user), None, 0);
      OtherContentChanges(s.db, user, s.db.users[user]);
      assert (user, other) !in s.db.ops by { assert (user, other).1 == other; }
      var s' := SaveStep(env, s, user, other, change);
      LeadsNext(env, start, s, Step(s.clock, Save(user, other, change)), s');
      CatchesUp(env, start, s', user, op, payload);
    }
  }

  /** A draft that may serve belongs to the account's current revision. */
  lemma DraftIsCurrent(env: Env, s: Sys, user: UserId, payload: Payload)
    requires SysOk(env, s) && user in s.db.users && s.db.users[user] <= payload.expected
    requires payload.extraction.Some? && DraftMayServe(env, s, user, payload)
    ensures s.db.users[user] == payload.expected
  {
    DbOf(env, s);
    hide SysOk, CanFinish;
    assert Linked(s.db, s.db.tasks[payload.extraction.value]);
  }

  /** A request with a free key that the account has not passed, and whose draft may serve, is carried out by some run. */
  lemma SomeRunCarriesOut(env: Env, s: Sys, user: UserId, op: OpId, payload: Payload)
    requires SysOk(env, s) && user in s.db.users && s.db.users[user] <= payload.expected
    requires (user, op) !in s.db.ops && DraftMayServe(env, s, user, payload)
    ensures exists s' :: Leads(env, s, s') && Carried(s'.db, user, op, payload)
  {
    hide SysOk, Leads, Carried, CanFinish, ReviewedDraft;
    LeadsSelf(env, s);
    if payload.extraction.None? {
      CatchesUp(env, s, s, user, op, payload);
    } else {
      DraftIsCurrent(env, s, user, payload);
      if ReviewedDraft(s.db, user, payload, s.clock) {
        SavesFrom(env, s, s, user, op, payload);
      } else {
        var s1 := DraftRuns.DraftIsMade(env, s, s, payload.extraction.value, user, op, payload.expected);
        SavesFrom(env, s, s1, user, op, payload);
      }
    }
  }

  lemma SavesFrom(env: Env, start: Sys, s: Sys, user: UserId, op: OpId, payload: Payload)
    requires Leads(env, start, s) && SysOk(env, s) && user in s.db.users && s.db.users[user] == payload.expected
    requires (user, op) !in s.db.ops && ReviewedDraft(s.db, user, payload, s.clock)
    ensures exists s' :: Leads(env, start, s') && Carried(s'.db, user, op, payload)
  {
    hide Leads, SysOk, Next, Carried, ReviewedDraft, Changes;
    var s' := SaveStep(env, s, user, op, payload);
    LeadsNext(env, start, s, Step(s.clock, Save(user, op, payload)), s');
  }

  /** The request can still be carried out: its key is free, the account has not passed its revision and the draft it names,
    * if any, may serve. */
  predicate StillOpen(env: Env, s: Sys, user: UserId, op: OpId, payload: Payload) {
    user in s.db.users && (user, op) !in s.db.ops && s.db.users[user] <= payload.expected && DraftMayServe(env, s, user, payload)
  }

  /** A draft is named by an identifier that the server has issued. */
  predicate Issued(s: Sys, extraction: Option<TaskId>) {
    extraction.Some? ==> extraction.value < s.db.next
  }

  /** Some run carries a request out if and only if it has been carried out or is still open. */
  lemma CarriedOutExactlyWhileOpen(env: Env, s: Sys, user: UserId, op: OpId, payload: Payload)
    requires SysOk(env, s) && user in s.db.users && Issued(s, payload.extraction)
    ensures (exists s' :: Leads(env, s, s') && Carried(s'.db, user, op, payload))
            <==> Carried(s.db, user, op, payload) || StillOpen(env, s, user, op, payload)
  {
    hide SysOk, Leads, DraftMayServe, Carried;
    if Carried(s.db, user, op, payload) {
      LeadsSelf(env, s);
    } else if StillOpen(env, s, user, op, payload) {
      SomeRunCarriesOut(env, s, user, op, payload);
    } else {
      ClosedIsHopeless(env, s, user, op, payload);
      forall s' | Leads(env, s, s') ensures !Carried(s'.db, user, op, payload) {
        NeverCarried(env, s, s', user, op, payload);
      }
    }
  }

  lemma ClosedIsHopeless(env: Env, s: Sys, user: UserId, op: OpId, payload: Payload)
    requires user in s.db.users && Issued(s, payload.extraction)
    requires !Carried(s.db, user, op, payload) && !StillOpen(env, s, user, op, payload)
    ensures Hopeless(env, s, user, op, payload)
  {
    hide Carried, CanFinish, ReviewedDraft;
  }

  lemma NeverCarried(env: Env, s: Sys, s': Sys, user: UserId, op: OpId, payload: Payload)
    requires SysOk(env, s) && Hopeless(env, s, user, op, payload) && Leads(env, s, s')
    ensures !Carried(s'.db, user, op, payload)
  {
    var states, steps :| IsRun(env, states, steps) && states[0] == s && states[|states| - 1] == s';
    hide IsRun, SysOk, NoDraft;
    HopelessForever(env, states, steps, user, op, payload, |states| - 1);
  }

  /** A request that is answered REVISION_CONFLICT can still be carried out exactly when it is ahead of the account and
    * names no draft. */
  lemma ConflictSettlesExactlyPastRevisions(env: Env, s: Sys, user: UserId, op: OpId, payload: Payload)
    requires SysOk(env, s) && user in s.db.users && Issued(s, payload.extraction) && OpsOk(s.db)
    requires Precheck(s.db, user, op, payload, s.clock) == Some(RevisionConflict(Some(s.db.users[user])))
    ensures (exists s' :: Leads(env, s, s') && Carried(s'.db, user, op, payload))
            <==> s.db.users[user] < payload.expected && payload.extraction.None?
  {
    CarriedOutExactlyWhileOpen(env, s, user, op, payload);
    CheckRefuses(s.db, user, op, payload, s.clock, s.clock);
    hide SysOk, Leads, CanFinish, NamesOwnDraft;
    if payload.extraction.Some? && StillOpen(env, s, user, op, payload) { DraftIsCurrent(env, s, user, payload); }
  }

  // ---- the same for what a browser has sent

  ghost predicate SavedAlready(db: Db, sent: Put) {
    exists revision :: SavedFor(db, sent, revision)
  }

  /** Some run saves this PUT's request under its key. */
  ghost predicate EverSaved(env: Env, s: Sys, sent: Put) {
    exists s' :: Leads(env, s, s') && SavedAlready(s'.db, sent)
  }

  predicate SentOpen(env: Env, s: Sys, sent: Put) {
    StillOpen(env, s, sent.user, sent.key, PayloadOf(sent.request, 0))
  }

  lemma SavedIsCarried(db: Db, sent: Put, version: Version)
    ensures Carried(db, sent.user, sent.key, PayloadOf(sent.request, version)) ==> SavedAlready(db, sent)
    ensures SavedAlready(db, sent) ==> var v := db.ops[(sent.user, sent.key)].payload.version;
                                       Carried(db, sent.user, sent.key, PayloadOf(sent.request, v))
  {
    if Carried(db, sent.user, sent.key, PayloadOf(sent.request, version)) {
      assert SavedFor(db, sent, db.ops[(sent.user, sent.key)].result.value);
    }
  }

  /** Whatever version of the embedding the server runs, a PUT's request is saved by some run if and only if it is saved
    * already or still open. */
  lemma EverSavedExactlyWhileOpen(env: Env, s: Sys, sent: Put)
    requires SysOk(env, s) && sent.user in s.db.users && Issued(s, sent.request.extraction)
    ensures EverSaved(env, s, sent) <==> SavedAlready(s.db, sent) || SentOpen(env, s, sent)
  {
    hide SysOk, Leads, DraftMayServe, SavedAlready;
    if EverSaved(env, s, sent) {
      var s' :| Leads(env, s, s') && SavedAlready(s'.db, sent);
      SavedIsCarried(s'.db, sent, 0);
      var v := s'.db.ops[(sent.user, sent.key)].payload.version;
      SavedIsCarried(s.db, sent, v);
      CarriedOutExactlyWhileOpen(env, s, sent.user, sent.key, PayloadOf(sent.request, v));
      OpenAtAnyVersion(env, s, sent, v);
    } else if SavedAlready(s.db, sent) {
      LeadsSelf(env, s);
    } else if SentOpen(env, s, sent) {
      CarriedOutExactlyWhileOpen(env, s, sent.user, sent.key, PayloadOf(sent.request, 0));
      var s' :| Leads(env, s, s') && Carried(s'.db, sent.user, sent.key, PayloadOf(sent.request, 0));
      SavedIsCarried(s'.db, sent, 0);
    }
  }

  lemma OpenAtAnyVersion(env: Env, s: Sys, sent: Put, version: Version)
    ensures StillOpen(env, s, sent.user, sent.key, PayloadOf(sent.request, version)) <==> SentOpen(env, s, sent)
  {
    hide CanFinish;
  }

  // ---- which answers settle a request

  /** A step in which a handler may answer its PUT. */
  predicate Handles(s: Net, a: NetAction) {
    (a.Check? || a.PrivacyFailure? || a.Review? || a.SaveNow?) && a.put < |s.puts| && s.puts[a.put].user in s.sys.db.users
  }

  /** What the handler answers, if anything. */
  function AnswerOf(s: Net, a: NetAction): Option<Reply>
    requires Handles(s, a)
  {
    var sent, db := s.puts[a.put], s.sys.db;
    var payload := PayloadOf(sent.request, a.version);
    match a
    case Check(_, _, now) => Precheck(db, sent.user, sent.key, payload, now)
    case PrivacyFailure(_, _) => Some(ServiceUnavailable)
    case Review(_, _, now) => Some(SaveReview(db, sent.user, sent.key, payload, now).reply)
    case SaveNow(_, _, now) => Some(SaveMain(db, sent.user, sent.key, payload, now).reply)
  }

  /** The draft the request names is still being made and can be finished. */
  predicate DraftToCome(env: Env, s: Sys, sent: Put) {
    NamesOwnDraft(s.db, sent.user, PayloadOf(sent.request, 0)) && Live(s.db.tasks[sent.request.extraction.value])
    && 0 < env.ttl && CanFinish(s, sent.request.extraction.value)
  }

  /** What the tables are like when a request has been refused. */
  predicate RefusedIn(db: Db, user: UserId, op: OpId, payload: Payload, now: Time, r: Reply)
    requires user in db.users
  {
    match r
    case IdempotencyConflict => (user, op) in db.ops && db.ops[(user, op)].payload != payload && OpOk(db.ops[(user, op)])
    case OperationExpired => (user, op) in db.ops && db.ops[(user, op)].payload == payload && OpOk(db.ops[(user, op)])
    case ReviewRequired => (user, op) in db.ops && db.ops[(user, op)].state == OpFailed
    case RevisionConflict(current) =>
      current == Some(db.users[user]) && (user, op) !in db.ops && db.users[user] != payload.expected
    case DraftGone => (user, op) !in db.ops && db.users[user] == payload.expected && !ReviewedDraft(db, user, payload, now)
    case _ => true
  }

  lemma CheckRefuses(db: Db, user: UserId, op: OpId, payload: Payload, now: Time, clock: Time)
    requires OpsOk(db) && user in db.users && Precheck(db, user, op, payload, now).Some?
    ensures RefusedIn(db, user, op, payload, clock, Precheck(db, user, op, payload, now).value)
  {
    assert (user, op) in db.ops ==> OpOk(db.ops[(user, op)]);
  }

  lemma ReviewRefuses(db: Db, user: UserId, op: OpId, payload: Payload, now: Time)
    requires OpsOk(db) && user in db.users
    ensures var r := SaveReview(db, user, op, payload, now); r.db.users == db.users && RefusedIn(r.db, user, op, payload, now, r.reply)
  {
    assert (user, op) in db.ops ==> OpOk(db.ops[(user, op)]);
  }

  lemma SaveRefuses(db: Db, user: UserId, op: OpId, payload: Payload, now: Time)
    requires OpsOk(db) && user in db.users
    ensures var r := SaveMain(db, user, op, payload, now); user in r.db.users && RefusedIn(r.db, user, op, payload, now, r.reply)
  {
    assert (user, op) in db.ops ==> OpOk(db.ops[(user, op)]);
    hide ReviewedDraft, Changes, FailedEmbedding, Tasks.Enqueue;
  }

  /** After the step the tables are as the answer says. */
  lemma AnsweredIn(env: Env, s: Net, a: NetAction)
    requires OpsOk(s.sys.db) && NetEnabled(env, s, a) && Handles(s, a) && AnswerOf(s, a).Some?
    ensures var sent, sys := s.puts[a.put], NetEffect(env, s, a).sys;
            sent.user in sys.db.users
            && RefusedIn(sys.db, sent.user, sent.key, PayloadOf(sent.request, a.version), sys.clock, AnswerOf(s, a).value)
  {
    var sent := s.puts[a.put];
    var payload := PayloadOf(sent.request, a.version);
    hide OpsOk, Precheck, SaveReview, SaveMain, Effect, Enabled, RefusedIn;
    match a
    case Check(_, _, now) => CheckRefuses(s.sys.db, sent.user, sent.key, payload, now, s.sys.clock);
    case PrivacyFailure(_, _) => UnavailableSaysNothing(s.sys.db, sent.user, sent.key, payload, s.sys.clock);
    case Review(put, version, now) =>
      StepDb(env, s, put, version, now, true);
      ReviewRefuses(s.sys.db, sent.user, sent.key, payload, now);
      ClockAfter(env, s, put, version, now, true);
    case SaveNow(put, version, now) =>
      StepDb(env, s, put, version, now, false);
      SaveRefuses(s.sys.db, sent.user, sent.key, payload, now);
      ClockAfter(env, s, put, version, now, false);
  }

  lemma UnavailableSaysNothing(db: Db, user: UserId, op: OpId, payload: Payload, now: Time)
    requires user in db.users
    ensures RefusedIn(db, user, op, payload, now, ServiceUnavailable)
  {
  }

  lemma ClockAfter(env: Env, s: Net, put: PutId, version: Version, now: Time, review: bool)
    requires put < |s.puts| && CanRun(env, s.sys, ServerStep(s, put, version, now, review))
    ensures AfterStep(env, s, ServerStep(s, put, version, now, review)).sys.clock == now
  {
    var step := ServerStep(s, put, version, now, review);
    DeploymentTheorems.ClockUntouched(env, s.sys.(clock := now), now, step.action);
    hide Effect, Enabled;
  }

  /** The request has been saved under this key by a server that ran another embedding version. */
  predicate SavedElsewhere(db: Db, sent: Put, version: Version) {
    SaveTheorems.Succeeded(db, sent.user, sent.key)
    && var stored := db.ops[(sent.user, sent.key)].payload;
       stored == PayloadOf(sent.request, stored.version) && stored.version != version
  }

  /** For each refusal after which the controller gives the key up: exactly when the request can still be saved under it. */
  ghost predicate Settles(env: Env, s: Sys, sent: Put, version: Version, r: Reply)
    requires sent.user in s.db.users
  {
    match r
    case IdempotencyConflict => EverSaved(env, s, sent) <==> SavedElsewhere(s.db, sent, version)
    case OperationExpired => EverSaved(env, s, sent) <==> SaveTheorems.Succeeded(s.db, sent.user, sent.key)
    case ReviewRequired => !EverSaved(env, s, sent)
    case RevisionConflict(current) =>
      current == Some(s.db.users[sent.user])
      && (EverSaved(env, s, sent) <==> s.db.users[sent.user] < sent.request.expected && sent.request.extraction.None?)
    case DraftGone => EverSaved(env, s, sent) <==> DraftToCome(env, s, sent)
    case ServiceUnavailable => EverSaved(env, s, sent) <==> SavedAlready(s.db, sent) || SentOpen(env, s, sent)
    case _ => true
  }

  lemma RefusalSettles(env: Env, s: Sys, sent: Put, version: Version, r: Reply)
    requires SysOk(env, s) && sent.user in s.db.users && Issued(s, sent.request.extraction)
    requires RefusedIn(s.db, sent.user, sent.key, PayloadOf(sent.request, version), s.clock, r)
    ensures Settles(env, s, sent, version, r)
  {
    EverSavedExactlyWhileOpen(env, s, sent);
    SavedNeedsRow(s.db, sent);
    hide EverSaved, SavedAlready, CanFinish, NamesOwnDraft, SysOk;
    if r.RevisionConflict? && sent.request.extraction.Some? && SentOpen(env, s, sent) {
      DraftIsCurrent(env, s, sent.user, PayloadOf(sent.request, 0));
    }
    hide OpOk;
    if r.OperationExpired? || r.IdempotencyConflict? { RowSaved(s.db, sent); }
  }

  lemma SavedNeedsRow(db: Db, sent: Put)
    ensures SavedAlready(db, sent) ==> SaveTheorems.Succeeded(db, sent.user, sent.key)
  {
  }

  lemma RowSaved(db: Db, sent: Put)
    requires (sent.user, sent.key) in db.ops && OpOk(db.ops[(sent.user, sent.key)])
    ensures var stored := db.ops[(sent.user, sent.key)].payload;
            SavedAlready(db, sent) <==>
              (SaveTheorems.Succeeded(db, sent.user, sent.key) && stored == PayloadOf(sent.request, stored.version))
  {
    var row := db.ops[(sent.user, sent.key)];
    if row.result.Some? && row.state == OpSucceeded && row.payload == PayloadOf(sent.request, row.payload.version) {
      assert SavedFor(db, sent, row.result.value);
    }
  }

  /** Which answers settle a request, and when: at the moment a handler answers, in every reachable state. */
  lemma RefusalsSettleExactly(env: Env, states: seq<Net>, actions: seq<NetAction>, i: nat)
    requires NetRun(env, states, actions) && i < |actions|
    requires Handles(states[i], actions[i]) && AnswerOf(states[i], actions[i]).Some?
    requires Issued(states[i + 1].sys, states[i].puts[actions[i].put].request.extraction)
    ensures var sent, r, sys := states[i].puts[actions[i].put], AnswerOf(states[i], actions[i]).value, states[i + 1].sys;
            (actions[i].put, r) in states[i + 1].answers && sent.user in sys.db.users
            && Settles(env, sys, sent, actions[i].version, r)
  {
    var s, a, s' := states[i], actions[i], states[i + 1];
    NetSafe(env, states, actions, i);
    NetSafe(env, states, actions, i + 1);
    assert NetEnabled(env, s, a) && s' == NetEffect(env, s, a);
    hide NetRun, NetEnabled, NetEffect;
    SystemOf(env, s);
    SystemOf(env, s');
    hide NetOk;
    AnsweredIn(env, s, a);
    AnswerIsSent(env, s, a);
    hide AnswerOf, RefusedIn, Settles, Handles, Issued;
    RefusalSettles(env, s'.sys, s.puts[a.put], a.version, AnswerOf(s, a).value);
  }

  lemma SystemOf(env: Env, s: Net)
    requires NetOk(env, s)
    ensures SysOk(env, s.sys) && OpsOk(s.sys.db)
  {
    hide SysOk, OpsOk, CommitsOk, AnswersOk, ReportsOk, KeysOk;
  }

  lemma AnswerIsSent(env: Env, s: Net, a: NetAction)
    requires NetEnabled(env, s, a) && Handles(s, a) && AnswerOf(s, a).Some?
    ensures (a.put, AnswerOf(s, a).value) in NetEffect(env, s, a).answers
  {
    hide Precheck, SaveReview, SaveMain, CanRun, AfterStep;
  }

  /** What browsers, network and handlers do to the tables is a run of the deployment. */
  lemma {:induction false} NetLeads(env: Env, states: seq<Net>, actions: seq<NetAction>, i: nat, j: nat)
    requires NetRun(env, states, actions) && i <= j < |states|
    ensures Leads(env, states[i].sys, states[j].sys)
  {
    hide NetEnabled, NetEffect, Leads;
    if i == j {
      LeadsSelf(env, states[i].sys);
    } else {
      NetLeads(env, states, actions, i, j - 1);
      NetStepLeads(env, states[i].sys, states[j - 1], actions[j - 1]);
    }
  }

  lemma NetStepLeads(env: Env, start: Sys, s: Net, a: NetAction)
    requires Leads(env, start, s.sys) && NetEnabled(env, s, a)
    ensures Leads(env, start, NetEffect(env, s, a).sys)
  {
    hide Leads, Effect, Enabled, SaveMain, SaveReview, Precheck, React;
    match a
    case Review(put, version, now) => LeadsNext(env, start, s.sys, ServerStep(s, put, version, now, true), NetEffect(env, s, a).sys);
    case SaveNow(put, version, now) => LeadsNext(env, start, s.sys, ServerStep(s, put, version, now, false), NetEffect(env, s, a).sys);
    case Elsewhere(step) => LeadsNext(env, start, s.sys, step, NetEffect(env, s, a).sys);
    case _ =>
  }

  /** A request that no run saves any more is not saved at any later time, whatever is delayed or duplicated. */
  lemma SettledForGood(env: Env, states: seq<Net>, actions: seq<NetAction>, i: nat, j: nat, sent: Put)
    requires NetRun(env, states, actions) && i <= j < |states| && !EverSaved(env, states[i].sys, sent)
    ensures !SavedAlready(states[j].sys.db, sent)
  {
    hide NetRun, Leads, SavedAlready;
    NetLeads(env, states, actions, i, j);
  }

  // ---- a run to the 503 case

  const REQUEST: C.Request := C.Request(0, "x", None)
  const SENT: Put := Put(0, 0, REQUEST)

  function Accounts(): Sys {
    Init(false, 0).(db := Rows.EmptyDb().(users := map[0 := 0]))
  }

  /** One account and one browser, in the states of a save whose privacy check fails. */
  function Browsing(client: Option<Client>, started: bool, sent: bool, checked: bool, answered: bool, told: bool): Net {
    Net(Accounts(), if client.Some? then map[0 := client.value] else map[], if started then 1 else 0, if sent then [SENT] else [],
        if checked then {(0, 0)} else {}, if answered then {(0, ServiceUnavailable)} else {}, [],
        if told then [Report(SENT, C.FailedStatus(C.OtherCode))] else [])
  }

  function Waiting(awaiting: Option<PutId>): Option<Client> {
    Some(Client(0, Some(C.Attempt(0, REQUEST)), Some(Call(C.Attempt(0, REQUEST), false, 0, awaiting))))
  }

  const IDLE: Client := Client(0, None, None)

  function FailedCheck(): seq<NetAction> {
    [Elsewhere(Step(0, CreateUser(0))), Open(0, 0), StartSave(0, REQUEST), Transmit(0), Check(0, 0, 0), PrivacyFailure(0, 0),
     Hear(0, OutcomeOf(ServiceUnavailable), None)]
  }

  function FailedCheckStates(): seq<Net> {
    [NetInit(false, 0),
     Browsing(None, false, false, false, false, false),
     Browsing(Some(IDLE), false, false, false, false, false),
     Browsing(Waiting(None), true, false, false, false, false),
     Browsing(Waiting(Some(0)), true, true, false, false, false),
     Browsing(Waiting(Some(0)), true, true, true, false, false),
     Browsing(Waiting(Some(0)), true, true, true, true, false),
     Browsing(Some(IDLE), true, true, true, true, true)]
  }

  predicate Goes(env: Env, s: Net, a: NetAction, s': Net) {
    NetEnabled(env, s, a) && NetEffect(env, s, a) == s'
  }

  lemma FirstSteps(env: Env)
    ensures Goes(env, NetInit(false, 0), Elsewhere(Step(0, CreateUser(0))), Browsing(None, false, false, false, false, false))
    ensures Goes(env, Browsing(None, false, false, false, false, false), Open(0, 0),
                 Browsing(Some(IDLE), false, false, false, false, false))
    ensures Goes(env, Browsing(Some(IDLE), false, false, false, false, false), StartSave(0, REQUEST),
                 Browsing(Waiting(None), true, false, false, false, false))
    ensures Goes(env, Browsing(Waiting(None), true, false, false, false, false), Transmit(0),
                 Browsing(Waiting(Some(0)), true, true, false, false, false))
  {
  }

  lemma LastSteps(env: Env)
    ensures Goes(env, Browsing(Waiting(Some(0)), true, true, false, false, false), Check(0, 0, 0),
                 Browsing(Waiting(Some(0)), true, true, true, false, false))
    ensures Goes(env, Browsing(Waiting(Some(0)), true, true, true, false, false), PrivacyFailure(0, 0),
                 Browsing(Waiting(Some(0)), true, true, true, true, false))
  {
  }

  lemma KeyDropped(env: Env)
    ensures Goes(env, Browsing(Waiting(Some(0)), true, true, true, true, false), Hear(0, OutcomeOf(ServiceUnavailable), None),
                 Browsing(Some(IDLE), true, true, true, true, true))
  {
    var s := Browsing(Waiting(Some(0)), true, true, true, true, false);
    assert (0, ServiceUnavailable) in s.answers;
  }

  /** The save is sent, its check fails, the browser hears the 503 and drops the key. */
  lemma FailedCheckRun(env: Env)
    ensures NetRun(env, FailedCheckStates(), FailedCheck())
  {
    FirstSteps(env);
    LastSteps(env);
    KeyDropped(env);
    hide NetEnabled, NetEffect, Browsing, Waiting;
  }

  /** From the empty system: a browser is told FAILED after a 503 and drops the key, and a duplicate is then saved under it. */
  lemma UnavailableIsReachable(env: Env) returns (states: seq<Net>, actions: seq<NetAction>)
    ensures NetRun(env, states, actions) && |actions| == 8
    ensures states[7].clients == map[0 := IDLE] && states[7].puts == [SENT] && states[7].commits == []
    ensures states[7].reports == [Report(SENT, C.FailedStatus(C.OtherCode))]
    ensures SavedAlready(states[8].sys.db, SENT)
  {
    FailedCheckRun(env);
    var before := FailedCheckStates();
    var s := before[7];
    NetSafe(env, before, FailedCheck(), 7);
    SystemOf(env, s);
    hide NetRun, NetOk, SavedFor, SysOk;
    DuplicateSaves(env, s, 0, 0, 0);
    states, actions := before + [NetEffect(env, s, SaveNow(0, 0, 0))], FailedCheck() + [SaveNow(0, 0, 0)];
    MoreRun(env, before, FailedCheck(), SaveNow(0, 0, 0));
  }

  lemma MoreRun(env: Env, states: seq<Net>, actions: seq<NetAction>, a: NetAction)
    requires NetRun(env, states, actions) && NetEnabled(env, states[|states| - 1], a)
    ensures NetRun(env, states + [NetEffect(env, states[|states| - 1], a)], actions + [a])
  {
    hide NetEnabled, NetEffect;
    var states', actions' := states + [NetEffect(env, states[|states| - 1], a)], actions + [a];
    forall i | 0 <= i < |actions'| ensures NetEnabled(env, states'[i], actions'[i]) && states'[i + 1] == NetEffect(env, states'[i], actions'[i]) {
      if i < |actions| { assert states'[i] == states[i] && actions'[i] == actions[i]; }
    }
  }
}
