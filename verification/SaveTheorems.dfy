/** Exactly-once saving, over every run of browsers, network and server. */
module SaveTheorems {
  import opened Wrappers
  import opened Rows
  import opened Resume
  import opened RowInvariant
  import opened Deployment
  import opened Invariants
  import DeploymentTheorems
  import Tasks
  import Transactions
  import C = SaveController
  import opened SaveProtocol
  import opened SaveSafety

  // ---- the keys

  lemma OpenKeys(s: Net, c: ClientId, user: UserId)
    requires KeysOk(s) && c !in s.clients
    ensures KeysOk(s.(clients := s.clients[c := Client(user, None, None)]))
  {
    var s' := s.(clients := s.clients[c := Client(user, None, None)]);
    forall d | d in s'.clients ensures ClientOk(s', s'.clients[d]) {
      if d != c { assert ClientOk(s, s.clients[d]); }
    }
  }

  lemma StartKeys(s: Net, c: ClientId, request: C.Request)
    requires KeysOk(s) && c in s.clients
    ensures KeysOk(AfterStart(s, c, request))
  {
    var s' := AfterStart(s, c, request);
    assert ClientOk(s, s.clients[c]);
    forall d | d in s'.clients ensures ClientOk(s', s'.clients[d]) {
      assert ClientOk(s, s.clients[d]);
    }
  }

  lemma TransmitKeys(s: Net, c: ClientId)
    requires KeysOk(s) && Calling(s, c)
    ensures KeysOk(AfterTransmit(s, c))
  {
    var s' := AfterTransmit(s, c);
    var client := s.clients[c];
    assert ClientOk(s, client);
    var used := client.call.value.used;
    assert AttemptOk(s, client.user, used);
    forall d | d in s'.clients ensures ClientOk(s', s'.clients[d]) {
      assert ClientOk(s, s.clients[d]);
      if d != c && s.clients[d].attempt.Some? { assert s.clients[d].attempt.value.key != used.key; }
    }
    forall p, q | 0 <= p < |s'.puts| && 0 <= q < |s'.puts| && s'.puts[p].key == s'.puts[q].key
      ensures s'.puts[p] == s'.puts[q]
    {
    }
  }

  lemma HearKeys(s: Net, c: ClientId, o: C.Outcome, refreshed: Option<Option<nat>>)
    requires KeysOk(s) && Calling(s, c)
    ensures KeysOk(AfterHear(s, c, o, refreshed))
  {
    var s' := AfterHear(s, c, o, refreshed);
    hide C.AsksAgain, C.KeepsKey, C.StatusOf;
    assert ClientOk(s, s.clients[c]);
    forall d | d in s'.clients ensures ClientOk(s', s'.clients[d]) {
      assert ClientOk(s, s.clients[d]);
    }
  }

  lemma ForgetKeys(s: Net, c: ClientId)
    requires KeysOk(s) && c in s.clients && s.clients[c].call.None?
    ensures KeysOk(s.(clients := s.clients[c := s.clients[c].(attempt := None)]))
  {
    var s' := s.(clients := s.clients[c := s.clients[c].(attempt := None)]);
    forall d | d in s'.clients ensures ClientOk(s', s'.clients[d]) {
      assert ClientOk(s, s.clients[d]);
    }
  }

  /** A step of the server leaves the browsers and what was sent alone. */
  lemma ServerKeys(s: Net, s': Net)
    requires KeysOk(s) && s'.clients == s.clients && s'.newKey == s.newKey && s'.puts == s.puts
    requires forall h | h in s'.checked :: h.0 < |s.puts|
    ensures KeysOk(s')
  {
    forall d | d in s'.clients ensures ClientOk(s', s'.clients[d]) {
      assert ClientOk(s, s.clients[d]);
    }
  }

  // ---- the reports

  /** Profiles carry their account's revision. */
  predicate ProfilesMatch(db: Db) {
    forall u | u in db.profiles :: u in db.users && db.profiles[u].revision == db.users[u]
  }

  /** What the client is waiting for. */
  function SentBy(client: Client): Put
    requires client.call.Some?
  {
    Put(client.user, client.call.value.used.key, client.call.value.used.request)
  }

  lemma EarlyReport(db: Db, client: Client, o: C.Outcome, refreshed: Option<Option<nat>>)
    requires client.call.Some? && (o.Unknown? || RefusedEarly(o))
    ensures var told := React(client, o, refreshed).1; told.Some? ==> ReportOk(db, Report(SentBy(client), told.value))
  {
  }

  lemma AnsweredReport(db: Db, client: Client, puts: seq<Put>, put: PutId, r: Reply, refreshed: Option<Option<nat>>)
    requires client.call.Some? && AnswerOk(db, puts, put, r) && puts[put] == SentBy(client)
    requires ProfilesMatch(db) && ReadBack(db, client.user, refreshed)
    ensures var told := React(client, OutcomeOf(r), refreshed).1; told.Some? ==> ReportOk(db, Report(SentBy(client), told.value))
  {
    hide SavedFor, Missed, ReviewStoredFor;
    match r
    case Saved(_, _) =>
    case RevisionConflict(_) =>
    case ReviewRequired =>
    case _ =>
  }

  lemma HearReport(s: Net, c: ClientId, o: C.Outcome, refreshed: Option<Option<nat>>)
    requires AnswersOk(s.sys.db, s.puts, s.answers) && KeysOk(s) && Calling(s, c)
    requires ProfilesMatch(s.sys.db) && ReadBack(s.sys.db, s.clients[c].user, refreshed)
    requires s.clients[c].call.value.awaiting.Some? && Hearable(s, s.clients[c].call.value.awaiting.value, o)
    ensures var told := React(s.clients[c], o, refreshed).1;
            told.Some? ==> ReportOk(s.sys.db, Report(SentBy(s.clients[c]), told.value))
  {
    hide React, ReportOk, ProfilesMatch, ReadBack, AnswerOk;
    var client := s.clients[c];
    assert ClientOk(s, client);
    hide KeysOk;
    if o.Unknown? || RefusedEarly(o) {
      EarlyReport(s.sys.db, client, o, refreshed);
    } else {
      var a :| a in s.answers && a.0 == client.call.value.awaiting.value && OutcomeOf(a.1) == o;
      assert AnswerOk(s.sys.db, s.puts, a.0, a.1);
      AnsweredReport(s.sys.db, client, s.puts, a.0, a.1, refreshed);
    }
  }

  lemma ReportAdded(db: Db, reports: seq<Report>, r: Report)
    requires ReportsOk(db, reports) && ReportOk(db, r)
    ensures ReportsOk(db, reports + [r])
  {
    hide ReportOk;
  }

  // ---- steps

  predicate Browser(a: NetAction) {
    a.Open? || a.StartSave? || a.Transmit? || a.Hear? || a.Forget?
  }

  lemma BrowserStep(env: Env, s: Net, a: NetAction)
    requires NetEnabled(env, s, a) && Browser(a) && KeysOk(s) && ProfilesMatch(s.sys.db)
    requires AnswersOk(s.sys.db, s.puts, s.answers) && ReportsOk(s.sys.db, s.reports)
    ensures var s' := NetEffect(env, s, a);
            && s'.sys == s.sys && s'.commits == s.commits && s'.answers == s.answers && s.puts <= s'.puts
            && KeysOk(s') && ReportsOk(s'.sys.db, s'.reports)
  {
    hide KeysOk, ReportsOk, ReportOk, AnswersOk, Hearable, React, ProfilesMatch, ReadBack;
    match a
    case Open(c, user) => OpenKeys(s, c, user);
    case StartSave(c, request) => StartKeys(s, c, request);
    case Transmit(c) => TransmitKeys(s, c);
    case Hear(c, o, refreshed) =>
      HearKeys(s, c, o, refreshed);
      HearReport(s, c, o, refreshed);
      var used, told := s.clients[c].call.value.used, React(s.clients[c], o, refreshed).1;
      assert s.reports + [] == s.reports;
      if told.Some? {
        ReportAdded(s.sys.db, s.reports, Report(Put(s.clients[c].user, used.key, used.request), told.value));
      }
    case Forget(c) => ForgetKeys(s, c);
  }

  lemma TablesStep(env: Env, s: Net, step: Step)
    requires NetOk(env, s) && CanRun(env, s.sys, step)
    ensures NetOk(env, AfterStep(env, s, step)) && Later(s.sys.db, AfterStep(env, s, step).sys.db)
  {
    var s' := AfterStep(env, s, step);
    var new_ := StepCommits(env, s.sys, step);
    assert s'.commits == s.commits + new_ && s'.sys == Run(env, s.sys, step);
    RunKeeps(env, s.sys, step);
    CheckedKnown(s);
    hide SysOk, Later, OpsOk, CommitsOk, AnswersOk, ReportsOk, KeysOk, OpsStep, StepCommits, AfterStep, Run, CanRun;
    OpsKept(s.sys.db, s'.sys.db, new_);
    CommitsKept(s.sys.db, s'.sys.db, s.commits, new_);
    AnswersKept(s.sys.db, s'.sys.db, s.puts, s.puts, new_, s.answers);
    ReportsKept(s.sys.db, s'.sys.db, s.reports);
    AfterStepFrame(env, s, step);
    ServerKeys(s, s');
  }

  lemma CheckedKnown(s: Net)
    requires KeysOk(s)
    ensures forall h | h in s.checked :: h.0 < |s.puts|
  {
  }

  lemma AfterStepFrame(env: Env, s: Net, step: Step)
    requires CanRun(env, s.sys, step)
    ensures var s' := AfterStep(env, s, step);
            s'.clients == s.clients && s'.newKey == s.newKey && s'.puts == s.puts && s'.checked == s.checked
            && s'.answers == s.answers && s'.reports == s.reports
  {
    hide Run, CanRun;
  }

  lemma AnswerAdded(env: Env, s: Net, put: PutId, r: Reply)
    requires NetOk(env, s) && AnswerOk(s.sys.db, s.puts, put, r)
    ensures NetOk(env, s.(answers := s.answers + {(put, r)}))
  {
    var s' := s.(answers := s.answers + {(put, r)});
    CheckedKnown(s);
    hide SysOk, OpsOk, CommitsOk, ReportsOk, KeysOk, AnswerOk;
    ServerKeys(s, s');
  }

  lemma HandlerAdded(env: Env, s: Net, put: PutId, version: Version)
    requires NetOk(env, s) && put < |s.puts|
    ensures NetOk(env, s.(checked := s.checked + {(put, version)}))
  {
    var s' := s.(checked := s.checked + {(put, version)});
    CheckedKnown(s);
    hide SysOk, OpsOk, CommitsOk, ReportsOk, KeysOk, AnswersOk;
    ServerKeys(s, s');
  }

  lemma StepDb(env: Env, s: Net, put: PutId, version: Version, now: Time, review: bool)
    requires put < |s.puts| && CanRun(env, s.sys, ServerStep(s, put, version, now, review))
    ensures s.puts[put].user in s.sys.db.users
    ensures var p := s.puts[put];
            var payload := PayloadOf(p.request, version);
            AfterStep(env, s, ServerStep(s, put, version, now, review)).sys.db
              == if review then SaveReview(s.sys.db, p.user, p.key, payload, now).db
                 else SaveMain(s.sys.db, p.user, p.key, payload, now).db
  {
    var step := ServerStep(s, put, version, now, review);
    SaveEffect(env, s.sys.(clock := step.now), step.now, step.action);
    hide SaveMain, SaveReview, Effect, Enabled;
  }

  lemma HandlerStep(env: Env, s: Net, a: NetAction)
    requires NetOk(env, s) && NetEnabled(env, s, a) && (a.Review? || a.SaveNow?)
    ensures NetOk(env, NetEffect(env, s, a)) && Later(s.sys.db, NetEffect(env, s, a).sys.db)
  {
    var p, review := s.puts[a.put], a.Review?;
    var step := ServerStep(s, a.put, a.version, a.now, review);
    StepDb(env, s, a.put, a.version, a.now, review);
    OpsAre(env, s);
    TablesStep(env, s, step);
    AfterStepFrame(env, s, step);
    hide NetOk, SaveMain, SaveReview, AfterStep, CanRun, Later, AnswerOk, ServerStep, OpsOk;
    if review { ReviewAnswer(s.sys.db, s.puts, a.put, a.version, a.now); }
    else { MainAnswer(s.sys.db, s.puts, a.put, a.version, a.now); }
    var r := if review then SaveReview(s.sys.db, p.user, p.key, PayloadOf(p.request, a.version), a.now).reply
             else SaveMain(s.sys.db, p.user, p.key, PayloadOf(p.request, a.version), a.now).reply;
    AnswerAdded(env, AfterStep(env, s, step), a.put, r);
  }

  lemma OpsAre(env: Env, s: Net)
    requires NetOk(env, s)
    ensures OpsOk(s.sys.db)
  {
  }

  lemma CheckStep(env: Env, s: Net, put: PutId, version: Version, now: Time)
    requires NetOk(env, s) && NetEnabled(env, s, Check(put, version, now))
    ensures NetOk(env, AfterCheck(s, put, version, now))
  {
    OpsAre(env, s);
    CheckAnswer(s.sys.db, s.puts, put, version, now);
    hide NetOk, Precheck, AnswerOk, OpsOk, PayloadOf;
    match Precheck(s.sys.db, s.puts[put].user, s.puts[put].key, PayloadOf(s.puts[put].request, version), now)
    case Some(reply) => AnswerAdded(env, s, put, reply);
    case None => HandlerAdded(env, s, put, version);
  }

  /** Every step keeps the invariant; the tables only move forward and what was sent or answered stays. */
  lemma NetStepKeeps(env: Env, s: Net, a: NetAction)
    requires NetOk(env, s) && NetEnabled(env, s, a)
    ensures var s' := NetEffect(env, s, a);
            NetOk(env, s') && Later(s.sys.db, s'.sys.db) && s.puts <= s'.puts && s.answers <= s'.answers
  {
    LaterSelf(s.sys.db);
    NothingForgotten(env, s, a);
    if Browser(a) {
      ProfilesOf(env, s);
      BrowserStep(env, s, a);
      var s' := NetEffect(env, s, a);
      SameOpsStep(s.sys.db, s.sys.db);
      AnswersKept(s.sys.db, s.sys.db, s.puts, s'.puts, [], s.answers);
      hide SysOk, OpsOk, CommitsOk, AnswersOk, ReportsOk, KeysOk, Later, OpsStep, NetEffect, NetEnabled;
    } else {
      hide NetOk, Later, AfterStep, AfterCheck, CanRun, Precheck, SaveMain, SaveReview;
      match a
      case Check(put, version, now) => CheckStep(env, s, put, version, now);
      case PrivacyFailure(put, version) =>
        CheckedHere(env, s, put, version);
        PlainAnswers(s.sys.db, s.puts, put);
        AnswerAdded(env, s, put, ServiceUnavailable);
      case Review(_, _, _) => HandlerStep(env, s, a);
      case SaveNow(_, _, _) => HandlerStep(env, s, a);
      case Elsewhere(step) => TablesStep(env, s, step);
    }
  }

  lemma ProfilesOf(env: Env, s: Net)
    requires NetOk(env, s)
    ensures ProfilesMatch(s.sys.db)
  {
    hide OpsOk, CommitsOk, AnswersOk, ReportsOk, KeysOk, DbOk, StorageOk, QueueOk, CompletionsOk, ReadsOk, JobsOk;
  }

  lemma CheckedHere(env: Env, s: Net, put: PutId, version: Version)
    requires NetOk(env, s) && (put, version) in s.checked
    ensures put < |s.puts|
  {
    hide SysOk, OpsOk, CommitsOk, AnswersOk, ReportsOk;
  }

  lemma NothingForgotten(env: Env, s: Net, a: NetAction)
    requires NetEnabled(env, s, a)
    ensures var s' := NetEffect(env, s, a);
            s.puts <= s'.puts && s.answers <= s'.answers && s.reports <= s'.reports && s.commits <= s'.commits
  {
    hide CanRun, Run, Precheck, SaveMain, SaveReview, NewCommit, C.AsksAgain, C.KeepsKey, C.StatusOf;
  }

  lemma NetInitOk(env: Env, queueMode: bool, clock: Time)
    ensures NetOk(env, NetInit(queueMode, clock))
  {
    DeploymentTheorems.InitOk(env, queueMode, clock);
    hide SysOk;
  }

  lemma {:induction false} NetSafe(env: Env, states: seq<Net>, actions: seq<NetAction>, i: nat)
    requires NetRun(env, states, actions) && i < |states|
    ensures NetOk(env, states[i])
  {
    hide NetOk, NetEnabled, NetEffect;
    if i == 0 {
      NetInitOk(env, states[0].sys.queueMode, states[0].sys.clock);
    } else {
      NetSafe(env, states, actions, i - 1);
      NetStepKeeps(env, states[i - 1], actions[i - 1]);
    }
  }

  lemma {:induction false} NetForward(env: Env, states: seq<Net>, actions: seq<NetAction>, i: nat, j: nat)
    requires NetRun(env, states, actions) && i <= j < |states|
    ensures Later(states[i].sys.db, states[j].sys.db) && states[i].puts <= states[j].puts
    ensures states[i].answers <= states[j].answers
    decreases j - i
  {
    hide NetOk, NetEnabled, NetEffect, Later;
    if i == j {
      LaterSelf(states[i].sys.db);
    } else {
      NetForward(env, states, actions, i, j - 1);
      NetSafe(env, states, actions, j - 1);
      NetStepKeeps(env, states[j - 1], actions[j - 1]);
      LaterTransitive(states[i].sys.db, states[j - 1].sys.db, states[j].sys.db);
    }
  }

  // ---- exactly once

  /** How many times the operation has been committed. */
  function CommitCount(commits: seq<Commit>, user: UserId, op: OpId): nat {
    if commits == [] then 0
    else CommitCount(commits[..|commits| - 1], user, op) + (if Names(commits[|commits| - 1], user, op) then 1 else 0)
  }

  lemma {:induction false} CountIsOne(commits: seq<Commit>, user: UserId, op: OpId)
    requires forall i, j | 0 <= i < j < |commits| :: !Names(commits[j], commits[i].user, commits[i].op)
    ensures CommitCount(commits, user, op) == if Committed(commits, user, op) then 1 else 0
  {
    if commits != [] {
      var front := commits[..|commits| - 1];
      CountIsOne(front, user, op);
      if Names(commits[|commits| - 1], user, op) {
        assert !Committed(front, user, op);
        assert Committed(commits, user, op);
      } else if Committed(front, user, op) {
        assert commits == front + [commits[|commits| - 1]];
        CommittedStays(front, [commits[|commits| - 1]], user, op);
      }
    }
  }

  predicate Succeeded(db: Db, user: UserId, op: OpId) {
    (user, op) in db.ops && db.ops[(user, op)].state == OpSucceeded
  }

  /** Whatever is lost, delayed or duplicated, a key commits exactly once when its row has succeeded, and never otherwise. */
  lemma CommitsOncePerKey(env: Env, states: seq<Net>, actions: seq<NetAction>, i: nat, user: UserId, key: OpId)
    requires NetRun(env, states, actions) && i < |states|
    ensures CommitCount(states[i].commits, user, key) == if Succeeded(states[i].sys.db, user, key) then 1 else 0
  {
    hide NetRun;
    NetSafe(env, states, actions, i);
    hide SysOk, AnswersOk, ReportsOk, KeysOk, OpsOk;
    CountIsOne(states[i].commits, user, key);
    var k := (user, key);
    assert Succeeded(states[i].sys.db, user, key) ==> Committed(states[i].commits, k.0, k.1);
    if Committed(states[i].commits, user, key) {
      var n :| 0 <= n < |states[i].commits| && Names(states[i].commits[n], user, key);
      assert CommitOk(states[i].sys.db, states[i].commits[n]);
    }
  }

  /** Two commits never create the same revision of an account, and later ones create later revisions. */
  lemma RevisionsCreatedOnce(env: Env, states: seq<Net>, actions: seq<NetAction>, i: nat, a: nat, b: nat)
    requires NetRun(env, states, actions) && i < |states| && a < b < |states[i].commits|
    requires states[i].commits[a].user == states[i].commits[b].user && states[i].commits[b].changed
    ensures states[i].commits[a].revision < states[i].commits[b].revision
  {
    hide NetRun;
    NetSafe(env, states, actions, i);
  }

  /** A key that a browser has sent stands for one request of one account, whoever retries and however often. */
  lemma KeyHasOneRequest(env: Env, states: seq<Net>, actions: seq<NetAction>, i: nat, p: nat, q: nat)
    requires NetRun(env, states, actions) && i < |states| && p < |states[i].puts| && q < |states[i].puts|
    requires states[i].puts[p].key == states[i].puts[q].key
    ensures states[i].puts[p] == states[i].puts[q]
  {
    hide NetRun;
    NetSafe(env, states, actions, i);
  }

  /** A user is told SAVED only when this very request has been committed, exactly once, at the revision reported. */
  lemma SavedIsTrue(env: Env, states: seq<Net>, actions: seq<NetAction>, i: nat, j: nat, r: nat)
    requires NetRun(env, states, actions) && i <= j < |states| && r < |states[i].reports|
    ensures var report, db := states[i].reports[r], states[j].sys.db;
            && (report.status.SavedStatus? ==> SavedFor(db, report.sent, report.status.revision))
            && (report.status.SavedRefreshRequired? ==> exists revision :: SavedFor(db, report.sent, revision))
            && (report.status.SavedStatus? || report.status.SavedRefreshRequired? ==>
                  CommitCount(states[j].commits, report.sent.user, report.sent.key) == 1)
  {
    var report := states[i].reports[r];
    CommitsOncePerKey(env, states, actions, j, report.sent.user, report.sent.key);
    NetSafe(env, states, actions, i);
    NetForward(env, states, actions, i, j);
    hide NetRun, CommitCount;
    ReportsAre(env, states[i], r);
    hide NetOk, Later, SavedFor;
    ReportStays(states[i].sys.db, states[j].sys.db, report);
    if report.status.SavedStatus? {
      SavedSucceeded(states[j].sys.db, report.sent, report.status.revision);
    } else if report.status.SavedRefreshRequired? {
      var revision :| SavedFor(states[j].sys.db, report.sent, revision);
      SavedSucceeded(states[j].sys.db, report.sent, revision);
    }
  }

  lemma SavedSucceeded(db: Db, sent: Put, revision: nat)
    requires SavedFor(db, sent, revision)
    ensures Succeeded(db, sent.user, sent.key)
  {
  }

  lemma ReportsAre(env: Env, s: Net, r: nat)
    requires NetOk(env, s) && r < |s.reports|
    ensures ReportOk(s.sys.db, s.reports[r])
  {
    hide SysOk, AnswersOk, KeysOk, OpsOk, CommitsOk, ReportOk;
  }

  // ---- definite refusals

  lemma AnswersAre(env: Env, s: Net, put: PutId, r: Reply)
    requires NetOk(env, s) && (put, r) in s.answers
    ensures AnswerOk(s.sys.db, s.puts, put, r)
  {
    hide SysOk, ReportsOk, KeysOk, OpsOk, CommitsOk, AnswerOk;
  }

  /** Once a PUT has been answered REVIEW_REQUIRED, its key is never committed, now or later. */
  lemma ReviewIsFinal(env: Env, states: seq<Net>, actions: seq<NetAction>, i: nat, j: nat, put: PutId)
    requires NetRun(env, states, actions) && i <= j < |states| && (put, ReviewRequired) in states[i].answers
    ensures put < |states[i].puts| && CommitCount(states[j].commits, states[i].puts[put].user, states[i].puts[put].key) == 0
  {
    NetForward(env, states, actions, i, j);
    NetSafe(env, states, actions, i);
    AnswersAre(env, states[i], put, ReviewRequired);
    NetSafe(env, states, actions, j);
    AnswersAre(env, states[j], put, ReviewRequired);
    CommitsOncePerKey(env, states, actions, j, states[i].puts[put].user, states[i].puts[put].key);
    hide NetRun, NetOk, CommitCount;
    assert states[j].puts[put] == states[i].puts[put];
  }

  /** Once a PUT has been answered REVISION_CONFLICT for a revision the account has passed, its request is never saved. */
  lemma ConflictIsFinal(env: Env, states: seq<Net>, actions: seq<NetAction>, i: nat, j: nat, put: PutId, current: nat)
    requires NetRun(env, states, actions) && i <= j < |states|
    requires (put, RevisionConflict(Some(current))) in states[i].answers
    ensures put < |states[i].puts|
    ensures states[i].puts[put].request.expected < current ==> forall revision :: !SavedFor(states[j].sys.db, states[i].puts[put], revision)
  {
    hide *;
    NetForward(env, states, actions, i, j);
    NetSafe(env, states, actions, i);
    NetSafe(env, states, actions, j);
    ConflictMeans(env, states[i], put, current);
    ConflictMeans(env, states[j], put, current);
    if states[i].puts[put].request.expected < current {
      MissedIsNotSaved(states[j].sys.db, states[i].puts[put]);
    }
  }

  lemma ConflictMeans(env: Env, s: Net, put: PutId, current: nat)
    requires NetOk(env, s) && (put, RevisionConflict(Some(current))) in s.answers
    ensures put < |s.puts|
    ensures var sent := s.puts[put]; sent.request.expected < current ==> Missed(s.sys.db, sent.user, sent.key, sent.request.expected)
  {
    hide NetOk, Missed;
    AnswersAre(env, s, put, RevisionConflict(Some(current)));
  }

  lemma MissedIsNotSaved(db: Db, sent: Put)
    requires Missed(db, sent.user, sent.key, sent.request.expected)
    ensures forall revision :: !SavedFor(db, sent, revision)
  {
  }

  /** No answer is ever SAVE_IN_PROGRESS, and a conflict always names the current revision: rows are stored settled. */
  lemma RowsAreSettled(env: Env, states: seq<Net>, actions: seq<NetAction>, i: nat, put: PutId)
    requires NetRun(env, states, actions) && i < |states|
    ensures (put, SaveInProgress) !in states[i].answers && (put, RevisionConflict(None)) !in states[i].answers
    ensures forall k | k in states[i].sys.db.ops :: states[i].sys.db.ops[k].state != OpProcessing
  {
    NetSafe(env, states, actions, i);
    hide NetRun;
    if (put, SaveInProgress) in states[i].answers { AnswersAre(env, states[i], put, SaveInProgress); }
    if (put, RevisionConflict(None)) in states[i].answers { AnswersAre(env, states[i], put, RevisionConflict(None)); }
    OpsAre(env, states[i]);
  }

  /** An outcome the user is told is unknown is retried under the same key. */
  lemma UnknownIsRetriedUnderItsKey(s: Net, c: ClientId, o: C.Outcome, refreshed: Option<Option<nat>>)
    requires KeysOk(s) && Calling(s, c)
    requires React(s.clients[c], o, refreshed).1.Some? && React(s.clients[c], o, refreshed).1.value.OutcomeUnknown?
    ensures var used := s.clients[c].call.value.used;
            var s' := AfterHear(s, c, o, refreshed);
            s'.clients[c].call.None? && AfterStart(s', c, used.request).clients[c].call.value.used == used
  {
  }

  /** A 503 does not mean that nothing will be saved: a duplicate of the request may pass the privacy check that failed.
    * The controller drops the key all the same. */
  lemma UnavailableIsNotFinal(env: Env, s: Net, put: PutId, version: Version, now: Time)
    requires NetOk(env, s) && put < |s.puts| && (put, version) in s.checked && s.sys.clock <= now
    requires s.puts[put].user in s.sys.db.users && s.sys.db.users[s.puts[put].user] == s.puts[put].request.expected
    requires (s.puts[put].user, s.puts[put].key) !in s.sys.db.ops && s.puts[put].request.extraction.None?
    ensures NetEnabled(env, s, PrivacyFailure(put, version))
    ensures var s1 := NetEffect(env, s, PrivacyFailure(put, version));
            && (put, ServiceUnavailable) in s1.answers
            && !C.KeepsKey(OutcomeOf(ServiceUnavailable), false, None)
            && NetEnabled(env, s1, SaveNow(put, version, now))
            && exists revision :: SavedFor(NetEffect(env, s1, SaveNow(put, version, now)).sys.db, s.puts[put], revision)
  {
    var s1 := NetEffect(env, s, PrivacyFailure(put, version));
    DuplicateSaves(env, s1, put, version, now) by {
      CheckedHere(env, s, put, version);
      hide SysOk, OpsOk, CommitsOk, AnswersOk, ReportsOk, KeysOk;
    }
    hide NetOk, SaveMain, Effect, Enabled;
  }

  lemma DuplicateSaves(env: Env, s: Net, put: PutId, version: Version, now: Time)
    requires SysOk(env, s.sys) && put < |s.puts| && (put, version) in s.checked && s.sys.clock <= now
    requires s.puts[put].user in s.sys.db.users && s.sys.db.users[s.puts[put].user] == s.puts[put].request.expected
    requires (s.puts[put].user, s.puts[put].key) !in s.sys.db.ops && s.puts[put].request.extraction.None?
    ensures NetEnabled(env, s, SaveNow(put, version, now))
    ensures exists revision :: SavedFor(NetEffect(env, s, SaveNow(put, version, now)).sys.db, s.puts[put], revision)
  {
    var p := s.puts[put];
    StepDb(env, s, put, version, now, false);
    assert DbOk(s.sys.db, s.sys.clock);
    hide SysOk, DbOk, Transactions.CaseOf, SaveMain, Changes, Effect, AfterStep;
    AcceptedWhenCurrent(s.sys.db, s.sys.clock, p.user, p.key, PayloadOf(p.request, version), now);
    var db' := NetEffect(env, s, SaveNow(put, version, now)).sys.db;
    assert SavedFor(db', p, db'.users[p.user]);
  }

  /** A request at the account's revision is saved, unless its key is taken or its draft is gone. */
  lemma AcceptedWhenCurrent(db: Db, clock: Time, user: UserId, op: OpId, payload: Payload, now: Time)
    requires DbOk(db, clock) && user in db.users && db.users[user] == payload.expected
    requires (user, op) !in db.ops && ReviewedDraft(db, user, payload, now)
    ensures var c := Transactions.CaseOf(db, user, op, payload, now);
            && c != Transactions.NoWrite
            && (Changes(db, user, payload) <==> c == Transactions.Changed)
    ensures var r := SaveMain(db, user, op, payload, now).db;
            && r.users == db.users[user := if Changes(db, user, payload) then db.users[user] + 1 else db.users[user]]
            && r.ops == db.ops[(user, op) := Operation(payload, OpSucceeded, Some(r.users[user]), None, now + SAVE_RETENTION)]
  {
    NoTaskYet(db, clock, user, op);
    Transactions.SaveMainCases(db, user, op, payload, now);
    assert Tasks.Enqueue(db, user, Embedding, RetryKey(op), db.users[user], None, MAX_ATTEMPTS, now).Some?;
    assert Tasks.Enqueue(Republish(db, user, payload), user, Embedding, SaveKey(op), db.users[user] + 1, None, MAX_ATTEMPTS, now).Some?;
    hide Tasks.Enqueue, DbOk, SaveMain, Changes, FailedEmbedding, ReviewedDraft;
    CaseOps(db, user, op, payload, now);
    assert Transactions.CaseOf(db, user, op, payload, now) != Transactions.NoWrite;
  }

  lemma NoTaskYet(db: Db, clock: Time, user: UserId, op: OpId)
    requires DbOk(db, clock) && (user, op) !in db.ops
    ensures forall id | id in db.tasks :: !Tasks.SameIdentity(db.tasks[id], user, Embedding, SaveKey(op))
                                          && !Tasks.SameIdentity(db.tasks[id], user, Embedding, RetryKey(op))
  {
    hide RowOk, UniqueIdentity;
    forall id | id in db.tasks
      ensures !Tasks.SameIdentity(db.tasks[id], user, Embedding, SaveKey(op))
      ensures !Tasks.SameIdentity(db.tasks[id], user, Embedding, RetryKey(op))
    {
      assert Linked(db, db.tasks[id]);
    }
  }

  // ---- the class and the protocol

  /** The outcomes of one call, heard one after the other; `refreshed` is what the last one reads back. */
  function Converse(client: Client, answers: seq<C.Outcome>, refreshed: Option<Option<nat>>): (Client, Option<C.SaveStatus>)
    requires client.call.Some?
    decreases |answers|
  {
    if answers == [] then (client, None)
    else
      var (client', told) := React(client, answers[0], if |answers| == 1 then refreshed else None);
      if client'.call.None? || told.Some? then (client', told) else Converse(client', answers[1..], refreshed)
  }

  /** What ResumeSaveController.save() does in one call is what its browser does in the protocol. */
  lemma {:induction false} CallIsAConversation(user: UserId, before: Option<C.Attempt>, used: C.Attempt, puts: seq<C.Put>,
                              answers: seq<C.Outcome>, waits: seq<nat>, refreshed: Option<Option<nat>>,
                              status: C.SaveStatus, after: Option<C.Attempt>)
    requires C.SaveCall(before, used, puts, answers, waits, refreshed, status, after)
    ensures Converse(Client(user, Some(used), Some(Call(used, before == Some(used), 0, None))), answers, refreshed)
              == (Client(user, after, None), Some(status))
  {
    assert answers[0..] == answers;
    ConversationFrom(user, before, used, puts, answers, waits, refreshed, status, after, 0);
  }

  lemma {:induction false} ConversationFrom(user: UserId, before: Option<C.Attempt>, used: C.Attempt, puts: seq<C.Put>,
                              answers: seq<C.Outcome>, waits: seq<nat>, refreshed: Option<Option<nat>>,
                              status: C.SaveStatus, after: Option<C.Attempt>, n: nat)
    requires C.SaveCall(before, used, puts, answers, waits, refreshed, status, after) && n < |answers|
    ensures Converse(Client(user, Some(used), Some(Call(used, before == Some(used), n, None))), answers[n..], refreshed)
              == (Client(user, after, None), Some(status))
    decreases |answers| - n
  {
    assert answers[n..][0] == answers[n];
    if n < |answers| - 1 {
      assert answers[..|answers| - 1][n] == answers[n];
      assert answers[n..][1..] == answers[n + 1..];
      ConversationFrom(user, before, used, puts, answers, waits, refreshed, status, after, n + 1);
      hide C.StatusOf, C.KeepsKey, C.Refreshes, C.WaitFor, C.Copies;
    } else {
      hide C.StatusOf, C.KeepsKey, C.Refreshes, C.WaitFor, C.Copies;
    }
  }
}
