/** Saving end to end: browsers, a network that loses, delays and duplicates, and the save handler.
  *
  * A PUT that was sent can be handled any number of times, at any later time, also after the browser
  * has given up on it; an answer may be heard or not. A handler is two transactions with the privacy
  * check between them. Everything else that happens to the tables is a step of `Deployment`, including
  * saves by clients that are not this controller.
  */
module SaveProtocol {
  import opened Wrappers
  import opened Rows
  import opened Resume
  import opened Deployment
  import opened Invariants
  import C = SaveController

  type ClientId = nat
  type PutId = nat

  datatype Put = Put(user: UserId, key: OpId, request: C.Request)

  /** A save in progress: the attempt it uses, the waits so far and the PUT it waits for. */
  datatype Call = Call(used: C.Attempt, reusing: bool, waits: nat, awaiting: Option<PutId>)

  datatype Client = Client(user: UserId, attempt: Option<C.Attempt>, call: Option<Call>)

  /** History: an operation row that became SUCCEEDED, and whether the save created its revision. */
  datatype Commit = Commit(user: UserId, op: OpId, revision: nat, changed: bool)

  /** History: what a call to save() told its user about its last PUT. */
  datatype Report = Report(sent: Put, status: C.SaveStatus)

  datatype Net = Net(sys: Sys, clients: map<ClientId, Client>, newKey: OpId, puts: seq<Put>,
                     checked: set<(PutId, Version)>,     // handlers past their read-only part
                     answers: set<(PutId, Reply)>,
                     commits: seq<Commit>, reports: seq<Report>)

  datatype NetAction =
    | Open(client: ClientId, user: UserId)
    | StartSave(client: ClientId, request: C.Request)
    | Transmit(client: ClientId)
    | Hear(client: ClientId, outcome: C.Outcome, refreshed: Option<Option<nat>>)
    | Forget(client: ClientId)
    | Check(put: PutId, version: Version, now: Time)
    | PrivacyFailure(put: PutId, version: Version)
    | Review(put: PutId, version: Version, now: Time)
    | SaveNow(put: PutId, version: Version, now: Time)
    | Elsewhere(step: Step)

  function PayloadOf(r: C.Request, version: Version): Payload {
    Payload(r.expected, r.content, r.extraction, version)
  }

  /** toApiError and sendUnsafe on the handler's answers. */
  function OutcomeOf(r: Reply): C.Outcome {
    match r
    case Saved(revision, changed) => C.Accepted(revision, changed)
    case IdempotencyConflict => C.Refused(C.IdempotencyConflict, None, None, false)
    case OperationExpired => C.Refused(C.OperationExpired, None, None, false)
    case SaveInProgress => C.Refused(C.SaveInProgress, Some(3), None, false)
    case ReviewRequired => C.Refused(C.ReviewRequired, None, None, true)
    case RevisionConflict(current) => C.Refused(C.RevisionConflict, None, current, false)
    case DraftGone => C.Refused(C.OtherCode, None, None, false)
    case ServiceUnavailable => C.Refused(C.OtherCode, None, None, false)
    case OtherRefusal => C.Refused(C.OtherCode, None, None, false)
    case InternalError => C.Unknown
  }

  /** Refusals that need no handler: sessions, CSRF, overload, malformed requests. */
  predicate RefusedEarly(o: C.Outcome) {
    o.Refused? && (o.code == C.ProcessingBusy || o.code == C.AuthRequired || o.code == C.SessionExpired
                   || o.code == C.CsrfInvalid || o.code == C.OtherCode)
  }

  predicate Hearable(s: Net, put: PutId, o: C.Outcome) {
    o.Unknown? || RefusedEarly(o) || exists a | a in s.answers :: a.0 == put && OutcomeOf(a.1) == o
  }

  /** The profile as it is read back now, unless the read fails. */
  predicate ReadBack(db: Db, user: UserId, refreshed: Option<Option<nat>>) {
    refreshed.Some? ==> refreshed.value == if user in db.profiles then Some(db.profiles[user].revision) else None
  }

  predicate Calling(s: Net, c: ClientId) {
    c in s.clients && s.clients[c].call.Some?
  }

  function ServerStep(s: Net, put: PutId, version: Version, now: Time, review: bool): Step
    requires put < |s.puts|
  {
    var p := s.puts[put];
    var payload := PayloadOf(p.request, version);
    Step(now, if review then StoreReview(p.user, p.key, payload) else Save(p.user, p.key, payload))
  }

  predicate CanRun(env: Env, s: Sys, step: Step) {
    s.clock <= step.now && Enabled(env, s.(clock := step.now), step.now, step.action)
  }

  function Run(env: Env, s: Sys, step: Step): Sys
    requires CanRun(env, s, step)
  {
    Effect(env, s.(clock := step.now), step.now, step.action)
  }

  predicate NetEnabled(env: Env, s: Net, a: NetAction) {
    match a
    case Open(c, _) => c !in s.clients
    case StartSave(c, _) => c in s.clients && s.clients[c].call.None?
    case Transmit(c) => Calling(s, c) && s.clients[c].call.value.awaiting.None?
    case Hear(c, o, refreshed) =>
      && Calling(s, c) && s.clients[c].call.value.awaiting.Some?
      && Hearable(s, s.clients[c].call.value.awaiting.value, o) && ReadBack(s.sys.db, s.clients[c].user, refreshed)
    case Forget(c) => c in s.clients && s.clients[c].call.None?
    case Check(put, _, now) => put < |s.puts| && s.puts[put].user in s.sys.db.users && s.sys.clock <= now
    case PrivacyFailure(put, version) => (put, version) in s.checked
    case Review(put, version, now) =>
      (put, version) in s.checked && put < |s.puts| && CanRun(env, s.sys, ServerStep(s, put, version, now, true))
    case SaveNow(put, version, now) =>
      (put, version) in s.checked && put < |s.puts| && CanRun(env, s.sys, ServerStep(s, put, version, now, false))
    case Elsewhere(step) => CanRun(env, s.sys, step)
  }

  /** The commit a save of (user, op) has made between two states of the tables, if any. */
  function NewCommit(db: Db, db': Db, user: UserId, op: OpId): seq<Commit> {
    if (user, op) !in db.ops && (user, op) in db'.ops && db'.ops[(user, op)].state == OpSucceeded
       && db'.ops[(user, op)].result.Some? && user in db.users && user in db'.users
    then [Commit(user, op, db'.ops[(user, op)].result.value, db'.users[user] != db.users[user])]
    else []
  }

  function AfterStep(env: Env, s: Net, step: Step): Net
    requires CanRun(env, s.sys, step)
  {
    var sys := Run(env, s.sys, step);
    s.(sys := sys, commits := s.commits +
         if step.action.Save? then NewCommit(s.sys.db, sys.db, step.action.user, step.action.op) else [])
  }

  function AfterStart(s: Net, c: ClientId, request: C.Request): Net
    requires c in s.clients
  {
    var client := s.clients[c];
    var used := C.AttemptFor(client.attempt, request, s.newKey);
    var reusing := C.Matches(client.attempt, request);
    s.(clients := s.clients[c := Client(client.user, Some(used), Some(Call(used, reusing, 0, None)))],
       newKey := if reusing then s.newKey else s.newKey + 1)
  }

  function AfterTransmit(s: Net, c: ClientId): Net
    requires Calling(s, c)
  {
    var client := s.clients[c];
    var call := client.call.value;
    s.(puts := s.puts + [Put(client.user, call.used.key, call.used.request)],
       clients := s.clients[c := client.(call := Some(call.(awaiting := Some(|s.puts|))))])
  }

  /** What the controller does with an outcome: wait and send again, or end the call and tell its user. */
  function React(client: Client, o: C.Outcome, refreshed: Option<Option<nat>>): (Client, Option<C.SaveStatus>)
    requires client.call.Some?
  {
    var call := client.call.value;
    var replayed := call.reusing || call.waits > 0;
    if C.AsksAgain(o) && call.waits < |C.BACKOFF| then
      (client.(call := Some(call.(waits := call.waits + 1, awaiting := None))), None)
    else
      (Client(client.user, if C.KeepsKey(o, replayed, refreshed) then Some(call.used) else None, None),
       Some(C.StatusOf(o, replayed, refreshed)))
  }

  function AfterHear(s: Net, c: ClientId, o: C.Outcome, refreshed: Option<Option<nat>>): Net
    requires Calling(s, c)
  {
    var client := s.clients[c];
    var used := client.call.value.used;
    var (client', told) := React(client, o, refreshed);
    s.(clients := s.clients[c := client'],
       reports := s.reports
         + if told.Some? then [Report(Put(client.user, used.key, used.request), told.value)] else [])
  }

  function AfterCheck(s: Net, put: PutId, version: Version, now: Time): Net
    requires put < |s.puts| && s.puts[put].user in s.sys.db.users
  {
    var p := s.puts[put];
    match Precheck(s.sys.db, p.user, p.key, PayloadOf(p.request, version), now)
    case Some(reply) => s.(answers := s.answers + {(put, reply)})
    case None => s.(checked := s.checked + {(put, version)})
  }

  function NetEffect(env: Env, s: Net, a: NetAction): Net
    requires NetEnabled(env, s, a)
  {
    match a
    case Open(c, user) => s.(clients := s.clients[c := Client(user, None, None)])
    case StartSave(c, request) => AfterStart(s, c, request)
    case Transmit(c) => AfterTransmit(s, c)
    case Hear(c, o, refreshed) => AfterHear(s, c, o, refreshed)
    case Forget(c) => s.(clients := s.clients[c := s.clients[c].(attempt := None)])
    case Check(put, version, now) => AfterCheck(s, put, version, now)
    case PrivacyFailure(put, _) => s.(answers := s.answers + {(put, ServiceUnavailable)})
    case Review(put, version, now) =>
      var p := s.puts[put];
      AfterStep(env, s, ServerStep(s, put, version, now, true)).(answers := s.answers
        + {(put, SaveReview(s.sys.db, p.user, p.key, PayloadOf(p.request, version), now).reply)})
    case SaveNow(put, version, now) =>
      var p := s.puts[put];
      AfterStep(env, s, ServerStep(s, put, version, now, false)).(answers := s.answers
        + {(put, SaveMain(s.sys.db, p.user, p.key, PayloadOf(p.request, version), now).reply)})
    case Elsewhere(step) => AfterStep(env, s, step)
  }

  function NetInit(queueMode: bool, clock: Time): Net {
    Net(Init(queueMode, clock), map[], 0, [], {}, {}, [], [])
  }

  ghost predicate NetRun(env: Env, states: seq<Net>, actions: seq<NetAction>) {
    && |states| == |actions| + 1
    && states[0] == NetInit(states[0].sys.queueMode, states[0].sys.clock)
    && (forall i | 0 <= i < |actions| ::
          NetEnabled(env, states[i], actions[i]) && states[i + 1] == NetEffect(env, states[i], actions[i]))
  }

  // ---- what every state keeps

  /** Only settled operations are ever stored: succeeded ones with their revision, and requested reviews. */
  predicate OpOk(row: Operation) {
    (row.state == OpSucceeded && row.result.Some? && row.failure.None?)
    || (row.state == OpFailed && row.failure == Some(ReviewFailure))
  }

  predicate OpsOk(db: Db) {
    forall k | k in db.ops :: OpOk(db.ops[k])
  }

  predicate Names(c: Commit, user: UserId, op: OpId) {
    c.user == user && c.op == op
  }

  predicate Committed(commits: seq<Commit>, user: UserId, op: OpId) {
    exists i | 0 <= i < |commits| :: Names(commits[i], user, op)
  }

  predicate CommitOk(db: Db, c: Commit) {
    && (c.user, c.op) in db.ops && db.ops[(c.user, c.op)].state == OpSucceeded
    && db.ops[(c.user, c.op)].result == Some(c.revision)
    && c.user in db.users && c.revision <= db.users[c.user]
  }

  predicate CommitsOk(db: Db, commits: seq<Commit>) {
    && (forall i | 0 <= i < |commits| :: CommitOk(db, commits[i]))
    && (forall i, j | 0 <= i < j < |commits| :: !Names(commits[j], commits[i].user, commits[i].op))
    && (forall i, j | 0 <= i < j < |commits| && commits[j].user == commits[i].user && commits[j].changed ::
          commits[i].revision < commits[j].revision)
    && (forall k | k in db.ops && db.ops[k].state == OpSucceeded :: Committed(commits, k.0, k.1))
  }

  /** The row of this PUT's key holds this PUT's request, saved as revision `revision`. */
  predicate SavedFor(db: Db, sent: Put, revision: nat) {
    && (sent.user, sent.key) in db.ops && db.ops[(sent.user, sent.key)].state == OpSucceeded
    && db.ops[(sent.user, sent.key)].result == Some(revision)
    && db.ops[(sent.user, sent.key)].payload == PayloadOf(sent.request, db.ops[(sent.user, sent.key)].payload.version)
  }

  predicate ReviewStoredFor(db: Db, sent: Put) {
    (sent.user, sent.key) in db.ops && db.ops[(sent.user, sent.key)].state == OpFailed
  }

  /** The account has passed the request's revision without the request having been saved under its key. */
  predicate Missed(db: Db, user: UserId, key: OpId, expected: nat) {
    && user in db.users && expected < db.users[user]
    && ((user, key) in db.ops && db.ops[(user, key)].state == OpSucceeded ==> db.ops[(user, key)].payload.expected != expected)
  }

  /** The account has had this revision. */
  predicate HasHad(db: Db, user: UserId, revision: nat) {
    user in db.users && revision <= db.users[user]
  }

  predicate AnswerOk(db: Db, puts: seq<Put>, put: PutId, r: Reply) {
    && put < |puts|
    && match r
       case Saved(revision, _) => SavedFor(db, puts[put], revision)
       case ReviewRequired => ReviewStoredFor(db, puts[put])
       case RevisionConflict(current) =>
         && current.Some? && HasHad(db, puts[put].user, current.value)
         && (puts[put].request.expected < current.value ==> Missed(db, puts[put].user, puts[put].key, puts[put].request.expected))
       case SaveInProgress => false
       case _ => true
  }

  predicate AnswersOk(db: Db, puts: seq<Put>, answers: set<(PutId, Reply)>) {
    forall a | a in answers :: AnswerOk(db, puts, a.0, a.1)
  }

  ghost predicate ReportOk(db: Db, r: Report) {
    match r.status
    case SavedStatus(revision, _, refreshed) =>
      SavedFor(db, r.sent, revision)
      && (refreshed.Some? && refreshed.value.Some? ==> HasHad(db, r.sent.user, refreshed.value.value))
    case ConflictStatus(current) => current.Some? && HasHad(db, r.sent.user, current.value)
    case SavedRefreshRequired => exists revision :: SavedFor(db, r.sent, revision)
    case ReviewStatus => ReviewStoredFor(db, r.sent)
    case _ => true
  }

  ghost predicate ReportsOk(db: Db, reports: seq<Report>) {
    forall i | 0 <= i < |reports| :: ReportOk(db, reports[i])
  }

  /** Every PUT with the attempt's key is this client's PUT of the attempt's request. */
  predicate AttemptOk(s: Net, user: UserId, a: C.Attempt) {
    a.key < s.newKey && forall p | 0 <= p < |s.puts| && s.puts[p].key == a.key :: s.puts[p] == Put(user, a.key, a.request)
  }

  predicate ClientOk(s: Net, client: Client) {
    && (client.attempt.Some? ==> AttemptOk(s, client.user, client.attempt.value))
    && (client.call.Some? ==> client.attempt == Some(client.call.value.used))
    && (client.call.Some? && client.call.value.awaiting.Some? ==>
          && client.call.value.awaiting.value < |s.puts|
          && s.puts[client.call.value.awaiting.value]
               == Put(client.user, client.call.value.used.key, client.call.value.used.request))
  }

  predicate KeysOk(s: Net) {
    && (forall p | 0 <= p < |s.puts| :: s.puts[p].key < s.newKey)
    && (forall p, q | 0 <= p < |s.puts| && 0 <= q < |s.puts| && s.puts[p].key == s.puts[q].key :: s.puts[p] == s.puts[q])
    && (forall c | c in s.clients :: ClientOk(s, s.clients[c]))
    && (forall c, d | c in s.clients && d in s.clients && c != d && s.clients[c].attempt.Some? && s.clients[d].attempt.Some? ::
          s.clients[c].attempt.value.key != s.clients[d].attempt.value.key)
    && (forall h | h in s.checked :: h.0 < |s.puts|)
  }

  ghost predicate NetOk(env: Env, s: Net) {
    && SysOk(env, s.sys) && OpsOk(s.sys.db) && CommitsOk(s.sys.db, s.commits)
    && AnswersOk(s.sys.db, s.puts, s.answers) && ReportsOk(s.sys.db, s.reports) && KeysOk(s)
  }
}
