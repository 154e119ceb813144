/** What a user is told about a save: what the server has answered, and revisions that the account has had. */
module SaveReports {
  import opened Wrappers
  import opened Rows
  import opened Resume
  import opened RowInvariant
  import opened Deployment
  import opened Invariants
  import C = SaveController
  import opened SaveProtocol
  import opened SaveSafety
  import opened SaveTheorems

  /** The answer makes the browser wait and send again while its schedule lasts. */
  predicate AskedAgain(client: Client, r: Reply)
    requires client.call.Some?
  {
    client.call.value.waits < 3 && (r.SaveInProgress? || r.InternalError?)
  }

  /** From the handler's answer to what the user is told and whether the browser keeps the key. */
  lemma ReplyIsReported(client: Client, r: Reply, refreshed: Option<Option<nat>>)
    requires client.call.Some?
    ensures var (client', told) := React(client, OutcomeOf(r), refreshed);
            var call := client.call.value;
            var replayed, kept := call.reusing || call.waits > 0, client'.attempt.Some?;
            if AskedAgain(client, r) then
              told == None && client' == client.(call := Some(call.(waits := call.waits + 1, awaiting := None)))
            else
              && client'.call == None && client'.user == client.user && (kept ==> client'.attempt == Some(call.used))
              && told.Some?
              && match r
                 case Saved(revision, changed) =>
                   if replayed && refreshed.None? then kept && told.value == C.SavedRefreshRequired
                   else !kept && told.value == C.SavedStatus(revision, changed, if replayed then refreshed else None)
                 case ReviewRequired => !kept && told.value == C.ReviewStatus
                 case RevisionConflict(current) =>
                   !kept && told.value == C.ConflictStatus(if refreshed.Some? && refreshed.value.Some? then refreshed.value else current)
                 case SaveInProgress => kept && told.value == C.OutcomeUnknown(C.StillProcessing)
                 case InternalError => kept && told.value == C.OutcomeUnknown(C.NoResponse)
                 case IdempotencyConflict => !kept && told.value == C.FailedStatus(C.IdempotencyConflict)
                 case OperationExpired => !kept && told.value == C.FailedStatus(C.OperationExpired)
                 case _ => !kept && told.value == C.FailedStatus(C.OtherCode)
  {
    match r
    case Saved(_, _) =>
    case IdempotencyConflict =>
    case OperationExpired =>
    case SaveInProgress =>
    case ReviewRequired =>
    case RevisionConflict(_) =>
    case DraftGone =>
    case ServiceUnavailable =>
    case OtherRefusal =>
    case InternalError =>
  }

  // ---- revisions

  /** The account is at this revision in state `k`. */
  predicate At(s: Net, user: UserId, revision: nat) {
    user in s.sys.db.users && s.sys.db.users[user] == revision
  }

  lemma NetOneRevisionMore(env: Env, s: Net, a: NetAction)
    requires NetOk(env, s) && NetEnabled(env, s, a)
    ensures OneRevisionMore(s.sys.db, NetEffect(env, s, a).sys.db)
  {
    SystemIs(env, s);
    hide NetOk, SysOk, OneRevisionMore, SaveMain, SaveReview, Precheck, React, Effect, Enabled;
    match a
    case Review(put, version, now) => RunKeeps(env, s.sys, ServerStep(s, put, version, now, true));
    case SaveNow(put, version, now) => RunKeeps(env, s.sys, ServerStep(s, put, version, now, false));
    case Elsewhere(step) => RunKeeps(env, s.sys, step);
    case _ => SameRevisions(s.sys.db);
  }

  lemma SameRevisions(db: Db)
    ensures OneRevisionMore(db, db)
  {
  }

  lemma SystemIs(env: Env, s: Net)
    requires NetOk(env, s)
    ensures SysOk(env, s.sys)
  {
  }

  /** An account has had every revision up to its current one. */
  lemma {:induction false} EveryRevisionWasHad(env: Env, states: seq<Net>, actions: seq<NetAction>, i: nat, user: UserId, revision: nat)
    requires NetRun(env, states, actions) && i < |states| && HasHad(states[i].sys.db, user, revision)
    ensures exists k | 0 <= k <= i :: At(states[k], user, revision)
  {
    hide NetEnabled, NetEffect;
    if states[i].sys.db.users[user] == revision {
      assert At(states[i], user, revision);
    } else if i == 0 {
      assert false;
    } else {
      NetSafe(env, states, actions, i - 1);
      assert NetEnabled(env, states[i - 1], actions[i - 1]);
      hide NetOk;
      NetOneRevisionMore(env, states[i - 1], actions[i - 1]);
      EveryRevisionWasHad(env, states, actions, i - 1, user, revision);
      var k :| 0 <= k <= i - 1 && At(states[k], user, revision);
    }
  }

  /** A reported conflict always names a revision, and the account has had it; so has a revision read back after a save. */
  lemma ReportedRevisionsAreTrue(env: Env, states: seq<Net>, actions: seq<NetAction>, i: nat, r: nat)
    requires NetRun(env, states, actions) && i < |states| && r < |states[i].reports|
    ensures var report := states[i].reports[r];
            && (report.status.ConflictStatus? ==>
                  report.status.current.Some?
                  && exists k | 0 <= k <= i :: At(states[k], report.sent.user, report.status.current.value))
            && (report.status.SavedStatus? && report.status.refreshed.Some? && report.status.refreshed.value.Some? ==>
                  exists k | 0 <= k <= i :: At(states[k], report.sent.user, report.status.refreshed.value.value))
  {
    var report := states[i].reports[r];
    NetSafe(env, states, actions, i);
    ReportsAre(env, states[i], r);
    hide NetRun, NetOk, At, SavedFor;
    if report.status.ConflictStatus? {
      EveryRevisionWasHad(env, states, actions, i, report.sent.user, report.status.current.value);
    } else if report.status.SavedStatus? && report.status.refreshed.Some? && report.status.refreshed.value.Some? {
      EveryRevisionWasHad(env, states, actions, i, report.sent.user, report.status.refreshed.value.value);
    }
  }
}
