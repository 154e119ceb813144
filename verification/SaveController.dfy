/** The browser's save controller (src/frontend/src/features/resume/model/saveController.ts and idempotency.ts).
  *
  * `contentSignature` is injective, so an attempt holds the request it was made for. What the network
  * and the server do is left open: a PUT may be answered in any way the API client can report.
  */
module SaveController {
  import opened Wrappers
  import opened Rows

  datatype Request = Request(expected: nat, content: Content, extraction: Option<TaskId>)

  datatype Attempt = Attempt(key: OpId, request: Request)

  datatype Code = SaveInProgress | ProcessingBusy | ReviewRequired | RevisionConflict | IdempotencyConflict
    | OperationExpired | AuthRequired | SessionExpired | CsrfInvalid | OtherCode

  /** What the API client makes of a PUT; Unknown is a lost connection or a status of 500, 502 or 504. */
  datatype Outcome =
    | Accepted(revision: nat, changed: bool)
    | Unknown
    | Refused(code: Code, retryAfter: Option<nat>, current: Option<nat>, readable: bool)

  datatype UnknownReason = NoResponse | StillProcessing

  datatype SaveStatus =
    | SavedStatus(revision: nat, changed: bool, refreshed: Option<Option<nat>>)
    | SavedRefreshRequired
    | ReviewStatus
    | ConflictStatus(current: Option<nat>)
    | AuthStatus
    | OutcomeUnknown(reason: UnknownReason)
    | FailedStatus(code: Code)

  const BACKOFF: seq<nat> := [3, 6, 12]

  /** attemptMatchesPayload */
  predicate Matches(attempt: Option<Attempt>, request: Request) {
    attempt.Some? && attempt.value.request == request
  }

  /** attemptForPayload, given the key a new attempt would get. */
  function AttemptFor(current: Option<Attempt>, request: Request, newKey: OpId): (r: Attempt)
    ensures r.request == request
    ensures current == Some(r) <==> Matches(current, request)
    ensures current != Some(r) ==> r.key == newKey
  {
    if Matches(current, request) then current.value else Attempt(newKey, request)
  }

  /** Waiting and sending again is the reaction to these outcomes, while the schedule lasts. */
  predicate AsksAgain(o: Outcome) {
    o.Unknown? || (o.Refused? && (o.code == SaveInProgress || o.code == ProcessingBusy))
  }

  function WaitFor(o: Outcome, n: nat): nat
    requires n < |BACKOFF|
  {
    if o.Refused? && o.retryAfter.Some? then o.retryAfter.value else BACKOFF[n]
  }

  /** Whether the profile is read again before the call ends. */
  predicate Refreshes(o: Outcome, replayed: bool) {
    if o.Accepted? then replayed
    else o.Refused? && (o.code == RevisionConflict || o.code == IdempotencyConflict || o.code == OperationExpired)
  }

  /** Whether the key survives the last outcome of a call; `refreshed` is the profile read: None when it failed. */
  predicate KeepsKey(o: Outcome, replayed: bool, refreshed: Option<Option<nat>>) {
    match o
    case Accepted(_, _) => replayed && refreshed.None?
    case Unknown => true
    case Refused(code, _, _, _) =>
      code == SaveInProgress || code == ProcessingBusy || code == AuthRequired || code == SessionExpired || code == CsrfInvalid
  }

  function StatusOf(o: Outcome, replayed: bool, refreshed: Option<Option<nat>>): SaveStatus {
    match o
    case Accepted(revision, changed) =>
      if replayed && refreshed.None? then SavedRefreshRequired
      else SavedStatus(revision, changed, if replayed then refreshed else None)
    case Unknown => OutcomeUnknown(NoResponse)
    case Refused(code, _, current, readable) =>
      if code == SaveInProgress then OutcomeUnknown(StillProcessing)
      else if code == ReviewRequired then (if readable then ReviewStatus else FailedStatus(code))
      else if code == RevisionConflict then
        ConflictStatus(if refreshed.Some? && refreshed.value.Some? then refreshed.value else current)
      else if code == AuthRequired || code == SessionExpired then AuthStatus
      else FailedStatus(code)
  }

  datatype Put = Put(key: OpId, request: Request)

  /** What the API client makes of reading an operation. */
  datatype OpStatus = OpStatus(state: OpState, result: Option<nat>)
  datatype Result = Answered(status: OpStatus) | Rejected(code: Code) | Unreadable

  /** What the last answer about an operation means: saved if and only if it has succeeded, at its result revision. */
  function Resolved(last: Result, refreshed: Option<Option<nat>>): (r: SaveStatus)
    ensures r.SavedStatus? || r.SavedRefreshRequired? <==> last.Answered? && last.status.state == OpSucceeded
    ensures r.SavedStatus? ==> r.refreshed == refreshed && (last.status.result.Some? ==> r.revision == last.status.result.value)
    ensures r.OutcomeUnknown? ==> !last.Answered? || last.status.state == OpProcessing
  {
    match last
    case Answered(status) =>
      (match status.state
       case OpSucceeded =>
         if refreshed.None? then SavedRefreshRequired
         else SavedStatus(if status.result.Some? then status.result.value else 0, true, refreshed)
       case OpFailed => FailedStatus(OtherCode)
       case OpProcessing => OutcomeUnknown(StillProcessing))
    case Rejected(code) =>
      if code == OperationExpired then FailedStatus(code)
      else if code == AuthRequired || code == SessionExpired then AuthStatus
      else OutcomeUnknown(NoResponse)
    case Unreadable => OutcomeUnknown(NoResponse)
  }

  function Copies(put: Put, n: nat): (r: seq<Put>)
    ensures |r| == n && forall i | 0 <= i < n :: r[i] == put
  {
    seq(n, _ => put)
  }

  /** The answers after which a call waited and sent again, and its waits. */
  predicate Retried(answers: seq<Outcome>, waits: seq<nat>) {
    && |waits| == |answers| <= |BACKOFF|
    && (forall i | 0 <= i < |answers| :: AsksAgain(answers[i]) && waits[i] == WaitFor(answers[i], i))
  }

  lemma CopiesMore(put: Put, n: nat)
    requires n > 0
    ensures Copies(put, n) == Copies(put, n - 1) + [put]
  {
  }

  lemma RetriedNone()
    ensures Retried([], [])
  {
  }

  lemma RetriedLengths(answers: seq<Outcome>, waits: seq<nat>)
    requires Retried(answers, waits)
    ensures |waits| == |answers|
  {
  }

  lemma RetriedAre(answers: seq<Outcome>, waits: seq<nat>)
    requires Retried(answers, waits)
    ensures |waits| == |answers| <= 3
    ensures forall i | 0 <= i < |answers| ::
              && (answers[i].Unknown? || (answers[i].Refused? && (answers[i].code == SaveInProgress || answers[i].code == ProcessingBusy)))
              && waits[i] == if answers[i].Refused? && answers[i].retryAfter.Some? then answers[i].retryAfter.value else [3, 6, 12][i]
  {
  }

  lemma RetriedMore(answers: seq<Outcome>, waits: seq<nat>, o: Outcome)
    requires Retried(answers, waits) && |waits| < |BACKOFF| && AsksAgain(o)
    ensures Retried(answers + [o], waits + [WaitFor(o, |waits|)])
  {
  }

  /** One call of save(): from the attempt held before it and the one it used to the attempt held after it. */
  predicate SaveCall(before: Option<Attempt>, used: Attempt, puts: seq<Put>, answers: seq<Outcome>, waits: seq<nat>,
                     refreshed: Option<Option<nat>>, status: SaveStatus, after: Option<Attempt>) {
    && answers != []
    && var last, replayed := answers[|answers| - 1], before == Some(used) || |answers| > 1;
    && puts == Copies(Put(used.key, used.request), |answers|)
    && Retried(answers[..|answers| - 1], waits)
    && (AsksAgain(last) ==> |waits| == |BACKOFF|)
    && (!Refreshes(last, replayed) ==> refreshed == None)
    && status == StatusOf(last, replayed, refreshed)
    && after == if KeepsKey(last, replayed, refreshed) then Some(used) else None
  }

  lemma CallDone(before: Option<Attempt>, used: Attempt, puts: seq<Put>, heard: seq<Outcome>, o: Outcome, waits: seq<nat>,
                 refreshed: Option<Option<nat>>, status: SaveStatus, after: Option<Attempt>)
    requires puts == Copies(Put(used.key, used.request), |heard| + 1) && Retried(heard, waits)
    requires AsksAgain(o) ==> |waits| == |BACKOFF|
    requires var replayed := before == Some(used) || |heard| > 0;
             && (!Refreshes(o, replayed) ==> refreshed == None)
             && status == StatusOf(o, replayed, refreshed)
             && after == if KeepsKey(o, replayed, refreshed) then Some(used) else None
    ensures SaveCall(before, used, puts, heard + [o], waits, refreshed, status, after)
  {
    hide StatusOf, KeepsKey, Refreshes, Retried, Copies, AsksAgain;
    assert (heard + [o])[..|heard|] == heard;
  }

  /** The API as the controller sees it: an answer of any kind to every call, and a record of the calls. */
  class ResumeApi {
    var puts: seq<Put>
    var outcomes: seq<Outcome>
    var polls: seq<OpId>
    var read: seq<Option<Option<nat>>>

    constructor ()
      ensures puts == [] && outcomes == [] && polls == [] && read == []
    {
      puts, outcomes, polls, read := [], [], [], [];
    }

    method Save(request: Request, key: OpId) returns (o: Outcome)
      modifies this`puts, this`outcomes
      ensures puts == old(puts) + [Put(key, request)] && outcomes == old(outcomes) + [o]
    {
      o := *;
      puts, outcomes := puts + [Put(key, request)], outcomes + [o];
    }

    /** None when the read fails, Some(None) when there is no profile. */
    method GetProfile() returns (r: Option<Option<nat>>)
      modifies this`read
      ensures read == old(read) + [r]
    {
      r := *;
      read := read + [r];
    }

    method GetOperation(key: OpId) returns (r: Result)
      modifies this`polls
      ensures polls == old(polls) + [key]
    {
      r := *;
      polls := polls + [key];
    }
  }

  class ResumeSaveController {
    var attempt: Option<Attempt>
    var waits: seq<nat>
    var nextKey: OpId

    constructor ()
      ensures attempt == None && waits == []
    {
      attempt, waits, nextKey := None, [], 0;
    }

    /** keyFactory: every call returns another key. */
    method NewKey() returns (key: OpId)
      modifies this`nextKey
      ensures key == old(nextKey) && nextKey == old(nextKey) + 1
    {
      key := nextKey;
      nextKey := nextKey + 1;
    }

    method StartNewAttempt()
      modifies this`attempt
      ensures attempt == None
    {
      attempt := None;
    }

    /** waitThenContinue: false when the schedule is used up. */
    method WaitThenContinue(o: Outcome)
      returns (again: bool)
      modifies this`waits
      ensures again == (|old(waits)| < |BACKOFF|)
      ensures waits == if again then old(waits) + [WaitFor(o, |old(waits)|)] else old(waits)
    {
      if |waits| >= |BACKOFF| { return false; }
      waits := waits + [WaitFor(o, |waits|)];
      again := true;
    }

    /** attemptForPayload on the held attempt; `reusing` when it was kept. */
    method HoldAttempt(request: Request) returns (reusing: bool)
      modifies this`attempt, this`nextKey
      ensures attempt == Some(AttemptFor(old(attempt), request, old(nextKey)))
      ensures reusing == (old(attempt) == attempt)
      ensures nextKey == old(nextKey) + (if Matches(old(attempt), request) then 0 else 1)
    {
      var previous := attempt;
      if !Matches(attempt, request) {
        var newKey := NewKey();
        attempt := Some(Attempt(newKey, request));
      }
      reusing := previous == attempt;
    }

    /** The loop of save(): PUTs of one key and request until an outcome that does not ask for another one, or the end
      * of the schedule. */
    method SendUntilSettled(api: ResumeApi, key: OpId, request: Request) returns (last: Outcome, ghost heard: seq<Outcome>)
      requires waits == []
      modifies this`waits, api
      ensures api.polls == old(api.polls) && api.read == old(api.read) && api.outcomes == old(api.outcomes) + (heard + [last])
      ensures api.puts == old(api.puts) + Copies(Put(key, request), |heard| + 1)
      ensures Retried(heard, waits) && (AsksAgain(last) ==> |waits| == |BACKOFF|)
      ensures |waits| == |heard| <= 3
      ensures last.Unknown? || (last.Refused? && (last.code == SaveInProgress || last.code == ProcessingBusy)) ==> |heard| == 3
      ensures forall i | 0 <= i < |heard| ::
                && (heard[i].Unknown? || (heard[i].Refused? && (heard[i].code == SaveInProgress || heard[i].code == ProcessingBusy)))
                && waits[i] == if heard[i].Refused? && heard[i].retryAfter.Some? then heard[i].retryAfter.value else [3, 6, 12][i]
    {
      hide Retried, WaitFor, Copies;
      RetriedNone();
      heard := [];
      ghost var made := [];
      while true
        invariant |waits| == |heard| == |made| <= |BACKOFF|
        invariant api.polls == old(api.polls) && api.read == old(api.read)
        invariant api.outcomes == old(api.outcomes) + heard && api.puts == old(api.puts) + made
        invariant made == Copies(Put(key, request), |heard|) && Retried(heard, waits)
        decreases |BACKOFF| - |waits|
      {
        last := api.Save(request, key);
        ghost var before := waits;
        made := made + [Put(key, request)];
        CopiesMore(Put(key, request), |made|);
        if !AsksAgain(last) { RetriedAre(heard, waits); return; }
        var again := WaitThenContinue(last);
        if !again { RetriedAre(heard, waits); return; }
        RetriedMore(heard, before, last);
        heard := heard + [last];
      }
    }

    /** One logical save: every PUT of the call carries the same key and request, at most four are sent,
      * each but the last was answered by an outcome that asks for another, and the last outcome, with the profile read
      * again where the outcome may be old news, decides the status and whether the key is held for the next call. */
    method Save(api: ResumeApi, request: Request)
      returns (status: SaveStatus, ghost last: Outcome, ghost replayed: bool, ghost refreshed: Option<Option<nat>>)
      modifies this, api
      ensures old(api.outcomes) < api.outcomes && old(api.puts) <= api.puts && api.polls == old(api.polls)
      ensures last == api.outcomes[|api.outcomes| - 1]
      ensures replayed <==> |api.outcomes| > |old(api.outcomes)| + 1
                            || (old(attempt).Some? && old(attempt).value.request == request)
      ensures status.SavedStatus? || status.SavedRefreshRequired? <==> last.Accepted?
      ensures status.SavedRefreshRequired? <==> last.Accepted? && replayed && refreshed.None?
      ensures status.SavedStatus? ==> status.revision == last.revision && status.changed == last.changed && status.refreshed == refreshed
      ensures status.ReviewStatus? <==> last.Refused? && last.code == ReviewRequired && last.readable
      ensures status.ConflictStatus? <==> last.Refused? && last.code == RevisionConflict
      ensures status.ConflictStatus? ==>
                status.current == if refreshed.Some? && refreshed.value.Some? then Some(refreshed.value.value) else last.current
      ensures status.AuthStatus? <==> last.Refused? && (last.code == AuthRequired || last.code == SessionExpired)
      ensures status.OutcomeUnknown? <==> last.Unknown? || (last.Refused? && last.code == SaveInProgress)
      ensures status.OutcomeUnknown? ==> status.reason == if last.Unknown? then NoResponse else StillProcessing
      ensures status.FailedStatus? <==>
                last.Refused? && (last.code == ProcessingBusy || last.code == IdempotencyConflict || last.code == OperationExpired
                                  || last.code == CsrfInvalid || last.code == OtherCode || (last.code == ReviewRequired && !last.readable))
      ensures status.FailedStatus? ==> status.code == last.code
      ensures attempt.Some? <==>
                || (last.Accepted? && replayed && refreshed.None?) || last.Unknown?
                || (last.Refused? && (last.code == SaveInProgress || last.code == ProcessingBusy || last.code == AuthRequired
                                      || last.code == SessionExpired || last.code == CsrfInvalid))
      ensures api.read == old(api.read) +
                if (last.Accepted? && replayed)
                   || (last.Refused? && (last.code == RevisionConflict || last.code == IdempotencyConflict || last.code == OperationExpired))
                then [refreshed] else []
      ensures api.read == old(api.read) ==> refreshed.None?
      ensures var sent := api.outcomes[|old(api.outcomes)|..];
              && |waits| == |sent| - 1 <= 3
              && (last.Unknown? || (last.Refused? && (last.code == SaveInProgress || last.code == ProcessingBusy)) ==> |waits| == 3)
              && (forall i | 0 <= i < |waits| ::
                    && (sent[i].Unknown? || (sent[i].Refused? && (sent[i].code == SaveInProgress || sent[i].code == ProcessingBusy)))
                    && waits[i] == if sent[i].Refused? && sent[i].retryAfter.Some? then sent[i].retryAfter.value else [3, 6, 12][i])
      ensures SaveCall(old(attempt), AttemptFor(old(attempt), request, old(nextKey)), api.puts[|old(api.puts)|..],
                       api.outcomes[|old(api.outcomes)|..], waits, refreshed, status, attempt)
      ensures nextKey == old(nextKey) + (if Matches(old(attempt), request) then 0 else 1)
    {
      hide Copies, Retried, WaitFor, StatusOf, KeepsKey, Refreshes, SaveCall;
      var reusing := HoldAttempt(request);
      ghost var held := attempt.value;
      waits := [];
      var outcome;
      ghost var heard;
      outcome, heard := SendUntilSettled(api, attempt.value.key, request);
      last := outcome;
      assert held.request == request;
      RetriedLengths(heard, waits);
      replayed := reusing || |waits| > 0;
      status, refreshed := Conclude(api, outcome, reusing || |waits| > 0);
      CallDone(old(attempt), held, Copies(Put(held.key, request), |heard| + 1), heard, last, waits, refreshed, status, attempt);
      assert api.outcomes[|old(api.outcomes)|..] == heard + [last];
      assert api.puts[|old(api.puts)|..] == Copies(Put(held.key, request), |heard| + 1);
    }

    /** What the call does with its last outcome. */
    method Conclude(api: ResumeApi, last: Outcome, replayed: bool) returns (status: SaveStatus, refreshed: Option<Option<nat>>)
      requires attempt.Some?
      modifies this`attempt, api`read
      ensures status.SavedStatus? || status.SavedRefreshRequired? <==> last.Accepted?
      ensures status.SavedRefreshRequired? <==> last.Accepted? && replayed && refreshed.None?
      ensures status.SavedStatus? ==> status.revision == last.revision && status.changed == last.changed && status.refreshed == refreshed
      ensures status.ReviewStatus? <==> last.Refused? && last.code == ReviewRequired && last.readable
      ensures status.ConflictStatus? <==> last.Refused? && last.code == RevisionConflict
      ensures status.ConflictStatus? ==>
                status.current == if refreshed.Some? && refreshed.value.Some? then Some(refreshed.value.value) else last.current
      ensures status.AuthStatus? <==> last.Refused? && (last.code == AuthRequired || last.code == SessionExpired)
      ensures status.OutcomeUnknown? <==> last.Unknown? || (last.Refused? && last.code == SaveInProgress)
      ensures status.OutcomeUnknown? ==> status.reason == if last.Unknown? then NoResponse else StillProcessing
      ensures status.FailedStatus? <==>
                last.Refused? && (last.code == ProcessingBusy || last.code == IdempotencyConflict || last.code == OperationExpired
                                  || last.code == CsrfInvalid || last.code == OtherCode || (last.code == ReviewRequired && !last.readable))
      ensures status.FailedStatus? ==> status.code == last.code
      ensures attempt.Some? <==>
                || (last.Accepted? && replayed && refreshed.None?) || last.Unknown?
                || (last.Refused? && (last.code == SaveInProgress || last.code == ProcessingBusy || last.code == AuthRequired
                                      || last.code == SessionExpired || last.code == CsrfInvalid))
      ensures api.read == old(api.read) +
                if (last.Accepted? && replayed)
                   || (last.Refused? && (last.code == RevisionConflict || last.code == IdempotencyConflict || last.code == OperationExpired))
                then [refreshed] else []
      ensures api.read == old(api.read) ==> refreshed.None?
      ensures !Refreshes(last, replayed) ==> refreshed == None
      ensures status == StatusOf(last, replayed, refreshed)
      ensures attempt == if KeepsKey(last, replayed, refreshed) then old(attempt) else None
    {
      refreshed := None;
      if Refreshes(last, replayed) {
        refreshed := api.GetProfile();
      }
      if !KeepsKey(last, replayed, refreshed) { attempt := None; }
      status := StatusOf(last, replayed, refreshed);
    }

    /** Polls a known operation: a saved status is reported only for an operation that has succeeded. */
    method ResolveOperation(api: ResumeApi, key: OpId)
      returns (status: SaveStatus, ghost last: Result, ghost refreshed: Option<Option<nat>>)
      modifies this, api
      ensures |old(api.polls)| < |api.polls| <= |old(api.polls)| + 4 && old(api.polls) <= api.polls
      ensures forall i | |old(api.polls)| <= i < |api.polls| :: api.polls[i] == key
      ensures api.puts == old(api.puts) && api.outcomes == old(api.outcomes) && nextKey == old(nextKey)
      ensures api.read == old(api.read) + (if last.Answered? && last.status.state == OpSucceeded then [refreshed] else [])
      ensures waits <= BACKOFF && |waits| == |api.polls| - |old(api.polls)| - 1
      ensures status == Resolved(last, refreshed)
      ensures attempt == if (last.Answered? && last.status.state != OpProcessing) || last == Rejected(OperationExpired)
                         then None else old(attempt)
      ensures last.Answered? && last.status.state == OpProcessing ==> |waits| == |BACKOFF|
    {
      waits := [];
      ghost var asked := api.polls;
      last, refreshed := Unreadable, None;
      while true
        invariant waits <= BACKOFF && attempt == old(attempt) && nextKey == old(nextKey)
        invariant asked <= api.polls && |api.polls| == |asked| + |waits|
        invariant forall i | |asked| <= i < |api.polls| :: api.polls[i] == key
        invariant api.puts == old(api.puts) && api.outcomes == old(api.outcomes) && api.read == old(api.read)
        decreases |BACKOFF| - |waits|
      {
        var r := api.GetOperation(key);
        last := r;
        match r
        case Answered(OpStatus(OpSucceeded, result)) =>
          attempt := None;
          var profile := api.GetProfile();
          refreshed := profile;
          if profile.None? { return SavedRefreshRequired, r, refreshed; }
          return SavedStatus(if result.Some? then result.value else 0, true, profile), r, refreshed;
        case Answered(OpStatus(OpFailed, _)) =>
          attempt := None;
          return FailedStatus(OtherCode), r, refreshed;
        case Answered(OpStatus(OpProcessing, _)) =>
          if |waits| >= |BACKOFF| { return OutcomeUnknown(StillProcessing), r, refreshed; }
          waits := waits + [BACKOFF[|waits|]];
        case Rejected(code) =>
          if code == OperationExpired {
            attempt := None;
            return FailedStatus(code), r, refreshed;
          }
          if code == AuthRequired || code == SessionExpired { return AuthStatus, r, refreshed; }
          return OutcomeUnknown(NoResponse), r, refreshed;
        case Unreadable =>
          return OutcomeUnknown(NoResponse), r, refreshed;
      }
    }
  }
}
