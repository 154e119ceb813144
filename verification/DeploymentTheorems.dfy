/** The promises of the durable task protocol, over every run of the deployment. */
module DeploymentTheorems {
  import opened Wrappers
  import opened Rows
  import opened Tasks
  import opened Outbox
  import opened Resume
  import opened Worker
  import opened RowInvariant
  import opened Deployment
  import opened Invariants
  import opened TableSafety
  import CompletionSafety
  import StorageSafety
  import QueueSafety
  import ContentSafety

  lemma InitOk(env: Env, queueMode: bool, clock: Time)
    ensures SysOk(env, Init(queueMode, clock))
  {
  }

  lemma ClockStorage(env: Env, s: Sys, now: Time)
    requires StorageOk(env, s) && s.clock <= now
    ensures StorageOk(env, s.(clock := now))
  {
    hide UploadsUnique;
    var s' := s.(clock := now);
    forall ref | ref in s'.staged ensures StagedOk(env, s', ref) { assert StagedOk(env, s, ref); }
    forall id | id in s'.db.tasks && s'.db.tasks[id].kind == Extraction && Live(s'.db.tasks[id])
      ensures s'.db.tasks[id].payload.Some? && Kept(s', s'.db.tasks[id].payload.value)
    {
      assert Kept(s, s.db.tasks[id].payload.value);
    }
  }

  lemma ClockQueue(s: Sys, now: Time)
    requires QueueOk(s)
    ensures QueueOk(s.(clock := now))
  {
    var s' := s.(clock := now);
    forall id | id in s'.exposed ensures Undone(s', id) { QueueSafety.UndoneStays(s, s', id); }
    hide Undone;
    forall p | p in s'.publications ensures PublicationOk(s', p) { assert PublicationOk(s, p); }
    forall id | id in s'.db.tasks && s'.queueMode ensures SentOk(s', id) {
      assert SentOk(s, id);
      if HasMessage(s, id) { QueueSafety.SameMessages(s, s', id); }
    }
    forall job | job in s'.jobs ensures JobMessageOk(s', job) { assert JobMessageOk(s, job); }
  }

  lemma ClockOk(env: Env, s: Sys, now: Time)
    requires SysOk(env, s) && s.clock <= now
    ensures SysOk(env, s.(clock := now))
  {
    hide DbOk, ProfilesOk, StorageOk, QueueOk;
    ClockForward(s.db, s.clock, now);
    ClockStorage(env, s, now);
    ClockQueue(s, now);
  }

  /** Every step keeps the system invariant and moves the tables forward. */
  lemma StepKeeps(env: Env, s: Sys, step: Step, s': Sys)
    requires SysOk(env, s) && Next(env, s, step, s')
    ensures SysOk(env, s') && Later(s.db, s'.db)
  {
    var at := s.(clock := step.now);
    hide Effect, Enabled, DbOk, StorageOk, QueueOk, ProfilesOk, CompletionsOk, ReadsOk, JobsOk, Later;
    ClockOk(env, s, step.now);
    StepKeepsTables(env, at, step.now, step.action);
    StepKeepsJobs(env, at, step.now, step.action);
    CompletionSafety.StepKeepsCompletions(env, at, step.now, step.action);
    StorageSafety.StepKeepsStorage(env, at, step.action);
    QueueSafety.StepKeepsQueue(env, at, step.action);
    ContentSafety.StepKeepsContent(env, at, step.action);
    ClockUntouched(env, at, step.now, step.action);
  }

  lemma ClockUntouched(env: Env, s: Sys, now: Time, a: Action)
    requires Enabled(env, s, now, a)
    ensures Effect(env, s, now, a).clock == s.clock && Effect(env, s, now, a).queueMode == s.queueMode
  {
  }

  lemma {:induction false} RunSafe(env: Env, states: seq<Sys>, steps: seq<Step>, i: nat)
    requires RunFromStart(env, states, steps) && i < |states|
    ensures SysOk(env, states[i])
  {
    hide SysOk, Next;
    if i == 0 {
      InitOk(env, states[0].queueMode, states[0].clock);
    } else {
      RunSafe(env, states, steps, i - 1);
      assert Next(env, states[i - 1], steps[i - 1], states[i]);
      StepKeeps(env, states[i - 1], steps[i - 1], states[i]);
    }
  }

  lemma {:induction false} RunForward(env: Env, states: seq<Sys>, steps: seq<Step>, i: nat, j: nat)
    requires RunFromStart(env, states, steps) && i <= j < |states|
    ensures Later(states[i].db, states[j].db)
    decreases j - i
  {
    hide SysOk, Next, Later;
    if i == j {
      LaterSelf(states[i].db);
    } else {
      RunForward(env, states, steps, i, j - 1);
      RunSafe(env, states, steps, j - 1);
      assert Next(env, states[j - 1], steps[j - 1], states[j]);
      StepKeeps(env, states[j - 1], steps[j - 1], states[j]);
      LaterTransitive(states[i].db, states[j - 1].db, states[j].db);
    }
  }

  // ---- the row constraints

  /** The check constraints and the task/outbox coupling hold in every reachable state. */
  lemma RowsCoupled(env: Env, states: seq<Sys>, steps: seq<Step>, i: nat, id: TaskId)
    requires RunFromStart(env, states, steps) && i < |states| && id in states[i].db.tasks
    ensures id in states[i].db.events
    ensures var t, e := states[i].db.tasks[id], states[i].db.events[id];
            && (t.state == Pending || t.state == RetryWait ==> e.state == EventPending || e.state == Claimed || e.state == Sent)
            && (t.state == Processing || t.state == Succeeded ==> e.state == Sent)
            && (t.state == Failed || t.state == Cancelled <==> e.state == EventCancelled)
            && (t.token.Some? <==> t.state == Processing) && (t.leaseEnd.Some? <==> t.state == Processing)
            && (e.token.Some? <==> e.state == Claimed) && (e.leaseEnd.Some? <==> e.state == Claimed)
            && t.attempts <= t.maxAttempts
  {
    hide RunFromStart;
    RunSafe(env, states, steps, i);
    hide SysOk;
    SysRow(env, states[i], id);
  }

  lemma SysRow(env: Env, s: Sys, id: TaskId)
    requires SysOk(env, s) && id in s.db.tasks
    ensures id in s.db.events && RowOk(s.db.tasks[id], s.db.events[id], s.db.next, s.clock)
  {
    hide StorageOk, QueueOk, ProfilesOk, CompletionsOk, ReadsOk, JobsOk;
    RowAt(s.db, id, s.clock);
  }

  // ---- embeddings

  /** Stored chunks carry the account's revision and embed its content; a succeeded current embedding means they do. */
  lemma ChunksAreCurrent(env: Env, states: seq<Sys>, steps: seq<Step>, i: nat, user: UserId)
    requires RunFromStart(env, states, steps) && i < |states|
    ensures var db := states[i].db;
            && (user in db.profiles ==> user in db.users && db.profiles[user].revision == db.users[user])
            && (ChunksOf(db, user) != [] || CurrentEmbeddingSucceeded(db, user) ==>
                  && user in db.profiles && user in db.users && db.profiles[user].revision == db.users[user]
                  && exists version :: ChunksOf(db, user)
                       == ChunkRows(db.users[user], version, env.embed(version, db.profiles[user].content)))
  {
    hide RunFromStart, Next;
    RunSafe(env, states, steps, i);
    hide DbOk, StorageOk, QueueOk, CompletionsOk, ReadsOk, JobsOk;
    var db := states[i].db;
    if ChunksOf(db, user) != [] || CurrentEmbeddingSucceeded(db, user) {
      assert Embedded(env, db, user);
    }
  }

  predicate CurrentEmbeddingSucceeded(db: Db, user: UserId) {
    user in db.users
    && exists id | id in db.tasks :: db.tasks[id].owner == user && db.tasks[id].kind == Embedding
                                     && db.tasks[id].revision == db.users[user] && db.tasks[id].state == Succeeded
  }

  // ---- fencing

  /** No task completes twice in a run. */
  lemma CompletesAtMostOnce(env: Env, states: seq<Sys>, steps: seq<Step>, i: nat, a: nat, b: nat)
    requires RunFromStart(env, states, steps) && i < |states| && a < b < |states[i].completions|
    ensures states[i].completions[a].0 != states[i].completions[b].0
  {
    hide RunFromStart, Next;
    RunSafe(env, states, steps, i);
  }

  /** The completion (id, token) is recorded by step n. */
  ghost predicate CompletedBy(states: seq<Sys>, n: nat, id: TaskId, token: Token) {
    n + 1 < |states| && states[n + 1].completions == states[n].completions + [(id, token)]
  }

  /** A completion is made by the holder of the newest token, under a live lease and the account's revision. */
  lemma CompletionIsFenced(env: Env, states: seq<Sys>, steps: seq<Step>, n: nat, id: TaskId, token: Token, i: nat, older: Token)
    requires RunFromStart(env, states, steps) && n < |steps| && CompletedBy(states, n, id, token)
    requires i <= n && id in states[i].db.tasks && states[i].db.tasks[id].token == Some(older)
    ensures id in states[n].db.tasks && id in states[n + 1].db.tasks && states[n + 1].db.tasks[id].state == Succeeded
    ensures var t := states[n].db.tasks[id];
            && t.state == Processing && t.token == Some(token) && older <= token
            && t.leaseEnd.Some? && steps[n].now < t.leaseEnd.value
            && t.owner in states[n].db.users && states[n].db.users[t.owner] == t.revision
  {
    assert Next(env, states[n], steps[n], states[n + 1]);
    hide Next, SysOk;
    NewCompletionFenced(env, states[n], steps[n], states[n + 1], id, token);
    RunForward(env, states, steps, i, n);
    RunSafe(env, states, steps, i);
    hide RunFromStart;
    SysRow(env, states[i], id);
    assert TaskLater(states[i].db.tasks[id], states[n].db.tasks[id], states[i].db.next);
  }

  lemma NewCompletionFenced(env: Env, s: Sys, step: Step, s': Sys, id: TaskId, token: Token)
    requires Next(env, s, step, s') && s'.completions == s.completions + [(id, token)]
    ensures id in s.db.tasks && s.db.tasks[id].state == Processing && s.db.tasks[id].token == Some(token)
    ensures s.db.tasks[id].leaseEnd.Some? && step.now < s.db.tasks[id].leaseEnd.value
    ensures s.db.tasks[id].owner in s.db.users && s.db.users[s.db.tasks[id].owner] == s.db.tasks[id].revision
    ensures id in s'.db.tasks && s'.db.tasks[id].state == Succeeded
  {
    var at := s.(clock := step.now);
    if !step.action.FinishExtraction? && !step.action.FinishEmbedding? {
      CompletionSafety.CompletionsFrame(env, at, step.now, step.action);
      assert false;
    } else {
      var c := step.action.job.claim;
      if Complete(s.db, c.task, c.owner, c.revision, c.token, step.now).ok {
        CompletionSafety.CompleteStarts(s.db, c.task, c.owner, c.revision, c.token, step.now);
        assert s'.completions[|s.completions|] == (c.task, c.token);
      }
      hide Complete;
    }
  }

  /** The token was issued, and the task no longer carries it. */
  predicate Superseded(db: Db, id: TaskId, token: Token) {
    id in db.tasks && token < db.next && db.tasks[id].token != Some(token)
  }

  /** Once a lease token has been reissued or given up, its holder can change nothing, however late it acts. */
  lemma SupersededHolderIsPowerless(env: Env, states: seq<Sys>, steps: seq<Step>, i: nat, j: nat, id: TaskId, token: Token,
                                    owner: UserId, revision: nat, code: FailureCode, retryable: bool, now: Time)
    requires RunFromStart(env, states, steps) && i <= j < |states| && Superseded(states[i].db, id, token)
    ensures Superseded(states[j].db, id, token)
    ensures Complete(states[j].db, id, owner, revision, token, now) == FlagResult(states[j].db, false)
    ensures Fail(states[j].db, id, owner, token, code, retryable, RETRY_DELAY, None, now) == FlagResult(states[j].db, false)
  {
    RunForward(env, states, steps, i, j);
    hide RunFromStart, Next;
    assert TaskLater(states[i].db.tasks[id], states[j].db.tasks[id], states[i].db.next);
  }

  /** The task carries this token, whose lease has run out by `now`. */
  predicate Expired(db: Db, id: TaskId, token: Token, now: Time) {
    id in db.tasks && db.tasks[id].token == Some(token) && db.tasks[id].leaseEnd.Some? && db.tasks[id].leaseEnd.value <= now
  }

  /** Once a lease has run out its holder can change nothing either, whether or not the task has been claimed again. */
  lemma ExpiredHolderIsPowerless(env: Env, states: seq<Sys>, steps: seq<Step>, i: nat, j: nat, id: TaskId, token: Token,
                                 owner: UserId, revision: nat, code: FailureCode, retryable: bool, now: Time, later: Time)
    requires RunFromStart(env, states, steps) && i <= j < |states| && Expired(states[i].db, id, token, now) && now <= later
    ensures Complete(states[j].db, id, owner, revision, token, later) == FlagResult(states[j].db, false)
    ensures Fail(states[j].db, id, owner, token, code, retryable, RETRY_DELAY, None, later) == FlagResult(states[j].db, false)
  {
    RunForward(env, states, steps, i, j);
    RunSafe(env, states, steps, i);
    hide RunFromStart, Next, SysOk;
    SysRow(env, states[i], id);
    assert TaskLater(states[i].db.tasks[id], states[j].db.tasks[id], states[i].db.next);
  }

  /** Terminal states are final, apart from the owner's cancellation, which is absorbing. */
  lemma TerminalIsFinal(env: Env, states: seq<Sys>, steps: seq<Step>, i: nat, j: nat, id: TaskId)
    requires RunFromStart(env, states, steps) && i <= j < |states| && id in states[i].db.tasks
    ensures id in states[j].db.tasks
    ensures states[i].db.tasks[id].state == Cancelled ==> states[j].db.tasks[id].state == Cancelled
    ensures !Live(states[i].db.tasks[id]) ==>
              states[j].db.tasks[id].state == states[i].db.tasks[id].state || states[j].db.tasks[id].state == Cancelled
  {
    RunForward(env, states, steps, i, j);
    hide RunFromStart, Next;
    assert TaskLater(states[i].db.tasks[id], states[j].db.tasks[id], states[i].db.next);
  }

  // ---- bounded work

  predicate Moves(states: seq<Sys>, k: nat, id: TaskId)
    requires k + 1 < |states|
  {
    id in states[k].db.tasks && id in states[k + 1].db.tasks
    && !SameLifecycle(states[k].db.tasks[id], states[k + 1].db.tasks[id])
  }

  /** How many of the steps from `i` up to `j` changed the task's state, attempts or token. */
  function Transitions(states: seq<Sys>, id: TaskId, i: nat, j: nat): nat
    requires i <= j < |states|
    decreases j - i
  {
    if i == j then 0 else Transitions(states, id, i, j - 1) + (if Moves(states, j - 1, id) then 1 else 0)
  }

  /** The number of lifecycle transitions of a task is bounded by its measure, whatever happens in the run. */
  lemma {:induction false} TransitionsBounded(env: Env, states: seq<Sys>, steps: seq<Step>, id: TaskId, i: nat, j: nat)
    requires RunFromStart(env, states, steps) && i <= j < |states| && id in states[i].db.tasks
    ensures id in states[j].db.tasks
    ensures Transitions(states, id, i, j) + Measure(states[j].db.tasks[id]) <= Measure(states[i].db.tasks[id])
    decreases j - i
  {
    hide RunFromStart, Next;
    if i < j {
      TransitionsBounded(env, states, steps, id, i, j - 1);
      RunForward(env, states, steps, j - 1, j);
      assert TaskLater(states[j - 1].db.tasks[id], states[j].db.tasks[id], states[j - 1].db.next);
    }
  }

  /** Whatever happens, a task makes at most 3 + 2 * maxAttempts transitions. */
  lemma TransitionsOfATask(env: Env, states: seq<Sys>, steps: seq<Step>, id: TaskId, i: nat, j: nat)
    requires RunFromStart(env, states, steps) && i <= j < |states| && id in states[i].db.tasks
    ensures Transitions(states, id, i, j) <= 3 + 2 * states[i].db.tasks[id].maxAttempts
  {
    hide *;
    TransitionsBounded(env, states, steps, id, i, j);
    RunSafe(env, states, steps, i);
    RunSafe(env, states, steps, j);
    MeasureInRange(env, states[i], id);
    MeasureInRange(env, states[j], id);
  }

  lemma MeasureInRange(env: Env, s: Sys, id: TaskId)
    requires SysOk(env, s) && id in s.db.tasks
    ensures 0 <= Measure(s.db.tasks[id]) <= 3 + 2 * s.db.tasks[id].maxAttempts
  {
    SysRow(env, s, id);
    hide SysOk;
  }

  /** How many of those steps were claims. */
  function Claims(states: seq<Sys>, id: TaskId, i: nat, j: nat): nat
    requires i <= j < |states|
    decreases j - i
  {
    if i == j then 0
    else Claims(states, id, i, j - 1)
         + (if id in states[j - 1].db.tasks && id in states[j].db.tasks
               && states[j - 1].db.tasks[id].attempts < states[j].db.tasks[id].attempts then 1 else 0)
  }

  lemma {:induction false} ClaimsCounted(env: Env, states: seq<Sys>, steps: seq<Step>, id: TaskId, i: nat, j: nat)
    requires RunFromStart(env, states, steps) && i <= j < |states| && id in states[i].db.tasks
    ensures id in states[j].db.tasks
    ensures states[i].db.tasks[id].attempts + Claims(states, id, i, j) <= states[j].db.tasks[id].attempts
    ensures states[j].db.tasks[id].maxAttempts == states[i].db.tasks[id].maxAttempts
    decreases j - i
  {
    hide RunFromStart, Next;
    if i < j {
      ClaimsCounted(env, states, steps, id, i, j - 1);
      RunForward(env, states, steps, j - 1, j);
      assert TaskLater(states[j - 1].db.tasks[id], states[j].db.tasks[id], states[j - 1].db.next);
    }
  }

  /** A task is claimed at most maxAttempts times, counting reclaims after a lost lease. */
  lemma ClaimsBounded(env: Env, states: seq<Sys>, steps: seq<Step>, id: TaskId, i: nat, j: nat)
    requires RunFromStart(env, states, steps) && i <= j < |states| && id in states[i].db.tasks
    ensures Claims(states, id, i, j) <= states[i].db.tasks[id].maxAttempts
  {
    hide RunFromStart;
    ClaimsCounted(env, states, steps, id, i, j);
    RunSafe(env, states, steps, j);
    SysRow(env, states[j], id);
  }

  // ---- inputs

  /** A live extraction's upload is in the store, and nothing decided so far can delete it. */
  lemma LiveInputIsStored(env: Env, states: seq<Sys>, steps: seq<Step>, i: nat, id: TaskId)
    requires RunFromStart(env, states, steps) && i < |states|
    requires id in states[i].db.tasks && states[i].db.tasks[id].kind == Extraction && Live(states[i].db.tasks[id])
    ensures states[i].db.tasks[id].payload.Some?
    ensures var ref := states[i].db.tasks[id].payload.value;
            && ref in states[i].objects && ref !in states[i].doomed
            && forall sweep | sweep in states[i].sweeps :: ref in sweep.live || sweep.cutoff < states[i].objects[ref]
  {
    hide RunFromStart, Next;
    RunSafe(env, states, steps, i);
    hide DbOk, QueueOk, ProfilesOk, CompletionsOk, ReadsOk, JobsOk;
    assert Kept(states[i], states[i].db.tasks[id].payload.value);
  }

  // ---- the queue

  /** A published live task has a message that nobody has decided to delete, unless a receipt exposed it. */
  lemma PublishedTaskHasMessage(env: Env, states: seq<Sys>, steps: seq<Step>, i: nat, id: TaskId)
    requires RunFromStart(env, states, steps) && i < |states| && states[i].queueMode
    requires id in states[i].db.tasks && Live(states[i].db.tasks[id]) && Published(states[i].db, id)
    requires id !in states[i].exposed
    ensures exists m | m in states[i].messages :: states[i].messages[m] == id && m !in states[i].deleting
  {
    hide RunFromStart, Next;
    RunSafe(env, states, steps, i);
    hide DbOk, StorageOk, ProfilesOk, CompletionsOk, ReadsOk, JobsOk;
    assert SentOk(states[i], id);
    var m :| m in states[i].messages && Deliverable(states[i], m, id);
    assert states[i].messages[m] == id && m !in states[i].deleting;
  }

  /** In particular no work is lost before a task's first recorded retry. */
  lemma NoLossBeforeFirstRetry(env: Env, states: seq<Sys>, steps: seq<Step>, i: nat, id: TaskId)
    requires RunFromStart(env, states, steps) && i < |states| && states[i].queueMode
    requires id in states[i].db.tasks && Live(states[i].db.tasks[id]) && Published(states[i].db, id)
    requires forall k | 0 <= k <= i :: id in states[k].db.tasks ==> states[k].db.tasks[id].state != RetryWait
    ensures exists m | m in states[i].messages :: states[i].messages[m] == id && m !in states[i].deleting
  {
    NotRetried(env, states, steps, i, id);
    RunSafe(env, states, steps, i);
    ExposedWereRetried(env, states[i]);
    hide RunFromStart, Next, SysOk;
    PublishedTaskHasMessage(env, states, steps, i, id);
  }

  lemma ExposedWereRetried(env: Env, s: Sys)
    requires SysOk(env, s)
    ensures s.exposed <= s.retried
  {
  }

  lemma {:induction false} NotRetried(env: Env, states: seq<Sys>, steps: seq<Step>, i: nat, id: TaskId)
    requires RunFromStart(env, states, steps) && i < |states|
    requires forall k | 0 <= k <= i :: id in states[k].db.tasks ==> states[k].db.tasks[id].state != RetryWait
    ensures id !in states[i].retried
  {
    if i > 0 {
      NotRetried(env, states, steps, i - 1, id);
      assert Next(env, states[i - 1], steps[i - 1], states[i]);
      hide RunFromStart, Next;
      if id in states[i].retried { RetriedBy(env, states[i - 1], steps[i - 1], states[i], id); }
    }
  }

  lemma RetriedBy(env: Env, s: Sys, step: Step, s': Sys, id: TaskId)
    requires Next(env, s, step, s') && id !in s.retried && id in s'.retried
    ensures id in s'.db.tasks && s'.db.tasks[id].state == RetryWait
  {
    if !step.action.FailJob? {
      RetriedFrame(env, s.(clock := step.now), step.now, step.action);
    }
    hide FailClaim;
  }

  lemma RetriedFrame(env: Env, s: Sys, now: Time, a: Action)
    requires Enabled(env, s, now, a) && !a.FailJob?
    ensures Effect(env, s, now, a).retried == s.retried
  {
  }
}
