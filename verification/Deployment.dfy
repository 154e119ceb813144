/** The deployed system: database, object store, queue, publishers and workers, one atomic step each.
  *
  * Every database transaction is one step; whatever a process does between two transactions is a
  * separate step, so any interleaving, delay or crash of processes is a run. A process that crashes
  * simply takes no further step: claims and deliveries stay in the state and may act (late) or not.
  */
module Deployment {
  import opened Wrappers
  import opened Rows
  import opened Tasks
  import opened Outbox
  import opened Resume
  import opened Worker

  type MsgId = nat

  /** The parts that are not modelled: the embedding of a content under a model version, and the store's TTL. */
  datatype Env = Env(ttl: nat, embed: (Version, Content) -> seq<ChunkBody>)

  /** A claim in a worker's hands, with the message it came with and the content it has read. */
  datatype Job = Job(claim: Claim, message: Option<MsgId>, content: Option<Content>)

  /** A delivery in a publisher's hands; `message` is set once the queue has accepted it. */
  datatype Publication = Publication(delivery: Delivery, message: Option<MsgId>)

  /** A sweep that has read the live references but not yet deleted anything. */
  datatype Sweep = Sweep(live: set<Ref>, cutoff: Time)

  datatype Sys = Sys(
    db: Db, clock: Time, queueMode: bool,
    objects: map<Ref, Time>,              // stored uploads and their times
    staged: map<Ref, Time>,               // stored but not yet enqueued
    doomed: set<Ref>,                     // objects some process has decided to delete
    sweeps: set<Sweep>,
    messages: map<MsgId, TaskId>,
    deleting: set<MsgId>,                 // messages some worker has decided to delete
    publications: set<Publication>,
    jobs: set<Job>,
    // history
    retried: set<TaskId>,                 // tasks that have been in RETRY_WAIT
    exposed: set<TaskId>,                 // retries whose publication under way has had its message received
    completions: seq<(TaskId, Token)>)    // successful complete_task calls

  datatype Action =
    | CreateUser(user: UserId)
    | StoreUpload
    | CommitUpload(user: UserId, ref: Ref)
    | AbandonUpload(ref: Ref)
    | Save(user: UserId, op: OpId, payload: Payload)
    | StoreReview(user: UserId, op: OpId, payload: Payload)
    | Delete(user: UserId, expected: nat)
    | DiscardDraft(user: UserId, id: TaskId)
    | ClaimPublication(id: TaskId, queryTime: Time)
    | CancelPublication(id: TaskId)
    | Publish(publication: Publication)
    | Acknowledge(publication: Publication)
    | RetryPublication(publication: Publication)
    | ClaimNext(id: TaskId, kind: Kind)
    | Receive(message: MsgId, kind: Kind)
    | ReadContent(job: Job)
    | FinishExtraction(job: Job, draft: Draft)
    | FinishEmbedding(job: Job, version: Version)
    | FailJob(job: Job, code: FailureCode, retryable: bool)
    | Settle(job: Job)
    | DeleteMessage(message: MsgId)
    | DeleteObject(ref: Ref)
    | SweepObject(sweep: Sweep, ref: Ref)
    | CleanUp(asOf: Time)

  /** What the acting process needs to hold for the step to exist. */
  predicate Enabled(env: Env, s: Sys, now: Time, a: Action) {
    match a
    case CreateUser(user) => user !in s.db.users
    case StoreUpload => true
    // the upload is committed within the store's TTL
    case CommitUpload(user, ref) => user in s.db.users && ref in s.staged && now < s.staged[ref] + env.ttl
    case AbandonUpload(ref) => ref in s.staged
    case Save(user, _, _) => user in s.db.users
    case StoreReview(user, _, _) => user in s.db.users
    case Delete(user, _) => user in s.db.users
    case DiscardDraft(user, _) => user in s.db.users
    case ClaimPublication(id, queryTime) => queryTime <= now && DueEvent(s.db, id, queryTime)
    case CancelPublication(id) =>
      id in s.db.tasks && (s.db.tasks[id].state == Cancelled || s.db.tasks[id].state == Failed)
    case Publish(p) => s.queueMode && p in s.publications && p.message.None?
    case Acknowledge(p) => p in s.publications && (s.queueMode ==> p.message.Some?)
    case RetryPublication(p) => p in s.publications
    case ClaimNext(id, kind) => !s.queueMode && OldestDue(s.db, id, kind, now)
    case Receive(m, _) => s.queueMode && m in s.messages
    case ReadContent(job) => job in s.jobs && job.claim.kind == Embedding
    case FinishExtraction(job, _) => job in s.jobs && job.claim.kind == Extraction
    case FinishEmbedding(job, _) => job in s.jobs && job.claim.kind == Embedding && job.content.Some?
    case FailJob(job, _, _) => job in s.jobs
    case Settle(job) => job in s.jobs && job.message.Some?
    case DeleteMessage(m) => m in s.deleting
    case DeleteObject(ref) => ref in s.doomed
    case SweepObject(sweep, ref) =>
      sweep in s.sweeps && ref in s.objects && ref !in sweep.live && s.objects[ref] <= sweep.cutoff
    case CleanUp(asOf) => asOf <= now
  }

  function Doom(s: Sys, ref: Option<Ref>): set<Ref> {
    if ref.Some? then s.doomed + {ref.value} else s.doomed
  }

  function AfterClaimPublication(s: Sys, id: TaskId, now: Time): Sys
    requires id in s.db.events
  {
    s.(db := ClaimEvent(s.db, id, OUTBOX_LEASE, now),
       publications := s.publications + {Publication(Delivery(id, s.db.next), None)},
       exposed := s.exposed - {id})
  }

  function AfterPublish(s: Sys, p: Publication): Sys {
    s.(db := s.db.(next := s.db.next + 1), messages := s.messages[s.db.next := p.delivery.task],
       publications := s.publications - {p} + {p.(message := Some(s.db.next))})
  }

  function AfterLocalClaim(s: Sys, id: TaskId, now: Time): Sys
    requires id in s.db.tasks
  {
    var r := ClaimLocal(s.db, id, now);
    if r.token.Some? && id in r.db.tasks then
      s.(db := r.db, jobs := s.jobs + {Job(ClaimOf(r.db, id, r.token.value), None, None)})
    else s.(db := r.db)
  }

  /** The message was sent by the publisher that holds the task's event, which has not acknowledged yet. */
  predicate WindowMessage(db: Db, publications: set<Publication>, m: MsgId, id: TaskId) {
    && id in db.events && db.events[id].state == Claimed
    && exists p | p in publications ::
         p.delivery.task == id && p.message == Some(m) && db.events[id].token == Some(p.delivery.token)
  }

  /** One received message: claim its task, or decide about the message. */
  function AfterReceive(s: Sys, m: MsgId, kind: Kind, now: Time): Sys
    requires m in s.messages
  {
    var id := s.messages[m];
    var r := ClaimPublished(s.db, id, kind, LEASE_FOR, now);
    if r.token.Some? && id in r.db.tasks then
      s.(db := r.db, jobs := s.jobs + {Job(ClaimOf(r.db, id, r.token.value), Some(m), None)})
    else if DeletesMessage(Disposed(r.db, id, kind)) then
      s.(db := r.db, deleting := s.deleting + {m},
         exposed := if id in r.db.tasks && r.db.tasks[id].state == RetryWait && WindowMessage(r.db, s.publications, m, id)
                    then s.exposed + {id} else s.exposed)
    else s.(db := r.db)
  }

  function AfterFinishExtraction(env: Env, s: Sys, c: Claim, draft: Draft, now: Time): Sys {
    var r := CompleteExtraction(s.db, c, draft, env.ttl, now);
    s.(db := r.db, doomed := Doom(s, r.delete), completions := WithCompletion(s, c, now))
  }

  function WithCompletion(s: Sys, c: Claim, now: Time): seq<(TaskId, Token)> {
    if Complete(s.db, c.task, c.owner, c.revision, c.token, now).ok then s.completions + [(c.task, c.token)]
    else s.completions
  }

  function AfterFinishEmbedding(env: Env, s: Sys, job: Job, version: Version, now: Time): Sys
    requires job.content.Some?
  {
    s.(db := CompleteEmbedding(s.db, job.claim, version, env.embed(version, job.content.value), now),
       completions := WithCompletion(s, job.claim, now))
  }

  function AfterFail(s: Sys, c: Claim, code: FailureCode, retryable: bool, now: Time): Sys {
    var r := FailClaim(s.db, c, code, retryable, now);
    s.(db := r.db, doomed := Doom(s, r.delete),
       retried := if c.task in r.db.tasks && r.db.tasks[c.task].state == RetryWait then s.retried + {c.task} else s.retried)
  }

  function AfterCleanUp(env: Env, s: Sys, asOf: Time): Sys {
    var db := Cleaned(s.db, env.ttl, asOf);
    s.(db := db, doomed := s.doomed + StaleRefs(s.db, env.ttl, asOf),
       sweeps := s.sweeps + {Sweep(LiveRefs(db), asOf - env.ttl)})
  }

  /** The effect of an action apart from the clock. */
  function Effect(env: Env, s: Sys, now: Time, a: Action): Sys
    requires Enabled(env, s, now, a)
  {
    match a
    case CreateUser(user) => s.(db := s.db.(users := s.db.users[user := 0]))
    case StoreUpload =>
      s.(db := s.db.(next := s.db.next + 1), objects := s.objects[s.db.next := now], staged := s.staged[s.db.next := now])
    case CommitUpload(user, ref) =>
      (match Prepare(s.db, user, ref, now)
       case None => s.(staged := s.staged - {ref}, doomed := s.doomed + {ref})
       case Some(db) => s.(db := db, staged := s.staged - {ref}))
    case AbandonUpload(ref) => s.(staged := s.staged - {ref}, doomed := s.doomed + {ref})
    case Save(user, op, payload) => s.(db := SaveMain(s.db, user, op, payload, now).db)
    case StoreReview(user, op, payload) => s.(db := SaveReview(s.db, user, op, payload, now).db)
    case Delete(user, expected) =>
      s.(db := DeleteResume(s.db, user, expected).db, doomed := s.doomed + DeleteResume(s.db, user, expected).refs)
    case DiscardDraft(user, id) =>
      s.(db := Discard(s.db, user, id).db, doomed := Doom(s, Discard(s.db, user, id).ref))
    case ClaimPublication(id, _) => AfterClaimPublication(s, id, now)
    case CancelPublication(id) => s.(db := CancelEvent(s.db, id))
    case Publish(p) => AfterPublish(s, p)
    case Acknowledge(p) => s.(db := Ack(s.db, p.delivery.task, p.delivery.token, now).db)
    case RetryPublication(p) => s.(db := RetryEvent(s.db, p.delivery.task, p.delivery.token, RETRY_DELAY, now).db)
    case ClaimNext(id, _) => AfterLocalClaim(s, id, now)
    case Receive(m, kind) => AfterReceive(s, m, kind, now)
    case ReadContent(job) =>
      s.(jobs := s.jobs + {job.(content := ApprovedContent(s.db, job.claim.owner, job.claim.revision))})
    case FinishExtraction(job, draft) => AfterFinishExtraction(env, s, job.claim, draft, now)
    case FinishEmbedding(job, version) => AfterFinishEmbedding(env, s, job, version, now)
    case FailJob(job, code, retryable) => AfterFail(s, job.claim, code, retryable, now)
    case Settle(job) =>
      if SettledAfterWork(s.db, job.claim.task) then s.(deleting := s.deleting + {job.message.value}) else s
    case DeleteMessage(m) => s.(messages := s.messages - {m})
    case DeleteObject(ref) => s.(objects := s.objects - {ref})
    case SweepObject(_, ref) => s.(objects := s.objects - {ref})
    case CleanUp(asOf) => AfterCleanUp(env, s, asOf)
  }

  datatype Step = Step(now: Time, action: Action)

  predicate Next(env: Env, s: Sys, step: Step, s': Sys) {
    && s.clock <= step.now && Enabled(env, s.(clock := step.now), step.now, step.action)
    && s' == Effect(env, s.(clock := step.now), step.now, step.action)
  }

  function Init(queueMode: bool, clock: Time): Sys {
    Sys(EmptyDb(), clock, queueMode, map[], map[], {}, {}, map[], {}, {}, {}, {}, {}, [])
  }

  /** A run: `states[i + 1]` is reached from `states[i]` by `steps[i]`. */
  ghost predicate IsRun(env: Env, states: seq<Sys>, steps: seq<Step>) {
    && |states| == |steps| + 1
    && (forall i | 0 <= i < |steps| :: Next(env, states[i], steps[i], states[i + 1]))
  }

  ghost predicate RunFromStart(env: Env, states: seq<Sys>, steps: seq<Step>) {
    && IsRun(env, states, steps)
    && states[0] == Init(states[0].queueMode, states[0].clock)
  }

  ghost predicate Reachable(env: Env, s: Sys) {
    exists states, steps :: RunFromStart(env, states, steps) && states[|states| - 1] == s
  }

  lemma ReachNext(env: Env, s: Sys, step: Step, s': Sys)
    requires Reachable(env, s) && Next(env, s, step, s')
    ensures Reachable(env, s')
  {
    var states, steps :| RunFromStart(env, states, steps) && states[|states| - 1] == s;
    hide Next;
    var states', steps' := states + [s'], steps + [step];
    assert forall i | 0 <= i < |steps'| :: Next(env, states'[i], steps'[i], states'[i + 1]);
    assert RunFromStart(env, states', steps');
  }

  lemma ReachInit(env: Env, queueMode: bool)
    ensures Reachable(env, Init(queueMode, 0))
  {
    var states, steps: seq<Step> := [Init(queueMode, 0)], [];
    assert RunFromStart(env, states, steps);
  }

  /** Some run of the deployment leads from one state to the other. */
  ghost predicate Leads(env: Env, s: Sys, s': Sys) {
    exists states, steps :: IsRun(env, states, steps) && states[0] == s && states[|states| - 1] == s'
  }

  lemma LeadsSelf(env: Env, s: Sys)
    ensures Leads(env, s, s)
  {
    var states, steps: seq<Step> := [s], [];
    assert IsRun(env, states, steps);
  }

  lemma LeadsNext(env: Env, s: Sys, s': Sys, step: Step, s'': Sys)
    requires Leads(env, s, s') && Next(env, s', step, s'')
    ensures Leads(env, s, s'')
  {
    var states, steps :| IsRun(env, states, steps) && states[0] == s && states[|states| - 1] == s';
    hide Next;
    var states', steps' := states + [s''], steps + [step];
    assert forall i | 0 <= i < |steps'| :: Next(env, states'[i], steps'[i], states'[i + 1]);
    assert IsRun(env, states', steps');
  }
}
