/** The system invariant of the deployment. */
module Invariants {
  import opened Wrappers
  import opened Rows
  import opened Tasks
  import opened Outbox
  import opened Resume
  import opened Worker
  import opened RowInvariant
  import opened Deployment

  /** A claim in a worker's hands names an existing task as it was when claimed. */
  predicate ClaimOk(db: Db, c: Claim) {
    && c.task in db.tasks
    && c.owner == db.tasks[c.task].owner && c.kind == db.tasks[c.task].kind && c.revision == db.tasks[c.task].revision
    && c.token < db.next
    && (c.payload.Some? ==> db.tasks[c.task].key == Upload(c.payload.value))
  }

  predicate JobsOk(s: Sys) {
    forall job | job in s.jobs :: ClaimOk(s.db, job.claim) && (job.message.Some? ==> job.message.value < s.db.next)
  }

  /** Each task completes successfully at most once, and a completed task never runs again. */
  predicate CompletionsOk(s: Sys) {
    && (forall i | 0 <= i < |s.completions| ::
          && s.completions[i].0 in s.db.tasks
          && (s.db.tasks[s.completions[i].0].state == Succeeded || s.db.tasks[s.completions[i].0].state == Cancelled))
    && (forall i, j | 0 <= i < j < |s.completions| :: s.completions[i].0 != s.completions[j].0)
  }

  predicate UploadsUnique(db: Db) {
    forall a, b | a in db.tasks && b in db.tasks && db.tasks[a].key.Upload? && db.tasks[a].key == db.tasks[b].key :: a == b
  }

  predicate Unused(db: Db, ref: Ref) {
    forall id | id in db.tasks :: db.tasks[id].key != Upload(ref)
  }

  /** An upload that is stored but not yet enqueued is safe until the store's TTL has passed. */
  predicate StagedOk(env: Env, s: Sys, ref: Ref)
    requires ref in s.staged
  {
    && ref < s.db.next && ref !in s.doomed && Unused(s.db, ref) && s.staged[ref] <= s.clock
    && (s.staged[ref] + env.ttl <= s.clock || (ref in s.objects && s.objects[ref] == s.staged[ref]))
  }

  /** No deletion, decided or still to be decided by a started sweep, can hit this object. */
  predicate Kept(s: Sys, ref: Ref) {
    && ref in s.objects && ref !in s.doomed
    && (forall sweep | sweep in s.sweeps :: ref in sweep.live || sweep.cutoff < s.objects[ref])
  }

  predicate LiveInputsKept(s: Sys) {
    forall id | id in s.db.tasks && s.db.tasks[id].kind == Extraction && Live(s.db.tasks[id]) ::
      s.db.tasks[id].payload.Some? && Kept(s, s.db.tasks[id].payload.value)
  }

  predicate StorageOk(env: Env, s: Sys) {
    && (forall ref | ref in s.staged :: StagedOk(env, s, ref))
    && LiveInputsKept(s)
    && (forall sweep | sweep in s.sweeps :: sweep.cutoff + env.ttl <= s.clock)
    && (forall ref | ref in s.doomed :: ref < s.db.next)
    && (forall ref | ref in s.objects :: ref < s.db.next)
    && UploadsUnique(s.db)
  }

  /** A message for the task that no worker has decided to delete. */
  predicate Deliverable(s: Sys, m: MsgId, id: TaskId) {
    m in s.messages && s.messages[m] == id && m !in s.deleting
  }

  predicate HasMessage(s: Sys, id: TaskId) {
    exists m | m in s.messages :: Deliverable(s, m, id)
  }

  predicate PublicationOk(s: Sys, p: Publication) {
    && p.delivery.task in s.db.tasks && p.delivery.token < s.db.next && (p.message.Some? ==> p.message.value < s.db.next)
    && (p.message.Some? && p.delivery.task !in s.exposed && Live(s.db.tasks[p.delivery.task])
        && p.delivery.task in s.db.events && s.db.events[p.delivery.task].token == Some(p.delivery.token) ==>
          Deliverable(s, p.message.value, p.delivery.task))
  }

  predicate SentOk(s: Sys, id: TaskId)
    requires id in s.db.tasks
  {
    id !in s.exposed && Live(s.db.tasks[id]) && Published(s.db, id) ==> HasMessage(s, id)
  }

  /** A worker's message is the one that named its task. */
  predicate JobMessageOk(s: Sys, job: Job) {
    job.message.Some? && job.message.value in s.messages ==> s.messages[job.message.value] == job.claim.task
  }

  /** A delivery is in one publisher's hands, sent or not. */
  predicate DeliveriesUnique(s: Sys) {
    forall p, q | p in s.publications && q in s.publications && p.delivery.token == q.delivery.token :: p == q
  }

  /** The publication under way has sent a message that somebody has decided to delete. */
  predicate Undone(s: Sys, id: TaskId) {
    id in s.db.events && s.db.events[id].token.Some? ==>
      exists p | p in s.publications ::
        p.delivery == Delivery(id, s.db.events[id].token.value) && p.message.Some? && !Deliverable(s, p.message.value, id)
  }

  predicate QueueOk(s: Sys) {
    && DeliveriesUnique(s) && (forall id | id in s.exposed :: Undone(s, id))
    && (forall job | job in s.jobs :: JobMessageOk(s, job))
    && (forall p | p in s.publications :: PublicationOk(s, p))
    && (s.queueMode ==> forall id | id in s.db.tasks :: SentOk(s, id))
    && (forall id | id in s.db.tasks && s.db.tasks[id].state == RetryWait :: id in s.retried)
    && s.exposed <= s.retried
    && (forall m | m in s.messages :: m < s.db.next)
    && (forall m | m in s.deleting :: m < s.db.next)
  }

  /** The stored chunks are those of the profile's content under one model version. */
  ghost predicate Embedded(env: Env, db: Db, user: UserId) {
    && user in db.profiles
    && exists version :: ChunksOf(db, user)
         == ChunkRows(db.profiles[user].revision, version, env.embed(version, db.profiles[user].content))
  }

  ghost predicate ProfilesOk(env: Env, db: Db) {
    && (forall u | u in db.profiles :: u in db.users && db.profiles[u].revision == db.users[u])
    && (forall u | u in db.chunks && db.chunks[u] != [] :: Embedded(env, db, u))
    && (forall id | id in db.tasks && db.tasks[id].kind == Embedding && db.tasks[id].owner in db.users
                    && db.tasks[id].revision == db.users[db.tasks[id].owner] ::
          && db.tasks[id].owner in db.profiles
          && (db.tasks[id].state == Succeeded ==> Embedded(env, db, db.tasks[id].owner)))
  }

  /** What a worker has read is still the approved content while the account has not moved on. */
  predicate ReadOk(db: Db, job: Job) {
    && (job.content.Some? ==> job.claim.kind == Embedding)
    && (job.content.Some? && job.claim.owner in db.users && db.users[job.claim.owner] == job.claim.revision ==>
          job.claim.owner in db.profiles && db.profiles[job.claim.owner].content == job.content.value)
  }

  predicate ReadsOk(s: Sys) {
    forall job | job in s.jobs :: ReadOk(s.db, job)
  }

  ghost predicate SysOk(env: Env, s: Sys) {
    && DbOk(s.db, s.clock) && JobsOk(s) && CompletionsOk(s) && StorageOk(env, s) && QueueOk(s)
    && ProfilesOk(env, s.db) && ReadsOk(s)
  }
}
