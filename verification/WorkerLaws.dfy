/** What one pass of a worker leaves in the tables, the store and the queue, row by row.
  *
  * Each law covers both ways to the task: `run_one` on the row its query chose, and `run_queue_message` on any message
  * that names it.
  */
module WorkerLaws {
  import opened Wrappers
  import opened Rows
  import opened Tasks
  import opened Worker
  import opened Deployment
  import opened Invariants
  import opened LocalWorker
  import ContentSafety

  /** A worker of this kind can start the task: it is published and due, no lease on it runs and an attempt is left. */
  predicate Startable(db: Db, id: TaskId, kind: Kind, now: Time) {
    id in db.tasks && id in db.events && db.events[id].state == Sent
    && var t := db.tasks[id];
       && t.kind == kind && t.attempts < t.maxAttempts && t.available <= now
       && (t.state == Pending || t.state == RetryWait
           || (t.state == Processing && (t.leaseEnd.Some? ==> t.leaseEnd.value <= now)))
  }

  /** These are the tables and stored objects after a pass over the task, and a pass over a message deletes it. */
  predicate EndsAs(env: Env, s: Sys, m: MsgId, id: TaskId, kind: Kind, work: Work, now: Time, db': Db, objects': map<Ref, Time>)
    requires id in s.db.tasks
  {
    var local := RunNext(env, s, id, work, now);
    && local.db == db' && local.objects == objects' && local.messages == s.messages
    && (m in s.messages && s.messages[m] == id ==>
          var queued := RunMessage(env, s, m, kind, work, now);
          && queued.db == db' && queued.objects == objects' && queued.messages == s.messages - {m}
          && DelayOf(env, s, m, kind, work, now) == None)
  }

  // ---- the claim

  /** The task as its worker works on it. */
  predicate Working(s: Sys, s1: Sys, id: TaskId, c: Claim, now: Time) {
    id in s.db.tasks
    && var t := s.db.tasks[id];
       && c == Claim.Claim(id, t.owner, t.kind, t.revision, s.db.next, t.payload)
       && s1.objects == s.objects && s1.messages == s.messages
       && s1.db == s.db.(next := s.db.next + 1,
                         tasks := s.db.tasks[id := t.(attempts := t.attempts + 1, state := Processing, failure := None,
                                                      token := Some(s.db.next), leaseEnd := Some(now + 15 * 60))])
  }

  function ClaimHere(s: Sys, id: TaskId): Claim
    requires id in s.db.tasks
  {
    var t := s.db.tasks[id];
    Claim.Claim(id, t.owner, t.kind, t.revision, s.db.next, t.payload)
  }

  lemma StartsLocally(env: Env, s: Sys, id: TaskId, kind: Kind, work: Work, now: Time)
    requires Startable(s.db, id, kind, now)
    ensures var s1, c := AfterLocalClaim(s, id, now), ClaimHere(s, id);
            Working(s, s1, id, c, now) && RunNext(env, s, id, work, now) == Process(env, s1, Job(c, None, None), work, now)
  {
    hide Process;
  }

  lemma StartsFromMessage(env: Env, s: Sys, m: MsgId, kind: Kind, work: Work, now: Time)
    requires m in s.messages && Startable(s.db, s.messages[m], kind, now)
    ensures var s1, c := AfterReceive(s, m, kind, now), ClaimHere(s, s.messages[m]);
            var after := Process(env, s1, Job(c, Some(m), None), work, now);
            && Working(s, s1, s.messages[m], c, now)
            && RunMessage(env, s, m, kind, work, now) == Settled(after, Job(c, Some(m), None))
            && DelayOf(env, s, m, kind, work, now) == if SettledAfterWork(after.db, s.messages[m]) then None else Some(LEASE_FOR)
  {
    hide Process, SettledAfterWork, Settled, Disposed, WindowMessage;
  }

  /** If the work ends this way on the claimed task, the pass does. */
  lemma Concludes(env: Env, s: Sys, m: MsgId, id: TaskId, kind: Kind, work: Work, now: Time, db': Db, objects': map<Ref, Time>)
    requires Startable(s.db, id, kind, now) && SettledAfterWork(db', id)
    requires var after := Process(env, AfterLocalClaim(s, id, now), Job(ClaimHere(s, id), None, None), work, now);
             after.db == db' && after.objects == objects'
    requires m in s.messages && s.messages[m] == id ==>
               var after := Process(env, AfterReceive(s, m, kind, now), Job(ClaimHere(s, id), Some(m), None), work, now);
               after.db == db' && after.objects == objects'
    ensures EndsAs(env, s, m, id, kind, work, now, db', objects')
  {
    StartsLocally(env, s, id, kind, work, now);
    ProcessKeepsMessages(env, AfterLocalClaim(s, id, now), Job(ClaimHere(s, id), None, None), work, now);
    if m in s.messages && s.messages[m] == id {
      StartsFromMessage(env, s, m, kind, work, now);
      ProcessKeepsMessages(env, AfterReceive(s, m, kind, now), Job(ClaimHere(s, id), Some(m), None), work, now);
    }
    hide Process, AfterLocalClaim, AfterReceive, SettledAfterWork, Startable, RunNext, RunMessage, DelayOf;
  }

  /** Both ways put the task into its worker's hands alike. */
  lemma InHand(env: Env, s: Sys, m: MsgId, id: TaskId, kind: Kind, work: Work, now: Time)
    requires Startable(s.db, id, kind, now)
    ensures Working(s, AfterLocalClaim(s, id, now), id, ClaimHere(s, id), now)
    ensures m in s.messages && s.messages[m] == id ==> Working(s, AfterReceive(s, m, kind, now), id, ClaimHere(s, id), now)
  {
    hide Process, Working, RunNext, RunMessage, DelayOf, AfterLocalClaim, AfterReceive, Settled;
    StartsLocally(env, s, id, kind, work, now);
    if m in s.messages && s.messages[m] == id { StartsFromMessage(env, s, m, kind, work, now); }
  }

  lemma Twice<T>(rows: map<TaskId, T>, id: TaskId, a: T, b: T)
    ensures rows[id := a][id := b] == rows[id := b]
  {
  }

  // ---- extractions

  /** The row with the attempt counted that the pass has made, its lease given up. */
  function Over(t: Task): Task {
    t.(attempts := t.attempts + 1, token := None, leaseEnd := None)
  }

  function EventOver(e: Event): Event {
    e.(state := EventCancelled, token := None, leaseEnd := None)
  }

  lemma DraftStored(db: Db, c: Claim, draft: Draft, ttl: nat, now: Time)
    requires c.task in db.tasks && c.task in db.events && HoldsLease(db.tasks[c.task], c.token, now)
    requires c.owner == db.tasks[c.task].owner && c.revision == db.tasks[c.task].revision && c.owner in db.users
    ensures var t, e, r := db.tasks[c.task], db.events[c.task], CompleteExtraction(db, c, draft, ttl, now);
            && r.delete == c.payload
            && (db.users[c.owner] == c.revision ==>
                  r.db == db.(tasks := db.tasks[c.task := t.(state := Succeeded, result := Some(draft), expires := Some(now + ttl),
                                                             payload := None, token := None, leaseEnd := None, failure := None)]))
            && (db.users[c.owner] != c.revision ==>
                  r.db == db.(tasks := db.tasks[c.task := t.(state := Cancelled, failure := Some(StaleRevision), result := None,
                                                             expires := None, token := None, leaseEnd := None)],
                              events := db.events[c.task := e.(state := EventCancelled, token := None, leaseEnd := None)]))
  {
    Twice(db.tasks, c.task, SucceededTask(db.tasks[c.task]),
          SucceededTask(db.tasks[c.task]).(result := Some(draft), expires := Some(now + ttl), payload := None));
  }

  lemma ExtractionEnds(env: Env, s: Sys, s1: Sys, id: TaskId, job: Job, draft: Draft, now: Time)
    requires Working(s, s1, id, job.claim, now) && job.claim.kind == Extraction && id in s.db.events
    requires s.db.tasks[id].payload.Some? && s.db.tasks[id].owner in s.db.users
    ensures var t, e, s' := s.db.tasks[id], s.db.events[id], Process(env, s1, job, Extracted(draft), now);
            && s'.objects == s.objects - {t.payload.value}
            && (s.db.users[t.owner] == t.revision ==>
                  s'.db == s.db.(next := s.db.next + 1,
                    tasks := s.db.tasks[id := Over(t).(state := Succeeded, result := Some(draft), expires := Some(now + env.ttl),
                                                       payload := None, failure := None)]))
            && (s.db.users[t.owner] != t.revision ==>
                  s'.db == s.db.(next := s.db.next + 1, events := s.db.events[id := EventOver(e)],
                    tasks := s.db.tasks[id := Over(t).(state := Cancelled, failure := Some(StaleRevision), result := None,
                                                       expires := None)]))
  {
    var c := job.claim;
    DraftStored(s1.db, c, draft, env.ttl, now);
    hide CompleteExtraction, WithCompletion, Doom;
  }

  /** A draft extracted at the account's revision is stored, for the store's TTL from now on, and its upload is deleted. */
  lemma ExtractionIsStored(env: Env, s: Sys, m: MsgId, id: TaskId, draft: Draft, now: Time)
    requires Startable(s.db, id, Extraction, now) && s.db.tasks[id].payload.Some?
    requires s.db.tasks[id].owner in s.db.users && s.db.users[s.db.tasks[id].owner] == s.db.tasks[id].revision
    ensures var t := s.db.tasks[id];
            EndsAs(env, s, m, id, Extraction, Extracted(draft), now,
                   s.db.(next := s.db.next + 1,
                         tasks := s.db.tasks[id := Over(t).(state := Succeeded, result := Some(draft), expires := Some(now + env.ttl),
                                                            payload := None, failure := None)]),
                   s.objects - {t.payload.value})
  {
    var t := s.db.tasks[id];
    InHand(env, s, m, id, Extraction, Extracted(draft), now);
    hide Process, AfterLocalClaim, AfterReceive, Working, EndsAs;
    ExtractionEnds(env, s, AfterLocalClaim(s, id, now), id, Job(ClaimHere(s, id), None, None), draft, now);
    if m in s.messages && s.messages[m] == id {
      ExtractionEnds(env, s, AfterReceive(s, m, Extraction, now), id, Job(ClaimHere(s, id), Some(m), None), draft, now);
    }
    Concludes(env, s, m, id, Extraction, Extracted(draft), now,
              s.db.(next := s.db.next + 1,
                    tasks := s.db.tasks[id := Over(t).(state := Succeeded, result := Some(draft), expires := Some(now + env.ttl),
                                                       payload := None, failure := None)]),
              s.objects - {t.payload.value});
  }

  /** A draft extracted for an account that has moved on is dropped: task and event are cancelled and the upload is deleted. */
  lemma StaleExtractionIsCancelled(env: Env, s: Sys, m: MsgId, id: TaskId, draft: Draft, now: Time)
    requires Startable(s.db, id, Extraction, now) && s.db.tasks[id].payload.Some?
    requires s.db.tasks[id].owner in s.db.users && s.db.users[s.db.tasks[id].owner] != s.db.tasks[id].revision
    ensures var t, e := s.db.tasks[id], s.db.events[id];
            EndsAs(env, s, m, id, Extraction, Extracted(draft), now,
                   s.db.(next := s.db.next + 1, events := s.db.events[id := EventOver(e)],
                         tasks := s.db.tasks[id := Over(t).(state := Cancelled, failure := Some(StaleRevision), result := None,
                                                            expires := None)]),
                   s.objects - {t.payload.value})
  {
    var t, e := s.db.tasks[id], s.db.events[id];
    InHand(env, s, m, id, Extraction, Extracted(draft), now);
    hide Process, AfterLocalClaim, AfterReceive, Working, EndsAs;
    ExtractionEnds(env, s, AfterLocalClaim(s, id, now), id, Job(ClaimHere(s, id), None, None), draft, now);
    if m in s.messages && s.messages[m] == id {
      ExtractionEnds(env, s, AfterReceive(s, m, Extraction, now), id, Job(ClaimHere(s, id), Some(m), None), draft, now);
    }
    Concludes(env, s, m, id, Extraction, Extracted(draft), now,
              s.db.(next := s.db.next + 1, events := s.db.events[id := EventOver(e)],
                    tasks := s.db.tasks[id := Over(t).(state := Cancelled, failure := Some(StaleRevision), result := None,
                                                       expires := None)]),
              s.objects - {t.payload.value});
  }

  // ---- embeddings

  /** The profile still has the revision that the task is for. */
  predicate Approved(db: Db, t: Task) {
    t.owner in db.profiles && db.profiles[t.owner].revision == t.revision
  }

  function EmbeddedRows(revision: nat, version: Version, bodies: seq<ChunkBody>): seq<Chunk> {
    seq(|bodies|, i requires 0 <= i < |bodies| => Chunk(revision, version, bodies[i]))
  }

  lemma RowsStored(db: Db, c: Claim, version: Version, bodies: seq<ChunkBody>, now: Time)
    requires c.task in db.tasks && HoldsLease(db.tasks[c.task], c.token, now)
    requires c.owner == db.tasks[c.task].owner && c.revision == db.tasks[c.task].revision
    requires c.owner in db.users && db.users[c.owner] == c.revision && WithoutRevision(ChunksOf(db, c.owner), c.revision) == []
    ensures CompleteEmbedding(db, c, version, bodies, now)
         == db.(chunks := db.chunks[c.owner := EmbeddedRows(c.revision, version, bodies)],
                tasks := db.tasks[c.task := db.tasks[c.task].(state := Succeeded, token := None, leaseEnd := None, failure := None)])
  {
    assert EmbeddedRows(c.revision, version, bodies) == ChunkRows(c.revision, version, bodies);
    assert [] + ChunkRows(c.revision, version, bodies) == ChunkRows(c.revision, version, bodies);
  }

  lemma EmbeddingEnds(env: Env, s: Sys, s1: Sys, id: TaskId, job: Job, version: Version, now: Time)
    requires Working(s, s1, id, job.claim, now) && job.claim.kind == Embedding && ProfilesOk(env, s.db) && Approved(s.db, s.db.tasks[id])
    ensures var t, s' := s.db.tasks[id], Process(env, s1, job, Embedded(version), now);
            && s'.objects == s.objects
            && s'.db == s.db.(next := s.db.next + 1,
                 chunks := s.db.chunks[t.owner := EmbeddedRows(t.revision, version, env.embed(version, s.db.profiles[t.owner].content))],
                 tasks := s.db.tasks[id := Over(t).(state := Succeeded, failure := None)])
  {
    var c := job.claim;
    ContentSafety.NothingLeft(env, s.db, c.owner);
    hide ProfilesOk, WithoutRevision;
    RowsStored(s1.db, c, version, env.embed(version, s.db.profiles[c.owner].content), now);
    hide CompleteEmbedding, WithCompletion;
  }

  /** The chunks of the profile's content replace all others of the account, under the version of the worker. */
  lemma EmbeddingIsStored(env: Env, s: Sys, m: MsgId, id: TaskId, version: Version, now: Time)
    requires Startable(s.db, id, Embedding, now) && ProfilesOk(env, s.db) && Approved(s.db, s.db.tasks[id])
    ensures var t := s.db.tasks[id];
            EndsAs(env, s, m, id, Embedding, Embedded(version), now,
                   s.db.(next := s.db.next + 1,
                         chunks := s.db.chunks[t.owner := EmbeddedRows(t.revision, version, env.embed(version, s.db.profiles[t.owner].content))],
                         tasks := s.db.tasks[id := Over(t).(state := Succeeded, failure := None)]),
                   s.objects)
  {
    var t := s.db.tasks[id];
    InHand(env, s, m, id, Embedding, Embedded(version), now);
    hide Process, AfterLocalClaim, AfterReceive, Working, EndsAs, ProfilesOk;
    EmbeddingEnds(env, s, AfterLocalClaim(s, id, now), id, Job(ClaimHere(s, id), None, None), version, now);
    if m in s.messages && s.messages[m] == id {
      EmbeddingEnds(env, s, AfterReceive(s, m, Embedding, now), id, Job(ClaimHere(s, id), Some(m), None), version, now);
    }
    Concludes(env, s, m, id, Embedding, Embedded(version), now,
              s.db.(next := s.db.next + 1,
                    chunks := s.db.chunks[t.owner := EmbeddedRows(t.revision, version, env.embed(version, s.db.profiles[t.owner].content))],
                    tasks := s.db.tasks[id := Over(t).(state := Succeeded, failure := None)]),
              s.objects);
  }

  // ---- failures

  /** The work fails like this: the handler raises it, its result has the wrong shape, its input is missing, or the profile
    * has moved on. */
  predicate FailsWith(db: Db, t: Task, work: Work, code: FailureCode, retryable: bool) {
    || (t.kind == Extraction && t.payload.Some? && work == Raised(code, retryable))
    || (t.kind == Extraction && (t.payload.None? || work.Embedded?) && code == HandlerCode(0) && retryable)
    || (t.kind == Embedding && !Approved(db, t) && code == StaleRevision && !retryable)
    || (t.kind == Embedding && Approved(db, t) && work == Raised(code, retryable))
    || (t.kind == Embedding && Approved(db, t) && work.Extracted? && code == HandlerCode(0) && retryable)
  }

  lemma FailureStored(db: Db, c: Claim, code: FailureCode, retryable: bool, now: Time)
    requires c.task in db.tasks && c.task in db.events && HoldsLease(db.tasks[c.task], c.token, now) && c.owner == db.tasks[c.task].owner
    ensures var t, e, r := db.tasks[c.task], db.events[c.task], FailClaim(db, c, code, retryable, now);
            && (retryable && t.attempts < t.maxAttempts ==>
                  r.delete == None
                  && r.db == db.(tasks := db.tasks[c.task := t.(state := RetryWait, available := now + 5, failure := Some(code),
                                                                token := None, leaseEnd := None)],
                                 events := db.events[c.task := e.(state := EventPending, available := now + 5, token := None,
                                                                  leaseEnd := None)]))
            && (!(retryable && t.attempts < t.maxAttempts) ==>
                  r.delete == t.payload
                  && r.db == db.(tasks := db.tasks[c.task := t.(state := Failed, failure := Some(code), payload := None, result := None,
                                                                expires := None, token := None, leaseEnd := None)],
                                 events := db.events[c.task := e.(state := EventCancelled, token := None, leaseEnd := None)]))
  {
    var t := db.tasks[c.task];
    Twice(db.tasks, c.task, FailedTask(t, code), FailedTask(t, code).(payload := None, result := None, expires := None));
    if retryable && t.attempts < t.maxAttempts { } else { }
  }

  lemma FailingIs(s: Sys, c: Claim, code: FailureCode, retryable: bool, now: Time)
    ensures var r, s' := FailClaim(s.db, c, code, retryable, now), Failing(s, c, code, retryable, now);
            s'.db == r.db && s'.objects == if r.delete.Some? then s.objects - {r.delete.value} else s.objects
  {
    hide FailClaim, Doom;
  }

  lemma WorkFails(env: Env, s: Sys, job: Job, t: Task, work: Work, code: FailureCode, retryable: bool, now: Time)
    requires FailsWith(s.db, t, work, code, retryable)
    requires job.claim.owner == t.owner && job.claim.kind == t.kind && job.claim.revision == t.revision && job.claim.payload == t.payload
    ensures var r, s' := FailClaim(s.db, job.claim, code, retryable, now), Process(env, s, job, work, now);
            s'.db == r.db && s'.objects == if r.delete.Some? then s.objects - {r.delete.value} else s.objects
  {
    hide Failing, FailClaim, AfterFinishExtraction, AfterFinishEmbedding, WithoutObject;
    FailingIs(s, job.claim, code, retryable, now);
    FailingIs(s.(jobs := s.jobs + {job.(content := ApprovedContent(s.db, t.owner, t.revision))}), job.claim, code, retryable, now);
    if t.kind == Extraction { } else if Approved(s.db, t) { } else { }
  }

  /** The tables after a failure: a later retry while one is asked for and attempts are left, otherwise the end. */
  predicate FailedInto(s: Sys, db': Db, objects': map<Ref, Time>, id: TaskId, code: FailureCode, retryable: bool, now: Time)
    requires id in s.db.tasks && id in s.db.events
  {
    var t, e := s.db.tasks[id], s.db.events[id];
    && (retryable && t.attempts + 1 < t.maxAttempts ==>
          && objects' == s.objects
          && db' == s.db.(next := s.db.next + 1,
               tasks := s.db.tasks[id := Over(t).(state := RetryWait, available := now + 5, failure := Some(code))],
               events := s.db.events[id := e.(state := EventPending, available := now + 5, token := None, leaseEnd := None)]))
    && (!(retryable && t.attempts + 1 < t.maxAttempts) ==>
          && objects' == (if t.payload.Some? then s.objects - {t.payload.value} else s.objects)
          && db' == s.db.(next := s.db.next + 1,
               tasks := s.db.tasks[id := Over(t).(state := Failed, failure := Some(code), payload := None, result := None,
                                                  expires := None)],
               events := s.db.events[id := EventOver(e)]))
  }

  lemma FailsAlike(db: Db, db': Db, t: Task, work: Work, code: FailureCode, retryable: bool)
    requires db'.profiles == db.profiles
    ensures FailsWith(db', t, work, code, retryable) <==> FailsWith(db, t, work, code, retryable)
  {
  }

  lemma FailureEnds(env: Env, s: Sys, s1: Sys, id: TaskId, job: Job, work: Work, code: FailureCode, retryable: bool, now: Time)
    requires Working(s, s1, id, job.claim, now) && id in s.db.events && FailsWith(s.db, s.db.tasks[id], work, code, retryable)
    ensures var s' := Process(env, s1, job, work, now); FailedInto(s, s'.db, s'.objects, id, code, retryable, now)
  {
    hide Process, FailsWith, FailClaim, Fail;
    FailsAlike(s.db, s1.db, s.db.tasks[id], work, code, retryable);
    WorkFails(env, s1, job, s.db.tasks[id], work, code, retryable, now);
    FailureStored(s1.db, job.claim, code, retryable, now);
    if retryable && s.db.tasks[id].attempts + 1 < s.db.tasks[id].maxAttempts { } else { }
  }

  /** A failure is retried, five seconds later and with its event offered again, exactly while that is asked for and another
    * attempt is left; otherwise task and event end and the upload is deleted. */
  lemma FailureIsRetriedOrEnds(env: Env, s: Sys, m: MsgId, id: TaskId, kind: Kind, work: Work, code: FailureCode, retryable: bool,
                               now: Time) returns (db': Db, objects': map<Ref, Time>)
    requires Startable(s.db, id, kind, now) && FailsWith(s.db, s.db.tasks[id], work, code, retryable)
    ensures FailedInto(s, db', objects', id, code, retryable, now) && EndsAs(env, s, m, id, kind, work, now, db', objects')
  {
    InHand(env, s, m, id, kind, work, now);
    var local := Process(env, AfterLocalClaim(s, id, now), Job(ClaimHere(s, id), None, None), work, now);
    db', objects' := local.db, local.objects;
    hide Process, AfterLocalClaim, AfterReceive, Working, EndsAs, FailsWith;
    FailureEnds(env, s, AfterLocalClaim(s, id, now), id, Job(ClaimHere(s, id), None, None), work, code, retryable, now);
    if m in s.messages && s.messages[m] == id {
      FailureEnds(env, s, AfterReceive(s, m, kind, now), id, Job(ClaimHere(s, id), Some(m), None), work, code, retryable, now);
    }
    if retryable && s.db.tasks[id].attempts + 1 < s.db.tasks[id].maxAttempts { } else { }
    Concludes(env, s, m, id, kind, work, now, db', objects');
  }

  // ---- tasks that cannot be started

  /** Nothing is left to do for the message: its task has ended or is missing, or an event or a retry will bring another one. */
  predicate Disposable(db: Db, id: TaskId, kind: Kind) {
    || id !in db.tasks || db.tasks[id].state == Succeeded || db.tasks[id].state == Failed || db.tasks[id].state == Cancelled
    || (db.tasks[id].kind == kind
        && (id !in db.events || db.events[id].state == EventPending || db.events[id].state == EventCancelled
            || db.tasks[id].state == RetryWait))
  }

  /** The task could be started if an attempt were left. */
  predicate Spent(db: Db, id: TaskId, kind: Kind, now: Time) {
    id in db.tasks && id in db.events && db.tasks[id].attempts == db.tasks[id].maxAttempts
    && Startable(db.(tasks := db.tasks[id := db.tasks[id].(attempts := 0)]), id, kind, now)
  }

  predicate AttemptsOk(db: Db, id: TaskId) {
    id in db.tasks ==> db.tasks[id].attempts <= db.tasks[id].maxAttempts && 0 < db.tasks[id].maxAttempts
  }

  lemma NotStarted(db: Db, id: TaskId, kind: Kind, now: Time)
    requires !Startable(db, id, kind, now) && AttemptsOk(db, id)
    ensures var r := ClaimPublished(db, id, kind, LEASE_FOR, now);
            && r.token == None
            && (Spent(db, id, kind, now) ==>
                  r.db == db.(tasks := db.tasks[id := db.tasks[id].(state := Failed, failure := Some(AttemptsExhausted), token := None,
                                                                    leaseEnd := None)],
                              events := db.events[id := EventOver(db.events[id])]))
            && (!Spent(db, id, kind, now) ==> r.db == db)
  {
  }

  lemma DisposedIs(db: Db, id: TaskId, kind: Kind, now: Time)
    ensures DeletesMessage(Disposed(db, id, kind)) <==> Disposable(db, id, kind)
    ensures Disposable(db, id, kind) ==> HiddenFor(db, id, kind, now) == None
    ensures !Disposable(db, id, kind) ==>
              id in db.tasks && HiddenFor(db, id, kind, now) == Some(Hidden(db.tasks[id], kind, now))
  {
  }

  /** A message of another kind's task stays hidden for 30 seconds, that of a leased task until its lease ends, any other one
    * for 5 seconds. */
  function Hidden(t: Task, kind: Kind, now: Time): int {
    if t.kind != kind then 30
    else if t.state == Processing && t.leaseEnd.Some? then (if t.leaseEnd.value - now > 1 then t.leaseEnd.value - now else 1)
    else 5
  }

  /** A message whose task has used its attempts ends the task and is deleted. Any other message that does not start its task
    * leaves the tables alone; it is deleted exactly when nothing is left to do for it, and hidden for a while otherwise. */
  lemma IdleMessage(env: Env, s: Sys, m: MsgId, kind: Kind, work: Work, now: Time)
    requires m in s.messages && !Startable(s.db, s.messages[m], kind, now) && AttemptsOk(s.db, s.messages[m])
    ensures var id, s', delay := s.messages[m], RunMessage(env, s, m, kind, work, now), DelayOf(env, s, m, kind, work, now);
            && s'.objects == s.objects
            && (if Spent(s.db, id, kind, now) then
                  && s'.db == s.db.(
                       tasks := s.db.tasks[id := s.db.tasks[id].(state := Failed, failure := Some(AttemptsExhausted), token := None,
                                                                 leaseEnd := None)],
                       events := s.db.events[id := EventOver(s.db.events[id])])
                  && s'.messages == s.messages - {m} && delay == None
                else
                  && s'.db == s.db
                  && s'.messages == (if Disposable(s.db, id, kind) then s.messages - {m} else s.messages)
                  && (Disposable(s.db, id, kind) ==> delay == None)
                  && (!Disposable(s.db, id, kind) ==> id in s.db.tasks && delay == Some(Hidden(s.db.tasks[id], kind, now))))
  {
    hide Startable, Spent, Disposable, Hidden, ClaimPublished, Disposed, HiddenFor, Process, WindowMessage, AttemptsOk, SettledAfterWork,
         ClaimOf;
    var id := s.messages[m];
    NotStarted(s.db, id, kind, now);
    DisposedIs(s.db, id, kind, now);
    DisposedIs(ClaimPublished(s.db, id, kind, LEASE_FOR, now).db, id, kind, now);
    if Spent(s.db, id, kind, now) { SpentEnds(s.db, id, kind, now); } else { }
  }

  lemma SpentEnds(db: Db, id: TaskId, kind: Kind, now: Time)
    requires Spent(db, id, kind, now)
    ensures id in db.tasks && id in db.events
    ensures forall db': Db | id in db'.tasks && db'.tasks[id].state == Failed :: Disposable(db', id, kind)
  {
  }

  /** In local mode such a task is left as it is. */
  lemma IdlePass(env: Env, s: Sys, id: TaskId, kind: Kind, work: Work, now: Time)
    requires OldestDue(s.db, id, kind, now) && !Startable(s.db, id, kind, now)
    ensures id in s.db.tasks && RunNext(env, s, id, work, now) == s
  {
    hide Process;
  }

  // ---- what a receive brings

  /** The first well-formed message is taken; the malformed ones before it stay in the queue, hidden for 30 seconds, and the
    * rest of the receive is left alone. */
  lemma {:induction false} FirstIsTaken(delays: map<MsgId, int>, received: seq<Received>) returns (n: nat)
    ensures n <= |received| && forall i | 0 <= i < n :: !received[i].wellFormed
    ensures n < |received| ==> received[n].wellFormed && FirstWellFormed(received) == Some(received[n].message)
    ensures n == |received| ==> FirstWellFormed(received) == None
    ensures var hidden := set i | 0 <= i < n :: received[i].message;
            Postponed(delays, received) == map m | m in delays.Keys + hidden :: if m in hidden then 30 else delays[m]
    decreases |received|
  {
    if received == [] || received[0].wellFormed {
      n := 0;
    } else {
      var first := received[0].message;
      var k := FirstIsTaken(delays[first := 30], received[1..]);
      n := k + 1;
      var later, hidden := (set i | 0 <= i < k :: received[1..][i].message), (set i | 0 <= i < n :: received[i].message);
      assert hidden == {first} + later by {
        assert forall i | 0 <= i < k :: received[1..][i] == received[i + 1];
        assert forall i | 0 < i < n :: received[i] == received[1..][i - 1];
      }
    }
  }
}
