/** One pass of a worker: run_queue_message and run_one (src/backend/app/processing/local_worker.py).
  *
  * `RunMessage` and `RunNext` say what a pass does when nobody interferes, as a fold of the steps of
  * `Deployment`; the methods of `LocalWorker` do the same to the tables, the queue and the store, and
  * `RunMessageIsRun` and `RunNextIsRun` show that a pass is one of the runs of the deployment.
  */
module LocalWorker {
  import opened Wrappers
  import opened Rows
  import opened Tasks
  import opened Worker
  import opened Deployment
  import opened Publisher
  import D = Database

  const INTERNAL_ERROR := HandlerCode(0)

  /** What the handler of a claimed task does: a result, or an exception with its code. */
  datatype Work = Extracted(draft: Draft) | Embedded(version: Version) | Raised(code: FailureCode, retryable: bool)

  function WithoutObject(s: Sys, ref: Option<Ref>): Sys {
    if ref.Some? then s.(objects := s.objects - {ref.value}) else s
  }

  function Failing(s: Sys, c: Claim, code: FailureCode, retryable: bool, now: Time): Sys {
    WithoutObject(AfterFail(s, c, code, retryable, now), FailClaim(s.db, c, code, retryable, now).delete)
  }

  /** _process_claimed */
  function Process(env: Env, s: Sys, job: Job, work: Work, now: Time): Sys {
    var c := job.claim;
    if c.kind == Extraction then
      if c.payload.None? || work.Embedded? then Failing(s, c, INTERNAL_ERROR, true, now)
      else if work.Raised? then Failing(s, c, work.code, work.retryable, now)
      else WithoutObject(AfterFinishExtraction(env, s, c, work.draft, now), CompleteExtraction(s.db, c, work.draft, env.ttl, now).delete)
    else
      var read := job.(content := ApprovedContent(s.db, c.owner, c.revision));
      var s1 := s.(jobs := s.jobs + {read});
      if read.content.None? then Failing(s1, c, StaleRevision, false, now)
      else if work.Raised? then Failing(s1, c, work.code, work.retryable, now)
      else if work.Extracted? then Failing(s1, c, INTERNAL_ERROR, true, now)
      else AfterFinishEmbedding(env, s1, read, work.version, now)
  }

  /** The check after the work, and the deletion it decides. */
  function Settled(s: Sys, job: Job): Sys
    requires job.message.Some?
  {
    if SettledAfterWork(s.db, job.claim.task) then
      s.(deleting := s.deleting + {job.message.value}, messages := s.messages - {job.message.value})
    else s
  }

  /** The claim a receipt makes, if any. */
  function ReceivedJob(s: Sys, m: MsgId, kind: Kind, now: Time): Option<Job>
    requires m in s.messages
  {
    var r := ClaimPublished(s.db, s.messages[m], kind, LEASE_FOR, now);
    if r.token.Some? && s.messages[m] in r.db.tasks then Some(Job(ClaimOf(r.db, s.messages[m], r.token.value), Some(m), None))
    else None
  }

  /** The first well-formed message of a receive, to the end. */
  function RunMessage(env: Env, s: Sys, m: MsgId, kind: Kind, work: Work, now: Time): Sys
    requires m in s.messages
  {
    var s1 := AfterReceive(s, m, kind, now);
    match ReceivedJob(s, m, kind, now)
    case Some(job) => Settled(Process(env, s1, job, work, now), job)
    case None => if DeletesMessage(Disposed(s1.db, s.messages[m], kind)) then s1.(messages := s1.messages - {m}) else s1
  }

  /** run_one on the task its query chose. */
  function RunNext(env: Env, s: Sys, id: TaskId, work: Work, now: Time): Sys
    requires id in s.db.tasks
  {
    var r := ClaimLocal(s.db, id, now);
    var s1 := AfterLocalClaim(s, id, now);
    if r.token.Some? && id in r.db.tasks then Process(env, s1, Job(ClaimOf(r.db, id, r.token.value), None, None), work, now)
    else s1
  }

  /** What a receive returns: a message, and whether its body names a task of the worker's kind. */
  datatype Received = Received(message: MsgId, wellFormed: bool)

  /** The first message that can be handled. */
  function FirstWellFormed(received: seq<Received>): Option<MsgId> {
    if received == [] then None
    else if received[0].wellFormed then Some(received[0].message)
    else FirstWellFormed(received[1..])
  }

  const KEPT_FOR: nat := 30
  const NOT_READY_FOR: nat := 5

  /** The malformed messages before it are hidden for a while and stay in the queue. */
  function Postponed(delays: map<MsgId, int>, received: seq<Received>): map<MsgId, int>
    decreases |received|
  {
    if received == [] || received[0].wellFormed then delays
    else Postponed(delays[received[0].message := KEPT_FOR], received[1..])
  }

  /** How long a message stays hidden whose task could not be claimed. */
  function HiddenFor(db: Db, id: TaskId, kind: Kind, now: Time): Option<int> {
    match Disposed(db, id, kind)
    case Leased => Some(if db.tasks[id].leaseEnd.value - now > 1 then db.tasks[id].leaseEnd.value - now else 1)
    case Invalid => Some(KEPT_FOR)
    case NotReady => Some(NOT_READY_FOR)
    case _ => None
  }

  /** The visibility timeout that a pass leaves on its message; none when the message is deleted. */
  function DelayOf(env: Env, s: Sys, m: MsgId, kind: Kind, work: Work, now: Time): Option<int>
    requires m in s.messages
  {
    var s1 := AfterReceive(s, m, kind, now);
    match ReceivedJob(s, m, kind, now)
    case Some(job) =>
      if SettledAfterWork(Process(env, s1, job, work, now).db, job.claim.task) then None else Some(LEASE_FOR)
    case None => HiddenFor(s1.db, s.messages[m], kind, now)
  }

  function WithDelay(delays: map<MsgId, int>, m: MsgId, delay: Option<int>): map<MsgId, int> {
    if delay.Some? then delays[m := delay.value] else delays
  }

  class LocalWorker {
    const db: D.Database
    const kind: Kind
    var messages: map<MsgId, TaskId>
    var objects: map<Ref, Time>
    var delays: map<MsgId, int>        // the visibility timeouts set so far, in seconds

    constructor (db: D.Database, kind: Kind)
      ensures this.db == db && this.kind == kind && messages == map[] && objects == map[] && delays == map[]
    {
      this.db, this.kind := db, kind;
      messages, objects, delays := map[], map[], map[];
    }

    /** The worker's view of the system. */
    predicate Sees(s: Sys)
      reads this, db
    {
      s.db == db.View() && s.messages == messages && s.objects == objects
    }

    method DeleteObject(ref: Option<Ref>)
      modifies this`objects
      ensures objects == if ref.Some? then old(objects) - {ref.value} else old(objects)
    {
      if ref.Some? { objects := objects - {ref.value}; }
    }

    /** _fail and the deletion that follows its commit. */
    method Fail(c: Claim, code: FailureCode, retryable: bool, now: Time, ghost s: Sys)
      requires Sees(s)
      modifies this`objects, db
      ensures Sees(Failing(s, c, code, retryable, now))
    {
      var ref := db.FailClaimed(c, code, retryable, now);
      DeleteObject(ref);
    }

    /** _process_claimed: the handler's result or exception decides which transaction ends the claim. */
    method ProcessClaimed(env: Env, c: Claim, work: Work, now: Time, ghost s: Sys, ghost job: Job)
      requires Sees(s) && job.claim == c && c.kind == kind
      modifies this`objects, db
      ensures Sees(Process(env, s, job, work, now))
    {
      hide FailClaim, CompleteExtraction, CompleteEmbedding, Complete;
      if kind == Extraction {
        if c.payload.None? || work.Embedded? {
          Fail(c, INTERNAL_ERROR, true, now, s);
        } else if work.Raised? {
          Fail(c, work.code, work.retryable, now, s);
        } else {
          var ref := db.FinishExtraction(c, work.draft, env.ttl, now);
          DeleteObject(ref);
        }
        return;
      }
      var content := ApprovedContent(db.View(), c.owner, c.revision);
      ghost var s1 := s.(jobs := s.jobs + {job.(content := content)});
      if content.None? {
        Fail(c, StaleRevision, false, now, s1);
      } else if work.Raised? {
        Fail(c, work.code, work.retryable, now, s1);
      } else if work.Extracted? {
        Fail(c, INTERNAL_ERROR, true, now, s1);
      } else {
        db.FinishEmbedding(c, work.version, env.embed(work.version, content.value), now);
      }
    }

    /** run_queue_message on what a receive returned: malformed messages are kept and hidden, the first well-formed one is
      * handled to its end, and the answer says whether there was one. */
    method RunQueueMessage(env: Env, received: seq<Received>, work: Work, now: Time, ghost s: Sys) returns (worked: bool)
      requires Sees(s) && forall i | 0 <= i < |received| && received[i].wellFormed :: received[i].message in messages
      modifies this, db
      ensures FirstWellFormed(received).Some? ==> FirstWellFormed(received).value in s.messages
      ensures worked <==> FirstWellFormed(received).Some?
      ensures Sees(if worked then RunMessage(env, s, FirstWellFormed(received).value, kind, work, now) else s)
      ensures delays == var before := Postponed(old(delays), received);
                        if worked then WithDelay(before, FirstWellFormed(received).value,
                                                 DelayOf(env, s, FirstWellFormed(received).value, kind, work, now))
                        else before
    {
      hide RunMessage, DelayOf;
      for n := 0 to |received|
        invariant Sees(s) && db.View() == old(db.View())
        invariant Postponed(delays, received[n..]) == Postponed(old(delays), received)
        invariant FirstWellFormed(received[n..]) == FirstWellFormed(received)
      {
        assert received[n..][0] == received[n] && received[n..][1..] == received[n + 1..];
        if !received[n].wellFormed {
          delays := delays[received[n].message := KEPT_FOR];
          continue;
        }
        HandleMessage(env, received[n].message, work, now, s);
        return true;
      }
      worked := false;
    }

    /** One well-formed message. */
    method HandleMessage(env: Env, m: MsgId, work: Work, now: Time, ghost s: Sys)
      requires Sees(s) && m in messages
      modifies this, db
      ensures Sees(RunMessage(env, s, m, kind, work, now))
      ensures delays == WithDelay(old(delays), m, DelayOf(env, s, m, kind, work, now))
    {
      hide Process, Tasks.Claim, FailClaim, HiddenFor, Disposed, SettledAfterWork;
      var id := messages[m];
      ghost var s1 := AfterReceive(s, m, kind, now);
      var token := db.ClaimPublishedTask(id, kind, LEASE_FOR, now);
      ClaimedIsOurs(s.db, id, kind, now);
      if token.Some? && id in db.tasks {
        var c := ClaimOf(db.View(), id, token.value);
        ghost var job := Job(c, Some(m), None);
        assert ReceivedJob(s, m, kind, now) == Some(job) && Sees(s1);
        ProcessClaimed(env, c, work, now, s1, job);
        ProcessKeepsMessages(env, s1, job, work, now);
        SettleMessage(m, id);
      } else {
        assert ReceivedJob(s, m, kind, now) == None;
        KeepOrDelete(m, id, now);
      }
    }

    /** After the work: the message is deleted, or hidden for a whole lease. */
    method SettleMessage(m: MsgId, id: TaskId)
      modifies this`messages, this`delays
      ensures messages == if SettledAfterWork(db.View(), id) then old(messages) - {m} else old(messages)
      ensures delays == if SettledAfterWork(db.View(), id) then old(delays) else old(delays)[m := LEASE_FOR]
    {
      if SettledAfterWork(db.View(), id) {
        messages := messages - {m};
      } else {
        delays := delays[m := LEASE_FOR];
      }
    }

    /** A message whose task could not be claimed. */
    method KeepOrDelete(m: MsgId, id: TaskId, now: Time)
      modifies this`messages, this`delays
      ensures messages == if DeletesMessage(Disposed(db.View(), id, kind)) then old(messages) - {m} else old(messages)
      ensures delays == WithDelay(old(delays), m, HiddenFor(db.View(), id, kind, now))
    {
      match Disposed(db.View(), id, kind)
      case Terminal => messages := messages - {m};
      case DurableRetry => messages := messages - {m};
      case Leased =>
        var remaining := db.tasks[id].leaseEnd.value - now;
        delays := delays[m := if remaining > 1 then remaining else 1];
      case Invalid => delays := delays[m := KEPT_FOR];
      case NotReady => delays := delays[m := NOT_READY_FOR];
    }

    /** run_one on the task that claim_next_task's query chose. */
    method RunOne(env: Env, id: TaskId, work: Work, now: Time, ghost s: Sys) returns (worked: bool)
      requires Sees(s) && OldestDue(db.View(), id, kind, now)
      modifies this`objects, db
      ensures Sees(RunNext(env, s, id, work, now))
      ensures worked <==> ClaimLocal(old(db.View()), id, now).token.Some?
    {
      hide Process, FailClaim;
      var saved := db.View();
      var token := db.ClaimTask(id, db.tasks[id].owner, LEASE_FOR, None, now);
      ClaimKeepsKind(s.db, id, now);
      worked := token.Some?;
      if token.None? {
        db.Restore(saved);
        return;
      }
      var c := ClaimOf(db.View(), id, token.value);
      ghost var s1 := AfterLocalClaim(s, id, now);
      hide Tasks.Claim;
      assert Sees(s1);
      ProcessClaimed(env, c, work, now, s1, Job(c, None, None));
    }
  }

  lemma ClaimedIsOurs(db: Db, id: TaskId, kind: Kind, now: Time)
    ensures var r := ClaimPublished(db, id, kind, LEASE_FOR, now);
            r.token.Some? ==> id in r.db.tasks && r.db.tasks[id].kind == kind
  {
  }

  lemma ClaimKeepsKind(db: Db, id: TaskId, now: Time)
    requires id in db.tasks
    ensures var r := Tasks.Claim(db, id, db.tasks[id].owner, LEASE_FOR, None, now);
            r.token.Some? ==> id in r.db.tasks && r.db.tasks[id].kind == db.tasks[id].kind
  {
  }

  /** What the end of a claim leaves of the queue. */
  predicate SameQueue(s: Sys, s': Sys) {
    s'.messages == s.messages && s'.deleting == s.deleting && s'.clock == s.clock && s'.queueMode == s.queueMode
  }

  lemma FailingKeeps(s: Sys, c: Claim, code: FailureCode, retryable: bool, now: Time)
    ensures SameQueue(s, Failing(s, c, code, retryable, now))
  {
    hide FailClaim, Doom;
    if FailClaim(s.db, c, code, retryable, now).delete.Some? { } else { }
  }

  lemma FinishingKeeps(env: Env, s: Sys, c: Claim, draft: Draft, now: Time)
    ensures SameQueue(s, WithoutObject(AfterFinishExtraction(env, s, c, draft, now),
                                       CompleteExtraction(s.db, c, draft, env.ttl, now).delete))
  {
    hide CompleteExtraction, Doom, WithCompletion;
    if CompleteExtraction(s.db, c, draft, env.ttl, now).delete.Some? { } else { }
  }

  lemma ProcessKeepsMessages(env: Env, s: Sys, job: Job, work: Work, now: Time)
    ensures SameQueue(s, Process(env, s, job, work, now))
  {
    var c := job.claim;
    hide Failing, AfterFinishExtraction, WithoutObject, WithCompletion, CompleteEmbedding;
    if c.kind == Extraction {
      if c.payload.None? || work.Embedded? { FailingKeeps(s, c, INTERNAL_ERROR, true, now); }
      else if work.Raised? { FailingKeeps(s, c, work.code, work.retryable, now); }
      else { FinishingKeeps(env, s, c, work.draft, now); }
    } else {
      var s1 := s.(jobs := s.jobs + {job.(content := ApprovedContent(s.db, c.owner, c.revision))});
      FailingKeeps(s1, c, StaleRevision, false, now);
      FailingKeeps(s1, c, INTERNAL_ERROR, true, now);
      if work.Raised? { FailingKeeps(s1, c, work.code, work.retryable, now); }
    }
  }

  // ---- runs

  /** The object a finished claim decided to delete is deleted by a step. */
  lemma DeleteLeads(env: Env, start: Sys, s: Sys, ref: Option<Ref>, now: Time)
    requires Leads(env, start, s) && s.clock == now && (ref.Some? ==> ref.value in s.doomed)
    ensures Leads(env, start, WithoutObject(s, ref))
  {
    hide Leads;
    if ref.Some? {
      var s' := WithoutObject(s, ref);
      assert Next(env, s, Step(now, DeleteObject(ref.value)), s');
      LeadsNext(env, start, s, Step(now, DeleteObject(ref.value)), s');
    }
  }

  lemma FailLeads(env: Env, start: Sys, s: Sys, job: Job, code: FailureCode, retryable: bool, now: Time)
    requires Leads(env, start, s) && s.clock == now && job in s.jobs
    ensures Leads(env, start, Failing(s, job.claim, code, retryable, now))
  {
    hide Leads, FailClaim;
    var s1 := AfterFail(s, job.claim, code, retryable, now);
    var ref := FailClaim(s.db, job.claim, code, retryable, now).delete;
    assert Next(env, s, Step(now, FailJob(job, code, retryable)), s1);
    LeadsNext(env, start, s, Step(now, FailJob(job, code, retryable)), s1);
    assert ref.Some? ==> ref.value in s1.doomed;
    hide Next, AfterFail;
    DeleteLeads(env, start, s1, ref, now) by { AfterFailClock(s, job.claim, code, retryable, now); }
  }

  lemma AfterFailClock(s: Sys, c: Claim, code: FailureCode, retryable: bool, now: Time)
    ensures AfterFail(s, c, code, retryable, now).clock == s.clock
  {
    hide FailClaim, Doom;
  }

  lemma FinishLeads(env: Env, start: Sys, s: Sys, job: Job, draft: Draft, now: Time)
    requires Leads(env, start, s) && s.clock == now && job in s.jobs && job.claim.kind == Extraction
    ensures Leads(env, start, WithoutObject(AfterFinishExtraction(env, s, job.claim, draft, now),
                                            CompleteExtraction(s.db, job.claim, draft, env.ttl, now).delete))
  {
    hide Leads, CompleteExtraction, WithCompletion;
    var s1 := AfterFinishExtraction(env, s, job.claim, draft, now);
    assert Next(env, s, Step(now, FinishExtraction(job, draft)), s1);
    LeadsNext(env, start, s, Step(now, FinishExtraction(job, draft)), s1);
    hide Next;
    DeleteLeads(env, start, s1, CompleteExtraction(s.db, job.claim, draft, env.ttl, now).delete, now);
  }

  lemma ReadLeads(env: Env, start: Sys, s: Sys, job: Job, now: Time)
    requires Leads(env, start, s) && s.clock == now && job in s.jobs && job.claim.kind == Embedding
    ensures Leads(env, start, s.(jobs := s.jobs + {job.(content := ApprovedContent(s.db, job.claim.owner, job.claim.revision))}))
  {
    hide Leads;
    var s1 := s.(jobs := s.jobs + {job.(content := ApprovedContent(s.db, job.claim.owner, job.claim.revision))});
    assert Next(env, s, Step(now, ReadContent(job)), s1);
    LeadsNext(env, start, s, Step(now, ReadContent(job)), s1);
  }

  lemma EmbedLeads(env: Env, start: Sys, s: Sys, job: Job, version: Version, now: Time)
    requires Leads(env, start, s) && s.clock == now && job in s.jobs && job.claim.kind == Embedding && job.content.Some?
    ensures Leads(env, start, AfterFinishEmbedding(env, s, job, version, now))
  {
    hide Leads, CompleteEmbedding, WithCompletion;
    var s1 := AfterFinishEmbedding(env, s, job, version, now);
    assert Next(env, s, Step(now, FinishEmbedding(job, version)), s1);
    LeadsNext(env, start, s, Step(now, FinishEmbedding(job, version)), s1);
  }

  lemma ProcessLeads(env: Env, start: Sys, s: Sys, job: Job, work: Work, now: Time)
    requires Leads(env, start, s) && s.clock == now && job in s.jobs
    ensures Leads(env, start, Process(env, s, job, work, now))
  {
    var c := job.claim;
    hide Leads, Failing, AfterFinishExtraction, WithoutObject, AfterFinishEmbedding, ApprovedContent;
    if c.kind == Extraction {
      if c.payload.None? || work.Embedded? { FailLeads(env, start, s, job, INTERNAL_ERROR, true, now); }
      else if work.Raised? { FailLeads(env, start, s, job, work.code, work.retryable, now); }
      else { FinishLeads(env, start, s, job, work.draft, now); }
    } else {
      var read := job.(content := ApprovedContent(s.db, c.owner, c.revision));
      var s1 := s.(jobs := s.jobs + {read});
      ReadLeads(env, start, s, job, now);
      if read.content.None? { FailLeads(env, start, s1, read, StaleRevision, false, now); }
      else if work.Raised? { FailLeads(env, start, s1, read, work.code, work.retryable, now); }
      else if work.Extracted? { FailLeads(env, start, s1, read, INTERNAL_ERROR, true, now); }
      else { EmbedLeads(env, start, s1, read, work.version, now); }
    }
  }

  /** A whole pass over a message, whatever its handler does, is a run of the deployment. */
  lemma RunMessageIsRun(env: Env, s: Sys, m: MsgId, kind: Kind, work: Work, now: Time)
    requires s.queueMode && s.clock == now && m in s.messages
    ensures Leads(env, s, RunMessage(env, s, m, kind, work, now))
  {
    var s1 := AfterReceive(s, m, kind, now);
    LeadsSelf(env, s);
    ReceiveNext(env, s, m, kind, now);
    hide Leads, Next, Process, ClaimPublished, Disposed, AfterReceive;
    LeadsNext(env, s, s, Step(now, Receive(m, kind)), s1);
    match ReceivedJob(s, m, kind, now)
    case Some(job) =>
      ProcessLeads(env, s, s1, job, work, now);
      ProcessKeepsMessages(env, s1, job, work, now);
      ProcessKeepsJobs(env, s1, job, work, now);
      SettleLeads(env, s, Process(env, s1, job, work, now), job, now);
    case None =>
      if DeletesMessage(Disposed(s1.db, s.messages[m], kind)) { DropLeads(env, s, s1, m, now); }
  }

  lemma ReceiveNext(env: Env, s: Sys, m: MsgId, kind: Kind, now: Time)
    requires s.queueMode && s.clock == now && m in s.messages
    ensures var s1 := AfterReceive(s, m, kind, now);
            && Next(env, s, Step(now, Receive(m, kind)), s1)
            && s1.clock == now && s1.queueMode == s.queueMode && s1.messages == s.messages
            && (ReceivedJob(s, m, kind, now).Some? ==>
                  ReceivedJob(s, m, kind, now).value in s1.jobs && ReceivedJob(s, m, kind, now).value.message == Some(m))
            && (ReceivedJob(s, m, kind, now).None? && DeletesMessage(Disposed(s1.db, s.messages[m], kind)) ==> m in s1.deleting)
  {
    hide ClaimPublished, Disposed, ClaimOf;
  }

  lemma FailingKeepsJobs(s: Sys, c: Claim, code: FailureCode, retryable: bool, now: Time)
    ensures Failing(s, c, code, retryable, now).jobs == s.jobs
  {
    hide FailClaim, Doom;
    if FailClaim(s.db, c, code, retryable, now).delete.Some? { } else { }
  }

  lemma FinishingKeepsJobs(env: Env, s: Sys, c: Claim, draft: Draft, now: Time)
    ensures WithoutObject(AfterFinishExtraction(env, s, c, draft, now), CompleteExtraction(s.db, c, draft, env.ttl, now).delete).jobs == s.jobs
  {
    hide CompleteExtraction, Doom, WithCompletion;
    if CompleteExtraction(s.db, c, draft, env.ttl, now).delete.Some? { } else { }
  }

  lemma ProcessKeepsJobs(env: Env, s: Sys, job: Job, work: Work, now: Time)
    ensures s.jobs <= Process(env, s, job, work, now).jobs
  {
    var c := job.claim;
    hide Failing, AfterFinishExtraction, WithoutObject, WithCompletion, CompleteEmbedding;
    if c.kind == Extraction {
      if c.payload.None? || work.Embedded? { FailingKeepsJobs(s, c, INTERNAL_ERROR, true, now); }
      else if work.Raised? { FailingKeepsJobs(s, c, work.code, work.retryable, now); }
      else { FinishingKeepsJobs(env, s, c, work.draft, now); }
    } else {
      var s1 := s.(jobs := s.jobs + {job.(content := ApprovedContent(s.db, c.owner, c.revision))});
      FailingKeepsJobs(s1, c, StaleRevision, false, now);
      FailingKeepsJobs(s1, c, INTERNAL_ERROR, true, now);
      if work.Raised? { FailingKeepsJobs(s1, c, work.code, work.retryable, now); }
    }
  }

  lemma SettleLeads(env: Env, start: Sys, s: Sys, job: Job, now: Time)
    requires Leads(env, start, s) && s.clock == now && job in s.jobs && job.message.Some?
    ensures Leads(env, start, Settled(s, job))
  {
    hide Leads, SettledAfterWork;
    if SettledAfterWork(s.db, job.claim.task) {
      var s1 := s.(deleting := s.deleting + {job.message.value});
      assert Next(env, s, Step(now, Settle(job)), s1);
      LeadsNext(env, start, s, Step(now, Settle(job)), s1);
      DropLeads(env, start, s1, job.message.value, now);
    }
  }

  lemma DropLeads(env: Env, start: Sys, s: Sys, m: MsgId, now: Time)
    requires Leads(env, start, s) && s.clock == now && m in s.deleting
    ensures Leads(env, start, s.(messages := s.messages - {m}))
  {
    hide Leads;
    var s1 := s.(messages := s.messages - {m});
    assert Next(env, s, Step(now, DeleteMessage(m)), s1);
    LeadsNext(env, start, s, Step(now, DeleteMessage(m)), s1);
  }

  /** A whole local pass is a run of the deployment as well. */
  lemma RunNextIsRun(env: Env, s: Sys, id: TaskId, kind: Kind, work: Work, now: Time)
    requires !s.queueMode && s.clock == now && OldestDue(s.db, id, kind, now)
    ensures Leads(env, s, RunNext(env, s, id, work, now))
  {
    var s1 := AfterLocalClaim(s, id, now);
    var r := ClaimLocal(s.db, id, now);
    LeadsSelf(env, s);
    LocalClaimNext(env, s, id, kind, now);
    hide Leads, Next, Process, ClaimLocal, OldestDue, AfterLocalClaim;
    LeadsNext(env, s, s, Step(now, ClaimNext(id, kind)), s1);
    if r.token.Some? && id in r.db.tasks {
      ProcessLeads(env, s, s1, Job(ClaimOf(r.db, id, r.token.value), None, None), work, now);
    }
  }

  lemma LocalClaimNext(env: Env, s: Sys, id: TaskId, kind: Kind, now: Time)
    requires !s.queueMode && s.clock == now && OldestDue(s.db, id, kind, now)
    ensures id in s.db.tasks
    ensures var s1, r := AfterLocalClaim(s, id, now), ClaimLocal(s.db, id, now);
            && Next(env, s, Step(now, ClaimNext(id, kind)), s1) && s1.clock == now
            && (r.token.Some? && id in r.db.tasks ==> Job(ClaimOf(r.db, id, r.token.value), None, None) in s1.jobs)
  {
    hide Tasks.Claim, ClaimOf;
  }
}
