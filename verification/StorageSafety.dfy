/** A live extraction never loses its input: deletions and sweeps only ever hit objects nobody needs. */
module StorageSafety {
  import opened Wrappers
  import opened Rows
  import opened Tasks
  import opened Resume
  import opened Worker
  import opened RowInvariant
  import opened Transactions
  import opened Quiet
  import opened Deployment
  import opened Invariants
  import opened TableSafety

  /** Live extractions of the later tables were live before, with the same object; no upload identity is new. */
  predicate InputsShrink(db: Db, db': Db) {
    && db.next <= db'.next
    && (forall id | id in db'.tasks && db'.tasks[id].key.Upload? ::
          id in db.tasks && db'.tasks[id].key == db.tasks[id].key && db'.tasks[id].kind == db.tasks[id].kind
          && (Live(db'.tasks[id]) ==> Live(db.tasks[id]) && db'.tasks[id].payload == db.tasks[id].payload))
    && (forall id | id in db'.tasks :: db'.tasks[id].kind == Extraction <==> db'.tasks[id].key.Upload?)
  }

  predicate NoNewUploads(db: Db, db': Db) {
    forall id | id in db'.tasks && id !in db.tasks :: !db'.tasks[id].key.Upload?
  }

  lemma ShrinkFromLater(db: Db, db': Db, now: Time)
    requires TablesKept(db, db', now) && NoNewUploads(db, db')
    ensures InputsShrink(db, db')
  {
    forall id | id in db'.tasks
      ensures db'.tasks[id].kind == Extraction <==> db'.tasks[id].key.Upload?
      ensures db'.tasks[id].key.Upload? ==>
        id in db.tasks && db'.tasks[id].key == db.tasks[id].key && db'.tasks[id].kind == db.tasks[id].kind
        && (Live(db'.tasks[id]) ==> Live(db.tasks[id]) && db'.tasks[id].payload == db.tasks[id].payload)
    {
      RowAt(db', id, now);
      if id in db.tasks { assert TaskLater(db.tasks[id], db'.tasks[id], db.next); }
    }
  }

  predicate SameStorage(s: Sys, s': Sys) {
    s'.objects == s.objects && s'.staged == s.staged && s'.sweeps == s.sweeps && s'.doomed == s.doomed
  }

  lemma UploadsLater(db: Db, db': Db)
    requires UploadsUnique(db) && InputsShrink(db, db')
    ensures UploadsUnique(db')
  {
  }

  lemma StagedLater(env: Env, s: Sys, s': Sys)
    requires StorageOk(env, s) && InputsShrink(s.db, s'.db) && SameStorage(s, s') && s.clock <= s'.clock
    ensures forall ref | ref in s'.staged :: StagedOk(env, s', ref)
  {
    forall ref | ref in s'.staged ensures StagedOk(env, s', ref) {
      assert StagedOk(env, s, ref);
    }
  }

  lemma StorageLater(env: Env, s: Sys, s': Sys)
    requires StorageOk(env, s) && InputsShrink(s.db, s'.db) && SameStorage(s, s') && s.clock <= s'.clock
    ensures StorageOk(env, s')
  {
    StagedLater(env, s, s');
    UploadsLater(s.db, s'.db);
    forall id | id in s'.db.tasks && s'.db.tasks[id].kind == Extraction && Live(s'.db.tasks[id])
      ensures s'.db.tasks[id].payload.Some? && Kept(s', s'.db.tasks[id].payload.value)
    {
      assert Kept(s, s.db.tasks[id].payload.value);
    }
  }

  /** A reference that no live task and no staged upload needs any more. */
  predicate Droppable(s: Sys, ref: Ref) {
    && ref < s.db.next && ref !in s.staged
    && (forall id | id in s.db.tasks && Live(s.db.tasks[id]) :: s.db.tasks[id].payload != Some(ref))
  }

  lemma DoomingKeeps(env: Env, s: Sys, refs: set<Ref>)
    requires StorageOk(env, s) && (forall ref | ref in refs :: Droppable(s, ref))
    ensures StorageOk(env, s.(doomed := s.doomed + refs))
  {
    var s' := s.(doomed := s.doomed + refs);
    forall ref | ref in s'.staged ensures StagedOk(env, s', ref) {
      assert StagedOk(env, s, ref);
    }
    forall id | id in s'.db.tasks && s'.db.tasks[id].kind == Extraction && Live(s'.db.tasks[id])
      ensures s'.db.tasks[id].payload.Some? && Kept(s', s'.db.tasks[id].payload.value)
    {
      assert Kept(s, s.db.tasks[id].payload.value);
      assert Droppable(s, s.db.tasks[id].payload.value) ==> false;
    }
  }

  /** The object of a task that has ended, or was never enqueued, can be dropped. */
  lemma EndedDroppable(env: Env, s: Sys, id: TaskId, ref: Ref)
    requires DbOk(s.db, s.clock) && StorageOk(env, s) && id in s.db.tasks && !Live(s.db.tasks[id])
    requires s.db.tasks[id].key == Upload(ref)
    ensures Droppable(s, ref)
  {
    RowAt(s.db, id, s.clock);
    assert ref in s.staged ==> StagedOk(env, s, ref);
    forall other | other in s.db.tasks && Live(s.db.tasks[other]) ensures s.db.tasks[other].payload != Some(ref) {
      RowAt(s.db, other, s.clock);
    }
  }

  lemma DeleteObjectKeeps(env: Env, s: Sys, ref: Ref)
    requires StorageOk(env, s) && ref in s.doomed
    ensures StorageOk(env, s.(objects := s.objects - {ref}))
  {
    var s' := s.(objects := s.objects - {ref});
    forall r | r in s'.staged ensures StagedOk(env, s', r) { assert StagedOk(env, s, r); }
    forall id | id in s'.db.tasks && s'.db.tasks[id].kind == Extraction && Live(s'.db.tasks[id])
      ensures s'.db.tasks[id].payload.Some? && Kept(s', s'.db.tasks[id].payload.value)
    {
      assert Kept(s, s.db.tasks[id].payload.value);
    }
  }

  /** A sweep deletes an object that is old and was not live when the sweep looked. */
  lemma SweepObjectKeeps(env: Env, s: Sys, sweep: Sweep, ref: Ref)
    requires StorageOk(env, s) && sweep in s.sweeps && ref in s.objects && ref !in sweep.live && s.objects[ref] <= sweep.cutoff
    ensures StorageOk(env, s.(objects := s.objects - {ref}))
  {
    var s' := s.(objects := s.objects - {ref});
    forall r | r in s'.staged ensures StagedOk(env, s', r) { assert StagedOk(env, s, r); }
    forall id | id in s'.db.tasks && s'.db.tasks[id].kind == Extraction && Live(s'.db.tasks[id])
      ensures s'.db.tasks[id].payload.Some? && Kept(s', s'.db.tasks[id].payload.value)
    {
      assert Kept(s, s.db.tasks[id].payload.value);
    }
  }

  lemma SweepStartKeeps(env: Env, s: Sys, asOf: Time)
    requires StorageOk(env, s) && asOf <= s.clock && DbOk(s.db, s.clock)
    ensures StorageOk(env, s.(sweeps := s.sweeps + {Sweep(LiveRefs(s.db), asOf - env.ttl)}))
  {
    var s' := s.(sweeps := s.sweeps + {Sweep(LiveRefs(s.db), asOf - env.ttl)});
    forall r | r in s'.staged ensures StagedOk(env, s', r) { assert StagedOk(env, s, r); }
    forall id | id in s'.db.tasks && s'.db.tasks[id].kind == Extraction && Live(s'.db.tasks[id])
      ensures s'.db.tasks[id].payload.Some? && Kept(s', s'.db.tasks[id].payload.value)
    {
      assert Kept(s, s.db.tasks[id].payload.value);
      assert s.db.tasks[id].payload.value in LiveRefs(s.db);
    }
  }

  lemma StoreUploadKeeps(env: Env, s: Sys)
    requires StorageOk(env, s) && DbOk(s.db, s.clock)
    ensures StorageOk(env, s.(db := s.db.(next := s.db.next + 1), objects := s.objects[s.db.next := s.clock],
                              staged := s.staged[s.db.next := s.clock]))
  {
    var s' := s.(db := s.db.(next := s.db.next + 1), objects := s.objects[s.db.next := s.clock],
                 staged := s.staged[s.db.next := s.clock]);
    forall r | r in s'.staged ensures StagedOk(env, s', r) {
      if r in s.staged {
        assert StagedOk(env, s, r);
      } else {
        forall id | id in s.db.tasks ensures s.db.tasks[id].key != Upload(r) { RowAt(s.db, id, s.clock); }
      }
    }
    forall id | id in s'.db.tasks && s'.db.tasks[id].kind == Extraction && Live(s'.db.tasks[id])
      ensures s'.db.tasks[id].payload.Some? && Kept(s', s'.db.tasks[id].payload.value)
    {
      assert Kept(s, s.db.tasks[id].payload.value);
    }
  }

  lemma UnstageKeeps(env: Env, s: Sys, ref: Ref)
    requires StorageOk(env, s)
    ensures StorageOk(env, s.(staged := s.staged - {ref}))
  {
    var s' := s.(staged := s.staged - {ref});
    forall r | r in s'.staged ensures StagedOk(env, s', r) { assert StagedOk(env, s, r); }
    forall id | id in s'.db.tasks && s'.db.tasks[id].kind == Extraction && Live(s'.db.tasks[id])
      ensures s'.db.tasks[id].payload.Some? && Kept(s', s'.db.tasks[id].payload.value)
    {
      assert Kept(s, s.db.tasks[id].payload.value);
    }
  }

  /** A staged upload that is enqueued in time is safe from every sweep already started. */
  lemma CommitUploadStorage(env: Env, s: Sys, user: UserId, ref: Ref, db': Db)
    requires StorageOk(env, s) && DbOk(s.db, s.clock) && user in s.db.users
    requires ref in s.staged && s.clock < s.staged[ref] + env.ttl && Prepare(s.db, user, ref, s.clock) == Some(db')
    ensures StorageOk(env, s.(db := db', staged := s.staged - {ref}))
  {
    var s' := s.(db := db', staged := s.staged - {ref});
    assert StagedOk(env, s, ref);
    assert db'.tasks == s.db.tasks[s.db.next := db'.tasks[s.db.next]];
    forall r | r in s'.staged ensures StagedOk(env, s', r) { assert StagedOk(env, s, r); }
    forall id | id in s'.db.tasks && s'.db.tasks[id].kind == Extraction && Live(s'.db.tasks[id])
      ensures s'.db.tasks[id].payload.Some? && Kept(s', s'.db.tasks[id].payload.value)
    {
      if id in s.db.tasks {
        assert Kept(s, s.db.tasks[id].payload.value);
      } else {
        assert Kept(s, ref);
      }
    }
  }

  /** prepare_resume never meets the unique constraint: the reference is new to every task. */
  lemma UploadIsNew(env: Env, s: Sys, user: UserId, ref: Ref, now: Time)
    requires StorageOk(env, s) && user in s.db.users && ref in s.staged
    ensures Prepare(s.db, user, ref, now).Some?
  {
    assert StagedOk(env, s, ref);
  }

  /** Every reference belongs to a task that has ended. */
  predicate OfEnded(db: Db, refs: set<Ref>) {
    forall ref | ref in refs :: exists id | id in db.tasks :: !Live(db.tasks[id]) && db.tasks[id].key == Upload(ref)
  }

  /** A transaction that ends tasks, followed by the decision to delete their objects. */
  lemma EndAndDoom(env: Env, s: Sys, db': Db, refs: set<Ref>)
    requires StorageOk(env, s) && TablesKept(s.db, db', s.clock) && NoNewUploads(s.db, db') && OfEnded(db', refs)
    ensures StorageOk(env, s.(db := db', doomed := s.doomed + refs))
  {
    hide StorageOk, Droppable;
    ShrinkFromLater(s.db, db', s.clock);
    var s1 := s.(db := db');
    StorageLater(env, s, s1);
    forall ref | ref in refs ensures Droppable(s1, ref) {
      var id :| id in db'.tasks && !Live(db'.tasks[id]) && db'.tasks[id].key == Upload(ref);
      EndedDroppable(env, s1, id, ref);
    }
    DoomingKeeps(env, s1, refs);
  }

  /** Deleting a resume ends every extraction of the user and keeps its identity. */
  lemma DeletedExtractionEnds(db: Db, user: UserId, id: TaskId)
    requires user in db.users && id in db.tasks && db.tasks[id].owner == user && db.tasks[id].kind == Extraction
    ensures var db' := DeleteResume(db, user, db.users[user]).db;
            id in db'.tasks && !Live(db'.tasks[id]) && db'.tasks[id].key == db.tasks[id].key
  {
    assert id in OwnedWorkIds(db, user) <==> OwnedWork(db.tasks[id], user);
  }

  lemma PayloadKey(db: Db, id: TaskId, now: Time)
    requires DbOk(db, now) && id in db.tasks && db.tasks[id].payload.Some?
    ensures db.tasks[id].key == Upload(db.tasks[id].payload.value)
  {
    RowAt(db, id, now);
  }

  lemma TempRefsEnd(db: Db, user: UserId, expected: nat, now: Time)
    requires DbOk(db, now) && user in db.users
    ensures OfEnded(DeleteResume(db, user, expected).db, DeleteResume(db, user, expected).refs)
    ensures DeleteResume(db, user, expected).db.tasks.Keys == db.tasks.Keys
  {
    var r := DeleteResume(db, user, expected);
    assert r.refs == {} || (db.users[user] == expected && r.refs == TempRefs(db, user));
    assert r.db.tasks.Keys == db.tasks.Keys;
    hide DbOk, DeleteResume;
    forall ref | ref in r.refs
      ensures exists id | id in r.db.tasks :: !Live(r.db.tasks[id]) && r.db.tasks[id].key == Upload(ref)
    {
      var id :| id in db.tasks && db.tasks[id].owner == user && db.tasks[id].kind == Extraction
                && db.tasks[id].payload == Some(ref);
      PayloadKey(db, id, now);
      DeletedExtractionEnds(db, user, id);
    }
  }

  lemma StaleRefsEnd(db: Db, ttl: nat, asOf: Time, now: Time)
    requires DbOk(db, now)
    ensures OfEnded(Cleaned(db, ttl, asOf), StaleRefs(db, ttl, asOf))
  {
    var db' := Cleaned(db, ttl, asOf);
    forall ref | ref in StaleRefs(db, ttl, asOf)
      ensures exists id | id in db'.tasks :: !Live(db'.tasks[id]) && db'.tasks[id].key == Upload(ref)
    {
      var id :| id in db.tasks && Stale(db.tasks[id], ttl, asOf) && db.tasks[id].payload == Some(ref);
      RowAt(db, id, now);
      assert !Live(db'.tasks[id]) && db'.tasks[id].key == Upload(ref);
    }
  }

  function AsSet(ref: Option<Ref>): set<Ref> {
    if ref.Some? then {ref.value} else {}
  }

  lemma DoomIsUnion(s: Sys, ref: Option<Ref>)
    ensures Doom(s, ref) == s.doomed + AsSet(ref)
  {
  }

  lemma DiscardEnds(db: Db, user: UserId, id: TaskId, now: Time)
    requires DbOk(db, now)
    ensures OfEnded(Discard(db, user, id).db, AsSet(Discard(db, user, id).ref))
    ensures Discard(db, user, id).db.tasks.Keys == db.tasks.Keys
  {
    var r := Discard(db, user, id);
    if r.ref.Some? {
      RowAt(db, id, now);
      assert !Live(r.db.tasks[id]) && r.db.tasks[id].key == Upload(r.ref.value);
    }
  }

  lemma EndedWitness(db: Db, id: TaskId, ref: Option<Ref>)
    requires ref.Some? ==> id in db.tasks && !Live(db.tasks[id]) && db.tasks[id].key == Upload(ref.value)
    ensures OfEnded(db, AsSet(ref))
  {
  }

  lemma CompleteExtractionEnds(db: Db, c: Claim, draft: Draft, ttl: nat, now: Time)
    requires ClaimOk(db, c)
    ensures OfEnded(CompleteExtraction(db, c, draft, ttl, now).db, AsSet(CompleteExtraction(db, c, draft, ttl, now).delete))
    ensures CompleteExtraction(db, c, draft, ttl, now).db.tasks.Keys == db.tasks.Keys
  {
    hide OfEnded;
    EndedWitness(CompleteExtraction(db, c, draft, ttl, now).db, c.task, CompleteExtraction(db, c, draft, ttl, now).delete);
  }

  lemma FailClaimDoomed(db: Db, c: Claim, code: FailureCode, retryable: bool, now: Time)
    ensures var r := FailClaim(db, c, code, retryable, now);
            && r.db.tasks.Keys == db.tasks.Keys
            && (r.delete.Some? ==>
                  && c.task in db.tasks && !Live(r.db.tasks[c.task]) && r.db.tasks[c.task].key == db.tasks[c.task].key
                  && r.delete == db.tasks[c.task].payload)
  {
    FailTasks(db, c, code, retryable, now);
    hide Fail, AttemptLimit;
  }

  lemma FailTasks(db: Db, c: Claim, code: FailureCode, retryable: bool, now: Time)
    ensures var r := Fail(db, c.task, c.owner, c.token, code, retryable, RETRY_DELAY, None, now);
            r.db.tasks == db.tasks
            || (c.task in db.tasks
                && (r.db.tasks == db.tasks[c.task := RetriedTask(db.tasks[c.task], code, now + RETRY_DELAY)]
                    || r.db.tasks == db.tasks[c.task := FailedTask(db.tasks[c.task], code)]))
  {
  }

  lemma FailClaimEnds(db: Db, c: Claim, code: FailureCode, retryable: bool, now: Time)
    requires DbOk(db, now)
    ensures OfEnded(FailClaim(db, c, code, retryable, now).db, AsSet(FailClaim(db, c, code, retryable, now).delete))
    ensures FailClaim(db, c, code, retryable, now).db.tasks.Keys == db.tasks.Keys
  {
    hide DbOk, OfEnded, FailClaim;
    FailClaimDoomed(db, c, code, retryable, now);
    var r := FailClaim(db, c, code, retryable, now);
    if r.delete.Some? { PayloadKey(db, c.task, now); }
    EndedWitness(r.db, c.task, r.delete);
  }

  lemma ClaimNoUploads(db: Db, id: TaskId, kind: Kind, now: Time)
    ensures ClaimPublished(db, id, kind, LEASE_FOR, now).db.tasks.Keys == db.tasks.Keys
    ensures id in db.tasks ==> ClaimLocal(db, id, now).db.tasks.Keys == db.tasks.Keys
  {
  }

  lemma SaveNoUploads(db: Db, user: UserId, op: OpId, payload: Payload, now: Time)
    requires DbOk(db, now) && user in db.users
    ensures NoNewUploads(db, SaveMain(db, user, op, payload, now).db)
  {
    var db' := SaveMain(db, user, op, payload, now).db;
    SaveMainQuiet(db, user, op, payload, now);
    hide SaveMain, DbOk;
    forall id | id in db'.tasks && id !in db.tasks ensures !db'.tasks[id].key.Upload? {
      assert QuietRow(db, db', id);
    }
  }

  /** A step that leaves the store alone and adds no upload. */
  lemma StorageFrame(env: Env, s: Sys, s': Sys)
    requires StorageOk(env, s) && TablesKept(s.db, s'.db, s.clock) && NoNewUploads(s.db, s'.db) && SameStorage(s, s')
    requires s'.clock == s.clock
    ensures StorageOk(env, s')
  {
    hide StorageOk;
    ShrinkFromLater(s.db, s'.db, s.clock);
    StorageLater(env, s, s');
  }

  lemma CommitUploadStep(env: Env, s: Sys, user: UserId, ref: Ref)
    requires StorageOk(env, s) && DbOk(s.db, s.clock) && Enabled(env, s, s.clock, CommitUpload(user, ref))
    ensures StorageOk(env, Effect(env, s, s.clock, CommitUpload(user, ref)))
  {
    hide StorageOk, DbOk, Prepare;
    UploadIsNew(env, s, user, ref, s.clock);
    CommitUploadStorage(env, s, user, ref, Prepare(s.db, user, ref, s.clock).value);
  }

  lemma AbandonUploadStep(env: Env, s: Sys, ref: Ref)
    requires StorageOk(env, s) && DbOk(s.db, s.clock) && ref in s.staged
    ensures StorageOk(env, s.(staged := s.staged - {ref}, doomed := s.doomed + {ref}))
  {
    var s1 := s.(staged := s.staged - {ref});
    assert StagedOk(env, s, ref);
    forall id | id in s.db.tasks && Live(s.db.tasks[id]) ensures s.db.tasks[id].payload != Some(ref) {
      RowAt(s.db, id, s.clock);
    }
    assert Droppable(s1, ref);
    hide StorageOk, DbOk, Droppable;
    UnstageKeeps(env, s, ref);
    DoomingKeeps(env, s1, {ref});
  }

  lemma CleanUpStep(env: Env, s: Sys, asOf: Time)
    requires StorageOk(env, s) && DbOk(s.db, s.clock) && asOf <= s.clock
    ensures StorageOk(env, AfterCleanUp(env, s, asOf))
  {
    hide StorageOk, DbOk, Later, StaleRefs, LiveRefs, OfEnded;
    var db' := Cleaned(s.db, env.ttl, asOf);
    CleanedKeeps(s.db, env.ttl, asOf, s.clock);
    StaleRefsEnd(s.db, env.ttl, asOf, s.clock);
    assert NoNewUploads(s.db, db');
    hide Cleaned;
    EndAndDoom(env, s, db', StaleRefs(s.db, env.ttl, asOf));
    SweepStartKeeps(env, s.(db := db', doomed := s.doomed + StaleRefs(s.db, env.ttl, asOf)), asOf);
  }

  predicate StoreAction(a: Action) {
    a.StoreUpload? || a.CommitUpload? || a.AbandonUpload? || a.DeleteObject? || a.SweepObject? || a.CleanUp?
  }

  predicate EndingAction(a: Action) {
    a.Delete? || a.DiscardDraft? || a.FinishExtraction? || a.FailJob?
  }

  lemma StoreActionKeeps(env: Env, s: Sys, a: Action)
    requires StorageOk(env, s) && DbOk(s.db, s.clock) && Enabled(env, s, s.clock, a) && StoreAction(a)
    ensures StorageOk(env, Effect(env, s, s.clock, a))
  {
    hide StorageOk, DbOk, Prepare, AfterCleanUp;
    match a
    case StoreUpload => StoreUploadKeeps(env, s);
    case CommitUpload(user, ref) => CommitUploadStep(env, s, user, ref);
    case AbandonUpload(ref) => AbandonUploadStep(env, s, ref);
    case DeleteObject(ref) => DeleteObjectKeeps(env, s, ref);
    case SweepObject(sweep, ref) => SweepObjectKeeps(env, s, sweep, ref);
    case CleanUp(asOf) => CleanUpStep(env, s, asOf);
    case _ =>
  }

  lemma DeleteStep(env: Env, s: Sys, user: UserId, expected: nat)
    requires StorageOk(env, s) && DbOk(s.db, s.clock) && user in s.db.users
    requires TablesKept(s.db, DeleteResume(s.db, user, expected).db, s.clock)
    ensures var r := DeleteResume(s.db, user, expected); StorageOk(env, s.(db := r.db, doomed := s.doomed + r.refs))
  {
    TempRefsEnd(s.db, user, expected, s.clock);
    hide StorageOk, DbOk, DeleteResume, TablesKept, OfEnded;
    EndAndDoom(env, s, DeleteResume(s.db, user, expected).db, DeleteResume(s.db, user, expected).refs);
  }

  /** A step that ends one task and dooms its input. */
  lemma EndOne(env: Env, s: Sys, db': Db, ref: Option<Ref>, s': Sys)
    requires StorageOk(env, s) && TablesKept(s.db, db', s.clock) && db'.tasks.Keys == s.db.tasks.Keys && OfEnded(db', AsSet(ref))
    requires s'.db == db' && s'.doomed == Doom(s, ref)
    requires s'.objects == s.objects && s'.staged == s.staged && s'.sweeps == s.sweeps && s'.clock == s.clock
    ensures StorageOk(env, s')
  {
    DoomIsUnion(s, ref);
    hide StorageOk, TablesKept, OfEnded, Doom, AsSet;
    EndAndDoom(env, s, db', AsSet(ref));
    IrrelevantFields(env, s.(db := db', doomed := s.doomed + AsSet(ref)), s');
  }

  /** StorageOk reads only the store, the database and the clock. */
  lemma IrrelevantFields(env: Env, s: Sys, s': Sys)
    requires StorageOk(env, s) && s'.db == s.db && SameStorage(s, s') && s'.clock == s.clock
    ensures StorageOk(env, s')
  {
    forall r | r in s'.staged ensures StagedOk(env, s', r) { assert StagedOk(env, s, r); }
    forall id | id in s'.db.tasks && s'.db.tasks[id].kind == Extraction && Live(s'.db.tasks[id])
      ensures s'.db.tasks[id].payload.Some? && Kept(s', s'.db.tasks[id].payload.value)
    {
      assert Kept(s, s.db.tasks[id].payload.value);
    }
  }

  lemma EndingActionKeeps(env: Env, s: Sys, a: Action)
    requires StorageOk(env, s) && DbOk(s.db, s.clock) && JobsOk(s) && Enabled(env, s, s.clock, a) && EndingAction(a)
    ensures StorageOk(env, Effect(env, s, s.clock, a))
  {
    hide StorageOk, DbOk, DeleteResume, Discard, CompleteExtraction, FailClaim, TablesKept, OfEnded, WithCompletion, Doom, AsSet;
    var s' := Effect(env, s, s.clock, a);
    StepKeepsTables(env, s, s.clock, a);
    match a {
      case Delete(user, expected) => DeleteStep(env, s, user, expected);
      case DiscardDraft(user, id) =>
        DiscardEnds(s.db, user, id, s.clock);
        EndOne(env, s, s'.db, Discard(s.db, user, id).ref, s');
      case FinishExtraction(job, draft) =>
        CompleteExtractionEnds(s.db, job.claim, draft, env.ttl, s.clock);
        EndOne(env, s, s'.db, CompleteExtraction(s.db, job.claim, draft, env.ttl, s.clock).delete, s');
      case FailJob(job, code, retryable) =>
        FailClaimEnds(s.db, job.claim, code, retryable, s.clock);
        EndOne(env, s, s'.db, FailClaim(s.db, job.claim, code, retryable, s.clock).delete, s');
      case _ =>
    }
  }

  /** The store and the table's keys are as they were. */
  predicate Untouched(s: Sys, s': Sys) {
    SameStorage(s, s') && s'.clock == s.clock && s'.db.tasks.Keys == s.db.tasks.Keys
  }

  lemma LocalClaimFrame(s: Sys, id: TaskId)
    requires id in s.db.tasks
    ensures Untouched(s, AfterLocalClaim(s, id, s.clock))
  {
    hide ClaimLocal, ClaimOf;
    ClaimNoUploads(s.db, id, Extraction, s.clock);
  }

  lemma ReceiveFrame(s: Sys, m: MsgId, kind: Kind)
    requires m in s.messages
    ensures Untouched(s, AfterReceive(s, m, kind, s.clock))
  {
    hide ClaimPublished, ClaimOf, Disposed;
    ClaimNoUploads(s.db, s.messages[m], kind, s.clock);
  }

  lemma FinishEmbeddingFrame(env: Env, s: Sys, job: Job, version: Version)
    requires job.content.Some?
    ensures Untouched(s, AfterFinishEmbedding(env, s, job, version, s.clock))
  {
    hide Complete, WithCompletion;
    CompleteKeys(s.db, job.claim, s.clock);
  }

  lemma PublisherFrame(env: Env, s: Sys, a: Action)
    requires Enabled(env, s, s.clock, a)
    requires a.ClaimPublication? || a.CancelPublication? || a.Publish? || a.Acknowledge? || a.RetryPublication?
    ensures Untouched(s, Effect(env, s, s.clock, a))
  {
  }

  lemma OtherActionFrame(env: Env, s: Sys, a: Action)
    requires DbOk(s.db, s.clock) && Enabled(env, s, s.clock, a) && !StoreAction(a) && !EndingAction(a)
    ensures a.Save? ==> SameStorage(s, Effect(env, s, s.clock, a)) && Effect(env, s, s.clock, a).clock == s.clock
    ensures !a.Save? ==> Untouched(s, Effect(env, s, s.clock, a))
  {
    if a.ClaimPublication? || a.CancelPublication? || a.Publish? || a.Acknowledge? || a.RetryPublication? {
      PublisherFrame(env, s, a);
    } else {
      hide DbOk, SaveMain, SaveReview, AfterLocalClaim, AfterReceive, AfterFinishEmbedding, SettledAfterWork, ApprovedContent;
      match a
      case ClaimNext(id, _) => LocalClaimFrame(s, id);
      case Receive(m, kind) => ReceiveFrame(s, m, kind);
      case FinishEmbedding(job, version) => FinishEmbeddingFrame(env, s, job, version);
      case StoreReview(user, op, payload) => ReviewKeys(s.db, user, op, payload, s.clock);
      case _ =>
    }
  }

  lemma ReviewKeys(db: Db, user: UserId, op: OpId, payload: Payload, now: Time)
    requires user in db.users
    ensures SaveReview(db, user, op, payload, now).db.tasks.Keys == db.tasks.Keys
  {
  }

  lemma CompleteKeys(db: Db, c: Claim, now: Time)
    ensures Complete(db, c.task, c.owner, c.revision, c.token, now).db.tasks.Keys == db.tasks.Keys
  {
  }

  lemma StepKeepsStorage(env: Env, s: Sys, a: Action)
    requires SysOk(env, s) && Enabled(env, s, s.clock, a)
    ensures StorageOk(env, Effect(env, s, s.clock, a))
  {
    var s' := Effect(env, s, s.clock, a);
    hide StorageOk, DbOk, QueueOk, ProfilesOk, CompletionsOk, ReadsOk, JobsOk, Effect, Enabled, TablesKept, StoreAction, EndingAction, SaveMain;
    if StoreAction(a) {
      StoreActionKeeps(env, s, a);
    } else if EndingAction(a) {
      EndingActionKeeps(env, s, a);
    } else {
      StepKeepsTables(env, s, s.clock, a);
      OtherActionFrame(env, s, a);
      if a.Save? { SaveStepUploads(env, s, a); }
      StorageFrame(env, s, s');
    }
  }

  lemma SaveStepUploads(env: Env, s: Sys, a: Action)
    requires DbOk(s.db, s.clock) && Enabled(env, s, s.clock, a) && a.Save?
    ensures NoNewUploads(s.db, Effect(env, s, s.clock, a).db)
  {
    hide DbOk, SaveMain;
    SaveNoUploads(s.db, a.user, a.op, a.payload, s.clock);
  }

  /** A live task needs the object. */
  predicate Needed(db: Db, ref: Ref) {
    exists id | id in db.tasks :: db.tasks[id].payload == Some(ref)
      && (db.tasks[id].state == Pending || db.tasks[id].state == RetryWait || db.tasks[id].state == Processing)
  }

  lemma CleanUpIs(env: Env, s: Sys, asOf: Time, now: Time)
    requires Enabled(env, s, now, CleanUp(asOf))
    ensures Effect(env, s, now, CleanUp(asOf)) == AfterCleanUp(env, s, asOf)
  {
    hide AfterCleanUp;
  }

  lemma SweptBy(env: Env, s: Sys, now: Time, sweep: Sweep, ref: Ref)
    ensures Enabled(env, s, now, SweepObject(sweep, ref)) <==>
              sweep in s.sweeps && ref in s.objects && ref !in sweep.live && s.objects[ref] <= sweep.cutoff
    ensures Enabled(env, s, now, SweepObject(sweep, ref)) ==>
              Effect(env, s, now, SweepObject(sweep, ref)).objects == s.objects - {ref}
  {
  }

  /** A clean-up deletes the uploads of the extractions it ends, and sweeps exactly the objects that no live task needs then
    * and that were stored at least the store's TTL before it. */
  lemma CleanUpDeletes(env: Env, s: Sys, asOf: Time, now: Time, ref: Ref)
    requires Enabled(env, s, now, CleanUp(asOf)) && ref in s.objects
    ensures var s' := Effect(env, s, now, CleanUp(asOf));
            && s'.objects == s.objects
            && (!Needed(s'.db, ref) && s.objects[ref] + env.ttl <= asOf ==>
                  exists sweep | sweep in s'.sweeps :: Enabled(env, s', now, SweepObject(sweep, ref))
                                                       && Effect(env, s', now, SweepObject(sweep, ref)).objects == s.objects - {ref})
            && (s.sweeps == {} && (exists sweep | sweep in s'.sweeps :: Enabled(env, s', now, SweepObject(sweep, ref))) ==>
                  !Needed(s'.db, ref) && s.objects[ref] + env.ttl <= asOf)
            && (ref in s'.doomed <==> ref in s.doomed || exists id | id in s.db.tasks ::
                  var t := s.db.tasks[id];
                  && t.payload == Some(ref) && t.kind == Extraction && t.created + env.ttl <= asOf
                  && (t.state == Pending || t.state == RetryWait
                      || (t.state == Processing && t.leaseEnd.Some? && t.leaseEnd.value <= asOf)))
  {
    hide Cleaned, Effect, Enabled, LiveRefs, StaleRefs, Needed;
    CleanUpIs(env, s, asOf, now);
    var s' := AfterCleanUp(env, s, asOf);
    var sweep := Sweep(LiveRefs(s'.db), asOf - env.ttl);
    forall other ensures Enabled(env, s', now, SweepObject(other, ref)) <==>
                           other in s'.sweeps && ref !in other.live && s.objects[ref] <= other.cutoff {
      SweptBy(env, s', now, other, ref);
    }
    SweptBy(env, s', now, sweep, ref);
    RefsAre(s.db, s'.db, env.ttl, asOf, ref);
  }

  lemma RefsAre(db: Db, db': Db, ttl: nat, asOf: Time, ref: Ref)
    ensures ref in LiveRefs(db') <==> Needed(db', ref)
    ensures ref in StaleRefs(db, ttl, asOf) <==> exists id | id in db.tasks ::
              var t := db.tasks[id];
              && t.payload == Some(ref) && t.kind == Extraction && t.created + ttl <= asOf
              && (t.state == Pending || t.state == RetryWait || (t.state == Processing && t.leaseEnd.Some? && t.leaseEnd.value <= asOf))
  {
  }
}
