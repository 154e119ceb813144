/** What imports promise: idempotence, a coherent vector cache, untouched absent jobs, and serialisability. */
module ImportTheorems {
  import opened Wrappers
  import opened Catalogue
  import opened Importer

  predicate DistinctEntries(plan: seq<Entry>) {
    forall i, j | 0 <= i < j < |plan| :: plan[i].job.key != plan[j].job.key
  }

  /** The stored form of a job written with these vectors. */
  predicate StoredAs(s: StoredJob, j: JobIn, table: map<string, Vector>, version: Version) {
    && CoversAll(table, j.requirements) && s.content == j && |s.requirements| == |j.requirements|
    && forall i | 0 <= i < |j.requirements| ::
         && s.requirements[i].row == j.requirements[i]
         && s.requirements[i].vectors == VectorsFor(Texts(j.requirements[i]), table, version)
  }

  predicate SameJob(a: Store, b: Store, k: JobKey) {
    (k in a.jobs <==> k in b.jobs) && (k in a.jobs ==> a.jobs[k] == b.jobs[k])
  }

  /** What the write loop leaves at the key of each entry, and elsewhere. */
  lemma {:induction false} WriteAllAt(store: Store, plan: seq<Entry>, table: map<string, Vector>, version: Version, now: Time,
                                      k: JobKey)
    requires PlanCovered(plan, table) && DistinctEntries(plan)
    ensures var r := WriteAll(store, plan, table, version, now);
            && r.revision == store.revision
            && (forall i | 0 <= i < |plan| && plan[i].job.key == k && plan[i].status != Unchanged ::
                  k in r.jobs && StoredAs(r.jobs[k], plan[i].job, table, version))
            && ((forall i | 0 <= i < |plan| && plan[i].job.key == k :: plan[i].status == Unchanged) ==> SameJob(store, r, k))
  {
    if plan != [] {
      WriteAllAt(store, plan[..|plan| - 1], table, version, now, k);
    }
  }

  /** Jobs that the file does not name are left exactly as they were, whatever the outcome. */
  lemma AbsentJobsUntouched(w: World, store: Store, jobs: seq<JobIn>, version: Version, now: Time, k: JobKey)
    requires forall i | 0 <= i < |jobs| :: jobs[i].key != k
    ensures SameJob(store, Import(w, store, jobs, version, now).0, k)
  {
    if ValidBatch(jobs) {
      var batch := DedupedBatch(w, jobs);
      var plan := PlanOf(batch, Read(store, KeysOf(batch)), version);
      LookupsAreDefined(w, plan, version);
      hide DedupedJob, StatusOf, Table, Gather, Read;
      assert DistinctEntries(plan) by { assert forall i | 0 <= i < |plan| :: plan[i].job.key == batch[i].key; hide *; }
      assert forall i | 0 <= i < |plan| :: plan[i].job.key != k;
      WriteAllAt(store, plan, Table(w, Gather(w, plan, version), version), version, now, k);
    }
  }

  lemma PlanKeys(w: World, jobs: seq<JobIn>, snap: Snapshot, version: Version)
    requires ValidBatch(jobs)
    ensures var plan := PlanOf(DedupedBatch(w, jobs), snap, version);
            DistinctEntries(plan) && |plan| == |jobs| && forall i | 0 <= i < |plan| :: plan[i].job.key == jobs[i].key
  {
    hide Deduplicated, StatusOf;
  }

  // ---- idempotence

  lemma {:induction false} RowsHold(ts: seq<string>, table: map<string, Vector>, version: Version)
    requires Covers(table, ts)
    ensures var m := VectorRows(VectorsFor(ts, table, version));
            && (forall t | t in ts :: t in m) && (forall t | t in m :: t in ts && t in table && m[t] == Cached(table[t], version))
  {
    if ts != [] {
      var front, last := ts[..|ts| - 1], ts[|ts| - 1];
      assert ts == front + [last];
      RowsHold(front, table, version);
      OneRowMore(front, last, table, version);
      hide VectorRows, VectorsFor;
      assert forall t | t in ts :: t in front || t == last;
    }
  }

  lemma OneRowMore(front: seq<string>, last: string, table: map<string, Vector>, version: Version)
    requires Covers(table, front) && last in table
    ensures Covers(table, front + [last])
    ensures VectorRows(VectorsFor(front + [last], table, version))
         == VectorRows(VectorsFor(front, table, version))[last := Cached(table[last], version)]
  {
    var vs := VectorsFor(front + [last], table, version);
    assert vs[..|front|] == VectorsFor(front, table, version);
    assert vs[|vs| - 1] == StoredVector(last, table[last], version);
  }

  lemma {:induction false} StoredHolds(rs: seq<Requirement>, stored: seq<StoredRequirement>, table: map<string, Vector>, version: Version)
    requires CoversAll(table, rs) && |stored| == |rs|
    requires forall i | 0 <= i < |rs| :: stored[i].vectors == VectorsFor(Texts(rs[i]), table, version)
    ensures forall t | t in TextsOf(rs) :: t in VectorsOf(stored)
    ensures forall t | t in VectorsOf(stored) :: t in table && VectorsOf(stored)[t] == Cached(table[t], version)
  {
    hide VectorRows, VectorsFor, Texts, Covers;
    if rs != [] {
      var n := |rs| - 1;
      StoredHolds(rs[..n], stored[..n], table, version);
      assert Covers(table, Texts(rs[n]));
      RowsHold(Texts(rs[n]), table, version);
    }
  }

  /** A job that has just been written, or was found unchanged, is found unchanged by the next import. */
  lemma StoredIsUnchanged(s: StoredJob, j: JobIn, table: map<string, Vector>, version: Version)
    requires StoredAs(s, j, table, version)
    ensures StatusOf(Some(ExistingOf(s)), j, version) == Unchanged
  {
    StoredHolds(j.requirements, s.requirements, table, version);
  }

  lemma {:induction false} NothingToDo(w: World, store: Store, plan: seq<Entry>, version: Version, now: Time)
    requires forall i | 0 <= i < |plan| :: plan[i].status == Unchanged
    ensures Gather(w, plan, version) == Gathered(map[], [], 0)
    ensures PlanCovered(plan, map[]) && WriteAll(store, plan, map[], version, now) == store && !Writes(plan)
    ensures CountStatus(plan, Created) == 0 && CountStatus(plan, Updated) == 0 && CountStatus(plan, Unchanged) == |plan|
  {
    if plan != [] { NothingToDo(w, store, plan[..|plan| - 1], version, now); }
  }

  /** What a successful import is made of. */
  lemma ImportedBy(w: World, store: Store, jobs: seq<JobIn>, version: Version, now: Time)
    requires Import(w, store, jobs, version, now).1.Imported?
    ensures ValidBatch(jobs)
    ensures var batch := DedupedBatch(w, jobs);
            var plan := PlanOf(batch, Read(store, KeysOf(batch)), version);
            var table := Table(w, Gather(w, plan, version), version);
            && PlanCovered(plan, table)
            && Import(w, store, jobs, version, now).0
                 == WriteAll(store, plan, table, version, now).(revision := if Writes(plan) then store.revision + 1 else store.revision)
  {
    var batch := DedupedBatch(w, jobs);
    LookupsAreDefined(w, PlanOf(batch, Read(store, KeysOf(batch)), version), version);
    hide WriteAll, Gather, Table, Read, PlanOf, DedupedBatch, Writes;
  }

  /** The entry of a job in a plan made against the tables themselves. */
  lemma FoundInPlan(store: Store, batch: seq<JobIn>, version: Version, i: nat)
    requires i < |batch|
    ensures var k := batch[i].key;
            PlanOf(batch, Read(store, KeysOf(batch)), version)[i]
              == Entry(batch[i], if k in store.jobs then Some(ExistingOf(store.jobs[k])) else None,
                       StatusOf(if k in store.jobs then Some(ExistingOf(store.jobs[k])) else None, batch[i], version))
  {
    hide StatusOf, ExistingOf;
    assert batch[i].key in KeysOf(batch);
  }

  lemma UnchangedNextTime(w: World, store: Store, jobs: seq<JobIn>, version: Version, now: Time, i: nat)
    requires Import(w, store, jobs, version, now).1.Imported? && i < |jobs|
    ensures var batch := DedupedBatch(w, jobs);
            PlanOf(batch, Read(Import(w, store, jobs, version, now).0, KeysOf(batch)), version)[i].status == Unchanged
  {
    var batch := DedupedBatch(w, jobs);
    var plan := PlanOf(batch, Read(store, KeysOf(batch)), version);
    var table := Table(w, Gather(w, plan, version), version);
    var after := Import(w, store, jobs, version, now).0;
    ImportedBy(w, store, jobs, version, now);
    PlanKeys(w, jobs, Read(store, KeysOf(batch)), version);
    FoundInPlan(store, batch, version, i);
    FoundInPlan(after, batch, version, i);
    var k := batch[i].key;
    WriteAllAt(store, plan, table, version, now, k);
    hide PlanOf, Read, Gather, Table, WriteAll, Import, DedupedBatch, StoredAs, StatusOf, ExistingOf, PlanCovered;
    if plan[i].status == Unchanged {
      assert forall m | 0 <= m < |plan| && plan[m].job.key == k :: m == i;
      UnchangedExists(plan[i], version);
    } else {
      StoredIsUnchanged(after.jobs[k], batch[i], table, version);
    }
  }

  lemma UnchangedExists(e: Entry, version: Version)
    requires e.status == Unchanged == StatusOf(e.existing, e.job, version)
    ensures e.existing.Some?
  {
  }

  /** Importing the same file again finds every job unchanged, writes nothing and keeps the revision. */
  lemma ImportIsIdempotent(w: World, store: Store, jobs: seq<JobIn>, version: Version, now: Time, later: Time)
    requires Import(w, store, jobs, version, now).1.Imported?
    ensures var after := Import(w, store, jobs, version, now).0;
            Import(w, after, jobs, version, later) == (after, Imported(0, 0, |jobs|, 0, 0, after.revision))
  {
    var after := Import(w, store, jobs, version, now).0;
    var batch := DedupedBatch(w, jobs);
    ImportedBy(w, store, jobs, version, now);
    var again := PlanOf(batch, Read(after, KeysOf(batch)), version);
    forall i | 0 <= i < |again| ensures again[i].status == Unchanged { UnchangedNextTime(w, store, jobs, version, now, i); }
    NothingToDo(w, after, again, version, later);
    EmptyTable(w, version);
    assert Import(w, after, jobs, version, later) == Finish(w, after, after.revision, again, version, later);
    hide PlanOf, Read, WriteAll, DedupedBatch, Gather, Table, Import;
  }

  lemma EmptyTable(w: World, version: Version)
    ensures Computed(Gathered(map[], [], 0)) == {} && Table(w, Gathered(map[], [], 0), version) == map[]
  {
    assert Computed(Gathered(map[], [], 0)) == {};
  }

  // ---- what every imported catalogue looks like

  /** All texts of the requirement are embedded, in order, by one model version. */
  predicate EmbeddedBy(w: World, r: StoredRequirement, version: Version) {
    && |r.vectors| == |Texts(r.row)|
    && forall a | 0 <= a < |r.vectors| ::
         r.vectors[a] == StoredVector(Texts(r.row)[a], w.embed(version, Texts(r.row)[a]), version)
  }

  predicate AllEmbeddedBy(w: World, rs: seq<StoredRequirement>, version: Version) {
    forall i | 0 <= i < |rs| :: EmbeddedBy(w, rs[i], version)
  }

  ghost predicate JobOk(w: World, s: StoredJob) {
    && |s.requirements| == |s.content.requirements| && DistinctKeys(w, s.content.requirements)
    && (forall i | 0 <= i < |s.requirements| :: s.requirements[i].row == s.content.requirements[i])
    && exists version :: AllEmbeddedBy(w, s.requirements, version)
  }

  ghost predicate Coherent(w: World, store: Store) {
    forall k | k in store.jobs :: JobOk(w, store.jobs[k])
  }

  /** A table of vectors is right for a version. */
  predicate TableOk(w: World, table: map<string, Vector>, version: Version) {
    forall t | t in table :: table[t] == w.embed(version, t)
  }

  predicate CacheOk(w: World, vectors: map<string, Cached>) {
    forall t | t in vectors :: vectors[t].vector == w.embed(vectors[t].version, t)
  }

  lemma {:induction false} RowsCoherent(w: World, r: StoredRequirement, vs: seq<StoredVector>, version: Version)
    requires EmbeddedBy(w, r, version) && vs <= r.vectors
    ensures CacheOk(w, VectorRows(vs))
  {
    if vs != [] { RowsCoherent(w, r, vs[..|vs| - 1], version); }
  }

  lemma {:induction false} VectorsCoherent(w: World, rs: seq<StoredRequirement>, version: Version)
    requires forall i | 0 <= i < |rs| :: EmbeddedBy(w, rs[i], version)
    ensures CacheOk(w, VectorsOf(rs))
  {
    hide EmbeddedBy;
    if rs != [] {
      VectorsCoherent(w, rs[..|rs| - 1], version);
      RowsCoherent(w, rs[|rs| - 1], rs[|rs| - 1].vectors, version);
    }
  }

  ghost predicate SnapshotOk(w: World, snap: Snapshot) {
    forall k | k in snap :: CacheOk(w, snap[k].vectors)
  }

  lemma ReadCoherent(w: World, store: Store, keys: set<JobKey>)
    requires Coherent(w, store)
    ensures SnapshotOk(w, Read(store, keys))
  {
    hide EmbeddedBy, VectorsOf, CacheOk;
    forall k | k in Read(store, keys) ensures CacheOk(w, Read(store, keys)[k].vectors) {
      assert JobOk(w, store.jobs[k]);
      var version :| AllEmbeddedBy(w, store.jobs[k].requirements, version);
      VectorsCoherent(w, store.jobs[k].requirements, version);
    }
  }

  lemma {:induction false} GatherCoherent(w: World, plan: seq<Entry>, version: Version)
    requires forall i | 0 <= i < |plan| && plan[i].existing.Some? :: CacheOk(w, plan[i].existing.value.vectors)
    ensures TableOk(w, Gather(w, plan, version).reuse, version)
  {
    if plan != [] {
      var front, e := plan[..|plan| - 1], plan[|plan| - 1];
      GatherCoherent(w, front, version);
      MeetAllCovers(w, Gather(w, front, version), e.existing, TextsOf(e.job.requirements), version);
    }
  }

  lemma StoredCoherent(w: World, s: StoredJob, j: JobIn, table: map<string, Vector>, version: Version)
    requires StoredAs(s, j, table, version) && TableOk(w, table, version) && DistinctKeys(w, j.requirements)
    ensures JobOk(w, s)
  {
    hide DistinctKeys;
    forall i | 0 <= i < |s.requirements| ensures EmbeddedBy(w, s.requirements[i], version) {
      assert s.requirements[i].vectors == VectorsFor(Texts(j.requirements[i]), table, version);
    }
    assert AllEmbeddedBy(w, s.requirements, version);
  }

  /** The cache of vectors stays coherent: every stored vector embeds its text under its version, and every stored job
    * has all its texts embedded by one version and no logical duplicates among its requirements. */
  lemma ImportKeepsCoherence(w: World, store: Store, jobs: seq<JobIn>, version: Version, now: Time)
    requires Coherent(w, store)
    ensures Coherent(w, Import(w, store, jobs, version, now).0)
  {
    if Import(w, store, jobs, version, now).1.Imported? {
      ImportedBy(w, store, jobs, version, now);
      var batch := DedupedBatch(w, jobs);
      FinishKeepsCoherence(w, store, batch, Read(store, KeysOf(batch)), version, now) by {
        ReadCoherent(w, store, KeysOf(batch));
        PlanKeys(w, jobs, Read(store, KeysOf(batch)), version);
        BatchDistinct(w, jobs);
      }
      hide Import, WriteAll, Gather, Table, PlanOf, Read, DedupedBatch, Writes;
    } else {
      hide WriteAll, Gather, Table, PlanOf, Read, DedupedBatch, Writes;
    }
  }

  lemma BatchDistinct(w: World, jobs: seq<JobIn>)
    ensures forall i | 0 <= i < |jobs| :: DistinctKeys(w, DedupedBatch(w, jobs)[i].requirements)
  {
    hide DistinctKeys;
    forall i | 0 <= i < |jobs| ensures DistinctKeys(w, DedupedBatch(w, jobs)[i].requirements) {
      DedupeKeepsOnePerKey(w, jobs[i].requirements, RequirementKey("", multiset{}));
    }
  }

  lemma FinishKeepsCoherence(w: World, store: Store, batch: seq<JobIn>, snap: Snapshot, version: Version, now: Time)
    requires Coherent(w, store) && SnapshotOk(w, snap) && DistinctEntries(PlanOf(batch, snap, version))
    requires forall i | 0 <= i < |batch| :: DistinctKeys(w, batch[i].requirements)
    requires PlanCovered(PlanOf(batch, snap, version), Table(w, Gather(w, PlanOf(batch, snap, version), version), version))
    ensures var plan := PlanOf(batch, snap, version);
            Coherent(w, WriteAll(store, plan, Table(w, Gather(w, plan, version), version), version, now))
  {
    var plan := PlanOf(batch, snap, version);
    var table := Table(w, Gather(w, plan, version), version);
    var after := WriteAll(store, plan, table, version, now);
    GatherCoherent(w, plan, version);
    assert TableOk(w, table, version);
    forall k | k in after.jobs ensures JobOk(w, after.jobs[k]) {
      WriteAllAt(store, plan, table, version, now, k);
      hide Gather, Table, WriteAll, StatusOf, JobOk, StoredAs, DistinctKeys, CacheOk, TableOk;
      if i :| 0 <= i < |plan| && plan[i].job.key == k && plan[i].status != Unchanged {
        StoredCoherent(w, after.jobs[k], plan[i].job, table, version);
      } else {
        assert SameJob(store, after, k);
      }
    }
  }

  // ---- identifiers

  predicate JobIdsOk(store: Store, k: JobKey)
    requires k in store.jobs
  {
    var s := store.jobs[k];
    && s.id < store.next
    && (forall i | 0 <= i < |s.requirements| :: s.requirements[i].id < store.next)
    && (forall i, j | 0 <= i < j < |s.requirements| :: s.requirements[i].id != s.requirements[j].id)
  }

  /** Primary keys: no two jobs and no two requirements share an identifier. */
  predicate IdsOk(store: Store) {
    && (forall k | k in store.jobs :: JobIdsOk(store, k))
    && (forall k, m | k in store.jobs && m in store.jobs && k != m :: store.jobs[k].id != store.jobs[m].id)
    && (forall k, m | k in store.jobs && m in store.jobs && k != m ::
          forall i, j | 0 <= i < |store.jobs[k].requirements| && 0 <= j < |store.jobs[m].requirements| ::
            store.jobs[k].requirements[i].id != store.jobs[m].requirements[j].id)
  }

  /** A job written with new requirement ids, under its own id or a new one. */
  lemma NewRowIds(store: Store, k: JobKey, s: StoredJob)
    requires IdsOk(store) && (if k in store.jobs then s.id == store.jobs[k].id else s.id == store.next)
    requires forall i | 0 <= i < |s.requirements| :: s.requirements[i].id == store.next + 1 + i
    ensures IdsOk(store.(jobs := store.jobs[k := s], next := store.next + 1 + |s.requirements|))
  {
    var r := store.(jobs := store.jobs[k := s], next := store.next + 1 + |s.requirements|);
    forall m | m in r.jobs ensures JobIdsOk(r, m) { if m != k { assert JobIdsOk(store, m); } }
    forall m, n | m in r.jobs && n in r.jobs && m != n
      ensures r.jobs[m].id != r.jobs[n].id
      ensures forall i, j | 0 <= i < |r.jobs[m].requirements| && 0 <= j < |r.jobs[n].requirements| ::
                r.jobs[m].requirements[i].id != r.jobs[n].requirements[j].id
    {
      if m != k { assert JobIdsOk(store, m); }
      if n != k { assert JobIdsOk(store, n); }
      hide JobIdsOk;
    }
  }

  lemma WrittenIds(store: Store, e: Entry, table: map<string, Vector>, version: Version, now: Time)
    requires IdsOk(store) && (e.status != Unchanged ==> CoversAll(table, e.job.requirements))
    requires e.existing.Some? ==> e.job.key in store.jobs && store.jobs[e.job.key].id == e.existing.value.id
    requires e.existing.None? ==> e.job.key !in store.jobs
    ensures IdsOk(Written(store, e, table, version, now))
  {
    hide CoversAll, IdsOk;
    if e.status != Unchanged {
      NewRowIds(store, e.job.key, Written(store, e, table, version, now).jobs[e.job.key]);
    }
  }

  /** The entry's row is the one it was planned for. */
  predicate AsFound(store: Store, e: Entry) {
    if e.existing.Some? then e.job.key in store.jobs && store.jobs[e.job.key].id == e.existing.value.id
    else e.job.key !in store.jobs
  }

  lemma {:induction false} WriteAllIds(store: Store, plan: seq<Entry>, table: map<string, Vector>, version: Version, now: Time)
    requires IdsOk(store) && PlanCovered(plan, table) && DistinctEntries(plan)
    requires forall i | 0 <= i < |plan| :: AsFound(store, plan[i])
    ensures IdsOk(WriteAll(store, plan, table, version, now))
  {
    if plan != [] {
      var front, e := plan[..|plan| - 1], plan[|plan| - 1];
      WriteAllIds(store, front, table, version, now);
      WriteAllAt(store, front, table, version, now, e.job.key);
      assert AsFound(store, e);
      hide IdsOk, StoredAs, CoversAll, PlanCovered;
      WrittenIds(WriteAll(store, front, table, version, now), e, table, version, now);
    }
  }

  lemma ImportKeepsIds(w: World, store: Store, jobs: seq<JobIn>, version: Version, now: Time)
    requires IdsOk(store)
    ensures IdsOk(Import(w, store, jobs, version, now).0)
  {
    if Import(w, store, jobs, version, now).1.Imported? {
      ImportedBy(w, store, jobs, version, now);
      var batch := DedupedBatch(w, jobs);
      var plan := PlanOf(batch, Read(store, KeysOf(batch)), version);
      PlanKeys(w, jobs, Read(store, KeysOf(batch)), version);
      forall i | 0 <= i < |plan| ensures AsFound(store, plan[i]) {
        FoundInPlan(store, batch, version, i);
      }
      hide Import, IdsOk, Gather, Table, PlanOf, Read, DedupedBatch, Writes, PlanCovered;
      var table := Table(w, Gather(w, plan, version), version);
      WriteAllIds(store, plan, table, version, now);
      IdsIgnoreRevision(WriteAll(store, plan, table, version, now), Import(w, store, jobs, version, now).0.revision);
    } else {
      hide WriteAll, Gather, Table, PlanOf, Read, DedupedBatch, Writes, IdsOk;
    }
  }

  lemma IdsIgnoreRevision(store: Store, revision: nat)
    requires IdsOk(store)
    ensures IdsOk(store.(revision := revision))
  {
    forall k | k in store.jobs ensures JobIdsOk(store.(revision := revision), k) { assert JobIdsOk(store, k); }
  }

  // ---- what one import leaves of its file

  predicate OneVersion(vectors: map<string, Cached>, version: Version) {
    forall t | t in vectors :: vectors[t].version == version
  }

  lemma {:induction false} RowsOfOneVersion(w: World, r: StoredRequirement, vs: seq<StoredVector>, version: Version)
    requires EmbeddedBy(w, r, version) && vs <= r.vectors
    ensures OneVersion(VectorRows(vs), version)
  {
    if vs != [] { RowsOfOneVersion(w, r, vs[..|vs| - 1], version); }
  }

  lemma {:induction false} VectorsOfOneVersion(w: World, rs: seq<StoredRequirement>, version: Version)
    requires AllEmbeddedBy(w, rs, version)
    ensures OneVersion(VectorsOf(rs), version)
  {
    hide EmbeddedBy;
    if rs != [] {
      VectorsOfOneVersion(w, rs[..|rs| - 1], version);
      RowsOfOneVersion(w, rs[|rs| - 1], rs[|rs| - 1].vectors, version);
    }
  }

  /** A coherent job that would be found unchanged has the file's content, embedded by the version asked for. */
  lemma UnchangedIsEmbedded(w: World, s: StoredJob, j: JobIn, version: Version)
    requires JobOk(w, s) && StatusOf(Some(ExistingOf(s)), j, version) == Unchanged
    ensures s.content == j && AllEmbeddedBy(w, s.requirements, version)
  {
    var stored :| AllEmbeddedBy(w, s.requirements, stored);
    VectorsOfOneVersion(w, s.requirements, stored);
    if s.requirements != [] {
      var r := j.requirements[0];
      TextsIncluded(j.requirements, 0);
      assert Texts(r)[0] in Texts(r);
      hide EmbeddedBy, VectorsOf, TextsOf, Texts;
      assert stored == version;
    }
  }

  /** After a successful import every job of the file is stored with its deduplicated content, every text of it embedded
    * by the version of this import, whatever was stored before. */
  lemma ImportStoresTheFile(w: World, store: Store, jobs: seq<JobIn>, version: Version, now: Time, i: nat)
    requires Coherent(w, store) && Import(w, store, jobs, version, now).1.Imported? && i < |jobs|
    ensures var after, k := Import(w, store, jobs, version, now).0, jobs[i].key;
            && k in after.jobs && after.jobs[k].content == DedupedJob(w, jobs[i])
            && AllEmbeddedBy(w, after.jobs[k].requirements, version)
  {
    var batch := DedupedBatch(w, jobs);
    var after := Import(w, store, jobs, version, now).0;
    UnchangedNextTime(w, store, jobs, version, now, i);
    FoundInPlan(after, batch, version, i);
    ImportKeepsCoherence(w, store, jobs, version, now);
    var k := batch[i].key;
    hide Import, PlanOf, Read, EmbeddedBy, ExistingOf, JobOk;
    assert k in after.jobs;
    assert JobOk(w, after.jobs[k]);
    UnchangedIsEmbedded(w, after.jobs[k], batch[i], version);
  }
}
