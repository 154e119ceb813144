/** import_catalogue as it runs: the loops over jobs, requirements and texts, and the rows they update. */
module ImportSession {
  import opened Wrappers
  import opened Catalogue
  import opened Importer

  method DedupeBatch(w: World, jobs: seq<JobIn>) returns (batch: seq<JobIn>, removed: nat)
    ensures batch == DedupedBatch(w, jobs)
    ensures removed == Dropped(w, jobs)
  {
    hide Deduplicated, DedupedBatch, Dropped;
    batch, removed := [], 0;
    BatchNone(w, jobs);
    for n := 0 to |jobs|
      invariant batch == DedupedBatch(w, jobs[..n]) && removed == Dropped(w, jobs[..n])
    {
      var kept, dropped := DedupeRequirements(w, jobs[n].requirements);
      BatchMore(w, jobs, n);
      batch := batch + [jobs[n].(requirements := kept)];
      removed := removed + dropped;
    }
    assert jobs[..|jobs|] == jobs;
  }

  lemma BatchNone(w: World, jobs: seq<JobIn>)
    ensures DedupedBatch(w, jobs[..0]) == [] && Dropped(w, jobs[..0]) == 0
  {
  }

  lemma BatchMore(w: World, jobs: seq<JobIn>, n: nat)
    requires n < |jobs|
    ensures DedupedBatch(w, jobs[..n + 1])
         == DedupedBatch(w, jobs[..n]) + [jobs[n].(requirements := Deduplicated(w, jobs[n].requirements))]
    ensures Dropped(w, jobs[..n + 1])
         == Dropped(w, jobs[..n]) + (|jobs[n].requirements| - |Deduplicated(w, jobs[n].requirements)|)
  {
    hide Deduplicated;
    assert jobs[..n + 1][..n] == jobs[..n];
  }

  /** requirements_deduplicated */
  function Dropped(w: World, jobs: seq<JobIn>): nat {
    if jobs == [] then 0
    else
      var j := jobs[|jobs| - 1];
      Dropped(w, jobs[..|jobs| - 1]) + (|j.requirements| - |Deduplicated(w, j.requirements)|)
  }

  /** The vectors of one stored job, row by row. */
  method LoadVectors(rs: seq<StoredRequirement>) returns (vectors: map<string, Cached>)
    ensures vectors == VectorsOf(rs)
  {
    vectors := map[];
    assert rs[..0] == [];
    for i := 0 to |rs|
      invariant vectors == VectorsOf(rs[..i])
    {
      var vs := rs[i].vectors;
      ghost var before := vectors;
      assert vs[..0] == [] && rs[..i + 1][..i] == rs[..i];
      for a := 0 to |vs|
        invariant vectors == before + VectorRows(vs[..a])
      {
        vectors := vectors[vs[a].text := Cached(vs[a].vector, vs[a].version)];
        assert vs[..a + 1][..a] == vs[..a];
      }
      assert vs[..|vs|] == vs;
    }
    assert rs[..|rs|] == rs;
  }

  method MakePlan(batch: seq<JobIn>, existing: Snapshot, version: Version) returns (plan: seq<Entry>)
    ensures plan == PlanOf(batch, existing, version)
  {
    hide StatusOf;
    plan := [];
    for n := 0 to |batch|
      invariant plan == PlanOf(batch, existing, version)[..n]
    {
      var ex := if batch[n].key in existing then Some(existing[batch[n].key]) else None;
      plan := plan + [Entry(batch[n], ex, StatusOf(ex, batch[n], version))];
    }
  }

  method Count(plan: seq<Entry>, s: Status) returns (count: nat)
    ensures count == CountStatus(plan, s)
  {
    count := 0;
    assert plan[..0] == [];
    for n := 0 to |plan|
      invariant count == CountStatus(plan[..n], s)
    {
      if plan[n].status == s { count := count + 1; }
      assert plan[..n + 1][..n] == plan[..n];
    }
    assert plan[..|plan|] == plan;
  }

  lemma {:induction false} MeetInTwo(w: World, g: Gathered, ex: Option<Existing>, ts: seq<string>, us: seq<string>, version: Version)
    ensures MeetAll(w, g, ex, ts + us, version) == MeetAll(w, MeetAll(w, g, ex, ts, version), ex, us, version)
  {
    hide Meet;
    if us == [] {
      assert ts + us == ts;
    } else {
      assert (ts + us)[..|ts + us| - 1] == ts + us[..|us| - 1];
      MeetInTwo(w, g, ex, ts, us[..|us| - 1], version);
    }
  }

  method MeetText(w: World, before: Gathered, ex: Option<Existing>, t: string, version: Version) returns (g: Gathered)
    ensures g == Meet(w, before, ex, t, version)
  {
    g := before;
    if ex.Some? && t in ex.value.vectors && ex.value.vectors[t].version == version {
      if t !in g.reuse { g := g.(reuse := g.reuse[t := ex.value.vectors[t].vector]); }
    } else if t !in g.reuse && t !in g.needed {
      if !w.fits(t) { g := g.(issues := g.issues + 1); }
      g := g.(needed := g.needed + [t]);
    }
  }

  method MeetTexts(w: World, before: Gathered, ex: Option<Existing>, ts: seq<string>, version: Version) returns (g: Gathered)
    ensures g == MeetAll(w, before, ex, ts, version)
  {
    hide Meet;
    g := before;
    assert ts[..0] == [];
    for ti := 0 to |ts|
      invariant g == MeetAll(w, before, ex, ts[..ti], version)
    {
      assert ts[..ti + 1][..ti] == ts[..ti];
      g := MeetText(w, g, ex, ts[ti], version);
    }
    assert ts[..|ts|] == ts;
  }

  /** The texts of one job: reuse what the job already has for this version, ask for the rest once. */
  method MeetJob(w: World, before: Gathered, e: Entry, version: Version) returns (g: Gathered)
    ensures g == MeetAll(w, before, e.existing, TextsOf(e.job.requirements), version)
  {
    var rs := e.job.requirements;
    g := before;
    assert rs[..0] == [];
    for ri := 0 to |rs|
      invariant g == MeetAll(w, before, e.existing, TextsOf(rs[..ri]), version)
    {
      assert rs[..ri + 1][..ri] == rs[..ri];
      MeetInTwo(w, before, e.existing, TextsOf(rs[..ri]), Texts(rs[ri]), version);
      g := MeetTexts(w, g, e.existing, Texts(rs[ri]), version);
    }
    assert rs[..|rs|] == rs;
  }

  method GatherVectors(w: World, plan: seq<Entry>, version: Version) returns (g: Gathered)
    ensures g == Gather(w, plan, version)
  {
    g := Gathered(map[], [], 0);
    assert plan[..0] == [];
    for n := 0 to |plan|
      invariant g == Gather(w, plan[..n], version)
    {
      assert plan[..n + 1][..n] == plan[..n];
      if plan[n].status == Unchanged { continue; }
      g := MeetJob(w, g, plan[n], version);
    }
    assert plan[..|plan|] == plan;
  }

  /** dict(zip(needed, embed(needed))) without the texts that turned up for reuse. */
  method EmbedNew(w: World, g: Gathered, version: Version) returns (vectors: map<string, Vector>)
    ensures vectors == map t | t in Computed(g) :: w.embed(version, t)
  {
    vectors := map[];
    for n := 0 to |g.needed|
      invariant vectors == map t | t in g.needed[..n] && t !in g.reuse :: w.embed(version, t)
    {
      var t := g.needed[n];
      if t !in g.reuse { vectors := vectors[t := w.embed(version, t)]; }
      assert g.needed[..n + 1] == g.needed[..n] + [t];
    }
    assert g.needed[..|g.needed|] == g.needed;
  }

  lemma {:induction false} CountsSayWhetherItWrites(plan: seq<Entry>)
    ensures Writes(plan) <==> CountStatus(plan, Created) + CountStatus(plan, Updated) > 0
  {
    if plan != [] {
      var front := plan[..|plan| - 1];
      CountsSayWhetherItWrites(front);
      if Writes(front) {
        var i :| 0 <= i < |front| && front[i].status != Unchanged;
        assert plan[i].status != Unchanged;
      } else if plan[|plan| - 1].status == Unchanged {
        assert forall i | 0 <= i < |plan| :: i < |front| ==> plan[i] == front[i];
      }
    }
  }

  class Session {
    var revision: nat
    var jobs: map<JobKey, StoredJob>
    var next: nat

    function View(): Store
      reads this
    {
      Store(revision, jobs, next)
    }

    constructor ()
      ensures View() == Store(0, map[], 0)
    {
      revision, jobs, next := 0, map[], 0;
    }

    method NewUuid() returns (id: nat)
      modifies this`next
      ensures id == old(next) && next == old(next) + 1
    {
      id := next;
      next := next + 1;
    }

    method LoadExisting(keys: set<JobKey>) returns (existing: Snapshot)
      ensures existing == Read(View(), keys)
    {
      existing := map[];
      var todo := set k | k in keys && k in jobs;
      ghost var all := todo;
      while todo != {}
        invariant todo <= all && all == set k | k in keys && k in jobs
        invariant existing == map k | k in all - todo :: ExistingOf(jobs[k])
      {
        var k :| k in todo;
        var vectors := LoadVectors(jobs[k].requirements);
        existing := existing[k := Existing(jobs[k].id, jobs[k].content, vectors)];
        ghost var before := todo;
        todo := todo - {k};
        assert all - todo == (all - before) + {k};
      }
    }

    /** The requirements of one job, each with its vectors; `vectors[t]` is a lookup that must not fail. */
    method WriteRequirements(rs: seq<Requirement>, vectors: map<string, Vector>, version: Version)
      returns (rows: seq<StoredRequirement>)
      requires CoversAll(vectors, rs)
      modifies this`next
      ensures rows == RowsFor(rs, vectors, version, old(next)) && next == old(next) + |rs|
    {
      rows := [];
      for ordinal := 0 to |rs|
        invariant |rows| == ordinal && next == old(next) + ordinal
        invariant forall i | 0 <= i < ordinal :: rows[i] == RowsFor(rs, vectors, version, old(next))[i]
      {
        var id := NewUuid();
        var ts := Texts(rs[ordinal]);
        assert Covers(vectors, ts);
        var vs: seq<StoredVector> := [];
        for a := 0 to |ts|
          invariant |vs| == a && forall b | 0 <= b < a :: vs[b] == StoredVector(ts[b], vectors[ts[b]], version)
        {
          vs := vs + [StoredVector(ts[a], vectors[ts[a]], version)];
        }
        assert vs == VectorsFor(ts, vectors, version);
        rows := rows + [StoredRequirement(id, rs[ordinal], vs)];
      }
    }

    method WriteEntry(e: Entry, vectors: map<string, Vector>, version: Version, now: Time)
      requires e.status != Unchanged ==> CoversAll(vectors, e.job.requirements)
      modifies this
      ensures View() == Written(old(View()), e, vectors, version, now)
    {
      if e.status == Unchanged { return; }
      var newId := NewUuid();
      var id := if e.existing.Some? then e.existing.value.id else newId;
      var rows := WriteRequirements(e.job.requirements, vectors, version);
      jobs := jobs[e.job.key := StoredJob(id, e.job, now, rows)];
    }

    method WritePlan(plan: seq<Entry>, vectors: map<string, Vector>, version: Version, now: Time)
      requires PlanCovered(plan, vectors)
      modifies this
      ensures View() == WriteAll(old(View()), plan, vectors, version, now)
    {
      ghost var before := View();
      hide CoversAll, Written;
      assert plan[..0] == [];
      for n := 0 to |plan|
        invariant View() == WriteAll(before, plan[..n], vectors, version, now)
      {
        assert plan[..n + 1][..n] == plan[..n];
        WriteEntry(plan[n], vectors, version, now);
      }
      assert plan[..|plan|] == plan;
    }

    /** From the plan to the commit. */
    method FinishImport(w: World, planned: nat, plan: seq<Entry>, version: Version, now: Time) returns (result: Result)
      modifies this
      ensures (View(), result) == Finish(w, old(View()), planned, plan, version, now)
    {
      var g := GatherVectors(w, plan, version);
      if g.issues > 0 { return TokenIssues(g.issues); }
      var newVectors := EmbedNew(w, g, version);
      var vectors := g.reuse + newVectors;
      LookupsAreDefined(w, plan, version);
      assert vectors == Table(w, g, version) && newVectors.Keys == Computed(g);
      assert |newVectors| == |newVectors.Keys|;
      hide Gather, Table, WriteAll, PlanCovered, Computed;
      if revision != planned { return ChangedMeanwhile; }
      WritePlan(plan, vectors, version, now);
      var created := Count(plan, Created);
      var updated := Count(plan, Updated);
      var same := Count(plan, Unchanged);
      CountsSayWhetherItWrites(plan);
      if created + updated > 0 { revision := revision + 1; }
      result := Imported(created, updated, same, |newVectors|, |g.reuse|, revision);
    }

    /** import_catalogue with nobody else at work: what `Import` says, and the number of dropped duplicates. */
    method ImportCatalogue(w: World, file: seq<JobIn>, version: Version, now: Time) returns (result: Result, removed: nat)
      modifies this
      ensures (View(), result) == Import(w, old(View()), file, version, now)
      ensures ValidBatch(file) ==> removed == Dropped(w, file)
    {
      hide Finish, PlanOf, Read, DedupedBatch, KeysOf;
      removed := 0;
      if !ValidBatch(file) { return Invalid, 0; }
      var batch;
      batch, removed := DedupeBatch(w, file);
      var planned := revision;
      var existing := LoadExisting(KeysOf(batch));
      var plan := MakePlan(batch, existing, version);
      result := FinishImport(w, planned, plan, version, now);
    }
  }
}
