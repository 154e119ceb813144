/** What one import does, job by job and text by text, and what it reports. */
module ImportLaws {
  import opened Wrappers
  import opened Catalogue
  import opened Importer
  import opened ImportTheorems

  // ---- which vectors are reused

  /** A vector of this version for this text is stored with the job. */
  predicate HasVector(s: StoredJob, t: string, version: Version) {
    exists i, a | 0 <= i < |s.requirements| && 0 <= a < |s.requirements[i].vectors| ::
      s.requirements[i].vectors[a].text == t && s.requirements[i].vectors[a].version == version
  }

  lemma {:induction false} RowsAreRead(vs: seq<StoredVector>, t: string)
    ensures t in VectorRows(vs) <==> exists a | 0 <= a < |vs| :: vs[a].text == t
    ensures t in VectorRows(vs) ==> exists a | 0 <= a < |vs| :: vs[a].text == t && vs[a].version == VectorRows(vs)[t].version
  {
    if vs != [] {
      var front := vs[..|vs| - 1];
      RowsAreRead(front, t);
      if t in VectorRows(front) && vs[|vs| - 1].text != t {
        var a :| 0 <= a < |front| && front[a].text == t && front[a].version == VectorRows(front)[t].version;
        assert vs[a] == front[a];
      }
      if a :| 0 <= a < |vs| && vs[a].text == t {
        if a < |front| { assert front[a].text == t; }
      }
      if t in VectorRows(vs) && vs[|vs| - 1].text == t { assert vs[|vs| - 1].version == VectorRows(vs)[t].version; }
    }
  }

  lemma {:induction false} VectorsAreRead(rs: seq<StoredRequirement>, t: string)
    ensures t in VectorsOf(rs) <==> exists i, a | 0 <= i < |rs| && 0 <= a < |rs[i].vectors| :: rs[i].vectors[a].text == t
    ensures t in VectorsOf(rs) ==>
              exists i, a | 0 <= i < |rs| && 0 <= a < |rs[i].vectors| ::
                rs[i].vectors[a].text == t && rs[i].vectors[a].version == VectorsOf(rs)[t].version
  {
    if rs != [] {
      var front, last := rs[..|rs| - 1], rs[|rs| - 1];
      VectorsAreRead(front, t);
      RowsAreRead(last.vectors, t);
      hide VectorRows;
      if t in VectorRows(last.vectors) {
        var a :| 0 <= a < |last.vectors| && last.vectors[a].text == t && last.vectors[a].version == VectorRows(last.vectors)[t].version;
        assert rs[|rs| - 1].vectors[a].text == t;
      } else if t in VectorsOf(front) {
        var i, a :| 0 <= i < |front| && 0 <= a < |front[i].vectors| && front[i].vectors[a].text == t
                    && front[i].vectors[a].version == VectorsOf(front)[t].version;
        assert rs[i] == front[i];
      }
      if i, a :| 0 <= i < |rs| && 0 <= a < |rs[i].vectors| && rs[i].vectors[a].text == t {
        if i < |front| { assert front[i].vectors[a].text == t; }
      }
    }
  }

  lemma CachedIs(w: World, s: StoredJob, t: string, version: Version)
    requires JobOk(w, s)
    ensures IsCached(ExistingOf(s), t, version) <==> HasVector(s, t, version)
  {
    VectorsAreRead(s.requirements, t);
    var stored :| AllEmbeddedBy(w, s.requirements, stored);
    hide VectorsOf, Texts;
    forall i, a | 0 <= i < |s.requirements| && 0 <= a < |s.requirements[i].vectors|
      ensures s.requirements[i].vectors[a].version == stored
    {
      assert EmbeddedBy(w, s.requirements[i], stored);
    }
    if i, a :| 0 <= i < |s.requirements| && 0 <= a < |s.requirements[i].vectors|
               && s.requirements[i].vectors[a].text == t && s.requirements[i].vectors[a].version == version {
      assert t in VectorsOf(s.requirements);
    }
  }

  /** The job is stored with this content, and every text of it is embedded by this version. */
  predicate UpToDate(store: Store, j: JobIn, version: Version) {
    j.key in store.jobs && store.jobs[j.key].content == j
    && forall t | t in TextsOf(j.requirements) :: HasVector(store.jobs[j.key], t, version)
  }

  lemma StatusIs(w: World, store: Store, batch: seq<JobIn>, version: Version, i: nat)
    requires Coherent(w, store) && i < |batch|
    ensures var e := PlanOf(batch, Read(store, KeysOf(batch)), version)[i];
            && e.job == batch[i]
            && e.existing == (if batch[i].key in store.jobs then Some(ExistingOf(store.jobs[batch[i].key])) else None)
            && e.status == (if batch[i].key !in store.jobs then Created else if UpToDate(store, batch[i], version) then Unchanged else Updated)
  {
    FoundInPlan(store, batch, version, i);
    hide HasVector, PlanOf, Read, TextsOf, IsCached, ExistingOf, JobOk;
    var k := batch[i].key;
    if k in store.jobs {
      SameContent(store.jobs[k]);
      forall t ensures IsCached(ExistingOf(store.jobs[k]), t, version) <==> HasVector(store.jobs[k], t, version) {
        CachedIs(w, store.jobs[k], t, version);
      }
    }
  }

  lemma SameContent(s: StoredJob)
    ensures ExistingOf(s).content == s.content && ExistingOf(s).id == s.id
  {
  }

  // ---- which texts are embedded

  /** The texts the entries that are written ask for. */
  function Wanted(plan: seq<Entry>): set<string> {
    set i, t | 0 <= i < |plan| && plan[i].status != Unchanged && t in TextsOf(plan[i].job.requirements) :: t
  }

  /** Those among them that some entry asking for them has already. */
  function Reusable(plan: seq<Entry>, version: Version): set<string> {
    set i, t | 0 <= i < |plan| && plan[i].status != Unchanged && t in TextsOf(plan[i].job.requirements)
               && plan[i].existing.Some? && IsCached(plan[i].existing.value, t, version) :: t
  }

  function Asked(g: Gathered): set<string> {
    set t | t in g.needed
  }

  function TooLong(w: World, g: Gathered): set<string> {
    set t | t in g.needed && !w.fits(t)
  }

  predicate OnceEach(ts: seq<string>) {
    forall i, j | 0 <= i < j < |ts| :: ts[i] != ts[j]
  }

  predicate GatheredFrom(w: World, g: Gathered, wanted: set<string>, reusable: set<string>) {
    && g.reuse.Keys == reusable && Asked(g) + reusable == wanted
    && OnceEach(g.needed)
    && g.issues == |TooLong(w, g)|
  }

  lemma ReusedIs(w: World, g: Gathered, wanted: set<string>, reusable: set<string>, t: string, v: Vector)
    requires GatheredFrom(w, g, wanted, reusable)
    ensures GatheredFrom(w, g.(reuse := g.reuse[t := v]), wanted + {t}, reusable + {t})
  {
    var g' := g.(reuse := g.reuse[t := v]);
    assert TooLong(w, g') == TooLong(w, g) && Asked(g') == Asked(g);
    hide TooLong, Asked;
    assert g'.reuse.Keys == g.reuse.Keys + {t};
  }

  lemma AskedMore(w: World, g: Gathered, g': Gathered, t: string)
    requires g'.needed == g.needed + [t] && t !in g.needed
    ensures Asked(g') == Asked(g) + {t}
    ensures TooLong(w, g') == if w.fits(t) then TooLong(w, g) else TooLong(w, g) + {t}
    ensures t !in TooLong(w, g)
  {
    assert forall x :: x in g'.needed <==> x in g.needed || x == t;
  }

  lemma DistinctMore(ts: seq<string>, t: string)
    requires OnceEach(ts) && t !in ts
    ensures OnceEach(ts + [t])
  {
  }

  lemma AskedIs(w: World, g: Gathered, g': Gathered, wanted: set<string>, reusable: set<string>, t: string)
    requires GatheredFrom(w, g, wanted, reusable) && t !in g.reuse && t !in g.needed
    requires g'.reuse == g.reuse && g'.needed == g.needed + [t] && g'.issues == (if w.fits(t) then g.issues else g.issues + 1)
    ensures GatheredFrom(w, g', wanted + {t}, reusable)
  {
    hide TooLong, Asked, OnceEach;
    AskedMore(w, g, g', t);
    DistinctMore(g.needed, t);
    if w.fits(t) { } else { }
  }

  lemma MeetIs(w: World, g: Gathered, wanted: set<string>, reusable: set<string>, ex: Option<Existing>, t: string, version: Version)
    requires GatheredFrom(w, g, wanted, reusable)
    ensures var cached := ex.Some? && IsCached(ex.value, t, version);
            GatheredFrom(w, Meet(w, g, ex, t, version), wanted + {t}, if cached then reusable + {t} else reusable)
  {
    MetAlready(w, g, wanted, reusable, t);
    if ex.Some? && IsCached(ex.value, t, version) {
      ReusedIs(w, g, wanted, reusable, t, ex.value.vectors[t].vector);
    } else if t !in g.reuse && t !in g.needed {
      AskedIs(w, g, Meet(w, g, ex, t, version), wanted, reusable, t);
    }
    hide GatheredFrom;
  }

  lemma MetAlready(w: World, g: Gathered, wanted: set<string>, reusable: set<string>, t: string)
    requires GatheredFrom(w, g, wanted, reusable)
    ensures t in g.reuse || t in g.needed ==> wanted + {t} == wanted
    ensures t in g.reuse ==> reusable + {t} == reusable
  {
    hide TooLong;
    assert t in g.needed ==> t in Asked(g);
  }

  lemma {:induction false} MeetAllIs(w: World, g: Gathered, wanted: set<string>, reusable: set<string>, ex: Option<Existing>,
                                     ts: seq<string>, version: Version)
    requires GatheredFrom(w, g, wanted, reusable)
    ensures GatheredFrom(w, MeetAll(w, g, ex, ts, version), wanted + (set t | t in ts),
                         reusable + (set t | t in ts && ex.Some? && IsCached(ex.value, t, version)))
  {
    hide GatheredFrom, Meet, IsCached;
    var met, cached := set t | t in ts, set t | t in ts && ex.Some? && IsCached(ex.value, t, version);
    if ts == [] {
      assert wanted + met == wanted && reusable + cached == reusable;
    } else {
      var front, t := ts[..|ts| - 1], ts[|ts| - 1];
      MeetAllIs(w, g, wanted, reusable, ex, front, version);
      var known := reusable + (set x | x in front && ex.Some? && IsCached(ex.value, x, version));
      MeetIs(w, MeetAll(w, g, ex, front, version), wanted + (set x | x in front), known, ex, t, version);
      assert ts == front + [t];
      assert wanted + (set x | x in front) + {t} == wanted + (set x | x in ts);
      assert (if ex.Some? && IsCached(ex.value, t, version) then known + {t} else known)
          == reusable + (set x | x in ts && ex.Some? && IsCached(ex.value, x, version));
    }
  }

  /** What the loop over the plan gathers: exactly the reusable texts are reused, exactly the other wanted ones are asked for,
    * each once, and those over the token limit are counted. */
  lemma {:induction false} GatherIs(w: World, plan: seq<Entry>, version: Version)
    ensures GatheredFrom(w, Gather(w, plan, version), Wanted(plan), Reusable(plan, version))
  {
    hide IsCached, MeetAll, TextsOf;
    if plan == [] {
      assert TooLong(w, Gathered(map[], [], 0)) == {} && Asked(Gathered(map[], [], 0)) == {};
    } else {
      var front, e := plan[..|plan| - 1], plan[|plan| - 1];
      GatherIs(w, front, version);
      WantedMore(plan, version);
      hide GatheredFrom, Wanted, Reusable;
      if e.status != Unchanged {
        MeetAllIs(w, Gather(w, front, version), Wanted(front), Reusable(front, version), e.existing, TextsOf(e.job.requirements), version);
      }
    }
  }

  lemma WantedMore(plan: seq<Entry>, version: Version)
    requires plan != []
    ensures var front, e := plan[..|plan| - 1], plan[|plan| - 1];
            && Wanted(plan) == (if e.status == Unchanged then Wanted(front) else Wanted(front) + (set t | t in TextsOf(e.job.requirements)))
            && Reusable(plan, version) == (if e.status == Unchanged then Reusable(front, version)
                 else Reusable(front, version) + (set t | t in TextsOf(e.job.requirements) && e.existing.Some?
                                                          && IsCached(e.existing.value, t, version)))
  {
    hide IsCached, TextsOf;
    var front, n := plan[..|plan| - 1], |plan| - 1;
    assert forall i | 0 <= i < n :: plan[i] == front[i];
    forall t | t in TextsOf(plan[n].job.requirements) && plan[n].status != Unchanged ensures t in Wanted(plan) { }
    forall t | t in Wanted(front) ensures t in Wanted(plan) {
      var i :| 0 <= i < n && front[i].status != Unchanged && t in TextsOf(front[i].job.requirements);
      assert plan[i] == front[i];
    }
    forall t | t in Reusable(front, version) ensures t in Reusable(plan, version) {
      var i :| 0 <= i < n && front[i].status != Unchanged && t in TextsOf(front[i].job.requirements)
               && front[i].existing.Some? && IsCached(front[i].existing.value, t, version);
      assert plan[i] == front[i];
    }
  }

  // ---- which rows are written

  lemma {:induction false} WrittenRows(store: Store, plan: seq<Entry>, table: map<string, Vector>, version: Version, now: Time, i: nat)
    requires PlanCovered(plan, table) && DistinctEntries(plan) && i < |plan| && plan[i].status != Unchanged
    ensures var r, e := WriteAll(store, plan, table, version, now), plan[i];
            && e.job.key in r.jobs && store.next <= r.next
            && var s := r.jobs[e.job.key];
               && s.content == e.job && s.imported == now
               && (e.existing.Some? ==> s.id == e.existing.value.id) && (e.existing.None? ==> store.next <= s.id)
               && (forall n | 0 <= n < |s.requirements| :: store.next < s.requirements[n].id)
  {
    var n := |plan| - 1;
    var front := plan[..n];
    NextGrows(store, front, table, version, now);
    if i < n {
      assert front[i] == plan[i];
      WrittenRows(store, front, table, version, now, i);
    }
    hide CoversAll, StatusOf;
  }

  lemma {:induction false} NextGrows(store: Store, plan: seq<Entry>, table: map<string, Vector>, version: Version, now: Time)
    requires PlanCovered(plan, table)
    ensures store.next <= WriteAll(store, plan, table, version, now).next
  {
    if plan != [] { NextGrows(store, plan[..|plan| - 1], table, version, now); }
  }

  function WithStatus(plan: seq<Entry>, s: Status): set<nat> {
    set i | 0 <= i < |plan| && plan[i].status == s
  }

  lemma {:induction false} CountIs(plan: seq<Entry>, s: Status)
    ensures CountStatus(plan, s) == |WithStatus(plan, s)|
  {
    if plan == [] {
      assert WithStatus(plan, s) == {};
    } else {
      var n := |plan| - 1;
      CountIs(plan[..n], s);
      assert WithStatus(plan, s) == if plan[n].status == s then WithStatus(plan[..n], s) + {n} else WithStatus(plan[..n], s);
    }
  }

  // ---- one import

  function Outdated(store: Store, batch: seq<JobIn>, version: Version): set<nat> {
    set i | 0 <= i < |batch| && !UpToDate(store, batch[i], version)
  }

  function Current(store: Store, batch: seq<JobIn>, version: Version): set<nat> {
    set i | 0 <= i < |batch| && UpToDate(store, batch[i], version)
  }

  function New(store: Store, batch: seq<JobIn>): set<nat> {
    set i | 0 <= i < |batch| && batch[i].key !in store.jobs
  }

  /** All texts of the outdated jobs. */
  function TextsToStore(store: Store, batch: seq<JobIn>, version: Version): set<string> {
    set i, t | i in Outdated(store, batch, version) && 0 <= i < |batch| && t in TextsOf(batch[i].requirements) :: t
  }

  /** Those that an outdated job in need of them has stored already under this version. */
  function TextsAtHand(store: Store, batch: seq<JobIn>, version: Version): set<string> {
    set i, t | i in Outdated(store, batch, version) && 0 <= i < |batch| && t in TextsOf(batch[i].requirements)
               && batch[i].key in store.jobs && HasVector(store.jobs[batch[i].key], t, version) :: t
  }

  function ThePlan(store: Store, batch: seq<JobIn>, version: Version): seq<Entry> {
    PlanOf(batch, Read(store, KeysOf(batch)), version)
  }

  lemma PlanIs(w: World, store: Store, batch: seq<JobIn>, version: Version)
    requires Coherent(w, store)
    ensures var plan := ThePlan(store, batch, version);
            && |plan| == |batch|
            && (forall i | 0 <= i < |plan| ::
                  && plan[i].job == batch[i]
                  && plan[i].existing == (if batch[i].key in store.jobs then Some(ExistingOf(store.jobs[batch[i].key])) else None)
                  && (plan[i].status == Created <==> i in New(store, batch))
                  && (plan[i].status != Unchanged <==> i in Outdated(store, batch, version)))
  {
    hide HasVector, JobOk, PlanOf, Read, ExistingOf, TextsOf;
    var plan := ThePlan(store, batch, version);
    assert |plan| == |batch| by { PlanLength(store, batch, version); }
    forall i | 0 <= i < |plan|
      ensures plan[i].job == batch[i]
      ensures plan[i].existing == (if batch[i].key in store.jobs then Some(ExistingOf(store.jobs[batch[i].key])) else None)
      ensures plan[i].status == Created <==> i in New(store, batch)
      ensures plan[i].status != Unchanged <==> i in Outdated(store, batch, version)
    {
      StatusIs(w, store, batch, version, i);
    }
  }

  lemma PlanLength(store: Store, batch: seq<JobIn>, version: Version)
    ensures |ThePlan(store, batch, version)| == |batch|
  {
  }

  lemma SetsAre(w: World, store: Store, batch: seq<JobIn>, version: Version)
    requires Coherent(w, store)
    ensures var plan := ThePlan(store, batch, version);
            && Wanted(plan) == TextsToStore(store, batch, version) && Reusable(plan, version) == TextsAtHand(store, batch, version)
            && WithStatus(plan, Created) == New(store, batch)
            && WithStatus(plan, Updated) == Outdated(store, batch, version) - New(store, batch)
            && WithStatus(plan, Unchanged) == Current(store, batch, version)
  {
    PlanIs(w, store, batch, version);
    hide ThePlan, HasVector, JobOk, ExistingOf, TextsOf, IsCached, UpToDate;
    var plan := ThePlan(store, batch, version);
    forall i, t | 0 <= i < |batch| && batch[i].key in store.jobs
      ensures IsCached(ExistingOf(store.jobs[batch[i].key]), t, version) <==> HasVector(store.jobs[batch[i].key], t, version)
    {
      CachedIs(w, store.jobs[batch[i].key], t, version);
    }
  }

  /** Every job that is not up to date is written as the file has it, now, with new requirement rows; a job that was stored
    * before keeps its id, and a new one gets an id of its own. Jobs that are up to date are left alone. */
  lemma JobsAreWritten(w: World, store: Store, jobs: seq<JobIn>, version: Version, now: Time, i: nat)
    requires Coherent(w, store) && Import(w, store, jobs, version, now).1.Imported? && i < |jobs|
    ensures var after, j := Import(w, store, jobs, version, now).0, DedupedJob(w, jobs[i]);
            && j.key in after.jobs
            && (if UpToDate(store, j, version) then j.key in store.jobs && after.jobs[j.key] == store.jobs[j.key]
                else
                  var s := after.jobs[j.key];
                  && s.content == j && s.imported == now
                  && (j.key in store.jobs ==> s.id == store.jobs[j.key].id) && (j.key !in store.jobs ==> store.next <= s.id)
                  && forall n | 0 <= n < |s.requirements| :: store.next < s.requirements[n].id)
  {
    var batch := DedupedBatch(w, jobs);
    var plan := ThePlan(store, batch, version);
    var table := Table(w, Gather(w, plan, version), version);
    ImportedBy(w, store, jobs, version, now);
    PlanKeys(w, jobs, Read(store, KeysOf(batch)), version);
    PlanIs(w, store, batch, version);
    hide Import, Gather, Table, Read, PlanOf, WriteAll, PlanCovered, UpToDate, TextsOf, JobOk, ExistingOf, StoredAs, Deduplicated;
    WriteAllAt(store, plan, table, version, now, batch[i].key);
    if UpToDate(store, batch[i], version) {
      UpToDateIsStored(store, batch[i], version);
      assert forall m | 0 <= m < |plan| && plan[m].job.key == batch[i].key :: m == i;
    } else {
      assert plan[i].status != Unchanged;
      WrittenRows(store, plan, table, version, now, i);
      if batch[i].key in store.jobs { SameContent(store.jobs[batch[i].key]); }
    }
  }

  lemma UpToDateIsStored(store: Store, j: JobIn, version: Version)
    requires UpToDate(store, j, version)
    ensures j.key in store.jobs
  {
  }

  /** What an import reports: new, changed and current jobs, the texts embedded anew and those reused, and the revision, which
    * moves exactly when something is written. A text over the token limit that has to be embedded stops it. */
  lemma ImportReports(w: World, store: Store, jobs: seq<JobIn>, version: Version, now: Time)
    requires Coherent(w, store) && ValidBatch(jobs)
    ensures var batch, (after, r) := DedupedBatch(w, jobs), Import(w, store, jobs, version, now);
            var outdated, new_ := Outdated(store, batch, version), New(store, batch);
            var wanted, reused := TextsToStore(store, batch, version), TextsAtHand(store, batch, version);
            && (r.Imported? || r.TokenIssues?) && (r.TokenIssues? ==> after == store)
            && ((forall t | t in wanted :: w.fits(t)) ==> r.Imported?)
            && ((exists t | t in wanted - reused :: !w.fits(t)) ==> r.TokenIssues?)
            && (r.Imported? ==>
                  && r.created == |new_| && r.updated == |outdated - new_| && r.same == |Current(store, batch, version)|
                  && r.computed == |wanted - reused| && r.reused == |reused|
                  && r.revision == after.revision == store.revision + (if outdated == {} then 0 else 1))
  {
    var batch := DedupedBatch(w, jobs);
    var plan := ThePlan(store, batch, version);
    var g := Gather(w, plan, version);
    LookupsAreDefined(w, plan, version);
    assert Import(w, store, jobs, version, now) == Finish(w, store, store.revision, plan, version, now);
    hide Import, Gather, Table, Read, PlanOf, WriteAll, PlanCovered, UpToDate, TextsOf, JobOk, ExistingOf, DedupedBatch, ThePlan,
         Wanted, Reusable, TextsToStore, TextsAtHand, New, Current, HasVector, WithStatus;
    SetsAre(w, store, batch, version);
    CountIs(plan, Created);
    CountIs(plan, Updated);
    CountIs(plan, Unchanged);
    GatherIs(w, plan, version);
    IssuesAre(w, g, Wanted(plan), Reusable(plan, version));
    WritesWhenOutdated(w, store, batch, version);
    hide Outdated, Writes, GatheredFrom, CountStatus, Computed;
  }

  lemma IssuesAre(w: World, g: Gathered, wanted: set<string>, reusable: set<string>)
    requires GatheredFrom(w, g, wanted, reusable)
    ensures Computed(g) == wanted - reusable && |g.reuse| == |reusable|
    ensures (forall t | t in wanted :: w.fits(t)) ==> g.issues == 0
    ensures (exists t | t in wanted - reusable :: !w.fits(t)) ==> g.issues > 0
  {
    assert |g.reuse| == |g.reuse.Keys|;
    assert forall t | t in Computed(g) :: t in Asked(g);
    if forall t | t in wanted :: w.fits(t) {
      assert forall t | t in TooLong(w, g) :: t in Asked(g);
      assert TooLong(w, g) == {};
    }
    if t :| t in wanted - reusable && !w.fits(t) {
      assert t in Asked(g) && t in TooLong(w, g);
    }
  }

  lemma WritesWhenOutdated(w: World, store: Store, batch: seq<JobIn>, version: Version)
    requires Coherent(w, store)
    ensures Writes(ThePlan(store, batch, version)) <==> Outdated(store, batch, version) != {}
  {
    PlanIs(w, store, batch, version);
    hide ThePlan, UpToDate, JobOk, ExistingOf;
    var plan := ThePlan(store, batch, version);
    if i :| i in Outdated(store, batch, version) {
      assert plan[i].status != Unchanged;
    }
  }
}
