/** Catalogue import (src/backend/app/catalogue/importer.py): plan, reuse of vectors, revision check, write. */
module Importer {
  import opened Wrappers
  import opened Catalogue

  datatype Cached = Cached(vector: Vector, version: Version)

  /** _Existing: a stored job's id, its content (hash) and its vectors by embedded text. */
  datatype Existing = Existing(id: nat, content: JobIn, vectors: map<string, Cached>)

  type Snapshot = map<JobKey, Existing>

  datatype Status = Created | Updated | Unchanged

  datatype Entry = Entry(job: JobIn, existing: Option<Existing>, status: Status)

  datatype Result =
    | Invalid
    | TokenIssues(count: nat)
    | ChangedMeanwhile
    | Imported(created: nat, updated: nat, same: nat, computed: nat, reused: nat, revision: nat)

  // ---- reading

  /** Later rows overwrite earlier ones. */
  function VectorRows(vs: seq<StoredVector>): map<string, Cached> {
    if vs == [] then map[]
    else
      var v := vs[|vs| - 1];
      VectorRows(vs[..|vs| - 1])[v.text := Cached(v.vector, v.version)]
  }

  function VectorsOf(rs: seq<StoredRequirement>): map<string, Cached> {
    if rs == [] then map[] else VectorsOf(rs[..|rs| - 1]) + VectorRows(rs[|rs| - 1].vectors)
  }

  function ExistingOf(job: StoredJob): Existing {
    Existing(job.id, job.content, VectorsOf(job.requirements))
  }

  /** _load_existing */
  function Read(store: Store, keys: set<JobKey>): Snapshot {
    map k | k in keys && k in store.jobs :: ExistingOf(store.jobs[k])
  }

  function KeysOf(jobs: seq<JobIn>): set<JobKey> {
    set i | 0 <= i < |jobs| :: jobs[i].key
  }

  /** What validate_import guarantees and the importer relies on. */
  predicate ValidBatch(jobs: seq<JobIn>) {
    jobs != [] && forall i, j | 0 <= i < j < |jobs| :: jobs[i].key != jobs[j].key
  }

  function DedupedJob(w: World, j: JobIn): JobIn {
    j.(requirements := Deduplicated(w, j.requirements))
  }

  function DedupedBatch(w: World, jobs: seq<JobIn>): (r: seq<JobIn>)
    ensures |r| == |jobs| && forall i | 0 <= i < |r| :: r[i] == DedupedJob(w, jobs[i])
  {
    seq(|jobs|, i requires 0 <= i < |jobs| => DedupedJob(w, jobs[i]))
  }

  // ---- planning

  function TextsOf(rs: seq<Requirement>): seq<string> {
    if rs == [] then [] else TextsOf(rs[..|rs| - 1]) + Texts(rs[|rs| - 1])
  }

  predicate IsCached(ex: Existing, t: string, version: Version) {
    t in ex.vectors && ex.vectors[t].version == version
  }

  function StatusOf(ex: Option<Existing>, j: JobIn, version: Version): Status {
    if ex.None? then Created
    else if ex.value.content == j && (forall t | t in TextsOf(j.requirements) :: IsCached(ex.value, t, version)) then Unchanged
    else Updated
  }

  function Lookup(snap: Snapshot, k: JobKey): Option<Existing> {
    if k in snap then Some(snap[k]) else None
  }

  function EntryOf(snap: Snapshot, j: JobIn, version: Version): Entry {
    Entry(j, Lookup(snap, j.key), StatusOf(Lookup(snap, j.key), j, version))
  }

  function PlanOf(jobs: seq<JobIn>, snap: Snapshot, version: Version): (plan: seq<Entry>)
    ensures |plan| == |jobs| && forall i | 0 <= i < |plan| :: plan[i] == EntryOf(snap, jobs[i], version)
  {
    seq(|jobs|, i requires 0 <= i < |jobs| => EntryOf(snap, jobs[i], version))
  }

  function CountStatus(plan: seq<Entry>, s: Status): nat {
    if plan == [] then 0
    else CountStatus(plan[..|plan| - 1], s) + (if plan[|plan| - 1].status == s then 1 else 0)
  }

  // ---- vectors

  /** The vectors to reuse, and the texts still to embed, in the order met; `issues` of them exceed the token limit. */
  datatype Gathered = Gathered(reuse: map<string, Vector>, needed: seq<string>, issues: nat)

  function Meet(w: World, g: Gathered, ex: Option<Existing>, t: string, version: Version): Gathered {
    if ex.Some? && IsCached(ex.value, t, version) then
      if t in g.reuse then g else g.(reuse := g.reuse[t := ex.value.vectors[t].vector])
    else if t !in g.reuse && t !in g.needed then
      g.(needed := g.needed + [t], issues := g.issues + if w.fits(t) then 0 else 1)
    else g
  }

  function MeetAll(w: World, g: Gathered, ex: Option<Existing>, ts: seq<string>, version: Version): Gathered {
    if ts == [] then g else Meet(w, MeetAll(w, g, ex, ts[..|ts| - 1], version), ex, ts[|ts| - 1], version)
  }

  function Gather(w: World, plan: seq<Entry>, version: Version): Gathered {
    if plan == [] then Gathered(map[], [], 0)
    else
      var g, e := Gather(w, plan[..|plan| - 1], version), plan[|plan| - 1];
      if e.status == Unchanged then g else MeetAll(w, g, e.existing, TextsOf(e.job.requirements), version)
  }

  /** The texts that are embedded anew: those needed that have not turned up for reuse meanwhile. */
  function Computed(g: Gathered): set<string> {
    set t | t in g.needed && t !in g.reuse
  }

  function Table(w: World, g: Gathered, version: Version): map<string, Vector> {
    g.reuse + (map t | t in Computed(g) :: w.embed(version, t))
  }

  // ---- writing

  predicate Covers(table: map<string, Vector>, ts: seq<string>) {
    forall i | 0 <= i < |ts| :: ts[i] in table
  }

  function VectorsFor(ts: seq<string>, table: map<string, Vector>, version: Version): (vs: seq<StoredVector>)
    requires Covers(table, ts)
    ensures |vs| == |ts| && forall i | 0 <= i < |vs| :: vs[i] == StoredVector(ts[i], table[ts[i]], version)
  {
    seq(|ts|, i requires 0 <= i < |ts| => StoredVector(ts[i], table[ts[i]], version))
  }

  predicate CoversAll(table: map<string, Vector>, rs: seq<Requirement>) {
    forall i | 0 <= i < |rs| :: Covers(table, Texts(rs[i]))
  }

  function RowsFor(rs: seq<Requirement>, table: map<string, Vector>, version: Version, base: nat): (r: seq<StoredRequirement>)
    requires CoversAll(table, rs)
    ensures |r| == |rs|
    ensures forall i | 0 <= i < |r| :: r[i] == StoredRequirement(base + i, rs[i], VectorsFor(Texts(rs[i]), table, version))
  {
    seq(|rs|, i requires 0 <= i < |rs| => StoredRequirement(base + i, rs[i], VectorsFor(Texts(rs[i]), table, version)))
  }

  /** One pass of the write loop: a new row, or the fields and requirements of the row found when planning. */
  function Written(store: Store, e: Entry, table: map<string, Vector>, version: Version, now: Time): Store
    requires e.status != Unchanged ==> CoversAll(table, e.job.requirements)
  {
    if e.status == Unchanged then store
    else
      var id := if e.existing.Some? then e.existing.value.id else store.next;
      store.(jobs := store.jobs[e.job.key :=
               StoredJob(id, e.job, now, RowsFor(e.job.requirements, table, version, store.next + 1))],
             next := store.next + 1 + |e.job.requirements|)
  }

  predicate PlanCovered(plan: seq<Entry>, table: map<string, Vector>) {
    forall i | 0 <= i < |plan| :: plan[i].status != Unchanged ==> CoversAll(table, plan[i].job.requirements)
  }

  function WriteAll(store: Store, plan: seq<Entry>, table: map<string, Vector>, version: Version, now: Time): (r: Store)
    requires PlanCovered(plan, table)
    ensures r.revision == store.revision
  {
    if plan == [] then store
    else Written(WriteAll(store, plan[..|plan| - 1], table, version, now), plan[|plan| - 1], table, version, now)
  }

  predicate Writes(plan: seq<Entry>) {
    exists i | 0 <= i < |plan| :: plan[i].status != Unchanged
  }

  // ---- every lookup while writing is defined

  lemma {:induction false} MeetAllCovers(w: World, g: Gathered, ex: Option<Existing>, ts: seq<string>, version: Version)
    ensures var r := MeetAll(w, g, ex, ts, version);
            && (forall t | t in ts :: t in r.reuse || t in r.needed)
            && (forall t | t in g.reuse :: t in r.reuse && r.reuse[t] == g.reuse[t])
            && (forall t | t in g.needed :: t in r.needed)
            && (forall t | t in r.reuse :: t in g.reuse || (ex.Some? && IsCached(ex.value, t, version) && r.reuse[t] == ex.value.vectors[t].vector))
  {
    if ts != [] {
      MeetAllCovers(w, g, ex, ts[..|ts| - 1], version);
      assert forall t | t in ts :: t in ts[..|ts| - 1] || t == ts[|ts| - 1];
    }
  }

  lemma {:induction false} TextsIncluded(rs: seq<Requirement>, i: nat)
    requires i < |rs|
    ensures forall t | t in Texts(rs[i]) :: t in TextsOf(rs)
  {
    var front := rs[..|rs| - 1];
    if i < |front| {
      TextsIncluded(front, i);
      assert front[i] == rs[i];
    }
  }

  lemma {:induction false} TextsFrom(rs: seq<Requirement>, t: string)
    requires t in TextsOf(rs)
    ensures exists i | 0 <= i < |rs| :: t in Texts(rs[i])
  {
    var front := rs[..|rs| - 1];
    if t in TextsOf(front) {
      TextsFrom(front, t);
      var i :| 0 <= i < |front| && t in Texts(front[i]);
      assert t in Texts(rs[i]);
    }
  }

  lemma CoveredJob(table: map<string, Vector>, rs: seq<Requirement>)
    requires forall t | t in TextsOf(rs) :: t in table
    ensures CoversAll(table, rs)
  {
    forall i | 0 <= i < |rs| ensures Covers(table, Texts(rs[i])) { TextsIncluded(rs, i); }
  }

  lemma {:induction false} GatherCovers(w: World, plan: seq<Entry>, version: Version, i: nat)
    requires i < |plan| && plan[i].status != Unchanged
    ensures var r := Gather(w, plan, version);
            forall t | t in TextsOf(plan[i].job.requirements) :: t in r.reuse || t in r.needed
  {
    var front, e := plan[..|plan| - 1], plan[|plan| - 1];
    var g := Gather(w, front, version);
    MeetAllCovers(w, g, e.existing, TextsOf(e.job.requirements), version);
    if i < |front| {
      GatherCovers(w, front, version, i);
      assert front[i] == plan[i];
    }
  }

  /** Every text that is written has a vector: the lookups of the write loop never fail. */
  lemma LookupsAreDefined(w: World, plan: seq<Entry>, version: Version)
    ensures PlanCovered(plan, Table(w, Gather(w, plan, version), version))
  {
    var g := Gather(w, plan, version);
    forall i | 0 <= i < |plan| && plan[i].status != Unchanged
      ensures CoversAll(Table(w, g, version), plan[i].job.requirements)
    {
      GatherCovers(w, plan, version, i);
      CoveredJob(Table(w, g, version), plan[i].job.requirements);
    }
  }

  // ---- one import

  /** The second half of import_catalogue: from the plan to the commit or its refusal. */
  function Finish(w: World, store: Store, planned: nat, plan: seq<Entry>, version: Version, now: Time): (Store, Result) {
    var g := Gather(w, plan, version);
    if g.issues > 0 then (store, TokenIssues(g.issues))
    else if store.revision != planned then (store, ChangedMeanwhile)
    else
      LookupsAreDefined(w, plan, version);
      var after := WriteAll(store, plan, Table(w, g, version), version, now);
      var revision := if Writes(plan) then store.revision + 1 else store.revision;
      (after.(revision := revision),
       Imported(CountStatus(plan, Created), CountStatus(plan, Updated), CountStatus(plan, Unchanged), |Computed(g)|, |g.reuse|, revision))
  }

  /** An import that nobody interferes with. */
  function Import(w: World, store: Store, jobs: seq<JobIn>, version: Version, now: Time): (Store, Result) {
    if !ValidBatch(jobs) then (store, Invalid)
    else
      var batch := DedupedBatch(w, jobs);
      Finish(w, store, store.revision, PlanOf(batch, Read(store, KeysOf(batch)), version), version, now)
  }
}
