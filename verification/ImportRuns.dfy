/** Importers that run at the same time: revision, jobs and vectors are read in three statements, the plan is made
  * outside any transaction, and the commit rechecks the revision. Every run equals a serial one.
  */
module ImportRuns {
  import opened Wrappers
  import opened Catalogue
  import opened Importer
  import opened ImportTheorems

  /** A job row as the first query of _load_existing returns it. */
  datatype Row = Row(id: nat, content: JobIn)

  datatype Phase =
    | Started(planned: nat)
    | SawJobs(planned: nat, found: map<JobKey, Row>)
    | SawVectors(planned: nat, snap: Snapshot)

  datatype Running = Running(jobs: seq<JobIn>, version: Version, phase: Phase)

  datatype Committed = Committed(jobs: seq<JobIn>, version: Version, now: Time)

  datatype State = State(store: Store, running: map<nat, Running>, done: seq<Committed>)

  datatype Action =
    | Begin(importer: nat, jobs: seq<JobIn>, version: Version)
    | SeeJobs(importer: nat)
    | SeeVectors(importer: nat)
    | Commit(importer: nat, now: Time)

  function Batch(w: World, r: Running): seq<JobIn> {
    DedupedBatch(w, r.jobs)
  }

  function RowsFound(store: Store, keys: set<JobKey>): map<JobKey, Row> {
    map k | k in keys && k in store.jobs :: Row(store.jobs[k].id, store.jobs[k].content)
  }

  /** The second query adds whatever vectors those rows have by then. */
  function WithVectors(store: Store, found: map<JobKey, Row>): Snapshot {
    map k | k in found ::
      Existing(found[k].id, found[k].content, if k in store.jobs then VectorsOf(store.jobs[k].requirements) else map[])
  }

  predicate Enabled(s: State, a: Action) {
    match a
    case Begin(i, jobs, _) => i !in s.running && ValidBatch(jobs)
    case SeeJobs(i) => i in s.running && s.running[i].phase.Started?
    case SeeVectors(i) => i in s.running && s.running[i].phase.SawJobs?
    case Commit(i, _) => i in s.running && s.running[i].phase.SawVectors?
  }

  function CommitResult(w: World, s: State, i: nat, now: Time): (Store, Result)
    requires Enabled(s, Commit(i, now))
  {
    var r := s.running[i];
    Finish(w, s.store, r.phase.planned, PlanOf(Batch(w, r), r.phase.snap, r.version), r.version, now)
  }

  function Effect(w: World, s: State, a: Action): State
    requires Enabled(s, a)
  {
    match a
    case Begin(i, jobs, version) => s.(running := s.running[i := Running(jobs, version, Started(s.store.revision))])
    case SeeJobs(i) =>
      var r := s.running[i];
      s.(running := s.running[i := r.(phase := SawJobs(r.phase.planned, RowsFound(s.store, KeysOf(Batch(w, r)))))])
    case SeeVectors(i) =>
      var r := s.running[i];
      s.(running := s.running[i := r.(phase := SawVectors(r.phase.planned, WithVectors(s.store, r.phase.found)))])
    case Commit(i, now) =>
      var (store, result) := CommitResult(w, s, i, now);
      State(store, s.running - {i},
            if result.Imported? then s.done + [Committed(s.running[i].jobs, s.running[i].version, now)] else s.done)
  }

  ghost predicate IsRun(w: World, states: seq<State>, actions: seq<Action>) {
    && |states| == |actions| + 1 && states[0].running == map[] && states[0].done == []
    && (forall i | 0 <= i < |actions| :: Enabled(states[i], actions[i]) && states[i + 1] == Effect(w, states[i], actions[i]))
  }

  /** The imports of a list, one after the other. */
  function Replay(w: World, store: Store, done: seq<Committed>): Store {
    if done == [] then store
    else
      var c := done[|done| - 1];
      Import(w, Replay(w, store, done[..|done| - 1]), c.jobs, c.version, c.now).0
  }

  /** What an importer has read is what the tables hold, as long as the revision has not moved. */
  predicate ReadOk(w: World, store: Store, r: Running) {
    && ValidBatch(r.jobs) && r.phase.planned <= store.revision
    && (r.phase.planned == store.revision ==>
          match r.phase
          case Started(_) => true
          case SawJobs(_, found) => found == RowsFound(store, KeysOf(Batch(w, r)))
          case SawVectors(_, snap) => snap == Read(store, KeysOf(Batch(w, r))))
  }

  ghost predicate StateOk(w: World, initial: Store, s: State) {
    && s.store == Replay(w, initial, s.done)
    && (forall i | i in s.running :: ReadOk(w, s.store, s.running[i]))
  }

  /** A commit at the planning revision is the undisturbed import. */
  lemma CommitIsImport(w: World, s: State, i: nat, now: Time)
    requires Enabled(s, Commit(i, now)) && ReadOk(w, s.store, s.running[i])
    requires s.running[i].phase.planned == s.store.revision
    ensures CommitResult(w, s, i, now) == Import(w, s.store, s.running[i].jobs, s.running[i].version, now)
  {
    hide Finish, PlanOf, Read, DedupedBatch;
  }

  /** A commit writes only at the planning revision, and whatever writes moves the revision. */
  lemma CommitMovesRevision(w: World, s: State, i: nat, now: Time)
    requires Enabled(s, Commit(i, now))
    ensures var (store, result) := CommitResult(w, s, i, now);
            && (result.Imported? ==> s.running[i].phase.planned == s.store.revision)
            && (!result.Imported? ==> store == s.store)
            && s.store.revision <= store.revision && (store.revision == s.store.revision ==> store == s.store)
  {
    var r := s.running[i];
    var plan := PlanOf(Batch(w, r), r.phase.snap, r.version);
    LookupsAreDefined(w, plan, r.version);
    hide PlanOf, Gather, Table, DedupedBatch;
    UnwrittenSame(s.store, plan, Table(w, Gather(w, plan, r.version), r.version), r.version, now);
  }

  lemma {:induction false} UnwrittenSame(store: Store, plan: seq<Entry>, table: map<string, Vector>, version: Version, now: Time)
    requires PlanCovered(plan, table)
    ensures WriteAll(store, plan, table, version, now).revision == store.revision
    ensures !Writes(plan) ==> WriteAll(store, plan, table, version, now) == store
  {
    if plan != [] {
      var front := plan[..|plan| - 1];
      UnwrittenSame(store, front, table, version, now);
      if !Writes(plan) {
        assert plan[|plan| - 1].status == Unchanged;
        assert forall i | 0 <= i < |front| :: front[i] == plan[i];
      }
      hide CoversAll;
    }
  }

  lemma SnapshotComplete(w: World, store: Store, keys: set<JobKey>)
    ensures WithVectors(store, RowsFound(store, keys)) == Read(store, keys)
  {
    hide VectorsOf;
  }

  lemma StepKeeps(w: World, initial: Store, s: State, a: Action)
    requires StateOk(w, initial, s) && Enabled(s, a)
    ensures StateOk(w, initial, Effect(w, s, a))
  {
    var s' := Effect(w, s, a);
    match a
    case Begin(i, jobs, version) => hide DedupedBatch, Replay;
    case SeeJobs(i) => hide DedupedBatch, Replay, Read;
    case SeeVectors(i) =>
      SnapshotComplete(w, s.store, KeysOf(Batch(w, s.running[i])));
      hide DedupedBatch, Replay, Read, WithVectors, RowsFound;
    case Commit(i, now) =>
      var r := s.running[i];
      CommitMovesRevision(w, s, i, now);
      assert ReadOk(w, s.store, r);
      hide CommitResult, DedupedBatch, Read, RowsFound, Import;
      var (store, result) := CommitResult(w, s, i, now);
      if result.Imported? {
        CommitIsImport(w, s, i, now);
        assert s'.done[..|s'.done| - 1] == s.done;
      }
      forall j | j in s'.running ensures ReadOk(w, s'.store, s'.running[j]) { assert ReadOk(w, s.store, s.running[j]); }
  }

  lemma {:induction false} RunKeeps(w: World, states: seq<State>, actions: seq<Action>, i: nat)
    requires IsRun(w, states, actions) && i < |states|
    ensures StateOk(w, states[0].store, states[i])
  {
    hide StateOk, Enabled, Effect;
    if i == 0 {
      StartOk(w, states[0]);
    } else {
      RunKeeps(w, states, actions, i - 1);
      StepKeeps(w, states[0].store, states[i - 1], actions[i - 1]);
    }
  }

  lemma StartOk(w: World, s: State)
    requires s.running == map[] && s.done == []
    ensures StateOk(w, s.store, s)
  {
  }

  /** Any interleaving of importers leaves what the committed ones leave when run one after the other. */
  lemma ImportsAreSerialisable(w: World, states: seq<State>, actions: seq<Action>, i: nat)
    requires IsRun(w, states, actions) && i < |states|
    ensures states[i].store == Replay(w, states[0].store, states[i].done)
  {
    hide IsRun;
    RunKeeps(w, states, actions, i);
    hide Replay;
  }

  /** An import that writes applies its plan to exactly the catalogue it was planned against. */
  lemma WrittenAsPlanned(w: World, states: seq<State>, actions: seq<Action>, i: nat, importer: nat, now: Time)
    requires IsRun(w, states, actions) && i < |actions| && actions[i] == Commit(importer, now)
    requires states[i + 1].store != states[i].store
    ensures var r := states[i].running[importer];
            && importer in states[i].running && r.phase.SawVectors?
            && r.phase.planned == states[i].store.revision && r.phase.snap == Read(states[i].store, KeysOf(Batch(w, r)))
            && states[i + 1].store.revision == states[i].store.revision + 1
  {
    RunKeeps(w, states, actions, i);
    assert Enabled(states[i], actions[i]) && states[i + 1] == Effect(w, states[i], actions[i]);
    CommitMovesRevision(w, states[i], importer, now);
    hide IsRun, Replay, DedupedBatch, Read, WriteAll, PlanOf, Gather, Table;
    assert ReadOk(w, states[i].store, states[i].running[importer]);
  }

  /** Every catalogue that imports have built from nothing is coherent and has distinct identifiers. */
  lemma {:induction false} ReplayedIsProduced(w: World, store: Store, done: seq<Committed>)
    requires Coherent(w, store) && IdsOk(store)
    ensures Coherent(w, Replay(w, store, done)) && IdsOk(Replay(w, store, done))
  {
    if done != [] {
      var c := done[|done| - 1];
      ReplayedIsProduced(w, store, done[..|done| - 1]);
      hide Coherent, IdsOk, Import;
      ImportKeepsCoherence(w, Replay(w, store, done[..|done| - 1]), c.jobs, c.version, c.now);
      ImportKeepsIds(w, Replay(w, store, done[..|done| - 1]), c.jobs, c.version, c.now);
    }
  }

  lemma CataloguesAreProduced(w: World, states: seq<State>, actions: seq<Action>, i: nat)
    requires IsRun(w, states, actions) && i < |states| && states[0].store == Store(0, map[], 0)
    ensures Coherent(w, states[i].store) && IdsOk(states[i].store)
  {
    ImportsAreSerialisable(w, states, actions, i);
    assert Coherent(w, states[0].store) && IdsOk(states[0].store);
    hide *;
    ReplayedIsProduced(w, states[0].store, states[i].done);
  }
}
