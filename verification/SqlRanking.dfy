/** The ranking query of src/backend/app/matching/sql.py, one common table expression after the other. */
module SqlRanking {
  import opened Wrappers
  import opened Catalogue
  import opened Scoring

  /** The optional filters of the query. */
  datatype Filter = Filter(jobIds: Option<set<nat>>, jobTypes: Option<set<nat>>, employmentTimes: Option<set<nat>>,
                           workArrangements: Option<set<nat>>)

  predicate Allows(f: Option<set<nat>>, x: nat) {
    f.None? || x in f.value
  }

  /** cand */
  predicate Candidate(store: Store, f: Filter, k: JobKey) {
    k in store.jobs
    && var s := store.jobs[k];
       && s.content.details.active && Allows(f.jobIds, s.id) && Allows(f.jobTypes, s.content.details.jobType)
       && Allows(f.employmentTimes, s.content.details.employmentTime)
       && Allows(f.workArrangements, s.content.details.workArrangement)
  }

  /** The stored catalogue, the filters, the embedding version and the user's chunk vectors. */
  datatype Query = Query(store: Store, filter: Filter, version: Version, chunks: set<Vector>)

  datatype ReqRow = ReqRow(job: nat, requirement: nat, expected: nat)

  datatype EmbRow = EmbRow(requirement: nat, index: nat, vector: Vector)

  /** GREATEST(jsonb_array_length(alternatives), 1) */
  function Expected(r: Requirement): nat {
    if |r.alternatives| > 1 then |r.alternatives| else 1
  }

  /** req */
  function ReqTable(q: Query): set<ReqRow> {
    set k, i | k in q.store.jobs && Candidate(q.store, q.filter, k) && 0 <= i < |q.store.jobs[k].requirements|
               && q.store.jobs[k].requirements[i].row.importance == Required ::
      ReqRow(q.store.jobs[k].id, q.store.jobs[k].requirements[i].id, Expected(q.store.jobs[k].requirements[i].row))
  }

  /** requirement_embeddings WHERE embedding_version = :embedding_version */
  function EmbTable(q: Query): set<EmbRow> {
    set k, i, a | k in q.store.jobs && 0 <= i < |q.store.jobs[k].requirements|
                  && 0 <= a < |q.store.jobs[k].requirements[i].vectors|
                  && q.store.jobs[k].requirements[i].vectors[a].version == q.version ::
      EmbRow(q.store.jobs[k].requirements[i].id, a, q.store.jobs[k].requirements[i].vectors[a].vector)
  }

  /** The similarities of one group of alt_best. */
  function Sims(q: Query, sim: (Vector, Vector) -> real, requirement: nat, index: nat): set<real> {
    set e, c | e in EmbTable(q) && c in q.chunks && e.requirement == requirement && e.index == index :: sim(e.vector, c)
  }

  /** The groups of alt_best that exist for a requirement. */
  function Alternatives(q: Query, requirement: nat): set<nat> {
    set e, c | e in EmbTable(q) && c in q.chunks && e.requirement == requirement :: e.index
  }

  predicate IsMax(s: set<real>, m: real) {
    m in s && forall x | x in s :: x <= m
  }

  lemma Pick<T>(s: set<T>) returns (x: T)
    requires s != {}
    ensures x in s
  {
    x :| x in s;
  }

  lemma {:induction false} MaxExists(s: set<real>)
    requires s != {}
    ensures exists m :: IsMax(s, m)
  {
    var x := Pick(s);
    if s == {x} {
      assert IsMax(s, x);
    } else {
      MaxExists(s - {x});
      var m :| IsMax(s - {x}, m);
      assert forall y | y in s :: y == x || y in s - {x};
      assert IsMax(s, if x > m then x else m);
    }
  }

  /** MAX(...) */
  ghost function Max(s: set<real>): (m: real)
    requires s != {}
    ensures IsMax(s, m)
  {
    MaxExists(s);
    var m :| IsMax(s, m);
    m
  }

  /** alt_best.sim, MAX over the group; a group that does not exist has no similarities. */
  ghost function AltBest(q: Query, sim: (Vector, Vector) -> real, requirement: nat, index: nat): real {
    if Sims(q, sim, requirement, index) == {} then 0.0 else Max(Sims(q, sim, requirement, index))
  }

  /** req_score.have_alts */
  function HaveAlts(q: Query, requirement: nat): nat {
    |Alternatives(q, requirement)|
  }

  /** req_score.score, MAX over the alternatives; NULL (here 0) when there are none. */
  ghost function ReqScore(q: Query, sim: (Vector, Vector) -> real, requirement: nat): real {
    if AltBests(q, sim, requirement) == {} then 0.0 else Max(AltBests(q, sim, requirement))
  }

  ghost function AltBests(q: Query, sim: (Vector, Vector) -> real, requirement: nat): set<real> {
    set i | i in Alternatives(q, requirement) :: AltBest(q, sim, requirement, i)
  }

  /** The rows of one GROUP BY job_id. */
  function RowsOf(q: Query, job: nat): set<ReqRow> {
    set r | r in ReqTable(q) && r.job == job
  }

  ghost function SumOf(q: Query, sim: (Vector, Vector) -> real, rows: set<ReqRow>): real {
    if rows == {} then 0.0
    else
      var r :| r in rows;
      ReqScore(q, sim, r.requirement) + SumOf(q, sim, rows - {r})
  }

  lemma {:induction false} SumWithout(q: Query, sim: (Vector, Vector) -> real, rows: set<ReqRow>, x: ReqRow)
    requires x in rows
    ensures SumOf(q, sim, rows) == ReqScore(q, sim, x.requirement) + SumOf(q, sim, rows - {x})
  {
    hide ReqScore;
    var r :| r in rows && SumOf(q, sim, rows) == ReqScore(q, sim, r.requirement) + SumOf(q, sim, rows - {r});
    if r != x {
      SumWithout(q, sim, rows - {r}, x);
      SumWithout(q, sim, rows - {x}, r);
      assert rows - {r} - {x} == rows - {x} - {r};
    }
  }

  /** HAVING BOOL_AND(have_alts = expected_alts) */
  predicate Complete(q: Query, job: nat) {
    forall r | r in RowsOf(q, job) :: HaveAlts(q, r.requirement) == r.expected
  }

  function JobsOf(q: Query): set<nat> {
    set r | r in ReqTable(q) :: r.job
  }

  /** job_score: AVG over the job's requirements. */
  ghost function JobScores(q: Query, sim: (Vector, Vector) -> real): set<JobMatch> {
    set j | j in JobsOf(q) && Complete(q, j) ::
      JobMatch(j, SumOf(q, sim, RowsOf(q, j)) / (|RowsOf(q, j)| as real))
  }

  /** What the statement returns: the ordered page, with the size of the whole ranking in every row. */
  datatype Answer = Answer(rows: seq<JobMatch>, total: nat, considered: nat)

  function Select(ranking: seq<JobMatch>, considered: nat, limit: nat, offset: nat): Answer {
    Answer(Page(ranking, limit, offset), |ranking|, considered)
  }

  datatype SqlPage = SqlPage(rows: seq<JobMatch>, total: nat, omitted: nat)

  /** rank_jobs_sql: the totals come with the first row, so an empty page past the start is probed once more. */
  function RankPage(ranking: seq<JobMatch>, considered: nat, limit: nat, offset: nat): SqlPage {
    var first := Select(ranking, considered, limit, offset);
    var probe := if first.rows == [] && offset > 0 then Select(ranking, considered, 1, 0) else first;
    var total := if probe.rows != [] then probe.total else 0;
    SqlPage(first.rows, total, if considered > total then considered - total else 0)
  }
}
