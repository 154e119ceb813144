/** The in-memory ranking: src/backend/app/catalogue/loader.py and src/backend/app/matching/scoring.py. */
module Scoring {
  import opened Wrappers
  import opened Catalogue

  /** Similarities are reals; `round` is the rounding to SCORE_TIE_DECIMALS shared with the SQL ranking. */
  datatype Measure = Measure(sim: (Vector, Vector) -> real, round: real -> real)

  datatype RequirementVectors = RequirementVectors(id: nat, importance: Importance, text: string,
                                                   alternatives: seq<string>, vectors: seq<Vector>)

  datatype JobVectors = JobVectors(jobId: nat, requirements: seq<RequirementVectors>)

  datatype JobMatch = JobMatch(jobId: nat, score: real)

  datatype Scored = Match(m: JobMatch) | NoRequired | Incomplete

  // ---- loader.py

  /** The vectors of one requirement that are stored under the version, in the order of their alternatives. */
  function Got(vs: seq<StoredVector>, version: Version): seq<Vector> {
    if vs == [] then []
    else Got(vs[..|vs| - 1], version) + (if vs[|vs| - 1].version == version then [vs[|vs| - 1].vector] else [])
  }

  /** Stored vectors beyond the alternatives are not looked at. */
  function Relevant(r: StoredRequirement): seq<StoredVector> {
    r.vectors[..if |r.vectors| <= |Texts(r.row)| then |r.vectors| else |Texts(r.row)|]
  }

  function LoadRequirement(r: StoredRequirement, version: Version): RequirementVectors {
    RequirementVectors(r.id, r.row.importance, r.row.text, Texts(r.row), Got(Relevant(r), version))
  }

  function LoadJob(s: StoredJob, version: Version): (j: JobVectors)
    ensures j.jobId == s.id && |j.requirements| == |s.requirements|
    ensures forall i | 0 <= i < |s.requirements| :: j.requirements[i] == LoadRequirement(s.requirements[i], version)
  {
    JobVectors(s.id, seq(|s.requirements|, i requires 0 <= i < |s.requirements| => LoadRequirement(s.requirements[i], version)))
  }

  /** The entry of `emb` for a requirement: its vectors of the version by alternative index. */
  function ByIndex(vs: seq<StoredVector>, version: Version): (r: map<nat, Vector>)
    ensures forall a: nat :: a in r <==> a < |vs| && vs[a].version == version
    ensures forall a | a in r :: r[a] == vs[a].vector
  {
    if vs == [] then map[]
    else
      var n := |vs| - 1;
      if vs[n].version == version then ByIndex(vs[..n], version)[n := vs[n].vector] else ByIndex(vs[..n], version)
  }

  /** `emb` is filled from the embedding rows, and then read for each requirement in turn. */
  method LoadRequirements(rs: seq<StoredRequirement>, version: Version) returns (loaded: seq<RequirementVectors>)
    requires forall i, j | 0 <= i < j < |rs| :: rs[i].id != rs[j].id
    ensures |loaded| == |rs| && forall i | 0 <= i < |rs| :: loaded[i] == LoadRequirement(rs[i], version)
  {
    var emb: map<nat, map<nat, Vector>> := map[];
    for n := 0 to |rs|
      invariant forall i | 0 <= i < n :: rs[i].id in emb && emb[rs[i].id] == ByIndex(rs[i].vectors, version)
    {
      var vs := rs[n].vectors;
      var row: map<nat, Vector> := map[];
      for a := 0 to |vs|
        invariant row == ByIndex(vs[..a], version)
      {
        assert vs[..a + 1][..a] == vs[..a];
        if vs[a].version == version { row := row[a := vs[a].vector]; }
      }
      assert vs[..|vs|] == vs;
      emb := emb[rs[n].id := row];
    }
    loaded := [];
    for n := 0 to |rs|
      invariant |loaded| == n && forall i | 0 <= i < n :: loaded[i] == LoadRequirement(rs[i], version)
    {
      var texts := Texts(rs[n].row);
      var got := GotFrom(rs[n], emb[rs[n].id], version);
      loaded := loaded + [RequirementVectors(rs[n].id, rs[n].row.importance, rs[n].row.text, texts, got)];
    }
  }

  method GotFrom(r: StoredRequirement, row: map<nat, Vector>, version: Version) returns (got: seq<Vector>)
    requires row == ByIndex(r.vectors, version)
    ensures got == Got(Relevant(r), version)
  {
    got := [];
    var vs := Relevant(r);
    assert vs[..0] == [];
    for i := 0 to |Texts(r.row)|
      invariant got == Got(vs[..if i <= |vs| then i else |vs|], version)
    {
      if i < |vs| { assert vs[..i + 1][..i] == vs[..i]; }
      if i in row { got := got + [row[i]]; }
    }
    assert vs[..|vs|] == vs;
  }

  // ---- requirement_match

  /** Some alternative and chunk are this similar, and none are more similar. */
  predicate IsBest(sim: (Vector, Vector) -> real, vectors: seq<Vector>, chunks: seq<Vector>, x: real) {
    && (exists a, c | 0 <= a < |vectors| && 0 <= c < |chunks| :: sim(vectors[a], chunks[c]) == x)
    && (forall a, c | 0 <= a < |vectors| && 0 <= c < |chunks| :: sim(vectors[a], chunks[c]) <= x)
  }

  function BestOfRow(sim: (Vector, Vector) -> real, v: Vector, chunks: seq<Vector>): (x: real)
    requires chunks != []
    ensures exists c | 0 <= c < |chunks| :: sim(v, chunks[c]) == x
    ensures forall c | 0 <= c < |chunks| :: sim(v, chunks[c]) <= x
  {
    var n := |chunks| - 1;
    if n == 0 then sim(v, chunks[0])
    else
      var x := BestOfRow(sim, v, chunks[..n]);
      assert forall c | 0 <= c < n :: chunks[..n][c] == chunks[c];
      if sim(v, chunks[n]) > x then sim(v, chunks[n]) else x
  }

  function Best(sim: (Vector, Vector) -> real, vectors: seq<Vector>, chunks: seq<Vector>): (x: real)
    requires vectors != [] && chunks != []
    ensures IsBest(sim, vectors, chunks, x)
  {
    var n := |vectors| - 1;
    var row := BestOfRow(sim, vectors[n], chunks);
    if n == 0 then row
    else
      var x := Best(sim, vectors[..n], chunks);
      assert forall a | 0 <= a < n :: vectors[..n][a] == vectors[a];
      if row > x then row else x
  }

  lemma BestIsUnique(sim: (Vector, Vector) -> real, vectors: seq<Vector>, chunks: seq<Vector>, x: real, y: real)
    requires IsBest(sim, vectors, chunks, x) && IsBest(sim, vectors, chunks, y)
    ensures x == y
  {
  }

  /** Earlier in row-major order. */
  predicate Earlier(a: nat, c: nat, b: nat, d: nat) {
    a < b || (a == b && c < d)
  }

  /** argmax over the flattened matrix: the best similarity, at its first position in row-major order. */
  method RequirementMatch(sim: (Vector, Vector) -> real, vectors: seq<Vector>, chunks: seq<Vector>)
    returns (alternative: nat, chunk: nat, score: real)
    requires vectors != [] && chunks != []
    ensures alternative < |vectors| && chunk < |chunks| && score == sim(vectors[alternative], chunks[chunk])
    ensures score == Best(sim, vectors, chunks)
    ensures forall a, c | 0 <= a < |vectors| && 0 <= c < |chunks| && Earlier(a, c, alternative, chunk) ::
              sim(vectors[a], chunks[c]) < score
  {
    alternative, chunk, score := 0, 0, sim(vectors[0], chunks[0]);
    for a := 0 to |vectors|
      invariant alternative < |vectors| && chunk < |chunks| && score == sim(vectors[alternative], chunks[chunk])
      invariant alternative < a || (a == 0 && alternative == chunk == 0)
      invariant forall b, c | 0 <= b < a && 0 <= c < |chunks| :: sim(vectors[b], chunks[c]) <= score
      invariant forall b, c | 0 <= b < |vectors| && 0 <= c < |chunks| && Earlier(b, c, alternative, chunk) ::
                  sim(vectors[b], chunks[c]) < score
    {
      for c := 0 to |chunks|
        invariant alternative < |vectors| && chunk < |chunks| && score == sim(vectors[alternative], chunks[chunk])
        invariant alternative < a || (alternative == a && chunk < c) || (a == c == 0 && alternative == chunk == 0)
        invariant forall b, d | 0 <= b < a && 0 <= d < |chunks| :: sim(vectors[b], chunks[d]) <= score
        invariant forall d | 0 <= d < c :: sim(vectors[a], chunks[d]) <= score
        invariant forall b, d | 0 <= b < |vectors| && 0 <= d < |chunks| && Earlier(b, d, alternative, chunk) ::
                    sim(vectors[b], chunks[d]) < score
      {
        if sim(vectors[a], chunks[c]) > score {
          alternative, chunk, score := a, c, sim(vectors[a], chunks[c]);
        }
      }
    }
    assert IsBest(sim, vectors, chunks, score);
    BestIsUnique(sim, vectors, chunks, score, Best(sim, vectors, chunks));
  }

  // ---- score_job

  /** _dedupe_key: the texts that were embedded. */
  function ScorerKey(w: World, r: RequirementVectors): RequirementKey {
    RequirementKey(w.norm(r.text), multiset(Normalised(w, r.alternatives)))
  }

  predicate Seen(w: World, rs: seq<RequirementVectors>, k: RequirementKey) {
    exists i | 0 <= i < |rs| :: ScorerKey(w, rs[i]) == k
  }

  /** The REQUIRED requirements, each logical duplicate once. */
  function RequiredOnce(w: World, rs: seq<RequirementVectors>): seq<RequirementVectors> {
    if rs == [] then []
    else
      var kept, r := RequiredOnce(w, rs[..|rs| - 1]), rs[|rs| - 1];
      if r.importance != Required || Seen(w, kept, ScorerKey(w, r)) then kept else kept + [r]
  }

  predicate CompleteRow(r: RequirementVectors) {
    |r.vectors| != 0 && |r.vectors| == |r.alternatives|
  }

  function Total(sim: (Vector, Vector) -> real, chunks: seq<Vector>, rs: seq<RequirementVectors>): real
    requires chunks != [] && forall i | 0 <= i < |rs| :: CompleteRow(rs[i])
  {
    if rs == [] then 0.0
    else
      assert CompleteRow(rs[|rs| - 1]);
      Total(sim, chunks, rs[..|rs| - 1]) + Best(sim, rs[|rs| - 1].vectors, chunks)
  }

  function ScoreJob(w: World, sim: (Vector, Vector) -> real, chunks: seq<Vector>, job: JobVectors): Scored
    requires chunks != []
  {
    var required := RequiredOnce(w, job.requirements);
    if required == [] then NoRequired
    else if exists i | 0 <= i < |required| :: !CompleteRow(required[i]) then Incomplete
    else Match(JobMatch(job.jobId, Total(sim, chunks, required) / (|required| as real)))
  }

  /** The first loop of score_job: `seen` holds the keys of the requirements kept. */
  method KeepRequired(w: World, rs: seq<RequirementVectors>) returns (required: seq<RequirementVectors>)
    ensures required == RequiredOnce(w, rs)
  {
    hide ScorerKey;
    required := [];
    var seen: set<RequirementKey> := {};
    assert rs[..0] == [];
    for n := 0 to |rs|
      invariant required == RequiredOnce(w, rs[..n])
      invariant forall k :: k in seen <==> Seen(w, required, k)
    {
      assert rs[..n + 1][..n] == rs[..n];
      if rs[n].importance != Required { continue; }
      var key := ScorerKey(w, rs[n]);
      if key in seen { continue; }
      SeenMore(w, required, rs[n]);
      seen := seen + {key};
      required := required + [rs[n]];
    }
    assert rs[..|rs|] == rs;
  }

  method AllComplete(rs: seq<RequirementVectors>) returns (all: bool)
    ensures all <==> forall i | 0 <= i < |rs| :: CompleteRow(rs[i])
  {
    for n := 0 to |rs|
      invariant forall i | 0 <= i < n :: CompleteRow(rs[i])
    {
      if |rs[n].vectors| == 0 || |rs[n].vectors| != |rs[n].alternatives| {
        assert !CompleteRow(rs[n]);
        return false;
      }
    }
    all := true;
  }

  method SumMatches(sim: (Vector, Vector) -> real, chunks: seq<Vector>, rs: seq<RequirementVectors>) returns (sum: real)
    requires chunks != [] && forall i | 0 <= i < |rs| :: CompleteRow(rs[i])
    ensures sum == Total(sim, chunks, rs)
  {
    hide Best;
    sum := 0.0;
    assert rs[..0] == [];
    for n := 0 to |rs|
      invariant sum == Total(sim, chunks, rs[..n])
    {
      assert CompleteRow(rs[n]);
      var _, _, score := RequirementMatch(sim, rs[n].vectors, chunks);
      assert rs[..n + 1][..n] == rs[..n];
      sum := sum + score;
    }
    assert rs[..|rs|] == rs;
  }

  method ScoreJobLoop(w: World, sim: (Vector, Vector) -> real, chunks: seq<Vector>, job: JobVectors) returns (r: Scored)
    requires chunks != []
    ensures r == ScoreJob(w, sim, chunks, job)
  {
    hide RequiredOnce, CompleteRow, Total;
    var required := KeepRequired(w, job.requirements);
    if required == [] { return NoRequired; }
    var complete := AllComplete(required);
    if !complete { return Incomplete; }
    var sum := SumMatches(sim, chunks, required);
    r := Match(JobMatch(job.jobId, sum / (|required| as real)));
  }

  lemma SeenMore(w: World, rs: seq<RequirementVectors>, r: RequirementVectors)
    ensures forall k :: Seen(w, rs + [r], k) <==> Seen(w, rs, k) || k == ScorerKey(w, r)
  {
    hide ScorerKey;
    forall k ensures Seen(w, rs + [r], k) <==> Seen(w, rs, k) || k == ScorerKey(w, r) {
      if Seen(w, rs, k) {
        var i :| 0 <= i < |rs| && ScorerKey(w, rs[i]) == k;
        assert (rs + [r])[i] == rs[i];
      }
      assert (rs + [r])[|rs|] == r;
    }
  }

  // ---- rank_jobs

  /** rank_key: rounded score descending, then job id ascending. */
  predicate Before(m: Measure, a: JobMatch, b: JobMatch) {
    m.round(a.score) > m.round(b.score) || (m.round(a.score) == m.round(b.score) && a.jobId < b.jobId)
  }

  predicate Ranked(m: Measure, rows: seq<JobMatch>) {
    forall i, j | 0 <= i < j < |rows| :: Before(m, rows[i], rows[j])
  }

  lemma RankedAre(m: Measure, rows: seq<JobMatch>)
    requires Ranked(m, rows)
    ensures forall i, j | 0 <= i < j < |rows| ::
              m.round(rows[i].score) > m.round(rows[j].score)
              || (m.round(rows[i].score) == m.round(rows[j].score) && rows[i].jobId < rows[j].jobId)
  {
    assert forall i, j | 0 <= i < j < |rows| :: Before(m, rows[i], rows[j]);
  }

  function Members(rows: seq<JobMatch>): set<JobMatch> {
    set i | 0 <= i < |rows| :: rows[i]
  }

  /** `rows` lists exactly the members of `matches` in rank order. */
  predicate IsRanking(m: Measure, rows: seq<JobMatch>, matches: set<JobMatch>) {
    Ranked(m, rows) && matches == Members(rows)
  }

  /** A set of matches has one ranking. */
  lemma {:induction false} RankingIsUnique(m: Measure, rows: seq<JobMatch>, other: seq<JobMatch>, matches: set<JobMatch>)
    requires IsRanking(m, rows, matches) && IsRanking(m, other, matches)
    ensures rows == other
    decreases |rows|
  {
    hide Before, Ranked;
    EmptyRanking(m, rows, matches);
    EmptyRanking(m, other, matches);
    if matches != {} {
      FirstIsFirst(m, rows, other, matches);
      RestIsRanking(m, rows, matches);
      RestIsRanking(m, other, matches);
      RankingIsUnique(m, rows[1..], other[1..], matches - {rows[0]});
      assert rows == [rows[0]] + rows[1..] && other == [other[0]] + other[1..];
    }
  }

  lemma EmptyRanking(m: Measure, rows: seq<JobMatch>, matches: set<JobMatch>)
    requires IsRanking(m, rows, matches)
    ensures rows == [] <==> matches == {}
  {
    if rows != [] { assert rows[0] in matches; }
  }

  lemma FirstIsFirst(m: Measure, rows: seq<JobMatch>, other: seq<JobMatch>, matches: set<JobMatch>)
    requires IsRanking(m, rows, matches) && IsRanking(m, other, matches) && rows != [] && other != []
    ensures rows[0] == other[0]
  {
    assert rows[0] in matches && other[0] in matches;
    var i :| 0 <= i < |rows| && rows[i] == other[0];
    var j :| 0 <= j < |other| && other[j] == rows[0];
    if i > 0 && j > 0 {
      assert Before(m, rows[0], rows[i]) && Before(m, other[0], other[j]);
    }
  }

  lemma RestIsRanking(m: Measure, rows: seq<JobMatch>, matches: set<JobMatch>)
    requires IsRanking(m, rows, matches) && rows != []
    ensures IsRanking(m, rows[1..], matches - {rows[0]})
  {
    assert forall i | 0 < i < |rows| :: Before(m, rows[0], rows[i]) && rows[i] != rows[0];
    assert forall x | x in matches - {rows[0]} :: exists i | 0 <= i < |rows[1..]| :: rows[1..][i] == x by {
      forall x | x in matches - {rows[0]} ensures exists i | 0 <= i < |rows[1..]| :: rows[1..][i] == x {
        var i :| 0 <= i < |rows| && rows[i] == x;
        assert rows[1..][i - 1] == x;
      }
    }
    hide Before;
  }

  /** One match put in its place among those already sorted. */
  method Insert(m: Measure, rows: seq<JobMatch>, x: JobMatch) returns (r: seq<JobMatch>)
    requires Ranked(m, rows) && forall i | 0 <= i < |rows| :: rows[i].jobId != x.jobId
    ensures Ranked(m, r) && |r| == |rows| + 1
    ensures Members(r) == Members(rows) + {x}
  {
    var at: nat := |rows|;
    while at > 0 && Before(m, x, rows[at - 1])
      invariant at <= |rows| && forall i | at <= i < |rows| :: Before(m, x, rows[i])
    {
      at := at - 1;
    }
    r := rows[..at] + [x] + rows[at..];
    InsertedRanked(m, rows, x, at);
  }

  lemma InsertedRanked(m: Measure, rows: seq<JobMatch>, x: JobMatch, at: nat)
    requires Ranked(m, rows) && at <= |rows| && (forall i | 0 <= i < |rows| :: rows[i].jobId != x.jobId)
    requires forall i | at <= i < |rows| :: Before(m, x, rows[i])
    requires at > 0 ==> !Before(m, x, rows[at - 1])
    ensures var r := rows[..at] + [x] + rows[at..];
            && Ranked(m, r)
            && Members(r) == Members(rows) + {x}
  {
    var r := rows[..at] + [x] + rows[at..];
    forall i | 0 <= i < at ensures Before(m, rows[i], x) {
      if i < at - 1 { assert Before(m, rows[i], rows[at - 1]); }
    }
    hide Before;
    forall i | 0 <= i < |rows| ensures rows[i] in Members(r) {
      if i < at { assert r[i] == rows[i]; } else { assert r[i + 1] == rows[i]; }
    }
    assert r[at] == x;
  }

  datatype Diagnostics = Diagnostics(considered: nat, omittedNoRequired: nat, omittedIncomplete: nat)

  /** The matches of the jobs, and how many jobs have none, for either reason. */
  function Matches(w: World, sim: (Vector, Vector) -> real, chunks: seq<Vector>, jobs: seq<JobVectors>): set<JobMatch>
    requires chunks != []
  {
    set i | 0 <= i < |jobs| && ScoreJob(w, sim, chunks, jobs[i]).Match? :: ScoreJob(w, sim, chunks, jobs[i]).m
  }

  function CountScored(w: World, sim: (Vector, Vector) -> real, chunks: seq<Vector>, jobs: seq<JobVectors>, r: Scored): nat
    requires chunks != []
  {
    if jobs == [] then 0
    else CountScored(w, sim, chunks, jobs[..|jobs| - 1], r)
         + (if ScoreJob(w, sim, chunks, jobs[|jobs| - 1]) == r then 1 else 0)
  }

  function Min(a: nat, b: nat): nat { if a <= b then a else b }

  /** rows[offset : offset + limit] */
  function Page(rows: seq<JobMatch>, limit: nat, offset: nat): seq<JobMatch> {
    rows[Min(offset, |rows|)..Min(offset + limit, |rows|)]
  }

  predicate DistinctJobs(jobs: seq<JobVectors>) {
    forall i, j | 0 <= i < j < |jobs| :: jobs[i].jobId != jobs[j].jobId
  }

  /** rank_jobs: every job is scored, the matches are sorted, and only then the page is cut out. None is the ValueError. */
  method RankJobs(w: World, m: Measure, chunks: seq<Vector>, jobs: seq<JobVectors>, topK: nat, offset: nat)
    returns (r: Option<(seq<JobMatch>, nat, Diagnostics)>, ghost ranking: seq<JobMatch>)
    requires DistinctJobs(jobs)
    ensures chunks == [] <==> r.None?
    ensures chunks != [] ==>
              && IsRanking(m, ranking, Matches(w, m.sim, chunks, jobs))
              && (forall i, j | 0 <= i < j < |ranking| ::
                    m.round(ranking[i].score) > m.round(ranking[j].score)
                    || (m.round(ranking[i].score) == m.round(ranking[j].score) && ranking[i].jobId < ranking[j].jobId))
              && r.value == (Page(ranking, topK, offset), |ranking|,
                             Diagnostics(|jobs|, CountScored(w, m.sim, chunks, jobs, NoRequired),
                                         CountScored(w, m.sim, chunks, jobs, Incomplete)))
  {
    ranking := [];
    if chunks == [] { return None, []; }
    var scored: seq<JobMatch> := [];
    var noRequired, incomplete := 0, 0;
    assert jobs[..0] == [];
    hide ScoreJob, Before;
    for n := 0 to |jobs|
      invariant Ranked(m, scored) && IsRanking(m, scored, Matches(w, m.sim, chunks, jobs[..n]))
      invariant noRequired == CountScored(w, m.sim, chunks, jobs[..n], NoRequired)
      invariant incomplete == CountScored(w, m.sim, chunks, jobs[..n], Incomplete)
      invariant forall i | 0 <= i < |scored| :: exists j | 0 <= j < n :: scored[i].jobId == jobs[j].jobId
    {
      assert jobs[..n + 1][..n] == jobs[..n];
      var s := ScoreJobLoop(w, m.sim, chunks, jobs[n]);
      MatchesMore(w, m.sim, chunks, jobs, n);
      match s
      case Match(x) =>
        MatchIsOfJob(w, m.sim, chunks, jobs[n]);
        ghost var before := scored;
        scored := Insert(m, scored, x);
        KeptIds(before, x, scored, jobs, n);
      case NoRequired => noRequired := noRequired + 1;
      case Incomplete => incomplete := incomplete + 1;
    }
    assert jobs[..|jobs|] == jobs;
    ranking := scored;
    RankedAre(m, scored);
    r := Some((Page(scored, topK, offset), |scored|, Diagnostics(|jobs|, noRequired, incomplete)));
  }

  lemma KeptIds(before: seq<JobMatch>, x: JobMatch, after: seq<JobMatch>, jobs: seq<JobVectors>, n: nat)
    requires n < |jobs| && x.jobId == jobs[n].jobId
    requires Members(after) == Members(before) + {x}
    requires forall i | 0 <= i < |before| :: exists j | 0 <= j < n :: before[i].jobId == jobs[j].jobId
    ensures forall i | 0 <= i < |after| :: exists j | 0 <= j < n + 1 :: after[i].jobId == jobs[j].jobId
  {
    forall i | 0 <= i < |after| ensures exists j | 0 <= j < n + 1 :: after[i].jobId == jobs[j].jobId {
      assert after[i] in Members(after);
      if after[i] != x {
        assert after[i] in Members(before);
        var k :| 0 <= k < |before| && before[k] == after[i];
        var j :| 0 <= j < n && before[k].jobId == jobs[j].jobId;
        assert after[i].jobId == jobs[j].jobId;
      }
    }
  }

  lemma MatchesMore(w: World, sim: (Vector, Vector) -> real, chunks: seq<Vector>, jobs: seq<JobVectors>, n: nat)
    requires chunks != [] && n < |jobs|
    ensures Matches(w, sim, chunks, jobs[..n + 1])
         == Matches(w, sim, chunks, jobs[..n])
            + (if ScoreJob(w, sim, chunks, jobs[n]).Match? then {ScoreJob(w, sim, chunks, jobs[n]).m} else {})
  {
    hide ScoreJob;
    forall x | x in Matches(w, sim, chunks, jobs[..n]) ensures x in Matches(w, sim, chunks, jobs[..n + 1]) {
      var i :| 0 <= i < n && ScoreJob(w, sim, chunks, jobs[..n][i]).Match? && ScoreJob(w, sim, chunks, jobs[..n][i]).m == x;
      assert jobs[..n + 1][i] == jobs[i];
    }
    assert jobs[..n + 1][n] == jobs[n];
    var extra := if ScoreJob(w, sim, chunks, jobs[n]).Match? then {ScoreJob(w, sim, chunks, jobs[n]).m} else {};
    forall x | x in Matches(w, sim, chunks, jobs[..n + 1]) ensures x in Matches(w, sim, chunks, jobs[..n]) + extra {
      var i :| 0 <= i < n + 1 && ScoreJob(w, sim, chunks, jobs[..n + 1][i]).Match? && ScoreJob(w, sim, chunks, jobs[..n + 1][i]).m == x;
      if i < n { assert jobs[..n][i] == jobs[..n + 1][i]; }
    }
  }

  lemma MatchIsOfJob(w: World, sim: (Vector, Vector) -> real, chunks: seq<Vector>, job: JobVectors)
    requires chunks != [] && ScoreJob(w, sim, chunks, job).Match?
    ensures ScoreJob(w, sim, chunks, job).m.jobId == job.jobId
  {
    hide RequiredOnce, Total;
  }
}
