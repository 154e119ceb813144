/** The theorem of the two rankings, its pages and totals, and the catalogues it does not cover. */
module RankingEquality {
  import opened Wrappers
  import opened Catalogue
  import opened ImportTheorems
  import opened Scoring
  import opened SqlRanking
  import opened RankingTheorems

  /** The candidates, each once, in whatever order they are loaded. */
  predicate Enumerates(q: Query, ks: seq<JobKey>) {
    && (forall i | 0 <= i < |ks| :: ks[i] in q.store.jobs && Candidate(q.store, q.filter, ks[i]))
    && (forall i, j | 0 <= i < j < |ks| :: ks[i] != ks[j])
    && (forall k | k in q.store.jobs && Candidate(q.store, q.filter, k) :: k in ks)
  }

  /** load_job_vectors for the candidates. */
  function LoadAll(q: Query, ks: seq<JobKey>): (jobs: seq<JobVectors>)
    requires forall i | 0 <= i < |ks| :: ks[i] in q.store.jobs
    ensures |jobs| == |ks| && forall i | 0 <= i < |ks| :: jobs[i] == LoadJob(q.store.jobs[ks[i]], q.version)
  {
    seq(|ks|, i requires 0 <= i < |ks| => LoadJob(q.store.jobs[ks[i]], q.version))
  }

  /** A catalogue that imports have produced, without duplicates for the scorer, and the user's chunks. */
  ghost predicate Comparable(w: World, q: Query, ks: seq<JobKey>, chunks: seq<Vector>) {
    && Coherent(w, q.store) && IdsOk(q.store) && Enumerates(q, ks) && chunks != [] && ChunkSet(chunks, q.chunks)
    && forall k | k in q.store.jobs && Candidate(q.store, q.filter, k) :: DistinctToScorer(w, q.store.jobs[k])
  }

  lemma CandidateAgrees(w: World, q: Query, m: Measure, ks: seq<JobKey>, chunks: seq<Vector>, i: nat)
    requires Comparable(w, q, ks, chunks) && i < |ks|
    ensures ks[i] in q.store.jobs
    ensures var id, r := q.store.jobs[ks[i]].id, ScoreJob(w, m.sim, chunks, LoadAll(q, ks)[i]);
            && LoadAll(q, ks)[i].jobId == id
            && (r.NoRequired? <==> id !in JobsOf(q))
            && (r.Match? <==> id in JobsOf(q) && Complete(q, id))
            && (r.Match? ==> RowsOf(q, id) != {} && r.m == JobMatch(id, SumOf(q, m.sim, RowsOf(q, id)) / (|RowsOf(q, id)| as real)))
  {
    assert Candidate(q.store, q.filter, ks[i]);
    assert JobOk(w, q.store.jobs[ks[i]]);
    hide JobOk, DistinctToScorer, ScoreJob, JobsOf, Complete, RowsOf, IdsOk, ChunkSet, SumOf;
    JobAgrees(w, q, m, ks[i], chunks);
  }

  /** Only candidates have rows. */
  lemma RankedIsCandidate(q: Query, ks: seq<JobKey>, id: nat) returns (i: nat)
    requires Enumerates(q, ks) && id in JobsOf(q)
    ensures i < |ks| && ks[i] in q.store.jobs && q.store.jobs[ks[i]].id == id
  {
    var r :| r in ReqTable(q) && r.job == id;
    var k, n :| k in q.store.jobs && Candidate(q.store, q.filter, k) && 0 <= n < |q.store.jobs[k].requirements|
                && q.store.jobs[k].requirements[n].row.importance == Required
                && r == ReqRow(q.store.jobs[k].id, q.store.jobs[k].requirements[n].id, Expected(q.store.jobs[k].requirements[n].row));
    i :| 0 <= i < |ks| && ks[i] == k;
  }

  lemma MatchIsInSql(w: World, q: Query, m: Measure, ks: seq<JobKey>, chunks: seq<Vector>, i: nat)
    requires Comparable(w, q, ks, chunks) && i < |ks| && ScoreJob(w, m.sim, chunks, LoadAll(q, ks)[i]).Match?
    ensures ScoreJob(w, m.sim, chunks, LoadAll(q, ks)[i]).m in JobScores(q, m.sim)
  {
    hide ScoreJob, JobsOf, Complete, RowsOf, SumOf;
    CandidateAgrees(w, q, m, ks, chunks, i);
    hide Comparable;
  }

  lemma SqlMatchIsScored(w: World, q: Query, m: Measure, ks: seq<JobKey>, chunks: seq<Vector>, x: JobMatch)
    requires Comparable(w, q, ks, chunks) && x in JobScores(q, m.sim)
    ensures exists i | 0 <= i < |ks| :: ScoreJob(w, m.sim, chunks, LoadAll(q, ks)[i]).Match?
                                        && ScoreJob(w, m.sim, chunks, LoadAll(q, ks)[i]).m == x
  {
    hide ScoreJob, JobsOf, Complete, RowsOf, SumOf;
    forall id | id in JobsOf(q) ensures RowsOf(q, id) != {} { NonEmptyGroup(q, id); }
    var id :| id in JobsOf(q) && Complete(q, id) && x == JobMatch(id, SumOf(q, m.sim, RowsOf(q, id)) / (|RowsOf(q, id)| as real));
    var i := RankedIsCandidate(q, ks, id);
    CandidateAgrees(w, q, m, ks, chunks, i);
    hide Comparable;
    assert ScoreJob(w, m.sim, chunks, LoadAll(q, ks)[i]).m == x;
  }

  /** The query ranks the same jobs with the same scores as the scorer. */
  lemma SameMatches(w: World, q: Query, m: Measure, ks: seq<JobKey>, chunks: seq<Vector>)
    requires Comparable(w, q, ks, chunks)
    ensures Matches(w, m.sim, chunks, LoadAll(q, ks)) == JobScores(q, m.sim)
  {
    var jobs := LoadAll(q, ks);
    hide Comparable, ScoreJob, JobScores;
    forall x | x in Matches(w, m.sim, chunks, jobs) ensures x in JobScores(q, m.sim) {
      var i :| 0 <= i < |jobs| && ScoreJob(w, m.sim, chunks, jobs[i]).Match? && ScoreJob(w, m.sim, chunks, jobs[i]).m == x;
      MatchIsInSql(w, q, m, ks, chunks, i);
    }
    forall x | x in JobScores(q, m.sim) ensures x in Matches(w, m.sim, chunks, jobs) {
      SqlMatchIsScored(w, q, m, ks, chunks, x);
    }
  }

  /** The SQL ranking is the in-memory ranking: the same jobs with the same scores in the same order. */
  lemma SqlRankingIsTheInMemoryRanking(w: World, q: Query, m: Measure, ks: seq<JobKey>, chunks: seq<Vector>,
                                       inMemory: seq<JobMatch>, inSql: seq<JobMatch>)
    requires Comparable(w, q, ks, chunks)
    requires IsRanking(m, inMemory, Matches(w, m.sim, chunks, LoadAll(q, ks)))
    requires IsRanking(m, inSql, JobScores(q, m.sim))
    ensures inMemory == inSql
  {
    hide *;
    SameMatches(w, q, m, ks, chunks);
    RankingIsUnique(m, inMemory, inSql, JobScores(q, m.sim));
  }

  /** Without chunks the query ranks nothing. */
  lemma NoChunksNoRanking(w: World, q: Query, m: Measure)
    requires q.chunks == {}
    ensures JobScores(q, m.sim) == {}
  {
    forall j | j in JobsOf(q) ensures !Complete(q, j) {
      var r :| r in ReqTable(q) && r.job == j;
      assert r in RowsOf(q, j) && Alternatives(q, r.requirement) == {};
      assert HaveAlts(q, r.requirement) == 0;
      ExpectedIsPositive(q, r);
      hide ReqTable, RowsOf, HaveAlts;
    }
  }

  lemma ExpectedIsPositive(q: Query, r: ReqRow)
    requires r in ReqTable(q)
    ensures r.expected > 0
  {
  }

  // ---- pages and totals

  /** A page of the query, and its totals, for every limit and offset. */
  lemma PagesAndTotals(ranking: seq<JobMatch>, considered: nat, limit: nat, offset: nat)
    ensures RankPage(ranking, considered, limit, offset).rows == Page(ranking, limit, offset)
    ensures RankPage(ranking, considered, limit, offset).total == |ranking| <==> limit > 0 || offset > 0 || ranking == []
    ensures limit > 0 && |ranking| <= considered ==> RankPage(ranking, considered, limit, offset).omitted == considered - |ranking|
  {
  }

  /** Consecutive pages join without gap or repetition. */
  lemma PagesJoin(rows: seq<JobMatch>, limit: nat, more: nat, offset: nat)
    ensures Page(rows, limit, offset) + Page(rows, more, offset + limit) == Page(rows, limit + more, offset)
  {
  }

  /** The first `n` pages of a size, one after the other. */
  function Pages(rows: seq<JobMatch>, size: nat, n: nat): seq<JobMatch> {
    if n == 0 then [] else Pages(rows, size, n - 1) + Page(rows, size, size * (n - 1))
  }

  lemma {:induction false} PagesCoverTheRanking(rows: seq<JobMatch>, size: nat, n: nat)
    ensures Pages(rows, size, n) == Page(rows, size * n, 0)
    ensures size * n >= |rows| ==> Pages(rows, size, n) == rows
  {
    if n > 0 {
      PagesCoverTheRanking(rows, size, n - 1);
      assert size * n == size * (n - 1) + size;
      PagesJoin(rows, size * (n - 1), size, 0);
    }
  }

  // ---- the counts

  lemma {:induction false} CountsAddUp(w: World, sim: (Vector, Vector) -> real, chunks: seq<Vector>, jobs: seq<JobVectors>)
    requires chunks != [] && DistinctJobs(jobs)
    ensures |Matches(w, sim, chunks, jobs)| + CountScored(w, sim, chunks, jobs, NoRequired)
            + CountScored(w, sim, chunks, jobs, Incomplete) == |jobs|
  {
    hide ScoreJob, Matches;
    if jobs != [] {
      var n := |jobs| - 1;
      CountsAddUp(w, sim, chunks, jobs[..n]);
      MatchesGrow(w, sim, chunks, jobs, n);
      assert jobs[..n + 1] == jobs;
      match ScoreJob(w, sim, chunks, jobs[n])
      case Match(x) =>
      case NoRequired =>
      case Incomplete =>
    } else {
      NoJobsNoMatches(w, sim, chunks);
    }
  }

  lemma NoJobsNoMatches(w: World, sim: (Vector, Vector) -> real, chunks: seq<Vector>)
    requires chunks != []
    ensures Matches(w, sim, chunks, []) == {}
  {
  }

  /** A scored job that matches is one match more. */
  lemma MatchesGrow(w: World, sim: (Vector, Vector) -> real, chunks: seq<Vector>, jobs: seq<JobVectors>, n: nat)
    requires chunks != [] && DistinctJobs(jobs) && n < |jobs|
    ensures |Matches(w, sim, chunks, jobs[..n + 1])|
         == |Matches(w, sim, chunks, jobs[..n])| + (if ScoreJob(w, sim, chunks, jobs[n]).Match? then 1 else 0)
  {
    hide ScoreJob;
    MatchesMore(w, sim, chunks, jobs, n);
    if ScoreJob(w, sim, chunks, jobs[n]).Match? {
      NewMatch(w, sim, chunks, jobs, n);
    }
    hide Matches;
  }

  lemma NewMatch(w: World, sim: (Vector, Vector) -> real, chunks: seq<Vector>, jobs: seq<JobVectors>, n: nat)
    requires chunks != [] && DistinctJobs(jobs) && n < |jobs| && ScoreJob(w, sim, chunks, jobs[n]).Match?
    ensures ScoreJob(w, sim, chunks, jobs[n]).m !in Matches(w, sim, chunks, jobs[..n])
  {
    hide ScoreJob;
    MatchIsOfJob(w, sim, chunks, jobs[n]);
    forall x | x in Matches(w, sim, chunks, jobs[..n]) ensures x != ScoreJob(w, sim, chunks, jobs[n]).m {
      var i :| 0 <= i < n && ScoreJob(w, sim, chunks, jobs[..n][i]).Match? && ScoreJob(w, sim, chunks, jobs[..n][i]).m == x;
      MatchIsOfJob(w, sim, chunks, jobs[i]);
    }
  }

  /** The ids of the first `n` candidates that have a REQUIRED requirement. */
  function Considered(w: World, sim: (Vector, Vector) -> real, chunks: seq<Vector>, jobs: seq<JobVectors>): set<nat>
    requires chunks != []
  {
    set i | 0 <= i < |jobs| && !ScoreJob(w, sim, chunks, jobs[i]).NoRequired? :: jobs[i].jobId
  }

  lemma ConsideredMore(w: World, sim: (Vector, Vector) -> real, chunks: seq<Vector>, jobs: seq<JobVectors>, n: nat)
    requires chunks != [] && DistinctJobs(jobs) && |jobs| == n + 1
    ensures Considered(w, sim, chunks, jobs)
         == Considered(w, sim, chunks, jobs[..n])
            + (if ScoreJob(w, sim, chunks, jobs[n]).NoRequired? then {} else {jobs[n].jobId})
    ensures jobs[n].jobId !in Considered(w, sim, chunks, jobs[..n])
  {
    hide ScoreJob;
    forall x | x in Considered(w, sim, chunks, jobs[..n]) ensures x in Considered(w, sim, chunks, jobs) {
      var i :| 0 <= i < n && !ScoreJob(w, sim, chunks, jobs[..n][i]).NoRequired? && jobs[..n][i].jobId == x;
      assert !ScoreJob(w, sim, chunks, jobs[i]).NoRequired? && jobs[i].jobId == x;
    }
    forall x | x in Considered(w, sim, chunks, jobs)
      ensures x in Considered(w, sim, chunks, jobs[..n]) || (x == jobs[n].jobId && !ScoreJob(w, sim, chunks, jobs[n]).NoRequired?)
    {
      var i :| 0 <= i < |jobs| && !ScoreJob(w, sim, chunks, jobs[i]).NoRequired? && jobs[i].jobId == x;
      if i < n { assert jobs[..n][i] == jobs[i]; }
    }
  }

  lemma {:induction false} ConsideredCount(w: World, sim: (Vector, Vector) -> real, chunks: seq<Vector>, jobs: seq<JobVectors>)
    requires chunks != [] && DistinctJobs(jobs)
    ensures |Considered(w, sim, chunks, jobs)| + CountScored(w, sim, chunks, jobs, NoRequired) == |jobs|
  {
    hide ScoreJob, Considered;
    if jobs != [] {
      var n := |jobs| - 1;
      ConsideredMore(w, sim, chunks, jobs, n);
      ConsideredCount(w, sim, chunks, jobs[..n]);
    } else {
      NoJobsConsidered(w, sim, chunks);
    }
  }

  lemma NoJobsConsidered(w: World, sim: (Vector, Vector) -> real, chunks: seq<Vector>)
    requires chunks != []
    ensures Considered(w, sim, chunks, []) == {}
  {
  }

  /** The jobs the query reports as omitted are those the scorer counts as incomplete. */
  lemma OmittedAreTheIncomplete(w: World, q: Query, m: Measure, ks: seq<JobKey>, chunks: seq<Vector>, ranking: seq<JobMatch>,
                                limit: nat, offset: nat)
    requires Comparable(w, q, ks, chunks) && limit > 0 && IsRanking(m, ranking, JobScores(q, m.sim))
    ensures RankPage(ranking, |JobsOf(q)|, limit, offset).omitted == CountScored(w, m.sim, chunks, LoadAll(q, ks), Incomplete)
  {
    var jobs := LoadAll(q, ks);
    SameMatches(w, q, m, ks, chunks);
    forall i, j | 0 <= i < j < |jobs| ensures jobs[i].jobId != jobs[j].jobId {
      assert Candidate(q.store, q.filter, ks[i]) && Candidate(q.store, q.filter, ks[j]);
    }
    CountsAddUp(w, m.sim, chunks, jobs);
    ConsideredCount(w, m.sim, chunks, jobs);
    ConsideredInSql(w, q, m, ks, chunks);
    RankingSize(m, ranking, JobScores(q, m.sim));
    hide *;
    PagesAndTotals(ranking, |JobsOf(q)|, limit, offset);
  }

  lemma ConsideredInSql(w: World, q: Query, m: Measure, ks: seq<JobKey>, chunks: seq<Vector>)
    requires Comparable(w, q, ks, chunks)
    ensures Considered(w, m.sim, chunks, LoadAll(q, ks)) == JobsOf(q)
  {
    var jobs := LoadAll(q, ks);
    forall id | id in JobsOf(q) ensures id in Considered(w, m.sim, chunks, jobs) {
      var i := RankedIsCandidate(q, ks, id);
      CandidateAgrees(w, q, m, ks, chunks, i);
      hide ScoreJob, JobsOf, Comparable;
      assert jobs[i].jobId == id;
    }
    forall id | id in Considered(w, m.sim, chunks, jobs) ensures id in JobsOf(q) {
      var i :| 0 <= i < |jobs| && !ScoreJob(w, m.sim, chunks, jobs[i]).NoRequired? && jobs[i].jobId == id;
      CandidateAgrees(w, q, m, ks, chunks, i);
      hide ScoreJob, JobsOf, Comparable;
    }
  }

  lemma {:induction false} RankingSize(m: Measure, ranking: seq<JobMatch>, matches: set<JobMatch>)
    requires IsRanking(m, ranking, matches)
    ensures |matches| == |ranking|
    decreases |ranking|
  {
    if ranking == [] {
      assert matches == {};
    } else {
      assert ranking[0] in matches;
      RestIsRanking(m, ranking, matches);
      RankingSize(m, ranking[1..], matches - {ranking[0]});
    }
  }

  // ---- what the importer lets through

  /** Requirements that the importer keeps apart collide in the scorer exactly when one has no alternatives and the other
    * has its own text as its only alternative. */
  lemma CollisionsAreTextAlternatives(w: World, a: Requirement, b: Requirement)
    requires ImportKey(w, a) != ImportKey(w, b)
    ensures StoredKey(w, a) == StoredKey(w, b) <==>
              w.norm(a.text) == w.norm(b.text)
              && ((a.alternatives == [] && OnlyItsText(w, b)) || (b.alternatives == [] && OnlyItsText(w, a)))
  {
    if a.alternatives == [] && b.alternatives == [] {
      assert Texts(a) == [a.text] && Texts(b) == [b.text];
    } else if a.alternatives == [] {
      OneText(w, a, b);
    } else if b.alternatives == [] {
      OneText(w, b, a);
    }
  }

  predicate OnlyItsText(w: World, r: Requirement) {
    |r.alternatives| == 1 && w.norm(r.alternatives[0]) == w.norm(r.text)
  }

  lemma OneText(w: World, a: Requirement, b: Requirement)
    requires a.alternatives == [] && b.alternatives != []
    ensures StoredKey(w, a) == StoredKey(w, b) <==> w.norm(a.text) == w.norm(b.text) && OnlyItsText(w, b)
  {
    var na, nb := Normalised(w, Texts(a)), Normalised(w, Texts(b));
    assert na == [w.norm(a.text)];
    assert multiset(na) == multiset{w.norm(a.text)};
    assert |multiset(nb)| == |nb|;
    assert OnlyItsText(w, b) && w.norm(a.text) == w.norm(b.text) ==> nb == na;
    if multiset(na) == multiset(nb) {
      assert nb[0] in multiset(nb);
    }
  }
}
