/** When both rankings agree: exactly when for every job that both score, the mean over the distinct REQUIRED requirements
  * is the mean over all of them. They average over the same requirements exactly when the scorer sees no duplicates. */
module RankingExactness {
  import opened Wrappers
  import opened Catalogue
  import opened ImportTheorems
  import opened Scoring
  import opened SqlRanking
  import opened RankingTheorems
  import opened RankingEquality

  lemma SeenStays(w: World, kept: seq<RequirementVectors>, r: RequirementVectors, k: RequirementKey)
    ensures Seen(w, kept, k) ==> Seen(w, kept + [r], k)
    ensures Seen(w, kept + [r], ScorerKey(w, r))
  {
    hide ScorerKey;
    if Seen(w, kept, k) {
      var i :| 0 <= i < |kept| && ScorerKey(w, kept[i]) == k;
      assert (kept + [r])[i] == kept[i];
    }
    assert (kept + [r])[|kept|] == r;
  }

  /** The key of every REQUIRED requirement met so far has been kept. */
  lemma {:induction false} RequiredIsSeen(w: World, rs: seq<RequirementVectors>, n: nat, i: nat)
    requires i < n <= |rs| && rs[i].importance == Required
    ensures Seen(w, RequiredOnce(w, rs[..n]), ScorerKey(w, rs[i]))
  {
    hide ScorerKey, Seen, RequiredOnce;
    KeptMore(w, rs, n - 1);
    if i < n - 1 { RequiredIsSeen(w, rs, n - 1, i); }
    SeenStays(w, RequiredOnce(w, rs[..n - 1]), rs[n - 1], ScorerKey(w, rs[i]));
  }

  lemma {:induction false} KeptAtMost(w: World, rs: seq<RequirementVectors>, n: nat)
    requires n <= |rs|
    ensures |RequiredOnce(w, rs[..n])| <= |RequiredUpto(rs, n)|
  {
    hide ScorerKey, Seen;
    if n > 0 {
      KeptAtMost(w, rs, n - 1);
      KeptMore(w, rs, n - 1);
    }
  }

  /** A duplicate leaves the scorer with fewer requirements than are stored, from there on. */
  lemma {:induction false} DuplicateIsDropped(w: World, rs: seq<RequirementVectors>, i: nat, j: nat, n: nat)
    requires i < j < n <= |rs| && rs[i].importance == Required && rs[j].importance == Required
    requires ScorerKey(w, rs[i]) == ScorerKey(w, rs[j])
    ensures |RequiredOnce(w, rs[..n])| < |RequiredUpto(rs, n)|
  {
    hide ScorerKey, Seen;
    KeptMore(w, rs, n - 1);
    if j < n - 1 {
      DuplicateIsDropped(w, rs, i, j, n - 1);
    } else {
      RequiredIsSeen(w, rs, j, i);
      KeptAtMost(w, rs, j);
    }
  }

  lemma LoadedRow(s: StoredJob, version: Version, n: nat)
    requires n < |s.requirements|
    ensures n < |LoadJob(s, version).requirements| && LoadJob(s, version).requirements[n].importance == s.requirements[n].row.importance
  {
    hide LoadRequirement, LoadJob;
    LoadedImportance(s.requirements[n], version);
  }

  lemma OneRequiredMore(s: StoredJob, rs: seq<RequirementVectors>, n: nat)
    requires n < |s.requirements| && n < |rs| && rs[n].importance == s.requirements[n].row.importance
    requires ReqRow(s.id, s.requirements[n].id, Expected(s.requirements[n].row)) !in RowsUpto(s, n)
    requires |RowsUpto(s, n)| == |RequiredUpto(rs, n)|
    ensures |RowsUpto(s, n + 1)| == |RequiredUpto(rs, n + 1)|
  {
    hide Expected;
  }

  /** The query has one row for every stored REQUIRED requirement. */
  lemma {:induction false} RowsCounted(q: Query, k: JobKey, n: nat)
    requires IdsOk(q.store) && k in q.store.jobs && n <= |q.store.jobs[k].requirements|
    ensures |RowsUpto(q.store.jobs[k], n)| == |RequiredUpto(LoadJob(q.store.jobs[k], q.version).requirements, n)|
  {
    hide IdsOk, LoadRequirement, Expected, LoadJob;
    if n > 0 {
      hide RowsUpto, RequiredUpto;
      RowsCounted(q, k, n - 1);
      AtBelow(q, k, n - 1);
      NewRow(q, k, n - 1);
      LoadedRow(q.store.jobs[k], q.version, n - 1);
      OneRequiredMore(q.store.jobs[k], LoadJob(q.store.jobs[k], q.version).requirements, n - 1);
    }
  }

  /** The query averages a job over as many requirements as the scorer exactly when the scorer sees no duplicates. */
  lemma SameRequirementsExactlyWhenDistinct(w: World, q: Query, k: JobKey)
    requires IdsOk(q.store) && Candidate(q.store, q.filter, k)
    ensures k in q.store.jobs
    ensures var s := q.store.jobs[k];
            |RequiredOnce(w, LoadJob(s, q.version).requirements)| == |RowsOf(q, s.id)| <==> DistinctToScorer(w, s)
  {
    var s := q.store.jobs[k];
    var rs, n := LoadJob(s, q.version).requirements, |s.requirements|;
    RowsOfJob(q, k);
    RowsCounted(q, k, n);
    assert rs[..n] == rs;
    if DistinctToScorer(w, s) {
      AllKept(w, s, q.version, n);
    } else {
      var i, j :| 0 <= i < j < n && s.requirements[i].row.importance == Required && s.requirements[j].row.importance == Required
                  && StoredKey(w, s.requirements[i].row) == StoredKey(w, s.requirements[j].row);
      LoadedKey(w, s, q.version, i);
      LoadedKey(w, s, q.version, j);
      hide StoredKey, ScorerKey, LoadJob, RequiredOnce, RequiredUpto, RowsUpto, RowsOf, IdsOk;
      DuplicateIsDropped(w, rs, i, j, n);
    }
  }

  // ---- the rankings

  predicate AllComplete(rs: seq<RequirementVectors>) {
    forall i | 0 <= i < |rs| :: CompleteRow(rs[i])
  }

  function Mean(sim: (Vector, Vector) -> real, chunks: seq<Vector>, rs: seq<RequirementVectors>): real
    requires chunks != [] && rs != [] && AllComplete(rs)
  {
    Total(sim, chunks, rs) / (|rs| as real)
  }

  function DistinctRequired(w: World, job: JobVectors): seq<RequirementVectors> {
    RequiredOnce(w, job.requirements)
  }

  function AllRequired(job: JobVectors): seq<RequirementVectors> {
    RequiredUpto(job.requirements, |job.requirements|)
  }

  predicate Scores(chunks: seq<Vector>, rs: seq<RequirementVectors>) {
    chunks != [] && rs != [] && AllComplete(rs)
  }

  /** Dropping the scorer's duplicates does not move the mean of this job. */
  predicate MeansAgree(w: World, sim: (Vector, Vector) -> real, chunks: seq<Vector>, job: JobVectors) {
    Scores(chunks, DistinctRequired(w, job)) && Scores(chunks, AllRequired(job)) ==>
      Mean(sim, chunks, DistinctRequired(w, job)) == Mean(sim, chunks, AllRequired(job))
  }

  lemma {:induction false} OnceEmpty(w: World, rs: seq<RequirementVectors>, n: nat)
    requires n <= |rs|
    ensures RequiredOnce(w, rs[..n]) == [] <==> RequiredUpto(rs, n) == []
  {
    hide ScorerKey;
    if n > 0 {
      OnceEmpty(w, rs, n - 1);
      KeptMore(w, rs, n - 1);
      hide RequiredOnce;
    }
  }

  lemma OnceNothing(w: World, rs: seq<RequirementVectors>)
    ensures RequiredOnce(w, rs[..0]) == []
  {
  }

  lemma {:induction false} OnceComplete(w: World, s: StoredJob, stored: Version, version: Version, n: nat)
    requires AllEmbeddedBy(w, s.requirements, stored) && n <= |s.requirements|
    ensures var once := RequiredOnce(w, LoadJob(s, version).requirements[..n]);
            forall i | 0 <= i < |once| :: CompleteRow(once[i]) <==> stored == version
  {
    hide CompleteRow, EmbeddedBy, ScorerKey, Seen, LoadRequirement, RequiredOnce;
    var rs := LoadJob(s, version).requirements;
    if n == 0 {
      OnceNothing(w, rs);
    } else {
      OnceComplete(w, s, stored, version, n - 1);
      KeptMore(w, rs, n - 1);
      assert EmbeddedBy(w, s.requirements[n - 1], stored);
      RowCompleteness(w, s.requirements[n - 1], stored, version);
    }
  }

  /** What score_job makes of a job, duplicates or not. */
  lemma ScoredOnce(w: World, sim: (Vector, Vector) -> real, chunks: seq<Vector>, s: StoredJob, stored: Version, version: Version)
    requires chunks != [] && AllEmbeddedBy(w, s.requirements, stored)
    ensures var job := LoadJob(s, version);
            var r := ScoreJob(w, sim, chunks, job);
            && job.jobId == s.id && |job.requirements| == |s.requirements|
            && (r.Match? <==> AllRequired(job) != [] && stored == version)
            && (r.Match? <==> Scores(chunks, DistinctRequired(w, job))) && (r.Match? <==> Scores(chunks, AllRequired(job)))
            && (r.Match? ==> r.m == JobMatch(s.id, Mean(sim, chunks, DistinctRequired(w, job))))
  {
    hide AllEmbeddedBy, LoadJob, RequiredOnce, RequiredUpto, CompleteRow, Total, ScoreJob;
    LoadedLength(w, s, version);
    LoadedId(s, version);
    var job, n := LoadJob(s, version), |s.requirements|;
    OnceComplete(w, s, stored, version, n);
    OnceEmpty(w, job.requirements, n);
    LoadedCompleteness(w, s, stored, version, n);
    assert job.requirements[..n] == job.requirements;
    ScoredKept(w, sim, chunks, job, DistinctRequired(w, job), stored == version);
    if AllRequired(job) != [] {
      CompleteMeans(DistinctRequired(w, job), stored == version);
      CompleteMeans(AllRequired(job), stored == version);
    }
  }

  lemma LoadedId(s: StoredJob, version: Version)
    ensures LoadJob(s, version).jobId == s.id
  {
  }

  lemma CompleteMeans(rs: seq<RequirementVectors>, complete: bool)
    requires rs != [] && forall i | 0 <= i < |rs| :: CompleteRow(rs[i]) <==> complete
    ensures AllComplete(rs) <==> complete
  {
    hide CompleteRow;
    assert CompleteRow(rs[0]) <==> complete;
  }

  lemma MeanOfAll(q: Query, sim: (Vector, Vector) -> real, chunks: seq<Vector>, rows: set<ReqRow>, kept: seq<RequirementVectors>)
    requires chunks != [] && AllComplete(kept) && kept != []
    requires SumOf(q, sim, rows) == Total(sim, chunks, kept) && |rows| == |kept|
    ensures rows != {} && SumOf(q, sim, rows) / (|rows| as real) == Mean(sim, chunks, kept)
  {
    hide SumOf, Total, CompleteRow;
  }

  /** How both rankings treat one job, duplicates or not. */
  lemma JobTreated(w: World, q: Query, m: Measure, k: JobKey, chunks: seq<Vector>)
    requires IdsOk(q.store) && Candidate(q.store, q.filter, k) && JobOk(w, q.store.jobs[k])
    requires chunks != [] && ChunkSet(chunks, q.chunks)
    ensures k in q.store.jobs
    ensures var id, job := q.store.jobs[k].id, LoadJob(q.store.jobs[k], q.version);
            var r := ScoreJob(w, m.sim, chunks, job);
            && job.jobId == id && (r.Match? <==> id in JobsOf(q) && Complete(q, id))
            && (r.Match? <==> Scores(chunks, DistinctRequired(w, job))) && (r.Match? <==> Scores(chunks, AllRequired(job)))
            && (r.Match? ==> r.m == JobMatch(id, Mean(m.sim, chunks, DistinctRequired(w, job))))
            && (r.Match? ==> RowsOf(q, id) != {}
                             && SumOf(q, m.sim, RowsOf(q, id)) / (|RowsOf(q, id)| as real) == Mean(m.sim, chunks, AllRequired(job)))
  {
    var s := q.store.jobs[k];
    var stored :| AllEmbeddedBy(w, s.requirements, stored);
    hide *;
    KnownJob(q, k);
    RowsOfJob(q, k);
    Grouped(q, k);
    BothEmpty(s, q.version, |s.requirements|);
    CompleteTogether(w, q, m, k, chunks, stored);
    ScoredOnce(w, m.sim, chunks, s, stored, q.version);
    LoadedLength(w, s, q.version);
    AllIs(LoadJob(s, q.version));
    if ScoreJob(w, m.sim, chunks, LoadJob(s, q.version)).Match? {
      SumsAgree(w, q, m, k, chunks, |s.requirements|);
      Agreed(q, m.sim, chunks, RowsUpto(s, |s.requirements|), AllRequired(LoadJob(s, q.version)));
      ScoresIs(chunks, AllRequired(LoadJob(s, q.version)));
      MeanOfAll(q, m.sim, chunks, RowsUpto(s, |s.requirements|), AllRequired(LoadJob(s, q.version)));
    }
  }

  lemma AllIs(job: JobVectors)
    ensures AllRequired(job) == RequiredUpto(job.requirements, |job.requirements|)
  {
  }

  lemma ScoresIs(chunks: seq<Vector>, rs: seq<RequirementVectors>)
    requires Scores(chunks, rs)
    ensures chunks != [] && rs != [] && AllComplete(rs)
  {
  }

  /** A catalogue that imports have produced, and the user's chunks. */
  ghost predicate Ranks(w: World, q: Query, ks: seq<JobKey>, chunks: seq<Vector>) {
    Coherent(w, q.store) && IdsOk(q.store) && Enumerates(q, ks) && chunks != [] && ChunkSet(chunks, q.chunks)
  }

  lemma RanksKnown(w: World, q: Query, ks: seq<JobKey>, chunks: seq<Vector>)
    requires Ranks(w, q, ks, chunks)
    ensures chunks != [] && forall n | 0 <= n < |ks| :: ks[n] in q.store.jobs
  {
    hide Coherent, IdsOk, ChunkSet, Candidate;
  }

  /** The mean of all REQUIRED requirements of a job is its score in the query; that of the distinct ones its score in memory. */
  lemma CandidateTreated(w: World, q: Query, m: Measure, ks: seq<JobKey>, chunks: seq<Vector>, i: nat)
    requires Ranks(w, q, ks, chunks) && i < |ks|
    ensures ks[i] in q.store.jobs && chunks != []
    ensures var job := LoadAll(q, ks)[i];
            var r := ScoreJob(w, m.sim, chunks, job);
            && (r.Match? <==> job.jobId in JobsOf(q) && Complete(q, job.jobId))
            && (r.Match? <==> Scores(chunks, DistinctRequired(w, job))) && (r.Match? <==> Scores(chunks, AllRequired(job)))
            && (r.Match? ==> r.m == JobMatch(job.jobId, Mean(m.sim, chunks, DistinctRequired(w, job))))
            && (r.Match? ==> RowsOf(q, job.jobId) != {}
                             && SumOf(q, m.sim, RowsOf(q, job.jobId)) / (|RowsOf(q, job.jobId)| as real)
                                == Mean(m.sim, chunks, AllRequired(job)))
            && job.jobId == q.store.jobs[ks[i]].id
  {
    assert Candidate(q.store, q.filter, ks[i]);
    assert JobOk(w, q.store.jobs[ks[i]]);
    hide *;
    JobTreated(w, q, m, ks[i], chunks);
  }

  /** What the query scores is the mean over all REQUIRED requirements of a candidate that the scorer scores, too. */
  lemma QueryScores(w: World, q: Query, m: Measure, ks: seq<JobKey>, chunks: seq<Vector>, x: JobMatch) returns (i: nat)
    requires Ranks(w, q, ks, chunks) && x in JobScores(q, m.sim)
    ensures i < |ks| && chunks != [] && (forall n | 0 <= n < |ks| :: ks[n] in q.store.jobs)
    ensures Scores(chunks, AllRequired(LoadAll(q, ks)[i])) && ScoreJob(w, m.sim, chunks, LoadAll(q, ks)[i]).Match?
    ensures x == JobMatch(LoadAll(q, ks)[i].jobId, Mean(m.sim, chunks, AllRequired(LoadAll(q, ks)[i])))
  {
    hide ScoreJob, JobsOf, Complete, RowsOf, SumOf, Mean, Scores, AllRequired, DistinctRequired, Coherent, IdsOk, ChunkSet;
    forall id | id in JobsOf(q) ensures RowsOf(q, id) != {} { NonEmptyGroup(q, id); }
    var id :| id in JobsOf(q) && Complete(q, id) && x == JobMatch(id, SumOf(q, m.sim, RowsOf(q, id)) / (|RowsOf(q, id)| as real));
    i := RankedIsCandidate(q, ks, id);
    CandidateTreated(w, q, m, ks, chunks, i);
  }

  /** The score in the query of a candidate that the scorer scores. */
  lemma InQuery(w: World, q: Query, m: Measure, ks: seq<JobKey>, chunks: seq<Vector>, i: nat)
    requires Ranks(w, q, ks, chunks) && i < |ks| && (forall n | 0 <= n < |ks| :: ks[n] in q.store.jobs)
    requires ScoreJob(w, m.sim, chunks, LoadAll(q, ks)[i]).Match?
    ensures Scores(chunks, AllRequired(LoadAll(q, ks)[i]))
    ensures JobMatch(LoadAll(q, ks)[i].jobId, Mean(m.sim, chunks, AllRequired(LoadAll(q, ks)[i]))) in JobScores(q, m.sim)
  {
    hide ScoreJob, JobsOf, Complete, RowsOf, SumOf, Mean, Scores, AllRequired, DistinctRequired, Ranks;
    CandidateTreated(w, q, m, ks, chunks, i);
  }

  /** The two rankings are the same sequence if and only if no candidate that is scored has its mean moved by its duplicates. */
  lemma RankingsAgreeExactly(w: World, q: Query, m: Measure, ks: seq<JobKey>, chunks: seq<Vector>,
                             inMemory: seq<JobMatch>, inSql: seq<JobMatch>)
    requires Ranks(w, q, ks, chunks)
    requires IsRanking(m, inMemory, Matches(w, m.sim, chunks, LoadAll(q, ks)))
    requires IsRanking(m, inSql, JobScores(q, m.sim))
    ensures inMemory == inSql <==> forall i | 0 <= i < |ks| :: MeansAgree(w, m.sim, chunks, LoadAll(q, ks)[i])
  {
    hide ScoreJob, JobScores, Mean, Scores, AllRequired, DistinctRequired, Coherent, IdsOk, ChunkSet, Ranked, Candidate, Enumerates;
    RanksKnown(w, q, ks, chunks);
    var jobs := LoadAll(q, ks);
    if inMemory == inSql {
      forall i | 0 <= i < |ks| ensures MeansAgree(w, m.sim, chunks, jobs[i]) { EqualMeans(w, q, m, ks, chunks, i); }
    } else if forall i | 0 <= i < |ks| :: MeansAgree(w, m.sim, chunks, jobs[i]) {
      EqualMatches(w, q, m, ks, chunks);
      RankingIsUnique(m, inMemory, inSql, JobScores(q, m.sim));
      assert false;
    }
  }

  lemma EqualMeans(w: World, q: Query, m: Measure, ks: seq<JobKey>, chunks: seq<Vector>, i: nat)
    requires Ranks(w, q, ks, chunks) && i < |ks| && (forall n | 0 <= n < |ks| :: ks[n] in q.store.jobs)
    requires Matches(w, m.sim, chunks, LoadAll(q, ks)) == JobScores(q, m.sim)
    ensures MeansAgree(w, m.sim, chunks, LoadAll(q, ks)[i])
  {
    hide ScoreJob, JobScores, Mean, Scores, AllRequired, DistinctRequired, Coherent, IdsOk, ChunkSet, Candidate, Enumerates;
    var job := LoadAll(q, ks)[i];
    CandidateTreated(w, q, m, ks, chunks, i);
    if ScoreJob(w, m.sim, chunks, job).Match? {
      var x := ScoreJob(w, m.sim, chunks, job).m;
      assert x in Matches(w, m.sim, chunks, LoadAll(q, ks));
      var j := QueryScores(w, q, m, ks, chunks, x);
      SameCandidate(w, q, ks, chunks, i, j);
    }
  }

  lemma SameCandidate(w: World, q: Query, ks: seq<JobKey>, chunks: seq<Vector>, i: nat, j: nat)
    requires Ranks(w, q, ks, chunks) && i < |ks| && j < |ks| && (forall n | 0 <= n < |ks| :: ks[n] in q.store.jobs)
    requires LoadAll(q, ks)[i].jobId == LoadAll(q, ks)[j].jobId
    ensures LoadAll(q, ks)[i] == LoadAll(q, ks)[j]
  {
    LoadedId(q.store.jobs[ks[i]], q.version);
    LoadedId(q.store.jobs[ks[j]], q.version);
    hide JobIdsOk, Coherent, ChunkSet, LoadJob, Enumerates;
  }

  lemma EqualMatches(w: World, q: Query, m: Measure, ks: seq<JobKey>, chunks: seq<Vector>)
    requires Ranks(w, q, ks, chunks) && (forall n | 0 <= n < |ks| :: ks[n] in q.store.jobs)
    requires forall i | 0 <= i < |ks| :: MeansAgree(w, m.sim, chunks, LoadAll(q, ks)[i])
    ensures Matches(w, m.sim, chunks, LoadAll(q, ks)) == JobScores(q, m.sim)
  {
    hide ScoreJob, JobScores, Mean, Scores, AllRequired, DistinctRequired, Ranks;
    RanksKnown(w, q, ks, chunks);
    var jobs := LoadAll(q, ks);
    forall x | x in Matches(w, m.sim, chunks, jobs) ensures x in JobScores(q, m.sim) {
      var i :| 0 <= i < |jobs| && ScoreJob(w, m.sim, chunks, jobs[i]).Match? && ScoreJob(w, m.sim, chunks, jobs[i]).m == x;
      CandidateTreated(w, q, m, ks, chunks, i);
      InQuery(w, q, m, ks, chunks, i);
      assert MeansAgree(w, m.sim, chunks, jobs[i]);
    }
    forall x | x in JobScores(q, m.sim) ensures x in Matches(w, m.sim, chunks, jobs) {
      var i := QueryScores(w, q, m, ks, chunks, x);
      CandidateTreated(w, q, m, ks, chunks, i);
      assert MeansAgree(w, m.sim, chunks, jobs[i]);
      assert ScoreJob(w, m.sim, chunks, jobs[i]).m == x;
    }
  }
}
