/** What the two rankings say, on the stored rows alone: which jobs they list, and with which score. */
module RankingLaws {
  import opened Wrappers
  import opened Catalogue
  import opened ImportTheorems
  import opened Scoring
  import opened SqlRanking
  import opened RankingTheorems
  import opened RankingEquality
  import opened RankingExactness

  // ---- the score of a job

  /** A text that was embedded for the requirement: one of its alternatives, or its own text when it has none. */
  predicate Stands(r: Requirement, t: string) {
    t in r.alternatives || (r.alternatives == [] && t == r.text)
  }

  /** The best similarity of a text of the requirement to a chunk. */
  ghost predicate BestOf(w: World, m: Measure, version: Version, chunks: seq<Vector>, r: Requirement, x: real) {
    && (exists t, c | Stands(r, t) && 0 <= c < |chunks| :: m.sim(w.embed(version, t), chunks[c]) == x)
    && (forall t, c | Stands(r, t) && 0 <= c < |chunks| :: m.sim(w.embed(version, t), chunks[c]) <= x)
  }

  function Sum(xs: seq<real>): real {
    if xs == [] then 0.0 else Sum(xs[..|xs| - 1]) + xs[|xs| - 1]
  }

  /** The score is the mean of the best similarities of the requirements at the places. */
  ghost predicate MeanOf(w: World, m: Measure, version: Version, chunks: seq<Vector>, s: StoredJob, places: seq<nat>, best: seq<real>,
                         score: real) {
    && |best| == |places| > 0 && score == Sum(best) / (|best| as real)
    && forall i | 0 <= i < |places| :: places[i] < |s.requirements|
                                       && BestOf(w, m, version, chunks, s.requirements[places[i]].row, best[i])
  }

  /** Places of REQUIRED requirements, in order. */
  predicate RequiredPlaces(s: StoredJob, places: seq<nat>) {
    && (forall i | 0 <= i < |places| :: places[i] < |s.requirements| && s.requirements[places[i]].row.importance == Required)
    && (forall i, j | 0 <= i < j < |places| :: places[i] < places[j])
  }

  /** The texts of two requirements, each as often as in the other, and the requirements' own are equal up to normalisation. */
  predicate SameToScorer(w: World, r: Requirement, o: Requirement) {
    && w.norm(r.text) == w.norm(o.text)
    && multiset(NormalTexts(w, r)) == multiset(NormalTexts(w, o))
  }

  function NormalTexts(w: World, r: Requirement): seq<string> {
    var texts := if r.alternatives != [] then r.alternatives else [r.text];
    seq(|texts|, i requires 0 <= i < |texts| => w.norm(texts[i]))
  }

  /** Every REQUIRED requirement is listed. */
  predicate Every(s: StoredJob, places: seq<nat>) {
    RequiredPlaces(s, places) && forall n | 0 <= n < |s.requirements| && s.requirements[n].row.importance == Required :: n in places
  }

  /** The first of every group of duplicates among the REQUIRED requirements is listed, and no other. */
  predicate FirstOfEach(w: World, s: StoredJob, places: seq<nat>) {
    && RequiredPlaces(s, places)
    && (forall i, j | 0 <= i < j < |places| :: !SameToScorer(w, s.requirements[places[i]].row, s.requirements[places[j]].row))
    && forall n | 0 <= n < |s.requirements| && s.requirements[n].row.importance == Required ::
         exists i | 0 <= i < |places| && places[i] <= n :: SameToScorer(w, s.requirements[places[i]].row, s.requirements[n].row)
  }

  // ---- one requirement

  lemma BestIs(w: World, m: Measure, version: Version, chunks: seq<Vector>, r: StoredRequirement)
    requires EmbeddedBy(w, r, version) && chunks != []
    ensures var vs := LoadRequirement(r, version).vectors; vs != [] && BestOf(w, m, version, chunks, r.row, Best(m.sim, vs, chunks))
  {
    RowCompleteness(w, r, version, version);
    var vs := LoadRequirement(r, version).vectors;
    hide LoadRequirement;
    var x, texts := Best(m.sim, vs, chunks), Texts(r.row);
    assert IsBest(m.sim, vs, chunks, x);
    assert forall a | 0 <= a < |vs| :: Stands(r.row, texts[a]) && vs[a] == w.embed(version, texts[a]);
    var a, c :| 0 <= a < |vs| && 0 <= c < |chunks| && m.sim(vs[a], chunks[c]) == x;
    assert Stands(r.row, texts[a]) && m.sim(w.embed(version, texts[a]), chunks[c]) == x;
    forall t, c | Stands(r.row, t) && 0 <= c < |chunks| ensures m.sim(w.embed(version, t), chunks[c]) <= x {
      var b :| 0 <= b < |texts| && texts[b] == t;
      assert m.sim(vs[b], chunks[c]) <= x;
    }
  }

  lemma KeysAre(w: World, r: Requirement, o: Requirement)
    ensures StoredKey(w, r) == StoredKey(w, o) <==> SameToScorer(w, r, o)
  {
    assert Normalised(w, Texts(r)) == NormalTexts(w, r) && Normalised(w, Texts(o)) == NormalTexts(w, o);
  }

  // ---- the places

  /** The places that the requirements were loaded from. */
  predicate LoadedFrom(s: StoredJob, version: Version, n: nat, rs: seq<RequirementVectors>, places: seq<nat>)
    requires n <= |s.requirements|
  {
    && |places| == |rs| && RequiredPlaces(s, places)
    && (forall i | 0 <= i < |places| :: places[i] < n)
    && (forall i | 0 <= i < |places| :: rs[i] == LoadRequirement(s.requirements[places[i]], version))
  }

  predicate NoneMissing(s: StoredJob, n: nat, places: seq<nat>)
    requires n <= |s.requirements|
  {
    forall p: nat | p < n && s.requirements[p].row.importance == Required :: p in places
  }

  lemma LoadedMore(s: StoredJob, version: Version, n: nat, rs: seq<RequirementVectors>, places: seq<nat>)
    requires n < |s.requirements| && LoadedFrom(s, version, n, rs, places) && s.requirements[n].row.importance == Required
    ensures LoadedFrom(s, version, n + 1, rs + [LoadRequirement(s.requirements[n], version)], places + [n])
  {
    hide LoadRequirement;
  }

  lemma MissingNone(s: StoredJob, n: nat, places: seq<nat>)
    requires n < |s.requirements| && NoneMissing(s, n, places)
    ensures NoneMissing(s, n + 1, if s.requirements[n].row.importance == Required then places + [n] else places)
  {
  }

  predicate LoadsAs(s: StoredJob, version: Version, rs: seq<RequirementVectors>) {
    |rs| == |s.requirements| && forall i | 0 <= i < |rs| :: rs[i] == LoadRequirement(s.requirements[i], version)
  }

  lemma Loads(s: StoredJob, version: Version)
    ensures LoadsAs(s, version, LoadJob(s, version).requirements)
  {
    hide LoadRequirement;
  }

  lemma LoadedAt(s: StoredJob, version: Version, rs: seq<RequirementVectors>, n: nat)
    requires LoadsAs(s, version, rs) && n < |s.requirements|
    ensures n < |rs| && rs[n] == LoadRequirement(s.requirements[n], version)
    ensures rs[n].importance == s.requirements[n].row.importance
  {
    LoadedImportance(s.requirements[n], version);
    hide LoadRequirement;
  }

  lemma NoPlaces(s: StoredJob, version: Version)
    ensures LoadedFrom(s, version, 0, [], []) && NoneMissing(s, 0, [])
  {
    hide LoadRequirement;
  }

  lemma LoadsAll(s: StoredJob, version: Version, rs: seq<RequirementVectors>)
    requires LoadsAs(s, version, rs)
    ensures |rs| == |s.requirements|
  {
    hide LoadRequirement;
  }

  lemma {:induction false} PlacesOf(s: StoredJob, version: Version, rs: seq<RequirementVectors>, n: nat) returns (places: seq<nat>)
    requires LoadsAs(s, version, rs) && n <= |s.requirements|
    ensures n <= |rs| && LoadedFrom(s, version, n, RequiredUpto(rs, n), places) && NoneMissing(s, n, places)
  {
    hide LoadRequirement, LoadedFrom, NoneMissing, LoadsAs;
    LoadsAll(s, version, rs);
    NoPlaces(s, version);
    places := [];
    if n > 0 {
      var front := PlacesOf(s, version, rs, n - 1);
      LoadedAt(s, version, rs, n - 1);
      LoadedMoreIf(s, version, n - 1, RequiredUpto(rs, n - 1), front);
      MissingNone(s, n - 1, front);
      if rs[n - 1].importance == Required {
        places := front + [n - 1];
      } else {
        places := front;
        assert RequiredUpto(rs, n) == RequiredUpto(rs, n - 1);
      }
    }
  }

  lemma LoadedMoreIf(s: StoredJob, version: Version, n: nat, rs: seq<RequirementVectors>, places: seq<nat>)
    requires n < |s.requirements| && LoadedFrom(s, version, n, rs, places)
    ensures if s.requirements[n].row.importance == Required
            then LoadedFrom(s, version, n + 1, rs + [LoadRequirement(s.requirements[n], version)], places + [n])
            else LoadedFrom(s, version, n + 1, rs, places)
  {
    if s.requirements[n].row.importance == Required { LoadedMore(s, version, n, rs, places); } else {}
  }

  /** Every requirement met so far has one among those kept that is not after it and looks the same to the scorer. */
  predicate Represented(w: World, s: StoredJob, n: nat, places: seq<nat>)
    requires n <= |s.requirements| && RequiredPlaces(s, places)
  {
    forall p | 0 <= p < n && s.requirements[p].row.importance == Required ::
      exists i | 0 <= i < |places| && places[i] <= p ::
        StoredKey(w, s.requirements[places[i]].row) == StoredKey(w, s.requirements[p].row)
  }

  predicate AllDiffer(w: World, s: StoredJob, places: seq<nat>)
    requires RequiredPlaces(s, places)
  {
    forall i, j | 0 <= i < j < |places| ::
      StoredKey(w, s.requirements[places[i]].row) != StoredKey(w, s.requirements[places[j]].row)
  }

  lemma SeenAt(w: World, s: StoredJob, version: Version, n: nat, rs: seq<RequirementVectors>, places: seq<nat>)
    requires n < |s.requirements| && LoadedFrom(s, version, n, rs, places)
    ensures Seen(w, rs, ScorerKey(w, LoadRequirement(s.requirements[n], version))) <==>
              exists i | 0 <= i < |places| :: StoredKey(w, s.requirements[places[i]].row) == StoredKey(w, s.requirements[n].row)
  {
    forall i | 0 <= i < |s.requirements|
      ensures ScorerKey(w, LoadRequirement(s.requirements[i], version)) == StoredKey(w, s.requirements[i].row) {
      KeyLoaded(w, s.requirements[i], version);
    }
    hide ScorerKey, StoredKey, LoadRequirement;
    if i :| 0 <= i < |places| && StoredKey(w, s.requirements[places[i]].row) == StoredKey(w, s.requirements[n].row) {
      assert ScorerKey(w, rs[i]) == StoredKey(w, s.requirements[n].row);
    }
  }

  lemma KeyLoaded(w: World, r: StoredRequirement, version: Version)
    ensures ScorerKey(w, LoadRequirement(r, version)) == StoredKey(w, r.row)
  {
    hide Normalised;
  }

  lemma StillRepresented(w: World, s: StoredJob, n: nat, places: seq<nat>)
    requires n < |s.requirements| && RequiredPlaces(s, places) && Represented(w, s, n, places)
    requires s.requirements[n].row.importance == Required ==>
               exists i | 0 <= i < |places| && places[i] <= n ::
                 StoredKey(w, s.requirements[places[i]].row) == StoredKey(w, s.requirements[n].row)
    ensures Represented(w, s, n + 1, places)
  {
    hide StoredKey;
  }

  lemma NewlyRepresented(w: World, s: StoredJob, n: nat, places: seq<nat>)
    requires n < |s.requirements| && RequiredPlaces(s, places) && RequiredPlaces(s, places + [n])
    requires Represented(w, s, n, places) && AllDiffer(w, s, places)
    requires forall i | 0 <= i < |places| :: StoredKey(w, s.requirements[places[i]].row) != StoredKey(w, s.requirements[n].row)
    ensures Represented(w, s, n + 1, places + [n]) && AllDiffer(w, s, places + [n])
  {
    hide StoredKey, RequiredPlaces;
    var all := places + [n];
    forall p | 0 <= p < n + 1 && s.requirements[p].row.importance == Required
      ensures exists i | 0 <= i < |all| && all[i] <= p ::
                StoredKey(w, s.requirements[all[i]].row) == StoredKey(w, s.requirements[p].row) {
      if p < n {
        var i :| 0 <= i < |places| && places[i] <= p && StoredKey(w, s.requirements[places[i]].row) == StoredKey(w, s.requirements[p].row);
        assert all[i] == places[i];
      } else {
        assert all[|places|] == p;
      }
    }
  }

  lemma {:induction false} OncePlaces(w: World, s: StoredJob, version: Version, rs: seq<RequirementVectors>, n: nat)
    returns (places: seq<nat>)
    requires LoadsAs(s, version, rs) && n <= |s.requirements|
    ensures n <= |rs| && LoadedFrom(s, version, n, RequiredOnce(w, rs[..n]), places) && RequiredPlaces(s, places)
    ensures Represented(w, s, n, places) && AllDiffer(w, s, places)
  {
    hide *;
    LoadsAll(s, version, rs);
    if n == 0 {
      OnceNothing(w, rs);
      places := [];
      NoPlaces(s, version);
      NobodyYet(w, s);
    } else {
      var front := OncePlaces(w, s, version, rs, n - 1);
      KeptMore(w, rs, n - 1);
      LoadedAt(s, version, rs, n - 1);
      LoadedPlaces(s, version, n - 1, RequiredOnce(w, rs[..n - 1]), front);
      places := OnceMore(w, s, version, n - 1, RequiredOnce(w, rs[..n - 1]), front);
    }
  }

  lemma NobodyYet(w: World, s: StoredJob)
    ensures RequiredPlaces(s, []) && Represented(w, s, 0, []) && AllDiffer(w, s, [])
  {
  }

  lemma OnceMore(w: World, s: StoredJob, version: Version, n: nat, kept: seq<RequirementVectors>, front: seq<nat>) returns (places: seq<nat>)
    requires n < |s.requirements| && LoadedFrom(s, version, n, kept, front) && RequiredPlaces(s, front)
    requires Represented(w, s, n, front) && AllDiffer(w, s, front)
    ensures var r := LoadRequirement(s.requirements[n], version);
            LoadedFrom(s, version, n + 1,
                       if s.requirements[n].row.importance != Required || Seen(w, kept, ScorerKey(w, r)) then kept else kept + [r], places)
    ensures RequiredPlaces(s, places) && Represented(w, s, n + 1, places) && AllDiffer(w, s, places)
  {
    hide *;
    var r := s.requirements[n];
    SeenAt(w, s, version, n, kept, front);
    LoadedLater(s, version, n, kept, front);
    if r.row.importance == Required && !(exists i | 0 <= i < |front| :: StoredKey(w, s.requirements[front[i]].row) == StoredKey(w, r.row)) {
      LoadedMore(s, version, n, kept, front);
      LoadedPlaces(s, version, n + 1, kept + [LoadRequirement(r, version)], front + [n]);
      NewlyRepresented(w, s, n, front);
      places := front + [n];
    } else {
      StillRepresented(w, s, n, front);
      places := front;
    }
  }

  lemma LoadedPlaces(s: StoredJob, version: Version, n: nat, rs: seq<RequirementVectors>, places: seq<nat>)
    requires n <= |s.requirements| && LoadedFrom(s, version, n, rs, places)
    ensures |places| == |rs| && RequiredPlaces(s, places) && forall i | 0 <= i < |places| :: places[i] < n <= |s.requirements|
  {
    hide LoadRequirement;
  }

  lemma LoadedLater(s: StoredJob, version: Version, n: nat, rs: seq<RequirementVectors>, places: seq<nat>)
    requires n < |s.requirements| && LoadedFrom(s, version, n, rs, places)
    ensures LoadedFrom(s, version, n + 1, rs, places) && RequiredPlaces(s, places) && forall i | 0 <= i < |places| :: places[i] <= n
  {
    hide LoadRequirement;
  }

  // ---- the means

  lemma {:induction false} SumIsTotal(m: Measure, chunks: seq<Vector>, rs: seq<RequirementVectors>, best: seq<real>)
    requires chunks != [] && RankingExactness.AllComplete(rs) && |best| == |rs|
    requires forall i | 0 <= i < |rs| :: CompleteRow(rs[i]) && best[i] == Best(m.sim, rs[i].vectors, chunks)
    ensures Sum(best) == Total(m.sim, chunks, rs)
  {
    hide Best;
    if rs != [] {
      var n := |rs| - 1;
      assert CompleteRow(rs[n]);
      SumIsTotal(m, chunks, rs[..n], best[..n]);
    }
  }

  /** The mean of loaded requirements is the mean of the requirements at the places they were loaded from. */
  lemma MeanIs(w: World, m: Measure, version: Version, chunks: seq<Vector>, s: StoredJob, n: nat, rs: seq<RequirementVectors>, places: seq<nat>)
    returns (best: seq<real>)
    requires n <= |s.requirements| && LoadedFrom(s, version, n, rs, places) && AllEmbeddedBy(w, s.requirements, version)
    requires chunks != [] && rs != [] && RankingExactness.AllComplete(rs)
    ensures MeanOf(w, m, version, chunks, s, places, best, Mean(m.sim, chunks, rs))
  {
    hide LoadRequirement, Best, BestOf, EmbeddedBy, Total, Sum;
    best := seq(|rs|, i requires 0 <= i < |rs| => assert CompleteRow(rs[i]); Best(m.sim, rs[i].vectors, chunks));
    forall i | 0 <= i < |places| ensures BestOf(w, m, version, chunks, s.requirements[places[i]].row, best[i]) {
      assert EmbeddedBy(w, s.requirements[places[i]], version);
      BestIs(w, m, version, chunks, s.requirements[places[i]]);
    }
    assert forall i | 0 <= i < |rs| :: CompleteRow(rs[i]);
    SumIsTotal(m, chunks, rs, best);
  }

  // ---- the jobs

  /** The job is active and passes every filter that is set. */
  predicate Passes(f: Filter, s: StoredJob) {
    && s.content.details.active
    && (f.jobIds.Some? ==> s.id in f.jobIds.value)
    && (f.jobTypes.Some? ==> s.content.details.jobType in f.jobTypes.value)
    && (f.employmentTimes.Some? ==> s.content.details.employmentTime in f.employmentTimes.value)
    && (f.workArrangements.Some? ==> s.content.details.workArrangement in f.workArrangements.value)
  }

  lemma CandidateIs(q: Query, k: JobKey)
    requires k in q.store.jobs
    ensures Candidate(q.store, q.filter, k) <==> Passes(q.filter, q.store.jobs[k])
  {
  }

  lemma CandidateAt(q: Query, ks: seq<JobKey>, i: nat)
    requires Enumerates(q, ks) && i < |ks|
    ensures ks[i] in q.store.jobs && Passes(q.filter, q.store.jobs[ks[i]])
  {
    assert Candidate(q.store, q.filter, ks[i]);
  }

  /** A scored job has all its vectors under the version of the query. */
  lemma ScoredUnderVersion(w: World, q: Query, m: Measure, ks: seq<JobKey>, chunks: seq<Vector>, i: nat)
    requires Ranks(w, q, ks, chunks) && i < |ks| && (forall n | 0 <= n < |ks| :: ks[n] in q.store.jobs)
    ensures var s := q.store.jobs[ks[i]];
            ScoreJob(w, m.sim, chunks, LoadAll(q, ks)[i]).Match?
            <==> AllRequired(LoadJob(s, q.version)) != [] && AllEmbeddedBy(w, s.requirements, q.version)
  {
    var s := q.store.jobs[ks[i]];
    assert JobOk(w, s);
    var stored :| AllEmbeddedBy(w, s.requirements, stored);
    ScoredOnce(w, m.sim, chunks, s, stored, q.version);
    hide ScoreJob, LoadJob, AllRequired, Enumerates;
    if AllRequired(LoadJob(s, q.version)) != [] && AllEmbeddedBy(w, s.requirements, q.version) {
      SomeRequired(s, q.version);
      OneVersion(w, s, stored, q.version);
    }
  }

  lemma SomeRequired(s: StoredJob, version: Version)
    ensures AllRequired(LoadJob(s, version)) != [] <==> exists n | 0 <= n < |s.requirements| :: s.requirements[n].row.importance == Required
  {
    hide *;
    var rs := LoadJob(s, version).requirements;
    Loads(s, version);
    LoadsAll(s, version, rs);
    AllIs(LoadJob(s, version));
    var places := PlacesOf(s, version, rs, |s.requirements|);
    LoadedPlaces(s, version, |s.requirements|, RequiredUpto(rs, |s.requirements|), places);
    MissingIs(s, |s.requirements|, places);
    if places != [] { PlaceIs(s, places, 0); }
  }

  lemma MissingIs(s: StoredJob, n: nat, places: seq<nat>)
    requires n <= |s.requirements| && NoneMissing(s, n, places)
    ensures forall p: nat | p < n && s.requirements[p].row.importance == Required :: p in places
  {
  }

  lemma PlaceIs(s: StoredJob, places: seq<nat>, i: nat)
    requires RequiredPlaces(s, places) && i < |places|
    ensures places[i] < |s.requirements| && s.requirements[places[i]].row.importance == Required
  {
  }

  lemma OneVersion(w: World, s: StoredJob, a: Version, b: Version)
    requires AllEmbeddedBy(w, s.requirements, a) && AllEmbeddedBy(w, s.requirements, b) && s.requirements != []
    ensures a == b
  {
    assert EmbeddedBy(w, s.requirements[0], a) && EmbeddedBy(w, s.requirements[0], b);
    assert |Texts(s.requirements[0].row)| > 0;
  }

  /** A score in the query is the mean, over all REQUIRED requirements of an active job that passes the filters, of the best
    * similarity of a text of the requirement to a chunk. */
  lemma QueryScoreIsTheMean(w: World, q: Query, m: Measure, ks: seq<JobKey>, chunks: seq<Vector>, x: JobMatch)
    returns (k: JobKey, places: seq<nat>, best: seq<real>)
    requires Ranks(w, q, ks, chunks) && x in JobScores(q, m.sim)
    ensures k in q.store.jobs && Passes(q.filter, q.store.jobs[k]) && x.jobId == q.store.jobs[k].id
    ensures Every(q.store.jobs[k], places) && MeanOf(w, m, q.version, chunks, q.store.jobs[k], places, best, x.score)
  {
    hide *;
    RanksKnown(w, q, ks, chunks);
    var i := QueryScores(w, q, m, ks, chunks, x);
    k := ks[i];
    var s := q.store.jobs[k];
    RanksEnumerate(w, q, ks, chunks);
    CandidateAt(q, ks, i);
    ScoredUnderVersion(w, q, m, ks, chunks, i);
    LoadedId(s, q.version);
    var job, n := LoadJob(s, q.version), |s.requirements|;
    Loads(s, q.version);
    LoadsAll(s, q.version, job.requirements);
    AllIs(job);
    places := PlacesOf(s, q.version, job.requirements, n);
    EveryIs(s, q.version, AllRequired(job), places);
    ScoresIs(chunks, AllRequired(job));
    best := MeanIs(w, m, q.version, chunks, s, n, AllRequired(job), places);
  }

  lemma RanksEnumerate(w: World, q: Query, ks: seq<JobKey>, chunks: seq<Vector>)
    requires Ranks(w, q, ks, chunks)
    ensures Enumerates(q, ks)
  {
  }

  lemma EveryIs(s: StoredJob, version: Version, rs: seq<RequirementVectors>, places: seq<nat>)
    requires LoadedFrom(s, version, |s.requirements|, rs, places) && NoneMissing(s, |s.requirements|, places)
    ensures Every(s, places)
  {
    hide LoadRequirement;
  }

  lemma FirstIs(w: World, s: StoredJob, places: seq<nat>)
    requires RequiredPlaces(s, places) && Represented(w, s, |s.requirements|, places) && AllDiffer(w, s, places)
    ensures FirstOfEach(w, s, places)
  {
    hide StoredKey, SameToScorer, NormalTexts;
    forall r, o ensures StoredKey(w, r) == StoredKey(w, o) <==> SameToScorer(w, r, o) { KeysAre(w, r, o); }
  }

  /** A score in memory is the mean over the first of every group of duplicates. */
  lemma MemoryScoreIsTheMean(w: World, q: Query, m: Measure, ks: seq<JobKey>, chunks: seq<Vector>, x: JobMatch)
    returns (k: JobKey, places: seq<nat>, best: seq<real>)
    requires Ranks(w, q, ks, chunks) && (forall n | 0 <= n < |ks| :: ks[n] in q.store.jobs)
    requires x in Matches(w, m.sim, chunks, LoadAll(q, ks))
    ensures k in q.store.jobs && Passes(q.filter, q.store.jobs[k]) && x.jobId == q.store.jobs[k].id
    ensures FirstOfEach(w, q.store.jobs[k], places) && MeanOf(w, m, q.version, chunks, q.store.jobs[k], places, best, x.score)
  {
    hide *;
    RanksKnown(w, q, ks, chunks);
    var i := MatchedAt(w, m, chunks, LoadAll(q, ks), x);
    k := ks[i];
    var s := q.store.jobs[k];
    RanksEnumerate(w, q, ks, chunks);
    CandidateAt(q, ks, i);
    CandidateTreated(w, q, m, ks, chunks, i);
    ScoredUnderVersion(w, q, m, ks, chunks, i);
    var job, n := LoadJob(s, q.version), |s.requirements|;
    Loads(s, q.version);
    LoadsAll(s, q.version, job.requirements);
    DistinctIs(w, job);
    places := OncePlaces(w, s, q.version, job.requirements, n);
    LoadedPlaces(s, q.version, n, DistinctRequired(w, job), places);
    FirstIs(w, s, places);
    ScoresIs(chunks, DistinctRequired(w, job));
    best := MeanIs(w, m, q.version, chunks, s, n, DistinctRequired(w, job), places);
  }

  lemma DistinctIs(w: World, job: JobVectors)
    ensures DistinctRequired(w, job) == RequiredOnce(w, job.requirements[..|job.requirements|])
  {
    assert job.requirements[..|job.requirements|] == job.requirements;
  }

  lemma MatchedAt(w: World, m: Measure, chunks: seq<Vector>, jobs: seq<JobVectors>, x: JobMatch) returns (i: nat)
    requires chunks != [] && x in Matches(w, m.sim, chunks, jobs)
    ensures i < |jobs| && ScoreJob(w, m.sim, chunks, jobs[i]).Match? && ScoreJob(w, m.sim, chunks, jobs[i]).m == x
  {
    hide ScoreJob;
    i :| 0 <= i < |jobs| && ScoreJob(w, m.sim, chunks, jobs[i]).Match? && ScoreJob(w, m.sim, chunks, jobs[i]).m == x;
  }

  /** Both rankings list exactly the active jobs that pass the filters, have a REQUIRED requirement, and have all their vectors
    * under the version of the query. */
  lemma WhichJobsAreListed(w: World, q: Query, m: Measure, ks: seq<JobKey>, chunks: seq<Vector>, k: JobKey)
    requires Ranks(w, q, ks, chunks) && (forall n | 0 <= n < |ks| :: ks[n] in q.store.jobs) && k in q.store.jobs
    ensures var s := q.store.jobs[k];
            var listed := Passes(q.filter, s) && (exists i | 0 <= i < |s.requirements| :: s.requirements[i].row.importance == Required)
                          && forall i, a | 0 <= i < |s.requirements| && 0 <= a < |s.requirements[i].vectors| ::
                               s.requirements[i].vectors[a].version == q.version;
            && (listed <==> exists x | x in JobScores(q, m.sim) :: x.jobId == s.id)
            && (listed <==> exists x | x in Matches(w, m.sim, chunks, LoadAll(q, ks)) :: x.jobId == s.id)
  {
    hide *;
    var s := q.store.jobs[k];
    RanksKnown(w, q, ks, chunks);
    SomeRequired(s, q.version);
    UnderVersion(w, q, k, ks, chunks);
    CandidateIs(q, k);
    if Passes(q.filter, s) {
      var i := PlaceOf(w, q, ks, chunks, k);
      ScoredUnderVersion(w, q, m, ks, chunks, i);
      CandidateTreated(w, q, m, ks, chunks, i);
      if ScoreJob(w, m.sim, chunks, LoadAll(q, ks)[i]).Match? {
        InQuery(w, q, m, ks, chunks, i);
        InMemory(w, q, m, ks, chunks, i);
      }
    }
    if x :| x in JobScores(q, m.sim) && x.jobId == s.id {
      var i := QueryScores(w, q, m, ks, chunks, x);
      SameJob(w, q, ks, chunks, k, i);
      ScoredUnderVersion(w, q, m, ks, chunks, i);
    }
    if x :| x in Matches(w, m.sim, chunks, LoadAll(q, ks)) && x.jobId == s.id {
      var i := MatchedAt(w, m, chunks, LoadAll(q, ks), x);
      CandidateTreated(w, q, m, ks, chunks, i);
      SameJob(w, q, ks, chunks, k, i);
      ScoredUnderVersion(w, q, m, ks, chunks, i);
    }
  }

  lemma PlaceOf(w: World, q: Query, ks: seq<JobKey>, chunks: seq<Vector>, k: JobKey) returns (i: nat)
    requires Ranks(w, q, ks, chunks) && k in q.store.jobs && Candidate(q.store, q.filter, k)
    ensures i < |ks| && ks[i] == k
  {
    hide Candidate, Coherent, IdsOk, ChunkSet;
    i :| 0 <= i < |ks| && ks[i] == k;
  }

  lemma InMemory(w: World, q: Query, m: Measure, ks: seq<JobKey>, chunks: seq<Vector>, i: nat)
    requires i < |ks| && (forall n | 0 <= n < |ks| :: ks[n] in q.store.jobs) && chunks != []
    requires ScoreJob(w, m.sim, chunks, LoadAll(q, ks)[i]).Match?
    ensures ScoreJob(w, m.sim, chunks, LoadAll(q, ks)[i]).m in Matches(w, m.sim, chunks, LoadAll(q, ks))
  {
    hide ScoreJob;
  }

  /** Job ids are unique. */
  lemma SameJob(w: World, q: Query, ks: seq<JobKey>, chunks: seq<Vector>, k: JobKey, i: nat)
    requires Ranks(w, q, ks, chunks) && (forall n | 0 <= n < |ks| :: ks[n] in q.store.jobs) && k in q.store.jobs && i < |ks|
    requires LoadAll(q, ks)[i].jobId == q.store.jobs[k].id
    ensures ks[i] == k && Passes(q.filter, q.store.jobs[k])
  {
    LoadedId(q.store.jobs[ks[i]], q.version);
    CandidateAt(q, ks, i);
    hide LoadJob, Coherent, ChunkSet, Enumerates, Passes, JobIdsOk;
  }

  lemma UnderVersion(w: World, q: Query, k: JobKey, ks: seq<JobKey>, chunks: seq<Vector>)
    requires Ranks(w, q, ks, chunks) && k in q.store.jobs
    ensures var s := q.store.jobs[k];
            AllEmbeddedBy(w, s.requirements, q.version)
            <==> forall i, a | 0 <= i < |s.requirements| && 0 <= a < |s.requirements[i].vectors| ::
                   s.requirements[i].vectors[a].version == q.version
  {
    var s := q.store.jobs[k];
    assert JobOk(w, s);
    var stored :| AllEmbeddedBy(w, s.requirements, stored);
    hide Ranks, JobOk;
    if s.requirements != [] {
      assert EmbeddedBy(w, s.requirements[0], stored);
      assert s.requirements[0].vectors[0].version == stored;
    }
  }
}
