/** The SQL ranking is the in-memory ranking, for every catalogue that imports have produced. */
module RankingTheorems {
  import opened Wrappers
  import opened Catalogue
  import opened ImportTheorems
  import opened Scoring
  import opened SqlRanking

  /** The scorer's key of a stored requirement: unlike the importer's, it takes the text for missing alternatives. */
  function StoredKey(w: World, r: Requirement): RequirementKey {
    RequirementKey(w.norm(r.text), multiset(Normalised(w, Texts(r))))
  }

  /** No two REQUIRED requirements of the job are duplicates to the scorer. */
  predicate DistinctToScorer(w: World, s: StoredJob) {
    forall i, j | 0 <= i < j < |s.requirements| && s.requirements[i].row.importance == Required
                  && s.requirements[j].row.importance == Required ::
      StoredKey(w, s.requirements[i].row) != StoredKey(w, s.requirements[j].row)
  }

  // ---- one requirement

  lemma {:induction false} GotAll(vs: seq<StoredVector>, version: Version)
    requires forall a | 0 <= a < |vs| :: vs[a].version == version
    ensures |Got(vs, version)| == |vs| && forall a | 0 <= a < |vs| :: Got(vs, version)[a] == vs[a].vector
  {
    if vs != [] { GotAll(vs[..|vs| - 1], version); }
  }

  lemma {:induction false} GotNone(vs: seq<StoredVector>, version: Version)
    requires forall a | 0 <= a < |vs| :: vs[a].version != version
    ensures Got(vs, version) == []
  {
    if vs != [] { GotNone(vs[..|vs| - 1], version); }
  }

  /** A stored requirement is complete for the scorer exactly when it was embedded by the version asked for. */
  lemma RowCompleteness(w: World, r: StoredRequirement, stored: Version, version: Version)
    requires EmbeddedBy(w, r, stored)
    ensures CompleteRow(LoadRequirement(r, version)) <==> stored == version
    ensures stored == version ==> |LoadRequirement(r, version).vectors| == |r.vectors|
                                  && forall a | 0 <= a < |r.vectors| :: LoadRequirement(r, version).vectors[a] == r.vectors[a].vector
  {
    assert Relevant(r) == r.vectors;
    if stored == version { GotAll(r.vectors, version); } else { GotNone(r.vectors, version); }
  }

  /** The requirement at a place, and the place of a requirement id. */
  predicate At(q: Query, k: JobKey, i: nat) {
    k in q.store.jobs && i < |q.store.jobs[k].requirements|
  }

  function RequirementAt(q: Query, k: JobKey, i: nat): StoredRequirement
    requires At(q, k, i)
  {
    q.store.jobs[k].requirements[i]
  }

  lemma OnePlace(q: Query, k: JobKey, i: nat, m: JobKey, j: nat)
    requires IdsOk(q.store) && At(q, k, i) && At(q, m, j) && RequirementAt(q, k, i).id == RequirementAt(q, m, j).id
    ensures k == m && i == j
  {
    assert JobIdsOk(q.store, k);
  }

  lemma EmbeddingsAt(q: Query, k: JobKey, i: nat, e: EmbRow)
    requires IdsOk(q.store) && At(q, k, i)
    ensures var r := RequirementAt(q, k, i);
            e in EmbTable(q) && e.requirement == r.id <==>
              e.index < |r.vectors| && r.vectors[e.index].version == q.version && e == EmbRow(r.id, e.index, r.vectors[e.index].vector)
  {
    var r := RequirementAt(q, k, i);
    if e in EmbTable(q) && e.requirement == r.id {
      var m, j, a :| m in q.store.jobs && 0 <= j < |q.store.jobs[m].requirements|
                     && 0 <= a < |q.store.jobs[m].requirements[j].vectors|
                     && q.store.jobs[m].requirements[j].vectors[a].version == q.version
                     && e == EmbRow(q.store.jobs[m].requirements[j].id, a, q.store.jobs[m].requirements[j].vectors[a].vector);
      OnePlace(q, k, i, m, j);
    }
    hide IdsOk;
  }

  lemma AlternativesAt(q: Query, k: JobKey, i: nat, c: Vector)
    requires IdsOk(q.store) && At(q, k, i) && c in q.chunks
    ensures var r := RequirementAt(q, k, i);
            forall a: nat :: a in Alternatives(q, r.id) <==> a < |r.vectors| && r.vectors[a].version == q.version
  {
    var r := RequirementAt(q, k, i);
    forall a: nat ensures a in Alternatives(q, r.id) <==> a < |r.vectors| && r.vectors[a].version == q.version {
      if a < |r.vectors| && r.vectors[a].version == q.version {
        EmbeddingsAt(q, k, i, EmbRow(r.id, a, r.vectors[a].vector));
      }
      if a in Alternatives(q, r.id) {
        var e, d :| e in EmbTable(q) && d in q.chunks && e.requirement == r.id && e.index == a;
        EmbeddingsAt(q, k, i, e);
      }
    }
  }

  lemma SimsAt(q: Query, sim: (Vector, Vector) -> real, k: JobKey, i: nat, a: nat)
    requires IdsOk(q.store) && At(q, k, i)
    requires a < |RequirementAt(q, k, i).vectors| && RequirementAt(q, k, i).vectors[a].version == q.version
    ensures Sims(q, sim, RequirementAt(q, k, i).id, a) == set c | c in q.chunks :: sim(RequirementAt(q, k, i).vectors[a].vector, c)
  {
    var r := RequirementAt(q, k, i);
    EmbeddingsAt(q, k, i, EmbRow(r.id, a, r.vectors[a].vector));
    forall e | e in EmbTable(q) && e.requirement == r.id && e.index == a ensures e.vector == r.vectors[a].vector {
      EmbeddingsAt(q, k, i, e);
    }
  }

  /** The first `n` alternative indexes. */
  function Upto(n: nat): (r: set<nat>)
    ensures |r| == n && forall a: nat :: a in r <==> a < n
  {
    if n == 0 then {} else Upto(n - 1) + {n - 1}
  }

  predicate ChunkSet(chunks: seq<Vector>, s: set<Vector>) {
    (forall j | 0 <= j < |chunks| :: chunks[j] in s) && (forall c | c in s :: c in chunks)
  }

  lemma AllAlternatives(w: World, q: Query, k: JobKey, i: nat, chunks: seq<Vector>)
    requires IdsOk(q.store) && At(q, k, i) && EmbeddedBy(w, RequirementAt(q, k, i), q.version)
    requires chunks != [] && ChunkSet(chunks, q.chunks)
    ensures var r := RequirementAt(q, k, i);
            var vs := LoadRequirement(r, q.version).vectors;
            && |vs| == |r.vectors| == Expected(r.row) && Alternatives(q, r.id) == Upto(|vs|)
            && Alternatives(q, r.id) != {} && HaveAlts(q, r.id) == Expected(r.row)
            && forall a | 0 <= a < |vs| :: r.vectors[a].version == q.version && vs[a] == r.vectors[a].vector
  {
    var r := RequirementAt(q, k, i);
    RowCompleteness(w, r, q.version, q.version);
    EmbeddedRow(w, r, q.version);
    FirstChunk(chunks, q.chunks);
    hide *;
    AlternativesAt(q, k, i, chunks[0]);
    assert Alternatives(q, r.id) == Upto(|r.vectors|);
    CountedAlternatives(q, r.id, |r.vectors|);
  }

  lemma FirstChunk(chunks: seq<Vector>, s: set<Vector>)
    requires chunks != [] && ChunkSet(chunks, s)
    ensures chunks[0] in s
  {
  }

  lemma EmbeddedRow(w: World, r: StoredRequirement, version: Version)
    requires EmbeddedBy(w, r, version)
    ensures |r.vectors| == Expected(r.row) > 0 && forall a | 0 <= a < |r.vectors| :: r.vectors[a].version == version
  {
  }

  lemma CountedAlternatives(q: Query, requirement: nat, n: nat)
    requires Alternatives(q, requirement) == Upto(n) && n > 0
    ensures Alternatives(q, requirement) != {} && HaveAlts(q, requirement) == n
  {
    hide Alternatives;
    assert 0 in Upto(n);
  }

  /** A requirement embedded by the version asked for has all its alternatives, and its score is the best similarity. */
  lemma CompleteInSql(w: World, q: Query, m: Measure, k: JobKey, i: nat, chunks: seq<Vector>)
    requires IdsOk(q.store) && At(q, k, i) && EmbeddedBy(w, RequirementAt(q, k, i), q.version)
    requires chunks != [] && ChunkSet(chunks, q.chunks)
    ensures HaveAlts(q, RequirementAt(q, k, i).id) == Expected(RequirementAt(q, k, i).row)
    ensures var vs := LoadRequirement(RequirementAt(q, k, i), q.version).vectors;
            vs != [] && ReqScore(q, m.sim, RequirementAt(q, k, i).id) == Best(m.sim, vs, chunks)
  {
    var r := RequirementAt(q, k, i);
    var vs := LoadRequirement(r, q.version).vectors;
    AllAlternatives(w, q, k, i, chunks);
    var x := ReqScore(q, m.sim, r.id);
    hide *;
    ReqScoreIsMax(q, m.sim, r.id);
    BestInSql(q, m.sim, k, i, vs, chunks, x);
    BestIsUnique(m.sim, vs, chunks, x, Best(m.sim, vs, chunks));
  }

  lemma ReqScoreIsMax(q: Query, sim: (Vector, Vector) -> real, requirement: nat)
    requires Alternatives(q, requirement) != {}
    ensures IsMax(AltBests(q, sim, requirement), ReqScore(q, sim, requirement))
  {
    hide Alternatives, AltBest;
    var i := Pick(Alternatives(q, requirement));
    assert AltBest(q, sim, requirement, i) in AltBests(q, sim, requirement);
  }

  predicate RowBest(sim: (Vector, Vector) -> real, v: Vector, chunks: seq<Vector>, x: real) {
    (exists c | 0 <= c < |chunks| :: sim(v, chunks[c]) == x) && (forall c | 0 <= c < |chunks| :: sim(v, chunks[c]) <= x)
  }

  lemma RowFromSet(sim: (Vector, Vector) -> real, v: Vector, chunks: seq<Vector>, s: set<Vector>, x: real)
    requires ChunkSet(chunks, s) && IsMax(set c | c in s :: sim(v, c), x)
    ensures RowBest(sim, v, chunks, x)
  {
    var all := set c | c in s :: sim(v, c);
    var c :| c in s && sim(v, c) == x;
    var j :| 0 <= j < |chunks| && chunks[j] == c;
    assert sim(v, chunks[j]) == x;
    forall d | 0 <= d < |chunks| ensures sim(v, chunks[d]) <= x {
      assert chunks[d] in s;
      assert sim(v, chunks[d]) in all;
    }
  }

  /** One alternative: its best similarity over the chunks. */
  lemma AltInSql(q: Query, sim: (Vector, Vector) -> real, k: JobKey, i: nat, chunks: seq<Vector>, a: nat)
    requires IdsOk(q.store) && At(q, k, i) && chunks != [] && ChunkSet(chunks, q.chunks)
    requires a < |RequirementAt(q, k, i).vectors| && RequirementAt(q, k, i).vectors[a].version == q.version
    ensures RowBest(sim, RequirementAt(q, k, i).vectors[a].vector, chunks, AltBest(q, sim, RequirementAt(q, k, i).id, a))
  {
    var id, v := RequirementAt(q, k, i).id, RequirementAt(q, k, i).vectors[a].vector;
    SimsAt(q, sim, k, i, a);
    assert chunks[0] in q.chunks;
    hide IdsOk, Sims, ChunkSet, RequirementAt;
    assert sim(v, chunks[0]) in Sims(q, sim, id, a);
    RowFromSet(sim, v, chunks, q.chunks, AltBest(q, sim, id, a));
  }

  lemma BestFromRows(sim: (Vector, Vector) -> real, vs: seq<Vector>, chunks: seq<Vector>, bests: seq<real>, b: nat)
    requires |bests| == |vs| && (forall a | 0 <= a < |vs| :: RowBest(sim, vs[a], chunks, bests[a]))
    requires b < |bests| && forall a | 0 <= a < |bests| :: bests[a] <= bests[b]
    ensures IsBest(sim, vs, chunks, bests[b])
  {
    assert RowBest(sim, vs[b], chunks, bests[b]);
    forall a, d | 0 <= a < |vs| && 0 <= d < |chunks| ensures sim(vs[a], chunks[d]) <= bests[b] {
      assert RowBest(sim, vs[a], chunks, bests[a]);
    }
  }

  lemma BestInSql(q: Query, sim: (Vector, Vector) -> real, k: JobKey, i: nat, vs: seq<Vector>, chunks: seq<Vector>, x: real)
    requires IdsOk(q.store) && At(q, k, i) && chunks != [] && ChunkSet(chunks, q.chunks)
    requires |vs| == |RequirementAt(q, k, i).vectors|
    requires forall a | 0 <= a < |vs| :: RequirementAt(q, k, i).vectors[a].version == q.version
                                         && vs[a] == RequirementAt(q, k, i).vectors[a].vector
    requires Alternatives(q, RequirementAt(q, k, i).id) == Upto(|vs|)
    requires IsMax(AltBests(q, sim, RequirementAt(q, k, i).id), x)
    ensures IsBest(sim, vs, chunks, x)
  {
    var id := RequirementAt(q, k, i).id;
    forall a: nat | a < |vs| ensures RowBest(sim, vs[a], chunks, AltBest(q, sim, id, a)) { AltInSql(q, sim, k, i, chunks, a); }
    hide *;
    MaxOfRows(q, sim, id, vs, chunks, x);
  }

  lemma MaxOfRows(q: Query, sim: (Vector, Vector) -> real, id: nat, vs: seq<Vector>, chunks: seq<Vector>, x: real)
    requires Alternatives(q, id) == Upto(|vs|) && IsMax(AltBests(q, sim, id), x)
    requires forall a: nat | a < |vs| :: RowBest(sim, vs[a], chunks, AltBest(q, sim, id, a))
    ensures IsBest(sim, vs, chunks, x)
  {
    hide Alternatives, AltBest, RowBest, IsBest;
    var bests := seq(|vs|, a requires 0 <= a < |vs| => AltBest(q, sim, id, a));
    var b :| b in Alternatives(q, id) && AltBest(q, sim, id, b) == x;
    forall a: nat | a < |vs| ensures bests[a] <= x { assert AltBest(q, sim, id, a) in AltBests(q, sim, id); }
    BestFromRows(sim, vs, chunks, bests, b);
  }

  /** A requirement embedded by another version, or met by no chunk, has no alternative in the query. */
  lemma IncompleteInSql(w: World, q: Query, k: JobKey, i: nat, stored: Version)
    requires IdsOk(q.store) && At(q, k, i) && EmbeddedBy(w, RequirementAt(q, k, i), stored)
    requires stored != q.version || q.chunks == {}
    ensures HaveAlts(q, RequirementAt(q, k, i).id) != Expected(RequirementAt(q, k, i).row)
  {
    var r := RequirementAt(q, k, i);
    forall a | a in Alternatives(q, r.id) ensures false {
      var e, c :| e in EmbTable(q) && c in q.chunks && e.requirement == r.id && e.index == a;
      EmbeddingsAt(q, k, i, e);
    }
    assert Alternatives(q, r.id) == {};
  }

  // ---- one job

  /** The REQUIRED requirements among the first `n`. */
  function RequiredUpto(rs: seq<RequirementVectors>, n: nat): seq<RequirementVectors>
    requires n <= |rs|
  {
    if n == 0 then [] else RequiredUpto(rs, n - 1) + (if rs[n - 1].importance == Required then [rs[n - 1]] else [])
  }

  lemma {:induction false} KeptFrom(w: World, s: StoredJob, version: Version, n: nat, i: nat) returns (j: nat)
    requires n <= |s.requirements| && i < |RequiredUpto(LoadJob(s, version).requirements, n)|
    ensures j < n && s.requirements[j].row.importance == Required
    ensures ScorerKey(w, RequiredUpto(LoadJob(s, version).requirements, n)[i]) == StoredKey(w, s.requirements[j].row)
  {
    hide Normalised;
    var rs := LoadJob(s, version).requirements;
    if i < |RequiredUpto(rs, n - 1)| {
      j := KeptFrom(w, s, version, n - 1, i);
    } else {
      j := n - 1;
    }
  }

  /** One more requirement is kept, dropped as a duplicate, or not REQUIRED. */
  lemma KeptMore(w: World, rs: seq<RequirementVectors>, n: nat)
    requires n < |rs|
    ensures var before, after := RequiredOnce(w, rs[..n]), RequiredOnce(w, rs[..n + 1]);
            after == if rs[n].importance != Required || Seen(w, before, ScorerKey(w, rs[n])) then before else before + [rs[n]]
  {
    hide ScorerKey, Seen;
    assert rs[..n + 1][..n] == rs[..n];
  }

  /** The key of a loaded requirement is that of the stored one. */
  lemma LoadedKey(w: World, s: StoredJob, version: Version, i: nat)
    requires i < |s.requirements|
    ensures var r := LoadJob(s, version).requirements[i];
            ScorerKey(w, r) == StoredKey(w, s.requirements[i].row) && r.importance == s.requirements[i].row.importance
  {
    hide Normalised;
  }

  /** Without duplicates, a REQUIRED requirement is not met twice. */
  lemma NotMetBefore(w: World, s: StoredJob, version: Version, n: nat)
    requires DistinctToScorer(w, s) && n < |s.requirements| && s.requirements[n].row.importance == Required
    ensures !Seen(w, RequiredUpto(LoadJob(s, version).requirements, n), StoredKey(w, s.requirements[n].row))
  {
    hide ScorerKey, StoredKey, LoadJob, RequiredUpto;
    var kept := RequiredUpto(LoadJob(s, version).requirements, n);
    forall i | 0 <= i < |kept| ensures ScorerKey(w, kept[i]) != StoredKey(w, s.requirements[n].row) {
      var j := KeptFrom(w, s, version, n, i);
    }
  }

  lemma LoadedLength(w: World, s: StoredJob, version: Version)
    ensures |LoadJob(s, version).requirements| == |s.requirements|
    ensures RequiredOnce(w, LoadJob(s, version).requirements[..0]) == []
  {
  }

  /** Without duplicates, every REQUIRED requirement is kept. */
  lemma RequiredMore(w: World, rs: seq<RequirementVectors>, n: nat)
    requires n <= |rs|
    ensures RequiredOnce(w, rs[..0]) == [] && RequiredUpto(rs, 0) == []
    ensures n > 0 ==> RequiredUpto(rs, n) == RequiredUpto(rs, n - 1) + (if rs[n - 1].importance == Required then [rs[n - 1]] else [])
  {
  }

  lemma {:induction false} AllKept(w: World, s: StoredJob, version: Version, n: nat)
    requires DistinctToScorer(w, s) && n <= |s.requirements|
    ensures var rs := LoadJob(s, version).requirements;
            RequiredOnce(w, rs[..n]) == RequiredUpto(rs, n)
  {
    hide *;
    LoadedLength(w, s, version);
    RequiredMore(w, LoadJob(s, version).requirements, n);
    if n > 0 {
      AllKept(w, s, version, n - 1);
      KeptMore(w, LoadJob(s, version).requirements, n - 1);
      LoadedKey(w, s, version, n - 1);
      if s.requirements[n - 1].row.importance == Required { NotMetBefore(w, s, version, n - 1); }
    }
  }

  /** The query's rows for the first `n` requirements of a job. */
  function RowsUpto(s: StoredJob, n: nat): set<ReqRow>
    requires n <= |s.requirements|
  {
    if n == 0 then {}
    else RowsUpto(s, n - 1)
         + (if s.requirements[n - 1].row.importance == Required
            then {ReqRow(s.id, s.requirements[n - 1].id, Expected(s.requirements[n - 1].row))} else {})
  }

  lemma {:induction false} RowsUptoAre(s: StoredJob, n: nat, r: ReqRow)
    requires n <= |s.requirements|
    ensures r in RowsUpto(s, n) <==> exists i | 0 <= i < n ::
              s.requirements[i].row.importance == Required
              && r == ReqRow(s.id, s.requirements[i].id, Expected(s.requirements[i].row))
  {
    if n > 0 { RowsUptoAre(s, n - 1, r); }
  }

  /** GROUP BY job_id collects the REQUIRED requirements of the job. */
  lemma RowsOfJob(q: Query, k: JobKey)
    requires IdsOk(q.store) && Candidate(q.store, q.filter, k)
    ensures RowsOf(q, q.store.jobs[k].id) == RowsUpto(q.store.jobs[k], |q.store.jobs[k].requirements|)
  {
    var s := q.store.jobs[k];
    forall r ensures r in RowsOf(q, s.id) <==> r in RowsUpto(s, |s.requirements|) {
      RowsUptoAre(s, |s.requirements|, r);
      if r in RowsOf(q, s.id) {
        var m, i :| m in q.store.jobs && Candidate(q.store, q.filter, m) && 0 <= i < |q.store.jobs[m].requirements|
                    && q.store.jobs[m].requirements[i].row.importance == Required
                    && r == ReqRow(q.store.jobs[m].id, q.store.jobs[m].requirements[i].id, Expected(q.store.jobs[m].requirements[i].row));
        assert m == k;
      }
    }
  }

  lemma SumMore(q: Query, sim: (Vector, Vector) -> real, rows: set<ReqRow>, row: ReqRow)
    requires row !in rows
    ensures SumOf(q, sim, rows + {row}) == SumOf(q, sim, rows) + ReqScore(q, sim, row.requirement)
    ensures |rows + {row}| == |rows| + 1
  {
    hide ReqScore;
    SumWithout(q, sim, rows + {row}, row);
    assert rows + {row} - {row} == rows;
  }

  lemma TotalMore(sim: (Vector, Vector) -> real, chunks: seq<Vector>, kept: seq<RequirementVectors>, r: RequirementVectors)
    requires chunks != [] && CompleteRow(r) && forall i | 0 <= i < |kept| :: CompleteRow(kept[i])
    ensures forall i | 0 <= i < |kept + [r]| :: CompleteRow((kept + [r])[i])
    ensures r.vectors != [] && Total(sim, chunks, kept + [r]) == Total(sim, chunks, kept) + Best(sim, r.vectors, chunks)
  {
    assert (kept + [r])[..|kept|] == kept;
  }

  /** The same requirements, with the same sum of scores. */
  ghost predicate Agree(q: Query, sim: (Vector, Vector) -> real, chunks: seq<Vector>, rows: set<ReqRow>, kept: seq<RequirementVectors>) {
    && chunks != [] && (forall i | 0 <= i < |kept| :: CompleteRow(kept[i]))
    && SumOf(q, sim, rows) == Total(sim, chunks, kept) && |rows| == |kept|
  }

  lemma NothingAgrees(q: Query, sim: (Vector, Vector) -> real, chunks: seq<Vector>, s: StoredJob, rs: seq<RequirementVectors>)
    requires chunks != []
    ensures Agree(q, sim, chunks, RowsUpto(s, 0), RequiredUpto(rs, 0))
  {
  }

  lemma AtBelow(q: Query, k: JobKey, n: nat)
    requires k in q.store.jobs && n < |q.store.jobs[k].requirements|
    ensures At(q, k, n) && RequirementAt(q, k, n) == q.store.jobs[k].requirements[n]
  {
  }

  lemma AgreeMore(q: Query, sim: (Vector, Vector) -> real, chunks: seq<Vector>, rows: set<ReqRow>, kept: seq<RequirementVectors>,
                  row: ReqRow, r: RequirementVectors)
    requires Agree(q, sim, chunks, rows, kept) && row !in rows && CompleteRow(r)
    requires r.vectors != [] && ReqScore(q, sim, row.requirement) == Best(sim, r.vectors, chunks)
    ensures Agree(q, sim, chunks, rows + {row}, kept + [r])
  {
    hide SumOf, Total, ReqScore, CompleteRow;
    SumMore(q, sim, rows, row);
    TotalMore(sim, chunks, kept, r);
  }

  lemma RowAgrees(w: World, q: Query, m: Measure, k: JobKey, chunks: seq<Vector>, n: nat)
    requires IdsOk(q.store) && At(q, k, n) && AllEmbeddedBy(w, q.store.jobs[k].requirements, q.version)
    requires chunks != [] && ChunkSet(chunks, q.chunks)
    ensures var r := LoadJob(q.store.jobs[k], q.version).requirements[n];
            && CompleteRow(r) && r.vectors != [] && r.importance == RequirementAt(q, k, n).row.importance
            && ReqScore(q, m.sim, RequirementAt(q, k, n).id) == Best(m.sim, r.vectors, chunks)
  {
    assert EmbeddedBy(w, RequirementAt(q, k, n), q.version);
    CompleteInSql(w, q, m, k, n, chunks);
    RowCompleteness(w, RequirementAt(q, k, n), q.version, q.version);
    hide IdsOk, ReqScore, EmbeddedBy, ChunkSet, HaveAlts;
  }

  lemma AgreeStep(q: Query, sim: (Vector, Vector) -> real, chunks: seq<Vector>, s: StoredJob, rs: seq<RequirementVectors>, n: nat)
    requires 0 < n <= |s.requirements| == |rs| && rs[n - 1].importance == s.requirements[n - 1].row.importance
    requires Agree(q, sim, chunks, RowsUpto(s, n - 1), RequiredUpto(rs, n - 1))
    requires CompleteRow(rs[n - 1]) && rs[n - 1].vectors != []
    requires ReqScore(q, sim, s.requirements[n - 1].id) == Best(sim, rs[n - 1].vectors, chunks)
    requires ReqRow(s.id, s.requirements[n - 1].id, Expected(s.requirements[n - 1].row)) !in RowsUpto(s, n - 1)
    ensures Agree(q, sim, chunks, RowsUpto(s, n), RequiredUpto(rs, n))
  {
    hide Agree, ReqScore, CompleteRow, Expected, Best;
    if s.requirements[n - 1].row.importance == Required {
      AgreeMore(q, sim, chunks, RowsUpto(s, n - 1), RequiredUpto(rs, n - 1),
                ReqRow(s.id, s.requirements[n - 1].id, Expected(s.requirements[n - 1].row)), rs[n - 1]);
    } else {
      assert RowsUpto(s, n) == RowsUpto(s, n - 1) && RequiredUpto(rs, n) == RequiredUpto(rs, n - 1);
    }
  }

  /** The sums of both rankings over the first `n` requirements. */
  lemma {:induction false} SumsAgree(w: World, q: Query, m: Measure, k: JobKey, chunks: seq<Vector>, n: nat)
    requires IdsOk(q.store) && k in q.store.jobs && n <= |q.store.jobs[k].requirements|
    requires AllEmbeddedBy(w, q.store.jobs[k].requirements, q.version) && chunks != [] && ChunkSet(chunks, q.chunks)
    ensures Agree(q, m.sim, chunks, RowsUpto(q.store.jobs[k], n), RequiredUpto(LoadJob(q.store.jobs[k], q.version).requirements, n))
  {
    hide *;
    NothingAgrees(q, m.sim, chunks, q.store.jobs[k], LoadJob(q.store.jobs[k], q.version).requirements);
    if n > 0 {
      SumsAgree(w, q, m, k, chunks, n - 1);
      AtBelow(q, k, n - 1);
      RowAgrees(w, q, m, k, chunks, n - 1);
      NewRow(q, k, n - 1);
      AgreeStep(q, m.sim, chunks, q.store.jobs[k], LoadJob(q.store.jobs[k], q.version).requirements, n);
    }
  }

  lemma NewRow(q: Query, k: JobKey, n: nat)
    requires IdsOk(q.store) && At(q, k, n)
    ensures var s := q.store.jobs[k];
            n < |s.requirements| && ReqRow(s.id, s.requirements[n].id, Expected(s.requirements[n].row)) !in RowsUpto(s, n)
  {
    var s := q.store.jobs[k];
    RowsUptoAre(s, n, ReqRow(s.id, s.requirements[n].id, Expected(s.requirements[n].row)));
    assert JobIdsOk(q.store, k);
  }

  lemma LoadedImportance(r: StoredRequirement, version: Version)
    ensures LoadRequirement(r, version).importance == r.row.importance
  {
  }

  lemma {:induction false} BothEmpty(s: StoredJob, version: Version, n: nat)
    requires n <= |s.requirements|
    ensures RowsUpto(s, n) == {} <==> RequiredUpto(LoadJob(s, version).requirements, n) == []
  {
    hide LoadRequirement, Expected;
    if n > 0 {
      BothEmpty(s, version, n - 1);
      var r := LoadJob(s, version).requirements[n - 1];
      assert r == LoadRequirement(s.requirements[n - 1], version);
      assert r.importance == s.requirements[n - 1].row.importance by { LoadedImportance(s.requirements[n - 1], version); }
      hide LoadJob;
      if r.importance == Required { } else { }
    }
  }

  lemma Grouped(q: Query, k: JobKey)
    requires IdsOk(q.store) && Candidate(q.store, q.filter, k)
    ensures q.store.jobs[k].id in JobsOf(q) <==> RowsUpto(q.store.jobs[k], |q.store.jobs[k].requirements|) != {}
  {
    RowsOfJob(q, k);
    var id := q.store.jobs[k].id;
    hide IdsOk, ReqTable, Candidate, RowsUpto;
    if id in JobsOf(q) {
      var r :| r in ReqTable(q) && r.job == id;
      assert r in RowsOf(q, id);
    }
    if RowsOf(q, id) != {} {
      var r :| r in RowsOf(q, id);
      assert r.job in JobsOf(q);
    }
  }

  /** A job embedded by the version asked for passes HAVING; one embedded by another does not, if it has any row. */
  lemma CompleteTogether(w: World, q: Query, m: Measure, k: JobKey, chunks: seq<Vector>, stored: Version)
    requires IdsOk(q.store) && Candidate(q.store, q.filter, k) && AllEmbeddedBy(w, q.store.jobs[k].requirements, stored)
    requires chunks != [] && ChunkSet(chunks, q.chunks)
    ensures stored == q.version ==> Complete(q, q.store.jobs[k].id)
    ensures stored != q.version && q.store.jobs[k].id in JobsOf(q) ==> !Complete(q, q.store.jobs[k].id)
  {
    var s := q.store.jobs[k];
    RowsOfJob(q, k);
    Grouped(q, k);
    forall r | r in RowsOf(q, s.id) ensures (HaveAlts(q, r.requirement) == r.expected) <==> stored == q.version {
      RowsUptoAre(s, |s.requirements|, r);
      var i :| 0 <= i < |s.requirements| && s.requirements[i].row.importance == Required
               && r == ReqRow(s.id, s.requirements[i].id, Expected(s.requirements[i].row));
      assert At(q, k, i) && EmbeddedBy(w, RequirementAt(q, k, i), stored);
      if stored == q.version { CompleteInSql(w, q, m, k, i, chunks); } else { IncompleteInSql(w, q, k, i, stored); }
    }
    hide *;
    HavingAll(q, s.id, stored == q.version);
    NonEmptyGroup(q, s.id);
  }

  lemma NonEmptyGroup(q: Query, job: nat)
    ensures job in JobsOf(q) <==> RowsOf(q, job) != {}
  {
    hide ReqTable;
    if job in JobsOf(q) {
      var r :| r in ReqTable(q) && r.job == job;
      assert r in RowsOf(q, job);
    }
    if RowsOf(q, job) != {} {
      var r :| r in RowsOf(q, job);
      assert r.job in JobsOf(q);
    }
  }

  lemma HavingAll(q: Query, job: nat, all: bool)
    requires forall r | r in RowsOf(q, job) :: (HaveAlts(q, r.requirement) == r.expected) <==> all
    ensures all ==> Complete(q, job)
    ensures !all && RowsOf(q, job) != {} ==> !Complete(q, job)
  {
    hide RowsOf, HaveAlts;
    if RowsOf(q, job) != {} { var r :| r in RowsOf(q, job); }
  }

  lemma {:induction false} LoadedCompleteness(w: World, s: StoredJob, stored: Version, version: Version, n: nat)
    requires AllEmbeddedBy(w, s.requirements, stored) && n <= |s.requirements|
    ensures forall i | 0 <= i < |RequiredUpto(LoadJob(s, version).requirements, n)| ::
              CompleteRow(RequiredUpto(LoadJob(s, version).requirements, n)[i]) <==> stored == version
  {
    hide CompleteRow, EmbeddedBy;
    if n > 0 {
      LoadedCompleteness(w, s, stored, version, n - 1);
      assert EmbeddedBy(w, s.requirements[n - 1], stored);
      RowCompleteness(w, s.requirements[n - 1], stored, version);
      hide LoadRequirement;
    }
  }

  /** What score_job makes of a job without duplicates. */
  lemma ScoredAs(w: World, sim: (Vector, Vector) -> real, chunks: seq<Vector>, s: StoredJob, stored: Version, version: Version)
    requires chunks != [] && DistinctToScorer(w, s) && AllEmbeddedBy(w, s.requirements, stored)
    ensures var kept, r := RequiredUpto(LoadJob(s, version).requirements, |s.requirements|),
                           ScoreJob(w, sim, chunks, LoadJob(s, version));
            && (r.NoRequired? <==> kept == [])
            && (r.Match? <==> kept != [] && stored == version)
            && (r.Match? ==> (forall i | 0 <= i < |kept| :: CompleteRow(kept[i]))
                             && r.m == JobMatch(s.id, Total(sim, chunks, kept) / (|kept| as real)))
  {
    hide DistinctToScorer, AllEmbeddedBy, LoadJob, RequiredOnce, RequiredUpto, CompleteRow, Total, ScoreJob;
    var rs := LoadJob(s, version).requirements;
    AllKept(w, s, version, |s.requirements|);
    LoadedCompleteness(w, s, stored, version, |s.requirements|);
    assert rs[..|s.requirements|] == rs;
    ScoredKept(w, sim, chunks, LoadJob(s, version), RequiredUpto(rs, |s.requirements|), stored == version);
  }

  lemma ScoredKept(w: World, sim: (Vector, Vector) -> real, chunks: seq<Vector>, job: JobVectors, kept: seq<RequirementVectors>,
                   complete: bool)
    requires chunks != [] && kept == RequiredOnce(w, job.requirements)
    requires forall i | 0 <= i < |kept| :: CompleteRow(kept[i]) <==> complete
    ensures var r := ScoreJob(w, sim, chunks, job);
            && (r.NoRequired? <==> kept == [])
            && (r.Match? <==> kept != [] && complete)
            && (r.Match? ==> (forall i | 0 <= i < |kept| :: CompleteRow(kept[i]))
                             && r.m == JobMatch(job.jobId, Total(sim, chunks, kept) / (|kept| as real)))
  {
    hide RequiredOnce, CompleteRow, Total;
    if kept != [] { assert CompleteRow(kept[0]) <==> complete; }
  }

  /** Both rankings treat one job alike. */
  lemma JobAgrees(w: World, q: Query, m: Measure, k: JobKey, chunks: seq<Vector>)
    requires IdsOk(q.store) && Candidate(q.store, q.filter, k) && JobOk(w, q.store.jobs[k])
    requires DistinctToScorer(w, q.store.jobs[k]) && chunks != [] && ChunkSet(chunks, q.chunks)
    ensures var id, r := q.store.jobs[k].id, ScoreJob(w, m.sim, chunks, LoadJob(q.store.jobs[k], q.version));
            && (r.NoRequired? <==> id !in JobsOf(q))
            && (r.Match? <==> id in JobsOf(q) && Complete(q, id))
            && (r.Match? ==> RowsOf(q, id) != {} && r.m == JobMatch(id, SumOf(q, m.sim, RowsOf(q, id)) / (|RowsOf(q, id)| as real)))
  {
    var s := q.store.jobs[k];
    var stored :| AllEmbeddedBy(w, s.requirements, stored);
    hide *;
    RowsOfJob(q, k);
    Grouped(q, k);
    BothEmpty(s, q.version, |s.requirements|);
    CompleteTogether(w, q, m, k, chunks, stored);
    ScoredAs(w, m.sim, chunks, s, stored, q.version);
    KnownJob(q, k);
    if stored == q.version {
      SumsAgree(w, q, m, k, chunks, |s.requirements|);
      Agreed(q, m.sim, chunks, RowsUpto(s, |s.requirements|), RequiredUpto(LoadJob(s, q.version).requirements, |s.requirements|));
    }
  }

  lemma KnownJob(q: Query, k: JobKey)
    requires Candidate(q.store, q.filter, k)
    ensures k in q.store.jobs
  {
  }

  lemma Agreed(q: Query, sim: (Vector, Vector) -> real, chunks: seq<Vector>, rows: set<ReqRow>, kept: seq<RequirementVectors>)
    requires Agree(q, sim, chunks, rows, kept)
    ensures chunks != [] && (forall i | 0 <= i < |kept| :: CompleteRow(kept[i]))
    ensures SumOf(q, sim, rows) == Total(sim, chunks, kept) && |rows| == |kept|
  {
  }
}
