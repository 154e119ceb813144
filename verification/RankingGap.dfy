/** A catalogue that an import produces and the two rankings order differently.
  *
  * The importer tells `x` without alternatives from `x` with the one alternative `x`; the scorer does
  * not and counts them once, while the query averages over both. A second job with a score between the
  * two averages changes places with the first.
  */
module RankingGap {
  import opened Wrappers
  import opened Catalogue
  import opened Importer
  import opened ImportTheorems
  import opened Scoring
  import opened SqlRanking
  import opened RankingTheorems
  import opened RankingEquality

  function Same(t: string): string { t }

  function Embed(v: Version, t: string): Vector { if t == "x" then [1.0] else if t == "y" then [0.0] else [0.6] }

  function Dot(a: Vector, b: Vector): real { if |a| == 1 && |b| == 1 then a[0] * b[0] else 0.0 }

  function Exact(x: real): real { x }

  const WORLD := World(Same, Embed, (t: string) => true)
  const MEASURE := Measure(Dot, Exact)
  const PLAIN := Requirement("x", Required, [], 0)
  const SPELT_OUT := Requirement("x", Required, ["x"], 1)
  const OTHER := Requirement("y", Required, [], 2)
  const KEY := JobKey("s", "1")
  const JOB := JobIn(KEY, Details(true, 0, 0, 0, ""), [PLAIN, SPELT_OUT, OTHER])
  const MIDDLE := Requirement("m", Required, [], 3)
  const SECOND_KEY := JobKey("s", "2")
  const SECOND_JOB := JobIn(SECOND_KEY, Details(true, 0, 0, 0, ""), [MIDDLE])
  const STORED := StoredJob(0, JOB, 0, [StoredRequirement(1, PLAIN, [StoredVector("x", [1.0], 0)]),
                                        StoredRequirement(2, SPELT_OUT, [StoredVector("x", [1.0], 0)]),
                                        StoredRequirement(3, OTHER, [StoredVector("y", [0.0], 0)])])
  const SECOND_STORED := StoredJob(4, SECOND_JOB, 0, [StoredRequirement(5, MIDDLE, [StoredVector("m", [0.6], 0)])])
  const EMPTY := Store(0, map[], 0)
  const STORE := Store(1, map[KEY := STORED, SECOND_KEY := SECOND_STORED], 6)
  const CHUNKS: seq<Vector> := [[1.0]]
  const QUERY := Query(STORE, Filter(None, None, None, None), 0, {[1.0]})

  // ---- the import

  lemma BatchIs()
    ensures ValidBatch([JOB, SECOND_JOB]) && DedupedBatch(WORLD, [JOB, SECOND_JOB]) == [JOB, SECOND_JOB]
  {
    KeysDiffer();
    DistinctUnchanged(WORLD, JOB.requirements);
    DistinctUnchanged(WORLD, SECOND_JOB.requirements);
    assert KEY.sourceId != SECOND_KEY.sourceId;
  }

  function Plan(): seq<Entry> {
    [Entry(JOB, None, Created), Entry(SECOND_JOB, None, Created)]
  }

  lemma PlanIs()
    ensures PlanOf([JOB, SECOND_JOB], Read(EMPTY, KeysOf([JOB, SECOND_JOB])), 0) == Plan()
  {
  }

  lemma TextsAre()
    ensures TextsOf(JOB.requirements) == ["x", "x", "y"] && TextsOf(SECOND_JOB.requirements) == ["m"]
  {
    var rs := JOB.requirements;
    assert rs[..2] == [PLAIN, SPELT_OUT] && rs[..2][..1] == [PLAIN] && rs[..2][..1][..0] == [];
    assert TextsOf([PLAIN]) == ["x"] by { assert [PLAIN][..0] == []; }
    assert TextsOf([PLAIN, SPELT_OUT]) == ["x", "x"] by { assert [PLAIN, SPELT_OUT][..1] == [PLAIN]; }
    assert SECOND_JOB.requirements[..0] == [];
  }

  lemma MetOne(g: Gathered, ts: seq<string>, t: string)
    ensures MeetAll(WORLD, g, None, ts + [t], 0) == Meet(WORLD, MeetAll(WORLD, g, None, ts, 0), None, t, 0)
  {
    assert (ts + [t])[..|ts|] == ts;
  }

  lemma MetTexts()
    ensures MeetAll(WORLD, Gathered(map[], [], 0), None, ["x", "x", "y"], 0) == Gathered(map[], ["x", "y"], 0)
    ensures MeetAll(WORLD, Gathered(map[], ["x", "y"], 0), None, ["m"], 0) == Gathered(map[], ["x", "y", "m"], 0)
  {
    var g := Gathered(map[], [], 0);
    MetOne(g, [], "x");
    MetOne(g, ["x"], "x");
    MetOne(g, ["x", "x"], "y");
    assert [] + ["x"] == ["x"] && ["x"] + ["x"] == ["x", "x"] && ["x", "x"] + ["y"] == ["x", "x", "y"];
    MetOne(Gathered(map[], ["x", "y"], 0), [], "m");
    assert [] + ["m"] == ["m"];
  }

  lemma GatheredIs()
    ensures Gather(WORLD, Plan(), 0) == Gathered(map[], ["x", "y", "m"], 0)
  {
    hide MeetAll, TextsOf;
    TextsAre();
    MetTexts();
    assert Plan()[..1] == [Entry(JOB, None, Created)] && Plan()[..1][..0] == [];
    assert Gather(WORLD, Plan()[..1], 0) == Gathered(map[], ["x", "y"], 0);
  }

  function Vectors(): map<string, Vector> {
    map["x" := [1.0], "y" := [0.0], "m" := [0.6]]
  }

  lemma TableIs()
    ensures Computed(Gathered(map[], ["x", "y", "m"], 0)) == {"x", "y", "m"} && |{"x", "y", "m"}| == 3
    ensures Table(WORLD, Gathered(map[], ["x", "y", "m"], 0), 0) == Vectors()
  {
    assert "x" != "y" && "y" != "m" && "x" != "m";
    assert forall t | t in ["x", "y", "m"] :: t == "x" || t == "y" || t == "m";
    assert ["x", "y", "m"][0] == "x" && ["x", "y", "m"][1] == "y" && ["x", "y", "m"][2] == "m";
  }

  lemma RowsAre()
    ensures CoversAll(Vectors(), JOB.requirements) && CoversAll(Vectors(), SECOND_JOB.requirements)
    ensures RowsFor(JOB.requirements, Vectors(), 0, 1) == STORED.requirements
    ensures RowsFor(SECOND_JOB.requirements, Vectors(), 0, 5) == SECOND_STORED.requirements
  {
    assert Texts(PLAIN) == ["x"] && Texts(SPELT_OUT) == ["x"] && Texts(OTHER) == ["y"] && Texts(MIDDLE) == ["m"];
    assert "x" != "y" && "y" != "m" && "x" != "m";
    assert VectorsFor(["x"], Vectors(), 0) == [StoredVector("x", [1.0], 0)];
    assert VectorsFor(["y"], Vectors(), 0) == [StoredVector("y", [0.0], 0)];
    assert VectorsFor(["m"], Vectors(), 0) == [StoredVector("m", [0.6], 0)];
  }

  lemma WrittenIs()
    ensures PlanCovered(Plan(), Vectors()) && WriteAll(EMPTY, Plan(), Vectors(), 0, 0) == STORE.(revision := 0)
  {
    RowsAre();
    var first := [Entry(JOB, None, Created)];
    assert Plan()[..1] == first && first[..0] == [];
    hide RowsFor, Vectors, CoversAll;
    assert Written(EMPTY, first[0], Vectors(), 0, 0) == Store(0, map[KEY := STORED], 4);
    assert WriteAll(EMPTY, first, Vectors(), 0, 0) == Store(0, map[KEY := STORED], 4);
    assert KEY.sourceId != SECOND_KEY.sourceId;
  }

  lemma CountsAre()
    ensures CountStatus(Plan(), Created) == 2 && CountStatus(Plan(), Updated) == 0 && CountStatus(Plan(), Unchanged) == 0
    ensures Writes(Plan())
  {
    assert Plan()[0].status == Created;
    assert Plan()[..1] == [Entry(JOB, None, Created)] && Plan()[..1][..0] == [];
    assert CountStatus(Plan()[..1], Created) == 1 && CountStatus(Plan()[..1], Updated) == 0 && CountStatus(Plan()[..1], Unchanged) == 0;
  }

  /** Importing the two jobs into the empty catalogue produces this catalogue. */
  lemma StoreIsImported()
    ensures Import(WORLD, EMPTY, [JOB, SECOND_JOB], 0, 0) == (STORE, Imported(2, 0, 0, 3, 0, 1))
  {
    BatchIs();
    PlanIs();
    GatheredIs();
    TableIs();
    WrittenIs();
    CountsAre();
    hide DedupedBatch, PlanOf, Read, KeysOf, Gather, Table, Computed, WriteAll, CountStatus, Writes, Plan, Vectors, PlanCovered;
    assert Finish(WORLD, EMPTY, 0, Plan(), 0, 0) == (STORE, Imported(2, 0, 0, 3, 0, 1));
  }

  lemma StoreIsCoherent()
    ensures Coherent(WORLD, STORE) && IdsOk(STORE)
  {
    StoreIsImported();
    assert Coherent(WORLD, EMPTY) && IdsOk(EMPTY);
    ImportKeepsCoherence(WORLD, EMPTY, [JOB, SECOND_JOB], 0, 0);
    ImportKeepsIds(WORLD, EMPTY, [JOB, SECOND_JOB], 0, 0);
    hide *;
  }

  lemma KeysDiffer()
    ensures DistinctKeys(WORLD, JOB.requirements)
  {
    assert Normalised(WORLD, PLAIN.alternatives) == [];
    assert Normalised(WORLD, SPELT_OUT.alternatives) == ["x"];
    assert |multiset(Normalised(WORLD, SPELT_OUT.alternatives))| == 1;
    assert "x" != "y";
  }

  lemma KeysCollide()
    ensures StoredKey(WORLD, PLAIN) == StoredKey(WORLD, SPELT_OUT)
  {
    assert Texts(PLAIN) == Texts(SPELT_OUT);
  }

  function Loaded(): seq<RequirementVectors> {
    [RequirementVectors(1, Required, "x", ["x"], [[1.0]]), RequirementVectors(2, Required, "x", ["x"], [[1.0]]),
     RequirementVectors(3, Required, "y", ["y"], [[0.0]])]
  }

  lemma LoadedIs()
    ensures LoadJob(STORED, 0).requirements == Loaded()
  {
    assert Got([StoredVector("x", [1.0], 0)], 0) == [[1.0]];
    assert Got([StoredVector("y", [0.0], 0)], 0) == [[0.0]];
  }

  lemma Scores()
    ensures Best(Dot, [[1.0]], CHUNKS) == 1.0 && Best(Dot, [[0.0]], CHUNKS) == 0.0
  {
  }

  lemma Complete3()
    ensures forall i | 0 <= i < 3 :: CompleteRow(Loaded()[i])
  {
  }

  lemma NoTotal()
    ensures Total(Dot, CHUNKS, []) == 0.0
  {
  }

  lemma TotalsOf(a: RequirementVectors, b: RequirementVectors, c: RequirementVectors)
    requires CompleteRow(a) && CompleteRow(b) && CompleteRow(c)
    requires Best(Dot, a.vectors, CHUNKS) == 1.0 && Best(Dot, b.vectors, CHUNKS) == 1.0 && Best(Dot, c.vectors, CHUNKS) == 0.0
    ensures Total(Dot, CHUNKS, [a, c]) == 1.0 && Total(Dot, CHUNKS, [a, b, c]) == 2.0
  {
    hide Best, CompleteRow, Total;
    NoTotal();
    TotalMore(Dot, CHUNKS, [], a);
    TotalMore(Dot, CHUNKS, [a], c);
    TotalMore(Dot, CHUNKS, [a], b);
    TotalMore(Dot, CHUNKS, [a, b], c);
    assert [] + [a] == [a] && [a] + [c] == [a, c] && [a] + [b] == [a, b] && [a, b] + [c] == [a, b, c];
  }

  lemma Totals()
    ensures (forall i | 0 <= i < 3 :: CompleteRow(Loaded()[i]))
    ensures Total(Dot, CHUNKS, [Loaded()[0], Loaded()[2]]) == 1.0 && Total(Dot, CHUNKS, Loaded()) == 2.0
  {
    hide Best, CompleteRow, Total;
    Complete3();
    Scores();
    var rs := Loaded();
    TotalsOf(rs[0], rs[1], rs[2]);
    assert [rs[0], rs[1], rs[2]] == rs;
  }

  lemma KeptOnce()
    ensures RequiredOnce(WORLD, Loaded()) == [Loaded()[0], Loaded()[2]]
  {
    var rs := Loaded();
    assert rs[..3][..2] == rs[..2] && rs[..2][..1] == rs[..1] && rs[..1][..0] == [] && rs[..3] == rs;
    assert ScorerKey(WORLD, rs[0]) == ScorerKey(WORLD, rs[1]);
    assert ScorerKey(WORLD, rs[0]).text == "x" && ScorerKey(WORLD, rs[2]).text == "y" && "x" != "y";
    hide ScorerKey;
    assert RequiredOnce(WORLD, rs[..1]) == [rs[0]];
    assert RequiredOnce(WORLD, rs[..2]) == [rs[0]] by { assert Seen(WORLD, [rs[0]], ScorerKey(WORLD, rs[1])); }
    assert !Seen(WORLD, [rs[0]], ScorerKey(WORLD, rs[2]));
  }

  lemma InMemory()
    ensures ScoreJob(WORLD, Dot, CHUNKS, LoadJob(STORED, 0)) == Match(JobMatch(0, 0.5))
  {
    LoadedIs();
    KeptOnce();
    Totals();
    hide Total, RequiredOnce, LoadJob, CompleteRow;
    assert |[Loaded()[0], Loaded()[2]]| as real == 2.0;
  }

  lemma SecondLoadedIs()
    ensures LoadJob(SECOND_STORED, 0).requirements == [RequirementVectors(5, Required, "m", ["m"], [[0.6]])]
  {
    assert Got([StoredVector("m", [0.6], 0)], 0) == [[0.6]];
  }

  lemma SecondInMemory()
    ensures ScoreJob(WORLD, Dot, CHUNKS, LoadJob(SECOND_STORED, 0)) == Match(JobMatch(4, 0.6))
  {
    SecondLoadedIs();
    var r := RequirementVectors(5, Required, "m", ["m"], [[0.6]]);
    assert [r][..0] == [];
    assert RequiredOnce(WORLD, [r]) == [r] by { hide ScorerKey; }
    assert Best(Dot, [[0.6]], CHUNKS) == 0.6;
    assert CompleteRow(r);
    hide Best, RequiredOnce, LoadJob;
    assert Total(Dot, CHUNKS, [r]) == 0.6;
  }

  lemma CandidatesAre()
    ensures ChunkSet(CHUNKS, QUERY.chunks) && Candidate(STORE, QUERY.filter, KEY) && QUERY.store.jobs[KEY] == STORED
    ensures Candidate(STORE, QUERY.filter, SECOND_KEY) && QUERY.store.jobs[SECOND_KEY] == SECOND_STORED
    ensures Enumerates(QUERY, [KEY, SECOND_KEY])
  {
    assert KEY.sourceId != SECOND_KEY.sourceId;
  }

  lemma EmbeddedAre()
    ensures AllEmbeddedBy(WORLD, STORED.requirements, 0)
  {
    assert EmbeddedBy(WORLD, STORED.requirements[0], 0);
    assert EmbeddedBy(WORLD, STORED.requirements[1], 0);
    assert EmbeddedBy(WORLD, STORED.requirements[2], 0);
  }

  lemma SecondIsOk()
    ensures JobOk(WORLD, SECOND_STORED) && DistinctToScorer(WORLD, SECOND_STORED)
  {
    StoreIsCoherent();
    assert JobOk(WORLD, STORE.jobs[SECOND_KEY]);
    hide JobOk, IdsOk, Coherent;
  }

  lemma QueryFacts()
    ensures ChunkSet(CHUNKS, QUERY.chunks) && Candidate(STORE, QUERY.filter, KEY) && QUERY.store.jobs[KEY] == STORED
    ensures Candidate(STORE, QUERY.filter, SECOND_KEY) && QUERY.store.jobs[SECOND_KEY] == SECOND_STORED
    ensures AllEmbeddedBy(WORLD, STORED.requirements, 0) && Enumerates(QUERY, [KEY, SECOND_KEY])
    ensures JobOk(WORLD, SECOND_STORED) && DistinctToScorer(WORLD, SECOND_STORED)
  {
    hide *;
    CandidatesAre();
    EmbeddedAre();
    SecondIsOk();
  }

  lemma AllRequired()
    ensures RequiredUpto(Loaded(), 3) == Loaded()
  {
    var rs := Loaded();
    assert RequiredUpto(rs, 1) == [rs[0]];
    assert RequiredUpto(rs, 2) == [rs[0], rs[1]];
  }

  lemma SqlSum()
    ensures SumOf(QUERY, Dot, RowsOf(QUERY, 0)) == 2.0 && |RowsOf(QUERY, 0)| == 3
    ensures 0 in JobsOf(QUERY) && Complete(QUERY, 0)
  {
    StoreIsCoherent();
    LoadedIs();
    QueryFacts();
    AllRequired();
    Totals();
    hide RowsUpto, RequiredUpto, RowsOf, SumOf, Complete, JobsOf, Total, IdsOk, Coherent, AllEmbeddedBy, Candidate, ChunkSet,
         LoadJob, Agree, Loaded, CompleteRow;
    RowsOfJob(QUERY, KEY);
    SumsAgree(WORLD, QUERY, MEASURE, KEY, CHUNKS, 3);
    Agreed(QUERY, Dot, CHUNKS, RowsUpto(STORED, 3), RequiredUpto(LoadJob(STORED, 0).requirements, 3));
    CompleteTogether(WORLD, QUERY, MEASURE, KEY, CHUNKS, 0);
    NonEmptyGroup(QUERY, 0);
    ThreeRows();
  }

  lemma ThreeRows()
    ensures |Loaded()| == 3 && STORED.id == 0 && |STORED.requirements| == 3
  {
  }

  lemma InSql()
    ensures 0 in JobsOf(QUERY) && Complete(QUERY, 0) && RowsOf(QUERY, 0) != {}
    ensures SumOf(QUERY, Dot, RowsOf(QUERY, 0)) / (|RowsOf(QUERY, 0)| as real) == 2.0 / 3.0
  {
    SqlSum();
    hide RowsOf, SumOf, Complete, JobsOf;
  }

  lemma SecondInSql()
    ensures 4 in JobsOf(QUERY) && Complete(QUERY, 4) && RowsOf(QUERY, 4) != {}
    ensures SumOf(QUERY, Dot, RowsOf(QUERY, 4)) / (|RowsOf(QUERY, 4)| as real) == 0.6
  {
    StoreIsCoherent();
    QueryFacts();
    SecondInMemory();
    hide RowsOf, SumOf, Complete, JobsOf, IdsOk, Coherent, Candidate, JobOk, DistinctToScorer, ChunkSet, ScoreJob, LoadJob,
         Enumerates, AllEmbeddedBy;
    JobAgrees(WORLD, QUERY, MEASURE, SECOND_KEY, CHUNKS);
    assert SECOND_STORED.id == 4;
  }

  const SCORED := {JobMatch(0, 0.5), JobMatch(4, 0.6)}
  const QUERIED := {JobMatch(0, 2.0 / 3.0), JobMatch(4, 0.6)}

  lemma ScoredAre()
    ensures Matches(WORLD, Dot, CHUNKS, LoadAll(QUERY, [KEY, SECOND_KEY])) == SCORED
  {
    InMemory();
    SecondInMemory();
    QueryFacts();
    hide ScoreJob, LoadJob, AllEmbeddedBy, JobOk, DistinctToScorer, Candidate, ChunkSet;
    var jobs := LoadAll(QUERY, [KEY, SECOND_KEY]);
    assert jobs[0] == LoadJob(STORED, 0) && jobs[1] == LoadJob(SECOND_STORED, 0);
  }

  lemma ScoreOf(j: nat)
    requires j in JobsOf(QUERY) && Complete(QUERY, j)
    ensures RowsOf(QUERY, j) != {}
    ensures JobMatch(j, SumOf(QUERY, Dot, RowsOf(QUERY, j)) / (|RowsOf(QUERY, j)| as real)) in JobScores(QUERY, Dot)
  {
    NonEmptyGroup(QUERY, j);
    hide RowsOf, SumOf, Complete, JobsOf;
  }

  lemma QueriedAre()
    ensures JobScores(QUERY, Dot) == QUERIED
  {
    hide RowsOf, SumOf, Complete, JobsOf, JobScores;
    InSql();
    SecondInSql();
    ScoreOf(0);
    ScoreOf(4);
    forall x | x in JobScores(QUERY, Dot) ensures x in QUERIED { OnlyQueried(x); }
  }

  lemma OnlyQueried(x: JobMatch)
    requires x in JobScores(QUERY, Dot)
    ensures x in QUERIED
  {
    hide RowsOf, SumOf, Complete, JobsOf;
    InSql();
    SecondInSql();
    forall j | j in JobsOf(QUERY) && Complete(QUERY, j) ensures RowsOf(QUERY, j) != {} { NonEmptyGroup(QUERY, j); }
    var j :| j in JobsOf(QUERY) && Complete(QUERY, j)
             && x == JobMatch(j, SumOf(QUERY, Dot, RowsOf(QUERY, j)) / (|RowsOf(QUERY, j)| as real));
    OnlyTwo(j);
  }

  lemma OnlyTwo(id: nat)
    requires id in JobsOf(QUERY)
    ensures id == 0 || id == 4
  {
    QueryFacts();
    hide JobsOf, Enumerates, AllEmbeddedBy, JobOk, DistinctToScorer, Candidate, ChunkSet;
    var i := RankedIsCandidate(QUERY, [KEY, SECOND_KEY], id);
    assert [KEY, SECOND_KEY][i] == KEY || [KEY, SECOND_KEY][i] == SECOND_KEY;
  }

  /** On this product of an import the two rankings list the same two jobs with different scores in opposite orders. */
  lemma RankingsCanDiffer()
    ensures Import(WORLD, EMPTY, [JOB, SECOND_JOB], 0, 0).0 == STORE == QUERY.store
    ensures Enumerates(QUERY, [KEY, SECOND_KEY]) && ChunkSet(CHUNKS, QUERY.chunks)
    ensures StoredKey(WORLD, PLAIN) == StoredKey(WORLD, SPELT_OUT)
    ensures IsRanking(MEASURE, [JobMatch(4, 0.6), JobMatch(0, 0.5)],
                      Matches(WORLD, Dot, CHUNKS, LoadAll(QUERY, [KEY, SECOND_KEY])))
    ensures IsRanking(MEASURE, [JobMatch(0, 2.0 / 3.0), JobMatch(4, 0.6)], JobScores(QUERY, Dot))
  {
    StoreIsImported();
    QueryFacts();
    KeysCollide();
    ScoredAre();
    QueriedAre();
    hide Import, Enumerates, ChunkSet, StoredKey, Matches, JobScores, LoadAll, Candidate, JobOk, DistinctToScorer, AllEmbeddedBy;
    assert Members([JobMatch(4, 0.6), JobMatch(0, 0.5)]) == SCORED by {
      assert [JobMatch(4, 0.6), JobMatch(0, 0.5)][0] == JobMatch(4, 0.6) && [JobMatch(4, 0.6), JobMatch(0, 0.5)][1] == JobMatch(0, 0.5);
    }
    assert Members([JobMatch(0, 2.0 / 3.0), JobMatch(4, 0.6)]) == QUERIED by {
      assert [JobMatch(0, 2.0 / 3.0), JobMatch(4, 0.6)][0] == JobMatch(0, 2.0 / 3.0);
      assert [JobMatch(0, 2.0 / 3.0), JobMatch(4, 0.6)][1] == JobMatch(4, 0.6);
    }
  }
}
