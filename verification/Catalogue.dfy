/** Catalogue entries: what an import file says (src/backend/app/catalogue/schema.py) and what is stored. */
module Catalogue {
  import opened Wrappers

  type Version = nat
  type Vector = seq<real>
  type Time = int

  datatype Importance = Required | Preferred

  /** `evidence` stands for the source quote and the evidence skills. */
  datatype Requirement = Requirement(text: string, importance: Importance, alternatives: seq<string>, evidence: nat)

  datatype JobKey = JobKey(source: string, sourceId: string)

  /** The columns that filter a ranking, and `display` for the others. */
  datatype Details = Details(active: bool, jobType: nat, employmentTime: nat, workArrangement: nat, display: string)

  datatype JobIn = JobIn(key: JobKey, details: Details, requirements: seq<Requirement>)

  /** What is not modelled: text normalisation, the embedding of a text under a model version, and its token limit. */
  datatype World = World(norm: string -> string, embed: (Version, string) -> Vector, fits: string -> bool)

  /** requirement_texts */
  function Texts(r: Requirement): (ts: seq<string>)
    ensures |ts| > 0
  {
    if r.alternatives != [] then r.alternatives else [r.text]
  }

  /** One embedded text; its alternative_index is its position. */
  datatype StoredVector = StoredVector(text: string, vector: Vector, version: Version)

  datatype StoredRequirement = StoredRequirement(id: nat, row: Requirement, vectors: seq<StoredVector>)

  /** content_hash is injective, so a stored job holds the deduplicated job it was made from. */
  datatype StoredJob = StoredJob(id: nat, content: JobIn, imported: Time, requirements: seq<StoredRequirement>)

  /** A missing app_state row counts as revision 0. */
  datatype Store = Store(revision: nat, jobs: map<JobKey, StoredJob>, next: nat)

  // ---- logical duplicates

  /** A tuple of sorted strings says which strings, and how often. */
  datatype RequirementKey = RequirementKey(text: string, alternatives: multiset<string>)

  function Normalised(w: World, texts: seq<string>): (r: seq<string>)
    ensures |r| == |texts| && forall i | 0 <= i < |r| :: r[i] == w.norm(texts[i])
  {
    seq(|texts|, i requires 0 <= i < |texts| => w.norm(texts[i]))
  }

  /** The key of dedupe_requirements: the alternatives as written. */
  function ImportKey(w: World, r: Requirement): RequirementKey {
    RequirementKey(w.norm(r.text), multiset(Normalised(w, r.alternatives)))
  }

  /** Where the first row with the key is. */
  function Position(w: World, rows: seq<Requirement>, k: RequirementKey): (p: Option<nat>)
    ensures p.Some? ==> p.value < |rows| && ImportKey(w, rows[p.value]) == k
    ensures p.Some? ==> forall j | 0 <= j < p.value :: ImportKey(w, rows[j]) != k
    ensures p.None? ==> forall j | 0 <= j < |rows| :: ImportKey(w, rows[j]) != k
  {
    if rows == [] then None
    else
      var front, n := rows[..|rows| - 1], |rows| - 1;
      var p := Position(w, front, k);
      if p.Some? then p else if ImportKey(w, rows[n]) == k then Some(n) else None
  }

  /** The first row with the key, and the first REQUIRED row with it. */
  function First(w: World, rows: seq<Requirement>, k: RequirementKey): Option<Requirement> {
    var p := Position(w, rows, k);
    if p.Some? then Some(rows[p.value]) else None
  }

  function FirstRequired(w: World, rows: seq<Requirement>, k: RequirementKey): Option<Requirement> {
    if rows == [] then None
    else
      var r := FirstRequired(w, rows[..|rows| - 1], k);
      var last := rows[|rows| - 1];
      if r.Some? then r else if ImportKey(w, last) == k && last.importance == Required then Some(last) else None
  }

  /** The row that stands for all rows with the key. */
  function Standing(w: World, rows: seq<Requirement>, k: RequirementKey): Option<Requirement> {
    if FirstRequired(w, rows, k).Some? then FirstRequired(w, rows, k) else First(w, rows, k)
  }

  /** What the loop of dedupe_requirements has kept after the rows seen so far. */
  function Deduplicated(w: World, rows: seq<Requirement>): (kept: seq<Requirement>)
    ensures |kept| <= |rows|
  {
    if rows == [] then []
    else
      var kept, r := Deduplicated(w, rows[..|rows| - 1]), rows[|rows| - 1];
      var p := Position(w, kept, ImportKey(w, r));
      if p.None? then kept + [r]
      else if kept[p.value].importance == Preferred && r.importance == Required then kept[p.value := r]
      else kept
  }

  predicate DistinctKeys(w: World, rows: seq<Requirement>) {
    forall i, j | 0 <= i < j < |rows| :: ImportKey(w, rows[i]) != ImportKey(w, rows[j])
  }

  lemma FirstMore(w: World, rows: seq<Requirement>, r: Requirement, k: RequirementKey)
    ensures Position(w, rows + [r], k) == if Position(w, rows, k).Some? then Position(w, rows, k)
                                          else if ImportKey(w, r) == k then Some(|rows|) else None
    ensures FirstRequired(w, rows + [r], k) == if FirstRequired(w, rows, k).Some? then FirstRequired(w, rows, k)
                                               else if ImportKey(w, r) == k && r.importance == Required then Some(r) else None
  {
    hide ImportKey;
    assert (rows + [r])[..|rows|] == rows;
  }

  lemma FirstReplaced(w: World, rows: seq<Requirement>, at: nat, r: Requirement, k: RequirementKey)
    requires DistinctKeys(w, rows) && at < |rows| && ImportKey(w, rows[at]) == ImportKey(w, r)
    ensures DistinctKeys(w, rows[at := r]) && Position(w, rows[at := r], k) == Position(w, rows, k)
  {
    hide ImportKey;
    var after := rows[at := r];
    assert forall i | 0 <= i < |rows| :: ImportKey(w, after[i]) == ImportKey(w, rows[i]);
    var p, q := Position(w, rows, k), Position(w, after, k);
    if p.Some? { assert ImportKey(w, after[p.value]) == k; }
    if q.Some? { assert ImportKey(w, rows[q.value]) == k; }
  }

  lemma {:induction false} RequiredIsAmongThem(w: World, rows: seq<Requirement>, k: RequirementKey)
    ensures FirstRequired(w, rows, k).Some? ==> Position(w, rows, k).Some? && FirstRequired(w, rows, k).value.importance == Required
    ensures FirstRequired(w, rows, k).None? ==>
              forall j | 0 <= j < |rows| && ImportKey(w, rows[j]) == k :: rows[j].importance == Preferred
  {
    hide ImportKey;
    if rows != [] { RequiredIsAmongThem(w, rows[..|rows| - 1], k); }
  }

  /** dedupe_requirements keeps exactly one row for every key: the first REQUIRED row with that key, or else the first. */
  lemma {:induction false} DedupeKeepsOnePerKey(w: World, rows: seq<Requirement>, k: RequirementKey)
    ensures DistinctKeys(w, Deduplicated(w, rows))
    ensures First(w, Deduplicated(w, rows), k) == Standing(w, rows, k)
  {
    hide ImportKey;
    if rows != [] {
      var front, r := rows[..|rows| - 1], rows[|rows| - 1];
      assert rows == front + [r];
      DedupeKeepsOnePerKey(w, front, k);
      DedupeKeepsOnePerKey(w, front, ImportKey(w, r));
      RequiredIsAmongThem(w, front, k);
      FirstMore(w, front, r, k);
      var kept := Deduplicated(w, front);
      var p := Position(w, kept, ImportKey(w, r));
      if p.None? {
        FirstMore(w, kept, r, k);
      } else {
        FirstReplaced(w, kept, p.value, r, k);
      }
    }
  }

  /** The keys stay in the order of their first appearance. */
  lemma {:induction false} DedupeKeepsTheOrder(w: World, rows: seq<Requirement>, k: RequirementKey, m: RequirementKey)
    requires Position(w, rows, k).Some? && Position(w, rows, m).Some?
    ensures Position(w, Deduplicated(w, rows), k).Some? && Position(w, Deduplicated(w, rows), m).Some?
    ensures Position(w, rows, k).value < Position(w, rows, m).value
        <==> Position(w, Deduplicated(w, rows), k).value < Position(w, Deduplicated(w, rows), m).value
  {
    hide ImportKey;
    var front, r := rows[..|rows| - 1], rows[|rows| - 1];
    assert rows == front + [r];
    var kept := Deduplicated(w, front);
    DedupeKeepsOnePerKey(w, front, k);
    DedupeKeepsOnePerKey(w, front, m);
    DedupeKeepsOnePerKey(w, front, ImportKey(w, r));
    RequiredIsAmongThem(w, front, k);
    RequiredIsAmongThem(w, front, m);
    FirstMore(w, front, r, k);
    FirstMore(w, front, r, m);
    if Position(w, front, k).Some? && Position(w, front, m).Some? { DedupeKeepsTheOrder(w, front, k, m); }
    var p := Position(w, kept, ImportKey(w, r));
    if p.None? {
      FirstMore(w, kept, r, k);
      FirstMore(w, kept, r, m);
    } else {
      FirstReplaced(w, kept, p.value, r, k);
      FirstReplaced(w, kept, p.value, r, m);
    }
  }

  // ---- what is kept, on the rows alone

  /** The same text and, in any order, the same alternatives, up to normalisation. */
  predicate SameRequirement(w: World, r: Requirement, o: Requirement) {
    && w.norm(r.text) == w.norm(o.text)
    && multiset(seq(|r.alternatives|, i requires 0 <= i < |r.alternatives| => w.norm(r.alternatives[i])))
       == multiset(seq(|o.alternatives|, i requires 0 <= i < |o.alternatives| => w.norm(o.alternatives[i])))
  }

  lemma KeysAreEqual(w: World, r: Requirement, o: Requirement)
    ensures ImportKey(w, r) == ImportKey(w, o) <==> SameRequirement(w, r, o)
  {
    assert Normalised(w, r.alternatives) == seq(|r.alternatives|, i requires 0 <= i < |r.alternatives| => w.norm(r.alternatives[i]));
    assert Normalised(w, o.alternatives) == seq(|o.alternatives|, i requires 0 <= i < |o.alternatives| => w.norm(o.alternatives[i]));
  }

  lemma {:induction false} FirstRequiredAt(w: World, rows: seq<Requirement>, k: RequirementKey) returns (n: nat)
    requires FirstRequired(w, rows, k).Some?
    ensures n < |rows| && rows[n].importance == Required && ImportKey(w, rows[n]) == k && FirstRequired(w, rows, k) == Some(rows[n])
    ensures forall j | 0 <= j < n && ImportKey(w, rows[j]) == k :: rows[j].importance == Preferred
  {
    hide ImportKey;
    var front := rows[..|rows| - 1];
    RequiredIsAmongThem(w, front, k);
    if FirstRequired(w, front, k).Some? {
      n := FirstRequiredAt(w, front, k);
    } else {
      n := |rows| - 1;
    }
  }

  lemma {:induction false} KeptIsARow(w: World, rows: seq<Requirement>, j: nat)
    requires j < |Deduplicated(w, rows)|
    ensures Deduplicated(w, rows)[j] in rows
  {
    hide ImportKey;
    var front, r := rows[..|rows| - 1], rows[|rows| - 1];
    var kept := Deduplicated(w, front);
    if j < |kept| && Deduplicated(w, rows)[j] == kept[j] {
      KeptIsARow(w, front, j);
    } else {
      assert Deduplicated(w, rows)[j] == r;
    }
  }

  /** For every row exactly one row is kept that says the same: the first REQUIRED one of these, or else the first. */
  lemma WhatDedupeKeeps(w: World, rows: seq<Requirement>, i: nat) returns (at: nat, n: nat)
    requires i < |rows|
    ensures var kept := Deduplicated(w, rows);
            && at < |kept| && n < |rows| && kept[at] == rows[n] && SameRequirement(w, rows[n], rows[i])
            && (forall j | 0 <= j < |kept| :: kept[j] in rows)
            && (forall j | 0 <= j < |kept| && j != at :: !SameRequirement(w, kept[j], rows[i]))
            && (forall j | 0 <= j < |rows| && SameRequirement(w, rows[j], rows[i]) :: rows[j].importance == Required ==> rows[n].importance == Required)
            && (forall j | 0 <= j < n && SameRequirement(w, rows[j], rows[i]) :: rows[n].importance == Required && rows[j].importance == Preferred)
  {
    forall r ensures ImportKey(w, r) == ImportKey(w, rows[i]) <==> SameRequirement(w, r, rows[i]) { KeysAreEqual(w, r, rows[i]); }
    hide ImportKey, SameRequirement, Deduplicated;
    var k, kept := ImportKey(w, rows[i]), Deduplicated(w, rows);
    forall j | 0 <= j < |kept| ensures kept[j] in rows { KeptIsARow(w, rows, j); }
    DedupeKeepsOnePerKey(w, rows, k);
    RequiredIsAmongThem(w, rows, k);
    at := Position(w, kept, k).value;
    if FirstRequired(w, rows, k).Some? {
      n := FirstRequiredAt(w, rows, k);
    } else {
      n := Position(w, rows, k).value;
    }
  }

  /** Rows that are already distinct are left alone. */
  lemma {:induction false} DistinctUnchanged(w: World, rows: seq<Requirement>)
    requires DistinctKeys(w, rows)
    ensures Deduplicated(w, rows) == rows
  {
    hide ImportKey;
    if rows != [] {
      var front := rows[..|rows| - 1];
      DistinctUnchanged(w, front);
      assert rows == front + [rows[|rows| - 1]];
    }
  }

  /** dedupe_requirements: the rows kept and how many were dropped; `index` says where a key is kept. */
  method DedupeRequirements(w: World, rows: seq<Requirement>) returns (kept: seq<Requirement>, removed: nat)
    ensures kept == Deduplicated(w, rows) && removed == |rows| - |kept|
  {
    hide ImportKey;
    kept := [];
    var index: map<RequirementKey, nat> := map[];
    assert rows[..0] == [];
    for n := 0 to |rows|
      invariant kept == Deduplicated(w, rows[..n]) && DistinctKeys(w, kept)
      invariant forall k :: Position(w, kept, k) == if k in index then Some(index[k]) else None
    {
      var r := rows[n];
      assert rows[..n + 1][..n] == rows[..n];
      DedupeKeepsOnePerKey(w, rows[..n + 1], ImportKey(w, r));
      var key := ImportKey(w, r);
      if key !in index {
        forall k { FirstMore(w, kept, r, k); }
        index := index[key := |kept|];
        kept := kept + [r];
        continue;
      }
      var current := kept[index[key]];
      if current.importance == Preferred && r.importance == Required {
        forall k { FirstReplaced(w, kept, index[key], r, k); }
        kept := kept[index[key] := r];
      }
    }
    assert rows[..|rows|] == rows;
    removed := |rows| - |kept|;
  }
}
