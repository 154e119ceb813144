/** chunk_resume_content: the chunks of all entries, numbered by section, entry and chunk. */
module ResumeChunks {
  import opened Wrappers
  import opened Chunking

  datatype Section = Project | Experience

  /** An entry as its heading and the units of its body. */
  datatype Entry = Entry(heading: string, units: seq<string>)

  datatype Row = Row(section: Section, entry: nat, index: nat, text: string)

  function EntryRows(section: Section, entry: nat, texts: seq<string>): (rows: seq<Row>)
    ensures |rows| == |texts|
    ensures forall i | 0 <= i < |texts| :: rows[i] == Row(section, entry, i, texts[i])
  {
    seq(|texts|, i requires 0 <= i < |texts| => Row(section, entry, i, texts[i]))
  }

  /** The rows of the first entries of a section, whose texts are given. */
  function SectionRows(section: Section, texts: seq<seq<string>>): seq<Row> {
    if texts == [] then []
    else SectionRows(section, texts[..|texts| - 1]) + EntryRows(section, |texts| - 1, texts[|texts| - 1])
  }

  /** These are the chunks of the entry. */
  ghost predicate ChunksOf(c: Counter, limit: nat, e: Entry, texts: seq<string>) {
    exists groups, cuts, made ::
      PiecesOfAll(c, e.heading, limit, e.units, cuts, made) && EntryChunks(c, e.heading, limit, Flatten(made), groups, texts)
  }

  ghost predicate SectionChunks(c: Counter, limit: nat, entries: seq<Entry>, texts: seq<seq<string>>) {
    |texts| == |entries| && forall i | 0 <= i < |entries| :: ChunksOf(c, limit, entries[i], texts[i])
  }

  ghost predicate CannotSplit(c: Counter, limit: nat, e: Entry) {
    SomeUnsplittable(c, e.heading, limit, e.units)
  }

  method ChunkSection(c: Counter, section: Section, entries: seq<Entry>, limit: nat)
    returns (r: Outcome<seq<Row>>, ghost texts: seq<seq<string>>)
    ensures r.Ok? ==> SectionChunks(c, limit, entries, texts) && r.value == SectionRows(section, texts)
    ensures r.Ok? || r.TokenLimit?
    ensures r.TokenLimit? <==> exists e :: e in entries && CannotSplit(c, limit, e)
  {
    texts := [];
    var out: seq<Row> := [];
    hide SomeUnsplittable, PiecesOfAll, EntryChunks, Flatten;
    for n := 0 to |entries|
      invariant SectionChunks(c, limit, entries[..n], texts) && out == SectionRows(section, texts)
      invariant forall i | 0 <= i < n :: !CannotSplit(c, limit, entries[i])
    {
      var chunks;
      ghost var groups, cuts, made;
      chunks, groups, cuts, made := ChunkEntry(c, entries[n].heading, entries[n].units, limit);
      if !chunks.Ok? {
        assert entries[n] in entries && CannotSplit(c, limit, entries[n]);
        return TokenLimit, texts;
      }
      assert ChunksOf(c, limit, entries[n], chunks.value);
      assert (texts + [chunks.value])[..|texts|] == texts;
      for i := 0 to |chunks.value|
        invariant out == SectionRows(section, texts) + EntryRows(section, n, chunks.value)[..i]
      {
        out := out + [Row(section, n, i, chunks.value[i])];
      }
      texts := texts + [chunks.value];
    }
    assert entries[..|entries|] == entries;
    r := Ok(out);
  }

  /** Projects first, then experience; more than MAX_CHUNKS_PER_PROFILE chunks are an error and nothing is dropped. */
  method ChunkResumeContent(c: Counter, projects: seq<Entry>, experience: seq<Entry>, limit: nat)
    returns (r: Outcome<seq<Row>>, ghost ps: seq<seq<string>>, ghost es: seq<seq<string>>)
    ensures r.Ok? || r.TooManyChunks? ==> SectionChunks(c, limit, projects, ps) && SectionChunks(c, limit, experience, es)
    ensures r.Ok? ==> r.value == SectionRows(Project, ps) + SectionRows(Experience, es)
    ensures r.Ok? ==> |r.value| <= 100
    ensures r.TooManyChunks? ==> |SectionRows(Project, ps) + SectionRows(Experience, es)| > 100
    ensures r.TokenLimit? <==> exists e :: e in projects + experience && CannotSplit(c, limit, e)
  {
    ps, es := [], [];
    hide SectionChunks, CannotSplit;
    var first, second;
    first, ps := ChunkSection(c, Project, projects, limit);
    if !first.Ok? { return TokenLimit, ps, es; }
    second, es := ChunkSection(c, Experience, experience, limit);
    if !second.Ok? { return TokenLimit, ps, es; }
    var out := first.value + second.value;
    if |out| > MAX_CHUNKS_PER_PROFILE { return TooManyChunks, ps, es; }
    r := Ok(out);
  }

  /** Section first, then entry, then chunk. */
  predicate Precedes(a: Row, b: Row) {
    (a.section == Project && b.section == Experience)
    || (a.section == b.section && (a.entry < b.entry || (a.entry == b.entry && a.index < b.index)))
  }

  predicate Ordered(rows: seq<Row>) {
    forall i, j | 0 <= i < j < |rows| :: Precedes(rows[i], rows[j])
  }

  lemma {:induction false} SectionOrdered(section: Section, texts: seq<seq<string>>)
    ensures Ordered(SectionRows(section, texts))
    ensures forall i | 0 <= i < |SectionRows(section, texts)| ::
              SectionRows(section, texts)[i].section == section && SectionRows(section, texts)[i].entry < |texts|
  {
    if texts != [] { SectionOrdered(section, texts[..|texts| - 1]); }
  }

  /** No two chunks share a position, and they come in the order of their positions. */
  lemma PositionsAreDistinct(ps: seq<seq<string>>, es: seq<seq<string>>)
    ensures Ordered(SectionRows(Project, ps) + SectionRows(Experience, es))
    ensures var rows := SectionRows(Project, ps) + SectionRows(Experience, es);
            forall i, j | 0 <= i < j < |rows| ::
              rows[i].section != rows[j].section || rows[i].entry != rows[j].entry || rows[i].index != rows[j].index
  {
    SectionOrdered(Project, ps);
    SectionOrdered(Experience, es);
  }

  /** Every chunk is within the limit. */
  lemma {:induction false} ChunksFit(c: Counter, limit: nat, section: Section, entries: seq<Entry>, texts: seq<seq<string>>)
    requires SectionChunks(c, limit, entries, texts)
    ensures forall i | 0 <= i < |SectionRows(section, texts)| :: c.count(SectionRows(section, texts)[i].text) <= limit
  {
    if texts != [] {
      var n := |texts| - 1;
      assert SectionChunks(c, limit, entries[..n], texts[..n]) by {
        hide ChunksOf;
        assert forall i | 0 <= i < n :: entries[..n][i] == entries[i] && texts[..n][i] == texts[i];
      }
      ChunksFit(c, limit, section, entries[..n], texts[..n]);
      assert ChunksOf(c, limit, entries[n], texts[n]);
      EntryFits(c, limit, entries[n], texts[n]);
      hide SectionChunks;
    }
  }

  lemma EntryFits(c: Counter, limit: nat, e: Entry, texts: seq<string>)
    requires ChunksOf(c, limit, e, texts)
    ensures forall i | 0 <= i < |texts| :: c.count(texts[i]) <= limit
  {
    hide PiecesOfAll, Flatten, Maximal, Render;
  }
}
