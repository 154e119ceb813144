/** What the text of a chunk is, and that the chunks of an entry together hold its text. */
module ChunkText {
  import opened Wrappers
  import opened Chunking
  import opened ResumeChunks

  // ---- one chunk

  /** The units stand in the body at these places, one after the other, with exactly one blank between two of them. */
  predicate SpacedAt(body: string, units: seq<string>, at: seq<nat>) {
    && |at| == |units| > 0 && at[0] == 0 && at[|units| - 1] + |units[|units| - 1]| == |body|
    && (forall j | 0 <= j < |units| :: at[j] + |units[j]| <= |body| && body[at[j]..at[j] + |units[j]|] == units[j])
    && (forall j | 0 <= j < |units| - 1 :: at[j + 1] == at[j] + |units[j]| + 1 && body[at[j] + |units[j]|] == ' ')
  }

  lemma {:induction false} JoinSpaces(units: seq<string>) returns (at: seq<nat>)
    requires units != []
    ensures SpacedAt(Join(units), units, at)
  {
    hide SpacedAt;
    if |units| == 1 {
      at := [0];
      OneUnit(units);
    } else {
      var n := |units| - 1;
      var front, last := units[..n], units[n];
      var before := JoinSpaces(front);
      at := before + [|Join(front)| + 1];
      OneMoreUnit(Join(front), front, before, last);
      assert front + [last] == units;
    }
  }

  lemma OneUnit(units: seq<string>)
    requires |units| == 1
    ensures SpacedAt(units[0], units, [0])
  {
  }

  lemma OneMoreUnit(body: string, units: seq<string>, at: seq<nat>, unit: string)
    requires SpacedAt(body, units, at)
    ensures SpacedAt(body + " " + unit, units + [unit], at + [|body| + 1])
  {
    var body', units', at' := body + " " + unit, units + [unit], at + [|body| + 1];
    forall j | 0 <= j < |units'| ensures at'[j] + |units'[j]| <= |body'| && body'[at'[j]..at'[j] + |units'[j]|] == units'[j] {
      if j < |units| {
        assert body'[at[j]..at[j] + |units[j]|] == body[at[j]..at[j] + |units[j]|];
      }
    }
  }

  /** A chunk is its heading, a line break, and its units in order. */
  predicate ChunkOf(heading: string, units: seq<string>, text: string, at: seq<nat>) {
    |heading| < |text| && text[..|heading|] == heading && text[|heading|] == '\n' && SpacedAt(text[|heading| + 1..], units, at)
  }

  ghost predicate IsChunk(heading: string, units: seq<string>, text: string) {
    exists at :: ChunkOf(heading, units, text, at)
  }

  /** What follows the heading line. */
  function Body(heading: string, text: string): string {
    if |heading| < |text| then text[|heading| + 1..] else ""
  }

  lemma RenderIsChunk(heading: string, units: seq<string>) returns (at: seq<nat>)
    requires units != []
    ensures ChunkOf(heading, units, Render(heading, units), at)
    ensures Body(heading, Render(heading, units)) == Join(units)
  {
    at := JoinSpaces(units);
    hide Join, SpacedAt;
    assert (heading + "\n" + Join(units))[|heading| + 1..] == Join(units);
  }

  /** Every chunk of an entry consists of the heading line and the pieces of its group; no piece is left out, repeated or
    * moved. */
  lemma ChunksAreTheirPieces(c: Counter, heading: string, limit: nat, pieces: seq<string>, groups: seq<seq<string>>, texts: seq<string>)
    requires EntryChunks(c, heading, limit, pieces, groups, texts)
    ensures |texts| == |groups| && Flatten(groups) == pieces
    ensures forall i | 0 <= i < |texts| :: IsChunk(heading, groups[i], texts[i])
  {
    hide Render, Fits, Maximal, ChunkOf;
    forall i | 0 <= i < |texts| ensures IsChunk(heading, groups[i], texts[i]) {
      assert groups[i] != [];
      var at := RenderIsChunk(heading, groups[i]);
      assert ChunkOf(heading, groups[i], texts[i], at);
    }
  }

  // ---- the text of an entry

  lemma {:induction false} JoinKeepsInk(space: char -> bool, units: seq<string>)
    requires space(' ')
    ensures Ink(space, Join(units)) == Ink(space, Concat(units))
  {
    if |units| > 1 {
      var n := |units| - 1;
      JoinKeepsInk(space, units[..n]);
      InkOfBoth(space, Join(units[..n]) + " ", units[n]);
      InkOfBoth(space, Join(units[..n]), " ");
      InkOfBoth(space, Concat(units[..n]), units[n]);
      BlankHasNoInk(space);
      assert Join(units) == Join(units[..n]) + " " + units[n];
    } else if |units| == 1 {
      ConcatOne(units[0]);
      assert units == [units[0]];
    }
  }

  lemma ConcatOne(unit: string)
    ensures Concat([unit]) == unit
  {
    assert [unit][..0] == [] && "" + unit == unit;
  }

  lemma BlankHasNoInk(space: char -> bool)
    requires space(' ')
    ensures Ink(space, " ") == ""
  {
    assert " "[1..] == "";
  }

  lemma {:induction false} ConcatOfBoth(a: seq<string>, b: seq<string>)
    ensures Concat(a + b) == Concat(a) + Concat(b)
  {
    if b == [] {
      assert a + b == a;
    } else {
      var n := |b| - 1;
      ConcatOfBoth(a, b[..n]);
      assert (a + b)[..|a + b| - 1] == a + b[..n];
    }
  }

  function Bodies(heading: string, texts: seq<string>): (r: seq<string>)
    ensures |r| == |texts|
  {
    seq(|texts|, i requires 0 <= i < |texts| => Body(heading, texts[i]))
  }

  lemma {:induction false} GroupsHoldTheInk(space: char -> bool, heading: string, groups: seq<seq<string>>, texts: seq<string>, n: nat)
    requires space(' ') && |texts| == |groups| && n <= |groups|
    requires forall i | 0 <= i < |groups| :: groups[i] != [] && texts[i] == Render(heading, groups[i])
    ensures Ink(space, Concat(Bodies(heading, texts)[..n])) == Ink(space, Concat(Flatten(groups[..n])))
  {
    hide Render, Join, Ink, Body;
    if n == 0 {
      assert groups[..0] == [] && Bodies(heading, texts)[..0] == [];
    } else {
      GroupsHoldTheInk(space, heading, groups, texts, n - 1);
      var _ := RenderIsChunk(heading, groups[n - 1]);
      JoinKeepsInk(space, groups[n - 1]);
      OneGroupMore(space, Bodies(heading, texts), groups, n);
    }
  }

  lemma OneGroupMore(space: char -> bool, bodies: seq<string>, groups: seq<seq<string>>, n: nat)
    requires 0 < n <= |groups| == |bodies| && Ink(space, bodies[n - 1]) == Ink(space, Concat(groups[n - 1]))
    requires Ink(space, Concat(bodies[..n - 1])) == Ink(space, Concat(Flatten(groups[..n - 1])))
    ensures Ink(space, Concat(bodies[..n])) == Ink(space, Concat(Flatten(groups[..n])))
  {
    hide Ink;
    assert bodies[..n][..n - 1] == bodies[..n - 1] && groups[..n][..n - 1] == groups[..n - 1];
    InkOfBoth(space, Concat(bodies[..n - 1]), bodies[n - 1]);
    ConcatOfBoth(Flatten(groups[..n - 1]), groups[n - 1]);
    InkOfBoth(space, Concat(Flatten(groups[..n - 1])), Concat(groups[n - 1]));
  }

  /** The chunk bodies, one after the other, have the ink of the pieces in order. */
  lemma ChunksHoldThePieces(c: Counter, heading: string, limit: nat, pieces: seq<string>, groups: seq<seq<string>>, texts: seq<string>)
    requires EntryChunks(c, heading, limit, pieces, groups, texts) && c.space(' ')
    ensures Ink(c.space, Concat(Bodies(heading, texts))) == Ink(c.space, Concat(pieces))
  {
    hide Render, Fits, Maximal, Ink, Concat, Bodies;
    assert groups[..|groups|] == groups && Bodies(heading, texts)[..|groups|] == Bodies(heading, texts);
    GroupsHoldTheInk(c.space, heading, groups, texts, |groups|);
  }

  /** What is kept of a unit: all of it, or what a hard split keeps. */
  function KeptOf(c: Counter, heading: string, limit: nat, unit: string): string
    requires SortedStarts(c, unit)
  {
    if Fits(c, heading, limit, [unit]) then unit else unit[CutAt(c, unit, 0)..]
  }

  function KeptOfAll(c: Counter, heading: string, limit: nat, units: seq<string>): string
    requires forall i | 0 <= i < |units| :: SortedStarts(c, units[i])
  {
    if units == [] then ""
    else KeptOfAll(c, heading, limit, units[..|units| - 1]) + KeptOf(c, heading, limit, units[|units| - 1])
  }

  lemma UnitIsKept(c: Counter, heading: string, limit: nat, unit: string, cuts: seq<nat>, pieces: seq<string>)
    requires SortedStarts(c, unit) && PiecesOf(c, heading, limit, unit, cuts, pieces)
    ensures Ink(c.space, Concat(pieces)) == Ink(c.space, KeptOf(c, heading, limit, unit))
  {
    hide Fits, Ink;
    if Fits(c, heading, limit, [unit]) {
      ConcatOne(unit);
    } else {
      HardSplitKeepsTheText(c, heading, limit, unit, cuts, pieces);
    }
  }

  lemma {:induction false} UnitsAreKept(c: Counter, heading: string, limit: nat, units: seq<string>, cuts: seq<seq<nat>>,
                                       made: seq<seq<string>>)
    requires (forall i | 0 <= i < |units| :: SortedStarts(c, units[i])) && PiecesOfAll(c, heading, limit, units, cuts, made)
    ensures Ink(c.space, Concat(Flatten(made))) == Ink(c.space, KeptOfAll(c, heading, limit, units))
  {
    hide PiecesOf, Ink, KeptOf, SortedStarts;
    if units != [] {
      var n := |units| - 1;
      assert PiecesOf(c, heading, limit, units[n], cuts[n], made[n]);
      assert forall i | 0 <= i < n :: PiecesOf(c, heading, limit, units[..n][i], cuts[..n][i], made[..n][i]);
      UnitsAreKept(c, heading, limit, units[..n], cuts[..n], made[..n]);
      UnitIsKept(c, heading, limit, units[n], cuts[n], made[n]);
      ConcatOfBoth(Flatten(made[..n]), made[n]);
      InkOfBoth(c.space, Concat(Flatten(made[..n])), Concat(made[n]));
      InkOfBoth(c.space, KeptOfAll(c, heading, limit, units[..n]), KeptOf(c, heading, limit, units[n]));
    }
  }

  /** With sorted offsets the chunk bodies of an entry, one after the other, have the ink of its units in order: of each unit
    * that fits all of it, of any other one everything from its first token on. */
  lemma ChunksHoldTheText(c: Counter, heading: string, limit: nat, units: seq<string>, cuts: seq<seq<nat>>, made: seq<seq<string>>,
                          groups: seq<seq<string>>, texts: seq<string>)
    requires (forall i | 0 <= i < |units| :: SortedStarts(c, units[i])) && c.space(' ')
    requires PiecesOfAll(c, heading, limit, units, cuts, made) && EntryChunks(c, heading, limit, Flatten(made), groups, texts)
    ensures Ink(c.space, Concat(Bodies(heading, texts))) == Ink(c.space, KeptOfAll(c, heading, limit, units))
  {
    hide *;
    UnitsAreKept(c, heading, limit, units, cuts, made);
    ChunksHoldThePieces(c, heading, limit, Flatten(made), groups, texts);
  }

  // ---- pieces and rows

  /** strip(): white space goes from both ends, nothing else does. */
  lemma StripIs(space: char -> bool, text: string) returns (lo: nat, hi: nat)
    ensures lo <= hi <= |text| && Strip(space, text) == text[lo..hi]
    ensures forall i | 0 <= i < lo || hi <= i < |text| :: space(text[i])
    ensures lo < hi ==> !space(text[lo]) && !space(text[hi - 1])
  {
    lo := StripLeftIs(space, text);
    var k := StripRightIs(space, text[lo..]);
    hi := lo + k;
    assert text[lo..][..k] == text[lo..hi];
    assert forall i | 0 <= i < |text| - lo :: text[lo..][i] == text[lo + i];
  }

  lemma {:induction false} StripLeftIs(space: char -> bool, text: string) returns (lo: nat)
    ensures lo <= |text| && StripLeft(space, text) == text[lo..]
    ensures (forall i | 0 <= i < lo :: space(text[i])) && (lo < |text| ==> !space(text[lo]))
  {
    if text == "" || !space(text[0]) {
      lo := 0;
    } else {
      var k := StripLeftIs(space, text[1..]);
      lo := k + 1;
      assert text[1..][k..] == text[lo..];
      forall i | 0 <= i < lo ensures space(text[i]) {
        if i > 0 { assert text[1..][i - 1] == text[i]; }
      }
    }
  }

  lemma {:induction false} StripRightIs(space: char -> bool, text: string) returns (hi: nat)
    ensures hi <= |text| && StripRight(space, text) == text[..hi]
    ensures (forall i | hi <= i < |text| :: space(text[i])) && (hi > 0 ==> !space(text[hi - 1]))
  {
    if text == "" || !space(text[|text| - 1]) {
      hi := |text|;
    } else {
      hi := StripRightIs(space, text[..|text| - 1]);
      assert text[..|text| - 1][..hi] == text[..hi];
      forall i | hi <= i < |text| ensures space(text[i]) {
        if i < |text| - 1 { assert text[..|text| - 1][i] == text[i]; }
      }
    }
  }

  /** A section has exactly one row for every chunk of every entry, with the entry's number and the chunk's. */
  lemma {:induction false} SectionIsComplete(section: Section, texts: seq<seq<string>>)
    ensures forall e, i | 0 <= e < |texts| && 0 <= i < |texts[e]| :: Row(section, e, i, texts[e][i]) in SectionRows(section, texts)
    ensures forall r | r in SectionRows(section, texts) ::
              r.section == section && r.entry < |texts| && r.index < |texts[r.entry]| && r.text == texts[r.entry][r.index]
  {
    if texts != [] {
      var n := |texts| - 1;
      SectionIsComplete(section, texts[..n]);
      hide SectionRows;
      SectionMore(section, texts);
      forall e, i | 0 <= e < |texts| && 0 <= i < |texts[e]| ensures Row(section, e, i, texts[e][i]) in SectionRows(section, texts) {
        if e < n {
          assert texts[..n][e] == texts[e];
        } else {
          assert EntryRows(section, n, texts[n])[i] == Row(section, n, i, texts[n][i]);
        }
      }
    }
  }

  lemma SectionMore(section: Section, texts: seq<seq<string>>)
    requires texts != []
    ensures SectionRows(section, texts) == SectionRows(section, texts[..|texts| - 1]) + EntryRows(section, |texts| - 1, texts[|texts| - 1])
  {
  }
}
