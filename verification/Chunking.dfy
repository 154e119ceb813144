/** Resume chunking under the token limit (src/backend/app/processing/chunking.py).
  *
  * The tokenizer is given by its counts and offsets, about which nothing is assumed unless a lemma
  * says so; splitting a body into lines and sentences is not modelled.
  */
module Chunking {
  import opened Wrappers

  const MAX_CHUNKS_PER_PROFILE: nat := 100
  const MIN_WINDOW: int := 8

  /** count() with special tokens, and the start offsets of offset_mapping. */
  datatype Counter = Counter(count: string -> nat, starts: string -> seq<nat>, space: char -> bool)

  datatype Outcome<T> = Ok(value: T) | TokenLimit | TooManyChunks

  // ---- text

  function Join(units: seq<string>): string {
    if units == [] then ""
    else if |units| == 1 then units[0]
    else Join(units[..|units| - 1]) + " " + units[|units| - 1]
  }

  function Render(heading: string, units: seq<string>): string {
    heading + "\n" + Join(units)
  }

  /** Python's text[lo:hi] for non-negative bounds. */
  function Slice(text: string, lo: nat, hi: nat): string {
    var l, h := if lo <= |text| then lo else |text|, if hi <= |text| then hi else |text|;
    if l < h then text[l..h] else ""
  }

  function StripLeft(space: char -> bool, text: string): string {
    if text == "" || !space(text[0]) then text else StripLeft(space, text[1..])
  }

  function StripRight(space: char -> bool, text: string): string {
    if text == "" || !space(text[|text| - 1]) then text else StripRight(space, text[..|text| - 1])
  }

  function Strip(space: char -> bool, text: string): string {
    StripRight(space, StripLeft(space, text))
  }

  /** The characters that are not white space. */
  function Ink(space: char -> bool, text: string): string {
    if text == "" then "" else (if space(text[0]) then "" else [text[0]]) + Ink(space, text[1..])
  }

  lemma {:induction false} InkOfBoth(space: char -> bool, a: string, b: string)
    ensures Ink(space, a + b) == Ink(space, a) + Ink(space, b)
  {
    if a == "" {
      assert a + b == b;
    } else {
      assert (a + b)[1..] == a[1..] + b;
      InkOfBoth(space, a[1..], b);
    }
  }

  lemma {:induction false} StripLeftKeepsInk(space: char -> bool, text: string)
    ensures Ink(space, StripLeft(space, text)) == Ink(space, text)
  {
    if text != "" && space(text[0]) { StripLeftKeepsInk(space, text[1..]); }
  }

  lemma {:induction false} StripRightKeepsInk(space: char -> bool, text: string)
    ensures Ink(space, StripRight(space, text)) == Ink(space, text)
  {
    if text != "" && space(text[|text| - 1]) {
      var n := |text| - 1;
      assert text == text[..n] + [text[n]];
      InkOfBoth(space, text[..n], [text[n]]);
      StripRightKeepsInk(space, text[..n]);
    }
  }

  lemma StripKeepsInk(space: char -> bool, text: string)
    ensures Ink(space, Strip(space, text)) == Ink(space, text)
  {
    StripLeftKeepsInk(space, text);
    StripRightKeepsInk(space, StripLeft(space, text));
  }

  // ---- hard split

  function Fits(c: Counter, heading: string, limit: nat, units: seq<string>): bool {
    c.count(Render(heading, units)) <= limit
  }

  /** The start of token `i`, or the end of the unit after the last token. */
  function CutAt(c: Counter, unit: string, i: nat): nat {
    if i < |c.starts(unit)| then c.starts(unit)[i] else |unit|
  }

  /** The stripped text of the tokens from `i` up to `j`. */
  function PieceOf(c: Counter, unit: string, i: nat, j: nat): string {
    Strip(c.space, Slice(unit, CutAt(c, unit, i), CutAt(c, unit, j)))
  }

  function Window(c: Counter, heading: string, limit: nat): int {
    limit - c.count(Render(heading, [""]))
  }

  function Min(a: nat, b: nat): nat { if a <= b then a else b }

  /** Nothing wider than up to `j` that the window allows would fit. */
  predicate Widest(c: Counter, heading: string, limit: nat, unit: string, i: nat, j: nat) {
    forall wider: nat | j < wider <= |c.starts(unit)| && wider - i <= Window(c, heading, limit) ::
      !Fits(c, heading, limit, [PieceOf(c, unit, i, wider)])
  }

  /** The tokens from `i` up to `j` make a piece that fits and is as wide as the window allows. */
  predicate GoodCut(c: Counter, heading: string, limit: nat, unit: string, i: nat, j: nat, piece: string) {
    && i < j <= |c.starts(unit)| && j - i <= Window(c, heading, limit)
    && piece == PieceOf(c, unit, i, j) && Fits(c, heading, limit, [piece])
    && Widest(c, heading, limit, unit, i, j)
  }

  predicate GoodCutAt(c: Counter, heading: string, limit: nat, unit: string, cuts: seq<nat>, pieces: seq<string>, k: nat)
    requires k < |pieces| && |cuts| == |pieces| + 1
  {
    GoodCut(c, heading, limit, unit, cuts[k], cuts[k + 1], pieces[k])
  }

  /** `pieces` are cut at the token positions `cuts`: consecutive good cuts from the first token on. */
  predicate CutInto(c: Counter, heading: string, limit: nat, unit: string, cuts: seq<nat>, pieces: seq<string>) {
    |cuts| == |pieces| + 1 && cuts[0] == 0
    && forall k | 0 <= k < |pieces| :: GoodCutAt(c, heading, limit, unit, cuts, pieces, k)
  }

  lemma CutMore(c: Counter, heading: string, limit: nat, unit: string, cuts: seq<nat>, pieces: seq<string>, j: nat, piece: string)
    requires CutInto(c, heading, limit, unit, cuts, pieces)
    requires GoodCut(c, heading, limit, unit, cuts[|pieces|], j, piece)
    ensures CutInto(c, heading, limit, unit, cuts + [j], pieces + [piece])
  {
    hide GoodCut;
    var cuts', pieces' := cuts + [j], pieces + [piece];
    forall k | 0 <= k < |pieces'| ensures GoodCutAt(c, heading, limit, unit, cuts', pieces', k) {
      if k < |pieces| { assert GoodCutAt(c, heading, limit, unit, cuts, pieces, k); }
    }
  }

  /** No piece from this token on fits, however narrow. */
  predicate Stuck(c: Counter, heading: string, limit: nat, unit: string, at: nat) {
    at < |c.starts(unit)| && Widest(c, heading, limit, unit, at, at)
  }

  /** The cuts lead to a token from which no piece fits. */
  ghost predicate Sticks(c: Counter, heading: string, limit: nat, unit: string) {
    exists cuts, pieces :: CutInto(c, heading, limit, unit, cuts, pieces) && Stuck(c, heading, limit, unit, cuts[|pieces|])
  }

  /** Where the next cut goes is determined: there is one widest piece that fits, or none. */
  lemma NextCutIsUnique(c: Counter, heading: string, limit: nat, unit: string, i: nat, j: nat, piece: string, k: nat, other: string)
    requires GoodCut(c, heading, limit, unit, i, j, piece)
    ensures !Stuck(c, heading, limit, unit, i)
    ensures GoodCut(c, heading, limit, unit, i, k, other) ==> k == j && other == piece
  {
    hide Fits, PieceOf, Window;
  }

  /** Two ways to cut a unit agree as far as both go. */
  lemma {:induction false} CutsAreUnique(c: Counter, heading: string, limit: nat, unit: string, cuts: seq<nat>, pieces: seq<string>,
                                         cuts': seq<nat>, pieces': seq<string>, n: nat)
    requires CutInto(c, heading, limit, unit, cuts, pieces) && CutInto(c, heading, limit, unit, cuts', pieces')
    requires n <= |pieces| && n <= |pieces'|
    ensures cuts[n] == cuts'[n]
  {
    hide GoodCut;
    if n > 0 {
      CutsAreUnique(c, heading, limit, unit, cuts, pieces, cuts', pieces', n - 1);
      assert GoodCutAt(c, heading, limit, unit, cuts, pieces, n - 1);
      assert GoodCutAt(c, heading, limit, unit, cuts', pieces', n - 1);
      NextCutIsUnique(c, heading, limit, unit, cuts[n - 1], cuts[n], pieces[n - 1], cuts'[n], pieces'[n - 1]);
    }
  }

  /** A unit that is cut up to its end does not stick anywhere. */
  lemma CutToTheEnd(c: Counter, heading: string, limit: nat, unit: string, cuts: seq<nat>, pieces: seq<string>)
    requires CutInto(c, heading, limit, unit, cuts, pieces) && cuts[|pieces|] == |c.starts(unit)|
    ensures !Sticks(c, heading, limit, unit)
  {
    hide GoodCut, Widest;
    forall cuts', pieces' | CutInto(c, heading, limit, unit, cuts', pieces')
      ensures !Stuck(c, heading, limit, unit, cuts'[|pieces'|])
    {
      var n := Min(|pieces|, |pieces'|);
      CutsAreUnique(c, heading, limit, unit, cuts, pieces, cuts', pieces', n);
      if n < |pieces| {
        assert GoodCutAt(c, heading, limit, unit, cuts, pieces, n);
        NextCutIsUnique(c, heading, limit, unit, cuts[n], cuts[n + 1], pieces[n], 0, "");
      } else if n < |pieces'| {
        assert GoodCutAt(c, heading, limit, unit, cuts', pieces', n);
        GoodCutMoves(c, heading, limit, unit, cuts'[n], cuts'[n + 1], pieces'[n]);
      }
    }
  }

  /** The inner loop: the widest piece from `start` that fits, or none if there is none. */
  method CutOne(c: Counter, heading: string, unit: string, limit: nat, window: int, start: nat)
    returns (end: nat, piece: Option<string>)
    requires window == Window(c, heading, limit) >= MIN_WINDOW && start < |c.starts(unit)|
    ensures piece.Some? ==> GoodCut(c, heading, limit, unit, start, end, piece.value)
    ensures piece.None? ==> Stuck(c, heading, limit, unit, start)
  {
    var offs := c.starts(unit);
    var n := |offs|;
    var w := window;
    while true
      invariant 1 <= w <= window && Widest(c, heading, limit, unit, start, start + w)
      decreases w
    {
      end := Min(start + w, n);
      var c0 := offs[start];
      var c1 := if end == n then |unit| else offs[end];
      var p := Strip(c.space, Slice(unit, c0, c1));
      assert p == PieceOf(c, unit, start, end);
      hide Slice, Strip, PieceOf, Render;
      if c.count(Render(heading, [p])) <= limit { return end, Some(p); }
      if w == 1 { return end, None; }
      w := w - 1;
    }
  }

  /** _hard_split: the loops always end, by the tokens left and then by the window; an error means exactly that the
    * heading leaves no window or that the cuts stick. */
  method HardSplit(c: Counter, heading: string, unit: string, limit: nat) returns (r: Outcome<seq<string>>, ghost cuts: seq<nat>)
    ensures r.Ok? ==> CutInto(c, heading, limit, unit, cuts, r.value) && cuts[|r.value|] == |c.starts(unit)|
    ensures r.Ok? || r.TokenLimit?
    ensures r.Ok? <==> limit - c.count(heading + "\n") >= 8 && !Sticks(c, heading, limit, unit)
  {
    cuts := [0];
    EmptyBody(heading);
    var window := limit - c.count(Render(heading, [""]));
    if window < MIN_WINDOW { return TokenLimit, cuts; }
    var n, start := |c.starts(unit)|, 0;
    var pieces: seq<string> := [];
    hide GoodCut, Widest, Sticks;
    while start < n
      invariant start <= n && CutInto(c, heading, limit, unit, cuts, pieces) && cuts[|pieces|] == start
      decreases n - start
    {
      var end, piece := CutOne(c, heading, unit, limit, window, start);
      if piece.None? {
        SticksThere(c, heading, limit, unit, cuts, pieces);
        return TokenLimit, cuts;
      }
      CutMore(c, heading, limit, unit, cuts, pieces, end, piece.value);
      GoodCutMoves(c, heading, limit, unit, start, end, piece.value);
      pieces := pieces + [piece.value];
      cuts := cuts + [end];
      start := end;
    }
    CutToTheEnd(c, heading, limit, unit, cuts, pieces);
    r := Ok(pieces);
  }

  lemma EmptyBody(heading: string)
    ensures Render(heading, [""]) == heading + "\n"
  {
    assert heading + "\n" + "" == heading + "\n";
  }

  lemma SticksThere(c: Counter, heading: string, limit: nat, unit: string, cuts: seq<nat>, pieces: seq<string>)
    requires CutInto(c, heading, limit, unit, cuts, pieces) && Stuck(c, heading, limit, unit, cuts[|pieces|])
    ensures Sticks(c, heading, limit, unit)
  {
  }

  lemma GoodCutMoves(c: Counter, heading: string, limit: nat, unit: string, i: nat, j: nat, piece: string)
    requires GoodCut(c, heading, limit, unit, i, j, piece)
    ensures i < j <= |c.starts(unit)| && piece == PieceOf(c, unit, i, j)
  {
  }

  predicate SortedStarts(c: Counter, unit: string) {
    var s := c.starts(unit);
    (forall i, j | 0 <= i < j < |s| :: s[i] <= s[j]) && (forall i | 0 <= i < |s| :: s[i] <= |unit|)
  }

  function Concat(pieces: seq<string>): string {
    if pieces == [] then "" else Concat(pieces[..|pieces| - 1]) + pieces[|pieces| - 1]
  }

  /** The pieces so far hold every non-white character between the first token and the last cut. */
  lemma {:induction false} PiecesHoldTheInk(c: Counter, heading: string, limit: nat, unit: string, cuts: seq<nat>,
                                           pieces: seq<string>, n: nat)
    requires CutInto(c, heading, limit, unit, cuts, pieces) && SortedStarts(c, unit) && n <= |pieces|
    ensures cuts[n] <= |c.starts(unit)| && CutAt(c, unit, 0) <= CutAt(c, unit, cuts[n]) <= |unit|
    ensures Ink(c.space, Concat(pieces[..n])) == Ink(c.space, unit[CutAt(c, unit, 0)..CutAt(c, unit, cuts[n])])
  {
    hide Fits, Strip, GoodCut;
    if n > 0 {
      PiecesHoldTheInk(c, heading, limit, unit, cuts, pieces, n - 1);
      assert GoodCutAt(c, heading, limit, unit, cuts, pieces, n - 1);
      GoodCutMoves(c, heading, limit, unit, cuts[n - 1], cuts[n], pieces[n - 1]);
      var a, b, d := CutAt(c, unit, 0), CutAt(c, unit, cuts[n - 1]), CutAt(c, unit, cuts[n]);
      CutsInOrder(c, unit, cuts[n - 1], cuts[n]);
      assert pieces[..n][..n - 1] == pieces[..n - 1];
      OnePieceMore(c, unit, Concat(pieces[..n - 1]), a, b, d);
    }
  }

  lemma CutsInOrder(c: Counter, unit: string, i: nat, j: nat)
    requires SortedStarts(c, unit) && i < j <= |c.starts(unit)|
    ensures CutAt(c, unit, 0) <= CutAt(c, unit, i) <= CutAt(c, unit, j) <= |unit|
  {
  }

  lemma OnePieceMore(c: Counter, unit: string, before: string, a: nat, b: nat, d: nat)
    requires a <= b <= d <= |unit| && Ink(c.space, before) == Ink(c.space, unit[a..b])
    ensures Ink(c.space, before + Strip(c.space, Slice(unit, b, d))) == Ink(c.space, unit[a..d])
  {
    hide Strip, Ink;
    var piece := Strip(c.space, Slice(unit, b, d));
    assert Slice(unit, b, d) == unit[b..d];
    StripKeepsInk(c.space, unit[b..d]);
    assert unit[a..d] == unit[a..b] + unit[b..d];
    InkOfBoth(c.space, unit[a..b], unit[b..d]);
    InkOfBoth(c.space, before, piece);
  }

  /** With sorted offsets, a hard split loses no non-white character from the first token on; what stands before the first
    * token is lost, and so is a unit without tokens. */
  lemma HardSplitKeepsTheText(c: Counter, heading: string, limit: nat, unit: string, cuts: seq<nat>, pieces: seq<string>)
    requires CutInto(c, heading, limit, unit, cuts, pieces) && cuts[|pieces|] == |c.starts(unit)| && SortedStarts(c, unit)
    ensures Ink(c.space, Concat(pieces)) == Ink(c.space, unit[CutAt(c, unit, 0)..])
  {
    PiecesHoldTheInk(c, heading, limit, unit, cuts, pieces, |pieces|);
    assert pieces[..|pieces|] == pieces;
    assert unit[CutAt(c, unit, 0)..|unit|] == unit[CutAt(c, unit, 0)..];
  }

  // ---- grouping

  function Flatten(groups: seq<seq<string>>): seq<string> {
    if groups == [] then [] else Flatten(groups[..|groups| - 1]) + groups[|groups| - 1]
  }

  predicate AllFit(c: Counter, heading: string, limit: nat, groups: seq<seq<string>>) {
    forall i | 0 <= i < |groups| :: groups[i] != [] && Fits(c, heading, limit, groups[i])
  }

  /** Group `i` could not have taken the first piece of the next one. */
  predicate FullAt(c: Counter, heading: string, limit: nat, groups: seq<seq<string>>, i: nat) {
    i + 1 < |groups| ==> groups[i + 1] != [] && !Fits(c, heading, limit, groups[i] + [groups[i + 1][0]])
  }

  predicate Maximal(c: Counter, heading: string, limit: nat, groups: seq<seq<string>>) {
    forall i | 0 <= i < |groups| :: FullAt(c, heading, limit, groups, i)
  }

  /** The groups as they would be if the loop ended here. */
  function Closed(groups: seq<seq<string>>, cur: seq<string>): seq<seq<string>> {
    if cur == [] then groups else groups + [cur]
  }

  /** The state of the grouping loop: closed groups and the current one. */
  predicate Grouped(c: Counter, heading: string, limit: nat, groups: seq<seq<string>>, cur: seq<string>, pieces: seq<string>) {
    && AllFit(c, heading, limit, Closed(groups, cur)) && Flatten(Closed(groups, cur)) == pieces
    && Maximal(c, heading, limit, Closed(groups, cur)) && (cur == [] ==> groups == [])
  }

  /** The current group takes the piece. */
  lemma Taken(c: Counter, heading: string, limit: nat, groups: seq<seq<string>>, cur: seq<string>, piece: string, pieces: seq<string>)
    requires Grouped(c, heading, limit, groups, cur, pieces) && Fits(c, heading, limit, cur + [piece])
    ensures Grouped(c, heading, limit, groups, cur + [piece], pieces + [piece])
  {
    hide Fits;
    var before, after := Closed(groups, cur), groups + [cur + [piece]];
    assert after[..|groups|] == groups;
    if cur != [] {
      assert before[..|groups|] == groups;
      assert Flatten(groups) + (cur + [piece]) == Flatten(groups) + cur + [piece];
      forall i | 0 <= i < |after| ensures FullAt(c, heading, limit, after, i) {
        assert FullAt(c, heading, limit, before, i);
        if i + 1 < |after| { assert after[i] == before[i] && after[i + 1][0] == before[i + 1][0]; }
      }
      forall i | 0 <= i < |after| ensures after[i] != [] && Fits(c, heading, limit, after[i]) {
        if i < |groups| { assert after[i] == before[i]; }
      }
    } else {
      assert cur + [piece] == [piece];
    }
  }

  /** The current group is closed and the piece starts the next one. */
  lemma Started(c: Counter, heading: string, limit: nat, groups: seq<seq<string>>, cur: seq<string>, piece: string, pieces: seq<string>)
    requires Grouped(c, heading, limit, groups, cur, pieces) && cur != [] && !Fits(c, heading, limit, cur + [piece])
    requires Fits(c, heading, limit, [piece])
    ensures Grouped(c, heading, limit, groups + [cur], [piece], pieces + [piece])
  {
    hide Fits;
    var before, after := groups + [cur], groups + [cur] + [[piece]];
    assert after[..|before|] == before;
    forall i | 0 <= i < |after| ensures FullAt(c, heading, limit, after, i) {
      if i < |before| { assert FullAt(c, heading, limit, before, i) && after[i] == before[i]; }
    }
    forall i | 0 <= i < |after| ensures after[i] != [] && Fits(c, heading, limit, after[i]) {
      if i < |before| { assert after[i] == before[i]; }
    }
  }

  predicate PiecesFit(c: Counter, heading: string, limit: nat, pieces: seq<string>) {
    forall i | 0 <= i < |pieces| :: Fits(c, heading, limit, [pieces[i]])
  }

  method AddPiece(c: Counter, heading: string, limit: nat, groups: seq<seq<string>>, cur: seq<string>, piece: string,
                  ghost before: seq<string>) returns (groups': seq<seq<string>>, cur': seq<string>)
    requires Grouped(c, heading, limit, groups, cur, before) && Fits(c, heading, limit, [piece])
    ensures Grouped(c, heading, limit, groups', cur', before + [piece])
  {
    hide Render, Grouped;
    groups', cur' := groups, cur;
    if cur != [] && c.count(Render(heading, cur + [piece])) > limit {
      Started(c, heading, limit, groups, cur, piece, before);
      groups', cur' := groups + [cur], [];
      assert cur' + [piece] == [piece];
    } else {
      assert cur == [] ==> cur + [piece] == [piece];
      Taken(c, heading, limit, groups, cur, piece, before);
    }
    cur' := cur' + [piece];
  }

  /** The inner loop: the pieces of one unit join the groups. */
  method AddPieces(c: Counter, heading: string, limit: nat, groups: seq<seq<string>>, cur: seq<string>, pieces: seq<string>,
                   ghost before: seq<string>) returns (groups': seq<seq<string>>, cur': seq<string>)
    requires Grouped(c, heading, limit, groups, cur, before) && PiecesFit(c, heading, limit, pieces)
    ensures Grouped(c, heading, limit, groups', cur', before + pieces)
  {
    hide Grouped, Fits;
    groups', cur' := groups, cur;
    assert before + pieces[..0] == before;
    for n := 0 to |pieces|
      invariant Grouped(c, heading, limit, groups', cur', before + pieces[..n])
    {
      assert before + pieces[..n + 1] == before + pieces[..n] + [pieces[n]];
      groups', cur' := AddPiece(c, heading, limit, groups', cur', pieces[n], before + pieces[..n]);
    }
    assert before + pieces[..|pieces|] == before + pieces;
  }

  /** The pieces of one unit: itself if it fits, or what a hard split makes of it. */
  predicate PiecesOf(c: Counter, heading: string, limit: nat, unit: string, cuts: seq<nat>, pieces: seq<string>) {
    if Fits(c, heading, limit, [unit]) then pieces == [unit]
    else CutInto(c, heading, limit, unit, cuts, pieces) && cuts[|pieces|] == |c.starts(unit)|
  }

  /** What the chunks of an entry are made of: the pieces of its units, in order. */
  predicate PiecesOfAll(c: Counter, heading: string, limit: nat, units: seq<string>, cuts: seq<seq<nat>>, made: seq<seq<string>>) {
    |made| == |cuts| == |units|
    && forall i | 0 <= i < |units| :: PiecesOf(c, heading, limit, units[i], cuts[i], made[i])
  }

  predicate EntryChunks(c: Counter, heading: string, limit: nat, pieces: seq<string>, groups: seq<seq<string>>, texts: seq<string>) {
    && AllFit(c, heading, limit, groups) && Flatten(groups) == pieces && Maximal(c, heading, limit, groups)
    && |texts| == |groups| && forall i | 0 <= i < |texts| :: texts[i] == Render(heading, groups[i])
  }

  lemma PiecesOfFit(c: Counter, heading: string, limit: nat, unit: string, cuts: seq<nat>, pieces: seq<string>)
    requires PiecesOf(c, heading, limit, unit, cuts, pieces)
    ensures PiecesFit(c, heading, limit, pieces)
  {
    if !Fits(c, heading, limit, [unit]) {
      forall k | 0 <= k < |pieces| ensures Fits(c, heading, limit, [pieces[k]]) {
        assert GoodCutAt(c, heading, limit, unit, cuts, pieces, k);
      }
    }
    hide Fits;
  }

  /** Why an entry cannot be chunked: a unit that is too long, with no room beside the heading or a cut that sticks. */
  ghost predicate Unsplittable(c: Counter, heading: string, limit: nat, unit: string) {
    && !Fits(c, heading, limit, [unit])
    && (Window(c, heading, limit) < MIN_WINDOW || Sticks(c, heading, limit, unit))
  }

  ghost predicate SomeUnsplittable(c: Counter, heading: string, limit: nat, units: seq<string>) {
    exists i :: 0 <= i < |units| && Unsplittable(c, heading, limit, units[i])
  }

  method PiecesOfUnit(c: Counter, heading: string, unit: string, limit: nat) returns (r: Outcome<seq<string>>, ghost cuts: seq<nat>)
    ensures r.Ok? ==> PiecesOf(c, heading, limit, unit, cuts, r.value)
    ensures r.Ok? || r.TokenLimit?
    ensures r.TokenLimit? <==> Unsplittable(c, heading, limit, unit)
  {
    cuts := [];
    EmptyBody(heading);
    if c.count(Render(heading, [unit])) <= limit { return Ok([unit]), cuts; }
    r, cuts := HardSplit(c, heading, unit, limit);
  }

  /** The rendered groups, and the check that every text fits, which never fails. */
  method RenderGroups(c: Counter, heading: string, groups: seq<seq<string>>, limit: nat) returns (texts: seq<string>)
    requires AllFit(c, heading, limit, groups)
    ensures |texts| == |groups| && forall i | 0 <= i < |texts| :: texts[i] == Render(heading, groups[i])
  {
    texts := [];
    for n := 0 to |groups|
      invariant |texts| == n && forall i | 0 <= i < n :: texts[i] == Render(heading, groups[i])
    {
      texts := texts + [Render(heading, groups[n])];
    }
    for n := 0 to |texts| {
      if c.count(texts[n]) > limit {
        assert false;
      }
    }
  }

  lemma PiecesMore(c: Counter, heading: string, limit: nat, units: seq<string>, n: nat, cuts: seq<seq<nat>>, made: seq<seq<string>>,
                   cut: seq<nat>, pieces: seq<string>)
    requires n < |units| && PiecesOfAll(c, heading, limit, units[..n], cuts, made)
    requires PiecesOf(c, heading, limit, units[n], cut, pieces)
    ensures PiecesOfAll(c, heading, limit, units[..n + 1], cuts + [cut], made + [pieces])
    ensures Flatten(made + [pieces]) == Flatten(made) + pieces
  {
    assert (made + [pieces])[..|made|] == made;
    hide PiecesOf;
  }

  lemma NothingGrouped(c: Counter, heading: string, limit: nat)
    ensures Grouped(c, heading, limit, [], [], Flatten([])) && PiecesOfAll(c, heading, limit, [], [], [])
  {
  }

  /** The loop over the units: None exactly when one of them cannot be split. */
  method GroupUnits(c: Counter, heading: string, units: seq<string>, limit: nat)
    returns (r: Option<(seq<seq<string>>, seq<string>)>, ghost cuts: seq<seq<nat>>, ghost made: seq<seq<string>>)
    ensures r.Some? ==> PiecesOfAll(c, heading, limit, units, cuts, made)
                        && Grouped(c, heading, limit, r.value.0, r.value.1, Flatten(made))
    ensures r.None? <==> SomeUnsplittable(c, heading, limit, units)
  {
    hide Unsplittable, PiecesOf, Grouped, PiecesFit, PiecesOfAll, Flatten;
    cuts, made := [], [];
    var gs: seq<seq<string>>, cur: seq<string> := [], [];
    NothingGrouped(c, heading, limit);
    assert units[..0] == [];
    for n := 0 to |units|
      invariant PiecesOfAll(c, heading, limit, units[..n], cuts, made)
      invariant Grouped(c, heading, limit, gs, cur, Flatten(made))
      invariant forall i | 0 <= i < n :: !Unsplittable(c, heading, limit, units[i])
    {
      var pieces;
      ghost var cut;
      pieces, cut := PiecesOfUnit(c, heading, units[n], limit);
      if !pieces.Ok? { return None, cuts, made; }
      PiecesOfFit(c, heading, limit, units[n], cut, pieces.value);
      gs, cur := AddPieces(c, heading, limit, gs, cur, pieces.value, Flatten(made));
      PiecesMore(c, heading, limit, units, n, cuts, made, cut, pieces.value);
      cuts, made := cuts + [cut], made + [pieces.value];
    }
    assert units[..|units|] == units;
    r := Some((gs, cur));
  }

  /** chunk_entry on the units of an entry. The groups hold the pieces in order, each fits and each is maximal; the
    * last check never fails, so an error comes exactly from a unit that cannot be split. */
  method ChunkEntry(c: Counter, heading: string, units: seq<string>, limit: nat)
    returns (r: Outcome<seq<string>>, ghost groups: seq<seq<string>>, ghost cuts: seq<seq<nat>>, ghost made: seq<seq<string>>)
    ensures r.Ok? ==> PiecesOfAll(c, heading, limit, units, cuts, made)
    ensures r.Ok? ==> EntryChunks(c, heading, limit, Flatten(made), groups, r.value)
    ensures r.Ok? || r.TokenLimit?
    ensures r.TokenLimit? <==> SomeUnsplittable(c, heading, limit, units)
  {
    hide PiecesOfAll, Grouped, AllFit, Maximal, Render, Flatten, Unsplittable, SomeUnsplittable;
    groups := [];
    var grouped;
    grouped, cuts, made := GroupUnits(c, heading, units, limit);
    if grouped.None? { return TokenLimit, groups, cuts, made; }
    var (gs, cur) := grouped.value;
    GroupedClosed(c, heading, limit, gs, cur, Flatten(made));
    groups := Closed(gs, cur);
    var texts := RenderGroups(c, heading, if cur == [] then gs else gs + [cur], limit);
    r := Ok(texts);
  }

  lemma GroupedClosed(c: Counter, heading: string, limit: nat, groups: seq<seq<string>>, cur: seq<string>, pieces: seq<string>)
    requires Grouped(c, heading, limit, groups, cur, pieces)
    ensures var all := Closed(groups, cur);
            AllFit(c, heading, limit, all) && Flatten(all) == pieces && Maximal(c, heading, limit, all)
  {
  }

  // ---- optimality

  /** Less text never takes more tokens: any run of units from a list that fits fits as well. */
  predicate Monotone(c: Counter, heading: string, limit: nat, pieces: seq<string>) {
    forall i, j, k, l | 0 <= i <= k < l <= j <= |pieces| && Fits(c, heading, limit, pieces[i..j]) ::
      Fits(c, heading, limit, pieces[k..l])
  }

  /** Where group `n` starts among the pieces. */
  function StartOf(groups: seq<seq<string>>, n: nat): nat
    requires n <= |groups|
  {
    |Flatten(groups[..n])|
  }

  lemma {:induction false} GroupAt(groups: seq<seq<string>>, n: nat)
    requires n < |groups|
    ensures StartOf(groups, n + 1) == StartOf(groups, n) + |groups[n]| <= |Flatten(groups)|
    ensures groups[n] == Flatten(groups)[StartOf(groups, n)..StartOf(groups, n + 1)]
  {
    assert groups[..n + 1][..n] == groups[..n];
    if n + 1 < |groups| {
      var front := groups[..|groups| - 1];
      GroupAt(front, n);
      assert front[..n] == groups[..n] && front[..n + 1] == groups[..n + 1];
      assert Flatten(groups) == Flatten(front) + groups[|groups| - 1];
    } else {
      assert groups[..n + 1] == groups;
    }
  }

  /** A run that starts no later than a greedy group and ends past it does not fit. */
  lemma OverreachDoesNotFit(c: Counter, heading: string, limit: nat, greedy: seq<seq<string>>, n: nat, i: nat, j: nat)
    requires Maximal(c, heading, limit, greedy) && Monotone(c, heading, limit, Flatten(greedy)) && n + 1 < |greedy|
    requires i <= j <= |Flatten(greedy)| && i <= StartOf(greedy, n) && StartOf(greedy, n + 1) < j
    ensures !Fits(c, heading, limit, Flatten(greedy)[i..j])
  {
    var pieces, k, l := Flatten(greedy), StartOf(greedy, n), StartOf(greedy, n + 1);
    GroupAt(greedy, n);
    GroupAt(greedy, n + 1);
    assert FullAt(c, heading, limit, greedy, n);
    hide Flatten, StartOf, Fits, Maximal;
    assert pieces[k..l + 1] == greedy[n] + [greedy[n + 1][0]];
  }

  /** The first `n` greedy groups reach at least as far as the first `n` groups of any other grouping that fits. */
  lemma {:induction false} GreedyStaysAhead(c: Counter, heading: string, limit: nat, greedy: seq<seq<string>>,
                                           other: seq<seq<string>>, n: nat)
    requires AllFit(c, heading, limit, greedy) && Maximal(c, heading, limit, greedy) && AllFit(c, heading, limit, other)
    requires Flatten(greedy) == Flatten(other) && Monotone(c, heading, limit, Flatten(greedy))
    requires n <= |greedy| && n <= |other|
    ensures StartOf(other, n) <= StartOf(greedy, n)
  {
    hide Fits, Monotone, Maximal;
    if n > 0 {
      GreedyStaysAhead(c, heading, limit, greedy, other, n - 1);
      GroupAt(greedy, n - 1);
      GroupAt(other, n - 1);
      assert greedy[..|greedy|] == greedy;
      hide Flatten, StartOf;
      if n < |greedy| && StartOf(greedy, n) < StartOf(other, n) {
        OverreachDoesNotFit(c, heading, limit, greedy, n - 1, StartOf(other, n - 1), StartOf(other, n));
      }
      assert n == |greedy| ==> StartOf(greedy, n) == |Flatten(greedy)| by { WholeLength(greedy); }
    }
  }

  lemma WholeLength(groups: seq<seq<string>>)
    ensures StartOf(groups, |groups|) == |Flatten(groups)|
  {
    assert groups[..|groups|] == groups;
  }

  /** For a counter that is monotone on the pieces, no other order-preserving grouping that fits has fewer chunks. */
  lemma GreedyIsOptimal(c: Counter, heading: string, limit: nat, greedy: seq<seq<string>>, other: seq<seq<string>>)
    requires AllFit(c, heading, limit, greedy) && Maximal(c, heading, limit, greedy) && AllFit(c, heading, limit, other)
    requires Flatten(greedy) == Flatten(other) && Monotone(c, heading, limit, Flatten(greedy))
    ensures |greedy| <= |other|
  {
    if |other| < |greedy| {
      GreedyStaysAhead(c, heading, limit, greedy, other, |other|);
      WholeLength(other);
      GroupAt(greedy, |other|);
    }
  }
}
