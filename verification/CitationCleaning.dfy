/** What cleaning the citations of a text does to the whole text. */
module CitationCleaning {
  import opened Utf16
  import opened Scanning
  import opened CitationScanner
  import opened PlanningCitations

  /** A cleaned text as stretches of literal text between kept citations. What stood on the two sides of a dropped
      citation is one stretch. */
  datatype Chunks = Tail(literal: Text) | Chunk(literal: Text, kept: Text, rest: Chunks)

  function Prefixed(u: Unit, cs: Chunks): Chunks {
    cs.(literal := [u] + cs.literal)
  }

  function ChunksOf(f: Text -> Text, ps: Pieces): Chunks {
    match ps
    case End => Tail([])
    case Plain(u, rest) => Prefixed(u, ChunksOf(f, rest))
    case Hit(h, rest) => if f(h) == [] then ChunksOf(f, rest) else Chunk([], f(h), ChunksOf(f, rest))
  }

  function ChunksText(cs: Chunks): Text {
    match cs
    case Tail(literal) => literal
    case Chunk(literal, kept, rest) => literal + (kept + ChunksText(rest))
  }

  lemma {:induction false} ChunksAreTheRewrite(f: Text -> Text, ps: Pieces)
    ensures ChunksText(ChunksOf(f, ps)) == Rewrite(f, ps)
  {
    match ps
    case End =>
    case Plain(u, rest) =>
      ChunksAreTheRewrite(f, rest);
      var cs := ChunksOf(f, rest);
      if cs.Chunk? {
        Associative([u], cs.literal, cs.kept + ChunksText(cs.rest));
      }
    case Hit(h, rest) =>
      ChunksAreTheRewrite(f, rest);
      var text := f(h) + Rewrite(f, rest);
      assert [] + text == text && [] + Rewrite(f, rest) == Rewrite(f, rest);
  }

  // No citation reaches from literal text into a kept citation

  /** Blanks, then a bracket. */
  predicate OpensBracket(s: Text) {
    s != [] && if IsBlank(s[0]) then OpensBracket(s[1..]) else s[0] == OPEN
  }

  lemma {:induction false} NoBracketInside(q: Stage, s: Text)
    requires !q.Start? && OpensBracket(s)
    ensures Run(q, s) == 0
    decreases |s|
  {
    if IsBlank(s[0]) && Advance(q, s[0]).To? {
      NoBracketInside(Advance(q, s[0]).stage, s[1..]);
    }
  }

  /** The text is empty or ends in something other than a blank. */
  predicate EndsSolid(s: Text) {
    s == [] || !IsBlank(s[|s| - 1])
  }

  lemma {:induction false} LocalRun(q: Stage, s: Text, rest: Text)
    requires OpensBracket(rest) && EndsSolid(s) && (q.Start? ==> s != [])
    ensures Run(q, s + rest) == Run(q, s)
    decreases |s|
  {
    if s == [] {
      assert s + rest == rest;
      NoBracketInside(q, rest);
    } else {
      assert (s + rest)[1..] == s[1..] + rest;
      var move := Advance(q, s[0]);
      if move.To? {
        LocalRun(move.stage, s[1..], rest);
      }
    }
  }

  function Append(ps: Pieces, qs: Pieces): Pieces {
    match ps
    case End => qs
    case Plain(u, rest) => Plain(u, Append(rest, qs))
    case Hit(h, rest) => Hit(h, Append(rest, qs))
  }

  lemma {:induction false} ScanBeforeBracket(s: Text, rest: Text)
    requires OpensBracket(rest) && EndsSolid(s)
    ensures Scan(CitationLength, s + rest) == Append(Scan(CitationLength, s), Scan(CitationLength, rest))
    decreases |s|
  {
    if s == [] {
      assert s + rest == rest;
    } else {
      LocalRun(Start, s, rest);
      var n := if CitationLength(s) == 0 then 1 else CitationLength(s);
      assert (s + rest)[n..] == s[n..] + rest && (s + rest)[..n] == s[..n];
      ScanBeforeBracket(s[n..], rest);
    }
  }

  lemma {:induction false} CitationOpens(blanks: Text, rest: Text)
    requires forall i | 0 <= i < |blanks| :: IsBlank(blanks[i])
    ensures OpensBracket(blanks + ([OPEN] + rest))
  {
    var s := blanks + ([OPEN] + rest);
    if blanks != [] {
      CitationOpens(blanks[1..], rest);
      assert s[1..] == blanks[1..] + ([OPEN] + rest);
    }
  }

  lemma ScanAtCitation(c: Citation, rest: Text)
    requires Valid(c)
    ensures OpensBracket(CitationText(c) + rest)
    ensures Scan(CitationLength, CitationText(c) + rest) == Hit(CitationText(c), Scan(CitationLength, rest))
  {
    var k := CitationText(c);
    CitationIsTaken(c, rest);
    assert (k + rest)[..|k|] == k && (k + rest)[|k|..] == rest;
    CitationOpens(c.blanks, IdsText(c.ids) + rest);
    assert k + rest == c.blanks + ([OPEN] + (IdsText(c.ids) + rest));
    assert |k| > 0;
  }

  /** Kept citations are citations, and no stretch before one ends in a blank. */
  ghost predicate WellCut(cs: Chunks) {
    cs.Chunk? ==> EndsSolid(cs.literal) && IsCitation(cs.kept) && WellCut(cs.rest)
  }

  /** The stretches split on their own, the kept citations between them. */
  function ScanOf(cs: Chunks): Pieces {
    match cs
    case Tail(literal) => Scan(CitationLength, literal)
    case Chunk(literal, kept, rest) => Append(Scan(CitationLength, literal), Hit(kept, ScanOf(rest)))
  }

  /** Splitting the cleaned text again is splitting each stretch: only inside a stretch can a citation have come up. */
  lemma {:induction false} ScanOfChunks(cs: Chunks)
    requires WellCut(cs)
    ensures Scan(CitationLength, ChunksText(cs)) == ScanOf(cs)
  {
    if cs.Chunk? {
      ScanOfChunks(cs.rest);
      var c :| Valid(c) && CitationText(c) == cs.kept;
      ScanAtCitation(c, ChunksText(cs.rest));
      ScanBeforeBracket(cs.literal, cs.kept + ChunksText(cs.rest));
    }
  }

  lemma BlankBeforeCitation(u: Unit, rest: Text)
    requires IsBlank(u) && CitationLength(rest) > 0
    ensures CitationLength([u] + rest) > 0
  {
  }

  lemma HitIsCitation(h: Text, rest: Text) returns (c: Citation)
    requires h != [] && CitationLength(h + rest) == |h|
    ensures Valid(c) && CitationText(c) == h
  {
    CitationExact(h + rest, |h|);
    assert (h + rest)[..|h|] == h;
    c :| Valid(c) && CitationText(c) == h;
  }

  lemma KeptIsCitation(known: set<Id>, c: Citation)
    requires Valid(c) && CleanCitation(known)(CitationText(c)) != []
    ensures IsCitation(CleanCitation(known)(CitationText(c)))
  {
    CleanedCitation(known, c);
    WrittenIs(if c.blanks == [] then [] else [SPACE], KeptIds(known, CitationText(c)));
  }

  lemma HitCleaned(known: set<Id>, h: Text, rest: Text)
    requires h != [] && CitationLength(h + rest) == |h|
    ensures IsCitation(h) && (CleanCitation(known)(h) != [] ==> IsCitation(CleanCitation(known)(h)))
  {
    var c := HitIsCitation(h, rest);
    if CleanCitation(known)(h) != [] {
      KeptIsCitation(known, c);
    }
  }

  lemma {:induction false} LiteralEnds(f: Text -> Text, ps: Pieces)
    requires ChunksOf(f, ps).Chunk? && ChunksOf(f, ps).literal == []
    ensures ps.Hit?
  {
  }

  /** A unit before a stretch that ends solid leaves it so; before a citation it is no blank. */
  lemma {:induction false} SolidBefore(f: Text -> Text, u: Unit, rest: Pieces)
    requires Leftmost(CitationLength, Plain(u, rest))
    requires var cs := ChunksOf(f, rest); cs.Chunk? ==> EndsSolid(cs.literal)
    ensures var cs := ChunksOf(f, rest); cs.Chunk? ==> EndsSolid([u] + cs.literal)
  {
    var cs := ChunksOf(f, rest);
    if cs.Chunk? && cs.literal == [] {
      LiteralEnds(f, rest);
      if IsBlank(u) {
        BlankBeforeCitation(u, Print(rest));
      }
    }
  }

  lemma {:induction false} ChunksAreWellCut(known: set<Id>, f: Text -> Text, ps: Pieces)
    requires Leftmost(CitationLength, ps) && f == CleanCitation(known)
    ensures WellCut(ChunksOf(f, ps))
    decreases ps
  {
    match ps
    case End =>
    case Plain(u, rest) =>
      ChunksAreWellCut(known, f, rest);
      SolidBefore(f, u, rest);
    case Hit(h, rest) =>
      ChunksAreWellCut(known, f, rest);
      HitCleaned(known, h, Print(rest));
  }

  // What a second look finds

  /** A citation that names known sources only and that cleaning leaves as it is. */
  ghost predicate Settled(known: set<Id>, k: Text) {
    IsCitation(k) && CleanCitation(known)(k) == k && forall id | id in IdsIn(k) :: id in known
  }

  ghost predicate KeptSettled(known: set<Id>, cs: Chunks) {
    cs.Chunk? ==> Settled(known, cs.kept) && KeptSettled(known, cs.rest)
  }

  lemma CleanedIsSettled(known: set<Id>, c: Citation)
    requires Valid(c) && CleanCitation(known)(CitationText(c)) != []
    ensures Settled(known, CleanCitation(known)(CitationText(c)))
  {
    var blanks: Text := if c.blanks == [] then [] else [SPACE];
    var ids := KeptIds(known, CitationText(c));
    CleanedCitation(known, c);
    KeptIdsAre(known, c);
    assert forall i | 0 <= i < |ids| :: ids[i] in ids;
    WrittenIs(blanks, ids);
    CleanedIsClean(known, blanks, ids);
    IdsOfCitation(Written(blanks, ids));
  }

  lemma {:induction false} ChunksAreSettled(known: set<Id>, ps: Pieces)
    requires Leftmost(CitationLength, ps)
    ensures KeptSettled(known, ChunksOf(CleanCitation(known), ps))
  {
    match ps
    case End =>
    case Plain(u, rest) => ChunksAreSettled(known, rest);
    case Hit(h, rest) =>
      ChunksAreSettled(known, rest);
      if CleanCitation(known)(h) != [] {
        var c := HitIsCitation(h, Print(rest));
        CleanedIsSettled(known, c);
      }
  }

  /** Every stretch cleaned, the kept citations as they are. */
  function CleanStretches(known: set<Id>, cs: Chunks): Text {
    match cs
    case Tail(literal) => CleanText(known, literal)
    case Chunk(literal, kept, rest) => CleanText(known, literal) + (kept + CleanStretches(known, rest))
  }

  lemma {:induction false} RewriteAppend(f: Text -> Text, ps: Pieces, qs: Pieces)
    ensures Rewrite(f, Append(ps, qs)) == Rewrite(f, ps) + Rewrite(f, qs)
  {
    match ps
    case End =>
      assert [] + Rewrite(f, qs) == Rewrite(f, qs);
    case Plain(u, rest) =>
      RewriteAppend(f, rest, qs);
      Associative([u], Rewrite(f, rest), Rewrite(f, qs));
    case Hit(h, rest) =>
      RewriteAppend(f, rest, qs);
      Associative(f(h), Rewrite(f, rest), Rewrite(f, qs));
  }

  lemma CleanTextIsRewrite(known: set<Id>, text: Text)
    ensures CleanText(known, text) == Rewrite(CleanCitation(known), Scan(CitationLength, text))
  {
    ReplaceIsRewrite(CitationLength, CleanCitation(known), text);
  }

  lemma {:induction false} RewriteOfChunk(f: Text -> Text, literal: Text, kept: Text, after: Pieces)
    requires f(kept) == kept
    ensures Rewrite(f, Append(Scan(CitationLength, literal), Hit(kept, after)))
      == Rewrite(f, Scan(CitationLength, literal)) + (kept + Rewrite(f, after))
  {
    RewriteAppend(f, Scan(CitationLength, literal), Hit(kept, after));
  }

  lemma {:induction false} RewriteOfScan(known: set<Id>, f: Text -> Text, cs: Chunks)
    requires KeptSettled(known, cs) && f == CleanCitation(known)
    ensures Rewrite(f, ScanOf(cs)) == CleanStretches(known, cs)
    decreases cs
  {
    CleanTextIsRewrite(known, cs.literal);
    if cs.Chunk? {
      RewriteOfScan(known, f, cs.rest);
      assert f(cs.kept) == cs.kept;
      RewriteOfChunk(f, cs.literal, cs.kept, ScanOf(cs.rest));
    }
  }

  function CleanedChunks(known: set<Id>, text: Text): Chunks {
    ChunksOf(CleanCitation(known), Scan(CitationLength, text))
  }

  /** The cleaned text is its stretches and kept citations: literal units are kept in order, every citation that names
      a known source is rewritten to its known ids, every other one is gone. */
  lemma CleanTextIsChunks(known: set<Id>, text: Text)
    ensures CleanText(known, text) == ChunksText(CleanedChunks(known, text))
    ensures WellCut(CleanedChunks(known, text)) && KeptSettled(known, CleanedChunks(known, text))
    ensures Scan(CitationLength, CleanText(known, text)) == ScanOf(CleanedChunks(known, text))
  {
    var ps := Scan(CitationLength, text);
    ScanRoundTrip(CitationLength, text);
    ReplaceIsRewrite(CitationLength, CleanCitation(known), text);
    ChunksAreTheRewrite(CleanCitation(known), ps);
    ChunksAreWellCut(known, CleanCitation(known), ps);
    ChunksAreSettled(known, ps);
    ScanOfChunks(CleanedChunks(known, text));
  }

  /** Cleaning a second time cleans the stretches and nothing else. */
  lemma CleaningTwice(known: set<Id>, text: Text)
    ensures CleanText(known, CleanText(known, text)) == CleanStretches(known, CleanedChunks(known, text))
  {
    CleanTextIsChunks(known, text);
    RewriteOfScan(known, CleanCitation(known), CleanedChunks(known, text));
    ReplaceIsRewrite(CitationLength, CleanCitation(known), CleanText(known, text));
  }
}
