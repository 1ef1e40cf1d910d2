/** Where a single cleaning pass falls short: a dropped citation stands between literal text that begins a citation and
    literal text that completes it. */
module CitationJoins {
  import opened Utf16
  import opened Scanning
  import opened CitationScanner
  import opened PlanningCitations
  import opened CitationCleaning

  // Citations anywhere in a text

  /** Somewhere in the text stands a citation with the property. */
  ghost predicate Holds(p: Text -> bool, s: Text) {
    exists i, j | 0 <= i < j <= |s| :: IsCitation(s[i..j]) && p(s[i..j])
  }

  /** A scan found one. */
  predicate Finds(p: Text -> bool, ps: Pieces) {
    match ps
    case End => false
    case Plain(_, rest) => Finds(p, rest)
    case Hit(h, rest) => p(h) || Finds(p, rest)
  }

  /** The property stays when there are more blanks before the bracket. */
  ghost predicate BlanksKeep(p: Text -> bool) {
    forall u, t | IsBlank(u) && IsCitation(t) && p(t) :: p([u] + t)
  }

  lemma SliceOfRest(s: Text, i: nat, j: nat)
    requires s != [] && i <= j < |s|
    ensures s[1..][i..j] == s[i + 1..j + 1]
  {
  }

  lemma {:induction false} RestHolds(p: Text -> bool, s: Text)
    requires s != [] && Holds(p, s[1..])
    ensures Holds(p, s)
  {
    var i, j :| 0 <= i < j <= |s[1..]| && IsCitation(s[1..][i..j]) && p(s[1..][i..j]);
    SliceOfRest(s, i, j);
  }

  lemma {:induction false} HereOrLater(p: Text -> bool, s: Text)
    requires Holds(p, s)
    ensures (CitationLength(s) > 0 && p(s[..CitationLength(s)])) || Holds(p, s[1..])
  {
    var i, j :| 0 <= i < j <= |s| && IsCitation(s[i..j]) && p(s[i..j]);
    if i == 0 {
      assert s[i..j] == s[..j];
      CitationExact(s, j);
    } else {
      SliceOfRest(s, i - 1, j - 1);
      assert Holds(p, s[1..]);
    }
  }

  lemma {:induction false} HoldsStep(p: Text -> bool, s: Text)
    requires s != []
    ensures Holds(p, s) <==> (CitationLength(s) > 0 && p(s[..CitationLength(s)])) || Holds(p, s[1..])
  {
    var n := CitationLength(s);
    if Holds(p, s) {
      HereOrLater(p, s);
    } else if n > 0 {
      CitationExact(s, n);
      assert s[0..n] == s[..n];
    }
    if Holds(p, s[1..]) {
      RestHolds(p, s);
    }
  }

  lemma {:induction false} LengthOpens(s: Text)
    requires CitationLength(s) > 0
    ensures OpensBracket(s)
  {
    if IsBlank(s[0]) {
      LengthOpens(s[1..]);
    }
  }

  /** No citation begins inside another one. */
  lemma {:induction false} InsideNone(q: Stage, s: Text, i: nat)
    requires !q.Start? && i < Run(q, s)
    ensures CitationLength(s[i..]) == 0
    decreases |s|
  {
    if i == 0 {
      assert s[0..] == s;
      if CitationLength(s) > 0 {
        LengthOpens(s);
        NoBracketInside(q, s);
      }
    } else {
      InsideNone(Advance(q, s[0]).stage, s[1..], i - 1);
      assert s[1..][i - 1..] == s[i..];
    }
  }

  lemma {:induction false} SkipInside(p: Text -> bool, s: Text, i: nat)
    requires CitationLength(s) > 0 && s[0] == OPEN && 1 <= i <= CitationLength(s)
    ensures Holds(p, s[i..]) <==> Holds(p, s[CitationLength(s)..])
    decreases |s| - i
  {
    var n := CitationLength(s);
    if i < n {
      InsideNone(BeforeId, s[1..], i - 1);
      assert s[1..][i - 1..] == s[i..] && s[i..][1..] == s[i + 1..];
      HoldsStep(p, s[i..]);
      SkipInside(p, s, i + 1);
    }
  }

  /** Without its first blank a citation is scanned the same. */
  lemma {:induction false} ScanAfterBlank(s: Text)
    requires CitationLength(s) > 0 && IsBlank(s[0])
    ensures var n := CitationLength(s); var rest := Scan(CitationLength, s[n..]);
      && CitationLength(s[1..]) == n - 1 > 0
      && Scan(CitationLength, s) == Hit(s[..n], rest) && Scan(CitationLength, s[1..]) == Hit(s[1..][..n - 1], rest)
  {
    var n := CitationLength(s);
    assert s[1..][n - 1..] == s[n..];
  }

  /** The leftmost scan finds a citation with the property exactly when one stands anywhere in the text: citations do not
      overlap but for their blanks. */
  lemma {:induction false} ScanFinds(p: Text -> bool, s: Text)
    requires BlanksKeep(p)
    ensures Finds(p, Scan(CitationLength, s)) <==> Holds(p, s)
    decreases |s|
  {
    if s != [] {
      var n := CitationLength(s);
      HoldsStep(p, s);
      if n == 0 {
        ScanFinds(p, s[1..]);
      } else if s[0] == OPEN {
        SkipInside(p, s, 1);
        ScanFinds(p, s[n..]);
      } else {
        ScanFinds(p, s[1..]);
        ScanAfterBlank(s);
        CitationExact(s[1..], n - 1);
        assert s[..n] == [s[0]] + s[1..][..n - 1];
      }
    }
  }

  /** A citation that begins in the first text and ends in the second. */
  ghost predicate Crosses(p: Text -> bool, u: Text, v: Text) {
    exists i, j | 0 <= i < |u| && 0 < j <= |v| :: IsCitation(u[i..] + v[..j]) && p(u[i..] + v[..j])
  }

  lemma {:induction false} HoldsInJoin(p: Text -> bool, u: Text, v: Text)
    requires Holds(p, u + v)
    ensures Holds(p, u) || Holds(p, v) || Crosses(p, u, v)
  {
    var s := u + v;
    var i, j :| 0 <= i < j <= |s| && IsCitation(s[i..j]) && p(s[i..j]);
    if j <= |u| {
      assert s[i..j] == u[i..j];
    } else if i >= |u| {
      assert s[i..j] == v[i - |u|..j - |u|];
    } else {
      SliceAcross(u, v, i, j - |u|);
    }
  }

  lemma SliceAcross(u: Text, v: Text, i: nat, j: nat)
    requires i <= |u| && j <= |v|
    ensures (u + v)[i..j + |u|] == u[i..] + v[..j]
  {
  }

  lemma {:induction false} CrossingHolds(p: Text -> bool, u: Text, v: Text)
    requires Crosses(p, u, v)
    ensures Holds(p, u + v)
  {
    var i, j :| 0 <= i < |u| && 0 < j <= |v| && IsCitation(u[i..] + v[..j]) && p(u[i..] + v[..j]);
    SliceAcross(u, v, i, j);
  }

  lemma {:induction false} PartHolds(p: Text -> bool, u: Text, v: Text)
    requires Holds(p, u) || Holds(p, v)
    ensures Holds(p, u + v)
  {
    if Holds(p, u) {
      var i, j :| 0 <= i < j <= |u| && IsCitation(u[i..j]) && p(u[i..j]);
      assert (u + v)[i..j] == u[i..j];
    } else {
      var i, j :| 0 <= i < j <= |v| && IsCitation(v[i..j]) && p(v[i..j]);
      assert (u + v)[i + |u|..j + |u|] == v[i..j];
    }
  }

  lemma {:induction false} HoldsJoin(p: Text -> bool, u: Text, v: Text)
    ensures Holds(p, u + v) <==> Holds(p, u) || Holds(p, v) || Crosses(p, u, v)
  {
    if Holds(p, u + v) {
      HoldsInJoin(p, u, v);
    } else if Crosses(p, u, v) {
      CrossingHolds(p, u, v);
    } else if Holds(p, u) || Holds(p, v) {
      PartHolds(p, u, v);
    }
  }

  // The literal text around a dropped citation

  /** The literal text up to the next citation that is kept. */
  function LiteralAhead(f: Text -> Text, ps: Pieces): Text {
    match ps
    case End => []
    case Plain(u, rest) => [u] + LiteralAhead(f, rest)
    case Hit(h, rest) => if f(h) == [] then LiteralAhead(f, rest) else []
  }

  /** Of the pieces of a text: some dropped citation stands between literal text that ends in an unfinished citation and
      literal text that goes on to complete it, to one with the property. `before` is the literal text since the last
      citation that is kept. */
  ghost predicate PutsTogether(f: Text -> Text, p: Text -> bool, before: Text, ps: Pieces)
    decreases ps
  {
    match ps
    case End => false
    case Plain(u, rest) => PutsTogether(f, p, before + [u], rest)
    case Hit(h, rest) =>
      if f(h) != [] then PutsTogether(f, p, [], rest)
      else Crosses(p, before, LiteralAhead(f, rest)) || PutsTogether(f, p, before, rest)
  }

  predicate NoHits(ps: Pieces) {
    match ps
    case End => true
    case Plain(_, rest) => NoHits(rest)
    case Hit(_, _) => false
  }

  function PlainRun(ps: Pieces): Text {
    if ps.Plain? then [ps.unit] + PlainRun(ps.rest) else []
  }

  function AfterRun(ps: Pieces): Pieces {
    if ps.Plain? then AfterRun(ps.rest) else ps
  }

  lemma {:induction false} PrintIsRun(ps: Pieces)
    ensures Print(ps) == PlainRun(ps) + Print(AfterRun(ps))
  {
    if ps.Plain? {
      PrintIsRun(ps.rest);
    } else {
      assert [] + Print(ps) == Print(ps);
    }
  }

  lemma {:induction false} AfterRunOpens(ps: Pieces)
    requires Leftmost(CitationLength, ps)
    ensures AfterRun(ps).Hit? ==> OpensBracket(Print(AfterRun(ps))) && EndsSolid(PlainRun(ps))
    ensures !AfterRun(ps).Hit? ==> Print(AfterRun(ps)) == []
  {
    match ps
    case End =>
    case Plain(u, rest) =>
      AfterRunOpens(rest);
      if rest.Hit? && IsBlank(u) {
        BlankBeforeCitation(u, Print(rest));
      }
    case Hit(h, rest) =>
      var c := HitIsCitation(h, Print(rest));
      ScanAtCitation(c, Print(rest));
  }

  lemma RunStartsNone(ps: Pieces)
    requires Leftmost(CitationLength, ps) && ps.Plain?
    ensures CitationLength(PlainRun(ps)) == 0
  {
    PrintIsRun(ps);
    AfterRunOpens(ps);
    if AfterRun(ps).Hit? {
      LocalRun(Start, PlainRun(ps), Print(AfterRun(ps)));
    } else {
      assert PlainRun(ps) + [] == PlainRun(ps);
    }
  }

  lemma {:induction false} RunHoldsNone(ps: Pieces)
    requires Leftmost(CitationLength, ps)
    ensures NoHits(Scan(CitationLength, PlainRun(ps)))
  {
    if ps.Plain? {
      RunStartsNone(ps);
      RunHoldsNone(ps.rest);
      assert PlainRun(ps)[1..] == PlainRun(ps.rest);
    }
  }

  /** Literal text with no citation taken out of it holds none. */
  lemma RunHolds(p: Text -> bool, ps: Pieces)
    requires Leftmost(CitationLength, ps) && BlanksKeep(p)
    ensures !Holds(p, PlainRun(ps))
  {
    RunHoldsNone(ps);
    ScanFinds(p, PlainRun(ps));
    NoneFound(p, Scan(CitationLength, PlainRun(ps)));
  }

  lemma {:induction false} NoneFound(p: Text -> bool, ps: Pieces)
    requires NoHits(ps)
    ensures !Finds(p, ps)
  {
    if ps != End {
      NoneFound(p, ps.rest);
    }
  }

  /** Some stretch holds a citation with the property. */
  ghost predicate StretchHolds(p: Text -> bool, cs: Chunks)
    decreases cs, 1
  {
    Holds(p, cs.literal) || LaterHolds(p, cs)
  }

  ghost predicate LaterHolds(p: Text -> bool, cs: Chunks)
    decreases cs, 0
  {
    cs.Chunk? && StretchHolds(p, cs.rest)
  }

  lemma {:induction false} AheadIsLiteral(f: Text -> Text, ps: Pieces)
    ensures ChunksOf(f, ps).literal == LiteralAhead(f, ps)
    ensures exists end :: LiteralAhead(f, ps) == PlainRun(ps) + end
  {
    match ps
    case End => assert LiteralAhead(f, ps) == PlainRun(ps) + [];
    case Plain(u, rest) =>
      AheadIsLiteral(f, rest);
      var end :| LiteralAhead(f, rest) == PlainRun(rest) + end;
      assert LiteralAhead(f, ps) == PlainRun(ps) + end;
    case Hit(h, rest) =>
      AheadIsLiteral(f, rest);
      assert LiteralAhead(f, ps) == PlainRun(ps) + LiteralAhead(f, ps);
  }

  /** What crosses into the literal text right after a dropped citation crosses into all that is ahead. */
  lemma CrossesFurther(p: Text -> bool, before: Text, run: Text, end: Text)
    requires Crosses(p, before, run)
    ensures Crosses(p, before, run + end)
  {
    var i, j :| 0 <= i < |before| && 0 < j <= |run| && IsCitation(before[i..] + run[..j]) && p(before[i..] + run[..j]);
    assert (run + end)[..j] == run[..j];
  }

  lemma {:induction false} AcrossDropped(f: Text -> Text, p: Text -> bool, before: Text, ps: Pieces)
    requires Leftmost(CitationLength, ps) && BlanksKeep(p)
    requires ps.Hit? && f(ps.text) == []
    requires Holds(p, before + LiteralAhead(f, ps.rest)) || LaterHolds(p, ChunksOf(f, ps.rest))
      <==> Holds(p, before + PlainRun(ps.rest)) || PutsTogether(f, p, before, ps.rest)
    ensures Holds(p, before + LiteralAhead(f, ps)) || LaterHolds(p, ChunksOf(f, ps))
      <==> Holds(p, before) || PutsTogether(f, p, before, ps)
  {
    var ahead, run := LiteralAhead(f, ps.rest), PlainRun(ps.rest);
    AheadIsLiteral(f, ps.rest);
    var end :| ahead == run + end;
    HoldsJoin(p, before, ahead);
    HoldsJoin(p, before, run);
    RunHolds(p, ps.rest);
    if Crosses(p, before, run) {
      CrossesFurther(p, before, run, end);
    }
  }

  /** The stretches hold a citation with the property exactly when a deletion puts one together. */
  lemma {:induction false} StretchesHold(f: Text -> Text, p: Text -> bool, before: Text, ps: Pieces)
    requires Leftmost(CitationLength, ps) && BlanksKeep(p)
    ensures Holds(p, before + LiteralAhead(f, ps)) || LaterHolds(p, ChunksOf(f, ps))
      <==> Holds(p, before + PlainRun(ps)) || PutsTogether(f, p, before, ps)
    decreases ps
  {
    match ps
    case End =>
    case Plain(u, rest) =>
      StretchesHold(f, p, before + [u], rest);
      Associative(before, [u], LiteralAhead(f, rest));
      Associative(before, [u], PlainRun(rest));
    case Hit(h, rest) =>
      assert before + [] == before;
      if f(h) == [] {
        StretchesHold(f, p, before, rest);
        AcrossDropped(f, p, before, ps);
      } else {
        StretchesHold(f, p, [], rest);
        AheadIsLiteral(f, rest);
        RunHolds(p, rest);
        assert [] + LiteralAhead(f, rest) == LiteralAhead(f, rest) && [] + PlainRun(rest) == PlainRun(rest);
      }
  }

  ghost predicate KeptAreFree(p: Text -> bool, cs: Chunks) {
    cs.Chunk? ==> !p(cs.kept) && KeptAreFree(p, cs.rest)
  }

  lemma {:induction false} FindsAppend(p: Text -> bool, ps: Pieces, qs: Pieces)
    ensures Finds(p, Append(ps, qs)) <==> Finds(p, ps) || Finds(p, qs)
  {
    if ps != End {
      FindsAppend(p, ps.rest, qs);
    }
  }

  lemma {:induction false} FindsInStretches(p: Text -> bool, cs: Chunks)
    requires KeptAreFree(p, cs) && BlanksKeep(p)
    ensures Finds(p, ScanOf(cs)) <==> StretchHolds(p, cs)
  {
    ScanFinds(p, cs.literal);
    if cs.Chunk? {
      FindsInStretches(p, cs.rest);
      FindsAppend(p, Scan(CitationLength, cs.literal), Hit(cs.kept, ScanOf(cs.rest)));
    }
  }

  /** A property no kept citation has: the cleaned text shows it exactly when a deletion puts such a citation together. */
  lemma CleanedFinds(known: set<Id>, p: Text -> bool, text: Text)
    requires BlanksKeep(p) && KeptAreFree(p, CleanedChunks(known, text))
    ensures Finds(p, Scan(CitationLength, CleanText(known, text)))
      <==> PutsTogether(CleanCitation(known), p, [], Scan(CitationLength, text))
  {
    var f, ps := CleanCitation(known), Scan(CitationLength, text);
    CleanTextIsChunks(known, text);
    ScanRoundTrip(CitationLength, text);
    FindsInStretches(p, CleanedChunks(known, text));
    StretchesHold(f, p, [], ps);
    AheadIsLiteral(f, ps);
    RunHolds(p, ps);
    assert [] + LiteralAhead(f, ps) == LiteralAhead(f, ps) && [] + PlainRun(ps) == PlainRun(ps);
  }

  // Unknown sources

  /** Every citation of the pieces names known sources only. */
  predicate OnlyKnown(known: set<Id>, ps: Pieces) {
    match ps
    case End => true
    case Plain(_, rest) => OnlyKnown(known, rest)
    case Hit(h, rest) => (forall id | id in IdsIn(h) :: id in known) && OnlyKnown(known, rest)
  }

  /** The citation names a source that is not known. */
  function NamesUnknown(known: set<Id>): Text -> bool {
    (citation: Text) => !(forall id | id in IdsIn(citation) :: id in known)
  }

  lemma BlanksKeepUnknown(known: set<Id>)
    ensures BlanksKeep(NamesUnknown(known))
  {
  }

  lemma {:induction false} OnlyKnownIs(known: set<Id>, ps: Pieces)
    ensures OnlyKnown(known, ps) <==> !Finds(NamesUnknown(known), ps)
  {
    if ps != End {
      OnlyKnownIs(known, ps.rest);
    }
  }

  lemma {:induction false} SettledKnown(known: set<Id>, cs: Chunks)
    requires KeptSettled(known, cs)
    ensures KeptAreFree(NamesUnknown(known), cs)
  {
    if cs.Chunk? {
      SettledKnown(known, cs.rest);
    }
  }

  /** Cleaning leaves a citation of an unknown source exactly when a dropped citation stands between literal text that
      ends in an unfinished citation and literal text that completes it to one that names an unknown source. */
  lemma {:induction false} CleanedOnlyKnown(known: set<Id>, text: Text)
    ensures OnlyKnown(known, Scan(CitationLength, CleanText(known, text)))
      <==> !PutsTogether(CleanCitation(known), NamesUnknown(known), [], Scan(CitationLength, text))
  {
    BlanksKeepUnknown(known);
    CleanTextIsChunks(known, text);
    SettledKnown(known, CleanedChunks(known, text));
    OnlyKnownIs(known, Scan(CitationLength, CleanText(known, text)));
    CleanedFinds(known, NamesUnknown(known), text);
  }

  // Idempotence

  /** Cleaning does not leave the citation as it is. */
  function Changes(known: set<Id>): Text -> bool {
    (citation: Text) => CleanCitation(known)(citation) != citation
  }

  lemma WrittenClean(known: set<Id>, t: Text) returns (written: Text)
    requires t != [] && KeptIds(known, t) != []
    ensures written != [] && written[0] == OPEN && written == [OPEN] + (JoinIds(KeptIds(known, t)) + [CLOSE])
    ensures CleanCitation(known)(t) == (if IsSpace(t[0]) then [SPACE] + written else written)
  {
    written := [OPEN] + (JoinIds(KeptIds(known, t)) + [CLOSE]);
    assert [] + written == written;
  }

  lemma {:induction false} BlankStays(u: Unit, t: Text, written: Text)
    requires t != [] && written != [] && written[0] == OPEN && IsBlank(u)
    requires t != (if IsSpace(t[0]) then [SPACE] + written else written)
    ensures [u] + t != [SPACE] + written
  {
    assert t == ([u] + t)[1..] && written == ([SPACE] + written)[1..];
  }

  lemma {:induction false} MoreBlanksChange(known: set<Id>, u: Unit, t: Text)
    requires IsBlank(u) && t != [] && Changes(known)(t)
    ensures Changes(known)([u] + t)
  {
    NoIdAt(u, t);
    assert KeptIds(known, [u] + t) == KeptIds(known, t);
    if KeptIds(known, t) != [] {
      var written := WrittenClean(known, t);
      var again := WrittenClean(known, [u] + t);
      assert again == written && IsSpace(([u] + t)[0]);
      assert CleanCitation(known)([u] + t) == [SPACE] + written;
      BlankStays(u, t, written);
    } else {
      assert CleanCitation(known)([u] + t) == [];
    }
  }

  lemma BlanksKeepChange(known: set<Id>)
    ensures BlanksKeep(Changes(known))
  {
    forall u, t | IsBlank(u) && IsCitation(t) && Changes(known)(t)
      ensures Changes(known)([u] + t)
    {
      MoreBlanksChange(known, u, t);
    }
  }

  /** How many brackets open in a text. */
  function Opens(s: Text): nat {
    if s == [] then 0 else (if s[0] == OPEN then 1 else 0) + Opens(s[1..])
  }

  lemma {:induction false} OpensJoin(s: Text, t: Text)
    ensures Opens(s + t) == Opens(s) + Opens(t)
  {
    if s == [] {
      assert s + t == t;
    } else {
      OpensJoin(s[1..], t);
      assert (s + t)[1..] == s[1..] + t;
    }
  }

  lemma {:induction false} NoneOpens(s: Text)
    requires OPEN !in s
    ensures Opens(s) == 0
  {
    if s != [] {
      NoneOpens(s[1..]);
    }
  }

  lemma {:induction false} ListOpensNone(l: Ids)
    requires ValidIds(l)
    ensures OPEN !in IdsText(l)
    decreases l
  {
    if l.next.More? {
      ListOpensNone(l.next.ids);
    }
  }

  /** A citation opens one bracket. */
  lemma CitationOpensOne(t: Text)
    requires IsCitation(t)
    ensures Opens(t) == 1
  {
    var c :| Valid(c) && CitationText(c) == t;
    ListOpensNone(c.ids);
    NoneOpens(c.blanks);
    NoneOpens(IdsText(c.ids));
    OpensJoin(c.blanks, [OPEN] + IdsText(c.ids));
    assert ([OPEN] + IdsText(c.ids))[1..] == IdsText(c.ids);
  }

  predicate NoneDropped(f: Text -> Text, ps: Pieces) {
    match ps
    case End => true
    case Plain(_, rest) => NoneDropped(f, rest)
    case Hit(h, rest) => f(h) != [] && NoneDropped(f, rest)
  }

  /** Dropping a citation loses a bracket, and nothing ever adds one. */
  lemma {:induction false} DroppingLosesBrackets(known: set<Id>, ps: Pieces)
    requires Leftmost(CitationLength, ps)
    ensures var f := CleanCitation(known);
      && Opens(Rewrite(f, ps)) <= Opens(Print(ps))
      && (!NoneDropped(f, ps) ==> Opens(Rewrite(f, ps)) < Opens(Print(ps)))
  {
    var f := CleanCitation(known);
    match ps
    case End =>
    case Plain(u, rest) =>
      DroppingLosesBrackets(known, rest);
      OpensJoin([u], Rewrite(f, rest));
      OpensJoin([u], Print(rest));
    case Hit(h, rest) =>
      DroppingLosesBrackets(known, rest);
      HitCleaned(known, h, Print(rest));
      CitationOpensOne(h);
      OpensJoin(h, Print(rest));
      OpensJoin(f(h), Rewrite(f, rest));
      if f(h) != [] {
        CitationOpensOne(f(h));
      }
  }

  /** Two citations that begin the same text are the same. */
  lemma SameStart(h: Text, k: Text, s: Text, t: Text)
    requires IsCitation(h) && IsCitation(k) && h + s == k + t
    ensures h == k
  {
    var c :| Valid(c) && CitationText(c) == h;
    var d :| Valid(d) && CitationText(d) == k;
    CitationIsTaken(c, s);
    CitationIsTaken(d, t);
    assert h == (h + s)[..|h|] && k == (k + t)[..|k|];
  }

  lemma {:induction false} FirstChangeShows(known: set<Id>, f: Text -> Text, p: Text -> bool, ps: Pieces)
    requires Leftmost(CitationLength, ps) && f == CleanCitation(known) && NoneDropped(f, ps)
    requires Rewrite(f, ps) == Print(ps) && p == Changes(known)
    ensures !Finds(p, ps)
  {
    match ps
    case End =>
    case Plain(u, rest) =>
      assert Rewrite(f, ps)[1..] == Rewrite(f, rest) && Print(ps)[1..] == Print(rest);
      FirstChangeShows(known, f, p, rest);
    case Hit(h, rest) =>
      HitCleaned(known, h, Print(rest));
      SameStart(h, f(h), Print(rest), Rewrite(f, rest));
      assert Rewrite(f, ps)[|h|..] == Rewrite(f, rest) && Print(ps)[|h|..] == Print(rest);
      FirstChangeShows(known, f, p, rest);
  }

  lemma {:induction false} NothingChanges(known: set<Id>, f: Text -> Text, p: Text -> bool, ps: Pieces)
    requires f == CleanCitation(known) && p == Changes(known) && !Finds(p, ps)
    ensures Rewrite(f, ps) == Print(ps)
  {
    if ps != End {
      NothingChanges(known, f, p, ps.rest);
    }
  }

  /** Cleaning leaves a text as it is exactly when it leaves every citation of it: no change makes up for another. */
  lemma {:induction false} CleanedAlready(known: set<Id>, text: Text)
    ensures CleanText(known, text) == text
      <==> !Finds(Changes(known), Scan(CitationLength, text))
  {
    var f, p, ps := CleanCitation(known), Changes(known), Scan(CitationLength, text);
    ScanRoundTrip(CitationLength, text);
    CleanTextIsRewrite(known, text);
    if CleanText(known, text) == text {
      DroppingLosesBrackets(known, ps);
      FirstChangeShows(known, f, p, ps);
    }
    if !Finds(p, ps) {
      NothingChanges(known, f, p, ps);
    }
  }

  lemma {:induction false} SettledUnchanged(known: set<Id>, cs: Chunks)
    requires KeptSettled(known, cs)
    ensures KeptAreFree(Changes(known), cs)
  {
    if cs.Chunk? {
      SettledUnchanged(known, cs.rest);
    }
  }

  /** Cleaning is idempotent on a text exactly when no dropped citation stands between literal text that ends in an
      unfinished citation and literal text that completes it to one that cleaning changes. */
  lemma {:induction false} IdempotentExactly(known: set<Id>, text: Text)
    ensures CleanText(known, CleanText(known, text)) == CleanText(known, text)
      <==> !PutsTogether(CleanCitation(known), Changes(known), [], Scan(CitationLength, text))
  {
    BlanksKeepChange(known);
    CleanTextIsChunks(known, text);
    SettledUnchanged(known, CleanedChunks(known, text));
    CleanedAlready(known, CleanText(known, text));
    CleanedFinds(known, Changes(known), text);
  }

  /** Where nothing is dropped, nothing is put together. */
  lemma {:induction false} NoneTogether(f: Text -> Text, p: Text -> bool, before: Text, ps: Pieces)
    requires NoneDropped(f, ps)
    ensures !PutsTogether(f, p, before, ps)
    decreases ps
  {
    match ps
    case End =>
    case Plain(u, rest) => NoneTogether(f, p, before + [u], rest);
    case Hit(h, rest) => NoneTogether(f, p, [], rest);
  }

  /** When every citation names a known source, cleaning once is enough and none of an unknown source is left. */
  lemma {:induction false} CleanIdempotent(known: set<Id>, text: Text)
    requires NoneDropped(CleanCitation(known), Scan(CitationLength, text))
    ensures CleanText(known, CleanText(known, text)) == CleanText(known, text)
    ensures OnlyKnown(known, Scan(CitationLength, CleanText(known, text)))
  {
    var f, ps := CleanCitation(known), Scan(CitationLength, text);
    NoneTogether(f, Changes(known), [], ps);
    NoneTogether(f, NamesUnknown(known), [], ps);
    IdempotentExactly(known, text);
    CleanedOnlyKnown(known, text);
  }

  // An example

  /** `[S9]` for the digit 9. */
  function OneId(digit: Unit): Citation {
    Citation([], Ids([], 83, [digit], [], Closed))
  }

  lemma OneIdText(digit: Unit)
    ensures CitationText(OneId(digit)) == [OPEN, 83, digit, CLOSE]
  {
    assert NextText(Closed) == [CLOSE];
    assert IdsText(OneId(digit).ids) == [83, digit, CLOSE];
  }

  lemma {:induction false} NoneKnown(ids: seq<Id>)
    ensures KnownAmong({}, ids) == []
  {
    if ids != [] {
      NoneKnown(ids[1..]);
    }
  }

  lemma NothingKnown(citation: Text)
    ensures KeptIds({}, citation) == [] && CleanCitation({})(citation) == []
  {
    NoneKnown(IdsIn(citation));
  }

  /** `S` and what follows it start no citation, nor do a bracket, `S` and another bracket. */
  lemma HalfOpened(rest: Text)
    requires OpensBracket(rest)
    ensures CitationLength([OPEN] + ([83] + rest)) == 0 && CitationLength([83] + rest) == 0
  {
    NoBracketInside(Letter, rest);
    var s := [83] + rest;
    assert s[1..] == rest;
    assert Run(BeforeId, s) == 0;
    assert ([OPEN] + s)[1..] == s;
  }

  const REST: Text := [55, CLOSE]

  lemma RestScan()
    ensures Scan(CitationLength, REST) == Plain(55, Plain(CLOSE, End))
  {
    var s: Text := [CLOSE];
    assert CitationLength(s) == 0 && s[1..] == [];
    assert Scan(CitationLength, s) == Plain(CLOSE, End);
    assert CitationLength(REST) == 0 && REST[1..] == s;
  }

  lemma NestedScan()
    ensures var inner := CitationText(OneId(57));
      Scan(CitationLength, [OPEN] + ([83] + (inner + REST)))
      == Plain(OPEN, Plain(83, Hit(inner, Scan(CitationLength, REST))))
  {
    var after := CitationText(OneId(57)) + REST;
    ScanAtCitation(OneId(57), REST);
    HalfOpened(after);
    assert ([83] + after)[1..] == after;
    assert ([OPEN] + ([83] + after))[1..] == [83] + after;
  }

  /** `[S[S9]7]`. */
  const NESTED: Text := [OPEN] + ([83] + (CitationText(OneId(57)) + REST))

  lemma InnerDropped(f: Text -> Text, inner: Text, a: Unit, b: Unit, c: Unit, d: Unit)
    requires f(inner) == []
    ensures Rewrite(f, Plain(a, Plain(b, Hit(inner, Plain(c, Plain(d, End)))))) == [a, b, c, d]
  {
    assert Rewrite(f, Plain(d, End)) == [d];
    var tail := Plain(c, Plain(d, End));
    assert Rewrite(f, tail) == [c, d];
    assert Rewrite(f, Hit(inner, tail)) == [c, d];
    assert Rewrite(f, Plain(b, Hit(inner, tail))) == [b, c, d];
  }

  lemma FirstPass()
    ensures CleanText({}, NESTED) == CitationText(OneId(55))
  {
    var inner := CitationText(OneId(57));
    NestedScan();
    RestScan();
    NothingKnown(inner);
    InnerDropped(CleanCitation({}), inner, OPEN, 83, 55, CLOSE);
    CleanTextIsRewrite({}, NESTED);
    OneIdText(55);
  }

  lemma SevenScan()
    ensures Scan(CitationLength, CitationText(OneId(55))) == Hit(CitationText(OneId(55)), End)
  {
    ScanAtCitation(OneId(55), []);
    assert CitationText(OneId(55)) + [] == CitationText(OneId(55));
  }

  lemma SecondPass()
    ensures CleanText({}, CitationText(OneId(55))) == []
  {
    SevenScan();
    NothingKnown(CitationText(OneId(55)));
    CleanTextIsRewrite({}, CitationText(OneId(55)));
  }

  lemma SevenIsUnknown()
    ensures !OnlyKnown({}, Scan(CitationLength, CitationText(OneId(55))))
  {
    SevenScan();
    IdsOfCitation(OneId(55));
    assert IdsIn(CitationText(OneId(55)))[0] in IdsIn(CitationText(OneId(55)));
  }

  /** With no known source, deleting the inner citation of `[S[S9]7]` leaves the citation `[S7]`, which a second pass
      deletes: cleaning is neither complete nor idempotent there. */
  lemma NestedCitation()
    ensures CleanText({}, NESTED) == CitationText(OneId(55)) && CleanText({}, CitationText(OneId(55))) == []
    ensures CitationText(OneId(55)) != [] && !OnlyKnown({}, Scan(CitationLength, CleanText({}, NESTED)))
  {
    FirstPass();
    SecondPass();
    SevenIsUnknown();
    OneIdText(55);
  }
}
