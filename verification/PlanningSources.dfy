/** The numbered sources of a planning prompt: their order, their cuts and the character budget. */
module PlanningSources {
  import opened Utf16
  import opened Scanning
  import opened PromptGuards
  import opened MarkerJoins
  import opened PromptFences
  import Decimals

  const MAX_EXCERPT_CHARS := 4000
  const MAX_SOURCE_TITLE_CHARS := 200
  const MAX_PREPARE_CHARS := 50000
  const MIN_EXCERPT_CHARS := 100
  const ELLIPSIS: Unit := 0x2026
  const SPACE: Unit := 32

  datatype Group = BoundDocument | ConnectorGroup | OtherDocument

  datatype Kind = SectionSource | ConnectorSource

  datatype Candidate = Candidate(group: Group, kind: Kind, ref: Text, rawTitle: Text, rawText: Text)

  // Budget order

  function Rank(g: Group): nat {
    match g
    case BoundDocument => 0
    case ConnectorGroup => 1
    case OtherDocument => 2
  }

  datatype Tagged = Tagged(candidate: Candidate, index: nat)

  function Tag(cs: seq<Candidate>, from: nat): (r: seq<Tagged>)
    ensures forall t | t in r :: t.index >= from
  {
    if cs == [] then [] else [Tagged(cs[0], from)] + Tag(cs[1..], from + 1)
  }

  /** The comparison of the sort: by group, then by the position in the input. */
  predicate Precedes(a: Tagged, b: Tagged) {
    Rank(a.candidate.group) < Rank(b.candidate.group)
    || (a.candidate.group == b.candidate.group && a.index <= b.index)
  }

  function InsertTagged(x: Tagged, s: seq<Tagged>): seq<Tagged> {
    if s == [] || Precedes(x, s[0]) then [x] + s else [s[0]] + InsertTagged(x, s[1..])
  }

  function SortTagged(s: seq<Tagged>): seq<Tagged> {
    if s == [] then [] else InsertTagged(s[0], SortTagged(s[1..]))
  }

  function OrderCandidates(cs: seq<Candidate>): seq<Candidate> {
    var sorted := SortTagged(Tag(cs, 0));
    seq(|sorted|, i requires 0 <= i < |sorted| => sorted[i].candidate)
  }

  /** The candidates of one group in their own order. */
  function InGroup(ts: seq<Tagged>, g: Group): (r: seq<Tagged>)
    ensures forall t | t in r :: t in ts && t.candidate.group == g
  {
    if ts == [] then []
    else if ts[0].candidate.group == g then [ts[0]] + InGroup(ts[1..], g)
    else InGroup(ts[1..], g)
  }

  function Groups(ts: seq<Tagged>): seq<Tagged> {
    Line3(InGroup(ts, BoundDocument), InGroup(ts, ConnectorGroup), InGroup(ts, OtherDocument))
  }

  lemma {:induction false} InsertBehind(x: Tagged, a: seq<Tagged>, b: seq<Tagged>)
    requires forall t | t in a :: !Precedes(x, t)
    requires b == [] || Precedes(x, b[0])
    ensures InsertTagged(x, a + b) == a + [x] + b
  {
    if a == [] {
      assert a + b == b && a + [x] + b == [x] + b;
    } else {
      assert (a + b)[1..] == a[1..] + b;
      InsertBehind(x, a[1..], b);
      assert [a[0]] + (a[1..] + [x] + b) == a + [x] + b;
    }
  }

  /** Three groups one after the other. */
  function Line3(a: seq<Tagged>, b: seq<Tagged>, c: seq<Tagged>): seq<Tagged> {
    a + b + c
  }

  lemma InsertFirst(x: Tagged, a: seq<Tagged>, b: seq<Tagged>, c: seq<Tagged>)
    requires forall t | t in a || t in b || t in c :: Precedes(x, t)
    ensures InsertTagged(x, Line3(a, b, c)) == Line3([x] + a, b, c)
  {
  }

  lemma InsertSecond(x: Tagged, a: seq<Tagged>, b: seq<Tagged>, c: seq<Tagged>)
    requires forall t | t in a :: !Precedes(x, t)
    requires forall t | t in b || t in c :: Precedes(x, t)
    ensures InsertTagged(x, Line3(a, b, c)) == Line3(a, [x] + b, c)
  {
    var s := b + c;
    assert s != [] ==> s[0] in b || s[0] in c;
    InsertBehind(x, a, s);
    assert a + s == a + b + c && a + [x] + s == a + ([x] + b) + c;
  }

  lemma InsertThird(x: Tagged, a: seq<Tagged>, b: seq<Tagged>, c: seq<Tagged>)
    requires forall t | t in a || t in b :: !Precedes(x, t)
    requires forall t | t in c :: Precedes(x, t)
    ensures InsertTagged(x, Line3(a, b, c)) == Line3(a, b, [x] + c)
  {
    assert forall t | t in a + b :: t in a || t in b;
    assert c != [] ==> c[0] in c;
    InsertBehind(x, a + b, c);
    assert (a + b) + [x] + c == (a + b) + ([x] + c);
  }

  /** A candidate that came before all of `rest` is inserted at the front of its own group. */
  lemma InsertIntoGroups(x: Tagged, rest: seq<Tagged>)
    requires forall t | t in rest :: x.index < t.index
    ensures InsertTagged(x, Groups(rest)) == Groups([x] + rest)
  {
    var a, b, c := InGroup(rest, BoundDocument), InGroup(rest, ConnectorGroup), InGroup(rest, OtherDocument);
    assert ([x] + rest)[1..] == rest;
    match x.candidate.group
    case BoundDocument => InsertFirst(x, a, b, c);
    case ConnectorGroup => InsertSecond(x, a, b, c);
    case OtherDocument => InsertThird(x, a, b, c);
  }

  lemma {:induction false} SortIsGroups(cs: seq<Candidate>, from: nat)
    ensures SortTagged(Tag(cs, from)) == Groups(Tag(cs, from))
  {
    if cs != [] {
      var x, rest := Tagged(cs[0], from), Tag(cs[1..], from + 1);
      SortIsGroups(cs[1..], from + 1);
      assert ([x] + rest)[1..] == rest;
      InsertIntoGroups(x, rest);
    }
  }

  /** The sort lists the bound document's sections, then the connectors, then other documents, and changes the order
      of no two candidates of one group. */
  lemma OrderKeepsGroups(cs: seq<Candidate>)
    ensures var g := Groups(Tag(cs, 0));
      |OrderCandidates(cs)| == |g| && forall i | 0 <= i < |g| :: OrderCandidates(cs)[i] == g[i].candidate
  {
    SortIsGroups(cs, 0);
  }

  // Cutting

  /** `s.lastIndexOf(needle)`, looking from `at` down; -1 when there is none. */
  function LastFrom(s: Text, needle: Text, at: int): (r: int)
    requires at <= |s|
    ensures -1 <= r && r <= if at < -1 then -1 else at
    ensures r >= 0 ==> StartsWith(s[r..], needle)
    ensures forall i | r < i <= at && 0 <= i :: !StartsWith(s[i..], needle)
    decreases at + 1
  {
    if at < 0 then -1
    else if StartsWith(s[at..], needle) then at
    else LastFrom(s, needle, at - 1)
  }

  function LastIndexOf(s: Text, needle: Text): int {
    LastFrom(s, needle, |s|)
  }

  function Max(a: int, b: int): int {
    if a < b then b else a
  }

  function Min(a: int, b: int): int {
    if a < b then a else b
  }

  datatype Break = Paragraph | Line | Sentence | Word

  const BREAK_AFTER: seq<Unit> := [46, 63, 33]

  /** Where each kind of boundary stands last in the head, as the cut computes it. */
  function LastBreak(head: Text, kind: Break): int {
    match kind
    case Paragraph => LastIndexOf(head, [NEWLINE, NEWLINE])
    case Line => LastIndexOf(head, [NEWLINE])
    case Sentence =>
      Max(Max(LastIndexOf(head, [46, SPACE]), LastIndexOf(head, [63, SPACE])), LastIndexOf(head, [33, SPACE])) + 1
    case Word => LastIndexOf(head, [SPACE])
  }

  /** The first of the four that lies past the middle of `head`, its end when none does. */
  function FirstPast(head: Text, paragraph: int, line: int, sentence: int, word: int): (at: int)
    ensures at == |head| || |head| / 2 < at
  {
    var floor := |head| / 2;
    if paragraph > floor then paragraph
    else if line > floor then line
    else if sentence > floor then sentence
    else if word > floor then word
    else |head|
  }

  function CutIndex(head: Text): (at: int)
    ensures 0 <= at <= |head|
  {
    FirstPast(head, LastBreak(head, Paragraph), LastBreak(head, Line), LastBreak(head, Sentence), LastBreak(head, Word))
  }

  /** A boundary of this kind at `i`. */
  predicate BreakAt(head: Text, kind: Break, i: int) {
    && 0 <= i < |head|
    && match kind
       case Paragraph => i + 1 < |head| && head[i] == head[i + 1] == NEWLINE
       case Line => head[i] == NEWLINE
       case Sentence => 0 < i && head[i - 1] in BREAK_AFTER && head[i] == SPACE
       case Word => head[i] == SPACE
  }

  lemma SingleAt(s: Text, u: Unit, i: int)
    requires 0 <= i <= |s|
    ensures StartsWith(s[i..], [u]) <==> i < |s| && s[i] == u
  {
  }

  lemma PairAt(s: Text, u: Unit, v: Unit, i: int)
    requires 0 <= i <= |s|
    ensures StartsWith(s[i..], [u, v]) <==> i + 1 < |s| && s[i] == u && s[i + 1] == v
  {
  }

  lemma LastSingle(s: Text, u: Unit)
    ensures var r := LastIndexOf(s, [u]);
      (r >= 0 ==> r < |s| && s[r] == u) && forall i | r < i < |s| :: s[i] != u
  {
    var r := LastIndexOf(s, [u]);
    if r >= 0 { SingleAt(s, u, r); }
    forall i | r < i < |s|
      ensures s[i] != u
    {
      SingleAt(s, u, i);
    }
  }

  predicate IsPair(s: Text, u: Unit, v: Unit, i: int) {
    0 <= i < |s| - 1 && s[i] == u && s[i + 1] == v
  }

  lemma LastPair(s: Text, u: Unit, v: Unit)
    ensures var r := LastIndexOf(s, [u, v]);
      (r >= 0 ==> IsPair(s, u, v, r)) && forall i | r < i :: !IsPair(s, u, v, i)
  {
    var r := LastIndexOf(s, [u, v]);
    if r >= 0 { PairAt(s, u, v, r); }
    forall i | r < i
      ensures !IsPair(s, u, v, i)
    {
      if 0 <= i <= |s| { PairAt(s, u, v, i); }
    }
  }

  /** The computed index is the last boundary of its kind, if there is one. */
  lemma LastBreakIs(head: Text, kind: Break)
    ensures var r := LastBreak(head, kind);
      (r > 0 ==> BreakAt(head, kind, r)) && forall i | r < i && 0 <= i :: !BreakAt(head, kind, i)
  {
    match kind
    case Paragraph => LastPair(head, NEWLINE, NEWLINE);
      assert forall i :: BreakAt(head, kind, i) ==> IsPair(head, NEWLINE, NEWLINE, i);
    case Line => LastSingle(head, NEWLINE);
    case Sentence =>
      LastPair(head, 46, SPACE);
      LastPair(head, 63, SPACE);
      LastPair(head, 33, SPACE);
      forall i
        ensures BreakAt(head, kind, i) ==>
          IsPair(head, 46, SPACE, i - 1) || IsPair(head, 63, SPACE, i - 1) || IsPair(head, 33, SPACE, i - 1)
      {
      }
    case Word => LastSingle(head, SPACE);
  }

  function Cut(text: Text, max: int): Text {
    if |text| <= max then text
    else
      var head := text[..Max(max - 1, 0)];
      TrimEnd(head[..CutIndex(head)]) + [ELLIPSIS]
  }

  function BreakRank(k: Break): nat {
    match k
    case Paragraph => 0
    case Line => 1
    case Sentence => 2
    case Word => 3
  }

  ghost predicate NoBreakPast(head: Text, k: Break, from: int) {
    forall i | from < i :: !BreakAt(head, k, i)
  }

  /** The last boundary of kind `k`, with no better kind in the second half. */
  ghost predicate BestOfKind(head: Text, k: Break, n: int) {
    && |head| / 2 < n < |head| && BreakAt(head, k, n) && NoBreakPast(head, k, n)
    && forall j | BreakRank(j) < BreakRank(k) :: NoBreakPast(head, j, |head| / 2)
  }

  /** `n` is where to cut `head`: at the last boundary of the best kind found in its second half, at its end when
      there is none. */
  ghost predicate IsBestCut(head: Text, n: int) {
    (n == |head| && forall k :: NoBreakPast(head, k, |head| / 2)) || exists k :: BestOfKind(head, k, n)
  }

  /** `r` is the last boundary of this kind, or there is none past the middle. */
  ghost predicate LastPast(head: Text, k: Break, r: int) {
    if r > |head| / 2 then BreakAt(head, k, r) && NoBreakPast(head, k, r) else NoBreakPast(head, k, |head| / 2)
  }

  lemma FirstPastIsBest(head: Text, p: int, l: int, s: int, w: int)
    requires LastPast(head, Paragraph, p) && LastPast(head, Line, l)
    requires LastPast(head, Sentence, s) && LastPast(head, Word, w)
    ensures IsBestCut(head, FirstPast(head, p, l, s, w))
  {
    var n, floor := FirstPast(head, p, l, s, w), |head| / 2;
    if p > floor {
      assert BestOfKind(head, Paragraph, n);
    } else if l > floor {
      assert BestOfKind(head, Line, n);
    } else if s > floor {
      assert BestOfKind(head, Sentence, n);
    } else if w > floor {
      assert BestOfKind(head, Word, n);
    }
  }

  lemma CutIndexIsBest(head: Text)
    ensures IsBestCut(head, CutIndex(head))
  {
    LastBreakIs(head, Paragraph);
    LastBreakIs(head, Line);
    LastBreakIs(head, Sentence);
    LastBreakIs(head, Word);
    FirstPastIsBest(head, LastBreak(head, Paragraph), LastBreak(head, Line), LastBreak(head, Sentence),
                    LastBreak(head, Word));
  }

  ghost predicate CutAt(text: Text, max: int, n: nat)
    requires max < |text|
  {
    var head := text[..Max(max - 1, 0)];
    n <= |head| && IsBestCut(head, n) && Cut(text, max) == TrimEnd(head[..n]) + [ELLIPSIS]
  }

  /** A cut text is the original up to the best boundary its allowance holds, less trailing white space, and an
      ellipsis; a text within its allowance is not touched. */
  lemma CutIsBest(text: Text, max: int)
    ensures if |text| <= max then Cut(text, max) == text else exists n: nat :: CutAt(text, max, n)
  {
    if |text| > max {
      var head := text[..Max(max - 1, 0)];
      CutIndexIsBest(head);
      assert CutAt(text, max, CutIndex(head));
    }
  }

  /** The cut keeps within its allowance exactly when there is room for the ellipsis or nothing had to be cut. */
  lemma CutFits(text: Text, max: int)
    ensures |Cut(text, max)| <= max <==> max >= 1 || |text| <= max
  {
  }

  /** An allowance of nothing is overrun by the ellipsis. */
  lemma CutOverrunsNothing()
    ensures |Cut([SPACE], 0)| == 1
  {
  }

  /** `text.replace(/\s+/g, ' ').trim()`. */
  function SpaceRun(s: Text): nat {
    RunTo(IsSpace, s, 0)
  }

  function OneSpace(): Text -> Text {
    (h: Text) => [SPACE]
  }

  function Collapse(s: Text): Text {
    Rewrite(OneSpace(), Scan(SpaceRun, s))
  }

  function SingleLine(s: Text): Text {
    Trim(Replace(SpaceRun, OneSpace(), s))
  }

  // Fence markers through cutting and collapsing

  lemma TrimmedIsFree(s: Text)
    requires !HasMarker(s)
    ensures !HasMarker(TrimStart(s)) && !HasMarker(TrimEnd(s)) && !HasMarker(Trim(s))
  {
    var t := TrimStart(s);
    BackOfFree(s, |s| - |t|);
    FrontOfFree(s, |TrimEnd(s)|);
    FrontOfFree(t, |TrimEnd(t)|);
  }

  lemma FrontOfFront(text: Text, room: nat, at: nat)
    requires at <= room <= |text|
    ensures TrimEnd(text[..room][..at]) == text[..|TrimEnd(text[..room][..at])|]
  {
  }

  lemma CutIsPrefix(text: Text, max: int) returns (n: nat)
    requires |text| > max
    ensures n <= |text| && Cut(text, max) == text[..n] + [ELLIPSIS]
  {
    var room := Max(max - 1, 0);
    var at := CutIndex(text[..room]);
    FrontOfFront(text, room, at);
    n := |TrimEnd(text[..room][..at])|;
  }

  lemma CutIsFree(text: Text, max: int)
    requires !HasMarker(text)
    ensures !HasMarker(Cut(text, max))
  {
    if |text| > max {
      var n := CutIsPrefix(text, max);
      FrontOfFree(text, n);
      EllipsisJoins(text[..n]);
    }
  }

  lemma EllipsisJoins(s: Text)
    ensures HasMarker(s + [ELLIPSIS]) <==> HasMarker(s)
  {
    assert Stops([ELLIPSIS]);
    MarkerOfSafeJoin(s, [ELLIPSIS]);
  }

  lemma {:induction false} RunPast(s: Text, from: nat)
    requires from <= SpaceRun(s)
    ensures CompletesOpening(s) <==> CompletesOpening(s[from..])
    ensures CompletesClosing(s) <==> CompletesClosing(s[from..])
    ensures HasMarker(s) <==> HasMarker(s[from..])
  {
    if from == 0 {
      assert s[0..] == s;
    } else {
      RunPast(s, from - 1);
      assert IsSpace(s[from - 1]);
      assert s[from - 1..][1..] == s[from..];
    }
  }

  lemma CollapseStep(s: Text)
    requires s != []
    ensures if IsSpace(s[0]) then SpaceRun(s) > 0 && Collapse(s) == [SPACE] + Collapse(s[SpaceRun(s)..])
      else Collapse(s) == [s[0]] + Collapse(s[1..])
  {
  }

  /** The letters of the word from the `i`th on, then an underscore. */
  predicate Spells(s: Text, i: nat)
    requires i <= |UNTRUSTED|
  {
    s != [] && if i == |UNTRUSTED| then s[0] == UNDERSCORE else Lower(s[0]) == UNTRUSTED[i] && Spells(s[1..], i + 1)
  }

  lemma {:induction false} SpellsIsWord(s: Text, i: nat)
    requires i <= |UNTRUSTED| && i <= |s|
    ensures Spells(s[i..], i) <==>
      10 <= |s| && (forall j | i <= j < 9 :: Lower(s[j]) == UNTRUSTED[j]) && s[9] == UNDERSCORE
    decreases |UNTRUSTED| - i
  {
    UntrustedIsLetters();
    if i < |s| && i < |UNTRUSTED| {
      assert s[i..][1..] == s[i + 1..];
      SpellsIsWord(s, i + 1);
    }
  }

  lemma {:induction false} CollapseSpells(s: Text, i: nat)
    requires i <= |UNTRUSTED|
    ensures Spells(Collapse(s), i) <==> Spells(s, i)
    decreases |s|
  {
    UntrustedIsLetters();
    if s != [] {
      CollapseStep(s);
      if i < |UNTRUSTED| {
        CollapseSpells(s[1..], i + 1);
      }
    }
  }

  lemma CollapseKeepsWord(s: Text)
    ensures WordAt(Collapse(s), 0) <==> WordAt(s, 0)
  {
    assert s[0..] == s && Collapse(s)[0..] == Collapse(s);
    UntrustedIsLetters();
    SpellsIsWord(s, 0);
    SpellsIsWord(Collapse(s), 0);
    CollapseSpells(s, 0);
  }

  lemma {:induction false} CollapseKeepsMarkers(s: Text)
    ensures CompletesClosing(Collapse(s)) <==> CompletesClosing(s)
    ensures CompletesOpening(Collapse(s)) <==> CompletesOpening(s)
    ensures HasMarker(Collapse(s)) <==> HasMarker(s)
    decreases |s|
  {
    if s != [] {
      var n := if IsSpace(s[0]) then SpaceRun(s) else 1;
      CollapseStep(s);
      CollapseKeepsMarkers(s[n..]);
      CollapseKeepsWord(s);
      if IsSpace(s[0]) {
        RunPast(s, n);
        assert Collapse(s)[1..] == Collapse(s[n..]);
      } else {
        assert Collapse(s)[1..] == Collapse(s[1..]);
      }
    }
  }

  lemma SingleLineIsFree(s: Text)
    requires !HasMarker(s)
    ensures !HasMarker(SingleLine(s))
  {
    ReplaceIsRewrite(SpaceRun, OneSpace(), s);
    CollapseKeepsMarkers(s);
    TrimmedIsFree(Collapse(s));
  }
}
