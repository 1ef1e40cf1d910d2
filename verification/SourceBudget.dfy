/** `budgetSources`: which sources a planning prompt shows within its character budget, and in what words. */
module SourceBudget {
  import opened Utf16
  import opened PromptGuards
  import opened MarkerJoins
  import opened PlanningSources
  import SingleLines
  import PromptFences
  import Decimals

  type Redact = Text -> Text

  datatype Source = Source(id: Text, kind: Kind, title: Text, ref: Text, truncated: bool, excerpt: Text,
                           rawTitle: Text, rawText: Text)

  /** The text functions the loop is built on. The loop never looks inside what they return, so its facts are
      proved for any of them; `Words` are the real ones. */
  datatype Wording = Wording(
    id: nat -> Text,
    title: Candidate -> Text,
    prepared: Candidate -> Text,
    header: (Text, Kind, Text) -> Text,
    cut: (Text, int) -> Text)

  const BLANK_LINE: Text := [NEWLINE, NEWLINE]

  /** `blocks.join('\n\n')`. */
  function Join(blocks: seq<Text>): Text {
    if |blocks| == 0 then []
    else if |blocks| == 1 then blocks[0]
    else Join(blocks[..|blocks| - 1]) + (BLANK_LINE + blocks[|blocks| - 1])
  }

  /** What is shown so far, how it is rendered, and how many candidates were left out. */
  datatype Shown = Shown(sources: seq<Source>, blocks: seq<Text>, dropped: nat)

  /** The room for an excerpt after everything else of its block is paid for. */
  function RoomFor(w: Wording, maxChars: int, shown: Shown, c: Candidate): int {
    maxChars - |Join(shown.blocks)| - (if shown.blocks == [] then 0 else |BLANK_LINE|)
      - |w.header(w.id(|shown.sources| + 1), c.kind, w.title(c))|
  }

  function SourceFor(w: Wording, maxChars: int, shown: Shown, c: Candidate): Source {
    var prepared := w.prepared(c);
    var excerpt := w.cut(prepared, Min(MAX_EXCERPT_CHARS, RoomFor(w, maxChars, shown, c)));
    Source(w.id(|shown.sources| + 1), c.kind, w.title(c), c.ref,
           excerpt != prepared || |c.rawText| > MAX_PREPARE_CHARS, excerpt, c.rawTitle, c.rawText)
  }

  function Block(w: Wording, s: Source): Text {
    w.header(s.id, s.kind, s.title) + s.excerpt
  }

  predicate HasRoom(w: Wording, maxChars: int, shown: Shown, c: Candidate) {
    RoomFor(w, maxChars, shown, c) >= Min(MIN_EXCERPT_CHARS, |w.prepared(c)|)
  }

  /** One more candidate: nothing to show, no room, or a new last source. */
  function Offer(w: Wording, maxChars: int, shown: Shown, c: Candidate): Shown {
    if w.prepared(c) == [] then shown
    else if !HasRoom(w, maxChars, shown, c) then shown.(dropped := shown.dropped + 1)
    else
      var source := SourceFor(w, maxChars, shown, c);
      Shown(shown.sources + [source], shown.blocks + [Block(w, source)], shown.dropped)
  }

  function Budget(w: Wording, maxChars: int, cs: seq<Candidate>): Shown {
    if cs == [] then Shown([], [], 0)
    else Offer(w, maxChars, Budget(w, maxChars, cs[..|cs| - 1]), cs[|cs| - 1])
  }

  lemma JoinMore(blocks: seq<Text>, block: Text)
    ensures Join(blocks + [block]) == if blocks == [] then block else Join(blocks) + (BLANK_LINE + block)
    ensures |Join(blocks + [block])| == |Join(blocks)| + (if blocks == [] then 0 else 2) + |block|
  {
  }

  lemma BudgetStep(w: Wording, maxChars: int, cs: seq<Candidate>, i: nat)
    requires i < |cs|
    ensures Budget(w, maxChars, cs[..i + 1]) == Offer(w, maxChars, Budget(w, maxChars, cs[..i]), cs[i])
  {
    assert cs[..i + 1][..i] == cs[..i];
  }

  /** The loop keeps `remaining` as what the text joined so far leaves of the budget. */
  method BudgetSources(w: Wording, candidates: seq<Candidate>, maxChars: int)
    returns (sources: seq<Source>, dropped: nat, text: Text)
    ensures var shown := Budget(w, maxChars, candidates);
      sources == shown.sources && dropped == shown.dropped && text == Join(shown.blocks)
  {
    sources, dropped := [], 0;
    var blocks: seq<Text> := [];
    var remaining := maxChars;
    for i := 0 to |candidates|
      invariant remaining == maxChars - |Join(blocks)|
      invariant Budget(w, maxChars, candidates[..i]) == Shown(sources, blocks, dropped)
    {
      var c := candidates[i];
      BudgetStep(w, maxChars, candidates, i);
      var prepared := w.prepared(c);
      if prepared == [] {
        continue;
      }
      var title := w.title(c);
      var id := w.id(|sources| + 1);
      var header := w.header(id, c.kind, title);
      var separator := if |blocks| > 0 then 2 else 0;
      var room := remaining - separator - |header|;
      assert room == RoomFor(w, maxChars, Shown(sources, blocks, dropped), c);
      if room < Min(MIN_EXCERPT_CHARS, |prepared|) {
        dropped := dropped + 1;
        continue;
      }
      var excerpt := w.cut(prepared, Min(MAX_EXCERPT_CHARS, room));
      var truncated := excerpt != prepared || |c.rawText| > MAX_PREPARE_CHARS;
      var block := header + excerpt;
      JoinMore(blocks, block);
      remaining := remaining - (separator + |block|);
      blocks := blocks + [block];
      sources := sources + [Source(id, c.kind, title, c.ref, truncated, excerpt, c.rawTitle, c.rawText)];
    }
    assert candidates[..|candidates|] == candidates;
    text := Join(blocks);
  }

  // What every budgeted text is

  /** What the cut has to promise: it keeps within a positive allowance and leaves a text alone that is within it. */
  ghost predicate CutsFit(w: Wording) {
    forall text, max :: (max >= 1 ==> |w.cut(text, max)| <= max) && (|text| <= max ==> w.cut(text, max) == text)
  }

  lemma {:induction false} OfferWithinBudget(w: Wording, maxChars: int, shown: Shown, c: Candidate)
    requires CutsFit(w) && |Join(shown.blocks)| <= Max(maxChars, 0)
    ensures |Join(Offer(w, maxChars, shown, c).blocks)| <= Max(maxChars, 0)
  {
    if w.prepared(c) != [] && HasRoom(w, maxChars, shown, c) {
      var source, room := SourceFor(w, maxChars, shown, c), RoomFor(w, maxChars, shown, c);
      assert room >= 1;
      assert |source.excerpt| <= room;
      JoinMore(shown.blocks, Block(w, source));
    }
  }

  /** The rendered text never exceeds the budget. */
  lemma {:induction false} WithinBudget(w: Wording, maxChars: int, cs: seq<Candidate>)
    requires CutsFit(w)
    ensures |Join(Budget(w, maxChars, cs).blocks)| <= Max(maxChars, 0)
  {
    if cs != [] {
      WithinBudget(w, maxChars, cs[..|cs| - 1]);
      OfferWithinBudget(w, maxChars, Budget(w, maxChars, cs[..|cs| - 1]), cs[|cs| - 1]);
    }
  }

  // Which sources are shown

  /** Where in the input the shown sources come from. */
  ghost function Origins(w: Wording, maxChars: int, cs: seq<Candidate>): seq<nat> {
    if cs == [] then []
    else
      var before := Origins(w, maxChars, cs[..|cs| - 1]);
      var shown, c := Budget(w, maxChars, cs[..|cs| - 1]), cs[|cs| - 1];
      if w.prepared(c) != [] && HasRoom(w, maxChars, shown, c) then before + [|cs| - 1] else before
  }

  /** A source tells where its candidate came from, is cut only when it is long, and admits every cut. */
  ghost predicate Shows(w: Wording, c: Candidate, s: Source) {
    && s.kind == c.kind && s.ref == c.ref && s.rawTitle == c.rawTitle && s.rawText == c.rawText
    && s.title == w.title(c) && |s.excerpt| <= MAX_EXCERPT_CHARS
    && (exists max :: s.excerpt == w.cut(w.prepared(c), max))
    && (|w.prepared(c)| <= MIN_EXCERPT_CHARS ==> s.excerpt == w.prepared(c))
    && (s.truncated <==> s.excerpt != w.prepared(c) || |c.rawText| > MAX_PREPARE_CHARS)
  }

  lemma SourceShows(w: Wording, maxChars: int, shown: Shown, c: Candidate)
    requires CutsFit(w) && w.prepared(c) != [] && HasRoom(w, maxChars, shown, c)
    ensures Shows(w, c, SourceFor(w, maxChars, shown, c))
  {
  }

  /** The shown sources are the candidates at these places, in the same order, numbered 1, 2, 3, and rendered block
      by block. */
  ghost predicate AreFrom(w: Wording, cs: seq<Candidate>, shown: Shown, from: seq<nat>) {
    && |from| == |shown.sources| == |shown.blocks|
    && (forall i | 0 <= i < |from| :: from[i] < |cs| && Shows(w, cs[from[i]], shown.sources[i]))
    && (forall i, j | 0 <= i < j < |from| :: from[i] < from[j])
    && (forall i | 0 <= i < |from| :: shown.sources[i].id == w.id(i + 1))
    && (forall i | 0 <= i < |from| :: shown.blocks[i] == Block(w, shown.sources[i]))
  }

  lemma OneMoreIsFrom(w: Wording, cs: seq<Candidate>, shown: Shown, from: seq<nat>, c: Candidate, s: Source)
    requires AreFrom(w, cs, shown, from) && Shows(w, c, s) && s.id == w.id(|from| + 1)
    ensures AreFrom(w, cs + [c], Shown(shown.sources + [s], shown.blocks + [Block(w, s)], shown.dropped),
      from + [|cs|])
  {
  }

  lemma StillFrom(w: Wording, cs: seq<Candidate>, shown: Shown, from: seq<nat>, c: Candidate, dropped: nat)
    requires AreFrom(w, cs, shown, from)
    ensures AreFrom(w, cs + [c], shown.(dropped := dropped), from)
  {
  }

  /** Whatever the budget, the shown sources are an order-preserving selection of the candidates. */
  lemma {:induction false} SourcesAreCandidates(w: Wording, maxChars: int, cs: seq<Candidate>)
    requires CutsFit(w)
    ensures AreFrom(w, cs, Budget(w, maxChars, cs), Origins(w, maxChars, cs))
  {
    if cs != [] {
      var front, c := cs[..|cs| - 1], cs[|cs| - 1];
      var shown, from := Budget(w, maxChars, front), Origins(w, maxChars, front);
      SourcesAreCandidates(w, maxChars, front);
      assert cs == front + [c];
      if w.prepared(c) != [] && HasRoom(w, maxChars, shown, c) {
        SourceShows(w, maxChars, shown, c);
        OneMoreIsFrom(w, front, shown, from, c, SourceFor(w, maxChars, shown, c));
      } else {
        StillFrom(w, front, shown, from, c, Budget(w, maxChars, cs).dropped);
      }
    }
  }

  function Blanks(w: Wording, cs: seq<Candidate>): nat {
    if cs == [] then 0 else Blanks(w, cs[..|cs| - 1]) + if w.prepared(cs[|cs| - 1]) == [] then 1 else 0
  }

  /** Every candidate is shown, dropped for want of room, or has nothing to show. */
  lemma {:induction false} EveryCandidateCounted(w: Wording, maxChars: int, cs: seq<Candidate>)
    ensures var shown := Budget(w, maxChars, cs);
      |shown.sources| + shown.dropped + Blanks(w, cs) == |cs|
  {
    if cs != [] {
      EveryCandidateCounted(w, maxChars, cs[..|cs| - 1]);
    }
  }

  // Which candidates are shown

  function HeaderOf(w: Wording, before: Shown, c: Candidate): Text {
    w.header(w.id(|before.sources| + 1), c.kind, w.title(c))
  }

  /** The length of the text joined so far, the blank line and the header of one more block. */
  function Used(w: Wording, before: Shown, c: Candidate): nat {
    |Join(before.blocks)| + (if before.blocks == [] then 0 else 2) + |HeaderOf(w, before, c)|
  }

  /** What the prompt shows of a candidate with this much room. */
  function ExcerptIn(w: Wording, c: Candidate, room: int): Text {
    w.cut(w.prepared(c), if room < 4000 then room else 4000)
  }

  /** Candidate `k` is shown exactly when it has something to show and the text joined before it, the blank line, its header
      and the lesser of 100 units and its whole text are within the budget. Its excerpt is then its text cut to what is left,
      at most 4000. A candidate with something to show that is not shown is counted as dropped. */
  lemma ShownExactly(w: Wording, maxChars: int, cs: seq<Candidate>, k: nat)
    requires k < |cs|
    ensures var before, after, c := Budget(w, maxChars, cs[..k]), Budget(w, maxChars, cs[..k + 1]), cs[k];
      var text, used := w.prepared(c), Used(w, before, c);
      if text == [] then after == before
      else if used + (if |text| < 100 then |text| else 100) <= maxChars then
        var excerpt := ExcerptIn(w, c, maxChars - used);
        && after.sources == before.sources + [Source(w.id(|before.sources| + 1), c.kind, w.title(c), c.ref,
                                                     excerpt != text || |c.rawText| > 50000, excerpt, c.rawTitle, c.rawText)]
        && after.blocks == before.blocks + [HeaderOf(w, before, c) + excerpt]
        && after.dropped == before.dropped
      else after == before.(dropped := before.dropped + 1)
  {
    BudgetStep(w, maxChars, cs, k);
  }

  /** What is shown of the first candidates stays as it is whatever follows. */
  lemma {:induction false} ShownStays(w: Wording, maxChars: int, cs: seq<Candidate>, k: nat)
    requires k <= |cs|
    ensures Budget(w, maxChars, cs[..k]).sources <= Budget(w, maxChars, cs).sources
    ensures Budget(w, maxChars, cs[..k]).blocks <= Budget(w, maxChars, cs).blocks
    ensures Budget(w, maxChars, cs[..k]).dropped <= Budget(w, maxChars, cs).dropped
  {
    if k == |cs| {
      assert cs[..k] == cs;
    } else {
      assert cs[..|cs| - 1][..k] == cs[..k];
      ShownStays(w, maxChars, cs[..|cs| - 1], k);
    }
  }

  // Nothing is cut or dropped without need

  function WholeNext(w: Wording, before: seq<Text>, c: Candidate): seq<Text> {
    if w.prepared(c) == [] then before
    else before + [w.header(w.id(|before| + 1), c.kind, w.title(c)) + w.prepared(c)]
  }

  /** Every candidate with something to show, uncut: what an unlimited budget would render. */
  function WholeBlocks(w: Wording, cs: seq<Candidate>): seq<Text> {
    if cs == [] then [] else WholeNext(w, WholeBlocks(w, cs[..|cs| - 1]), cs[|cs| - 1])
  }

  lemma WholeGrows(w: Wording, before: seq<Text>, c: Candidate)
    ensures |Join(before)| <= |Join(WholeNext(w, before, c))|
  {
  }

  /** Every block is the whole of its candidate so far, and none was dropped. */
  predicate IsWhole(shown: Shown, blocks: seq<Text>) {
    shown.dropped == 0 && shown.blocks == blocks && |shown.sources| == |blocks|
  }

  lemma {:induction false} WholeFits(w: Wording, maxChars: int, shown: Shown, blocks: seq<Text>, c: Candidate)
    requires CutsFit(w) && |w.prepared(c)| <= MAX_EXCERPT_CHARS && IsWhole(shown, blocks)
    requires |Join(WholeNext(w, blocks, c))| <= maxChars
    ensures IsWhole(Offer(w, maxChars, shown, c), WholeNext(w, blocks, c))
  {
    if w.prepared(c) != [] {
      var block := w.header(w.id(|blocks| + 1), c.kind, w.title(c)) + w.prepared(c);
      JoinMore(blocks, block);
      assert WholeNext(w, blocks, c) == blocks + [block];
      assert RoomFor(w, maxChars, shown, c) >= |w.prepared(c)|;
      assert SourceFor(w, maxChars, shown, c).excerpt == w.prepared(c);
      assert Block(w, SourceFor(w, maxChars, shown, c)) == block;
    }
  }

  /** When no prepared text is over the excerpt limit and all of them fit, all are shown uncut and none is dropped. */
  lemma {:induction false} AllShownWhole(w: Wording, maxChars: int, cs: seq<Candidate>)
    requires CutsFit(w) && forall c | c in cs :: |w.prepared(c)| <= MAX_EXCERPT_CHARS
    requires |Join(WholeBlocks(w, cs))| <= maxChars
    ensures IsWhole(Budget(w, maxChars, cs), WholeBlocks(w, cs))
  {
    if cs != [] {
      var front, c := cs[..|cs| - 1], cs[|cs| - 1];
      WholeGrows(w, WholeBlocks(w, front), c);
      AllShownWhole(w, maxChars, front);
      WholeFits(w, maxChars, Budget(w, maxChars, front), WholeBlocks(w, front), c);
    }
  }

  // The words of the planning prompt

  function Id(n: nat): Text {
    [83] + Decimals.Print(n)
  }

  function KindName(k: Kind): Text {
    match k
    case SectionSource => T("section")
    case ConnectorSource => T("connector")
  }

  /** `[S1] section: `. */
  function Label(id: Text, k: Kind): Text {
    [91] + id + [93, SPACE] + KindName(k) + [58, SPACE]
  }

  function Header(id: Text, k: Kind, title: Text): Text {
    Label(id, k) + (title + [NEWLINE])
  }

  /** What of a candidate's text may be shown at all. */
  function Prepared(redact: Redact, c: Candidate): Text {
    Trim(PromptFences.PrepareUntrustedText(redact, c.rawText[..Min(MAX_PREPARE_CHARS, |c.rawText|)]))
  }

  function Title(redact: Redact, c: Candidate): Text {
    Cut(SingleLine(PromptFences.PrepareUntrustedText(redact, c.rawTitle)), MAX_SOURCE_TITLE_CHARS)
  }

  function Words(redact: Redact): Wording {
    Wording(
      (n: nat) => Id(n),
      (c: Candidate) => Title(redact, c),
      (c: Candidate) => Prepared(redact, c),
      (id: Text, k: Kind, title: Text) => Header(id, k, title),
      (text: Text, max: int) => Cut(text, max))
  }

  /** A title shows the words of what is left of it after redaction, one space apart, cut to 200 units. */
  lemma TitleIs(redact: Redact, c: Candidate)
    ensures Words(redact).title(c) == Title(redact, c)
    ensures Title(redact, c) == Cut(SingleLines.Spaced(SingleLines.WordsOf(Neutralize(redact(c.rawTitle)))), 200)
  {
    SingleLines.SingleLineIsWords(Neutralize(redact(c.rawTitle)));
  }

  /** A text is taken from its first 50000 units. */
  lemma TextIs(redact: Redact, c: Candidate)
    ensures Words(redact).prepared(c) == Prepared(redact, c)
    ensures Prepared(redact, c) == Trim(Neutralize(redact(if |c.rawText| <= 50000 then c.rawText else c.rawText[..50000])))
  {
    if |c.rawText| <= 50000 {
      assert c.rawText[..|c.rawText|] == c.rawText;
    }
  }

  /** The first line of a block, as the prompt's instructions describe it: `[S1] section: The title`. */
  lemma HeaderReads(id: Text, k: Kind, title: Text)
    ensures var kind := if k == SectionSource then T("section") else T("connector");
      Header(id, k, title) == T("[") + id + T("] ") + kind + T(": ") + title + T("\n")
  {
    var kind := KindName(k);
    assert [91] + id + [93, SPACE] + kind + [58, SPACE] + (title + [NEWLINE])
        == T("[") + id + T("] ") + kind + T(": ") + title + T("\n");
  }

  lemma WordsFit(redact: Redact)
    ensures CutsFit(Words(redact))
  {
  }

  /** Different sources of one prompt carry different ids. */
  lemma IdsDiffer(m: nat, n: nat)
    requires Id(m) == Id(n)
    ensures m == n
  {
    assert Id(m)[1..] == Decimals.Print(m) && Id(n)[1..] == Decimals.Print(n);
    Decimals.ReadOfPrint(m);
    Decimals.ReadOfPrint(n);
  }

  // Fences through the budget

  lemma PartsAreFree(redact: Redact, c: Candidate, s: Source)
    requires Shows(Words(redact), c, s)
    ensures !HasMarker(s.title) && !HasMarker(s.excerpt)
  {
    var title := PromptFences.PrepareUntrustedText(redact, c.rawTitle);
    var text := PromptFences.PrepareUntrustedText(redact, c.rawText[..Min(MAX_PREPARE_CHARS, |c.rawText|)]);
    NeutralizedIsFree(redact(c.rawTitle));
    NeutralizedIsFree(redact(c.rawText[..Min(MAX_PREPARE_CHARS, |c.rawText|)]));
    HasMarkerExact(title);
    HasMarkerExact(text);
    SingleLineIsFree(title);
    CutIsFree(SingleLine(title), MAX_SOURCE_TITLE_CHARS);
    TrimmedIsFree(text);
    var max :| s.excerpt == Words(redact).cut(Words(redact).prepared(c), max);
    CutIsFree(Trim(text), max);
  }

  lemma KindNameOpensNothing(k: Kind)
    ensures LESS !in KindName(k)
  {
  }

  lemma NumberOpensNothing(n: nat)
    ensures LESS !in Id(n)
  {
  }

  lemma LabelOpensNothing(id: Text, k: Kind)
    requires LESS !in id
    ensures LESS !in Label(id, k) && |Label(id, k)| > 0 && Label(id, k)[0] == 91
  {
    KindNameOpensNothing(k);
  }

  /** A block shows a marker exactly when its title and its excerpt are the two halves of one. */
  lemma BlockMarker(redact: Redact, c: Candidate, s: Source, n: nat)
    requires Shows(Words(redact), c, s) && s.id == Id(n)
    ensures HasMarker(Block(Words(redact), s)) <==> CompletesMarker(s.title, s.excerpt)
    ensures Block(Words(redact), s) != [] && Block(Words(redact), s)[0] == 91
  {
    PartsAreFree(redact, c, s);
    NumberOpensNothing(n);
    LabelOpensNothing(s.id, s.kind);
    var opening := Label(s.id, s.kind);
    BlockIsLines(opening, s.title, s.excerpt);
    MarkerAfterFront(opening, Lines(s.title, s.excerpt));
    MarkerAcrossBreak(s.title, s.excerpt);
  }

  lemma BlockIsLines(opening: Text, title: Text, excerpt: Text)
    ensures opening + (title + [NEWLINE]) + excerpt == opening + Lines(title, excerpt)
  {
  }

  /** Every block starts with the bracket of its id. */
  predicate AreBlocks(blocks: seq<Text>) {
    forall i | 0 <= i < |blocks| :: |blocks[i]| > 0 && blocks[i][0] == 91
  }

  predicate AnyMarked(blocks: seq<Text>) {
    exists i :: 0 <= i < |blocks| && HasMarker(blocks[i])
  }

  lemma {:induction false} JoinMarker(blocks: seq<Text>)
    requires AreBlocks(blocks)
    ensures HasMarker(Join(blocks)) <==> AnyMarked(blocks)
  {
    if |blocks| > 1 {
      var front, last := blocks[..|blocks| - 1], blocks[|blocks| - 1];
      JoinMarker(front);
      LastBlockMarker(Join(front), last);
      MoreMarked(front, last);
      assert blocks == front + [last];
    }
  }

  lemma MoreMarked(blocks: seq<Text>, last: Text)
    ensures AnyMarked(blocks + [last]) <==> AnyMarked(blocks) || HasMarker(last)
  {
    var all := blocks + [last];
    assert all[|blocks|] == last;
    if AnyMarked(blocks) {
      var i :| 0 <= i < |blocks| && HasMarker(blocks[i]);
      assert all[i] == blocks[i];
    }
  }

  lemma LastBlockMarker(text: Text, block: Text)
    requires |block| > 0 && block[0] == 91
    ensures HasMarker(text + (BLANK_LINE + block)) <==> HasMarker(text) || HasMarker(block)
  {
    var s := BLANK_LINE + block;
    assert s[1..] == [NEWLINE] + block && s[1..][1..] == block;
    assert Stops(s);
    MarkerOfSafeJoin(text, s);
    MarkerAfterFront(BLANK_LINE, block);
  }

  /** Some shown title ends in the first half of a marker and its own excerpt starts with the second half. */
  predicate SomePairCompletes(sources: seq<Source>) {
    exists i :: 0 <= i < |sources| && CompletesMarker(sources[i].title, sources[i].excerpt)
  }

  lemma BlocksMarked(w: Wording, sources: seq<Source>, blocks: seq<Text>)
    requires |sources| == |blocks| && forall i | 0 <= i < |blocks| ::
      HasMarker(blocks[i]) <==> CompletesMarker(sources[i].title, sources[i].excerpt)
    ensures AnyMarked(blocks) <==> SomePairCompletes(sources)
  {
  }

  lemma ShownBlock(redact: Redact, cs: seq<Candidate>, shown: Shown, from: seq<nat>, i: nat)
    requires AreFrom(Words(redact), cs, shown, from) && i < |from|
    ensures HasMarker(shown.blocks[i]) <==> CompletesMarker(shown.sources[i].title, shown.sources[i].excerpt)
    ensures |shown.blocks[i]| > 0 && shown.blocks[i][0] == 91
  {
    BlockMarker(redact, cs[from[i]], shown.sources[i], i + 1);
  }

  lemma ShownMarkers(redact: Redact, cs: seq<Candidate>, shown: Shown, from: seq<nat>)
    requires AreFrom(Words(redact), cs, shown, from)
    ensures HasMarker(Join(shown.blocks)) <==> SomePairCompletes(shown.sources)
  {
    forall i | 0 <= i < |shown.blocks|
      ensures HasMarker(shown.blocks[i]) <==> CompletesMarker(shown.sources[i].title, shown.sources[i].excerpt)
      ensures |shown.blocks[i]| > 0 && shown.blocks[i][0] == 91
    {
      ShownBlock(redact, cs, shown, from, i);
    }
    JoinMarker(shown.blocks);
    BlocksMarked(Words(redact), shown.sources, shown.blocks);
  }

  /** The sources text shows a marker exactly when some title and its own excerpt are the two halves of one: nothing
      else of it can form a marker, whatever the sources and the budget. */
  lemma SourcesTextMarkers(redact: Redact, maxChars: int, cs: seq<Candidate>)
    ensures var shown := Budget(Words(redact), maxChars, cs);
      HasMarker(Join(shown.blocks)) <==> SomePairCompletes(shown.sources)
  {
    WordsFit(redact);
    SourcesAreCandidates(Words(redact), maxChars, cs);
    ShownMarkers(redact, cs, Budget(Words(redact), maxChars, cs), Origins(Words(redact), maxChars, cs));
  }
}
