/** The whole user message of the planning prompt: request, budgeted sources and their fences. */
module PlanningMessage {
  import opened Utf16
  import opened Options
  import opened Scanning
  import opened PromptTemplates
  import opened PromptGuards
  import opened MarkerJoins
  import opened PromptFences
  import opened PlanningSources
  import opened SourceBudget
  import Decimals

  /** The message shows the four marks of its template and no other. */
  ghost predicate OnlyItsMarks(message: Text, nonce: Text, request: Text, sources: Text) {
    forall e: nat ::
      EndsMarker(message, e) <==> AtMark(|REQUEST_HEADING|, |SOURCES_HEADING|, |nonce|, |request|, |sources|, e)
  }

  lemma MarkerIsInside(sources: Text, at: nat)
    ensures HasMarker(sources) <==> exists e: nat :: InsideValue(sources, at, e)
  {
    HasMarkerIsEnd(sources);
    if e: nat :| EndsMarker(sources, e) {
      var k: nat :| MarkedAt(sources, k, e);
      assert InsideValue(sources, at, at + e);
    }
    if e: nat :| InsideValue(sources, at, e) {
      assert EndsMarker(sources, e - at);
    }
  }

  /** The fence of the planning message holds exactly when no shown title and its own excerpt are the two halves of a
      marker: the one join that nothing neutralises. */
  lemma PlanningMessageFences(redact: Redact, prompt: Text, nonce: Text, maxChars: int, cs: seq<Candidate>)
    requires IsNonce(nonce)
    ensures var p := PrepareUntrustedText(redact, prompt);
      var shown := Budget(Words(redact), maxChars, cs);
      var sources := Join(shown.blocks);
      var r := RenderPrompt(PlanningUserV3(), PlanningVars(p, sources, nonce));
      r.Some? && (OnlyItsMarks(r.value, nonce, p, sources) <==> !SomePairCompletes(shown.sources))
  {
    var p := PrepareUntrustedText(redact, prompt);
    var sources := Join(Budget(Words(redact), maxChars, cs).blocks);
    SourcesTextMarkers(redact, maxChars, cs);
    RenderPlanning(p, sources, nonce);
    FencesOfMessage(redact, prompt, sources, nonce);
  }

  lemma FencesOfMessage(redact: Redact, prompt: Text, sources: Text, nonce: Text)
    requires IsNonce(nonce)
    ensures var p := PrepareUntrustedText(redact, prompt);
      var r := RenderPrompt(PlanningUserV3(), PlanningVars(p, sources, nonce));
      r.Some? && (OnlyItsMarks(r.value, nonce, p, sources) <==> !HasMarker(sources))
  {
    var p := PrepareUntrustedText(redact, prompt);
    RenderPlanning(p, sources, nonce);
    var message := RenderPrompt(PlanningUserV3(), PlanningVars(p, sources, nonce)).value;
    var at := SecondValueAt(|REQUEST_HEADING|, |SOURCES_HEADING|, |nonce|, |p|);
    MarkerIsInside(sources, at);
    forall e: nat
      ensures EndsMarker(message, e)
        <==> AtMark(|REQUEST_HEADING|, |SOURCES_HEADING|, |nonce|, |p|, |sources|, e) || InsideValue(sources, at, e)
    {
      PlanningFences(redact, prompt, sources, nonce, e);
    }
    if e: nat :| InsideValue(sources, at, e) {
      assert !AtMark(|REQUEST_HEADING|, |SOURCES_HEADING|, |nonce|, |p|, |sources|, e) && EndsMarker(message, e);
    }
  }

  // What to look at in the candidates

  lemma {:induction false} WordStaysUncut(s: Text, n: nat)
    requires n <= |s| && WordAt(s[..n] + [ELLIPSIS], 0)
    ensures WordAt(s, 0)
  {
    var t := s[..n] + [ELLIPSIS];
    assert |t| == n + 1 && t[n] == ELLIPSIS && t[9] == UNDERSCORE;
    assert forall i | 0 <= i < n :: t[i] == s[i];
  }

  lemma {:induction false} ClosingStaysUncut(s: Text, n: nat)
    requires n <= |s| && CompletesClosing(s[..n] + [ELLIPSIS])
    ensures CompletesClosing(s)
  {
    var t := s[..n] + [ELLIPSIS];
    if n > 0 && IsSpace(s[0]) {
      assert t[1..] == s[1..][..n - 1] + [ELLIPSIS];
      ClosingStaysUncut(s[1..], n - 1);
    } else {
      WordStaysUncut(s, n);
    }
  }

  lemma {:induction false} OpeningStaysUncut(s: Text, n: nat)
    requires n <= |s| && CompletesOpening(s[..n] + [ELLIPSIS])
    ensures CompletesOpening(s)
  {
    var t := s[..n] + [ELLIPSIS];
    if n > 0 && (IsSpace(s[0]) || s[0] == SLASH) {
      assert t[1..] == s[1..][..n - 1] + [ELLIPSIS];
      if IsSpace(s[0]) {
        OpeningStaysUncut(s[1..], n - 1);
      } else {
        ClosingStaysUncut(s[1..], n - 1);
      }
    } else {
      WordStaysUncut(s, n);
    }
  }

  /** An excerpt completes nothing that the whole text does not. */
  lemma {:induction false} ExcerptCompletesNoMore(title: Text, text: Text, max: int)
    requires CompletesMarker(title, Cut(text, max))
    ensures CompletesMarker(title, text)
  {
    if |text| > max {
      var n := CutIsPrefix(text, max);
      if EndsOpen(title) && CompletesOpening(text[..n] + [ELLIPSIS]) {
        OpeningStaysUncut(text, n);
      } else {
        ClosingStaysUncut(text, n);
      }
    }
  }

  lemma {:induction false} ShownCompletes(redact: Redact, c: Candidate, s: Source)
    requires Shows(Words(redact), c, s) && CompletesMarker(s.title, s.excerpt)
    ensures CompletesMarker(Title(redact, c), Prepared(redact, c))
  {
    var max :| s.excerpt == Words(redact).cut(Words(redact).prepared(c), max);
    ExcerptCompletesNoMore(s.title, Prepared(redact, c), max);
  }

  lemma {:induction false} NoShownPairCompletes(redact: Redact, maxChars: int, cs: seq<Candidate>)
    requires forall c | c in cs :: !CompletesMarker(Title(redact, c), Prepared(redact, c))
    ensures !SomePairCompletes(Budget(Words(redact), maxChars, cs).sources)
  {
    var w := Words(redact);
    var sources, from := Budget(w, maxChars, cs).sources, Origins(w, maxChars, cs);
    WordsFit(redact);
    SourcesAreCandidates(w, maxChars, cs);
    forall i | 0 <= i < |sources|
      ensures !CompletesMarker(sources[i].title, sources[i].excerpt)
    {
      assert Shows(w, cs[from[i]], sources[i]);
      if CompletesMarker(sources[i].title, sources[i].excerpt) {
        ShownCompletes(redact, cs[from[i]], sources[i]);
      }
    }
  }

  /** When no candidate's title and prepared text complete a marker, the fence holds whatever the budget. */
  lemma {:induction false} CandidatesKeepFence(redact: Redact, prompt: Text, nonce: Text, maxChars: int, cs: seq<Candidate>)
    requires IsNonce(nonce) && forall c | c in cs :: !CompletesMarker(Title(redact, c), Prepared(redact, c))
    ensures var p := PrepareUntrustedText(redact, prompt);
      var sources := Join(Budget(Words(redact), maxChars, cs).blocks);
      var r := RenderPrompt(PlanningUserV3(), PlanningVars(p, sources, nonce));
      r.Some? && OnlyItsMarks(r.value, nonce, p, sources)
  {
    NoShownPairCompletes(redact, maxChars, cs);
    PlanningMessageFences(redact, prompt, nonce, maxChars, cs);
  }

  // A fence broken by a join

  const OPEN_TITLE: Text := [LESS]
  const REST_OF_MARKER: Text := UNTRUSTED + [UNDERSCORE]

  function Unredacted(): Redact {
    (t: Text) => t
  }

  lemma PlainTextStays(s: Text)
    requires LESS !in s && s != [] && !IsSpace(s[0]) && !IsSpace(s[|s| - 1])
    ensures Trim(PrepareUntrustedText(Unredacted(), s)) == s
  {
  }

  /** A single unit that is no match is left alone. */
  lemma OneUnitStays(m: Matcher, f: Text -> Text, s: Text)
    requires |s| == 1 && m(s) == 0
    ensures Replace(m, f, s) == s
  {
    ReplaceIsRewrite(m, f, s);
    assert s[1..] == [];
    assert Scan(m, s[1..]) == End;
    assert Scan(m, s) == Plain(s[0], End);
  }

  lemma OpenTitleStays()
    ensures !HasMarker(OPEN_TITLE) && Neutralize(OPEN_TITLE) == OPEN_TITLE && SingleLine(OPEN_TITLE) == OPEN_TITLE
  {
    assert OPEN_TITLE[1..] == [];
    OneUnitStays(MarkerLength, Defuse(), OPEN_TITLE);
    OneUnitStays(SpaceRun, OneSpace(), OPEN_TITLE);
    assert TrimStart(OPEN_TITLE) == OPEN_TITLE && TrimEnd(OPEN_TITLE) == OPEN_TITLE;
  }

  lemma OneShown(w: Wording, maxChars: int, c: Candidate)
    requires CutsFit(w) && 0 < |w.prepared(c)| <= MIN_EXCERPT_CHARS
    requires |w.header(w.id(1), c.kind, w.title(c))| + |w.prepared(c)| <= maxChars
    ensures var sources := Budget(w, maxChars, [c]).sources;
      |sources| == 1 && sources[0].title == w.title(c) && sources[0].excerpt == w.prepared(c)
  {
  }

  lemma ShortHeader(k: Kind)
    ensures |Header(Id(1), k, OPEN_TITLE)| <= 20
  {
  }

  lemma HalvesComplete()
    ensures CompletesMarker(OPEN_TITLE, REST_OF_MARKER)
  {
  }

  lemma ShortIsPrepared(redact: Redact, c: Candidate)
    requires |c.rawText| <= MAX_PREPARE_CHARS
    ensures Prepared(redact, c) == Trim(PrepareUntrustedText(redact, c.rawText))
  {
    assert c.rawText[..|c.rawText|] == c.rawText;
  }

  lemma BrokenText(c: Candidate)
    requires c.rawText == REST_OF_MARKER
    ensures Prepared(Unredacted(), c) == REST_OF_MARKER
  {
    UntrustedIsLetters();
    PlainTextStays(REST_OF_MARKER);
    ShortIsPrepared(Unredacted(), c);
  }

  lemma BrokenTitle(c: Candidate)
    requires c.rawTitle == OPEN_TITLE
    ensures Title(Unredacted(), c) == OPEN_TITLE
  {
    OpenTitleStays();
    assert PrepareUntrustedText(Unredacted(), OPEN_TITLE) == OPEN_TITLE;
  }

  /** A connector named `<` whose text starts with `untrusted_` puts a marker into the message. */
  lemma JoinBreaksFence(prompt: Text, nonce: Text)
    requires IsNonce(nonce)
    ensures var c := Candidate(ConnectorGroup, ConnectorSource, OPEN_TITLE, OPEN_TITLE, REST_OF_MARKER);
      var p, sources := PrepareUntrustedText(Unredacted(), prompt), Join(Budget(Words(Unredacted()), 1000, [c]).blocks);
      var r := RenderPrompt(PlanningUserV3(), PlanningVars(p, sources, nonce));
      r.Some? && !OnlyItsMarks(r.value, nonce, p, sources)
  {
    var c := Candidate(ConnectorGroup, ConnectorSource, OPEN_TITLE, OPEN_TITLE, REST_OF_MARKER);
    OneBroken(c);
    PlanningMessageFences(Unredacted(), prompt, nonce, 1000, [c]);
  }

  lemma OneBroken(c: Candidate)
    requires c == Candidate(ConnectorGroup, ConnectorSource, OPEN_TITLE, OPEN_TITLE, REST_OF_MARKER)
    ensures SomePairCompletes(Budget(Words(Unredacted()), 1000, [c]).sources)
  {
    var w := Words(Unredacted());
    WordsFit(Unredacted());
    BrokenText(c);
    BrokenTitle(c);
    ShortHeader(c.kind);
    OneShown(w, 1000, c);
    HalvesComplete();
    var sources := Budget(w, 1000, [c]).sources;
    assert CompletesMarker(sources[0].title, sources[0].excerpt);
  }
}
