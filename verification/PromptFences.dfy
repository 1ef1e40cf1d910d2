/** The version 3 user messages: which fence markers the model sees once outside text is substituted in. */
module PromptFences {
  import opened Utf16
  import opened Scanning
  import opened Options
  import opened PromptTemplates
  import opened PromptGuards
  import opened MarkerJoins

  // Templates given by their literal and placeholder parts

  /** The units of a literal stretch, then the rest. */
  function Literal(text: Text, rest: Pieces): Pieces {
    if text == [] then rest else Plain(text[0], Literal(text[1..], rest))
  }

  function Braced(name: Name): Text {
    [LEFT_BRACE, LEFT_BRACE] + name + [RIGHT_BRACE, RIGHT_BRACE]
  }

  function Variable(name: Name, rest: Pieces): Pieces {
    Hit(Braced(name), rest)
  }

  /** The pieces are the split of what they print, use exactly these names and become this text. */
  ghost predicate Becomes(ps: Pieces, f: Text -> Text, names: set<Name>, out: Text) {
    Leftmost(PlaceholderLength, ps) && (forall n :: n in Names(ps) <==> n in names) && Rewrite(f, ps) == out
  }

  lemma {:induction false} LiteralBecomes(text: Text, rest: Pieces, f: Text -> Text, names: set<Name>, out: Text)
    requires LEFT_BRACE !in text && Becomes(rest, f, names, out)
    ensures Becomes(Literal(text, rest), f, names, text + out)
  {
    if text == [] {
      assert text + out == out;
    } else {
      LiteralBecomes(text[1..], rest, f, names, out);
      assert text == [text[0]] + text[1..];
      Associative([text[0]], text[1..], out);
    }
  }

  lemma BracedParses(name: Name, after: Text)
    requires name != [] && forall u | u in name :: IsWord(u)
    ensures Parse(Braced(name) + after) == Some(Span(2, 2 + |name|, 4 + |name|))
  {
    var s := Braced(name) + after;
    assert forall i | 2 <= i < 2 + |name| :: s[i] == name[i - 2];
    ParseExact(s, 2, 2 + |name|, 2 + |name|);
  }

  lemma {:induction false} NameOfBraced(name: Name)
    requires name != [] && forall u | u in name :: IsWord(u)
    ensures NameOf(Braced(name)) == name
  {
    BracedParses(name, []);
    assert Braced(name) + [] == Braced(name);
  }

  lemma {:induction false} VariableBecomes(name: Name, rest: Pieces, f: Text -> Text, names: set<Name>, out: Text)
    requires name != [] && (forall u | u in name :: IsWord(u)) && Becomes(rest, f, names, out)
    ensures Becomes(Variable(name, rest), f, {name} + names, f(Braced(name)) + out) && NameOf(Braced(name)) == name
  {
    BracedParses(name, Print(rest));
    NameOfBraced(name);
    assert Print(Variable(name, rest)) == Braced(name) + Print(rest);
    assert Leftmost(PlaceholderLength, Variable(name, rest));
  }

  /** `<untrusted_`. */
  const OPENING := [LESS] + UNTRUSTED + [UNDERSCORE]
  const AFTER_OPENING := T(">\n")
  /** `</untrusted_`. */
  const CLOSING_TAG := [LESS, SLASH] + UNTRUSTED + [UNDERSCORE]
  const CLOSING := [NEWLINE] + CLOSING_TAG

  /** `<untrusted_{{nonce}}>`, the variable, `</untrusted_{{nonce}}>` less its last character. */
  function FencedVariable(name: Name, rest: Pieces): Pieces {
    Literal(OPENING, Variable(NONCE, Literal(AFTER_OPENING, Variable(name, Literal(CLOSING, Variable(NONCE, rest))))))
  }

  /** Two fenced variables, each under its own heading. */
  function TwoBlocks(first: Text, a: Name, second: Text, b: Name): Pieces {
    Literal(first, FencedVariable(a, Literal(second, FencedVariable(b, Literal([GREATER], End)))))
  }

  const CONTEXT_HEADING := T("Context:\n")
  const TEXT_HEADING := T(">\n\nText:\n")
  const REQUEST_HEADING := T("Request:\n")
  const SOURCES_HEADING := T(">\n\nSources:\n")

  function InvocableUserV3(): Text {
    Print(TwoBlocks(CONTEXT_HEADING, CONTEXT, TEXT_HEADING, CONTENT))
  }

  function PlanningUserV3(): Text {
    Print(TwoBlocks(REQUEST_HEADING, PROMPT, SOURCES_HEADING, CONTEXT))
  }

  /** A value between its fence lines, and what follows the second nonce. */
  function Fenced(nonce: Text, body: Text, tail: Text): Text {
    OPENING + (nonce + (AFTER_OPENING + (body + (CLOSING + (nonce + tail)))))
  }

  lemma PartBecomes(text: Text, name: Name, rest: Pieces, vars: Vars, names: set<Name>, out: Text)
    requires LEFT_BRACE !in text && name != [] && (forall u | u in name :: IsWord(u)) && name in vars
    requires Becomes(rest, Value(vars), names, out)
    ensures Becomes(Literal(text, Variable(name, rest)), Value(vars), {name} + names, text + (vars[name] + out))
  {
    VariableBecomes(name, rest, Value(vars), names, out);
    LiteralBecomes(text, Variable(name, rest), Value(vars), {name} + names, vars[name] + out);
  }

  lemma PlainLiterals()
    ensures LEFT_BRACE !in OPENING && LEFT_BRACE !in AFTER_OPENING && LEFT_BRACE !in CLOSING
    ensures LEFT_BRACE !in CONTEXT_HEADING && LEFT_BRACE !in TEXT_HEADING
    ensures LEFT_BRACE !in REQUEST_HEADING && LEFT_BRACE !in SOURCES_HEADING
    ensures NONCE != [] && forall u | u in NONCE :: IsWord(u)
  {
  }

  lemma NamesOfVariables()
    ensures forall u | u in CONTEXT + CONTENT :: IsWord(u)
    ensures forall u | u in PROMPT + CONTEXT :: IsWord(u)
    ensures CONTEXT != CONTENT && CONTEXT != NONCE && CONTENT != NONCE && PROMPT != NONCE && PROMPT != CONTEXT
    ensures LESS !in CONTEXT_HEADING && LESS !in TEXT_HEADING && LESS !in REQUEST_HEADING && LESS !in SOURCES_HEADING
  {
    assert CONTEXT == [99, 111, 110, 116, 101, 120, 116];
    assert CONTENT == [99, 111, 110, 116, 101, 110, 116];
    assert PROMPT == [112, 114, 111, 109, 112, 116];
    assert CONTEXT[5] != CONTENT[5];
  }

  lemma FencedVariableBecomes(name: Name, rest: Pieces, vars: Vars, names: set<Name>, out: Text)
    requires name != [] && (forall u | u in name :: IsWord(u)) && name in vars && NONCE in vars
    requires Becomes(rest, Value(vars), names, out)
    ensures Becomes(FencedVariable(name, rest), Value(vars), {NONCE} + ({name} + ({NONCE} + names)),
      Fenced(vars[NONCE], vars[name], out))
  {
    PlainLiterals();
    var nonce, body := vars[NONCE], vars[name];
    PartBecomes(CLOSING, NONCE, rest, vars, names, out);
    var p1, n1, o1 := Literal(CLOSING, Variable(NONCE, rest)), {NONCE} + names, CLOSING + (nonce + out);
    PartBecomes(AFTER_OPENING, name, p1, vars, n1, o1);
    var p2, n2, o2 := Literal(AFTER_OPENING, Variable(name, p1)), {name} + n1, AFTER_OPENING + (body + o1);
    PartBecomes(OPENING, NONCE, p2, vars, n2, o2);
  }

  lemma TwoBlocksRender(first: Text, a: Name, second: Text, b: Name, vars: Vars)
    requires LEFT_BRACE !in first && LEFT_BRACE !in second && {NONCE, a, b} <= vars.Keys
    requires a != [] && b != [] && forall u | u in a + b :: IsWord(u)
    ensures RenderPrompt(Print(TwoBlocks(first, a, second, b)), vars)
      == Some(first + Fenced(vars[NONCE], vars[a], second + Fenced(vars[NONCE], vars[b], [GREATER])))
  {
    var f, nonce := Value(vars), vars[NONCE];
    LiteralBecomes([GREATER], End, f, {}, []);
    var p1 := Literal([GREATER], End);
    assert [GREATER] + [] == [GREATER];
    FencedVariableBecomes(b, p1, vars, {}, [GREATER]);
    var p2, n2, o2 := FencedVariable(b, p1), {NONCE} + ({b} + ({NONCE} + {})), Fenced(nonce, vars[b], [GREATER]);
    LiteralBecomes(second, p2, f, n2, o2);
    var p3, o3 := Literal(second, p2), second + o2;
    FencedVariableBecomes(a, p3, vars, n2, o3);
    var p4, n4, o4 := FencedVariable(a, p3), {NONCE} + ({a} + ({NONCE} + n2)), Fenced(nonce, vars[a], o3);
    LiteralBecomes(first, p4, f, n4, o4);
    ScanOfPrint(PlaceholderLength, Literal(first, p4));
    RenderSubstitutesPieces(Print(Literal(first, p4)), vars);
  }

  // The templates as they are written

  lemma {:induction false} PrintLiteral(text: Text, rest: Pieces)
    ensures Print(Literal(text, rest)) == text + Print(rest)
  {
    if text == [] {
      assert text + Print(rest) == Print(rest);
    } else {
      PrintLiteral(text[1..], rest);
      assert text == [text[0]] + text[1..];
      Associative([text[0]], text[1..], Print(rest));
    }
  }

  lemma {:induction false} OpeningLine()
    ensures OPENING + (Braced(NONCE) + AFTER_OPENING) == T("<untrusted_{{nonce}}>\n")
  {
    assert T("<untrusted_") == OPENING;
    assert T("{{nonce}}") == Braced(NONCE);
  }

  lemma {:induction false} ClosingLine()
    ensures CLOSING + Braced(NONCE) == T("\n</untrusted_{{nonce}}")
  {
    assert T("{{nonce}}") == Braced(NONCE);
    assert T("\n</untrusted_") == CLOSING;
  }

  lemma {:induction false} PrintFenced(name: Name, rest: Pieces)
    ensures Print(FencedVariable(name, rest))
      == T("<untrusted_{{nonce}}>\n") + (Braced(name) + (T("\n</untrusted_{{nonce}}") + Print(rest)))
  {
    OpeningLine();
    ClosingLine();
    var p1 := Variable(NONCE, rest);
    PrintLiteral(CLOSING, p1);
    Associative(CLOSING, Braced(NONCE), Print(rest));
    var p2 := Variable(name, Literal(CLOSING, p1));
    PrintLiteral(AFTER_OPENING, p2);
    var p3 := Variable(NONCE, Literal(AFTER_OPENING, p2));
    PrintLiteral(OPENING, p3);
    Associative(Braced(NONCE), AFTER_OPENING, Print(p2));
    Associative(OPENING, Braced(NONCE) + AFTER_OPENING, Print(p2));
  }

  lemma {:induction false} PrintTwoBlocks(first: Text, a: Name, second: Text, b: Name)
    ensures Print(TwoBlocks(first, a, second, b)) ==
      first + (T("<untrusted_{{nonce}}>\n") + (Braced(a) + (T("\n</untrusted_{{nonce}}")
      + (second + (T("<untrusted_{{nonce}}>\n") + (Braced(b) + (T("\n</untrusted_{{nonce}}") + [GREATER])))))))
  {
    PrintLiteral([GREATER], End);
    assert [GREATER] + [] == [GREATER];
    var p1 := Literal([GREATER], End);
    PrintFenced(b, p1);
    PrintLiteral(second, FencedVariable(b, p1));
    var p2 := Literal(second, FencedVariable(b, p1));
    PrintFenced(a, p2);
    PrintLiteral(first, FencedVariable(a, p2));
  }

  lemma {:induction false} BracedNames()
    ensures Braced(CONTENT) == T("{{content}}") && Braced(CONTEXT) == T("{{context}}") && Braced(PROMPT) == T("{{prompt}}")
  {
  }

  /** The user template of the suggestion prompts, stretch by stretch. */
  lemma {:induction false} InvocableTemplate()
    ensures InvocableUserV3() ==
      T("Context:\n") + (T("<untrusted_{{nonce}}>\n") + (T("{{context}}") + (T("\n</untrusted_{{nonce}}")
      + (T(">\n\nText:\n") + (T("<untrusted_{{nonce}}>\n") + (T("{{content}}") + (T("\n</untrusted_{{nonce}}")
      + [GREATER])))))))
  {
    PrintTwoBlocks(CONTEXT_HEADING, CONTEXT, TEXT_HEADING, CONTENT);
    BracedNames();
  }

  /** The user template of the planning prompt, stretch by stretch. */
  lemma {:induction false} PlanningTemplate()
    ensures PlanningUserV3() ==
      T("Request:\n") + (T("<untrusted_{{nonce}}>\n") + (T("{{prompt}}") + (T("\n</untrusted_{{nonce}}")
      + (T(">\n\nSources:\n") + (T("<untrusted_{{nonce}}>\n") + (T("{{context}}") + (T("\n</untrusted_{{nonce}}")
      + [GREATER])))))))
  {
    PrintTwoBlocks(REQUEST_HEADING, PROMPT, SOURCES_HEADING, CONTEXT);
    BracedNames();
  }

  lemma MarkerEndsItself(m: Text, e: nat)
    requires IsMarker(m)
    ensures EndsMarker(m, e) <==> e == |m| - 1
  {
    MarkerShape(m);
    assert m[0..|m| - 1 + 1] == m;
    assert MarkedAt(m, 0, |m| - 1);
    if EndsMarker(m, e) {
      var k: nat :| MarkedAt(m, k, e);
      MarkedShape(m, k, e);
    }
  }

  lemma LowerCaseWord(front: Text)
    ensures WordAt(front + UNTRUSTED + [UNDERSCORE], |front|)
  {
  }

  lemma FenceMarksAreMarkers()
    ensures IsMarker(OPENING) && IsMarker(CLOSING_TAG)
  {
    LowerCaseWord([LESS]);
    LowerCaseWord([LESS, SLASH]);
    UntrustedIsLetters();
    assert IsMarkerUpTo(OPENING, 1, 11) && IsMarkerUpTo(CLOSING_TAG, 1, 12);
  }

  lemma OpeningEnds(e: nat)
    ensures EndsMarker(OPENING, e) <==> e == 10
  {
    FenceMarksAreMarkers();
    MarkerEndsItself(OPENING, e);
  }

  lemma ClosingEnds(e: nat)
    ensures EndsMarker(CLOSING, e) <==> e == 12
  {
    NothingOpened([NEWLINE]);
    JoinEnds([NEWLINE], CLOSING_TAG, e);
    if 1 <= e {
      FenceMarksAreMarkers();
      MarkerEndsItself(CLOSING_TAG, e - 1);
    }
  }

  lemma AfterOpeningEnds(nonce: Text, rest: Text, e: nat)
    requires LESS !in nonce
    ensures var at := 13 + |nonce|;
      EndsMarker(OPENING + (nonce + (AFTER_OPENING + rest)), e) <==> e == 10 || (at <= e && EndsMarker(rest, e - at))
  {
    assert |OPENING| == 11 && |AFTER_OPENING| == 2;
    NothingOpened(nonce);
    NothingOpened(AFTER_OPENING);
    JoinEnds(OPENING, nonce + (AFTER_OPENING + rest), e);
    OpeningEnds(e);
    if 11 <= e { JoinEnds(nonce, AFTER_OPENING + rest, e - 11); }
    if 11 + |nonce| <= e { JoinEnds(AFTER_OPENING, rest, e - 11 - |nonce|); }
  }

  lemma BeforeClosingEnds(nonce: Text, body: Text, tail: Text, e: nat)
    requires LESS !in nonce
    ensures var at := |body|; var after := at + 13 + |nonce|;
      EndsMarker(body + (CLOSING + (nonce + tail)), e) <==>
        (e < at && EndsMarker(body, e)) || e == at + 12 || (after <= e && EndsMarker(tail, e - after))
  {
    assert |CLOSING| == 13;
    NothingOpened(nonce);
    JoinEnds(body, CLOSING + (nonce + tail), e);
    if |body| <= e { JoinEnds(CLOSING, nonce + tail, e - |body|); ClosingEnds(e - |body|); }
    if |body| + 13 <= e { JoinEnds(nonce, tail, e - |body| - 13); }
  }

  /** A fenced value shows its two fence marks, the markers of the value and those of what follows: none across. */
  lemma FencedEnds(nonce: Text, body: Text, tail: Text, e: nat)
    requires LESS !in nonce
    ensures var at := 13 + |nonce|; var after := at + |body| + 13 + |nonce|;
      && |Fenced(nonce, body, tail)| == after + |tail|
      && (EndsMarker(Fenced(nonce, body, tail), e) <==>
          || e == 10
          || (at <= e < at + |body| && EndsMarker(body, e - at))
          || e == at + |body| + 12
          || (after <= e && EndsMarker(tail, e - after)))
  {
    AfterOpeningEnds(nonce, body + (CLOSING + (nonce + tail)), e);
    if 13 + |nonce| <= e {
      BeforeClosingEnds(nonce, body, tail, e - 13 - |nonce|);
    }
  }

  /** What a nonce of hexadecimal digits cannot contain. */
  predicate IsNonce(nonce: Text) {
    forall u | u in nonce :: IsDigit(u) || 97 <= u <= 102
  }

  /** The four places where the fence marks of a two-block message end, given the lengths that make it up. */
  predicate AtMark(first: nat, second: nat, nonce: nat, a: nat, b: nat, e: nat) {
    var next := first + a + 26 + 2 * nonce + second;
    e == first + 10 || e == first + 25 + nonce + a || e == next + 10 || e == next + 25 + nonce + b
  }

  /** Where the second value of a two-block message starts. */
  function SecondValueAt(first: nat, second: nat, nonce: nat, a: nat): nat {
    first + a + 26 + 2 * nonce + second + 13 + nonce
  }

  /** A marker inside one of the two substituted values. */
  ghost predicate InsideValue(value: Text, at: nat, e: nat) {
    at <= e < at + |value| && EndsMarker(value, e - at)
  }

  lemma HeadedEnds(heading: Text, nonce: Text, body: Text, rest: Text, e: nat)
    requires LESS !in heading && IsNonce(nonce)
    ensures var n := |heading|; var after := n + |body| + 26 + 2 * |nonce|;
      && |heading + Fenced(nonce, body, rest)| == after + |rest|
      && (EndsMarker(heading + Fenced(nonce, body, rest), e) <==>
          || e == n + 10
          || InsideValue(body, n + 13 + |nonce|, e)
          || e == n + 25 + |nonce| + |body|
          || (after <= e && EndsMarker(rest, e - after)))
  {
    NothingOpened(heading);
    JoinEnds(heading, Fenced(nonce, body, rest), e);
    FencedEnds(nonce, body, rest, if |heading| <= e then e - |heading| else 0);
  }

  lemma TwoBlocksEnds(first: Text, second: Text, nonce: Text, a: Text, b: Text, e: nat)
    requires LESS !in first && LESS !in second && IsNonce(nonce) && FreeOfMarkers(a)
    ensures EndsMarker(first + Fenced(nonce, a, second + Fenced(nonce, b, [GREATER])), e) <==>
        AtMark(|first|, |second|, |nonce|, |a|, |b|, e)
        || InsideValue(b, SecondValueAt(|first|, |second|, |nonce|, |a|), e)
  {
    var after := |first| + |a| + 26 + 2 * |nonce|;
    var inner := second + Fenced(nonce, b, [GREATER]);
    NothingOpened([GREATER]);
    HeadedEnds(first, nonce, a, inner, e);
    assert !InsideValue(a, |first| + 13 + |nonce|, e);
    if after <= e {
      HeadedEnds(second, nonce, b, [GREATER], e - after);
      assert InsideValue(b, |second| + 13 + |nonce|, e - after)
        <==> InsideValue(b, SecondValueAt(|first|, |second|, |nonce|, |a|), e);
    }
  }

  /** Redaction is not modelled: any function of the text. */
  function PrepareUntrustedText(redact: Text -> Text, text: Text): Text {
    Neutralize(redact(text))
  }

  lemma RenderInvocable(content: Text, context: Text, nonce: Text)
    ensures RenderPrompt(InvocableUserV3(), InvocableVars(content, context, nonce))
      == Some(CONTEXT_HEADING + Fenced(nonce, context, TEXT_HEADING + Fenced(nonce, content, [GREATER])))
  {
    NamesOfVariables();
    PlainLiterals();
    TwoBlocksRender(CONTEXT_HEADING, CONTEXT, TEXT_HEADING, CONTENT, InvocableVars(content, context, nonce));
  }

  lemma RenderPlanning(prompt: Text, sources: Text, nonce: Text)
    ensures RenderPrompt(PlanningUserV3(), PlanningVars(prompt, sources, nonce))
      == Some(REQUEST_HEADING + Fenced(nonce, prompt, SOURCES_HEADING + Fenced(nonce, sources, [GREATER])))
  {
    NamesOfVariables();
    PlainLiterals();
    TwoBlocksRender(REQUEST_HEADING, PROMPT, SOURCES_HEADING, CONTEXT, PlanningVars(prompt, sources, nonce));
  }

  /** Whatever the section, its neighbours' titles and the redaction are, the rendered user message of the version 3
      suggestion prompts has the four fence marks of the template, where the template puts them, and no other. */
  lemma InvocableFences(redact: Text -> Text, content: Text, context: Text, nonce: Text, e: nat)
    requires IsNonce(nonce)
    ensures var c, x := PrepareUntrustedText(redact, content), PrepareUntrustedText(redact, context);
      var r := RenderPrompt(InvocableUserV3(), InvocableVars(c, x, nonce));
      r.Some? && (EndsMarker(r.value, e) <==> AtMark(|CONTEXT_HEADING|, |TEXT_HEADING|, |nonce|, |x|, |c|, e))
  {
    var c, x := PrepareUntrustedText(redact, content), PrepareUntrustedText(redact, context);
    RenderInvocable(c, x, nonce);
    NamesOfVariables();
    NeutralizedIsFree(redact(content));
    NeutralizedIsFree(redact(context));
    TwoBlocksEnds(CONTEXT_HEADING, TEXT_HEADING, nonce, x, c, e);
  }

  /** The planning message has its four marks and those of the sources text, which is substituted as it is. */
  lemma PlanningFences(redact: Text -> Text, prompt: Text, sources: Text, nonce: Text, e: nat)
    requires IsNonce(nonce)
    ensures var p := PrepareUntrustedText(redact, prompt);
      var r := RenderPrompt(PlanningUserV3(), PlanningVars(p, sources, nonce));
      r.Some? && (EndsMarker(r.value, e) <==>
        AtMark(|REQUEST_HEADING|, |SOURCES_HEADING|, |nonce|, |p|, |sources|, e)
        || InsideValue(sources, SecondValueAt(|REQUEST_HEADING|, |SOURCES_HEADING|, |nonce|, |p|), e))
  {
    var p := PrepareUntrustedText(redact, prompt);
    RenderPlanning(p, sources, nonce);
    NamesOfVariables();
    NeutralizedIsFree(redact(prompt));
    TwoBlocksEnds(REQUEST_HEADING, SOURCES_HEADING, nonce, p, sources, e);
  }
}
