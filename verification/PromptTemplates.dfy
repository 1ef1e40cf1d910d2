/** Prompt templates: `{{name}}` placeholders, rendering, and the rules a new template has to pass. */
module PromptTemplates {
  import opened Utf16
  import opened Scanning
  import opened Options
  import opened FirstPlaces

  const LEFT_BRACE: Unit := 123
  const RIGHT_BRACE: Unit := 125

  type Name = Text

  /** Where the name of a placeholder at the start of a text stands and where the placeholder ends. */
  datatype Span = Span(nameStart: nat, nameEnd: nat, end: nat)

  /** Two braces, white space up to `a`, a name up to `b`, white space up to `c`, two braces. */
  predicate IsPlaceholder(s: Text, a: nat, b: nat, c: nat) {
    && 2 <= a < b <= c && c + 2 <= |s|
    && s[0] == s[1] == LEFT_BRACE && s[c] == s[c + 1] == RIGHT_BRACE
    && (forall i | 2 <= i < a :: IsSpace(s[i]))
    && (forall i | a <= i < b :: IsWord(s[i]))
    && (forall i | b <= i < c :: IsSpace(s[i]))
  }

  function Parse(s: Text): (r: Option<Span>)
    ensures r.Some? ==> 2 <= r.value.nameStart < r.value.nameEnd && r.value.nameEnd + 2 <= r.value.end <= |s|
  {
    if |s| < 2 || s[0] != LEFT_BRACE || s[1] != LEFT_BRACE then None
    else
      var a := RunTo(IsSpace, s, 2);
      var b := RunTo(IsWord, s, a);
      var c := RunTo(IsSpace, s, b);
      if a < b && c + 2 <= |s| && s[c] == RIGHT_BRACE && s[c + 1] == RIGHT_BRACE then Some(Span(a, b, c + 2)) else None
  }

  lemma RunToIs(p: Unit -> bool, s: Text, from: nat, to: nat)
    requires from <= to < |s| && (forall i | from <= i < to :: p(s[i])) && !p(s[to])
    ensures RunTo(p, s, from) == to
  {
  }

  /** The greedy scanner finds exactly the placeholder the text starts with, if there is one. */
  lemma ParseExact(s: Text, a: nat, b: nat, c: nat)
    ensures Parse(s) == Some(Span(a, b, c + 2)) <==> IsPlaceholder(s, a, b, c)
  {
    if IsPlaceholder(s, a, b, c) {
      RunToIs(IsSpace, s, 2, a);
      RunToIs(IsWord, s, a, b);
      RunToIs(IsSpace, s, b, c);
    }
  }

  /** The expression `\{\{\s*(\w+)\s*\}\}` as a matcher. */
  function PlaceholderLength(s: Text): nat {
    match Parse(s)
    case Some(span) => span.end
    case None => 0
  }

  /** The name inside a placeholder. */
  function NameOf(placeholder: Text): Name {
    match Parse(placeholder)
    case Some(span) => placeholder[span.nameStart..span.nameEnd]
    case None => []
  }

  // Rendering

  /** The placeholders of the split template, in order. */
  function Names(ps: Pieces): seq<Name> {
    match ps
    case End => []
    case Plain(_, rest) => Names(rest)
    case Hit(h, rest) => [NameOf(h)] + Names(rest)
  }

  /** The names are those of the matches of the split, in the order these stand in the template. */
  lemma {:induction false} NamesOfHits(ps: Pieces)
    ensures |Names(ps)| == |Hits(ps)| && forall k | 0 <= k < |Hits(ps)| :: Names(ps)[k] == NameOf(Hits(ps)[k])
  {
    match ps
    case End =>
    case Plain(_, rest) => NamesOfHits(rest);
    case Hit(h, rest) => NamesOfHits(rest);
  }

  /** Each name once, at its first use. */
  function Distinct(names: seq<Name>): seq<Name> {
    if names == [] then []
    else
      var before := Distinct(names[..|names| - 1]);
      if names[|names| - 1] in before then before else before + [names[|names| - 1]]
  }

  lemma {:induction false} DistinctIs(names: seq<Name>)
    ensures forall n :: n in Distinct(names) <==> n in names
    ensures forall i, j | 0 <= i < j < |Distinct(names)| :: Distinct(names)[i] != Distinct(names)[j]
    ensures InFirstUseOrder(Distinct(names), names)
  {
    if names != [] {
      var front, last := names[..|names| - 1], names[|names| - 1];
      DistinctIs(front);
      assert names == front + [last];
      OrderWithLast(Distinct(front), front, last);
    }
  }

  function Add(names: seq<Name>, name: Name): seq<Name> {
    if name in names then names else names + [name]
  }

  /** What an insertion-ordered set holds after the names of the remaining pieces went in. */
  function AddAll(names: seq<Name>, ps: Pieces): seq<Name>
    decreases ps
  {
    match ps
    case End => names
    case Plain(_, rest) => AddAll(names, rest)
    case Hit(h, rest) => AddAll(Add(names, NameOf(h)), rest)
  }

  lemma {:induction false} AddAllIsDistinct(seen: seq<Name>, ps: Pieces)
    ensures AddAll(Distinct(seen), ps) == Distinct(seen + Names(ps))
    decreases ps
  {
    match ps
    case End =>
      assert seen + [] == seen;
    case Plain(_, rest) =>
      AddAllIsDistinct(seen, rest);
    case Hit(h, rest) =>
      var more := seen + [NameOf(h)];
      assert more[..|more| - 1] == seen;
      AddAllIsDistinct(more, rest);
      assert seen + ([NameOf(h)] + Names(rest)) == more + Names(rest);
  }

  /** The loop of `listPlaceholders`, adding each matched name to an insertion-ordered set: every name used,
      once, in the order of first use. */
  method ListPlaceholders(template: Text) returns (names: seq<Name>)
    ensures names == Distinct(Names(Scan(PlaceholderLength, template)))
    ensures forall n :: n in names <==> n in Names(Scan(PlaceholderLength, template))
    ensures forall i, j | 0 <= i < j < |names| :: names[i] != names[j]
    ensures InFirstUseOrder(names, Names(Scan(PlaceholderLength, template)))
  {
    names := [];
    var all := Scan(PlaceholderLength, template);
    var left := all;
    while left != End
      invariant AddAll(names, left) == AddAll([], all)
      decreases left
    {
      if left.Hit? {
        names := Add(names, NameOf(left.text));
      }
      left := left.rest;
    }
    AddAllIsDistinct([], all);
    assert [] + Names(all) == Names(all);
    DistinctIs(Names(all));
  }

  type Vars = map<Name, Text>

  function Value(vars: Vars): Text -> Text {
    (p: Text) => if NameOf(p) in vars then vars[NameOf(p)] else []
  }

  /** `None` is the thrown unknown-placeholder error. */
  function RenderPrompt(template: Text, vars: Vars): Option<Text> {
    if forall n | n in Names(Scan(PlaceholderLength, template)) :: n in vars
    then Some(Replace(PlaceholderLength, Value(vars), template)) else None
  }

  /** Rendering substitutes every piece of the leftmost split once and never looks at what it put in. */
  lemma RenderSubstitutesPieces(template: Text, vars: Vars)
    ensures var ps := Scan(PlaceholderLength, template);
      && Print(ps) == template && Leftmost(PlaceholderLength, ps)
      && (RenderPrompt(template, vars).Some? <==> forall n | n in Names(ps) :: n in vars)
      && (RenderPrompt(template, vars).Some? ==> RenderPrompt(template, vars).value == Rewrite(Value(vars), ps))
  {
    ScanRoundTrip(PlaceholderLength, template);
    ReplaceIsRewrite(PlaceholderLength, Value(vars), template);
  }

  // Acceptance of a new template

  const CONTENT := T("content")
  const CONTEXT := T("context")
  const NONCE := T("nonce")
  const PROMPT := T("prompt")

  datatype FeatureType = InvocableFeature | PlanningFeature | UnknownFeature

  datatype Rejection = NotAFeature | NotAllowed(inSystem: bool) | Malformed(inSystem: bool) | RequiredMissing

  function AllowedPlaceholders(f: FeatureType): set<Name> {
    if f.PlanningFeature? then {PROMPT, CONTEXT, NONCE} else {CONTENT, CONTEXT, NONCE}
  }

  function RequiredPlaceholder(f: FeatureType): Name {
    if f.PlanningFeature? then PROMPT else CONTENT
  }

  /** `{{` or `}}` anywhere. */
  predicate HasDoubleBrace(s: Text) {
    exists i :: 0 <= i < |s| - 1 && s[i] == s[i + 1] && s[i] in {LEFT_BRACE, RIGHT_BRACE}
  }

  function Erase(): Text -> Text {
    (p: Text) => []
  }

  function CheckTemplate(template: Text, allowed: set<Name>, inSystem: bool): Option<Rejection> {
    if exists n :: n in Names(Scan(PlaceholderLength, template)) && n !in allowed then Some(NotAllowed(inSystem))
    else if HasDoubleBrace(Replace(PlaceholderLength, Erase(), template)) then Some(Malformed(inSystem))
    else None
  }

  /** The checks of `CreatePromptUseCase.execute`, in its order; `None` accepts. */
  function CheckPrompt(f: FeatureType, system: Text, user: Text): Option<Rejection> {
    if f.UnknownFeature? then Some(NotAFeature)
    else
      var s, u := CheckTemplate(system, {NONCE}, true), CheckTemplate(user, AllowedPlaceholders(f), false);
      if s.Some? then s
      else if u.Some? then u
      else if RequiredPlaceholder(f) !in Names(Scan(PlaceholderLength, user)) then Some(RequiredMissing)
      else None
  }

  /** The variables the two callers render with. */
  function InvocableVars(content: Text, context: Text, nonce: Text): Vars {
    map[CONTENT := content, CONTEXT := context, NONCE := nonce]
  }

  function PlanningVars(prompt: Text, context: Text, nonce: Text): Vars {
    map[PROMPT := prompt, CONTEXT := context, NONCE := nonce]
  }

  ghost predicate ContainsText(s: Text, part: Text) {
    exists i, j :: 0 <= i <= j <= |s| && s[i..j] == part
  }

  lemma {:induction false} SubstitutedValueAppears(f: Text -> Text, ps: Pieces, value: Text, name: Name)
    requires name in Names(ps) && forall p: Text | NameOf(p) == name :: f(p) == value
    ensures ContainsText(Rewrite(f, ps), value)
  {
    match ps
    case Plain(u, rest) =>
      SubstitutedValueAppears(f, rest, value, name);
      Shift([u], Rewrite(f, rest), value);
    case Hit(h, rest) =>
      if NameOf(h) == name {
        assert Rewrite(f, ps)[0..|value|] == value;
      } else {
        SubstitutedValueAppears(f, rest, value, name);
        Shift(f(h), Rewrite(f, rest), value);
      }
  }

  lemma Shift(front: Text, s: Text, part: Text)
    requires ContainsText(s, part)
    ensures ContainsText(front + s, part)
  {
    var i, j :| 0 <= i <= j <= |s| && s[i..j] == part;
    assert (front + s)[|front| + i..|front| + j] == part;
  }

  /** No two neighbouring literal units form `{{` or `}}`. */
  predicate NoStrayBraces(ps: Pieces) {
    match ps
    case End => true
    case Hit(_, rest) => NoStrayBraces(rest)
    case Plain(u, rest) => !(rest.Plain? && rest.unit == u && u in {LEFT_BRACE, RIGHT_BRACE}) && NoStrayBraces(rest)
  }

  lemma DoubleBraceBehind(u: Unit, s: Text)
    ensures HasDoubleBrace(s) ==> HasDoubleBrace([u] + s)
  {
    if HasDoubleBrace(s) {
      var i :| 0 <= i < |s| - 1 && s[i] == s[i + 1] && s[i] in {LEFT_BRACE, RIGHT_BRACE};
      assert ([u] + s)[i + 1] == ([u] + s)[i + 1 + 1];
    }
  }

  lemma {:induction false} ErasedHasNoStray(ps: Pieces)
    requires !HasDoubleBrace(Rewrite(Erase(), ps))
    ensures NoStrayBraces(ps)
  {
    var s := Rewrite(Erase(), ps);
    match ps
    case End =>
    case Hit(h, rest) =>
      assert s == Rewrite(Erase(), rest);
      ErasedHasNoStray(rest);
    case Plain(u, rest) =>
      var t := Rewrite(Erase(), rest);
      assert s == [u] + t;
      DoubleBraceBehind(u, t);
      ErasedHasNoStray(rest);
      assert rest.Plain? && rest.unit == u ==> s[0] == s[0 + 1] == u;
  }

  /** A template that was accepted cannot fail to render with any variables for all allowed names, and no literal
      brace pair of it reaches the model. */
  lemma AcceptedTemplateRenders(template: Text, allowed: set<Name>, inSystem: bool, vars: Vars)
    requires CheckTemplate(template, allowed, inSystem).None? && allowed <= vars.Keys
    ensures RenderPrompt(template, vars).Some? && NoStrayBraces(Scan(PlaceholderLength, template))
  {
    ReplaceIsRewrite(PlaceholderLength, Erase(), template);
    ErasedHasNoStray(Scan(PlaceholderLength, template));
  }

  lemma RequiredValueRendered(template: Text, vars: Vars, name: Name)
    requires name in Names(Scan(PlaceholderLength, template)) && name in vars && RenderPrompt(template, vars).Some?
    ensures ContainsText(RenderPrompt(template, vars).value, vars[name])
  {
    RenderSubstitutesPieces(template, vars);
    SubstitutedValueAppears(Value(vars), Scan(PlaceholderLength, template), vars[name], name);
  }

  /** Every accepted pair of templates of a user-invocable feature renders for every request, and the user message
      holds the whole prepared section text. */
  lemma AcceptedInvocableRenders(f: FeatureType, system: Text, user: Text, content: Text, context: Text, nonce: Text)
    requires !f.PlanningFeature? && CheckPrompt(f, system, user).None?
    ensures var vars := InvocableVars(content, context, nonce);
      && RenderPrompt(system, vars).Some? && RenderPrompt(user, vars).Some?
      && ContainsText(RenderPrompt(user, vars).value, content)
  {
    var vars := InvocableVars(content, context, nonce);
    assert CONTENT[5] != CONTEXT[5];
    AcceptedTemplateRenders(system, {NONCE}, true, vars);
    AcceptedTemplateRenders(user, AllowedPlaceholders(f), false, vars);
    RequiredValueRendered(user, vars, CONTENT);
  }

  /** The same for the planning prompt and the user's request. */
  lemma AcceptedPlanningRenders(system: Text, user: Text, prompt: Text, context: Text, nonce: Text)
    requires CheckPrompt(PlanningFeature, system, user).None?
    ensures var vars := PlanningVars(prompt, context, nonce);
      && RenderPrompt(system, vars).Some? && RenderPrompt(user, vars).Some?
      && ContainsText(RenderPrompt(user, vars).value, prompt)
  {
    var vars := PlanningVars(prompt, context, nonce);
    AcceptedTemplateRenders(system, {NONCE}, true, vars);
    AcceptedTemplateRenders(user, AllowedPlaceholders(PlanningFeature), false, vars);
    RequiredValueRendered(user, vars, PROMPT);
  }

  // Which templates are accepted

  /** The units that belong to no placeholder. */
  function Literal(ps: Pieces): Text {
    match ps
    case End => []
    case Plain(u, rest) => [u] + Literal(rest)
    case Hit(_, rest) => Literal(rest)
  }

  lemma {:induction false} ErasedIsLiteral(ps: Pieces)
    ensures Rewrite(Erase(), ps) == Literal(ps)
  {
    match ps
    case End =>
    case Plain(_, rest) => ErasedIsLiteral(rest);
    case Hit(_, rest) => ErasedIsLiteral(rest);
  }

  /** Every name is allowed, and no two braces are left when the placeholders are taken out. */
  predicate Clean(template: Text, allowed: set<Name>) {
    var ps := Scan(PlaceholderLength, template);
    (forall n | n in Names(ps) :: n in allowed) && !HasDoubleBrace(Literal(ps))
  }

  lemma CheckedTemplate(template: Text, allowed: set<Name>, inSystem: bool)
    ensures var ps := Scan(PlaceholderLength, template); var r := CheckTemplate(template, allowed, inSystem);
      && (r == None <==> Clean(template, allowed))
      && (r == Some(NotAllowed(inSystem)) <==> exists n :: n in Names(ps) && n !in allowed)
      && (r.Some? ==> r.value == NotAllowed(inSystem) || r.value == Malformed(inSystem))
  {
    ReplaceIsRewrite(PlaceholderLength, Erase(), template);
    ErasedIsLiteral(Scan(PlaceholderLength, template));
  }

  /** The names a user template of the feature may hold, the required one first. */
  function UserNames(f: FeatureType): seq<Name> {
    [if f == PlanningFeature then T("prompt") else T("content"), T("context"), T("nonce")]
  }

  lemma NamesOf(f: FeatureType, n: Name)
    ensures n in AllowedPlaceholders(f) <==> n in UserNames(f)
    ensures RequiredPlaceholder(f) == UserNames(f)[0]
  {
  }

  /** A pair is accepted exactly for a known feature when the system template holds no placeholder but `nonce`, the user
      template holds the feature's own one and otherwise only `context` and `nonce`, and neither has two braces outside its
      placeholders. */
  lemma AcceptedExactly(f: FeatureType, system: Text, user: Text)
    ensures CheckPrompt(f, system, user) == None <==>
      && f != UnknownFeature && Clean(system, {T("nonce")})
      && Clean(user, set n | n in UserNames(f)) && UserNames(f)[0] in Names(Scan(PlaceholderLength, user))
    ensures CheckPrompt(f, system, user) == Some(NotAFeature) <==> f == UnknownFeature
    ensures CheckPrompt(f, system, user) in {Some(NotAllowed(true)), Some(Malformed(true))} <==>
      f != UnknownFeature && !Clean(system, {T("nonce")})
    ensures CheckPrompt(f, system, user) in {Some(NotAllowed(false)), Some(Malformed(false))} <==>
      f != UnknownFeature && Clean(system, {T("nonce")}) && !Clean(user, set n | n in UserNames(f))
  {
    CheckedTemplate(system, {NONCE}, true);
    CheckedTemplate(user, AllowedPlaceholders(f), false);
    forall n ensures n in AllowedPlaceholders(f) <==> n in UserNames(f) {
      NamesOf(f, n);
    }
    NamesOf(f, []);
    assert (set n | n in UserNames(f)) == AllowedPlaceholders(f);
  }
}
