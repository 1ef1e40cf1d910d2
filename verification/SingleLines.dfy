/** What a title looks like on its one line. */
module SingleLines {
  import opened Utf16
  import opened Scanning
  import opened PromptGuards
  import opened PlanningSources

  predicate IsSolid(u: Unit) {
    !IsSpace(u)
  }

  /** The longest stretches without white space, in order. */
  function WordsOf(s: Text): seq<Text>
    decreases |s|
  {
    var a := RunTo(IsSpace, s, 0);
    if a == |s| then []
    else
      var b := RunTo(IsSolid, s, a);
      assert b > a;
      [s[a..b]] + WordsOf(s[b..])
  }

  function Spaced(words: seq<Text>): Text {
    if words == [] then []
    else if |words| == 1 then words[0]
    else words[0] + ([SPACE] + Spaced(words[1..]))
  }

  predicate StartsSolid(s: Text) {
    s != [] ==> !IsSpace(s[0])
  }

  predicate EndsSolid(s: Text) {
    s != [] ==> !IsSpace(s[|s| - 1])
  }

  lemma {:induction false} RunSuffix(p: Unit -> bool, s: Text, from: nat, at: nat)
    requires from <= at <= |s|
    ensures RunTo(p, s[from..], at - from) == RunTo(p, s, at) - from
    decreases |s| - at
  {
    if at < |s| && p(s[at]) {
      RunSuffix(p, s, from, at + 1);
    }
  }

  lemma WordsStep(s: Text, a: nat, b: nat)
    requires a == RunTo(IsSpace, s, 0) < |s| && b == RunTo(IsSolid, s, a)
    ensures a < b && WordsOf(s) == [s[a..b]] + WordsOf(s[b..])
  {
  }

  lemma NoRun(s: Text)
    requires StartsSolid(s)
    ensures RunTo(IsSpace, s, 0) == 0
  {
  }

  lemma NoWords(s: Text)
    requires RunTo(IsSpace, s, 0) == |s|
    ensures WordsOf(s) == []
  {
  }

  lemma Slices(s: Text, a: nat, b: nat)
    requires a <= b <= |s|
    ensures s[a..][0..b - a] == s[a..b] && s[a..][b - a..] == s[b..]
  {
  }

  lemma SameWords(s: Text, t: Text, a: nat, b: nat, n: nat)
    requires a == RunTo(IsSpace, s, 0) < |s| && b == RunTo(IsSolid, s, a)
    requires 0 == RunTo(IsSpace, t, 0) < |t| && n == RunTo(IsSolid, t, 0)
    requires t[0..n] == s[a..b] && t[n..] == s[b..]
    ensures WordsOf(s) == WordsOf(t)
  {
    WordsStep(s, a, b);
    WordsStep(t, 0, n);
  }

  lemma RunHere(s: Text, t: Text, a: nat, b: nat)
    requires a < |s| && t == s[a..] && b == RunTo(IsSolid, s, a) && !IsSpace(s[a])
    ensures RunTo(IsSpace, t, 0) == 0 && RunTo(IsSolid, t, 0) == b - a
  {
    RunSuffix(IsSolid, s, a, a);
    NoRun(t);
  }

  lemma WordsFrom(s: Text, t: Text, a: nat)
    requires a == RunTo(IsSpace, s, 0) < |s| && t == s[a..]
    ensures WordsOf(s) == WordsOf(t)
  {
    var b := RunTo(IsSolid, s, a);
    RunHere(s, t, a, b);
    Slices(s, a, b);
    SameWords(s, t, a, b, b - a);
  }

  /** Leading white space makes no word. */
  lemma WordsPastSpace(s: Text, a: nat)
    requires a == RunTo(IsSpace, s, 0)
    ensures WordsOf(s) == WordsOf(s[a..])
  {
    if a < |s| {
      WordsFrom(s, s[a..], a);
    } else {
      NoWords(s);
      NoWords(s[a..]);
    }
  }

  lemma {:induction false} CollapseWord(s: Text, n: nat)
    requires n <= |s| && forall i | 0 <= i < n :: !IsSpace(s[i])
    ensures Collapse(s) == s[..n] + Collapse(s[n..])
  {
    if n == 0 {
      assert s[0..] == s;
    } else {
      CollapseStep(s);
      CollapseWord(s[1..], n - 1);
      assert s[1..][n - 1..] == s[n..] && [s[0]] + s[1..][..n - 1] == s[..n];
    }
  }

  function Trail(s: Text): Text {
    if s != [] && IsSpace(s[|s| - 1]) then [SPACE] else []
  }

  lemma SpacedFirst(word: Text, words: seq<Text>)
    ensures Spaced([word] + words) == if words == [] then word else word + ([SPACE] + Spaced(words))
  {
    assert ([word] + words)[1..] == words;
  }

  /** A solid word in front of solid text is solid text. */
  lemma SolidJoin(word: Text, rest: Text)
    requires word != [] && StartsSolid(word) && EndsSolid(word) && EndsSolid(rest) && rest != []
    ensures StartsSolid(word + ([SPACE] + rest)) && EndsSolid(word + ([SPACE] + rest))
  {
  }

  lemma {:induction false} WordsAreSolid(s: Text)
    ensures StartsSolid(Spaced(WordsOf(s))) && EndsSolid(Spaced(WordsOf(s)))
    ensures WordsOf(s) == [] <==> RunTo(IsSpace, s, 0) == |s|
    ensures WordsOf(s) != [] ==> Spaced(WordsOf(s)) != []
    decreases |s|
  {
    var a := RunTo(IsSpace, s, 0);
    if a < |s| {
      var b := RunTo(IsSolid, s, a);
      var w, words := s[a..b], WordsOf(s[b..]);
      WordsStep(s, a, b);
      WordsAreSolid(s[b..]);
      SpacedFirst(w, words);
      assert w[0] == s[a] && w[|w| - 1] == s[b - 1];
      if words != [] {
        SolidJoin(w, Spaced(words));
      }
    }
  }

  /** A text that starts with a word collapses to its words, and a space when it ends with white space. */
  lemma {:induction false} CollapseIs(s: Text)
    requires StartsSolid(s)
    ensures Collapse(s) == Spaced(WordsOf(s)) + Trail(s)
    decreases |s|
  {
    if s != [] {
      var b := RunTo(IsSolid, s, 0);
      assert RunTo(IsSpace, s, 0) == 0 && b > 0;
      CollapseWord(s, b);
      var t := s[b..];
      if t == [] {
        assert WordsOf(t) == [] && s[0..b] == s && s[..b] == s;
      } else {
        AfterWord(s, b, t);
      }
    }
  }

  lemma WordThen(s: Text, b: nat, t: Text, u: Text)
    requires 0 < b < |s| && b == RunTo(IsSolid, s, 0) && RunTo(IsSpace, s, 0) == 0 && t == s[b..]
    requires u == t[RunTo(IsSpace, t, 0)..]
    ensures WordsOf(s) == [s[..b]] + WordsOf(u)
  {
    WordsPastSpace(t, RunTo(IsSpace, t, 0));
    assert s[0..b] == s[..b];
  }

  /** A word, a space and the words after it. */
  lemma {:induction false} GluedWord(word: Text, words: seq<Text>, trail: Text)
    requires words != []
    ensures word + ([SPACE] + (Spaced(words) + trail)) == Spaced([word] + words) + trail
  {
    assert ([word] + words)[1..] == words;
    Associative([SPACE], Spaced(words), trail);
    Associative(word, [SPACE] + Spaced(words), trail);
  }

  lemma TrailAfter(s: Text, t: Text, u: Text, a: nat)
    requires t != [] && |t| <= |s| && t == s[|s| - |t|..] && a == RunTo(IsSpace, t, 0) > 0 && u == t[a..]
    ensures Trail(s) == if u == [] then [SPACE] else Trail(u)
  {
    assert s[|s| - 1] == t[|t| - 1];
    if u != [] {
      assert u[|u| - 1] == t[|t| - 1];
    }
  }

  lemma {:induction false} AfterWord(s: Text, b: nat, t: Text)
    requires 0 < b < |s| && b == RunTo(IsSolid, s, 0) && RunTo(IsSpace, s, 0) == 0 && t == s[b..]
    ensures s[..b] + Collapse(t) == Spaced(WordsOf(s)) + Trail(s)
    decreases |s|, 0
  {
    assert t[0] == s[b];
    CollapseStep(t);
    var a := SpaceRun(t);
    var u := t[a..];
    CollapseIs(u);
    WordThen(s, b, t, u);
    TrailAfter(s, t, u, a);
    WordsAreSolid(u);
    if u != [] {
      assert RunTo(IsSpace, u, 0) == 0;
      GluedWord(s[..b], WordsOf(u), Trail(u));
    }
  }

  /** The first unit that is not white space is the `n`th, if there is one. */
  predicate SolidFrom(t: Text, n: nat) {
    n <= |t| && (forall i | 0 <= i < n :: IsSpace(t[i])) && (n < |t| ==> !IsSpace(t[n]))
  }

  lemma OneStart(t: Text, m: nat, n: nat)
    requires SolidFrom(t, m) && SolidFrom(t, n)
    ensures m == n
  {
  }

  lemma TrimStartIs(front: Text, s: Text)
    requires StartsSolid(s) && forall i | 0 <= i < |front| :: IsSpace(front[i])
    ensures TrimStart(front + s) == s
  {
    var t := front + s;
    assert SolidFrom(t, |front|);
    OneStart(t, |front|, |t| - |TrimStart(t)|);
    assert t[|front|..] == s;
  }

  /** The last unit that is not white space is the one before the `n`th, if there is one. */
  predicate SolidTo(t: Text, n: nat) {
    n <= |t| && (forall i | n <= i < |t| :: IsSpace(t[i])) && (n > 0 ==> !IsSpace(t[n - 1]))
  }

  lemma OneEnd(t: Text, m: nat, n: nat)
    requires SolidTo(t, m) && SolidTo(t, n)
    ensures m == n
  {
  }

  lemma TrimEndIs(s: Text, back: Text)
    requires EndsSolid(s) && forall i | 0 <= i < |back| :: IsSpace(back[i])
    ensures TrimEnd(s + back) == s
  {
    var t := s + back;
    assert SolidTo(t, |s|);
    OneEnd(t, |s|, |TrimEnd(t)|);
    assert t[..|s|] == s;
  }

  lemma TrimIs(front: Text, s: Text, back: Text)
    requires StartsSolid(s) && EndsSolid(s)
    requires (forall i | 0 <= i < |front| :: IsSpace(front[i])) && (forall i | 0 <= i < |back| :: IsSpace(back[i]))
    ensures Trim(front + (s + back)) == s
  {
    if s == [] {
      TrimStartIs(front + back, []);
      assert front + (s + back) == front + back + [];
    } else {
      TrimStartIs(front, s + back);
      TrimEndIs(s, back);
    }
  }

  /** The white space in front collapses to one space at most. */
  lemma CollapseFront(s: Text, t: Text)
    requires t == s[SpaceRun(s)..]
    ensures StartsSolid(t) && Collapse(s) == (if t == s then [] else [SPACE]) + Collapse(t)
  {
    if SpaceRun(s) > 0 {
      CollapseStep(s);
    } else {
      assert t == s && [] + Collapse(t) == Collapse(t);
    }
  }

  /** A single line is the words of the text with one space between any two. */
  lemma {:induction false} SingleLineIsWords(s: Text)
    ensures SingleLine(s) == Spaced(WordsOf(s))
  {
    var t := s[SpaceRun(s)..];
    ReplaceIsRewrite(SpaceRun, OneSpace(), s);
    CollapseFront(s, t);
    WordsPastSpace(s, SpaceRun(s));
    CollapseIs(t);
    WordsAreSolid(t);
    TrimIs(if t == s then [] else [SPACE], Spaced(WordsOf(t)), Trail(t));
  }
}
