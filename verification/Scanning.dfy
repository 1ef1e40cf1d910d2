/** Global replacement of a regular expression. None of the modelled expressions looks behind or matches
    the empty text, so an expression is a function from the text at a position to the length it takes there. */
module Scanning {
  import opened Utf16

  /** The length matched at the start of a text; 0 when there is no match. */
  type Matcher = Text -> nat

  /** A text cut into the matches of an expression and the single units between them. */
  datatype Pieces = End | Plain(unit: Unit, rest: Pieces) | Hit(text: Text, rest: Pieces)

  predicate MatchesHere(m: Matcher, s: Text) {
    0 < m(s) <= |s|
  }

  /** The leftmost, non-overlapping matches of `m` and the units between them. */
  function Scan(m: Matcher, s: Text): Pieces
    decreases |s|
  {
    if s == [] then End
    else if MatchesHere(m, s) then Hit(s[..m(s)], Scan(m, s[m(s)..]))
    else Plain(s[0], Scan(m, s[1..]))
  }

  function Print(ps: Pieces): Text {
    match ps
    case End => []
    case Plain(u, rest) => [u] + Print(rest)
    case Hit(h, rest) => h + Print(rest)
  }

  /** What the pieces become when every match is handed to `f` and nothing else changes. */
  function Rewrite(f: Text -> Text, ps: Pieces): Text {
    match ps
    case End => []
    case Plain(u, rest) => [u] + Rewrite(f, rest)
    case Hit(h, rest) => f(h) + Rewrite(f, rest)
  }

  /** Each piece is what the expression finds where the piece stands, looking at all the text after it. */
  predicate Leftmost(m: Matcher, ps: Pieces) {
    match ps
    case End => true
    case Plain(_, rest) => !MatchesHere(m, Print(ps)) && Leftmost(m, rest)
    case Hit(h, rest) => MatchesHere(m, Print(ps)) && m(Print(ps)) == |h| && Leftmost(m, rest)
  }

  /** Splitting a text and printing the pieces back is the identity, and the pieces are the leftmost ones. */
  lemma {:induction false} ScanRoundTrip(m: Matcher, s: Text)
    ensures Print(Scan(m, s)) == s
    ensures Leftmost(m, Scan(m, s))
    decreases |s|
  {
    if s != [] {
      var n := if MatchesHere(m, s) then m(s) else 1;
      ScanRoundTrip(m, s[n..]);
      assert s == s[..n] + s[n..];
    }
  }

  /** Only one cut is leftmost: printing such pieces and splitting the text again gives them back. */
  lemma {:induction false} ScanOfPrint(m: Matcher, ps: Pieces)
    requires Leftmost(m, ps)
    ensures Scan(m, Print(ps)) == ps
  {
    match ps
    case End =>
    case Plain(u, rest) =>
      ScanOfPrint(m, rest);
      assert Print(ps)[1..] == Print(rest);
    case Hit(h, rest) =>
      ScanOfPrint(m, rest);
      assert Print(ps)[..|h|] == h && Print(ps)[|h|..] == Print(rest);
  }

  /** The matches of a split, in order. */
  function Hits(ps: Pieces): seq<Text> {
    match ps
    case End => []
    case Plain(_, rest) => Hits(rest)
    case Hit(h, rest) => [h] + Hits(rest)
  }

  /** Where they start, when the pieces start at `at`. */
  function Starts(ps: Pieces, at: nat): seq<nat> {
    match ps
    case End => []
    case Plain(_, rest) => Starts(rest, at + 1)
    case Hit(h, rest) => [at] + Starts(rest, at + |h|)
  }

  /** Each of these stretches of the text from `from` on is what the expression takes where it starts, and none starts before
      the one in front of it has ended. */
  predicate MatchesAt(m: Matcher, s: Text, from: nat, hits: seq<Text>, starts: seq<nat>) {
    && |hits| == |starts|
    && (forall k | 0 <= k < |hits| ::
          from <= starts[k] <= |s| && hits[k] <= s[starts[k]..] && m(s[starts[k]..]) == |hits[k]|)
    && (forall j, k | 0 <= j < k < |hits| :: starts[j] + |hits[j]| <= starts[k])
  }

  lemma {:induction false} OneMoreMatch(m: Matcher, s: Text, at: nat, h: Text, hits: seq<Text>, starts: seq<nat>)
    requires at <= |s| && h <= s[at..] && m(s[at..]) == |h| && MatchesAt(m, s, at + |h|, hits, starts)
    ensures MatchesAt(m, s, at, [h] + hits, [at] + starts)
  {
  }

  lemma {:induction false} MatchesFrom(m: Matcher, s: Text, later: nat, sooner: nat, hits: seq<Text>, starts: seq<nat>)
    requires MatchesAt(m, s, later, hits, starts) && sooner <= later
    ensures MatchesAt(m, s, sooner, hits, starts)
  {
  }

  /** What is left of the text behind the first piece. */
  lemma {:induction false} PieceBehind(m: Matcher, s: Text, at: nat, ps: Pieces)
    requires Leftmost(m, ps) && at <= |s| && s[at..] == Print(ps) && ps != End
    ensures var n := if ps.Hit? then |ps.text| else 1;
      && at + n <= |s| && s[at + n..] == Print(ps.rest) && Leftmost(m, ps.rest)
      && (ps.Hit? ==> ps.text <= s[at..] && m(s[at..]) == |ps.text|)
  {
    var n := if ps.Hit? then |ps.text| else 1;
    assert s[at + n..] == s[at..][n..];
  }

  lemma {:induction false} MatchesStand(m: Matcher, s: Text, at: nat, ps: Pieces)
    requires Leftmost(m, ps) && at <= |s| && s[at..] == Print(ps)
    ensures MatchesAt(m, s, at, Hits(ps), Starts(ps, at))
    decreases ps
  {
    match ps
    case End =>
    case Plain(_, rest) =>
      PieceBehind(m, s, at, ps);
      MatchesStand(m, s, at + 1, rest);
      MatchesFrom(m, s, at + 1, at, Hits(rest), Starts(rest, at + 1));
    case Hit(h, rest) =>
      PieceBehind(m, s, at, ps);
      MatchesStand(m, s, at + |h|, rest);
      OneMoreMatch(m, s, at, h, Hits(rest), Starts(rest, at + |h|));
  }

  /** The matches of a split are stretches of the text one after the other, each what the expression takes there. */
  lemma HitsInOrder(m: Matcher, s: Text)
    ensures MatchesAt(m, s, 0, Hits(Scan(m, s)), Starts(Scan(m, s), 0))
  {
    ScanRoundTrip(m, s);
    assert s[0..] == s;
    MatchesStand(m, s, 0, Scan(m, s));
  }

  lemma Associative(a: Text, b: Text, c: Text)
    ensures (a + b) + c == a + (b + c)
  {
  }

  /** The first position at or after `from` where the expression matches; |s| when there is none. */
  function NextMatch(m: Matcher, s: Text, from: nat): (at: nat)
    requires from <= |s|
    ensures from <= at <= |s|
    ensures at < |s| ==> MatchesHere(m, s[at..])
    ensures forall k | from <= k < at :: !MatchesHere(m, s[k..])
    decreases |s| - from
  {
    if from == |s| || MatchesHere(m, s[from..]) then from else NextMatch(m, s, from + 1)
  }

  /** `s.replace(regex, f)` the way the language defines it: an index moves over the original text, the
      unmatched stretch is copied, the replacement is appended, and nothing appended is ever looked at. */
  function ReplaceFrom(m: Matcher, f: Text -> Text, s: Text, from: nat, done: Text): Text
    requires from <= |s|
    decreases |s| - from
  {
    var at := NextMatch(m, s, from);
    if at == |s| then done + s[from..]
    else
      var end := at + m(s[at..]);
      ReplaceFrom(m, f, s, end, done + s[from..at] + f(s[at..end]))
  }

  function Replace(m: Matcher, f: Text -> Text, s: Text): Text {
    ReplaceFrom(m, f, s, 0, [])
  }

  lemma {:induction false} ScanUpTo(m: Matcher, f: Text -> Text, s: Text, from: nat, at: nat)
    requires from <= at <= |s|
    requires forall k | from <= k < at :: !MatchesHere(m, s[k..])
    ensures Rewrite(f, Scan(m, s[from..])) == s[from..at] + Rewrite(f, Scan(m, s[at..]))
    decreases at - from
  {
    var end := Rewrite(f, Scan(m, s[at..]));
    if from == at {
      assert s[from..at] + end == end;
    } else {
      ScanUpTo(m, f, s, from + 1, at);
      assert s[from..][1..] == s[from + 1..];
      Associative([s[from]], s[from + 1..at], end);
      assert s[from..at] == [s[from]] + s[from + 1..at];
    }
  }

  lemma {:induction false} ReplaceFromIsRewrite(m: Matcher, f: Text -> Text, s: Text, from: nat, done: Text)
    requires from <= |s|
    ensures ReplaceFrom(m, f, s, from, done) == done + Rewrite(f, Scan(m, s[from..]))
    decreases |s| - from
  {
    var at := NextMatch(m, s, from);
    ScanUpTo(m, f, s, from, at);
    if at == |s| {
      assert s[from..at] == s[from..];
      assert s[from..at] + [] == s[from..at];
    } else {
      var end := at + m(s[at..]);
      var hit, gap, rest := s[at..end], s[from..at], Rewrite(f, Scan(m, s[end..]));
      ReplaceFromIsRewrite(m, f, s, end, done + gap + f(hit));
      assert s[at..][..m(s[at..])] == hit && s[at..][m(s[at..])..] == s[end..];
      Associative(done + gap, f(hit), rest);
      Associative(done, gap, f(hit) + rest);
    }
  }

  /** The index-driven replacement is one substitution per piece of the split, with no second look. */
  lemma {:induction false} ReplaceIsRewrite(m: Matcher, f: Text -> Text, s: Text)
    ensures Replace(m, f, s) == Rewrite(f, Scan(m, s))
  {
    assert s[0..] == s;
    var all := Rewrite(f, Scan(m, s));
    assert all == [] + all;
    ReplaceFromIsRewrite(m, f, s, 0, []);
  }
}
