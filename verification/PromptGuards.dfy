/** Fence neutralising: no text from outside can carry a mark that opens or closes the untrusted block. */
module PromptGuards {
  import opened Utf16
  import opened Scanning

  const LESS: Unit := 60
  const GREATER: Unit := 62
  const SLASH: Unit := 47
  const UNDERSCORE: Unit := 95
  const HYPHEN: Unit := 45
  const NEWLINE: Unit := 10
  const UNTRUSTED := T("untrusted")

  function Lower(u: Unit): Unit {
    if 65 <= u <= 90 then u + 32 else u
  }

  /** "untrusted_" in any case, at `at`. */
  predicate WordAt(s: Text, at: nat) {
    && at + 10 <= |s|
    && (forall i | at <= i < at + 9 :: Lower(s[i]) == UNTRUSTED[i - at])
    && s[at + 9] == UNDERSCORE
  }

  /** The first `n` units are a marker: `<`, white space up to `a`, perhaps `/` and more white space, the word. */
  predicate IsMarkerUpTo(s: Text, a: nat, n: nat) {
    && 1 <= a && a + 10 <= n <= |s|
    && s[0] == LESS
    && (forall i | 1 <= i < a :: IsSpace(s[i]))
    && (a + 10 < n ==> s[a] == SLASH)
    && (forall i | a < i < n - 10 :: IsSpace(s[i]))
    && WordAt(s, n - 10)
  }

  ghost predicate IsMarker(m: Text) {
    exists a: nat :: IsMarkerUpTo(m, a, |m|)
  }

  /** The expression `(<\s*(?:\/\s*)?untrusted)_` without regard to case, as a matcher. */
  function MarkerLength(s: Text): (n: nat)
    ensures n <= |s|
  {
    if s == [] || s[0] != LESS then 0
    else
      var a := RunTo(IsSpace, s, 1);
      var b := if a < |s| && s[a] == SLASH then RunTo(IsSpace, s, a + 1) else a;
      if WordAt(s, b) then b + 10 else 0
  }

  lemma UntrustedIsLetters()
    ensures |UNTRUSTED| == 9 && forall i | 0 <= i < 9 :: 97 <= UNTRUSTED[i] <= 122
  {
  }

  predicate IsInner(u: Unit) {
    IsSpace(u) || u == SLASH || 65 <= u <= 90 || 97 <= u <= 122
  }

  /** A marker starts with its only `<` and ends with its only `_`. */
  lemma MarkerShape(m: Text)
    requires IsMarker(m)
    ensures |m| >= 11 && m[0] == LESS && m[|m| - 1] == UNDERSCORE
    ensures forall i | 0 < i < |m| - 1 :: IsInner(m[i])
  {
  }

  lemma RunToIs(s: Text, from: nat, to: nat)
    requires from <= to < |s| && (forall i | from <= i < to :: IsSpace(s[i])) && !IsSpace(s[to])
    ensures RunTo(IsSpace, s, from) == to
  {
  }

  lemma WordStarts(s: Text, at: nat)
    requires WordAt(s, at)
    ensures !IsSpace(s[at]) && s[at] != SLASH
  {
  }

  lemma MatcherFinds(s: Text, a: nat, n: nat)
    requires IsMarkerUpTo(s, a, n)
    ensures MarkerLength(s) == n
  {
    var b := n - 10;
    WordStarts(s, b);
    RunToIs(s, 1, a);
    if a < b {
      RunToIs(s, a + 1, b);
    }
  }

  lemma MarkerInFront(s: Text, a: nat, n: nat)
    requires n <= |s|
    ensures IsMarkerUpTo(s[..n], a, n) <==> IsMarkerUpTo(s, a, n)
  {
  }

  lemma MatcherTakes(s: Text)
    requires MarkerLength(s) > 0
    ensures exists a: nat :: IsMarkerUpTo(s, a, MarkerLength(s))
  {
    assert IsMarkerUpTo(s, RunTo(IsSpace, s, 1), MarkerLength(s));
  }

  /** What the greedy matcher takes is a marker, and it takes any marker the text starts with. */
  lemma MatcherExact(s: Text, n: nat)
    requires 0 < n <= |s|
    ensures MarkerLength(s) == n <==> IsMarker(s[..n])
  {
    if MarkerLength(s) == n {
      MatcherTakes(s);
      var a: nat :| IsMarkerUpTo(s, a, n);
      MarkerInFront(s, a, n);
    }
    if IsMarker(s[..n]) {
      var a: nat :| IsMarkerUpTo(s[..n], a, n);
      MarkerInFront(s, a, n);
      MatcherFinds(s, a, n);
    }
  }

  // Neutralising

  /** `$1-`: the match with its underscore turned into a hyphen. */
  function Defuse(): Text -> Text {
    (m: Text) => if m == [] then [] else m[..|m| - 1] + [HYPHEN]
  }

  function Neutralize(s: Text): Text {
    Replace(MarkerLength, Defuse(), s)
  }

  /** The units from `k` to `e`, both included, are a marker. */
  ghost predicate MarkedAt(s: Text, k: nat, e: nat) {
    k <= e < |s| && IsMarker(s[k..e + 1])
  }

  /** The unit at `e` is the last one of some marker of the text. */
  ghost predicate EndsMarker(s: Text, e: nat) {
    exists k: nat :: MarkedAt(s, k, e)
  }

  lemma MarkedBehind(s: Text, n: nat, k: nat, e: nat)
    requires n <= |s|
    ensures MarkedAt(s, n + k, n + e) <==> MarkedAt(s[n..], k, e)
  {
    if k <= e && n + e < |s| {
      assert s[n..][k..e + 1] == s[n + k..n + e + 1];
    }
  }

  lemma MarkedShape(s: Text, k: nat, e: nat)
    requires MarkedAt(s, k, e)
    ensures k + 10 <= e && s[k] == LESS && s[e] == UNDERSCORE
    ensures forall i | k < i < e :: IsInner(s[i])
  {
  }

  /** After `n` units that no marker reaches out of, the same markers end as in the rest alone. */
  lemma EndsBehind(s: Text, n: nat, e: nat)
    requires n <= |s| && n <= e
    requires forall k: nat | k < n :: !MarkedAt(s, k, e)
    ensures EndsMarker(s, e) <==> EndsMarker(s[n..], e - n)
  {
    if EndsMarker(s, e) {
      var k: nat :| MarkedAt(s, k, e);
      MarkedBehind(s, n, k - n, e - n);
    }
    if EndsMarker(s[n..], e - n) {
      var k: nat :| MarkedAt(s[n..], k, e - n);
      MarkedBehind(s, n, k, e - n);
    }
  }

  /** How much of a text the first piece of its split takes. */
  function FirstPiece(s: Text): (n: nat)
    requires s != []
    ensures 0 < n <= |s|
  {
    if MarkerLength(s) == 0 then 1 else MarkerLength(s)
  }

  lemma NothingReachesOut(s: Text, k: nat, e: nat)
    requires s != [] && k < FirstPiece(s) <= e
    ensures !MarkedAt(s, k, e)
  {
    var n := FirstPiece(s);
    if MarkerLength(s) > 0 {
      MatcherExact(s, n);
      MarkerShape(s[..n]);
    }
    assert forall i | 0 < i < n :: s[..n][i] == s[i] != LESS;
    if MarkedAt(s, k, e) {
      MarkedShape(s, k, e);
      MatcherExact(s, e + 1);
    }
  }

  lemma EndsBehindPiece(s: Text, e: nat)
    requires s != [] && FirstPiece(s) <= e
    ensures EndsMarker(s, e) <==> EndsMarker(s[FirstPiece(s)..], e - FirstPiece(s))
  {
    forall k: nat | k < FirstPiece(s)
      ensures !MarkedAt(s, k, e)
    {
      NothingReachesOut(s, k, e);
    }
    EndsBehind(s, FirstPiece(s), e);
  }

  /** A match is a marker from the first unit on. */
  lemma PieceIsMarker(s: Text)
    requires MarkerLength(s) > 0
    ensures MarkedAt(s, 0, MarkerLength(s) - 1)
  {
    var n := MarkerLength(s);
    MatcherExact(s, n);
    assert s[0..n - 1 + 1] == s[..n];
  }

  lemma MarkerEndsPiece(s: Text, e: nat)
    requires s != [] && e < FirstPiece(s) && EndsMarker(s, e)
    ensures MarkerLength(s) > 0 && e == FirstPiece(s) - 1
  {
    var k: nat :| MarkedAt(s, k, e);
    MarkedShape(s, k, e);
    if MarkerLength(s) > 0 {
      var last := MarkerLength(s) - 1;
      PieceIsMarker(s);
      MarkedShape(s, 0, last);
      assert !(0 < e < last);
    }
  }

  lemma EndsInPiece(s: Text, e: nat)
    requires s != [] && e < FirstPiece(s)
    ensures EndsMarker(s, e) <==> MarkerLength(s) > 0 && e == FirstPiece(s) - 1
  {
    if EndsMarker(s, e) {
      MarkerEndsPiece(s, e);
    } else if MarkerLength(s) > 0 {
      PieceIsMarker(s);
    }
  }

  function Neutral(s: Text): Text {
    Rewrite(Defuse(), Scan(MarkerLength, s))
  }

  lemma NeutralStep(s: Text)
    requires s != []
    ensures var n := FirstPiece(s);
      |Neutral(s)| == n + |Neutral(s[n..])| && Neutral(s)[n..] == Neutral(s[n..])
    ensures forall i | 0 <= i < FirstPiece(s) ::
      Neutral(s)[i] == if MarkerLength(s) > 0 && i == FirstPiece(s) - 1 then HYPHEN else s[i]
  {
  }

  lemma {:induction false} SameLength(s: Text)
    ensures |Neutral(s)| == |s|
    decreases |s|
  {
    if s != [] {
      NeutralStep(s);
      SameLength(s[FirstPiece(s)..]);
    }
  }

  lemma {:induction false} NeutralUnit(s: Text, i: nat)
    requires i < |s| == |Neutral(s)|
    ensures Neutral(s)[i] == if EndsMarker(s, i) then HYPHEN else s[i]
    decreases |s|
  {
    var n := FirstPiece(s);
    NeutralStep(s);
    if i < n {
      EndsInPiece(s, i);
    } else {
      NeutralUnit(s[n..], i - n);
      assert Neutral(s)[i] == Neutral(s)[n..][i - n];
      EndsBehindPiece(s, i);
    }
  }

  /** Neutralising keeps the length and every unit, except that the underscore ending a marker (any marker,
      anywhere) becomes a hyphen. */
  lemma NeutralizeExact(s: Text)
    ensures |Neutralize(s)| == |s|
    ensures forall i | 0 <= i < |s| :: Neutralize(s)[i] == if EndsMarker(s, i) then HYPHEN else s[i]
  {
    ReplaceIsRewrite(MarkerLength, Defuse(), s);
    SameLength(s);
    forall i | 0 <= i < |s|
      ensures Neutralize(s)[i] == if EndsMarker(s, i) then HYPHEN else s[i]
    {
      NeutralUnit(s, i);
    }
  }

  ghost predicate FreeOfMarkers(s: Text) {
    forall k: nat, e: nat :: !MarkedAt(s, k, e)
  }

  lemma MarkerOfUnchangedUnits(s: Text, r: Text, k: nat, e: nat)
    requires |r| == |s| && MarkedAt(r, k, e)
    requires forall i | 0 <= i < |s| :: r[i] == s[i] || r[i] == HYPHEN
    ensures MarkedAt(s, k, e)
  {
    MarkedShape(r, k, e);
    assert r[k..e + 1] == s[k..e + 1];
  }

  /** No marker is left anywhere, not even one formed by what the replacement put in. */
  lemma NeutralizedIsFree(s: Text)
    ensures FreeOfMarkers(Neutralize(s))
  {
    var r := Neutralize(s);
    NeutralizeExact(s);
    forall k: nat, e: nat
      ensures !MarkedAt(r, k, e)
    {
      if MarkedAt(r, k, e) {
        MarkedShape(r, k, e);
        MarkerOfUnchangedUnits(s, r, k, e);
      }
    }
  }

  lemma FreeIsUnchanged(s: Text)
    requires FreeOfMarkers(s)
    ensures Neutralize(s) == s
  {
    NeutralizeExact(s);
  }

  /** Neutralising twice is neutralising once, and only marked texts change at all. */
  lemma NeutralizeIdempotent(s: Text)
    ensures Neutralize(Neutralize(s)) == Neutralize(s)
    ensures Neutralize(s) == s <==> FreeOfMarkers(s)
  {
    NeutralizedIsFree(s);
    FreeIsUnchanged(Neutralize(s));
    if FreeOfMarkers(s) {
      FreeIsUnchanged(s);
    }
  }
}
