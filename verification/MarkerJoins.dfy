/** Fence markers of texts put together from parts: where a join can complete a marker and where it cannot. */
module MarkerJoins {
  import opened Utf16
  import opened Scanning
  import opened PromptGuards

  /** After any white space comes a unit that no marker has after its `<`. */
  predicate Stops(s: Text) {
    s != [] && if IsSpace(s[0]) then Stops(s[1..]) else !IsInner(s[0]) && s[0] != UNDERSCORE
  }

  lemma {:induction false} StopsNoLaterThan(s: Text) returns (n: nat)
    requires Stops(s)
    ensures n < |s| && !IsInner(s[n]) && s[n] != UNDERSCORE
    ensures forall i | 0 <= i < n :: IsSpace(s[i])
  {
    n := 0;
    if IsSpace(s[0]) {
      n := StopsNoLaterThan(s[1..]);
      n := n + 1;
    }
  }

  /** A join where no marker can reach across: nothing on the left opens one, the left ends one, or the right
      stops every one. */
  predicate SafeJoin(a: Text, b: Text) {
    LESS !in a || (a != [] && a[|a| - 1] == UNDERSCORE) || Stops(b)
  }

  lemma StopsAll(a: Text, b: Text, k: nat, e: nat)
    requires Stops(b) && k < |a| <= e
    ensures !MarkedAt(a + b, k, e)
  {
    var n := StopsNoLaterThan(b);
    var s := a + b;
    assert s[|a| + n] == b[n];
    assert forall i | |a| <= i < |a| + n :: s[i] == b[i - |a|];
    if MarkedAt(s, k, e) {
      MarkedShape(s, k, e);
    }
  }

  lemma SafeJoinSeparates(a: Text, b: Text, k: nat, e: nat)
    requires SafeJoin(a, b) && k < |a| <= e
    ensures !MarkedAt(a + b, k, e)
  {
    var s := a + b;
    assert s[k] == a[k] && s[|a| - 1] == a[|a| - 1];
    if Stops(b) {
      StopsAll(a, b, k, e);
    } else if MarkedAt(s, k, e) {
      MarkedShape(s, k, e);
    }
  }

  /** The markers of a safe join are those of the two parts. */
  lemma JoinEnds(a: Text, b: Text, e: nat)
    requires SafeJoin(a, b)
    ensures EndsMarker(a + b, e) <==> if e < |a| then EndsMarker(a, e) else EndsMarker(b, e - |a|)
  {
    var s := a + b;
    if e < |a| {
      forall k: nat
        ensures MarkedAt(s, k, e) <==> MarkedAt(a, k, e)
      {
        if k <= e {
          assert s[k..e + 1] == a[k..e + 1];
        }
      }
    } else {
      assert s[|a|..] == b;
      forall k: nat | k < |a|
        ensures !MarkedAt(s, k, e)
      {
        SafeJoinSeparates(a, b, k, e);
      }
      EndsBehind(s, |a|, e);
    }
  }

  lemma NothingOpened(s: Text)
    requires LESS !in s
    ensures FreeOfMarkers(s)
  {
  }

  // Reading a marker from the left

  /** What a marker still needs after `</`. */
  predicate CompletesClosing(s: Text) {
    s != [] && if IsSpace(s[0]) then CompletesClosing(s[1..]) else WordAt(s, 0)
  }

  /** What a marker still needs after `<`. */
  predicate CompletesOpening(s: Text) {
    && s != []
    && if IsSpace(s[0]) then CompletesOpening(s[1..])
       else if s[0] == SLASH then CompletesClosing(s[1..]) else WordAt(s, 0)
  }

  predicate HasMarker(s: Text) {
    s != [] && ((s[0] == LESS && CompletesOpening(s[1..])) || HasMarker(s[1..]))
  }

  lemma {:induction false} ClosingRun(s: Text, from: nat)
    requires from <= |s|
    ensures CompletesClosing(s[from..]) <==> WordAt(s, RunTo(IsSpace, s, from))
    decreases |s| - from
  {
    if from < |s| && IsSpace(s[from]) {
      assert s[from..][1..] == s[from + 1..];
      ClosingRun(s, from + 1);
    } else {
      WordBehind(s, from);
    }
  }

  lemma WordBehind(s: Text, n: nat)
    requires n <= |s|
    ensures WordAt(s[n..], 0) <==> WordAt(s, n)
  {
  }

  /** The rest of a marker from `from` on, read by position. */
  predicate RestAt(s: Text, a: nat)
    requires a <= |s|
  {
    if a < |s| && s[a] == SLASH then WordAt(s, RunTo(IsSpace, s, a + 1)) else WordAt(s, a)
  }

  lemma RestHere(s: Text, a: nat)
    requires a <= |s| && (a < |s| ==> !IsSpace(s[a]))
    ensures CompletesOpening(s[a..]) <==> RestAt(s, a)
  {
    if a < |s| {
      assert s[a..][1..] == s[a + 1..];
      if s[a] == SLASH {
        ClosingRun(s, a + 1);
      } else {
        WordBehind(s, a);
      }
    }
  }

  lemma {:induction false} OpeningRun(s: Text, from: nat)
    requires from <= |s|
    ensures CompletesOpening(s[from..]) <==> RestAt(s, RunTo(IsSpace, s, from))
    decreases |s| - from
  {
    if from < |s| && IsSpace(s[from]) {
      assert s[from..][1..] == s[from + 1..];
      OpeningRun(s, from + 1);
    } else {
      RestHere(s, from);
    }
  }

  lemma MatchesFromLeft(s: Text)
    ensures MarkerLength(s) > 0 <==> s != [] && s[0] == LESS && CompletesOpening(s[1..])
  {
    if s != [] {
      OpeningRun(s, 1);
    }
  }

  lemma FreeFromHere(s: Text)
    requires s != [] && FreeOfMarkers(s)
    ensures MarkerLength(s) == 0 && FreeOfMarkers(s[1..])
  {
    var n := MarkerLength(s);
    if n > 0 {
      MatcherExact(s, n);
      assert s[0..n - 1 + 1] == s[..n];
      assert MarkedAt(s, 0, n - 1);
    }
    forall k: nat, e: nat
      ensures !MarkedAt(s[1..], k, e)
    {
      MarkedBehind(s, 1, k, e);
    }
  }

  lemma FreeBehind(s: Text)
    requires s != [] && MarkerLength(s) == 0 && FreeOfMarkers(s[1..])
    ensures FreeOfMarkers(s)
  {
    forall k: nat, e: nat
      ensures !MarkedAt(s, k, e)
    {
      if MarkedAt(s, k, e) {
        MarkedShape(s, k, e);
        if k == 0 {
          assert s[0..e + 1] == s[..e + 1];
          MatcherExact(s, e + 1);
        } else {
          MarkedBehind(s, 1, k - 1, e - 1);
        }
      }
    }
  }

  /** Reading from the left finds a marker exactly when some stretch of the text is one. */
  lemma {:induction false} HasMarkerExact(s: Text)
    ensures HasMarker(s) <==> !FreeOfMarkers(s)
  {
    if s == [] {
      NothingOpened(s);
    } else {
      HasMarkerExact(s[1..]);
      MatchesFromLeft(s);
      if FreeOfMarkers(s) {
        FreeFromHere(s);
      } else if MarkerLength(s) == 0 && FreeOfMarkers(s[1..]) {
        FreeBehind(s);
      }
    }
  }

  // A line break between two texts, each free of markers

  predicate AllSpace(s: Text) {
    s == [] || (IsSpace(s[0]) && AllSpace(s[1..]))
  }

  predicate SlashAmongSpaces(s: Text) {
    s != [] && if IsSpace(s[0]) then SlashAmongSpaces(s[1..]) else s[0] == SLASH && AllSpace(s[1..])
  }

  /** The text ends with `<` and perhaps white space. */
  predicate EndsOpen(s: Text) {
    s != [] && ((s[0] == LESS && AllSpace(s[1..])) || EndsOpen(s[1..]))
  }

  /** The text ends with `</`, white space allowed after either unit. */
  predicate EndsOpenSlash(s: Text) {
    s != [] && ((s[0] == LESS && SlashAmongSpaces(s[1..])) || EndsOpenSlash(s[1..]))
  }

  /** The end of one text and the start of the next are the two parts of a marker. */
  predicate CompletesMarker(before: Text, after: Text) {
    (EndsOpen(before) && CompletesOpening(after)) || (EndsOpenSlash(before) && CompletesClosing(after))
  }

  /** Two texts with a line break between them. */
  function Lines(a: Text, b: Text): Text {
    a + ([NEWLINE] + b)
  }

  lemma LinesBehind(a: Text, b: Text)
    ensures a == [] ==> Lines(a, b) != [] && Lines(a, b)[0] == NEWLINE && Lines(a, b)[1..] == b
    ensures a != [] ==> Lines(a, b)[0] == a[0] && Lines(a, b)[1..] == Lines(a[1..], b)
  {
  }

  lemma WordBeforeBreak(a: Text, b: Text)
    ensures WordAt(Lines(a, b), 0) <==> WordAt(a, 0)
  {
    UntrustedIsLetters();
    var s := Lines(a, b);
    assert forall i | 0 <= i < |a| :: s[i] == a[i];
    assert s[|a|] == NEWLINE;
  }

  lemma {:induction false} ClosingBeforeBreak(a: Text, b: Text)
    ensures CompletesClosing(Lines(a, b)) <==> CompletesClosing(a) || (AllSpace(a) && CompletesClosing(b))
  {
    LinesBehind(a, b);
    if a != [] {
      if IsSpace(a[0]) {
        ClosingBeforeBreak(a[1..], b);
      } else {
        WordBeforeBreak(a, b);
      }
    }
  }

  lemma {:induction false} OpeningBeforeBreak(a: Text, b: Text)
    ensures CompletesOpening(Lines(a, b)) <==>
      || CompletesOpening(a)
      || (AllSpace(a) && CompletesOpening(b))
      || (SlashAmongSpaces(a) && CompletesClosing(b))
  {
    LinesBehind(a, b);
    if a != [] {
      if IsSpace(a[0]) {
        OpeningBeforeBreak(a[1..], b);
      } else if a[0] == SLASH {
        ClosingBeforeBreak(a[1..], b);
      } else {
        WordBeforeBreak(a, b);
      }
    }
  }

  /** The lines show a marker exactly when one of them does or the break lies inside one. */
  lemma {:induction false} MarkerAcrossBreak(a: Text, b: Text)
    ensures HasMarker(Lines(a, b)) <==> HasMarker(a) || HasMarker(b) || CompletesMarker(a, b)
  {
    LinesBehind(a, b);
    if a != [] {
      MarkerAcrossBreak(a[1..], b);
      OpeningBeforeBreak(a[1..], b);
    }
  }

  lemma {:induction false} MarkerAfterFront(a: Text, b: Text)
    requires LESS !in a
    ensures HasMarker(a + b) <==> HasMarker(b)
  {
    if a == [] {
      assert a + b == b;
    } else {
      MarkerAfterFront(a[1..], b);
      assert (a + b)[1..] == a[1..] + b;
    }
  }

  lemma MarkerOfSafeJoin(a: Text, b: Text)
    requires SafeJoin(a, b)
    ensures HasMarker(a + b) <==> HasMarker(a) || HasMarker(b)
  {
    HasMarkerIsEnd(a);
    HasMarkerIsEnd(b);
    HasMarkerIsEnd(a + b);
    if e: nat :| EndsMarker(a + b, e) {
      JoinEnds(a, b, e);
    }
    if e: nat :| EndsMarker(a, e) {
      var k: nat :| MarkedAt(a, k, e);
      JoinEnds(a, b, e);
    }
    if e: nat :| EndsMarker(b, e) {
      JoinEnds(a, b, e + |a|);
    }
  }

  lemma HasMarkerIsEnd(s: Text)
    ensures HasMarker(s) <==> exists e: nat :: EndsMarker(s, e)
  {
    HasMarkerExact(s);
    if k: nat, e: nat :| MarkedAt(s, k, e) {
      assert EndsMarker(s, e);
    }
  }

  lemma FrontOfFree(s: Text, n: nat)
    requires n <= |s| && !HasMarker(s)
    ensures !HasMarker(s[..n])
  {
    HasMarkerExact(s);
    HasMarkerExact(s[..n]);
    forall k: nat, e: nat
      ensures !MarkedAt(s[..n], k, e)
    {
      if k <= e < n {
        assert s[..n][k..e + 1] == s[k..e + 1];
        assert !MarkedAt(s, k, e);
      }
    }
  }

  lemma {:induction false} BackOfFree(s: Text, n: nat)
    requires n <= |s| && !HasMarker(s)
    ensures !HasMarker(s[n..])
  {
    if n == 0 {
      assert s[0..] == s;
    } else {
      BackOfFree(s[1..], n - 1);
      assert s[1..][n - 1..] == s[n..];
    }
  }
}
