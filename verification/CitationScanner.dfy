/** The inline citation expression `[ \t]*\[\s*S\d{1,4}(?:\s*[,;]\s*S\d{1,4})*\s*\]`, without regard to case, as a
    scanner over the text, and the grammar of the texts it matches. */
module CitationScanner {
  import opened Utf16
  import opened Scanning

  const TAB: Unit := 9
  const SPACE: Unit := 32
  const OPEN: Unit := 91
  const CLOSE: Unit := 93

  predicate IsBlank(u: Unit) {
    u == SPACE || u == TAB
  }

  predicate IsLetterS(u: Unit) {
    u == 83 || u == 115
  }

  /** `,` or `;`. */
  predicate IsSeparator(u: Unit) {
    u == 44 || u == 59
  }

  /** What the expression has just read. `BeforeId` follows the bracket or a separator and any white space. */
  datatype Stage = Start | BeforeId | Letter | Digits(count: nat) | AfterId

  datatype Move = Fail | Finish | To(stage: Stage)

  function Ending(u: Unit): Move {
    if IsSpace(u) then To(AfterId)
    else if IsSeparator(u) then To(BeforeId)
    else if u == CLOSE then Finish
    else Fail
  }

  function Advance(q: Stage, u: Unit): Move {
    match q
    case Start => if IsBlank(u) then To(Start) else if u == OPEN then To(BeforeId) else Fail
    case BeforeId => if IsSpace(u) then To(BeforeId) else if IsLetterS(u) then To(Letter) else Fail
    case Letter => if IsDigit(u) then To(Digits(1)) else Fail
    case Digits(n) => if IsDigit(u) && n < 4 then To(Digits(n + 1)) else Ending(u)
    case AfterId => Ending(u)
  }

  /** How many units complete the expression from here; 0 when it fails. No unit leaves a choice, so the greedy
      quantifiers of the expression have nothing to give back. */
  function Run(q: Stage, s: Text): (n: nat)
    ensures n <= |s|
    decreases |s|
  {
    if s == [] then 0
    else
      match Advance(q, s[0])
      case Fail => 0
      case Finish => 1
      case To(next) => if Run(next, s[1..]) == 0 then 0 else Run(next, s[1..]) + 1
  }

  function CitationLength(s: Text): nat {
    Run(Start, s)
  }

  // The grammar

  /** White space, an id, white space, then the bracket or a separator and another id. */
  datatype Ids = Ids(space: Text, letter: Unit, digits: Text, gap: Text, next: Next)

  datatype Next = Closed | More(separator: Unit, ids: Ids)

  predicate AllSpace(s: Text) {
    forall i | 0 <= i < |s| :: IsSpace(s[i])
  }

  predicate AreDigits(s: Text) {
    forall i | 0 <= i < |s| :: IsDigit(s[i])
  }

  predicate ValidIds(l: Ids) {
    && AllSpace(l.space) && IsLetterS(l.letter) && 1 <= |l.digits| <= 4 && AreDigits(l.digits) && AllSpace(l.gap)
    && ValidNext(l.next)
  }

  predicate ValidNext(n: Next) {
    n.More? ==> IsSeparator(n.separator) && ValidIds(n.ids)
  }

  function IdsText(l: Ids): Text {
    l.space + ([l.letter] + (l.digits + (l.gap + NextText(l.next))))
  }

  function NextText(n: Next): Text {
    match n
    case Closed => [CLOSE]
    case More(separator, ids) => [separator] + IdsText(ids)
  }

  /** Blanks, a bracket and a list of ids. */
  datatype Citation = Citation(blanks: Text, ids: Ids)

  predicate Valid(c: Citation) {
    (forall i | 0 <= i < |c.blanks| :: IsBlank(c.blanks[i])) && ValidIds(c.ids)
  }

  function CitationText(c: Citation): Text {
    c.blanks + ([OPEN] + IdsText(c.ids))
  }

  // The scanner accepts every text of the grammar

  lemma {:induction false} RunSpaces(q: Stage, space: Text, rest: Text)
    requires AllSpace(space) && (q.BeforeId? || q.AfterId?)
    ensures Run(q, space + rest) == if Run(q, rest) == 0 then 0 else |space| + Run(q, rest)
  {
    if space == [] {
      assert space + rest == rest;
    } else {
      RunSpaces(q, space[1..], rest);
      assert (space + rest)[1..] == space[1..] + rest;
    }
  }

  lemma {:induction false} RunBlanks(blanks: Text, rest: Text)
    requires forall i | 0 <= i < |blanks| :: IsBlank(blanks[i])
    ensures Run(Start, blanks + rest) == if Run(Start, rest) == 0 then 0 else |blanks| + Run(Start, rest)
  {
    if blanks == [] {
      assert blanks + rest == rest;
    } else {
      RunBlanks(blanks[1..], rest);
      assert (blanks + rest)[1..] == blanks[1..] + rest;
    }
  }

  lemma {:induction false} RunDigits(n: nat, digits: Text, rest: Text)
    requires AreDigits(digits) && n + |digits| <= 4
    ensures Run(Digits(n), digits + rest)
      == if Run(Digits(n + |digits|), rest) == 0 then 0 else |digits| + Run(Digits(n + |digits|), rest)
    decreases |digits|
  {
    if digits == [] {
      assert digits + rest == rest;
    } else {
      RunDigits(n + 1, digits[1..], rest);
      assert (digits + rest)[1..] == digits[1..] + rest;
    }
  }

  /** Digits that no further digit follows are as good as white space after the id. */
  lemma DigitsEnd(n: nat, s: Text)
    requires s != [] ==> !IsDigit(s[0])
    ensures Run(Digits(n), s) == Run(AfterId, s)
  {
  }

  /** A letter asks for one digit more than the digits themselves. */
  lemma LetterRun(letter: Unit, s: Text)
    requires IsLetterS(letter) && s != [] && IsDigit(s[0])
    ensures Run(BeforeId, [letter] + s) == if Run(Digits(0), s) == 0 then 0 else 1 + Run(Digits(0), s)
  {
  }

  lemma RunId(letter: Unit, digits: Text, tail: Text)
    requires IsLetterS(letter) && 1 <= |digits| <= 4 && AreDigits(digits)
    requires tail != [] && !IsDigit(tail[0]) && Run(AfterId, tail) > 0
    ensures Run(BeforeId, [letter] + (digits + tail)) == 1 + |digits| + Run(AfterId, tail)
  {
    DigitsEnd(|digits|, tail);
    RunDigits(0, digits, tail);
    LetterRun(letter, digits + tail);
  }

  lemma {:induction false} RunIds(l: Ids, rest: Text)
    requires ValidIds(l)
    ensures Run(BeforeId, IdsText(l) + rest) == |IdsText(l)| && |IdsText(l)| > 0
    decreases l
  {
    var end := NextText(l.next) + rest;
    RunNext(l.next, rest);
    var tail := l.gap + end;
    RunSpaces(AfterId, l.gap, end);
    assert tail[0] == if l.gap == [] then end[0] else l.gap[0];
    RunId(l.letter, l.digits, tail);
    RunSpaces(BeforeId, l.space, [l.letter] + (l.digits + tail));
    IdsTextThen(l, rest);
  }

  lemma IdsTextThen(l: Ids, rest: Text)
    ensures IdsText(l) + rest == l.space + ([l.letter] + (l.digits + (l.gap + (NextText(l.next) + rest))))
  {
  }

  lemma {:induction false} RunNext(n: Next, rest: Text)
    requires ValidNext(n)
    ensures Run(AfterId, NextText(n) + rest) == |NextText(n)| && |NextText(n)| > 0
    ensures !IsDigit((NextText(n) + rest)[0])
    decreases n
  {
    if n.More? {
      RunIds(n.ids, rest);
      assert (NextText(n) + rest)[1..] == IdsText(n.ids) + rest;
    }
  }

  /** The scanner takes the whole of a citation, whatever follows it. */
  lemma CitationIsTaken(c: Citation, rest: Text)
    requires Valid(c)
    ensures CitationLength(CitationText(c) + rest) == |CitationText(c)|
  {
    var ids := IdsText(c.ids) + rest;
    RunIds(c.ids, rest);
    assert ([OPEN] + ids)[1..] == ids;
    RunBlanks(c.blanks, [OPEN] + ids);
    assert CitationText(c) + rest == c.blanks + ([OPEN] + ids);
  }

  // Every text the scanner accepts is one of the grammar

  lemma IdsAfterSpace(u: Unit, l: Ids)
    ensures IdsText(l.(space := [u] + l.space)) == [u] + IdsText(l)
  {
    Associative([u], l.space, [l.letter] + (l.digits + (l.gap + NextText(l.next))));
  }

  lemma IdsOfLetter(letter: Unit, digit: Unit, digits: Text, gap: Text, next: Next)
    ensures IdsText(Ids([], letter, [digit] + digits, gap, next)) == [letter] + ([digit] + (digits + (gap + NextText(next))))
  {
    var end := gap + NextText(next);
    Associative([digit], digits, end);
    assert [] + ([letter] + ([digit] + (digits + end))) == [letter] + ([digit] + (digits + end));
  }

  lemma {:induction false} AfterIdIsNext(s: Text) returns (gap: Text, next: Next)
    requires Run(AfterId, s) > 0
    ensures AllSpace(gap) && ValidNext(next) && s[..Run(AfterId, s)] == gap + NextText(next)
    decreases |s|, 0
  {
    var n := Run(AfterId, s);
    assert n > 1 ==> s[..n] == [s[0]] + s[1..][..n - 1];
    if IsSpace(s[0]) {
      gap, next := AfterIdIsNext(s[1..]);
      gap := [s[0]] + gap;
    } else if IsSeparator(s[0]) {
      var ids := BeforeIdIsIds(s[1..]);
      gap, next := [], More(s[0], ids);
      assert [] + NextText(next) == NextText(next);
    } else {
      gap, next := [], Closed;
      assert s[..n] == [] + [CLOSE];
    }
  }

  lemma {:induction false} DigitsAreDigits(k: nat, s: Text) returns (digits: Text, gap: Text, next: Next)
    requires Run(Digits(k), s) > 0 && k <= 4
    ensures k + |digits| <= 4 && AreDigits(digits) && AllSpace(gap) && ValidNext(next)
    ensures s[..Run(Digits(k), s)] == digits + (gap + NextText(next))
    decreases |s|, 1
  {
    var n := Run(Digits(k), s);
    if IsDigit(s[0]) && k < 4 {
      digits, gap, next := DigitsAreDigits(k + 1, s[1..]);
      assert s[..n] == [s[0]] + s[1..][..n - 1];
      Associative([s[0]], digits, gap + NextText(next));
      digits := [s[0]] + digits;
    } else {
      assert Run(AfterId, s) == n;
      gap, next := AfterIdIsNext(s);
      digits := [];
      assert [] + (gap + NextText(next)) == gap + NextText(next);
    }
  }

  lemma {:induction false} BeforeIdIsIds(s: Text) returns (l: Ids)
    requires Run(BeforeId, s) > 0
    ensures ValidIds(l) && s[..Run(BeforeId, s)] == IdsText(l)
    decreases |s|, 0
  {
    var n := Run(BeforeId, s);
    assert s[..n] == [s[0]] + s[1..][..n - 1];
    if IsSpace(s[0]) {
      l := BeforeIdIsIds(s[1..]);
      IdsAfterSpace(s[0], l);
      l := l.(space := [s[0]] + l.space);
    } else {
      var digits, gap, next := DigitsAreDigits(1, s[2..]);
      assert s[1..][1..] == s[2..];
      assert s[1..][..n - 1] == [s[1]] + s[2..][..n - 2];
      IdsOfLetter(s[0], s[1], digits, gap, next);
      l := Ids([], s[0], [s[1]] + digits, gap, next);
    }
  }

  lemma {:induction false} StartIsCitation(s: Text) returns (c: Citation)
    requires CitationLength(s) > 0
    ensures Valid(c) && s[..CitationLength(s)] == CitationText(c)
    decreases |s|
  {
    var n := CitationLength(s);
    assert s[..n] == [s[0]] + s[1..][..n - 1];
    if IsBlank(s[0]) {
      c := StartIsCitation(s[1..]);
      c := c.(blanks := [s[0]] + c.blanks);
    } else {
      var l := BeforeIdIsIds(s[1..]);
      c := Citation([], l);
      assert [] + ([OPEN] + IdsText(l)) == [OPEN] + IdsText(l);
    }
  }

  ghost predicate IsCitation(s: Text) {
    exists c :: Valid(c) && CitationText(c) == s
  }

  /** The scanner takes exactly the citation a text starts with; there is never more than one choice. */
  lemma CitationExact(s: Text, n: nat)
    requires 0 < n <= |s|
    ensures CitationLength(s) == n <==> IsCitation(s[..n])
  {
    if CitationLength(s) == n {
      var c := StartIsCitation(s);
    }
    if IsCitation(s[..n]) {
      var c :| Valid(c) && CitationText(c) == s[..n];
      CitationIsTaken(c, s[n..]);
      assert s == s[..n] + s[n..];
    }
  }
}
