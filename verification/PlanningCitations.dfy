/** Making a plan's citations agree with the sources it was given. */
module PlanningCitations {
  import opened Utf16
  import opened Scanning
  import opened Options
  import opened CitationScanner
  import PromptTemplates
  import opened FirstPlaces
  import Decimals

  type Id = Text

  // The ids inside a citation

  /** The expression `S(\d{1,4})` without regard to case, as a matcher. */
  function InlineIdLength(s: Text): nat {
    if s == [] || !IsLetterS(s[0]) then 0
    else
      var digits := RunTo(IsDigit, s, 1) - 1;
      if digits == 0 then 0 else if digits > 4 then 5 else 1 + digits
  }

  /** `S${Number(digits)}`. */
  function NumberId(digits: Text): Id {
    if Decimals.AllDigits(digits) then [83] + Decimals.Print(Decimals.Read(digits)) else []
  }

  function HitIds(ps: Pieces): seq<Id> {
    match ps
    case End => []
    case Plain(_, rest) => HitIds(rest)
    case Hit(h, rest) => [if h == [] then [] else NumberId(h[1..])] + HitIds(rest)
  }

  /** The ids of a text as `matchAll` finds them. */
  function IdsIn(s: Text): seq<Id> {
    HitIds(Scan(InlineIdLength, s))
  }

  /** The ids of a parsed list. */
  function ListIds(l: Ids): seq<Id> {
    [NumberId(l.digits)] + match l.next case Closed => [] case More(_, ids) => ListIds(ids)
  }

  lemma NoIdAt(u: Unit, rest: Text)
    requires !IsLetterS(u)
    ensures IdsIn([u] + rest) == IdsIn(rest)
  {
  }

  lemma {:induction false} NoIdIn(front: Text, rest: Text)
    requires forall i | 0 <= i < |front| :: !IsLetterS(front[i])
    ensures IdsIn(front + rest) == IdsIn(rest)
  {
    if front == [] {
      assert front + rest == rest;
    } else {
      var t := front[1..] + rest;
      assert front + rest == [front[0]] + t;
      NoIdAt(front[0], t);
      NoIdIn(front[1..], rest);
    }
  }

  lemma RunToIs(s: Text, from: nat, to: nat)
    requires from <= to <= |s| && (forall i | from <= i < to :: IsDigit(s[i])) && (to < |s| ==> !IsDigit(s[to]))
    ensures RunTo(IsDigit, s, from) == to
  {
  }

  lemma IdThen(letter: Unit, digits: Text, rest: Text)
    requires IsLetterS(letter) && 1 <= |digits| <= 4 && AreDigits(digits) && (rest != [] ==> !IsDigit(rest[0]))
    ensures IdsIn([letter] + (digits + rest)) == [NumberId(digits)] + IdsIn(rest)
  {
    var n, s := |digits| + 1, [letter] + (digits + rest);
    RunToIs(s, 1, n);
    assert s[..n] == [letter] + digits && s[n..] == rest;
    assert ([letter] + digits)[1..] == digits;
  }

  lemma SpaceIsNoId(s: Text)
    requires AllSpace(s)
    ensures forall i | 0 <= i < |s| :: !IsLetterS(s[i])
  {
  }

  /** Every id the scan of a citation finds is one of its list, in the same order. */
  lemma {:induction false} IdsOfList(l: Ids)
    requires ValidIds(l)
    ensures IdsIn(IdsText(l)) == ListIds(l)
    decreases l
  {
    var end := NextText(l.next);
    var tail := l.gap + end;
    IdsOfNext(l.next);
    SpaceIsNoId(l.gap);
    NoIdIn(l.gap, end);
    assert tail != [] ==> tail[0] == if l.gap == [] then end[0] else l.gap[0];
    IdThen(l.letter, l.digits, tail);
    SpaceIsNoId(l.space);
    NoIdIn(l.space, [l.letter] + (l.digits + tail));
  }

  lemma {:induction false} IdsOfNext(n: Next)
    requires ValidNext(n)
    ensures IdsIn(NextText(n)) == match n case Closed => [] case More(_, ids) => ListIds(ids)
    ensures NextText(n) != [] && !IsDigit(NextText(n)[0])
    decreases n
  {
    match n
    case Closed =>
      NoIdIn([CLOSE], []);
      assert [CLOSE] + [] == [CLOSE];
    case More(separator, ids) =>
      IdsOfList(ids);
      NoIdIn([separator], IdsText(ids));
  }

  lemma IdsOfCitation(c: Citation)
    requires Valid(c)
    ensures IdsIn(CitationText(c)) == ListIds(c.ids)
  {
    IdsOfList(c.ids);
    NoIdIn([OPEN], IdsText(c.ids));
    NoIdIn(c.blanks, [OPEN] + IdsText(c.ids));
  }

  // What a citation becomes

  /** An id as the sources carry it: no leading zeros, at most four digits. */
  predicate IsId(t: Text) {
    2 <= |t| <= 5 && t[0] == 83 && AreDigits(t[1..]) && NumberId(t[1..]) == t
  }

  /** The digits without leading zeros. */
  function Stripped(digits: Text): Text {
    if |digits| > 1 && digits[0] == 48 then Stripped(digits[1..]) else digits
  }

  /** An id is written as its number: `S` and the digits without leading zeros. */
  lemma {:induction false} NumberIdStrips(digits: Text)
    requires digits != [] && AreDigits(digits)
    ensures NumberId(digits) == [83] + Stripped(digits)
  {
    if |digits| > 1 && digits[0] == 48 {
      assert digits == [48] + digits[1..];
      Decimals.LeadingZero(digits[1..]);
      NumberIdStrips(digits[1..]);
    } else {
      Decimals.PrintOfRead(digits);
    }
  }

  lemma NumberIdIsId(digits: Text)
    requires 1 <= |digits| <= 4 && AreDigits(digits)
    ensures IsId(NumberId(digits))
  {
    var n := Decimals.Read(digits);
    Decimals.ReadIsSmall(digits);
    Decimals.ShortPrint(n);
    Decimals.ReadOfPrint(n);
    assert NumberId(digits)[1..] == Decimals.Print(n);
  }

  lemma {:induction false} ListIdsAreIds(l: Ids)
    requires ValidIds(l)
    ensures forall id | id in ListIds(l) :: IsId(id)
    ensures ListIds(l) != []
    decreases l
  {
    NumberIdIsId(l.digits);
    if l.next.More? {
      ListIdsAreIds(l.next.ids);
    }
  }

  function KnownAmong(known: set<Id>, ids: seq<Id>): (r: seq<Id>)
    ensures forall id :: id in r <==> id in ids && id in known
  {
    if ids == [] then []
    else if ids[0] in known then [ids[0]] + KnownAmong(known, ids[1..])
    else KnownAmong(known, ids[1..])
  }

  /** `ids.join(', ')`. */
  function JoinIds(ids: seq<Id>): Text {
    if ids == [] then []
    else if |ids| == 1 then ids[0]
    else ids[0] + ([44, SPACE] + JoinIds(ids[1..]))
  }

  /** The known ids of a citation, each once. */
  function KeptIds(known: set<Id>, citation: Text): seq<Id> {
    PromptTemplates.Distinct(KnownAmong(known, IdsIn(citation)))
  }

  /** The replacement of one citation. */
  function CleanCitation(known: set<Id>): Text -> Text {
    (citation: Text) =>
      var ids := KeptIds(known, citation);
      if ids == [] then []
      else (if citation != [] && IsSpace(citation[0]) then [SPACE] else []) + ([OPEN] + (JoinIds(ids) + [CLOSE]))
  }

  function CleanText(known: set<Id>, text: Text): Text {
    Replace(CitationLength, CleanCitation(known), text)
  }

  predicate AreIds(ids: seq<Id>) {
    forall i | 0 <= i < |ids| :: IsId(ids[i])
  }

  /** The list a cleaned citation is written with. */
  function WrittenIds(space: Text, ids: seq<Id>): Ids
    requires ids != [] && AreIds(ids)
    decreases |ids|
  {
    Ids(space, 83, ids[0][1..], [], if |ids| == 1 then Closed else More(44, WrittenIds([SPACE], ids[1..])))
  }

  lemma {:induction false} WrittenIsValid(space: Text, ids: seq<Id>)
    requires ids != [] && AreIds(ids) && AllSpace(space)
    ensures ValidIds(WrittenIds(space, ids)) && ListIds(WrittenIds(space, ids)) == ids
    decreases |ids|
  {
    if |ids| > 1 {
      WrittenIsValid([SPACE], ids[1..]);
      assert [ids[0]] + ids[1..] == ids;
    }
  }

  lemma IdThenText(id: Id, rest: Text)
    requires IsId(id)
    ensures [83] + (id[1..] + ([] + rest)) == id + rest
  {
  }

  lemma {:induction false} JoinOneMore(id: Id, rest: Text)
    ensures id + ([44] + ([SPACE] + (rest + [CLOSE]))) == (id + ([44, SPACE] + rest)) + [CLOSE]
  {
    assert [44] + ([SPACE] + (rest + [CLOSE])) == ([44, SPACE] + rest) + [CLOSE];
    Associative(id, [44, SPACE] + rest, [CLOSE]);
  }

  lemma {:induction false} WrittenText(space: Text, ids: seq<Id>)
    requires ids != [] && AreIds(ids)
    ensures IdsText(WrittenIds(space, ids)) == space + (JoinIds(ids) + [CLOSE])
    decreases |ids|
  {
    if |ids| == 1 {
      IdThenText(ids[0], [CLOSE]);
    } else {
      var tail := WrittenIds([SPACE], ids[1..]);
      WrittenText([SPACE], ids[1..]);
      assert NextText(More(44, tail)) == [44] + ([SPACE] + (JoinIds(ids[1..]) + [CLOSE]));
      IdThenText(ids[0], NextText(More(44, tail)));
      JoinOneMore(ids[0], JoinIds(ids[1..]));
    }
  }

  lemma {:induction false} KnownAmongKnown(known: set<Id>, ids: seq<Id>)
    requires forall i | 0 <= i < |ids| :: ids[i] in known
    ensures KnownAmong(known, ids) == ids
  {
    if ids != [] {
      KnownAmongKnown(known, ids[1..]);
      assert [ids[0]] + ids[1..] == ids;
    }
  }

  lemma {:induction false} DistinctOfDistinct(ids: seq<Id>)
    requires forall i, j | 0 <= i < j < |ids| :: ids[i] != ids[j]
    ensures PromptTemplates.Distinct(ids) == ids
  {
    if ids != [] {
      var front, last := ids[..|ids| - 1], ids[|ids| - 1];
      DistinctOfDistinct(front);
      assert front + [last] == ids;
    }
  }

  /** Leaving ids out keeps the order of the others' first places. */
  lemma {:induction false} KnownKeepOrder(known: set<Id>, ids: seq<Id>, x: Id, y: Id)
    requires x in known && y in known && x in ids && y in ids
    ensures var kept := KnownAmong(known, ids);
      FirstPlace(x, kept) < FirstPlace(y, kept) <==> FirstPlace(x, ids) < FirstPlace(y, ids)
  {
    if ids[0] != x && ids[0] != y {
      assert x in ids[1..] && y in ids[1..];
      KnownKeepOrder(known, ids[1..], x, y);
    }
  }

  lemma KnownInOrder(known: set<Id>, ids: seq<Id>, s: seq<Id>)
    requires InFirstUseOrder(s, KnownAmong(known, ids)) && forall id | id in s :: id in ids && id in known
    ensures InFirstUseOrder(s, ids)
  {
    forall i, j | 0 <= i < j < |s|
      ensures FirstPlace(s[i], ids) < FirstPlace(s[j], ids)
    {
      KnownKeepOrder(known, ids, s[i], s[j]);
    }
  }

  /** The kept ids are the known ids of the citation, each once, in the order the citation first names them, all well
      formed. */
  lemma KeptIdsAre(known: set<Id>, citation: Citation)
    requires Valid(citation)
    ensures var kept := KeptIds(known, CitationText(citation));
      && (forall id :: id in kept <==> id in ListIds(citation.ids) && id in known)
      && (forall i, j | 0 <= i < j < |kept| :: kept[i] != kept[j])
      && InFirstUseOrder(kept, ListIds(citation.ids))
      && AreIds(kept)
  {
    IdsOfCitation(citation);
    ListIdsAreIds(citation.ids);
    PromptTemplates.DistinctIs(KnownAmong(known, ListIds(citation.ids)));
    KnownInOrder(known, ListIds(citation.ids), KeptIds(known, CitationText(citation)));
  }

  /** The citation written for these ids after these blanks. */
  function Written(blanks: Text, ids: seq<Id>): Citation
    requires ids != [] && AreIds(ids)
  {
    Citation(blanks, WrittenIds([], ids))
  }

  lemma WrittenIs(blanks: Text, ids: seq<Id>)
    requires ids != [] && AreIds(ids) && forall i | 0 <= i < |blanks| :: IsBlank(blanks[i])
    ensures var c := Written(blanks, ids);
      Valid(c) && ListIds(c.ids) == ids && CitationText(c) == blanks + ([OPEN] + (JoinIds(ids) + [CLOSE]))
  {
    WrittenIsValid([], ids);
    WrittenText([], ids);
    assert [] + (JoinIds(ids) + [CLOSE]) == JoinIds(ids) + [CLOSE];
  }

  lemma FirstUnit(c: Citation)
    requires Valid(c)
    ensures CitationText(c) != [] && (IsSpace(CitationText(c)[0]) <==> c.blanks != [])
  {
  }

  /** A citation is dropped exactly when it names no known id, and otherwise becomes, after at most one space, the citation
      of its known ids, each once, in the order it first names them. */
  lemma CleanedCitation(known: set<Id>, c: Citation)
    requires Valid(c)
    ensures var kept := KeptIds(known, CitationText(c));
      && (forall id :: id in kept <==> id in ListIds(c.ids) && id in known)
      && InFirstUseOrder(kept, ListIds(c.ids)) && AreIds(kept)
      && CleanCitation(known)(CitationText(c))
         == if kept == [] then [] else CitationText(Written(if c.blanks == [] then [] else [SPACE], kept))
  {
    KeptIdsAre(known, c);
    FirstUnit(c);
    if KeptIds(known, CitationText(c)) != [] {
      WrittenIs(if c.blanks == [] then [] else [SPACE], KeptIds(known, CitationText(c)));
    }
  }

  /** Cleaning a cleaned citation changes nothing. */
  lemma CleanedIsClean(known: set<Id>, blanks: Text, ids: seq<Id>)
    requires ids != [] && AreIds(ids) && (forall i | 0 <= i < |ids| :: ids[i] in known)
    requires forall i, j | 0 <= i < j < |ids| :: ids[i] != ids[j]
    requires blanks == [] || blanks == [SPACE]
    ensures var text := CitationText(Written(blanks, ids));
      KeptIds(known, text) == ids && CleanCitation(known)(text) == text
  {
    var c := Written(blanks, ids);
    WrittenIs(blanks, ids);
    IdsOfCitation(c);
    KnownAmongKnown(known, ids);
    DistinctOfDistinct(ids);
    FirstUnit(c);
  }
}
