/** The list of sources a validated plan cites. */
module CitedSources {
  import opened Utf16
  import opened Options
  import opened CitationScanner
  import opened PlanningCitations
  import opened FirstPlaces
  import Decimals

  datatype SourceType = SectionType | ConnectorType

  /** A source as clients see it; the loop below compares ids and looks at nothing else of it. */
  datatype CitedSource<K> = CitedSource(id: K, kind: SourceType, title: Text)

  /** Past an opening bracket. */
  function Opened(s: Text): nat {
    if s != [] && s[0] == OPEN then 1 else 0
  }

  /** `^\[?\s*S(\d{1,4})\s*\]?$`, without regard to case. */
  function IdOfTrimmed(s: Text): (r: Option<Id>)
    ensures r.Some? ==> IsId(r.value)
  {
    var a := RunTo(IsSpace, s, Opened(s));
    if a == |s| || !IsLetterS(s[a]) then None
    else
      var b := RunTo(IsDigit, s, a + 1);
      var c := RunTo(IsSpace, s, b);
      if 1 <= b - a - 1 <= 4 && (c == |s| || s[c..] == [CLOSE]) then
        NumberIdIsId(s[a + 1..b]);
        Some(NumberId(s[a + 1..b]))
      else None
  }

  /** The expression on the trimmed value; anything but a string is `None`. */
  function NormalizeId(value: Option<Text>): (r: Option<Id>)
    ensures r.Some? ==> IsId(r.value)
  {
    if value.None? then None else IdOfTrimmed(Trim(value.value))
  }

  /** Perhaps an opening bracket up to `o`, white space up to `a`, the letter, one to four digits up to `b`, white space up
      to `c`, perhaps a closing bracket. */
  predicate IsIdText(s: Text, o: nat, a: nat, b: nat, c: nat) {
    && (o == 0 || (o == 1 && |s| > 0 && s[0] == OPEN)) && o <= a < b <= c <= |s| && 1 <= b - a - 1 <= 4
    && (forall i | o <= i < a :: IsSpace(s[i])) && IsLetterS(s[a])
    && (forall i | a < i < b :: IsDigit(s[i]))
    && (forall i | b <= i < c :: IsSpace(s[i]))
    && (c == |s| || (c == |s| - 1 && s[c] == CLOSE))
  }

  lemma RunIs(p: Unit -> bool, s: Text, from: nat, to: nat)
    requires from <= to <= |s| && (forall i | from <= i < to :: p(s[i])) && (to < |s| ==> !p(s[to]))
    ensures RunTo(p, s, from) == to
  {
  }

  /** The whole text is one of the expression, and this is the id of its digits. */
  ghost predicate ReadsAs(s: Text, id: Id) {
    exists o: nat, a: nat, b: nat, c: nat :: IsIdText(s, o, a, b, c) && id == NumberId(s[a + 1..b])
  }

  lemma OpenedIs(s: Text, o: nat, a: nat, b: nat, c: nat)
    requires IsIdText(s, o, a, b, c)
    ensures o == Opened(s)
  {
  }

  lemma RunsAre(s: Text, a: nat, b: nat, c: nat)
    requires IsIdText(s, Opened(s), a, b, c)
    ensures RunTo(IsSpace, s, Opened(s)) == a < |s| && IsLetterS(s[a])
    ensures RunTo(IsDigit, s, a + 1) == b && 1 <= b - a - 1 <= 4 && RunTo(IsSpace, s, b) == c
  {
    RunIs(IsSpace, s, Opened(s), a);
    RunIs(IsDigit, s, a + 1, b);
    RunIs(IsSpace, s, b, c);
  }

  lemma ClosedAt(s: Text, c: nat)
    requires c == |s| || (c == |s| - 1 && s[c] == CLOSE)
    ensures c == |s| || s[c..] == [CLOSE]
  {
  }

  lemma IdTextIsRead(s: Text, a: nat, b: nat, c: nat)
    requires IsIdText(s, Opened(s), a, b, c)
    ensures IdOfTrimmed(s) == Some(NumberId(s[a + 1..b]))
  {
    RunsAre(s, a, b, c);
    ClosedAt(s, c);
  }

  lemma LastUnit(s: Text, c: nat)
    requires c <= |s| && s[c..] == [CLOSE]
    ensures c == |s| - 1 && s[c] == CLOSE
  {
    assert |s[c..]| == 1 && s[c..][0] == s[c];
  }

  lemma ReadIsIdText(s: Text, a: nat, b: nat, c: nat)
    requires IdOfTrimmed(s).Some? && a == RunTo(IsSpace, s, Opened(s)) < |s|
    requires b == RunTo(IsDigit, s, a + 1) && c == RunTo(IsSpace, s, b)
    ensures IsIdText(s, Opened(s), a, b, c)
  {
    if c < |s| {
      LastUnit(s, c);
    }
  }

  lemma IdExact(s: Text, id: Id)
    ensures IdOfTrimmed(s) == Some(id) <==> ReadsAs(s, id)
  {
    forall o: nat, a: nat, b: nat, c: nat | IsIdText(s, o, a, b, c)
      ensures IdOfTrimmed(s) == Some(NumberId(s[a + 1..b]))
    {
      OpenedIs(s, o, a, b, c);
      IdTextIsRead(s, a, b, c);
    }
    if IdOfTrimmed(s).Some? {
      var a := RunTo(IsSpace, s, Opened(s));
      var b := RunTo(IsDigit, s, a + 1);
      ReadIsIdText(s, a, b, RunTo(IsSpace, s, b));
    }
  }

  lemma PlainId(s: Text)
    requires 2 <= |s| <= 5 && IsLetterS(s[0]) && forall i | 1 <= i < |s| :: IsDigit(s[i])
    ensures IdOfTrimmed(s) == Some(NumberId(s[1..]))
  {
    RunIs(IsDigit, s, 1, |s|);
    assert RunTo(IsSpace, s, 0) == 0 && s[1..|s|] == s[1..];
  }

  lemma SolidIsTrimmed(s: Text)
    requires s != [] && !IsSpace(s[0]) && !IsSpace(s[|s| - 1])
    ensures Trim(s) == s
  {
  }

  /** An id the plan lists is read as itself. */
  lemma NormalizeOfId(id: Id)
    requires IsId(id)
    ensures NormalizeId(Some(id)) == Some(id)
  {
    var digits := id[1..];
    assert forall i | 1 <= i < |id| :: id[i] == digits[i - 1];
    PlainId(id);
    SolidIsTrimmed(id);
  }

  // Keys of any kind, each kept at its first use

  function Collect<K(==)>(known: set<K>, names: seq<Option<K>>): seq<K> {
    if names == [] then []
    else
      var before, last := Collect(known, names[..|names| - 1]), names[|names| - 1];
      if last.Some? && last.value in known && last.value !in before then before + [last.value] else before
  }

  function Named<K>(keys: seq<K>): seq<Option<K>> {
    seq(|keys|, i requires 0 <= i < |keys| => Some(keys[i]))
  }

  lemma {:induction false} CollectIs<K>(known: set<K>, names: seq<Option<K>>)
    ensures var r := Collect(known, names);
      && (forall k :: k in r <==> k in known && Some(k) in names)
      && (forall i, j | 0 <= i < j < |r| :: r[i] != r[j])
      && InFirstUseOrder(Named(r), names)
  {
    if names != [] {
      var front, last := names[..|names| - 1], names[|names| - 1];
      CollectIs(known, front);
      assert names == front + [last];
      OrderWithLast(Named(Collect(known, front)), front, last);
      if Collect(known, names) != Collect(known, front) {
        assert Named(Collect(known, names)) == Named(Collect(known, front)) + [last];
      }
    }
  }

  lemma {:induction false} CollectAgain<K>(known: set<K>, keys: seq<K>)
    requires (forall k | k in keys :: k in known) && forall i, j | 0 <= i < j < |keys| :: keys[i] != keys[j]
    ensures Collect(known, Named(keys)) == keys
  {
    if keys != [] {
      var front, last := keys[..|keys| - 1], keys[|keys| - 1];
      CollectAgain(known, front);
      assert Named(keys)[..|keys| - 1] == Named(front);
      assert front + [last] == keys;
    }
  }

  /** `new Map(sources.map((s) => [s.id, s]))`: the last source with an id wins. */
  function ById<K(==)>(sources: seq<CitedSource<K>>): (m: map<K, CitedSource<K>>)
    ensures forall id | id in m :: m[id].id == id && m[id] in sources
    ensures forall s | s in sources :: s.id in m
  {
    if sources == [] then map[]
    else
      var last := sources[|sources| - 1];
      ById(sources[..|sources| - 1])[last.id := last]
  }

  /** Of several sources with one id the last is cited. */
  lemma {:induction false} LastWins<K>(sources: seq<CitedSource<K>>, k: nat)
    requires k < |sources| && forall j | k < j < |sources| :: sources[j].id != sources[k].id
    ensures ById(sources)[sources[k].id] == sources[k]
  {
    if k < |sources| - 1 {
      LastWins(sources[..|sources| - 1], k);
    }
  }

  function Names(entries: seq<Option<Text>>): seq<Option<Id>> {
    seq(|entries|, i requires 0 <= i < |entries| => NormalizeId(entries[i]))
  }

  /** Whatever the entries: an id is cited exactly when a given source has it and some entry is a string that, trimmed, is
      one of the expression for it. */
  lemma CitedExactly(sources: seq<CitedSource<Id>>, entries: seq<Option<Text>>, id: Id)
    ensures id in Collect(ById(sources).Keys, Names(entries)) <==>
      && (exists s :: s in sources && s.id == id)
      && (exists k :: 0 <= k < |entries| && entries[k].Some? && ReadsAs(Trim(entries[k].value), id))
  {
    var names := Names(entries);
    CollectIs(ById(sources).Keys, names);
    forall k | 0 <= k < |entries|
      ensures names[k] == Some(id) <==> entries[k].Some? && ReadsAs(Trim(entries[k].value), id)
    {
      if entries[k].Some? {
        IdExact(Trim(entries[k].value), id);
      }
    }
  }

  /** These are the sources with these ids. */
  predicate AreSources<K(==)>(byId: map<K, CitedSource<K>>, ids: seq<K>, sources: seq<CitedSource<K>>) {
    |sources| == |ids| && forall i | 0 <= i < |ids| :: ids[i] in byId && sources[i] == byId[ids[i]]
  }

  /** The loop of `validateCitations` over the normalised entries the plan lists: the given sources whose id some
      entry names, each once, at its first use. */
  method CollectCited<K(==)>(names: seq<Option<K>>, sources: seq<CitedSource<K>>)
    returns (cited: seq<CitedSource<K>>, ghost ids: seq<K>)
    ensures var byId := ById(sources);
      && ids == Collect(byId.Keys, names)
      && (forall id :: id in ids <==> id in byId && Some(id) in names)
      && (forall i, j | 0 <= i < j < |ids| :: ids[i] != ids[j])
      && InFirstUseOrder(Named(ids), names)
      && AreSources(byId, ids, cited)
  {
    var byId := ById(sources);
    cited, ids := [], [];
    for i := 0 to |names|
      invariant ids == Collect(byId.Keys, names[..i])
      invariant AreSources(byId, ids, cited)
    {
      assert names[..i + 1][..i] == names[..i];
      var id := names[i];
      if id.Some? && id.value in byId {
        var source := byId[id.value];
        if forall k | 0 <= k < |cited| :: cited[k].id != source.id {
          assert forall k | 0 <= k < |ids| :: cited[k].id == ids[k];
          cited := cited + [source];
          ids := ids + [id.value];
        }
      }
    }
    assert names[..|names|] == names;
    CollectIs(byId.Keys, names);
  }

  /** Validating the validated list against the same sources gives it back. */
  lemma RevalidatingIsIdentity(sources: seq<CitedSource<Id>>, entries: seq<Option<Text>>)
    ensures var ids := Collect(ById(sources).Keys, Names(entries));
      Collect(ById(sources).Keys, Names(Named(ids))) == ids
  {
    var known := ById(sources).Keys;
    var ids := Collect(known, Names(entries));
    CollectIs(known, Names(entries));
    forall i | 0 <= i < |ids|
      ensures NormalizeId(Some(ids[i])) == Some(ids[i])
    {
      assert ids[i] in ids;
      var k :| 0 <= k < |entries| && Names(entries)[k] == Some(ids[i]);
      assert NormalizeId(entries[k]) == Some(ids[i]);
      NormalizeOfId(ids[i]);
    }
    assert Names(Named(ids)) == Named(ids);
    CollectAgain(known, ids);
  }
}
