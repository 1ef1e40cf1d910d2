/** What the operations on sections keep: distinct orders in every run, the requested order after a reorder, and the
    same snapshot after a restore. */
module SectionOrder {
  import opened Options
  import opened Sections

  // Reorder

  /** n rising numbers from 0 to n - 1 are 0, 1, 2 and so on. */
  lemma {:induction false} RisingIsIndex(s: seq<int>, i: nat)
    requires i < |s| && (forall j | 0 <= j < |s| :: 0 <= s[j] < |s|) && forall j, k | 0 <= j < k < |s| :: s[j] < s[k]
    ensures s[i] == i
  {
    AtLeastIndex(s, i);
    AtMostIndex(s, i);
  }

  lemma {:induction false} AtLeastIndex(s: seq<int>, i: nat)
    requires i < |s| && (forall j | 0 <= j < |s| :: 0 <= s[j]) && forall j, k | 0 <= j < k < |s| :: s[j] < s[k]
    ensures s[i] >= i
  {
    if i > 0 {
      AtLeastIndex(s, i - 1);
    }
  }

  lemma {:induction false} AtMostIndex(s: seq<int>, i: nat)
    requires i < |s| && (forall j | 0 <= j < |s| :: s[j] < |s|) && forall j, k | 0 <= j < k < |s| :: s[j] < s[k]
    ensures s[i] <= i
    decreases |s| - i
  {
    if i < |s| - 1 {
      AtMostIndex(s, i + 1);
    }
  }

  /** Every listing of a table whose sections carry these orders is the list itself. */
  lemma {:induction false} ListedByOrder<B>(t: Table<B>, document: DocumentId, ids: seq<SectionId>, listing: seq<SectionId>)
    requires Once(ids) && IsListing(t, document, listing)
    requires forall id :: id in ids <==> InDocument(t, document, id)
    requires forall i | 0 <= i < |ids| :: ids[i] in t && t[ids[i]].order == i
    ensures listing == ids
  {
    forall i | 0 <= i < |listing|
      ensures InDocument(t, document, listing[i])
        && 0 <= t[listing[i]].order < |ids| && ids[t[listing[i]].order] == listing[i]
    {
      assert listing[i] in ids;
      var k :| 0 <= k < |ids| && ids[k] == listing[i];
      assert t[ids[k]].order == k;
    }
    MembersAtMost(ids);
    MembersAtMost(listing);
    assert Members(ids) == Members(listing) by {
      forall id
        ensures id in ids <==> id in listing
      {
        if id in listing {
          var i :| 0 <= i < |listing| && listing[i] == id;
          assert InDocument(t, document, listing[i]);
        }
      }
    }
    var orders := seq(|listing|, i requires 0 <= i < |listing| && listing[i] in t => t[listing[i]].order);
    forall j, k | 0 <= j < k < |listing|
      ensures orders[j] < orders[k]
    {
      assert Precedes(t[listing[j]], t[listing[k]]) && listing[j] != listing[k];
    }
    forall i | 0 <= i < |listing|
      ensures listing[i] == ids[i]
    {
      RisingIsIndex(orders, i);
      assert orders[i] == t[listing[i]].order;
    }
  }

  /** An accepted reorder makes the document list exactly the requested ids, with their indices as orders, and leaves
      every other document as it was. */
  lemma {:induction false} ReorderGivesRequested<B>(t: Table<B>, document: DocumentId, listing: seq<SectionId>,
                                                    requested: seq<SectionId>, after: seq<SectionId>)
    requires IsListing(t, document, listing) && Accepts(listing, requested)
    requires IsListing(Reordered(t, document, requested), document, after)
    ensures after == requested
    ensures var r := Reordered(t, document, requested);
      forall id | id in t && t[id].document != document :: id in r && r[id] == t[id]
  {
    var r := Reordered(t, document, requested);
    AcceptsPermutations(listing, requested);
    RequestedAreSections(t, document, listing, requested);
    ReorderedRows(t, document, requested);
    forall id
      ensures id in requested <==> InDocument(r, document, id)
    {
      if id in r {
        assert SamePlace(r[id], t[id]);
      }
    }
    ListedByOrder(r, document, requested, after);
  }

  lemma {:induction false} RequestedAreSections<B>(t: Table<B>, document: DocumentId, listing: seq<SectionId>,
                                                   requested: seq<SectionId>)
    requires IsListing(t, document, listing) && forall id :: id in requested <==> id in listing
    ensures forall i | 0 <= i < |requested| :: InDocument(t, document, requested[i])
    ensures forall id :: id in requested <==> InDocument(t, document, id)
  {
    forall id
      ensures id in requested <==> InDocument(t, document, id)
    {
      if id in listing {
        var i :| 0 <= i < |listing| && listing[i] == id;
        assert InDocument(t, document, listing[i]);
      }
    }
    forall i | 0 <= i < |requested|
      ensures InDocument(t, document, requested[i])
    {
      assert requested[i] in requested;
    }
  }

  // Distinct orders in every run

  /** The orders of a snapshot are distinct. */
  predicate DistinctEntries<B>(s: Snapshot<B>) {
    forall i, j | 0 <= i < j < |s| :: s[i].order != s[j].order
  }

  datatype Version<B> = Version(document: DocumentId, snapshot: Snapshot<B>)

  /** The rows, the first unused id and the saved versions. */
  datatype State<B> = State(rows: Table<B>, nextId: SectionId, versions: seq<Version<B>>)

  /** One operation with the answers its queries got. */
  datatype Action<B> =
    | Create(document: DocumentId, body: B, max: Option<int>, now: int)
    | Update(id: SectionId, body: B)
    | Delete(id: SectionId)
    | Reorder(document: DocumentId, requested: seq<SectionId>, listing: seq<SectionId>)
    | ApplyTemplate(document: DocumentId, bodies: seq<B>, max: Option<int>, now: int)
    | Save(document: DocumentId, listing: seq<SectionId>)
    | Restore(version: nat, now: int)

  ghost predicate Enabled<B>(s: State<B>, a: Action<B>) {
    match a
    case Create(document, _, max, _) => IsMaxOrder(s.rows, document, max)
    case Update(_, _) => true
    case Delete(_) => true
    case Reorder(document, _, listing) => IsListing(s.rows, document, listing)
    case ApplyTemplate(document, _, max, _) => IsMaxOrder(s.rows, document, max)
    case Save(document, listing) => IsListing(s.rows, document, listing)
    case Restore(version, _) => version < |s.versions|
  }

  ghost function Apply<B>(s: State<B>, a: Action<B>): State<B>
    requires Enabled(s, a)
  {
    match a
    case Create(document, body, max, now) =>
      s.(rows := Created(s.rows, s.nextId, document, body, max, now), nextId := s.nextId + 1)
    case Update(id, body) => s.(rows := Updated(s.rows, id, body))
    case Delete(id) => s.(rows := s.rows - {id})
    case Reorder(document, requested, listing) =>
      if Accepts(listing, requested) then s.(rows := Reordered(s.rows, document, requested)) else s
    case ApplyTemplate(document, bodies, max, now) =>
      s.(rows := Appended(s.rows, s.nextId, document, bodies, NextOrder(max), now), nextId := s.nextId + |bodies|)
    case Save(document, listing) => s.(versions := s.versions + [Version(document, Taken(s.rows, listing))])
    case Restore(version, now) =>
      var v := s.versions[version];
      s.(rows := Replaced(s.rows, s.nextId, v.document, v.snapshot, now), nextId := s.nextId + |v.snapshot|)
  }

  datatype Run<B> = Begin | Then(before: Run<B>, action: Action<B>)

  ghost function End<B>(r: Run<B>): State<B>
    requires Legal(r)
    decreases r, 1
  {
    match r
    case Begin => State(map[], 0, [])
    case Then(before, action) => Apply(End(before), action)
  }

  ghost predicate Legal<B>(r: Run<B>)
    decreases r, 0
  {
    r.Then? ==> Legal(r.before) && Enabled(End(r.before), r.action)
  }

  ghost predicate Inv<B>(s: State<B>) {
    && (forall id | id in s.rows :: id < s.nextId)
    && (forall document :: DistinctOrders(s.rows, document))
    && (forall i | 0 <= i < |s.versions| :: DistinctEntries(s.versions[i].snapshot))
  }

  lemma {:induction false} AboveMax<B>(t: Table<B>, document: DocumentId, max: Option<int>, id: SectionId)
    requires IsMaxOrder(t, document, max) && InDocument(t, document, id)
    ensures t[id].order < NextOrder(max)
  {
  }

  lemma {:induction false} CreateKeepsInv<B>(s: State<B>, a: Action<B>)
    requires Inv(s) && Enabled(s, a) && a.Create?
    ensures Inv(Apply(s, a))
  {
    var r := Apply(s, a).rows;
    forall d: DocumentId, x: SectionId, y: SectionId | InDocument(r, d, x) && InDocument(r, d, y) && x != y
      ensures r[x].order != r[y].order
    {
      assert DistinctOrders(s.rows, d);
      if InDocument(s.rows, d, x) && d == a.document { AboveMax(s.rows, d, a.max, x); }
      if InDocument(s.rows, d, y) && d == a.document { AboveMax(s.rows, d, a.max, y); }
    }
  }

  lemma {:induction false} TemplateKeepsInv<B>(s: State<B>, a: Action<B>)
    requires Inv(s) && Enabled(s, a) && a.ApplyTemplate?
    ensures Inv(Apply(s, a))
  {
    var r, first := Apply(s, a).rows, NextOrder(a.max);
    AppendedRows(s.rows, s.nextId, a.document, a.bodies, first, a.now);
    forall d: DocumentId, x: SectionId, y: SectionId | InDocument(r, d, x) && InDocument(r, d, y) && x != y
      ensures r[x].order != r[y].order
    {
      assert DistinctOrders(s.rows, d);
      NewOrOld(s, a, r, d, x);
      NewOrOld(s, a, r, d, y);
    }
  }

  lemma {:induction false} NewOrOld<B>(s: State<B>, a: Action<B>, r: Table<B>, d: DocumentId, x: SectionId)
    requires a.ApplyTemplate? && Inv(s) && Enabled(s, a) && r == Apply(s, a).rows && InDocument(r, d, x)
    ensures x in s.rows ==>
      r[x] == s.rows[x] && InDocument(s.rows, d, x) && (d == a.document ==> r[x].order < NextOrder(a.max))
    ensures x !in s.rows ==> d == a.document && r[x].order == NextOrder(a.max) + (x - s.nextId) && x >= s.nextId
  {
    AppendedRows(s.rows, s.nextId, a.document, a.bodies, NextOrder(a.max), a.now);
    if x in s.rows {
      if d == a.document { AboveMax(s.rows, d, a.max, x); }
    }
  }

  lemma {:induction false} ReorderKeepsInv<B>(s: State<B>, a: Action<B>)
    requires Inv(s) && Enabled(s, a) && a.Reorder?
    ensures Inv(Apply(s, a))
  {
    if Accepts(a.listing, a.requested) {
      var r := Apply(s, a).rows;
      AcceptsPermutations(a.listing, a.requested);
      RequestedAreSections(s.rows, a.document, a.listing, a.requested);
      ReorderedRows(s.rows, a.document, a.requested);
      forall d: DocumentId, x: SectionId, y: SectionId | InDocument(r, d, x) && InDocument(r, d, y) && x != y
        ensures r[x].order != r[y].order
      {
        assert DistinctOrders(s.rows, d);
        assert SamePlace(r[x], s.rows[x]) && SamePlace(r[y], s.rows[y]);
        if d == a.document {
          var i :| 0 <= i < |a.requested| && a.requested[i] == x;
          var j :| 0 <= j < |a.requested| && a.requested[j] == y;
          assert r[a.requested[i]].order == i && r[a.requested[j]].order == j;
        } else {
          assert x !in a.requested && y !in a.requested;
        }
      }
    }
  }

  lemma {:induction false} SaveKeepsInv<B>(s: State<B>, a: Action<B>)
    requires Inv(s) && Enabled(s, a) && a.Save?
    ensures Inv(Apply(s, a))
  {
    var taken := Taken(s.rows, a.listing);
    assert DistinctOrders(s.rows, a.document);
    forall i, j | 0 <= i < j < |taken|
      ensures taken[i].order != taken[j].order
    {
      assert InDocument(s.rows, a.document, a.listing[i]) && InDocument(s.rows, a.document, a.listing[j]);
    }
  }

  lemma {:induction false} RestoreKeepsInv<B>(s: State<B>, a: Action<B>)
    requires Inv(s) && Enabled(s, a) && a.Restore?
    ensures Inv(Apply(s, a))
  {
    var v, r := s.versions[a.version], Apply(s, a).rows;
    ReplacedRows(s.rows, s.nextId, v.document, v.snapshot, a.now);
    forall d: DocumentId, x: SectionId, y: SectionId | InDocument(r, d, x) && InDocument(r, d, y) && x != y
      ensures r[x].order != r[y].order
    {
      assert DistinctOrders(s.rows, d);
      if d == v.document {
        assert x >= s.nextId && y >= s.nextId;
      } else {
        OtherRowKept(s.rows, s.nextId, v.document, v.snapshot, a.now, x);
        OtherRowKept(s.rows, s.nextId, v.document, v.snapshot, a.now, y);
      }
    }
  }

  lemma {:induction false} OtherRowKept<B>(t: Table<B>, id: SectionId, document: DocumentId, snapshot: Snapshot<B>,
                                           now: int, x: SectionId)
    requires forall k | k in t :: k < id
    requires var r := Replaced(t, id, document, snapshot, now); x in r && r[x].document != document
    ensures x in t && Replaced(t, id, document, snapshot, now)[x] == t[x]
  {
    ReplacedRows(t, id, document, snapshot, now);
  }

  lemma {:induction false} NextKeepsInv<B>(s: State<B>, a: Action<B>)
    requires Inv(s) && Enabled(s, a)
    ensures Inv(Apply(s, a))
  {
    match a
    case Create(_, _, _, _) => CreateKeepsInv(s, a);
    case ApplyTemplate(_, _, _, _) => TemplateKeepsInv(s, a);
    case Reorder(_, _, _) => ReorderKeepsInv(s, a);
    case Save(_, _) => SaveKeepsInv(s, a);
    case Restore(_, _) => RestoreKeepsInv(s, a);
    case Update(id, _) => PartKeepsInv(s, a);
    case Delete(id) => PartKeepsInv(s, a);
  }

  lemma {:induction false} PartKeepsInv<B>(s: State<B>, a: Action<B>)
    requires Inv(s) && Enabled(s, a) && (a.Update? || a.Delete?)
    ensures Inv(Apply(s, a))
  {
    var r := Apply(s, a).rows;
    forall d: DocumentId, x: SectionId, y: SectionId | InDocument(r, d, x) && InDocument(r, d, y) && x != y
      ensures r[x].order != r[y].order
    {
      assert DistinctOrders(s.rows, d);
      assert InDocument(s.rows, d, x) && InDocument(s.rows, d, y);
    }
  }

  lemma {:induction false} EveryRunInv<B>(r: Run<B>)
    requires Legal(r)
    ensures Inv(End(r))
  {
    if r.Then? {
      EveryRunInv(r.before);
      NextKeepsInv(End(r.before), r.action);
    }
  }

  /** In every run of operations, one at a time, the orders of a document's sections are pairwise distinct, and so are
      those of every saved version. */
  lemma OrdersStayDistinct<B>(r: Run<B>, document: DocumentId)
    requires Legal(r)
    ensures DistinctOrders(End(r).rows, document)
    ensures forall i | 0 <= i < |End(r).versions| :: DistinctEntries(End(r).versions[i].snapshot)
  {
    EveryRunInv(r);
  }

  // Where new sections are listed

  /** A new row above all others of its document is listed last, and the rest is a listing of what was there before. */
  lemma {:induction false} ListedLast<B>(t: Table<B>, id: SectionId, row: Row<B>, listing: seq<SectionId>)
    requires id !in t && forall x | InDocument(t, row.document, x) :: t[x].order < row.order
    requires IsListing(t[id := row], row.document, listing)
    ensures |listing| > 0 && listing[|listing| - 1] == id && IsListing(t, row.document, listing[..|listing| - 1])
  {
    var u, document := t[id := row], row.document;
    assert InDocument(u, document, id);
    var k :| 0 <= k < |listing| && listing[k] == id;
    var last := |listing| - 1;
    if k < last {
      assert Precedes(u[listing[k]], u[listing[last]]) && InDocument(u, document, listing[last]);
      assert InDocument(t, document, listing[last]);
      assert false;
    }
    var front := listing[..last];
    forall i | 0 <= i < |front|
      ensures InDocument(t, document, front[i]) && front[i] != id && u[front[i]] == t[front[i]]
    {
      assert InDocument(u, document, listing[i]) && listing[i] != listing[last];
    }
    forall x | InDocument(t, document, x)
      ensures x in front
    {
      assert InDocument(u, document, x) && x in listing;
    }
  }

  /** The ids a row of inserts got. */
  function NewIdsFrom(id: SectionId, n: nat): seq<SectionId> {
    seq(n, i requires 0 <= i < n => id + i)
  }

  /** The last `n` of a list are these ids, and the rest lists what was there before. */
  ghost predicate ListedAfter<B>(t: Table<B>, document: DocumentId, listing: seq<SectionId>, id: SectionId, n: nat) {
    && |listing| >= n && IsListing(t, document, listing[..|listing| - n])
    && listing[|listing| - n..] == NewIdsFrom(id, n)
  }

  lemma {:induction false} OneMoreAfter<B>(t: Table<B>, document: DocumentId, listing: seq<SectionId>, id: SectionId, n: nat)
    requires |listing| > 0 && ListedAfter(t, document, listing[..|listing| - 1], id, n) && listing[|listing| - 1] == id + n
    ensures ListedAfter(t, document, listing, id, n + 1)
  {
    var front := listing[..|listing| - 1];
    assert front[..|front| - n] == listing[..|listing| - (n + 1)];
    assert listing[|listing| - (n + 1)..] == front[|front| - n..] + [id + n];
    assert NewIdsFrom(id, n + 1) == NewIdsFrom(id, n) + [id + n];
  }

  lemma {:induction false} AppendedBelow<B>(t: Table<B>, id: SectionId, document: DocumentId, bodies: seq<B>, first: int,
                                            now: int, x: SectionId)
    requires (forall k | k in t :: k < id) && (forall k | InDocument(t, document, k) :: t[k].order < first)
    requires InDocument(Appended(t, id, document, bodies, first, now), document, x)
    ensures Appended(t, id, document, bodies, first, now)[x].order < first + |bodies|
  {
    AppendedRows(t, id, document, bodies, first, now);
  }

  lemma {:induction false} AppendedLast<B>(t: Table<B>, id: SectionId, document: DocumentId, bodies: seq<B>, first: int,
                                           now: int, listing: seq<SectionId>)
    requires (forall k | k in t :: k < id) && (forall k | InDocument(t, document, k) :: t[k].order < first)
    requires bodies != [] && IsListing(Appended(t, id, document, bodies, first, now), document, listing)
    ensures |listing| > 0 && listing[|listing| - 1] == id + |bodies| - 1
    ensures IsListing(Appended(t, id, document, bodies[..|bodies| - 1], first, now), document, listing[..|listing| - 1])
  {
    var last := |bodies| - 1;
    var before := Appended(t, id, document, bodies[..last], first, now);
    AppendedRows(t, id, document, bodies[..last], first, now);
    forall x | InDocument(before, document, x)
      ensures before[x].order < first + last
    {
      AppendedBelow(t, id, document, bodies[..last], first, now, x);
    }
    ListedLast(before, id + last, Row(document, bodies[last], first + last, now), listing);
  }

  /** Rows inserted with rising orders above all others are listed after them, in the order they were inserted. */
  lemma {:induction false} AppendedAreLast<B>(t: Table<B>, id: SectionId, document: DocumentId, bodies: seq<B>, first: int,
                                              now: int, listing: seq<SectionId>)
    requires (forall k | k in t :: k < id) && (forall k | InDocument(t, document, k) :: t[k].order < first)
    requires IsListing(Appended(t, id, document, bodies, first, now), document, listing)
    ensures ListedAfter(t, document, listing, id, |bodies|)
  {
    if bodies == [] {
      assert listing[..|listing|] == listing;
    } else {
      AppendedLast(t, id, document, bodies, first, now, listing);
      AppendedAreLast(t, id, document, bodies[..|bodies| - 1], first, now, listing[..|listing| - 1]);
      OneMoreAfter(t, document, listing, id, |bodies| - 1);
    }
  }

  /** Applying a template lists its sections after all that were there, in the template's order. */
  lemma TemplateIsAppended<B>(t: Table<B>, id: SectionId, document: DocumentId, bodies: seq<B>, max: Option<int>, now: int,
                              listing: seq<SectionId>)
    requires (forall k | k in t :: k < id) && IsMaxOrder(t, document, max)
    requires IsListing(Appended(t, id, document, bodies, NextOrder(max), now), document, listing)
    ensures ListedAfter(t, document, listing, id, |bodies|)
    ensures var after := Appended(t, id, document, bodies, NextOrder(max), now);
      forall k | id <= k < id + |bodies| :: k in after && after[k].body == bodies[k - id]
  {
    forall x | InDocument(t, document, x)
      ensures t[x].order < NextOrder(max)
    {
      AboveMax(t, document, max, x);
    }
    AppendedAreLast(t, id, document, bodies, NextOrder(max), now, listing);
    AppendedRows(t, id, document, bodies, NextOrder(max), now);
  }

  /** A created section is listed last. */
  lemma CreatedIsLast<B>(t: Table<B>, id: SectionId, document: DocumentId, body: B, max: Option<int>, now: int,
                         listing: seq<SectionId>)
    requires (forall k | k in t :: k < id) && IsMaxOrder(t, document, max)
    requires IsListing(Created(t, id, document, body, max, now), document, listing)
    ensures |listing| > 0 && listing[|listing| - 1] == id && IsListing(t, document, listing[..|listing| - 1])
    ensures id in Created(t, id, document, body, max, now) && Created(t, id, document, body, max, now)[id].body == body
  {
    forall x | InDocument(t, document, x)
      ensures t[x].order < NextOrder(max)
    {
      AboveMax(t, document, max, x);
    }
    ListedLast(t, id, Row(document, body, NextOrder(max), now), listing);
  }
}
