/** The sections of documents: their order through create, update, delete, reorder, template application and restore,
    one operation at a time. */
module Sections {
  import opened Options

  type SectionId = nat
  type DocumentId = nat

  /** `body` stands for title, content, status and word count, which no operation here looks into. */
  datatype Row<B> = Row(document: DocumentId, body: B, order: int, createdAt: int)

  type Table<B> = map<SectionId, Row<B>>

  predicate InDocument<B>(t: Table<B>, document: DocumentId, id: SectionId) {
    id in t && t[id].document == document
  }

  /** `ORDER BY order, createdAt`. */
  predicate Precedes<B>(a: Row<B>, b: Row<B>) {
    a.order < b.order || (a.order == b.order && a.createdAt <= b.createdAt)
  }

  /** What `findByDocument` may return: the document's sections, each once, sorted. Rows that tie come in any order. */
  ghost predicate IsListing<B>(t: Table<B>, document: DocumentId, ids: seq<SectionId>) {
    && (forall id | InDocument(t, document, id) :: id in ids)
    && (forall i | 0 <= i < |ids| :: InDocument(t, document, ids[i]))
    && (forall i, j | 0 <= i < j < |ids| :: ids[i] != ids[j])
    && (forall i, j | 0 <= i < j < |ids| :: Precedes(t[ids[i]], t[ids[j]]))
  }

  /** What `MAX(order)` returns. */
  ghost predicate IsMaxOrder<B>(t: Table<B>, document: DocumentId, max: Option<int>) {
    match max
    case None => forall id :: !InDocument(t, document, id)
    case Some(m) =>
      && (exists id :: InDocument(t, document, id) && t[id].order == m)
      && (forall id | InDocument(t, document, id) :: t[id].order <= m)
  }

  function NextOrder(max: Option<int>): int {
    if max.None? then 0 else max.value + 1
  }

  /** No two sections of a document share an order. */
  ghost predicate DistinctOrders<B>(t: Table<B>, document: DocumentId) {
    forall a, b | InDocument(t, document, a) && InDocument(t, document, b) && a != b :: t[a].order != t[b].order
  }

  // The operations as functions of the table

  function SetOrder<B>(t: Table<B>, document: DocumentId, id: SectionId, order: int): Table<B> {
    if InDocument(t, document, id) then t[id := t[id].(order := order)] else t
  }

  /** Each id gets its index, one update after the other. */
  function Reordered<B>(t: Table<B>, document: DocumentId, ids: seq<SectionId>): Table<B> {
    if ids == [] then t
    else SetOrder(Reordered(t, document, ids[..|ids| - 1]), document, ids[|ids| - 1], |ids| - 1)
  }

  /** A new section after the greatest order. */
  function Created<B>(t: Table<B>, id: SectionId, document: DocumentId, body: B, max: Option<int>, now: int): Table<B> {
    t[id := Row(document, body, NextOrder(max), now)]
  }

  function Updated<B>(t: Table<B>, id: SectionId, body: B): Table<B> {
    if id in t then t[id := t[id].(body := body)] else t
  }

  /** One new section per body, with rising orders. */
  function Appended<B>(t: Table<B>, id: SectionId, document: DocumentId, bodies: seq<B>, order: int, now: int): Table<B> {
    if bodies == [] then t
    else
      var last := |bodies| - 1;
      Appended(t, id, document, bodies[..last], order, now)[id + last := Row(document, bodies[last], order + last, now)]
  }

  /** What a version keeps of a section. */
  datatype Entry<B> = Entry(body: B, order: int)

  type Snapshot<B> = seq<Entry<B>>

  function Without<B>(t: Table<B>, document: DocumentId): Table<B> {
    map id | id in t && t[id].document != document :: t[id]
  }

  /** The document's rows replaced by the snapshot's, all created at the same moment. */
  function Replaced<B>(t: Table<B>, id: SectionId, document: DocumentId, snapshot: Snapshot<B>, now: int): Table<B> {
    if snapshot == [] then Without(t, document)
    else
      var last := |snapshot| - 1;
      var entry := snapshot[last];
      Replaced(t, id, document, snapshot[..last], now)[id + last := Row(document, entry.body, entry.order, now)]
  }

  /** The snapshot of a listing. */
  function Taken<B>(t: Table<B>, ids: seq<SectionId>): Snapshot<B>
    requires forall id | id in ids :: id in t
  {
    seq(|ids|, i requires 0 <= i < |ids| => Entry(t[ids[i]].body, t[ids[i]].order))
  }

  /** `new Set(ids)`. */
  function Members(ids: seq<SectionId>): set<SectionId> {
    set id | id in ids
  }

  /** The set-based check of the reorder use case. */
  predicate Accepts(listing: seq<SectionId>, requested: seq<SectionId>) {
    var existingIds, requestedIds := Members(listing), Members(requested);
    !(|existingIds| != |requestedIds| || |requested| != |listing| || !(forall id | id in existingIds :: id in requestedIds))
  }

  // The repositories

  /** Every id below `nextId` may be in use, none from it on. */
  class SectionTable<B> {
    var rows: Table<B>
    var nextId: SectionId

    predicate Valid()
      reads this
    {
      forall id | id in rows :: id < nextId
    }

    constructor ()
      ensures Valid() && rows == map[]
    {
      rows, nextId := map[], 0;
    }

    /** Append on create; `max` is what the query returned. */
    method Create(document: DocumentId, body: B, max: Option<int>, now: int) returns (id: SectionId)
      requires Valid()
      modifies this
      ensures Valid() && id == old(nextId)
      ensures rows == Created(old(rows), id, document, body, max, now)
      ensures rows == old(rows)[id := Row(document, body, if max == None then 0 else max.value + 1, now)]
    {
      id := nextId;
      rows := rows[id := Row(document, body, NextOrder(max), now)];
      nextId := nextId + 1;
    }

    method Update(id: SectionId, body: B) returns (found: bool)
      requires Valid()
      modifies this
      ensures Valid() && found == (id in old(rows))
      ensures rows == Updated(old(rows), id, body)
      ensures rows == if found then old(rows)[id := old(rows)[id].(body := body)] else old(rows)
    {
      found := id in rows;
      if found {
        rows := rows[id := rows[id].(body := body)];
      }
    }

    method Delete(id: SectionId)
      requires Valid()
      modifies this
      ensures Valid() && rows == old(rows) - {id}
    {
      rows := rows - {id};
    }

    /** The use case: the check against what the query listed, then one update per id in a transaction. */
    method Reorder(document: DocumentId, requested: seq<SectionId>, listing: seq<SectionId>) returns (ok: bool)
      requires Valid() && IsListing(rows, document, listing)
      modifies this
      ensures Valid() && ok == Accepts(listing, requested)
      ensures rows == if ok then Reordered(old(rows), document, requested) else old(rows)
    {
      ok := Accepts(listing, requested);
      if ok {
        for i := 0 to |requested|
          invariant Valid() && rows == Reordered(old(rows), document, requested[..i])
        {
          assert requested[..i + 1][..i] == requested[..i];
          rows := SetOrder(rows, document, requested[i], i);
        }
        assert requested[..|requested|] == requested;
      }
    }

    /** Sections of a template, after the current maximum. */
    method ApplyToDocument(document: DocumentId, bodies: seq<B>, max: Option<int>, now: int) returns (created: nat)
      requires Valid()
      modifies this
      ensures Valid() && created == |bodies|
      ensures rows == Appended(old(rows), old(nextId), document, bodies, NextOrder(max), now)
      ensures forall k :: k in rows <==> k in old(rows) || old(nextId) <= k < old(nextId) + |bodies|
      ensures forall k | k in old(rows) :: rows[k] == old(rows)[k]
      ensures var first := if max == None then 0 else max.value + 1;
        forall k | old(nextId) <= k < old(nextId) + |bodies| ::
          rows[k] == Row(document, bodies[k - old(nextId)], first + (k - old(nextId)), now)
    {
      var nextOrder := NextOrder(max);
      for i := 0 to |bodies|
        invariant Valid() && nextId == old(nextId) + i && nextOrder == NextOrder(max) + i
        invariant rows == Appended(old(rows), old(nextId), document, bodies[..i], NextOrder(max), now)
      {
        assert bodies[..i + 1][..i] == bodies[..i];
        rows := rows[nextId := Row(document, bodies[i], nextOrder, now)];
        nextOrder := nextOrder + 1;
        nextId := nextId + 1;
      }
      assert bodies[..|bodies|] == bodies;
      AppendedRows(old(rows), old(nextId), document, bodies, NextOrder(max), now);
      created := |bodies|;
    }

    /** `replaceAll`: delete, then insert the snapshot with its own orders. */
    method ReplaceAll(document: DocumentId, snapshot: Snapshot<B>, now: int) returns (restored: nat)
      requires Valid()
      modifies this
      ensures Valid() && restored == |snapshot|
      ensures rows == Replaced(old(rows), old(nextId), document, snapshot, now)
    {
      rows := map id | id in rows && rows[id].document != document :: rows[id];
      for i := 0 to |snapshot|
        invariant Valid() && nextId == old(nextId) + i
        invariant rows == Replaced(old(rows), old(nextId), document, snapshot[..i], now)
      {
        assert snapshot[..i + 1][..i] == snapshot[..i];
        rows := rows[nextId := Row(document, snapshot[i].body, snapshot[i].order, now)];
        nextId := nextId + 1;
      }
      assert snapshot[..|snapshot|] == snapshot;
      restored := |snapshot|;
    }
  }

  // The check of a reorder

  predicate Once(ids: seq<SectionId>) {
    forall i, j | 0 <= i < j < |ids| :: ids[i] != ids[j]
  }

  lemma {:induction false} OnceMore(ids: seq<SectionId>, last: SectionId)
    ensures Once(ids + [last]) <==> Once(ids) && last !in ids
  {
    var all := ids + [last];
    assert all[|ids|] == last;
    assert forall i | 0 <= i < |ids| :: all[i] == ids[i];
  }

  lemma {:induction false} MembersAtMost(ids: seq<SectionId>)
    ensures |Members(ids)| <= |ids| && (|Members(ids)| == |ids| <==> Once(ids))
  {
    if ids != [] {
      var front, last := ids[..|ids| - 1], ids[|ids| - 1];
      MembersAtMost(front);
      OnceMore(front, last);
      assert ids == front + [last];
      assert Members(ids) == Members(front) + {last};
      assert last in front ==> Members(ids) == Members(front);
    }
  }

  lemma {:induction false} SubsetOfSameSize(a: set<SectionId>, b: set<SectionId>)
    requires a <= b && |a| == |b|
    ensures a == b
  {
    assert |b - a| == 0 && b == a + (b - a);
  }

  /** The set-based check accepts exactly the permutations of the document's sections. */
  lemma {:induction false} AcceptsPermutations(listing: seq<SectionId>, requested: seq<SectionId>)
    requires Once(listing)
    ensures Accepts(listing, requested) <==> Once(requested) && forall id :: id in requested <==> id in listing
  {
    MembersAtMost(listing);
    MembersAtMost(requested);
    assert (forall id :: id in requested <==> id in listing) ==> Members(listing) == Members(requested);
    if Accepts(listing, requested) {
      assert Members(listing) <= Members(requested);
      SubsetOfSameSize(Members(listing), Members(requested));
      forall id
        ensures id in requested <==> id in listing
      {
        assert id in Members(requested) <==> id in requested;
        assert id in Members(listing) <==> id in listing;
      }
    }
  }

  // What each operation does to the rows

  ghost predicate SamePlace<B>(a: Row<B>, b: Row<B>) {
    a.document == b.document && a.body == b.body && a.createdAt == b.createdAt
  }

  /** The ids get their indices, and nothing else changes. */
  lemma {:induction false} ReorderedRows<B>(t: Table<B>, document: DocumentId, ids: seq<SectionId>)
    requires Once(ids) && forall i | 0 <= i < |ids| :: InDocument(t, document, ids[i])
    ensures var r := Reordered(t, document, ids);
      && r.Keys == t.Keys
      && (forall id | id in t :: SamePlace(r[id], t[id]) && (id !in ids ==> r[id] == t[id]))
      && (forall i | 0 <= i < |ids| :: ids[i] in r && r[ids[i]].order == i)
  {
    if ids != [] {
      var front, last := ids[..|ids| - 1], ids[|ids| - 1];
      ReorderedRows(t, document, front);
      assert ids == front + [last];
      assert last !in front;
      assert InDocument(t, document, last) by { assert ids[|ids| - 1] == last; }
      assert SamePlace(Reordered(t, document, front)[last], t[last]);
    }
  }

  lemma {:induction false} AppendedRows<B>(t: Table<B>, id: SectionId, document: DocumentId, bodies: seq<B>, order: int,
                                           now: int)
    requires forall k | k in t :: k < id
    ensures var r := Appended(t, id, document, bodies, order, now);
      && (forall k :: k in r <==> k in t || id <= k < id + |bodies|)
      && (forall k | k in t :: r[k] == t[k])
      && (forall k | id <= k < id + |bodies| :: r[k] == Row(document, bodies[k - id], order + (k - id), now))
  {
    if bodies != [] {
      AppendedRows(t, id, document, bodies[..|bodies| - 1], order, now);
    }
  }

  lemma {:induction false} ReplacedRows<B>(t: Table<B>, id: SectionId, document: DocumentId, snapshot: Snapshot<B>, now: int)
    requires forall k | k in t :: k < id
    ensures var r := Replaced(t, id, document, snapshot, now);
      && (forall k :: k in r <==> (k in t && t[k].document != document) || id <= k < id + |snapshot|)
      && (forall k | k in t && t[k].document != document :: r[k] == t[k])
      && (forall k | id <= k < id + |snapshot| :: r[k] == Row(document, snapshot[k - id].body, snapshot[k - id].order, now))
  {
    if snapshot != [] {
      ReplacedRows(t, id, document, snapshot[..|snapshot| - 1], now);
    }
  }
}
