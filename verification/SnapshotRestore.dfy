/** Saving a version, restoring it and saving again. */
module SnapshotRestore {
  import opened Sections

  // Two sorted lists of the same numbers

  predicate Sorted(s: seq<int>) {
    forall i, j | 0 <= i < j < |s| :: s[i] <= s[j]
  }

  lemma {:induction false} LastIsMax(s: seq<int>, x: int)
    requires Sorted(s) && x in s
    ensures |s| > 0 && x <= s[|s| - 1]
  {
  }

  lemma {:induction false} LastOfSame(a: seq<int>, b: seq<int>)
    requires Sorted(a) && Sorted(b) && multiset(a) == multiset(b) && |a| == |b| > 0
    ensures a[|a| - 1] == b[|b| - 1]
  {
    var x, y := a[|a| - 1], b[|b| - 1];
    assert x in multiset(b) && y in multiset(a);
    LastIsMax(b, x);
    LastIsMax(a, y);
  }

  lemma {:induction false} WithoutLast(a: seq<int>)
    requires |a| > 0
    ensures multiset(a[..|a| - 1]) == multiset(a) - multiset{a[|a| - 1]}
  {
    var front, last := a[..|a| - 1], a[|a| - 1];
    assert a == front + [last];
    assert multiset(a) == multiset(front) + multiset{last};
  }

  lemma {:induction false} FrontOfSame(a: seq<int>, b: seq<int>)
    requires multiset(a) == multiset(b) && |a| == |b| > 0 && a[|a| - 1] == b[|b| - 1]
    ensures multiset(a[..|a| - 1]) == multiset(b[..|b| - 1])
  {
    WithoutLast(a);
    WithoutLast(b);
  }

  lemma {:induction false} SortedSame(a: seq<int>, b: seq<int>)
    requires Sorted(a) && Sorted(b) && multiset(a) == multiset(b)
    ensures a == b
  {
    SameSize(a, b);
    if a != [] {
      var n := |a| - 1;
      LastOfSame(a, b);
      FrontOfSame(a, b);
      SortedSame(a[..n], b[..n]);
      assert a == a[..n] + [a[n]] && b == b[..n] + [b[n]];
    }
  }

  lemma {:induction false} SameSize(a: seq<int>, b: seq<int>)
    requires multiset(a) == multiset(b)
    ensures |a| == |b|
  {
    assert |multiset(a)| == |a| && |multiset(b)| == |b|;
  }

  function Apply(f: SectionId -> int, ids: seq<SectionId>): seq<int> {
    seq(|ids|, i requires 0 <= i < |ids| => f(ids[i]))
  }

  lemma {:induction false} ApplyParts(f: SectionId -> int, a: seq<SectionId>, x: SectionId, b: seq<SectionId>)
    ensures multiset(Apply(f, a + [x] + b)) == multiset(Apply(f, a + b)) + multiset{f(x)}
  {
    assert Apply(f, a + [x] + b) == Apply(f, a) + [f(x)] + Apply(f, b);
    assert Apply(f, a + b) == Apply(f, a) + Apply(f, b);
  }

  /** Two duplicate-free lists of the same ids carry the same numbers. */
  lemma {:induction false} SameIdsSameNumbers(f: SectionId -> int, a: seq<SectionId>, b: seq<SectionId>)
    requires Once(a) && Once(b) && forall id :: id in a <==> id in b
    ensures multiset(Apply(f, a)) == multiset(Apply(f, b))
    decreases |a|
  {
    assert |b| > 0 ==> b[0] in b;
    if a != [] {
      var x, front := a[|a| - 1], a[..|a| - 1];
      assert a == front + [x] + [] && front + [] == front;
      assert x in b;
      var j :| 0 <= j < |b| && b[j] == x;
      var rest := b[..j] + b[j + 1..];
      assert b == b[..j] + [x] + b[j + 1..];
      WithoutOne(a, |a| - 1, x);
      WithoutOne(b, j, x);
      SameIdsSameNumbers(f, front, rest);
      ApplyParts(f, front, x, []);
      ApplyParts(f, b[..j], x, b[j + 1..]);
    }
  }

  lemma {:induction false} WithoutOne(ids: seq<SectionId>, j: nat, x: SectionId)
    requires Once(ids) && j < |ids| && ids[j] == x
    ensures var rest := ids[..j] + ids[j + 1..];
      Once(rest) && forall id :: id in rest <==> id in ids && id != x
  {
  }

  // Restored rows

  predicate SortedEntries<B>(s: Snapshot<B>) {
    forall i, j | 0 <= i < j < |s| :: s[i].order <= s[j].order
  }

  /** Entries that share an order are equal. */
  ghost predicate TiesAgree<B>(s: Snapshot<B>) {
    forall i, j | 0 <= i < j < |s| && s[i].order == s[j].order :: s[i] == s[j]
  }

  /** The ids of the restored rows, in the order of the snapshot. */
  function NewIds(id: SectionId, n: nat): seq<SectionId> {
    seq(n, i => id + i)
  }

  lemma {:induction false} TakenIsSorted<B>(t: Table<B>, document: DocumentId, listing: seq<SectionId>)
    requires IsListing(t, document, listing)
    ensures SortedEntries(Taken(t, listing))
  {
  }

  /** What the restored document's rows are, by id. */
  lemma {:induction false} RestoredRow<B>(t: Table<B>, id: SectionId, document: DocumentId, s: Snapshot<B>, now: int,
                                          k: SectionId)
    requires forall j | j in t :: j < id
    ensures var r := Replaced(t, id, document, s, now);
      && (InDocument(r, document, k) <==> id <= k < id + |s|)
      && (id <= k < id + |s| ==> k in r && r[k] == Row(document, s[k - id].body, s[k - id].order, now))
  {
    ReplacedRows(t, id, document, s, now);
  }

  lemma {:induction false} ListingOfRestored<B>(t: Table<B>, id: SectionId, document: DocumentId, s: Snapshot<B>, now: int,
                                                listing: seq<SectionId>)
    requires (forall j | j in t :: j < id) && IsListing(Replaced(t, id, document, s, now), document, listing)
    ensures forall k :: k in listing <==> k in NewIds(id, |s|)
    ensures |listing| == |s| && forall i | 0 <= i < |listing| :: id <= listing[i] < id + |s|
  {
    var r := Replaced(t, id, document, s, now);
    var ids := NewIds(id, |s|);
    forall k: SectionId
      ensures k in listing <==> k in ids
    {
      RestoredRow(t, id, document, s, now, k);
      if id <= k < id + |s| {
        assert ids[k - id] == k;
      }
      if k in listing {
        var i :| 0 <= i < |listing| && listing[i] == k;
        assert InDocument(r, document, listing[i]);
      }
    }
    forall i | 0 <= i < |listing|
      ensures id <= listing[i] < id + |s|
    {
      assert InDocument(r, document, listing[i]);
      RestoredRow(t, id, document, s, now, listing[i]);
    }
    MembersAtMost(ids);
    MembersAtMost(listing);
    assert Members(ids) == Members(listing);
  }

  /** The order of a restored row, by its new id. */
  function OrderAt<B>(s: Snapshot<B>, id: SectionId): SectionId -> int {
    (k: SectionId) => if id <= k < id + |s| then s[k - id].order else 0
  }

  lemma {:induction false} ListedOrdersRise<B>(t: Table<B>, id: SectionId, document: DocumentId, s: Snapshot<B>, now: int,
                                               listing: seq<SectionId>)
    requires (forall j | j in t :: j < id) && IsListing(Replaced(t, id, document, s, now), document, listing)
    requires forall i | 0 <= i < |listing| :: id <= listing[i] < id + |s|
    ensures Sorted(Apply(OrderAt(s, id), listing))
  {
    var r := Replaced(t, id, document, s, now);
    forall a, b | 0 <= a < b < |listing|
      ensures OrderAt(s, id)(listing[a]) <= OrderAt(s, id)(listing[b])
    {
      RestoredRow(t, id, document, s, now, listing[a]);
      RestoredRow(t, id, document, s, now, listing[b]);
      assert Precedes(r[listing[a]], r[listing[b]]);
    }
  }

  lemma {:induction false} NewOrdersRise<B>(s: Snapshot<B>, id: SectionId)
    requires SortedEntries(s)
    ensures Sorted(Apply(OrderAt(s, id), NewIds(id, |s|)))
  {
  }

  /** Listed again, the restored sections have the snapshot's orders one for one. */
  lemma {:induction false} OrdersComeBack<B>(t: Table<B>, id: SectionId, document: DocumentId, s: Snapshot<B>, now: int,
                                             listing: seq<SectionId>, i: nat)
    requires (forall j | j in t :: j < id) && SortedEntries(s) && i < |s|
    requires IsListing(Replaced(t, id, document, s, now), document, listing)
    ensures |listing| == |s| && id <= listing[i] < id + |s| && s[listing[i] - id].order == s[i].order
  {
    ListingOfRestored(t, id, document, s, now, listing);
    var f, ids := OrderAt(s, id), NewIds(id, |s|);
    SameIdsSameNumbers(f, listing, ids);
    ListedOrdersRise(t, id, document, s, now, listing);
    NewOrdersRise(s, id);
    SortedSame(Apply(f, listing), Apply(f, ids));
    assert Apply(f, listing)[i] == f(listing[i]) && Apply(f, ids)[i] == f(ids[i]);
  }

  /** A version whose ties agree is saved again as it was, whatever order the database lists tied rows in. */
  lemma {:induction false} SameSnapshot<B>(t: Table<B>, id: SectionId, document: DocumentId, s: Snapshot<B>, now: int,
                                           listing: seq<SectionId>)
    requires (forall j | j in t :: j < id) && SortedEntries(s) && TiesAgree(s)
    requires IsListing(Replaced(t, id, document, s, now), document, listing)
    ensures Taken(Replaced(t, id, document, s, now), listing) == s
  {
    ListingOfRestored(t, id, document, s, now, listing);
    var again := Taken(Replaced(t, id, document, s, now), listing);
    forall i | 0 <= i < |s|
      ensures again[i] == s[i]
    {
      OrdersComeBack(t, id, document, s, now, listing, i);
      RestoredRow(t, id, document, s, now, listing[i]);
      var k := listing[i] - id;
      assert again[i] == s[k] && s[k].order == s[i].order;
    }
  }

  /** Two of the ids changing places. */
  function Swapped(ids: seq<SectionId>, i: nat, j: nat): seq<SectionId>
    requires i < j < |ids|
  {
    ids[i := ids[j]][j := ids[i]]
  }

  lemma {:induction false} SwappedIds(id: SectionId, n: nat, i: nat, j: nat)
    requires i < j < n
    ensures var listing := Swapped(NewIds(id, n), i, j);
      && |listing| == n && Once(listing)
      && (forall a | 0 <= a < n :: listing[a] == if a == i then id + j else if a == j then id + i else id + a)
      && (forall k | id <= k < id + n :: k in listing)
  {
    var listing := Swapped(NewIds(id, n), i, j);
    forall k | id <= k < id + n
      ensures k in listing
    {
      assert listing[if k == id + i then j else if k == id + j then i else k - id] == k;
    }
  }

  lemma {:induction false} SwappedRow<B>(t: Table<B>, id: SectionId, document: DocumentId, s: Snapshot<B>, now: int,
                                         i: nat, j: nat, a: nat)
    requires (forall k | k in t :: k < id) && i < j < |s| && s[i].order == s[j].order && a < |s|
    ensures var r, k := Replaced(t, id, document, s, now), Swapped(NewIds(id, |s|), i, j)[a];
      && InDocument(r, document, k) && r[k].order == s[a].order && r[k].createdAt == now
      && (a == i ==> r[k].body == s[j].body)
  {
    SwappedIds(id, |s|, i, j);
    RestoredRow(t, id, document, s, now, Swapped(NewIds(id, |s|), i, j)[a]);
  }

  lemma {:induction false} SwappedCovers<B>(t: Table<B>, id: SectionId, document: DocumentId, s: Snapshot<B>, now: int,
                                            i: nat, j: nat, k: SectionId)
    requires (forall x | x in t :: x < id) && i < j < |s|
    requires InDocument(Replaced(t, id, document, s, now), document, k)
    ensures k in Swapped(NewIds(id, |s|), i, j)
  {
    SwappedIds(id, |s|, i, j);
    RestoredRow(t, id, document, s, now, k);
  }

  /** Rows that tie may come back in either order. */
  lemma {:induction false} SwappedListing<B>(t: Table<B>, id: SectionId, document: DocumentId, s: Snapshot<B>, now: int,
                                             i: nat, j: nat)
    requires (forall k | k in t :: k < id) && SortedEntries(s) && i < j < |s| && s[i].order == s[j].order
    ensures IsListing(Replaced(t, id, document, s, now), document, Swapped(NewIds(id, |s|), i, j))
  {
    var r, listing := Replaced(t, id, document, s, now), Swapped(NewIds(id, |s|), i, j);
    forall k: SectionId | InDocument(r, document, k)
      ensures k in listing
    {
      SwappedCovers(t, id, document, s, now, i, j, k);
    }
    forall a, b | 0 <= a < b < |listing|
      ensures InDocument(r, document, listing[a]) && InDocument(r, document, listing[b])
      ensures listing[a] != listing[b] && Precedes(r[listing[a]], r[listing[b]])
    {
      SwappedIds(id, |s|, i, j);
      SwappedRow(t, id, document, s, now, i, j, a);
      SwappedRow(t, id, document, s, now, i, j, b);
    }
    assert forall a | 0 <= a < |listing| :: InDocument(r, document, listing[a]) by {
      forall a | 0 <= a < |listing|
        ensures InDocument(r, document, listing[a])
      {
        SwappedRow(t, id, document, s, now, i, j, a);
      }
    }
  }

  lemma {:induction false} TiedComesBackChanged<B>(t: Table<B>, id: SectionId, document: DocumentId, s: Snapshot<B>,
                                                   now: int) returns (again: seq<SectionId>)
    requires (forall k | k in t :: k < id) && SortedEntries(s) && !TiesAgree(s)
    ensures IsListing(Replaced(t, id, document, s, now), document, again)
    ensures Taken(Replaced(t, id, document, s, now), again) != s
  {
    var i, j :| 0 <= i < j < |s| && s[i].order == s[j].order && s[i] != s[j];
    again := Swapped(NewIds(id, |s|), i, j);
    SwappedListing(t, id, document, s, now, i, j);
    SwappedRow(t, id, document, s, now, i, j, i);
    assert Taken(Replaced(t, id, document, s, now), again)[i].body == s[j].body;
  }

  /** Saving, restoring and saving again gives the same snapshot for certain exactly when entries that share an order
      are equal. */
  lemma {:induction false} SaveRestoreSave<B>(t: Table<B>, id: SectionId, document: DocumentId, listing: seq<SectionId>,
                                              now: int)
    requires (forall j | j in t :: j < id) && IsListing(t, document, listing)
    ensures var s := Taken(t, listing);
      var r := Replaced(t, id, document, s, now);
      TiesAgree(s) <==> forall again :: IsListing(r, document, again) ==> Taken(r, again) == s
  {
    var s := Taken(t, listing);
    TakenIsSorted(t, document, listing);
    if TiesAgree(s) {
      forall again | IsListing(Replaced(t, id, document, s, now), document, again)
        ensures Taken(Replaced(t, id, document, s, now), again) == s
      {
        SameSnapshot(t, id, document, s, now, again);
      }
    } else {
      var again := TiedComesBackChanged(t, id, document, s, now);
    }
  }

  /** With distinct orders, which every run keeps, the snapshot always comes back. */
  lemma DistinctComesBack<B>(t: Table<B>, id: SectionId, document: DocumentId, listing: seq<SectionId>, now: int,
                             again: seq<SectionId>)
    requires (forall j | j in t :: j < id) && DistinctOrders(t, document) && IsListing(t, document, listing)
    requires IsListing(Replaced(t, id, document, Taken(t, listing), now), document, again)
    ensures Taken(Replaced(t, id, document, Taken(t, listing), now), again) == Taken(t, listing)
  {
    var s := Taken(t, listing);
    forall i, j | 0 <= i < j < |s|
      ensures s[i].order != s[j].order
    {
      assert InDocument(t, document, listing[i]) && InDocument(t, document, listing[j]);
    }
    SaveRestoreSave(t, id, document, listing, now);
  }
}
