/** Version numbers of a document under racing saves: read the maximum, insert the next, retry once on a conflict. */
module DocumentVersions {
  import opened Options

  type DocumentId = nat

  datatype Row = Row(document: DocumentId, version: nat)

  /** The version numbers of a document, in the order they were inserted. */
  function Versions(rows: seq<Row>, document: DocumentId): seq<nat> {
    if rows == [] then []
    else
      var before, last := Versions(rows[..|rows| - 1], document), rows[|rows| - 1];
      if last.document == document then before + [last.version] else before
  }

  function Saves(rows: seq<Row>, document: DocumentId): nat {
    |Versions(rows, document)|
  }

  /** 1, 2, 3 and so on, with no gap and no repeat. */
  predicate Contiguous(versions: seq<nat>) {
    forall i | 0 <= i < |versions| :: versions[i] == i + 1
  }

  /** The unique index on document and version refuses this row. */
  predicate Taken(rows: seq<Row>, row: Row) {
    row in rows
  }

  /** The greatest version of a document, by its definition. */
  predicate IsMax(rows: seq<Row>, document: DocumentId, max: Option<nat>) {
    match max
    case None => forall i | 0 <= i < |rows| :: rows[i].document != document
    case Some(m) =>
      && Row(document, m) in rows
      && forall i | 0 <= i < |rows| :: rows[i].document == document ==> rows[i].version <= m
  }

  lemma {:induction false} VersionsMore(rows: seq<Row>, row: Row, document: DocumentId)
    ensures Versions(rows + [row], document)
      == if row.document == document then Versions(rows, document) + [row.version] else Versions(rows, document)
  {
  }

  /** A version is in the list exactly when its row is in the collection. */
  lemma {:induction false} VersionsAreRows(rows: seq<Row>, document: DocumentId, version: nat)
    ensures version in Versions(rows, document) <==> Row(document, version) in rows
  {
    if rows != [] {
      var front, last := rows[..|rows| - 1], rows[|rows| - 1];
      VersionsAreRows(front, document, version);
      assert rows == front + [last];
    }
  }

  lemma {:induction false} ContiguousMembers(versions: seq<nat>, v: nat)
    requires Contiguous(versions)
    ensures v in versions <==> 1 <= v <= |versions|
  {
    if 1 <= v <= |versions| {
      assert versions[v - 1] == v;
    }
  }

  lemma {:induction false} ContiguousMore(versions: seq<nat>)
    requires Contiguous(versions)
    ensures Contiguous(versions + [|versions| + 1])
  {
    var more := versions + [|versions| + 1];
    forall i | 0 <= i < |more|
      ensures more[i] == i + 1
    {
      assert i < |versions| ==> more[i] == versions[i];
    }
  }

  /** With contiguous versions the maximum is the number of saves. */
  lemma {:induction false} MaxIsSaves(rows: seq<Row>, document: DocumentId, max: Option<nat>)
    requires Contiguous(Versions(rows, document)) && IsMax(rows, document, max)
    ensures (if max.None? then 0 else max.value) == Saves(rows, document)
  {
    var versions := Versions(rows, document);
    if |versions| > 0 {
      assert versions[|versions| - 1] in versions;
      VersionsAreRows(rows, document, |versions|);
    }
    if max.Some? {
      VersionsAreRows(rows, document, max.value);
      ContiguousMembers(versions, max.value);
    }
  }

  /** A row is refused exactly when its version is one of those saved. */
  lemma {:induction false} TakenIsSaved(rows: seq<Row>, row: Row)
    requires Contiguous(Versions(rows, row.document))
    ensures Taken(rows, row) <==> 1 <= row.version <= Saves(rows, row.document)
  {
    VersionsAreRows(rows, row.document, row.version);
    ContiguousMembers(Versions(rows, row.document), row.version);
  }

  // The repository

  datatype Created = Created(version: nat) | DuplicateKey

  class VersionCollection {
    var rows: seq<Row>

    constructor ()
      ensures rows == []
    {
      rows := [];
    }

    /** Newest version first, take one. */
    method MaxVersion(document: DocumentId) returns (max: Option<nat>)
      ensures IsMax(rows, document, max)
    {
      max := None;
      for i := 0 to |rows|
        invariant IsMax(rows[..i], document, max)
      {
        assert rows[..i + 1] == rows[..i] + [rows[i]];
        if rows[i].document == document && (max.None? || max.value < rows[i].version) {
          max := Some(rows[i].version);
        }
      }
      assert rows[..|rows|] == rows;
    }

    /** An insert under the unique index. */
    method Insert(row: Row) returns (ok: bool)
      modifies this
      ensures ok == !Taken(old(rows), row)
      ensures rows == if ok then old(rows) + [row] else old(rows)
    {
      ok := row !in rows;
      if ok {
        rows := rows + [row];
      }
    }

    /** Another save of the document that commits. */
    method OtherSave(document: DocumentId)
      requires Contiguous(Versions(rows, document))
      modifies this
      ensures Versions(rows, document) == old(Versions(rows, document)) + [old(Saves(rows, document)) + 1]
      ensures Contiguous(Versions(rows, document))
    {
      ghost var versions := Versions(rows, document);
      var row := Row(document, Saves(rows, document) + 1);
      TakenIsSaved(rows, row);
      VersionsMore(rows, row, document);
      ContiguousMore(versions);
      var ok := Insert(row);
      assert Versions(rows, document) == versions + [|versions| + 1];
    }

    /** Other saves of the document that commit one after the other. */
    method OtherSaves(document: DocumentId, n: nat)
      requires Contiguous(Versions(rows, document))
      modifies this
      ensures Contiguous(Versions(rows, document)) && Saves(rows, document) == old(Saves(rows, document)) + n
    {
      for i := 0 to n
        invariant Contiguous(Versions(rows, document)) && Saves(rows, document) == old(Saves(rows, document)) + i
      {
        OtherSave(document);
      }
    }

    /** `createWithRetry`; `others` says how many other saves commit between the read and the insert of each try. */
    method CreateWithRetry(document: DocumentId, alreadyRetried: bool, others: bool -> nat) returns (r: Created)
      requires Contiguous(Versions(rows, document))
      modifies this
      ensures Contiguous(Versions(rows, document))
      ensures r.Created? ==> r.version == Saves(rows, document)
      ensures r.DuplicateKey? <==> others(alreadyRetried) > 0 && (alreadyRetried || others(true) > 0)
      ensures var tries := if alreadyRetried || others(false) == 0 then others(alreadyRetried)
        else others(false) + others(true);
        Saves(rows, document) == old(Saves(rows, document)) + tries + (if r.Created? then 1 else 0)
      decreases !alreadyRetried
    {
      var currentMax := MaxVersion(document);
      var next := (if currentMax.None? then 0 else currentMax.value) + 1;
      MaxIsSaves(rows, document, currentMax);
      OtherSaves(document, others(alreadyRetried));
      TakenIsSaved(rows, Row(document, next));
      VersionsMore(rows, Row(document, next), document);
      var ok := Insert(Row(document, next));
      if ok {
        return Created(next);
      }
      if !alreadyRetried {
        r := CreateWithRetry(document, true, others);
        return;
      }
      return DuplicateKey;
    }
  }

  // Every interleaving of saves

  /** A save in progress: about to read the maximum, or about to insert `next`; `since` is the number of saves of the
      document when it started, `readAt` the number when it last read. */
  datatype Call =
    | Reading(document: DocumentId, retried: bool, since: nat)
    | Inserting(document: DocumentId, next: nat, readAt: nat, retried: bool, since: nat)
    | Saved(document: DocumentId, version: nat)
    | Failed(document: DocumentId, since: nat, at: nat)

  datatype State = State(rows: seq<Row>, calls: map<nat, Call>)

  /** One read or one insert is one step. */
  datatype Action = Start(id: nat, document: DocumentId) | Read(id: nat, max: Option<nat>) | Insert(id: nat)

  predicate Enabled(s: State, a: Action) {
    match a
    case Start(id, _) => id !in s.calls
    case Read(id, max) => id in s.calls && s.calls[id].Reading? && IsMax(s.rows, s.calls[id].document, max)
    case Insert(id) => id in s.calls && s.calls[id].Inserting?
  }

  function Apply(s: State, a: Action): State
    requires Enabled(s, a)
  {
    match a
    case Start(id, document) => s.(calls := s.calls[id := Reading(document, false, Saves(s.rows, document))])
    case Read(id, max) =>
      var c := s.calls[id];
      var next := (if max.None? then 0 else max.value) + 1;
      s.(calls := s.calls[id := Inserting(c.document, next, Saves(s.rows, c.document), c.retried, c.since)])
    case Insert(id) =>
      var c := s.calls[id];
      var row := Row(c.document, c.next);
      if !Taken(s.rows, row) then State(s.rows + [row], s.calls[id := Saved(c.document, c.next)])
      else if !c.retried then s.(calls := s.calls[id := Reading(c.document, true, c.since)])
      else s.(calls := s.calls[id := Failed(c.document, c.since, Saves(s.rows, c.document))])
  }

  datatype Run = Begin | Then(before: Run, action: Action)

  function End(r: Run): State
    requires Legal(r)
    decreases r, 1
  {
    match r
    case Begin => State([], map[])
    case Then(before, action) => Apply(End(before), action)
  }

  predicate Legal(r: Run)
    decreases r, 0
  {
    r.Then? ==> Legal(r.before) && Enabled(End(r.before), r.action)
  }

  /** What a save knows: every conflict it met was another save since its last read. */
  predicate CallInv(rows: seq<Row>, c: Call) {
    match c
    case Reading(document, retried, since) => since + (if retried then 1 else 0) <= Saves(rows, document)
    case Inserting(document, next, readAt, retried, since) =>
      since + (if retried then 1 else 0) <= readAt <= Saves(rows, document) && next == readAt + 1
    case Saved(document, version) => 1 <= version <= Saves(rows, document)
    case Failed(document, since, at) => since + 2 <= at <= Saves(rows, document)
  }

  ghost predicate Inv(s: State) {
    && (forall document :: Contiguous(Versions(s.rows, document)))
    && (forall id | id in s.calls :: CallInv(s.rows, s.calls[id]))
  }

  lemma {:induction false} MoreRowsKeepCall(rows: seq<Row>, row: Row, c: Call)
    requires CallInv(rows, c)
    ensures CallInv(rows + [row], c)
  {
    VersionsMore(rows, row, c.document);
  }

  /** A refused insert changes no row; there are more saves than this one had read. */
  lemma {:induction false} RefusedKeepsInv(s: State, id: nat)
    requires Inv(s) && Enabled(s, Insert(id)) && Taken(s.rows, Row(s.calls[id].document, s.calls[id].next))
    ensures Inv(Apply(s, Insert(id)))
  {
    var c := s.calls[id];
    assert CallInv(s.rows, c);
    TakenIsSaved(s.rows, Row(c.document, c.next));
    assert CallInv(s.rows, Apply(s, Insert(id)).calls[id]);
  }

  lemma {:induction false} InsertedContiguous(rows: seq<Row>, row: Row, document: DocumentId)
    requires Contiguous(Versions(rows, document)) && (row.document == document ==> row.version == Saves(rows, document) + 1)
    ensures Contiguous(Versions(rows + [row], document))
  {
    VersionsMore(rows, row, document);
    ContiguousMore(Versions(rows, document));
  }

  lemma {:induction false} SavedKeepsInv(s: State, id: nat)
    requires Inv(s) && Enabled(s, Insert(id)) && !Taken(s.rows, Row(s.calls[id].document, s.calls[id].next))
    ensures Inv(Apply(s, Insert(id)))
  {
    var c := s.calls[id];
    var row := Row(c.document, c.next);
    assert CallInv(s.rows, c);
    TakenIsSaved(s.rows, row);
    VersionsMore(s.rows, row, c.document);
    forall document: DocumentId
      ensures Contiguous(Versions(s.rows + [row], document))
    {
      InsertedContiguous(s.rows, row, document);
    }
    forall i | i in s.calls && i != id
      ensures CallInv(s.rows + [row], s.calls[i])
    {
      MoreRowsKeepCall(s.rows, row, s.calls[i]);
    }
  }

  lemma {:induction false} InsertKeepsInv(s: State, id: nat)
    requires Inv(s) && Enabled(s, Insert(id))
    ensures Inv(Apply(s, Insert(id)))
  {
    if Taken(s.rows, Row(s.calls[id].document, s.calls[id].next)) {
      RefusedKeepsInv(s, id);
    } else {
      SavedKeepsInv(s, id);
    }
  }

  lemma {:induction false} NextKeepsInv(s: State, a: Action)
    requires Inv(s) && Enabled(s, a)
    ensures Inv(Apply(s, a))
  {
    match a
    case Start(_, _) =>
    case Read(id, max) =>
      assert CallInv(s.rows, s.calls[id]);
      MaxIsSaves(s.rows, s.calls[id].document, max);
    case Insert(id) => InsertKeepsInv(s, id);
  }

  lemma {:induction false} EveryRunInv(r: Run)
    requires Legal(r)
    ensures Inv(End(r))
  {
    if r.Then? {
      EveryRunInv(r.before);
      NextKeepsInv(End(r.before), r.action);
    }
  }

  /** In every interleaving of saves the versions of a document are 1 to n, in the order they were committed. */
  lemma VersionsAreContiguous(r: Run, document: DocumentId)
    requires Legal(r)
    ensures Contiguous(Versions(End(r).rows, document))
  {
    EveryRunInv(r);
  }

  /** In every interleaving an insert is refused exactly when another save of the document was committed since this one
      last read, and then the first refusal leads to one more try and the second to the duplicate key. */
  lemma RefusedExactly(r: Run, id: nat)
    requires Legal(r) && Enabled(End(r), Insert(id))
    ensures var s := End(r); var c := s.calls[id]; var after := Apply(s, Insert(id)).calls[id];
      && (after.Saved? <==> Saves(s.rows, c.document) == c.readAt)
      && (after.Failed? <==> Saves(s.rows, c.document) > c.readAt && c.retried)
      && (after.Reading? <==> Saves(s.rows, c.document) > c.readAt && !c.retried)
  {
    EveryRunInv(r);
    var c := End(r).calls[id];
    assert CallInv(End(r).rows, c);
    TakenIsSaved(End(r).rows, Row(c.document, c.next));
  }

  /** A save fails with a duplicate key only when at least two saves of the same document were committed since it
      started; its own is none of them. */
  lemma FailureNeedsTwoOthers(r: Run, id: nat)
    requires Legal(r) && id in End(r).calls && End(r).calls[id].Failed?
    ensures End(r).calls[id].since + 2 <= End(r).calls[id].at
  {
    EveryRunInv(r);
    assert CallInv(End(r).rows, End(r).calls[id]);
  }

  /** How often an insert of this save has been refused. */
  function Refusals(r: Run, id: nat): nat
    requires Legal(r)
  {
    if r.Begin? then 0
    else
      var refused := r.action == Insert(id) && |End(r).rows| == |End(r.before).rows|;
      Refusals(r.before, id) + (if refused then 1 else 0)
  }

  /** In every interleaving a save is refused twice at most, and fails exactly then: it tries again once. */
  lemma {:induction false} TriesTwice(r: Run, id: nat)
    requires Legal(r)
    ensures if id !in End(r).calls then Refusals(r, id) == 0
      else match End(r).calls[id]
           case Reading(_, retried, _) => Refusals(r, id) == if retried then 1 else 0
           case Inserting(_, _, _, retried, _) => Refusals(r, id) == if retried then 1 else 0
           case Saved(_, _) => Refusals(r, id) <= 1
           case Failed(_, _, _) => Refusals(r, id) == 2
  {
    if r.Then? {
      TriesTwice(r.before, id);
      CallAfter(End(r.before), r.action, id);
    }
  }

  /** Only its own steps move a save, and an insert adds a row exactly when it saves. */
  lemma CallAfter(s: State, a: Action, id: nat)
    requires Enabled(s, a)
    ensures var t := Apply(s, a); var refused := a == Insert(id) && |t.rows| == |s.rows|;
      if a == Insert(id) then
        && id in s.calls && s.calls[id].Inserting? && id in t.calls
        && t.calls[id] == (if !refused then Saved(s.calls[id].document, s.calls[id].next)
                           else if s.calls[id].retried then
                             Failed(s.calls[id].document, s.calls[id].since, Saves(s.rows, s.calls[id].document))
                           else Reading(s.calls[id].document, true, s.calls[id].since))
      else if a.Read? && a.id == id then
        id in s.calls && s.calls[id].Reading? && id in t.calls && t.calls[id].Inserting?
        && t.calls[id].retried == s.calls[id].retried
      else if a.Start? && a.id == id then id !in s.calls && id in t.calls && t.calls[id].Reading? && !t.calls[id].retried
      else (id in t.calls <==> id in s.calls) && (id in s.calls ==> t.calls[id] == s.calls[id])
  {
  }

  /** From every state of every run a save that is alone saves the next version. */
  lemma SaveGoesThrough(r: Run, id: nat, document: DocumentId)
    requires Legal(r) && id !in End(r).calls
    ensures var n := Saves(End(r).rows, document);
      var after := Then(Then(Then(r, Start(id, document)), Read(id, if n == 0 then None else Some(n))), Insert(id));
      && Legal(after) && End(after).rows == End(r).rows + [Row(document, n + 1)]
      && id in End(after).calls && End(after).calls[id] == Saved(document, n + 1)
  {
    var n := Saves(End(r).rows, document);
    var max := if n == 0 then None else Some(n);
    EveryRunInv(r);
    SavesAreMax(End(r).rows, document);
    var started := Then(r, Start(id, document));
    var read := Then(started, Read(id, max));
    assert Legal(started) && End(started).rows == End(r).rows;
    assert Legal(read) && End(read).rows == End(r).rows;
    TakenIsSaved(End(r).rows, Row(document, n + 1));
  }

  lemma {:induction false} SavesAreMax(rows: seq<Row>, document: DocumentId)
    requires Contiguous(Versions(rows, document))
    ensures var n := Saves(rows, document); IsMax(rows, document, if n == 0 then None else Some(n))
  {
    var versions := Versions(rows, document);
    forall i | 0 <= i < |rows| && rows[i].document == document
      ensures 1 <= rows[i].version <= |versions|
    {
      assert rows[i] == Row(document, rows[i].version);
      VersionsAreRows(rows, document, rows[i].version);
      ContiguousMembers(versions, rows[i].version);
    }
    if |versions| > 0 {
      VersionsAreRows(rows, document, |versions|);
      ContiguousMembers(versions, |versions|);
    }
  }
}
