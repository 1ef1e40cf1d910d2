/** Recording the chunks of an answer and assembling the context from what was recorded. */
module ContextAssembly {
  import opened Options
  import opened PlanningJobs

  /** Where the sort puts a chunk: before the first recorded chunk that does not sort earlier. */
  function Insert(c: DataChunk, sorted: seq<DataChunk>): seq<DataChunk> {
    if sorted == [] || c.sequence <= sorted[0].sequence then [c] + sorted
    else [sorted[0]] + Insert(c, sorted[1..])
  }

  /** The stable sort by sequence number of `assembleContext`. */
  function Sort(cs: seq<DataChunk>): seq<DataChunk> {
    if cs == [] then [] else Insert(cs[0], Sort(cs[1..]))
  }

  function Entries(cs: seq<DataChunk>): (r: seq<ContextEntry>)
    ensures |r| == |cs|
    ensures forall i | 0 <= i < |cs| :: r[i] == cs[i].entry
  {
    seq(|cs|, i requires 0 <= i < |cs| => cs[i].entry)
  }

  function Assemble(cs: seq<DataChunk>): Context {
    Context(Entries(Sort(cs)), None)
  }

  /** One delivery: recorded when its sequence is new, ignored otherwise. */
  function Record(d: JobDoc, c: Chunk): JobDoc {
    match AppendResultChunk(d, c)
    case Some(updated) => updated
    case None => d
  }

  function RecordAll(d: JobDoc, cs: seq<Chunk>): JobDoc
    decreases |cs|
  {
    if cs == [] then d else Record(RecordAll(d, cs[..|cs| - 1]), cs[|cs| - 1])
  }

  /** The context a job's deliveries lead to. */
  function ContextOf(cs: seq<Chunk>): Context {
    ContextFrom(NewJob(""), cs)
  }

  /** The context of deliveries to a job that has recorded chunks before. */
  function ContextFrom(d: JobDoc, cs: seq<Chunk>): Context {
    Assemble(RecordAll(d, cs).dataChunks)
  }

  predicate DistinctSequences(cs: seq<DataChunk>) {
    forall i, j | 0 <= i < j < |cs| :: cs[i].sequence != cs[j].sequence
  }

  predicate StrictlySorted(cs: seq<DataChunk>) {
    forall i, j | 0 <= i < j < |cs| :: cs[i].sequence < cs[j].sequence
  }

  ghost function Elements<T>(s: seq<T>): set<T> {
    set x | x in s
  }

  // Sorting

  lemma {:induction false} SortedAfterFirst(first: DataChunk, s: seq<DataChunk>)
    requires StrictlySorted(s) && forall x | x in s :: first.sequence < x.sequence
    ensures StrictlySorted([first] + s)
  {
    var all := [first] + s;
    assert forall i | 1 <= i < |all| :: all[i] == s[i - 1] && all[i] in s;
  }

  lemma {:induction false} InsertSorted(c: DataChunk, s: seq<DataChunk>)
    requires StrictlySorted(s)
    requires forall x | x in s :: x.sequence != c.sequence
    ensures StrictlySorted(Insert(c, s))
    ensures forall x :: x in Insert(c, s) <==> x == c || x in s
  {
    if s != [] && s[0].sequence < c.sequence {
      InsertSorted(c, s[1..]);
      var r := Insert(c, s[1..]);
      assert s == [s[0]] + s[1..];
      forall x | x in r
        ensures s[0].sequence < x.sequence
      {
        assert x == c || x in s[1..];
      }
      SortedAfterFirst(s[0], r);
    } else if s != [] {
      assert s[0] in s;
      SortedAfterFirst(c, s);
    }
  }

  lemma {:induction false} SortSorted(cs: seq<DataChunk>)
    requires DistinctSequences(cs)
    ensures StrictlySorted(Sort(cs))
    ensures forall x :: x in Sort(cs) <==> x in cs
  {
    if cs != [] {
      SortSorted(cs[1..]);
      InsertSorted(cs[0], Sort(cs[1..]));
      assert cs == [cs[0]] + cs[1..];
    }
  }

  /** A strictly sorted list is determined by its elements. */
  lemma {:induction false} SortedUnique(a: seq<DataChunk>, b: seq<DataChunk>)
    requires StrictlySorted(a) && StrictlySorted(b)
    requires forall x :: x in a <==> x in b
    ensures a == b
  {
    assert (a != [] ==> a[0] in b) && (b != [] ==> b[0] in a);
    if a != [] {
      assert a[0] == b[0];
      forall x ensures x in a[1..] <==> x in b[1..] {
        assert x in a[1..] <==> x in a && x != a[0];
        assert x in b[1..] <==> x in b && x != b[0];
      }
      SortedUnique(a[1..], b[1..]);
      assert a == [a[0]] + a[1..] && b == [b[0]] + b[1..];
    }
  }

  /** The assembled context is a function of the set of recorded chunks, in sequence order, each once. */
  lemma AssembledFromTheSet(a: seq<DataChunk>, b: seq<DataChunk>)
    requires DistinctSequences(a) && DistinctSequences(b)
    requires Elements(a) == Elements(b)
    ensures Assemble(a) == Assemble(b)
    ensures StrictlySorted(Sort(a)) && Elements(Sort(a)) == Elements(a)
  {
    SortSorted(a);
    SortSorted(b);
    forall x ensures x in a <==> x in b {
      assert x in a <==> x in Elements(a);
      assert x in b <==> x in Elements(b);
    }
    SortedUnique(Sort(a), Sort(b));
  }

  // Recording

  /** What a chunk leaves in the context: its entry, or nothing for a status chunk. */
  function Contribution(c: Chunk): Option<ContextEntry> {
    if c.DataMessage? then Some(c.entry) else None
  }

  /** No two deliveries that share a sequence number disagree on what they contribute. */
  predicate Unambiguous(cs: seq<Chunk>) {
    forall i, j | 0 <= i < j < |cs| && cs[i].sequence == cs[j].sequence ::
      Contribution(cs[i]) == Contribution(cs[j])
  }

  predicate IsDatum(x: DataChunk, c: Chunk) {
    c.DataMessage? && x == DataChunk(c.sequence, c.entry)
  }

  /** After any deliveries: every sequence number seen is recorded once, and the data are first deliveries. */
  lemma {:induction false} RecordedSequences(d: JobDoc, cs: seq<Chunk>)
    requires d.chunkSequences == [] && d.dataChunks == []
    ensures var r := RecordAll(d, cs);
      && (forall i, j | 0 <= i < j < |r.chunkSequences| :: r.chunkSequences[i] != r.chunkSequences[j])
      && (forall n :: n in r.chunkSequences <==> exists i :: 0 <= i < |cs| && cs[i].sequence == n)
      && DistinctSequences(r.dataChunks)
      && (forall x | x in r.dataChunks :: x.sequence in r.chunkSequences)
    decreases |cs|
  {
    if cs != [] {
      var k := |cs| - 1;
      RecordedSequences(d, cs[..k]);
      var before, after := RecordAll(d, cs[..k]), RecordAll(d, cs);
      forall n ensures n in after.chunkSequences <==> exists i :: 0 <= i < |cs| && cs[i].sequence == n {
        assert n in after.chunkSequences <==> n in before.chunkSequences || n == cs[k].sequence;
        if i :| 0 <= i < |cs| && cs[i].sequence == n {
          assert i < k ==> cs[..k][i].sequence == n;
        }
        if n in before.chunkSequences {
          var i :| 0 <= i < k && cs[..k][i].sequence == n;
          assert cs[i].sequence == n;
        }
      }
    }
  }

  /** Some delivery carries this data. */
  ghost predicate Delivered(x: DataChunk, cs: seq<Chunk>) {
    exists i :: 0 <= i < |cs| && IsDatum(x, cs[i])
  }

  lemma {:induction false} DeliveredBefore(x: DataChunk, cs: seq<Chunk>)
    requires cs != []
    ensures Delivered(x, cs) <==> Delivered(x, cs[..|cs| - 1]) || IsDatum(x, cs[|cs| - 1])
  {
    var k := |cs| - 1;
    if i :| 0 <= i < |cs| && IsDatum(x, cs[i]) {
      assert i < k ==> IsDatum(x, cs[..k][i]);
    }
    if i :| 0 <= i < k && IsDatum(x, cs[..k][i]) {
      assert IsDatum(x, cs[i]);
    }
  }

  /** A number that was seen before brought the same data then. */
  lemma {:induction false} SeenBefore(d: JobDoc, cs: seq<Chunk>, x: DataChunk)
    requires d.chunkSequences == [] && d.dataChunks == []
    requires cs != [] && Unambiguous(cs) && IsDatum(x, cs[|cs| - 1])
    requires cs[|cs| - 1].sequence in RecordAll(d, cs[..|cs| - 1]).chunkSequences
    ensures Delivered(x, cs[..|cs| - 1])
  {
    var k := |cs| - 1;
    RecordedSequences(d, cs[..k]);
    var i :| 0 <= i < |cs[..k]| && cs[..k][i].sequence == cs[k].sequence;
    assert Contribution(cs[i]) == Contribution(cs[k]);
    assert IsDatum(x, cs[..k][i]);
  }

  lemma {:induction false} RecordedDatum(d: JobDoc, cs: seq<Chunk>, x: DataChunk)
    requires d.chunkSequences == [] && d.dataChunks == []
    requires cs != [] && Unambiguous(cs)
    requires x in RecordAll(d, cs[..|cs| - 1]).dataChunks <==> Delivered(x, cs[..|cs| - 1])
    ensures x in RecordAll(d, cs).dataChunks <==> Delivered(x, cs)
  {
    var before, c := RecordAll(d, cs[..|cs| - 1]), cs[|cs| - 1];
    DeliveredBefore(x, cs);
    RecordAddsDatum(before, c, x);
    if IsDatum(x, c) && c.sequence in before.chunkSequences {
      SeenBefore(d, cs, x);
    }
  }

  lemma {:induction false} RecordAddsDatum(d: JobDoc, c: Chunk, x: DataChunk)
    ensures x in Record(d, c).dataChunks
      <==> x in d.dataChunks || (IsDatum(x, c) && c.sequence !in d.chunkSequences)
  {
  }

  lemma {:induction false} RecordedData(d: JobDoc, cs: seq<Chunk>)
    requires d.chunkSequences == [] && d.dataChunks == []
    requires Unambiguous(cs)
    ensures forall x :: x in RecordAll(d, cs).dataChunks <==> exists i :: 0 <= i < |cs| && IsDatum(x, cs[i])
    decreases |cs|
  {
    if cs != [] {
      var front := cs[..|cs| - 1];
      RecordedData(d, front);
      forall x
        ensures x in RecordAll(d, cs).dataChunks <==> Delivered(x, cs)
      {
        RecordedDatum(d, cs, x);
      }
    }
  }

  lemma {:induction false} FirstDeliveryStored(d: JobDoc, cs: seq<Chunk>, i: nat)
    requires d.chunkSequences == [] && d.dataChunks == []
    requires i < |cs| && cs[i].DataMessage? && forall j | 0 <= j < i :: cs[j].sequence != cs[i].sequence
    ensures DataChunk(cs[i].sequence, cs[i].entry) in RecordAll(d, cs).dataChunks
    decreases |cs|
  {
    var k := |cs| - 1;
    if i < k {
      FirstDeliveryStored(d, cs[..k], i);
    } else {
      RecordedSequences(d, cs[..k]);
    }
  }

  lemma EntryAssembled(cs: seq<DataChunk>, x: DataChunk)
    requires DistinctSequences(cs) && x in cs
    ensures x.entry in Assemble(cs).chunks
  {
    SortSorted(cs);
    var j :| 0 <= j < |Sort(cs)| && Sort(cs)[j] == x;
    assert Assemble(cs).chunks[j] == x.entry;
  }

  /** The first data delivery of a sequence number is in the context, whatever is delivered around it. */
  lemma FirstDeliveryInContext(cs: seq<Chunk>, i: nat)
    requires i < |cs| && cs[i].DataMessage? && forall j | 0 <= j < i :: cs[j].sequence != cs[i].sequence
    ensures cs[i].entry in ContextOf(cs).chunks
  {
    FirstDeliveryStored(NewJob(""), cs, i);
    RecordedSequences(NewJob(""), cs);
    EntryAssembled(RecordAll(NewJob(""), cs).dataChunks, DataChunk(cs[i].sequence, cs[i].entry));
  }

  /** Recording from two jobs that hold the same sequences adds the same data to both. */
  lemma {:induction false} RecordSameTail(d: JobDoc, e: JobDoc, cs: seq<Chunk>) returns (tail: seq<DataChunk>)
    requires d.chunkSequences == e.chunkSequences
    ensures RecordAll(d, cs).chunkSequences == RecordAll(e, cs).chunkSequences
    ensures RecordAll(d, cs).dataChunks == d.dataChunks + tail
    ensures RecordAll(e, cs).dataChunks == e.dataChunks + tail
    decreases |cs|
  {
    tail := [];
    if cs != [] {
      var k := |cs| - 1;
      tail := RecordSameTail(d, e, cs[..k]);
      if cs[k].sequence !in RecordAll(d, cs[..k]).chunkSequences && cs[k].DataMessage? {
        tail := tail + [DataChunk(cs[k].sequence, cs[k].entry)];
      }
    }
  }

  lemma {:induction false} RecordAllSteps(d: JobDoc, cs: seq<Chunk>, c: Chunk)
    ensures RecordAll(d, cs + [c]) == Record(RecordAll(d, cs), c)
  {
    assert (cs + [c])[..|cs|] == cs;
  }

  lemma {:induction false} RecordAllSplit(d: JobDoc, c: Chunk, cs: seq<Chunk>)
    ensures RecordAll(d, [c] + cs) == RecordAll(Record(d, c), cs)
    decreases |cs|
  {
    if cs == [] {
      RecordAllSteps(d, [], c);
      assert [c] + cs == [c] && [] + [c] == [c];
    } else {
      var front, last := cs[..|cs| - 1], cs[|cs| - 1];
      RecordAllSplit(d, c, front);
      RecordAllSteps(d, [c] + front, last);
      assert [c] + cs == ([c] + front) + [last];
    }
  }

  lemma {:induction false} InsertTellsApart(a: DataChunk, b: DataChunk, s: seq<DataChunk>)
    requires a.sequence == b.sequence && a.entry != b.entry
    ensures Entries(Insert(a, s)) != Entries(Insert(b, s))
  {
    if s == [] || a.sequence <= s[0].sequence {
      assert Entries(Insert(a, s))[0] != Entries(Insert(b, s))[0];
    } else {
      InsertTellsApart(a, b, s[1..]);
      var x, y := Insert(a, s), Insert(b, s);
      assert x[1..] == Insert(a, s[1..]) && y[1..] == Insert(b, s[1..]);
      assert Entries(x)[1..] == Entries(x[1..]) && Entries(y)[1..] == Entries(y[1..]);
    }
  }

  lemma {:induction false} InsertLength(a: DataChunk, s: seq<DataChunk>)
    ensures |Insert(a, s)| == |s| + 1
  {
    if s != [] && s[0].sequence < a.sequence {
      InsertLength(a, s[1..]);
    }
  }

  function Datum(c: Chunk): seq<DataChunk> {
    if c.DataMessage? then [DataChunk(c.sequence, c.entry)] else []
  }

  lemma HeadDecides(a: Chunk, b: Chunk, tail: seq<DataChunk>)
    requires a.sequence == b.sequence && Contribution(a) != Contribution(b)
    ensures Entries(Sort(Datum(a) + tail)) != Entries(Sort(Datum(b) + tail))
  {
    assert a.DataMessage? ==> (Datum(a) + tail)[1..] == tail;
    assert b.DataMessage? ==> (Datum(b) + tail)[1..] == tail;
    assert [] + tail == tail;
    if a.DataMessage? { InsertLength(Datum(a)[0], Sort(tail)); }
    if b.DataMessage? { InsertLength(Datum(b)[0], Sort(tail)); }
    if a.DataMessage? && b.DataMessage? {
      InsertTellsApart(Datum(a)[0], Datum(b)[0], Sort(tail));
    }
  }

  /** Two deliveries with one sequence number and different contributions: whichever comes first decides. */
  lemma FirstDeliveryDecides(a: Chunk, b: Chunk, cs: seq<Chunk>)
    requires a.sequence == b.sequence && Contribution(a) != Contribution(b)
    ensures ContextOf([a] + cs) != ContextOf([b] + cs)
  {
    var d := NewJob("");
    RecordAllSplit(d, a, cs);
    RecordAllSplit(d, b, cs);
    var tail := RecordSameTail(Record(d, a), Record(d, b), cs);
    assert Record(d, a).dataChunks == Datum(a) && Record(d, b).dataChunks == Datum(b);
    HeadDecides(a, b, tail);
  }

  lemma SameSetSameContext(cs: seq<Chunk>, ds: seq<Chunk>)
    requires Unambiguous(cs) && Elements(cs) == Elements(ds)
    ensures ContextOf(cs) == ContextOf(ds)
  {
    forall c ensures c in cs <==> c in ds {
      assert c in Elements(cs) <==> c in cs;
      assert c in Elements(ds) <==> c in ds;
    }
    forall i, j | 0 <= i < j < |ds| && ds[i].sequence == ds[j].sequence
      ensures Contribution(ds[i]) == Contribution(ds[j])
    {
      assert ds[i] in cs && ds[j] in cs;
    }
    var d := NewJob("");
    RecordedData(d, cs);
    RecordedData(d, ds);
    RecordedSequences(d, cs);
    RecordedSequences(d, ds);
    var x, y := RecordAll(d, cs).dataChunks, RecordAll(d, ds).dataChunks;
    forall e ensures e in Elements(x) <==> e in Elements(y) {
      if i :| 0 <= i < |cs| && IsDatum(e, cs[i]) {
        assert cs[i] in ds;
        var j :| 0 <= j < |ds| && ds[j] == cs[i];
        assert IsDatum(e, ds[j]);
      }
      if i :| 0 <= i < |ds| && IsDatum(e, ds[i]) {
        assert ds[i] in cs;
        var j :| 0 <= j < |cs| && cs[j] == ds[i];
        assert IsDatum(e, cs[j]);
      }
    }
    AssembledFromTheSet(x, y);
  }

  /** Order and repetition of deliveries are irrelevant exactly when the deliveries are unambiguous. */
  lemma OrderIndependence(cs: seq<Chunk>)
    ensures (forall ds: seq<Chunk> | Elements(ds) == Elements(cs) :: ContextOf(ds) == ContextOf(cs)) <==> Unambiguous(cs)
  {
    if Unambiguous(cs) {
      forall ds: seq<Chunk> | Elements(ds) == Elements(cs) ensures ContextOf(ds) == ContextOf(cs) {
        SameSetSameContext(cs, ds);
      }
    } else {
      var i, j :| 0 <= i < j < |cs| && cs[i].sequence == cs[j].sequence && Contribution(cs[i]) != Contribution(cs[j]);
      FirstDeliveryDecides(cs[i], cs[j], cs);
      assert Elements([cs[i]] + cs) == Elements(cs) && Elements([cs[j]] + cs) == Elements(cs);
    }
  }
}
