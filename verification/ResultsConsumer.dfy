/** The one consumer of result chunks. Deliveries of a job are chained: each waits for the promise that was the
    tail of the job's chain when it arrived, and a drained chain is removed. Different jobs interleave freely. */
module ResultsConsumer {
  import opened Options
  import opened PlanningJobs
  import opened ContextAssembly
  import opened JobProtocol

  /** How a message ends: acknowledged (`terminal` when this handling ended the job), dead-lettered because the job
      is unknown or someone else's, or put back on the queue after a transient failure. */
  datatype Outcome = Acked(terminal: bool) | DeadLettered | Requeued

  /** `Ended`: the work is over, the promise's `finally` has not run yet. `Settled`: it has. */
  datatype Progress = Waiting | Working(call: Call) | Ended(outcome: Outcome) | Settled(outcome: Outcome)

  /** One delivery; its index in the lane is the identity of its promise. `tried`: its append was executed. */
  datatype Task = Task(userId: string, chunk: Chunk, previous: Option<nat>, progress: Progress, tried: bool)

  /** What concerns one job id: its document, its deliveries in order, and the delivery that won the claim. `start` is the
      document as the consumer found it, which may hold chunks from before a restart. */
  datatype Lane = Lane(doc: Option<JobDoc>, tasks: seq<Task>, winner: Option<nat>, start: JobDoc)

  datatype Consumer = Consumer(lanes: map<string, Lane>, jobChains: map<string, nat>)

  datatype Event =
    | Deliver(userId: string, chunk: Chunk)
    | BeginWork(k: nat)
    | Work(k: nat, answer: Answer, acknowledged: bool)
    | Break(k: nat)
    | Finally(k: nat)
    | Outside(doc: JobDoc)

  /** The object the source keeps: the tail of the in-flight chain per job. */
  class JobChains {
    var jobChains: map<string, nat>

    constructor ()
      ensures jobChains == map[]
    {
      jobChains := map[];
    }

    /** Chains a delivery whose promise is `next`; the result is the promise it has to wait for. */
    method RunInJobOrder(jobId: string, next: nat) returns (previous: Option<nat>)
      modifies this
      ensures previous == if jobId in old(jobChains) then Some(old(jobChains)[jobId]) else None
      ensures jobChains == old(jobChains)[jobId := next]
    {
      previous := if jobId in jobChains then Some(jobChains[jobId]) else None;
      jobChains := jobChains[jobId := next];
    }

    method RunFinally(jobId: string, next: nat)
      modifies this
      ensures jobChains == AfterFinally(old(jobChains), jobId, next)
    {
      if jobId in jobChains && jobChains[jobId] == next {
        jobChains := jobChains - {jobId};
      }
    }
  }

  function Tail(chains: map<string, nat>, jobId: string): Option<nat> {
    if jobId in chains then Some(chains[jobId]) else None
  }

  function AfterFinally(chains: map<string, nat>, jobId: string, next: nat): map<string, nat> {
    if Tail(chains, jobId) == Some(next) then chains - {jobId} else chains
  }

  // One lane

  predicate IsSettled(t: Task) {
    t.progress.Settled?
  }

  predicate SameRecord(d: JobDoc, e: JobDoc) {
    d.userId == e.userId && d.chunkSequences == e.chunkSequences && d.dataChunks == e.dataChunks
  }

  predicate Possible(l: Lane, e: Event) {
    match e
    case Deliver(_, _) => true
    case BeginWork(k) =>
      k < |l.tasks| && l.tasks[k].progress.Waiting? &&
      (l.tasks[k].previous.Some? ==> l.tasks[k].previous.value < |l.tasks| && IsSettled(l.tasks[l.tasks[k].previous.value]))
    case Work(k, _, _) => k < |l.tasks| && l.tasks[k].progress.Working?
    case Break(k) => k < |l.tasks| && l.tasks[k].progress.Working?
    case Finally(k) => k < |l.tasks| && l.tasks[k].progress.Ended?
    // Other actors move the status along its edges, record no chunk, and leave a job a handler claimed alone
    // (`OutsideIsDerived`).
    case Outside(doc) => l.doc.Some? && l.winner.None? && SameRecord(l.doc.value, doc) && StatusEdge(l.doc.value, doc)
  }

  /** A step of the handling of one delivery of a job that exists and is its user's. */
  function Handle(d: JobDoc, t: Task, a: Answer, acknowledged: bool): (r: (JobDoc, Task, bool))
    requires t.progress.Working?
  {
    var c := t.progress.call;
    var (next, doc) := StepCall(c, d, a);
    var progress := if !acknowledged then Ended(Requeued)
                    else if next.Returned? then Ended(Acked(next.finalised)) else Working(next);
    (doc, t.(progress := progress, tried := t.tried || c.Appending?), c.ClaimingPlanning? && next.PlanningPhase?)
  }

  function WorkOn(l: Lane, k: nat, a: Answer, acknowledged: bool): Lane
    requires k < |l.tasks| && l.tasks[k].progress.Working?
  {
    var t := l.tasks[k];
    if l.doc.None? || (t.progress.call.Looking? && l.doc.value.userId != t.userId) then
      l.(tasks := l.tasks[k := t.(progress := Ended(if acknowledged then DeadLettered else Requeued))])
    else
      var (doc, moved, won) := Handle(l.doc.value, t, a, acknowledged);
      l.(doc := Some(doc), tasks := l.tasks[k := moved], winner := if won then Some(k) else l.winner)
  }

  function Occur(l: Lane, tail: Option<nat>, e: Event): Lane {
    match e
    case Deliver(userId, chunk) => l.(tasks := l.tasks + [Task(userId, chunk, tail, Waiting, false)])
    case BeginWork(k) =>
      if k < |l.tasks| then
        var t := l.tasks[k];
        l.(tasks := l.tasks[k := t.(progress := Working(Looking(t.userId, t.chunk)))])
      else l
    case Work(k, a, acknowledged) =>
      if k < |l.tasks| && l.tasks[k].progress.Working? then WorkOn(l, k, a, acknowledged) else l
    case Break(k) => if k < |l.tasks| then l.(tasks := l.tasks[k := l.tasks[k].(progress := Ended(Requeued))]) else l
    case Finally(k) =>
      if k < |l.tasks| && l.tasks[k].progress.Ended? then
        l.(tasks := l.tasks[k := l.tasks[k].(progress := Settled(l.tasks[k].progress.outcome))])
      else l
    case Outside(doc) => l.(doc := Some(doc))
  }

  function NextTail(l: Lane, tail: Option<nat>, e: Event): Option<nat> {
    match e
    case Deliver(_, _) => Some(|l.tasks|)
    case Finally(k) => if tail == Some(k) then None else tail
    case _ => tail
  }

  // Order: one delivery at a time, in delivery order

  /** Work has begun only on deliveries whose predecessors are all settled. */
  ghost predicate InOrder(l: Lane) {
    && (forall k | 0 <= k < |l.tasks| && !l.tasks[k].progress.Waiting? :: forall j | 0 <= j < k :: IsSettled(l.tasks[j]))
    && (forall k | 0 <= k < |l.tasks| && l.tasks[k].previous.Some? :: l.tasks[k].previous.value == k - 1)
    && (forall k | 0 <= k < |l.tasks| && l.tasks[k].previous.None? :: forall j | 0 <= j < k :: IsSettled(l.tasks[j]))
  }

  /** The chain has an entry exactly while the job has unfinished work, and it is the last delivery. */
  ghost predicate ChainMatches(l: Lane, tail: Option<nat>) {
    && (tail.Some? <==> exists k :: 0 <= k < |l.tasks| && !IsSettled(l.tasks[k]))
    && (tail.Some? ==> tail.value == |l.tasks| - 1)
  }

  lemma SettledPrefix(l: Lane, k: nat)
    requires InOrder(l) && k < |l.tasks| && IsSettled(l.tasks[k])
    ensures forall j | 0 <= j <= k :: IsSettled(l.tasks[j])
  {
  }

  /** Moving delivery `k` on, short of settling it, keeps the order when everything before it is settled. */
  lemma MovedOn(l: Lane, m: Lane, tail: Option<nat>, k: nat)
    requires InOrder(l) && ChainMatches(l, tail) && k < |l.tasks| && !IsSettled(l.tasks[k])
    requires forall j | 0 <= j < k :: IsSettled(l.tasks[j])
    requires |m.tasks| == |l.tasks| && m.tasks == l.tasks[k := m.tasks[k]]
    requires m.tasks[k].previous == l.tasks[k].previous && !IsSettled(m.tasks[k])
    ensures InOrder(m) && ChainMatches(m, tail)
  {
  }

  lemma FinallyKeepsOrder(l: Lane, tail: Option<nat>, k: nat)
    requires InOrder(l) && ChainMatches(l, tail) && Possible(l, Finally(k))
    ensures InOrder(Occur(l, tail, Finally(k))) && ChainMatches(Occur(l, tail, Finally(k)), NextTail(l, tail, Finally(k)))
  {
    var m := Occur(l, tail, Finally(k));
    assert !IsSettled(l.tasks[k]);
    if tail != Some(k) {
      assert k < |l.tasks| - 1 && l.tasks[|l.tasks| - 1].progress.Waiting?;
      assert !IsSettled(m.tasks[|l.tasks| - 1]);
    }
  }

  /** One at a time, in delivery order, with an entry in the chain map exactly while there is unfinished work. */
  lemma OrderKept(l: Lane, tail: Option<nat>, e: Event)
    requires InOrder(l) && ChainMatches(l, tail) && Possible(l, e)
    ensures InOrder(Occur(l, tail, e)) && ChainMatches(Occur(l, tail, e), NextTail(l, tail, e))
  {
    var m := Occur(l, tail, e);
    match e
    case Deliver(_, _) => assert !IsSettled(m.tasks[|l.tasks|]);
    case Finally(k) => FinallyKeepsOrder(l, tail, k);
    case BeginWork(k) =>
      if l.tasks[k].previous.Some? { SettledPrefix(l, k - 1); }
      MovedOn(l, m, tail, k);
    case Work(k, _, _) => MovedOn(l, m, tail, k);
    case Break(k) => MovedOn(l, m, tail, k);
    case Outside(_) => assert m.tasks == l.tasks;
  }

  // What the document records

  /** The chunks of the deliveries whose append was executed, in delivery order. */
  function Tried(ts: seq<Task>): seq<Chunk> {
    if ts == [] then []
    else Tried(ts[..|ts| - 1]) + if ts[|ts| - 1].tried then [ts[|ts| - 1].chunk] else []
  }

  /** The context the deliveries up to and including `k` amount to. */
  function ContextUpTo(start: JobDoc, ts: seq<Task>, k: nat): Context
    requires k < |ts|
  {
    ContextFrom(start, Tried(ts[..k + 1]))
  }

  predicate AppendDone(c: Call) {
    c.ClaimingPlanning? || c.FailingGather? || c.PlanningPhase?
  }

  /** One delivery against the document and the context its claim would store. */
  predicate TaskInv(l: Lane, t: Task, upTo: Context) {
    && (t.progress.Waiting? ==> !t.tried)
    && (t.progress.Working? ==>
          var c := t.progress.call;
          && (c.Looking? || c.Appending? || AppendDone(c))
          && (c.Looking? ==> c == Looking(t.userId, t.chunk))
          && (c.Appending? ==> c == Appending(t.chunk))
          && (t.tried <==> AppendDone(c))
          && (!c.Looking? ==> l.doc.Some? && l.doc.value.userId == t.userId)
          && (c.ClaimingPlanning? ==> c.assembled == upTo)
          && (c.PlanningPhase? ==>
            && c.context == upTo && l.winner.Some? && l.doc.value.status.Planning?
            && l.doc.value.contextUsed.Some? && l.doc.value.contextUsed.value.chunks == c.context.chunks))
    && (t.tried ==> l.doc.Some? && l.doc.value.userId == t.userId)
    && (t.progress in {Ended(DeadLettered), Settled(DeadLettered)} ==> l.doc.None? || l.doc.value.userId != t.userId)
    && (Skipped(t) ==> l.doc.Some? && IsTerminal(l.doc.value.status))
  }

  /** Acknowledged without reaching the append: the job had already ended. */
  predicate Skipped(t: Task) {
    !t.tried && (t.progress.Ended? || t.progress.Settled?) && t.progress.outcome.Acked?
  }

  predicate WinnerInv(l: Lane) {
    l.winner.Some? ==>
      && l.winner.value < |l.tasks|
      && l.doc.Some? && (l.doc.value.status.Planning? || IsTerminal(l.doc.value.status))
      && l.doc.value.contextUsed.Some?
      && l.doc.value.contextUsed.value.chunks == ContextUpTo(l.start, l.tasks, l.winner.value).chunks
      && (forall j | 0 <= j < l.winner.value :: IsSettled(l.tasks[j]) && !Skipped(l.tasks[j]))
      && l.tasks[l.winner.value].tried
  }

  ghost predicate RecordInv(l: Lane) {
    && (forall k | 0 <= k < |l.tasks| :: TaskInv(l, l.tasks[k], ContextUpTo(l.start, l.tasks, k)))
    && (l.doc.Some? ==>
          var r := RecordAll(l.start, Tried(l.tasks));
          l.doc.value.chunkSequences == r.chunkSequences && l.doc.value.dataChunks == r.dataChunks)
    && WinnerInv(l)
  }

  lemma {:induction false} TriedCongruent(ts: seq<Task>, us: seq<Task>)
    requires |ts| == |us|
    requires forall i | 0 <= i < |ts| :: ts[i].tried == us[i].tried && ts[i].chunk == us[i].chunk
    ensures Tried(ts) == Tried(us)
  {
    if ts != [] {
      TriedCongruent(ts[..|ts| - 1], us[..|us| - 1]);
    }
  }

  lemma {:induction false} TriedUpTo(ts: seq<Task>, n: nat)
    requires n <= |ts| && forall i | n <= i < |ts| :: !ts[i].tried
    ensures Tried(ts) == Tried(ts[..n])
    decreases |ts| - n
  {
    if n == |ts| {
      assert ts[..n] == ts;
    } else {
      TriedUpTo(ts[..|ts| - 1], n);
      assert ts[..|ts| - 1][..n] == ts[..n];
    }
  }

  /** Changing delivery `k` without touching its append flag leaves every recorded context alone. */
  lemma ContextsUnchanged(start: JobDoc, ts: seq<Task>, us: seq<Task>)
    requires |ts| <= |us|
    requires forall i | 0 <= i < |ts| :: ts[i].tried == us[i].tried && ts[i].chunk == us[i].chunk
    requires forall i | |ts| <= i < |us| :: !us[i].tried
    ensures Tried(us) == Tried(ts)
    ensures forall k | 0 <= k < |ts| :: ContextUpTo(start, us, k) == ContextUpTo(start, ts, k)
  {
    TriedUpTo(us, |ts|);
    TriedCongruent(ts, us[..|ts|]);
    forall k | 0 <= k < |ts| ensures ContextUpTo(start, us, k) == ContextUpTo(start, ts, k) {
      TriedCongruent(ts[..k + 1], us[..k + 1]);
    }
  }

  /** What a step must leave of the document for the deliveries that are not at work. */
  predicate DocKept(l: Lane, m: Lane) {
    && (l.doc.Some? <==> m.doc.Some?)
    && (l.doc.Some? ==> l.doc.value.userId == m.doc.value.userId
                        && (IsTerminal(l.doc.value.status) ==> IsTerminal(m.doc.value.status)))
  }

  lemma IdleKept(l: Lane, m: Lane, t: Task, before: Context, after: Context)
    requires TaskInv(l, t, before) && !t.progress.Working? && DocKept(l, m)
    ensures TaskInv(m, t, after)
  {
  }

  lemma OthersKept(l: Lane, m: Lane, k: nat)
    requires m.start == l.start
    requires InOrder(l) && RecordInv(l) && k < |l.tasks| && !IsSettled(l.tasks[k])
    requires |m.tasks| == |l.tasks| && m.tasks == l.tasks[k := m.tasks[k]] && DocKept(l, m)
    requires forall j | 0 <= j < k :: IsSettled(l.tasks[j])
    ensures forall i | 0 <= i < |m.tasks| && i != k :: TaskInv(m, m.tasks[i], ContextUpTo(m.start, m.tasks, i))
  {
    forall i | 0 <= i < |m.tasks| && i != k
      ensures TaskInv(m, m.tasks[i], ContextUpTo(m.start, m.tasks, i))
    {
      assert !IsSettled(l.tasks[k]);
      assert TaskInv(l, l.tasks[i], ContextUpTo(l.start, l.tasks, i));
      IdleKept(l, m, l.tasks[i], ContextUpTo(l.start, l.tasks, i), ContextUpTo(m.start, m.tasks, i));
    }
  }

  /** A step that executes no append: the contexts stay, and so does what the document records. */
  lemma QuietStep(l: Lane, m: Lane, k: nat)
    requires m.start == l.start
    requires InOrder(l) && RecordInv(l) && k < |l.tasks| && !IsSettled(l.tasks[k])
    requires forall j | 0 <= j < k :: IsSettled(l.tasks[j])
    requires |m.tasks| == |l.tasks| && m.tasks == l.tasks[k := m.tasks[k]]
    requires m.tasks[k].tried == l.tasks[k].tried && m.tasks[k].chunk == l.tasks[k].chunk
    requires DocKept(l, m) && TaskInv(m, m.tasks[k], ContextUpTo(l.start, l.tasks, k))
    requires l.doc.Some? ==> SameRecord(l.doc.value, m.doc.value)
    requires WinnerInv(m)
    ensures RecordInv(m)
  {
    ContextsUnchanged(l.start, l.tasks, m.tasks);
    OthersKept(l, m, k);
    assert TaskInv(m, m.tasks[k], ContextUpTo(m.start, m.tasks, k));
    assert Tried(m.tasks) == Tried(l.tasks);
  }

  lemma WinnerStays(l: Lane, m: Lane, k: nat)
    requires m.start == l.start
    requires WinnerInv(l) && k < |l.tasks| && !IsSettled(l.tasks[k])
    requires |m.tasks| == |l.tasks| && m.tasks == l.tasks[k := m.tasks[k]] && m.winner == l.winner
    requires m.tasks[k].tried == l.tasks[k].tried && m.tasks[k].chunk == l.tasks[k].chunk
    requires l.winner.Some? ==> m.doc.Some? && (m.doc.value.status.Planning? || IsTerminal(m.doc.value.status))
    requires l.winner.Some? ==> m.doc.value.contextUsed.Some?
    requires l.winner.Some? ==> m.doc.value.contextUsed.value.chunks == l.doc.value.contextUsed.value.chunks
    ensures WinnerInv(m)
  {
  }

  /** The executed append, seen from the one delivery. */
  lemma AppendFits(l: Lane, t: Task, upTo: Context, a: Answer, acknowledged: bool)
    requires l.doc.Some? && TaskInv(l, t, upTo) && t.progress == Working(Appending(t.chunk))
    ensures var (doc, moved, won) := Handle(l.doc.value, t, a, acknowledged);
      && !won && moved.tried && moved.previous == t.previous && moved.chunk == t.chunk && !moved.progress.Settled?
      && doc == Record(l.doc.value, t.chunk)
      && TaskInv(l.(doc := Some(doc)), moved, Assemble(doc.dataChunks))
  {
  }

  /** Any other step, seen from the one delivery: nothing is recorded, and a claim is won only while gathering. */
  lemma OtherFits(l: Lane, k: nat, t: Task, upTo: Context, a: Answer, acknowledged: bool)
    requires l.doc.Some? && TaskInv(l, t, upTo) && t.progress.Working? && !t.progress.call.Appending?
    requires t.progress.call.Looking? ==> l.doc.value.userId == t.userId
    requires l.winner.Some? ==> l.doc.value.status.Planning? || IsTerminal(l.doc.value.status)
    ensures var (doc, moved, won) := Handle(l.doc.value, t, a, acknowledged);
      var m := l.(doc := Some(doc), winner := if won then Some(k) else l.winner);
      && DocKept(l, m) && SameRecord(l.doc.value, doc) && TaskInv(m, moved, upTo)
      && moved.tried == t.tried && moved.previous == t.previous && moved.chunk == t.chunk && !moved.progress.Settled?
      && (won ==> !IsTerminal(l.doc.value.status) && doc.status.Planning? && doc.contextUsed == Some(upTo) && t.tried)
      && (!won && l.winner.Some? && l.doc.value.contextUsed.Some? ==>
            && (doc.status.Planning? || IsTerminal(doc.status)) && doc.contextUsed.Some?
            && doc.contextUsed.value.chunks == l.doc.value.contextUsed.value.chunks)
  {
  }

  lemma AppendGrows(start: JobDoc, ts: seq<Task>, us: seq<Task>, k: nat)
    requires |us| == |ts| && k < |ts| && us == ts[k := us[k]] && us[k].tried && us[k].chunk == ts[k].chunk
    requires forall i | k <= i < |ts| :: !ts[i].tried
    ensures Tried(us) == Tried(ts) + [ts[k].chunk] && Tried(us[..k + 1]) == Tried(us)
    ensures forall i | 0 <= i < k :: ContextUpTo(start, us, i) == ContextUpTo(start, ts, i)
  {
    TriedUpTo(ts, k);
    TriedUpTo(us, k + 1);
    assert us[..k + 1][..k] == ts[..k];
    forall i | 0 <= i < k ensures ContextUpTo(start, us, i) == ContextUpTo(start, ts, i) {
      assert us[..i + 1] == ts[..i + 1];
    }
  }

  lemma UntriedFrom(l: Lane, k: nat)
    requires InOrder(l) && RecordInv(l) && k < |l.tasks| && !IsSettled(l.tasks[k]) && !l.tasks[k].tried
    ensures forall i | k <= i < |l.tasks| :: !l.tasks[i].tried
    ensures l.winner.Some? ==> l.winner.value < k
  {
    forall i | k < i < |l.tasks|
      ensures !l.tasks[i].tried
    {
      assert l.tasks[i].progress.Waiting?;
      assert TaskInv(l, l.tasks[i], ContextUpTo(l.start, l.tasks, i));
    }
    assert WinnerInv(l);
  }

  lemma AppendRecords(l: Lane, m: Lane, k: nat)
    requires m.start == l.start
    requires RecordInv(l) && l.doc.Some? && k < |l.tasks|
    requires m.doc == Some(Record(l.doc.value, l.tasks[k].chunk))
    requires Tried(m.tasks) == Tried(l.tasks) + [l.tasks[k].chunk]
    ensures var r := RecordAll(m.start, Tried(m.tasks));
      m.doc.value.chunkSequences == r.chunkSequences && m.doc.value.dataChunks == r.dataChunks
  {
  }

  lemma AppendKeepsWinner(l: Lane, m: Lane, k: nat)
    requires m.start == l.start
    requires WinnerInv(l) && k < |l.tasks| && !l.tasks[k].tried && l.doc.Some? && m.winner == l.winner
    requires |m.tasks| == |l.tasks| && m.tasks == l.tasks[k := m.tasks[k]]
    requires m.doc == Some(Record(l.doc.value, l.tasks[k].chunk))
    requires l.winner.Some? ==> l.winner.value < k
    ensures WinnerInv(m)
  {
  }

  /** The lane after an append, whatever the delivery goes on to do. */
  lemma AppendedFits(l: Lane, m: Lane, k: nat)
    requires m.start == l.start
    requires InOrder(l) && RecordInv(l) && k < |l.tasks| && !IsSettled(l.tasks[k]) && !l.tasks[k].tried && l.doc.Some?
    requires forall j | 0 <= j < k :: IsSettled(l.tasks[j])
    requires m.doc == Some(Record(l.doc.value, l.tasks[k].chunk)) && m.winner == l.winner
    requires |m.tasks| == |l.tasks| && m.tasks == l.tasks[k := m.tasks[k]]
    requires m.tasks[k].tried && m.tasks[k].chunk == l.tasks[k].chunk
    requires TaskInv(l.(doc := m.doc), m.tasks[k], Assemble(m.doc.value.dataChunks))
    ensures RecordInv(m)
  {
    UntriedFrom(l, k);
    AppendGrows(l.start, l.tasks, m.tasks, k);
    AppendRecords(l, m, k);
    AppendKeepsWinner(l, m, k);
    OthersKept(l, m, k);
    assert ContextUpTo(m.start, m.tasks, k) == Assemble(m.doc.value.dataChunks);
    assert TaskInv(m, m.tasks[k], ContextUpTo(m.start, m.tasks, k));
  }

  lemma AppendStep(l: Lane, k: nat, a: Answer, acknowledged: bool)
    requires InOrder(l) && RecordInv(l) && Possible(l, Work(k, a, acknowledged))
    requires forall j | 0 <= j < k :: IsSettled(l.tasks[j])
    requires l.doc.Some? && l.tasks[k].progress == Working(Appending(l.tasks[k].chunk))
    ensures RecordInv(WorkOn(l, k, a, acknowledged))
  {
    var m, t := WorkOn(l, k, a, acknowledged), l.tasks[k];
    assert TaskInv(l, t, ContextUpTo(l.start, l.tasks, k));
    AppendFits(l, t, ContextUpTo(l.start, l.tasks, k), a, acknowledged);
    var (doc, moved, won) := Handle(l.doc.value, t, a, acknowledged);
    assert m == l.(doc := Some(doc), tasks := l.tasks[k := moved]);
    AppendedFits(l, m, k);
  }

  /** Winning the claim: everything delivered before is settled, and none of it met an ended job. */
  lemma WinnerSet(l: Lane, m: Lane, k: nat)
    requires m.start == l.start
    requires RecordInv(l) && k < |l.tasks| && l.doc.Some? && !IsTerminal(l.doc.value.status)
    requires forall j | 0 <= j < k :: IsSettled(l.tasks[j])
    requires |m.tasks| == |l.tasks| && m.tasks == l.tasks[k := m.tasks[k]] && m.winner == Some(k)
    requires m.tasks[k].tried == l.tasks[k].tried && m.tasks[k].chunk == l.tasks[k].chunk && m.tasks[k].tried
    requires m.doc.Some? && m.doc.value.status.Planning? && m.doc.value.contextUsed == Some(ContextUpTo(l.start, l.tasks, k))
    ensures WinnerInv(m)
  {
    ContextsUnchanged(l.start, l.tasks, m.tasks);
    forall j | 0 <= j < k ensures !Skipped(l.tasks[j]) {
      assert TaskInv(l, l.tasks[j], ContextUpTo(l.start, l.tasks, j));
    }
  }

  lemma OtherStep(l: Lane, k: nat, a: Answer, acknowledged: bool)
    requires InOrder(l) && RecordInv(l) && Possible(l, Work(k, a, acknowledged))
    requires forall j | 0 <= j < k :: IsSettled(l.tasks[j])
    requires l.doc.Some? && !l.tasks[k].progress.call.Appending?
    requires l.tasks[k].progress.call.Looking? ==> l.doc.value.userId == l.tasks[k].userId
    ensures RecordInv(WorkOn(l, k, a, acknowledged))
  {
    var m := WorkOn(l, k, a, acknowledged);
    assert TaskInv(l, l.tasks[k], ContextUpTo(l.start, l.tasks, k));
    OtherFits(l, k, l.tasks[k], ContextUpTo(l.start, l.tasks, k), a, acknowledged);
    var (doc, moved, won) := Handle(l.doc.value, l.tasks[k], a, acknowledged);
    assert m == l.(doc := Some(doc), tasks := l.tasks[k := moved], winner := if won then Some(k) else l.winner);
    if won {
      WinnerSet(l, m, k);
    } else {
      WinnerStays(l, m, k);
    }
    QuietStep(l, m, k);
  }

  lemma DeadLetterStep(l: Lane, k: nat, a: Answer, acknowledged: bool)
    requires InOrder(l) && RecordInv(l) && Possible(l, Work(k, a, acknowledged))
    requires forall j | 0 <= j < k :: IsSettled(l.tasks[j])
    requires l.doc.None? || (l.tasks[k].progress.call.Looking? && l.doc.value.userId != l.tasks[k].userId)
    ensures RecordInv(WorkOn(l, k, a, acknowledged))
  {
    var m := WorkOn(l, k, a, acknowledged);
    assert TaskInv(l, l.tasks[k], ContextUpTo(l.start, l.tasks, k));
    WinnerStays(l, m, k);
    QuietStep(l, m, k);
  }

  /** Beginning, breaking off and settling a delivery record nothing. */
  lemma MoveStep(l: Lane, tail: Option<nat>, k: nat, e: Event)
    requires InOrder(l) && RecordInv(l) && Possible(l, e) && e in {BeginWork(k), Break(k), Finally(k)}
    requires forall j | 0 <= j < k :: IsSettled(l.tasks[j])
    ensures RecordInv(Occur(l, tail, e))
  {
    var m := Occur(l, tail, e);
    assert TaskInv(l, l.tasks[k], ContextUpTo(l.start, l.tasks, k));
    WinnerStays(l, m, k);
    QuietStep(l, m, k);
  }

  lemma DeliverKeepsWinner(l: Lane, m: Lane)
    requires WinnerInv(l) && m.start == l.start && m.doc == l.doc && m.winner == l.winner
    requires |m.tasks| == |l.tasks| + 1 && m.tasks[..|l.tasks|] == l.tasks
    ensures WinnerInv(m)
  {
    if l.winner.Some? {
      var w := l.winner.value;
      assert m.tasks[..w + 1] == l.tasks[..w + 1];
      assert forall j | 0 <= j < |l.tasks| :: m.tasks[j] == l.tasks[j];
    }
  }

  lemma DeliverStep(l: Lane, tail: Option<nat>, userId: string, chunk: Chunk)
    requires RecordInv(l)
    ensures RecordInv(Occur(l, tail, Deliver(userId, chunk)))
  {
    var m := Occur(l, tail, Deliver(userId, chunk));
    ContextsUnchanged(l.start, l.tasks, m.tasks);
    forall i | 0 <= i < |m.tasks|
      ensures TaskInv(m, m.tasks[i], ContextUpTo(m.start, m.tasks, i))
    {
      if i < |l.tasks| {
        assert m.tasks[i] == l.tasks[i];
        assert TaskInv(l, l.tasks[i], ContextUpTo(l.start, l.tasks, i));
      }
    }
    DeliverKeepsWinner(l, m);
  }

  lemma OutsideStep(l: Lane, tail: Option<nat>, doc: JobDoc)
    requires RecordInv(l) && Possible(l, Outside(doc))
    ensures RecordInv(Occur(l, tail, Outside(doc)))
  {
  }

  lemma RecordKept(l: Lane, tail: Option<nat>, e: Event)
    requires InOrder(l) && RecordInv(l) && Possible(l, e)
    ensures RecordInv(Occur(l, tail, e))
  {
    match e
    case Deliver(userId, chunk) => DeliverStep(l, tail, userId, chunk);
    case Work(k, a, acknowledged) =>
      assert TaskInv(l, l.tasks[k], ContextUpTo(l.start, l.tasks, k));
      if l.doc.None? || (l.tasks[k].progress.call.Looking? && l.doc.value.userId != l.tasks[k].userId) {
        DeadLetterStep(l, k, a, acknowledged);
      } else if l.tasks[k].progress.call.Appending? {
        AppendStep(l, k, a, acknowledged);
      } else {
        OtherStep(l, k, a, acknowledged);
      }
    case BeginWork(k) =>
      if l.tasks[k].previous.Some? { SettledPrefix(l, k - 1); }
      MoveStep(l, tail, k, e);
    case Break(k) => MoveStep(l, tail, k, e);
    case Finally(k) => MoveStep(l, tail, k, e);
    case Outside(doc) => OutsideStep(l, tail, doc);
  }

  // What other actors do

  /** The call is a chunk handler's, up to its claim. */
  predicate HandlerStep(s: JobProtocol.State, a: Action) {
    a.Advance? && a.id in s.calls && IsHandler(s.calls[a.id])
  }

  /** The lane's winner is a call of the protocol's run that claimed the job, and this is not one of its steps. */
  ghost predicate WonBefore(r: JobProtocol.Run, a: Action) {
    exists earlier, h ::
      && Continues(r, earlier) && h in JobProtocol.End(earlier).calls && JobProtocol.End(earlier).calls[h].PlanningPhase?
      && !(a.Advance? && a.id == h)
  }

  lemma OthersRecordNothing(s: JobProtocol.State, a: Action)
    requires Inv(s) && Enabled(CONTRACT, s, a) && !HandlerStep(s, a)
    ensures SameRecord(s.doc, Apply(s, a).doc)
  {
  }

  /** Every step that another actor of the job's protocol takes in any run is one the consumer allows for, or leaves the
      document as it is. */
  lemma OutsideIsDerived(l: Lane, r: JobProtocol.Run, a: Action)
    requires Legal(CONTRACT, r) && Enabled(CONTRACT, JobProtocol.End(r), a) && !HandlerStep(JobProtocol.End(r), a)
    requires l.doc == Some(JobProtocol.End(r).doc) && (l.winner.Some? ==> WonBefore(r, a))
    ensures var after := Apply(JobProtocol.End(r), a).doc;
      l.doc == Some(after) || Possible(l, Outside(after))
  {
    EveryRunIsSafe(r);
    NextKeepsInv(JobProtocol.End(r), a);
    OthersRecordNothing(JobProtocol.End(r), a);
    if l.winner.Some? {
      var earlier, h :| Continues(r, earlier) && h in JobProtocol.End(earlier).calls
        && JobProtocol.End(earlier).calls[h].PlanningPhase? && !(a.Advance? && a.id == h);
      ClaimedIsLeftAlone(earlier, r, h, a);
    }
  }

  // All jobs together

  ghost predicate LaneOk(l: Lane, tail: Option<nat>) {
    InOrder(l) && ChainMatches(l, tail) && RecordInv(l)
  }

  /** A consumer that has just started, on a job that may have recorded chunks before. */
  predicate Fresh(l: Lane) {
    l.tasks == [] && l.winner.None? && (l.doc.Some? ==> l.start == l.doc.value)
  }

  function Next(s: Consumer, jobId: string, e: Event): Consumer
    requires jobId in s.lanes
  {
    var l := s.lanes[jobId];
    Consumer(
      s.lanes[jobId := Occur(l, Tail(s.jobChains, jobId), e)],
      match e
      case Deliver(_, _) => s.jobChains[jobId := |l.tasks|]
      case Finally(k) => AfterFinally(s.jobChains, jobId, k)
      case _ => s.jobChains)
  }

  datatype Run = Start(consumer: Consumer) | After(before: Run, jobId: string, event: Event)

  /** `None` when some event of the run was not possible. */
  function Now(r: Run): Option<Consumer> {
    match r
    case Start(s) => if s.jobChains == map[] && (forall j | j in s.lanes :: Fresh(s.lanes[j])) then Some(s) else None
    case After(before, jobId, e) =>
      var s := Now(before);
      if s.Some? && jobId in s.value.lanes && Possible(s.value.lanes[jobId], e) then Some(Next(s.value, jobId, e)) else None
  }

  ghost predicate AllOk(s: Consumer) {
    s.jobChains.Keys <= s.lanes.Keys && forall j | j in s.lanes :: LaneOk(s.lanes[j], Tail(s.jobChains, j))
  }

  lemma NextTailIs(s: Consumer, jobId: string, e: Event)
    requires jobId in s.lanes
    ensures var t := Next(s, jobId, e);
      && Tail(t.jobChains, jobId) == NextTail(s.lanes[jobId], Tail(s.jobChains, jobId), e)
      && forall j | j != jobId :: Tail(t.jobChains, j) == Tail(s.jobChains, j)
  {
  }

  lemma NextKeepsAllOk(s: Consumer, jobId: string, e: Event)
    requires AllOk(s) && jobId in s.lanes && Possible(s.lanes[jobId], e)
    ensures AllOk(Next(s, jobId, e))
  {
    var l, tail := s.lanes[jobId], Tail(s.jobChains, jobId);
    assert LaneOk(l, tail);
    OrderKept(l, tail, e);
    RecordKept(l, tail, e);
    NextTailIs(s, jobId, e);
  }

  /** Whatever the interleaving of jobs, deliveries, failures and other actors, every lane is in order. */
  lemma {:induction false} EveryLaneOk(r: Run)
    requires Now(r).Some?
    ensures AllOk(Now(r).value)
  {
    if r.After? {
      EveryLaneOk(r.before);
      NextKeepsAllOk(Now(r.before).value, r.jobId, r.event);
    }
  }

  /** In every run: at most one delivery of a job is being handled, it is handled after all earlier ones are
      settled, and the chain map has an entry for a job exactly while the job has unfinished work. */
  lemma OneAtATime(r: Run, jobId: string)
    requires Now(r).Some? && jobId in Now(r).value.lanes
    ensures var s := Now(r).value; var ts := s.lanes[jobId].tasks;
      && (forall j, k | 0 <= j < k < |ts| && ts[k].progress.Working? :: IsSettled(ts[j]))
      && (jobId in s.jobChains <==> exists k :: 0 <= k < |ts| && !IsSettled(ts[k]))
  {
    EveryLaneOk(r);
    assert LaneOk(Now(r).value.lanes[jobId], Tail(Now(r).value.jobChains, jobId));
  }

  /** The chunks delivered for the job's own user, in delivery order. */
  function Mine(ts: seq<Task>, userId: string): seq<Chunk> {
    if ts == [] then []
    else Mine(ts[..|ts| - 1], userId) + if ts[|ts| - 1].userId == userId then [ts[|ts| - 1].chunk] else []
  }

  lemma {:induction false} TriedIsMine(ts: seq<Task>, userId: string)
    requires forall i | 0 <= i < |ts| :: ts[i].tried <==> ts[i].userId == userId
    ensures Tried(ts) == Mine(ts, userId)
  {
    if ts != [] {
      TriedIsMine(ts[..|ts| - 1], userId);
    }
  }

  predicate NoRequeues(ts: seq<Task>) {
    forall i | 0 <= i < |ts| :: ts[i].progress != Settled(Requeued)
  }

  /** A settled delivery that met neither an ended job nor a requeue reached the append exactly when it was for the job's
      user. */
  lemma TriedIffMine(l: Lane, t: Task, upTo: Context)
    requires l.doc.Some? && TaskInv(l, t, upTo)
    requires t.tried || (IsSettled(t) && !Skipped(t) && t.progress != Settled(Requeued))
    ensures t.tried <==> t.userId == l.doc.value.userId
  {
  }

  lemma TriedAreMine(l: Lane, k: nat)
    requires RecordInv(l) && l.winner == Some(k) && k < |l.tasks| && NoRequeues(l.tasks[..k])
    ensures l.doc.Some? && Tried(l.tasks[..k + 1]) == Mine(l.tasks[..k + 1], l.doc.value.userId)
  {
    var ts := l.tasks[..k + 1];
    forall i | 0 <= i < |ts|
      ensures ts[i].tried <==> ts[i].userId == l.doc.value.userId
    {
      assert TaskInv(l, l.tasks[i], ContextUpTo(l.start, l.tasks, i));
      assert i < k ==> l.tasks[..k][i] == l.tasks[i] && IsSettled(l.tasks[i]) && !Skipped(l.tasks[i]);
      TriedIffMine(l, l.tasks[i], ContextUpTo(l.start, l.tasks, i));
    }
    TriedIsMine(ts, l.doc.value.userId);
  }

  /** In every run: when a delivered `completed` chunk wins the claim and nothing delivered before it was requeued,
      the job's context is exactly what was recorded when the consumer started and all deliveries up to it amount to,
      none lost and none from after it. */
  lemma WinnerHoldsAllDeliveries(r: Run, jobId: string, k: nat)
    requires Now(r).Some? && jobId in Now(r).value.lanes
    requires var l := Now(r).value.lanes[jobId]; l.winner == Some(k) && k < |l.tasks| && NoRequeues(l.tasks[..k])
    ensures var l := Now(r).value.lanes[jobId];
      && l.doc.Some? && l.doc.value.contextUsed.Some?
      && l.doc.value.contextUsed.value.chunks == ContextFrom(l.start, Mine(l.tasks[..k + 1], l.doc.value.userId)).chunks
  {
    EveryLaneOk(r);
    var l := Now(r).value.lanes[jobId];
    assert LaneOk(l, Tail(Now(r).value.jobChains, jobId));
    TriedAreMine(l, k);
  }
}
