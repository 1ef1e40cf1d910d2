/** How deliveries end: which are acknowledged, which go back on the queue and which are dead-lettered. */
module DeliveryOutcomes {
  import opened Options
  import opened PlanningJobs
  import opened ContextAssembly
  import opened ResultsConsumer
  import P = JobProtocol

  predicate InterruptedBy(e: Event, k: nat) {
    e == Break(k) || (e.Work? && e.k == k && !e.acknowledged)
  }

  /** Some step of handling delivery `k` failed to be acknowledged, or the handling was broken off. */
  predicate Interrupted(r: Run, jobId: string, k: nat) {
    r.After? &&
    (|| Interrupted(r.before, jobId, k)
     || (r.jobId == jobId && InterruptedBy(r.event, k)))
  }

  predicate IsOver(l: Lane) {
    l.doc.Some? && IsTerminal(l.doc.value.status)
  }

  function LaneOf(r: Run, jobId: string): Option<Lane> {
    if Now(r).Some? && jobId in Now(r).value.lanes then Some(Now(r).value.lanes[jobId]) else None
  }

  predicate EndedIn(l: Lane, m: Lane, e: Event, k: nat) {
    e.Work? && e.k == k && e.acknowledged && !IsOver(l) && IsOver(m)
  }

  /** A step of handling delivery `k` ended the job. */
  predicate EndedBy(r: Run, jobId: string, k: nat) {
    r.After? &&
    (|| EndedBy(r.before, jobId, k)
     || (&& r.jobId == jobId && LaneOf(r.before, jobId).Some? && LaneOf(r, jobId).Some?
         && EndedIn(LaneOf(r.before, jobId).value, LaneOf(r, jobId).value, r.event, k)))
  }

  /** The job is known and the delivery is for its own user. */
  predicate ForItsUser(l: Lane, t: Task) {
    l.doc.Some? && l.doc.value.userId == t.userId
  }

  function DocUser(l: Lane): Option<string> {
    if l.doc.Some? then Some(l.doc.value.userId) else None
  }

  /** What became of a delivery (`mine`: it is for its job's user), given what happened while it was handled. */
  predicate OutcomeFits(mine: bool, p: Progress, interrupted: bool, ended: bool) {
    match p
    case Waiting => !interrupted && !ended
    case Working(_) => !interrupted && !ended
    case Ended(outcome) => Classified(mine, outcome, interrupted, ended)
    case Settled(outcome) => Classified(mine, outcome, interrupted, ended)
  }

  predicate Classified(mine: bool, outcome: Outcome, interrupted: bool, ended: bool) {
    && (outcome == Requeued <==> interrupted)
    && (outcome == DeadLettered <==> !interrupted && !mine)
    && (outcome == Acked(true) <==> !interrupted && mine && ended)
    && (outcome == Acked(false) <==> !interrupted && mine && !ended)
  }

  /** The step that is next for a delivery at work; past the look the job is its user's. */
  predicate Ready(l: Lane, t: Task) {
    && t.progress.Working?
    && (P.IsHandler(t.progress.call) || t.progress.call.PlanningPhase?)
    && (!t.progress.call.Looking? ==> ForItsUser(l, t))
    && (t.progress.call.Looking? ==> t.progress.call.userId == t.userId)
    && (t.progress.call.PlanningPhase? ==> l.doc.value.status == Planning)
  }

  /** A call reports that it ended the job exactly when its step did. */
  lemma CallEndsJob(c: P.Call, d: JobDoc, a: P.Answer)
    requires P.IsHandler(c) || (c.PlanningPhase? && d.status == Planning)
    ensures var (next, e) := P.StepCall(c, d, a);
      && (next == P.Returned(true) <==> !IsTerminal(d.status) && IsTerminal(e.status))
      && e.userId == d.userId
  {
  }

  /** One step of a handling: requeued when it was not acknowledged, dead-lettered when the look found no job of the
      user's, and otherwise at work still or acked, with `terminal` exactly when this step ended the job. */
  lemma WorkedOn(l: Lane, k: nat, a: P.Answer, acknowledged: bool)
    requires k < |l.tasks| && Ready(l, l.tasks[k])
    ensures var m := WorkOn(l, k, a, acknowledged); var mine := ForItsUser(l, l.tasks[k]);
      && |m.tasks| == |l.tasks| && m.tasks == l.tasks[k := m.tasks[k]]
      && m.tasks[k].userId == l.tasks[k].userId && DocUser(m) == DocUser(l)
      && OutcomeFits(mine, m.tasks[k].progress, !acknowledged, acknowledged && !IsOver(l) && IsOver(m))
  {
    if ForItsUser(l, l.tasks[k]) {
      CallEndsJob(l.tasks[k].progress.call, l.doc.value, a);
    }
  }

  /** Delivery `k` has come out as what happened to it says; what is not delivered yet was not handled. */
  predicate Fits(l: Lane, k: nat, interrupted: bool, ended: bool) {
    if k < |l.tasks| then OutcomeFits(ForItsUser(l, l.tasks[k]), l.tasks[k].progress, interrupted, ended)
    else !interrupted && !ended
  }

  /** Nothing but a handling's own steps moves its delivery on, and whose job it is never changes. */
  lemma EventFits(l: Lane, tail: Option<nat>, e: Event, k: nat, interrupted: bool, ended: bool)
    requires Possible(l, e) && !e.Work? && Fits(l, k, interrupted, ended)
    ensures Fits(Occur(l, tail, e), k, interrupted || e == Break(k), ended)
  {
  }

  lemma WorkFits(l: Lane, tail: Option<nat>, e: Event, k: nat, interrupted: bool, ended: bool)
    requires e.Work? && e.k < |l.tasks| && Ready(l, l.tasks[e.k]) && Fits(l, k, interrupted, ended)
    ensures var m := Occur(l, tail, e);
      Fits(m, k, interrupted || InterruptedBy(e, k), ended || EndedIn(l, m, e, k))
  {
    WorkedOn(l, e.k, e.answer, e.acknowledged);
  }

  lemma WorkIsReady(l: Lane, k: nat)
    requires RecordInv(l) && k < |l.tasks| && l.tasks[k].progress.Working?
    ensures Ready(l, l.tasks[k])
  {
    assert TaskInv(l, l.tasks[k], ContextUpTo(l.start, l.tasks, k));
  }

  lemma StepFits(l: Lane, tail: Option<nat>, e: Event, k: nat, interrupted: bool, ended: bool)
    requires RecordInv(l) && Possible(l, e) && Fits(l, k, interrupted, ended)
    ensures var m := Occur(l, tail, e);
      Fits(m, k, interrupted || InterruptedBy(e, k), ended || EndedIn(l, m, e, k))
  {
    if e.Work? {
      WorkIsReady(l, e.k);
      WorkFits(l, tail, e, k, interrupted, ended);
    } else {
      EventFits(l, tail, e, k, interrupted, ended);
    }
  }

  /** In every run every delivery has come out as what happened to it says. */
  lemma {:induction false} EveryOutcome(r: Run, jobId: string, k: nat)
    requires LaneOf(r, jobId).Some?
    ensures Fits(LaneOf(r, jobId).value, k, Interrupted(r, jobId, k), EndedBy(r, jobId, k))
  {
    if r.After? {
      var l, tail := LaneOf(r.before, jobId).value, Tail(Now(r.before).value.jobChains, jobId);
      EveryOutcome(r.before, jobId, k);
      if r.jobId == jobId {
        EveryLaneOk(r.before);
        assert LaneOk(l, tail);
        StepFits(l, tail, r.event, k, Interrupted(r.before, jobId, k), EndedBy(r.before, jobId, k));
      }
    } else {
      assert Fresh(LaneOf(r, jobId).value);
    }
  }

  /** In every run a settled delivery went back on the queue exactly when a step of its handling was not acknowledged or it
      was broken off, was dead-lettered exactly when it was handled through and its job was unknown or another user's, and
      was acked otherwise, as terminal exactly when its handling ended the job. */
  lemma SettledAs(r: Run, jobId: string, k: nat)
    requires LaneOf(r, jobId).Some? && k < |LaneOf(r, jobId).value.tasks|
    requires LaneOf(r, jobId).value.tasks[k].progress.Settled?
    ensures var l := LaneOf(r, jobId).value; var outcome := l.tasks[k].progress.outcome;
      && (outcome == Requeued <==> Interrupted(r, jobId, k))
      && (outcome == DeadLettered <==> !Interrupted(r, jobId, k) && !ForItsUser(l, l.tasks[k]))
      && (outcome.Acked? <==> !Interrupted(r, jobId, k) && ForItsUser(l, l.tasks[k]))
      && (outcome.Acked? ==> (outcome.terminal <==> EndedBy(r, jobId, k)))
  {
    EveryOutcome(r, jobId, k);
  }

  // What an undisturbed handling does

  /** Delivery `k` is next and its job is its user's, has not ended and has not recorded its number. */
  predicate IsNext(l: Lane, k: nat, d: JobDoc, t: Task) {
    && k < |l.tasks| && l.tasks[k] == t && l.doc == Some(d)
    && t.progress.Waiting? && !t.tried && (t.previous.Some? ==> t.previous.value < k && IsSettled(l.tasks[t.previous.value]))
    && d.userId == t.userId && !IsTerminal(d.status) && t.chunk.sequence !in d.chunkSequences
  }

  function Recorded(d: JobDoc, c: Chunk): JobDoc {
    d.(chunkSequences := d.chunkSequences + [c.sequence],
       dataChunks := d.dataChunks + if c.DataMessage? then [DataChunk(c.sequence, c.entry)] else [])
  }

  function At(l: Lane, k: nat, d: JobDoc, t: Task): Lane
    requires k < |l.tasks|
  {
    l.(doc := Some(d), tasks := l.tasks[k := t])
  }

  /** It is looked up and appended. */
  lemma Appended(l: Lane, tail: Option<nat>, k: nat, d: JobDoc, t: Task, a: P.Answer)
    requires IsNext(l, k, d, t)
    ensures Possible(l, BeginWork(k))
    ensures var l1 := Occur(l, tail, BeginWork(k));
      && Possible(l1, Work(k, a, true))
      && Occur(l1, tail, Work(k, a, true)) == At(l, k, d, t.(progress := Working(P.Appending(t.chunk))))
  {
    var l1 := Occur(l, tail, BeginWork(k));
    assert l1 == At(l, k, d, t.(progress := Working(P.Looking(t.userId, t.chunk))));
    assert l1.tasks[k := t.(progress := Working(P.Appending(t.chunk)))]
      == l.tasks[k := t.(progress := Working(P.Appending(t.chunk)))];
  }

  /** One acknowledged step past the look. */
  lemma StepAt(l: Lane, tail: Option<nat>, k: nat, d: JobDoc, t: Task, a: P.Answer)
    requires k < |l.tasks| && t.progress.Working? && !t.progress.call.Looking?
    ensures var (doc, moved, won) := Handle(d, t, a, true);
      && Possible(At(l, k, d, t), Work(k, a, true))
      && Occur(At(l, k, d, t), tail, Work(k, a, true))
         == At(l.(winner := if won then Some(k) else l.winner), k, doc, moved)
  {
    var (doc, moved, won) := Handle(d, t, a, true);
    assert l.tasks[k := t][k := moved] == l.tasks[k := moved];
  }

  lemma FinallyAt(l: Lane, tail: Option<nat>, k: nat, d: JobDoc, t: Task)
    requires k < |l.tasks| && t.progress.Ended?
    ensures Possible(At(l, k, d, t), Finally(k))
    ensures Occur(At(l, k, d, t), tail, Finally(k)) == At(l, k, d, t.(progress := Settled(t.progress.outcome)))
  {
    var settled := t.(progress := Settled(t.progress.outcome));
    assert l.tasks[k := t][k := settled] == l.tasks[k := settled];
  }

  /** A new data chunk handled without a failure is recorded and acked. */
  lemma DataHandled(l: Lane, tail: Option<nat>, k: nat, d: JobDoc, t: Task, a: P.Answer)
    requires IsNext(l, k, d, t) && t.chunk.DataMessage?
    ensures var l2 := At(l, k, d, t.(progress := Working(P.Appending(t.chunk))));
      var l3 := Occur(l2, tail, Work(k, a, true));
      && Possible(l2, Work(k, a, true)) && Possible(l3, Finally(k))
      && Occur(l3, tail, Finally(k)) == At(l, k, Recorded(d, t.chunk), t.(progress := Settled(Acked(false)), tried := true))
  {
    StepAt(l, tail, k, d, t.(progress := Working(P.Appending(t.chunk))), a);
    FinallyAt(l, tail, k, Recorded(d, t.chunk), t.(progress := Ended(Acked(false)), tried := true));
  }

  /** The document of a job that was planned with this context. */
  function Planned(d: JobDoc, c: Context, a: P.Answer): JobDoc {
    d.(status := if a.ok then Completed else Failed,
       result := if a.ok then Some(a.text) else d.result,
       errorCode := if a.ok then d.errorCode else Some(a.text),
       contextUsed := Some(Context(c.chunks, a.retrieval)))
  }

  lemma CompletedSteps(d: JobDoc, t: Task, a: P.Answer)
    requires t.chunk.StatusMessage? && t.chunk.phase == Complete && d.status == Gathering
    requires t.chunk.sequence !in d.chunkSequences
    ensures var e, c, done := Recorded(d, t.chunk), Assemble(d.dataChunks), t.(tried := true);
      && Handle(d, t.(progress := Working(P.Appending(t.chunk))), a, true)
         == (e, done.(progress := Working(P.ClaimingPlanning(c))), false)
      && Handle(e, done.(progress := Working(P.ClaimingPlanning(c))), a, true)
         == (e.(status := Planning, contextUsed := Some(c)), done.(progress := Working(P.PlanningPhase(c))), true)
      && Handle(e.(status := Planning, contextUsed := Some(c)), done.(progress := Working(P.PlanningPhase(c))), a, true)
         == (Planned(e, c, a), done.(progress := Ended(Acked(true))), false)
  {
    assert d.dataChunks + [] == d.dataChunks;
  }

  /** A `completed` chunk of a gathering job handled without a failure plans the job with all that was recorded, and is
      acked as terminal. */
  lemma CompletedHandled(l: Lane, tail: Option<nat>, k: nat, d: JobDoc, t: Task, a: P.Answer)
    requires IsNext(l, k, d, t) && t.chunk.StatusMessage? && t.chunk.phase == Complete && d.status == Gathering
    ensures var l2 := At(l, k, d, t.(progress := Working(P.Appending(t.chunk))));
      var l3 := Occur(l2, tail, Work(k, a, true));
      var l4 := Occur(l3, tail, Work(k, a, true));
      var l5 := Occur(l4, tail, Work(k, a, true));
      && Possible(l2, Work(k, a, true)) && Possible(l3, Work(k, a, true)) && Possible(l4, Work(k, a, true))
      && Possible(l5, Finally(k))
      && Occur(l5, tail, Finally(k))
         == At(l.(winner := Some(k)), k, Planned(Recorded(d, t.chunk), Assemble(d.dataChunks), a),
               t.(progress := Settled(Acked(true)), tried := true))
  {
    var done, won := t.(tried := true), l.(winner := Some(k));
    var e, c := Recorded(d, t.chunk), Assemble(d.dataChunks);
    CompletedSteps(d, t, a);
    StepAt(l, tail, k, d, t.(progress := Working(P.Appending(t.chunk))), a);
    StepAt(l, tail, k, e, done.(progress := Working(P.ClaimingPlanning(c))), a);
    StepAt(won, tail, k, e.(status := Planning, contextUsed := Some(c)), done.(progress := Working(P.PlanningPhase(c))), a);
    FinallyAt(won, tail, k, Planned(e, c, a), done.(progress := Ended(Acked(true))));
  }

  // A run with two deliveries

  lemma Follows(r: Run, jobId: string, e: Event)
    requires LaneOf(r, jobId).Some? && Possible(LaneOf(r, jobId).value, e)
    ensures LaneOf(After(r, jobId, e), jobId)
         == Some(Occur(LaneOf(r, jobId).value, Tail(Now(r).value.jobChains, jobId), e))
  {
  }

  /** Delivery `k` is begun and takes this many acknowledged steps. */
  function Worked(r: Run, jobId: string, k: nat, a: P.Answer, steps: nat): Run {
    if steps == 0 then After(r, jobId, BeginWork(k)) else After(Worked(r, jobId, k, a, steps - 1), jobId, Work(k, a, true))
  }

  function HandledThrough(r: Run, jobId: string, k: nat, a: P.Answer, steps: nat): Run {
    After(Worked(r, jobId, k, a, steps), jobId, Finally(k))
  }

  lemma AppendedRun(r: Run, jobId: string, k: nat, d: JobDoc, t: Task, a: P.Answer)
    requires LaneOf(r, jobId).Some? && IsNext(LaneOf(r, jobId).value, k, d, t)
    ensures LaneOf(Worked(r, jobId, k, a, 1), jobId)
         == Some(At(LaneOf(r, jobId).value, k, d, t.(progress := Working(P.Appending(t.chunk)))))
  {
    Appended(LaneOf(r, jobId).value, Tail(Now(r).value.jobChains, jobId), k, d, t, a);
    Follows(r, jobId, BeginWork(k));
    Follows(Worked(r, jobId, k, a, 0), jobId, Work(k, a, true));
  }

  lemma DataRun(r: Run, jobId: string, k: nat, d: JobDoc, t: Task, a: P.Answer)
    requires LaneOf(r, jobId).Some? && IsNext(LaneOf(r, jobId).value, k, d, t) && t.chunk.DataMessage?
    ensures LaneOf(HandledThrough(r, jobId, k, a, 2), jobId)
         == Some(At(LaneOf(r, jobId).value, k, Recorded(d, t.chunk), t.(progress := Settled(Acked(false)), tried := true)))
  {
    AppendedRun(r, jobId, k, d, t, a);
    DataHandled(LaneOf(r, jobId).value, None, k, d, t, a);
    Follows(Worked(r, jobId, k, a, 1), jobId, Work(k, a, true));
    Follows(Worked(r, jobId, k, a, 2), jobId, Finally(k));
  }

  lemma CompletedRun(r: Run, jobId: string, k: nat, d: JobDoc, t: Task, a: P.Answer)
    requires LaneOf(r, jobId).Some? && IsNext(LaneOf(r, jobId).value, k, d, t)
    requires t.chunk.StatusMessage? && t.chunk.phase == Complete && d.status == Gathering
    ensures LaneOf(HandledThrough(r, jobId, k, a, 4), jobId)
         == Some(At(LaneOf(r, jobId).value.(winner := Some(k)), k, Planned(Recorded(d, t.chunk), Assemble(d.dataChunks), a),
                    t.(progress := Settled(Acked(true)), tried := true)))
  {
    AppendedRun(r, jobId, k, d, t, a);
    CompletedHandled(LaneOf(r, jobId).value, None, k, d, t, a);
    Follows(Worked(r, jobId, k, a, 1), jobId, Work(k, a, true));
    Follows(Worked(r, jobId, k, a, 2), jobId, Work(k, a, true));
    Follows(Worked(r, jobId, k, a, 3), jobId, Work(k, a, true));
    Follows(Worked(r, jobId, k, a, 4), jobId, Finally(k));
  }

  /** Both chunks are delivered before the first is handled. */
  function BothDelivered(r: Run, jobId: string, userId: string, data: Chunk, completed: Chunk): Run {
    After(After(r, jobId, Deliver(userId, data)), jobId, Deliver(userId, completed))
  }

  /** A fresh lane with both chunks delivered. */
  function TwoWaiting(d: JobDoc, data: Chunk, completed: Chunk): Lane {
    Lane(Some(d), [Task(d.userId, data, None, Waiting, false), Task(d.userId, completed, Some(0), Waiting, false)], None, d)
  }

  lemma TwoDelivered(s: Consumer, jobId: string, d: JobDoc, data: Chunk, completed: Chunk)
    requires Now(Start(s)).Some? && jobId in s.lanes && s.lanes[jobId] == Lane(Some(d), [], None, d)
    ensures LaneOf(BothDelivered(Start(s), jobId, d.userId, data, completed), jobId) == Some(TwoWaiting(d, data, completed))
  {
    var first := After(Start(s), jobId, Deliver(d.userId, data));
    Follows(Start(s), jobId, Deliver(d.userId, data));
    NextTailIs(s, jobId, Deliver(d.userId, data));
    assert LaneOf(first, jobId).value == Lane(Some(d), [Task(d.userId, data, None, Waiting, false)], None, d);
    Follows(first, jobId, Deliver(d.userId, completed));
    assert LaneOf(BothDelivered(Start(s), jobId, d.userId, data, completed), jobId).value.tasks
      == TwoWaiting(d, data, completed).tasks;
  }

  /** The lane in which delivery 0 was recorded and delivery 1 planned the job. */
  function BothHandled(d: JobDoc, data: Chunk, completed: Chunk, a: P.Answer): Lane {
    var e := Recorded(d, data);
    Lane(Some(Planned(Recorded(e, completed), Assemble(e.dataChunks), a)),
         [Task(d.userId, data, None, Settled(Acked(false)), true),
          Task(d.userId, completed, Some(0), Settled(Acked(true)), true)],
         Some(1), d)
  }

  lemma BothTasks(d: JobDoc, data: Chunk, completed: Chunk)
    ensures var l := TwoWaiting(d, data, completed);
      l.tasks[0 := l.tasks[0].(progress := Settled(Acked(false)), tried := true)]
             [1 := l.tasks[1].(progress := Settled(Acked(true)), tried := true)]
      == [Task(d.userId, data, None, Settled(Acked(false)), true),
          Task(d.userId, completed, Some(0), Settled(Acked(true)), true)]
  {
  }

  predicate FreshPair(d: JobDoc, data: Chunk, completed: Chunk) {
    && d.status == Gathering && data.DataMessage? && completed.StatusMessage? && completed.phase == Complete
    && data.sequence !in d.chunkSequences && completed.sequence !in d.chunkSequences && data.sequence != completed.sequence
  }

  /** For every gathering job: a new data chunk and then a `completed` chunk, both delivered before either is handled, end
      acked, the second as terminal, with the second as the winner and the first's data in the planned context. */
  lemma DataThenCompleted(s: Consumer, jobId: string, d: JobDoc, data: Chunk, completed: Chunk, a: P.Answer)
    requires Now(Start(s)).Some? && jobId in s.lanes && s.lanes[jobId] == Lane(Some(d), [], None, d)
    requires FreshPair(d, data, completed)
    ensures var r := HandledThrough(
        HandledThrough(BothDelivered(Start(s), jobId, d.userId, data, completed), jobId, 0, a, 2), jobId, 1, a, 4);
      && LaneOf(r, jobId) == Some(BothHandled(d, data, completed, a))
      && NoRequeues(LaneOf(r, jobId).value.tasks)
  {
    var delivered := BothDelivered(Start(s), jobId, d.userId, data, completed);
    var l := TwoWaiting(d, data, completed);
    TwoDelivered(s, jobId, d, data, completed);
    DataRun(delivered, jobId, 0, d, l.tasks[0], a);
    var second := HandledThrough(delivered, jobId, 0, a, 2);
    CompletedRun(second, jobId, 1, Recorded(d, data), l.tasks[1], a);
    BothTasks(d, data, completed);
  }
}
