/** The consumer of one job's chunks and the protocol of the job as one system: a handled delivery is a handler call of the
    protocol, and every other actor takes the protocol's own steps. Each run of the system is a run of the protocol, so
    what the consumer assumes of the others holds. */
module ConsumerSimulation {
  import opened Options
  import opened PlanningJobs
  import opened ContextAssembly
  import P = JobProtocol
  import C = ResultsConsumer
  import D = DeliveryOutcomes

  /** The lane of the job, the tail of its chain and the state of its protocol. */
  datatype Joint = Joint(lane: C.Lane, tail: Option<nat>, protocol: P.State)

  datatype Event = OfLane(event: C.Event) | OfOthers(action: P.Action)

  /** The call that handles delivery `k`; all other calls have even names. */
  function CallOf(k: nat): nat {
    2 * k + 1
  }

  predicate IsEven(id: nat) {
    id % 2 == 0
  }

  /** Steps of the submitter, the workers and the timeouts, and of handlers from before a restart past their claim. */
  predicate ByOthers(a: P.Action) {
    match a
    case StartHandler(_, _, _) => false
    case StartWorker(id, _) => IsEven(id)
    case StartTimeout(id) => IsEven(id)
    case PublishAnswers(id, _, _) => IsEven(id)
    case Advance(id, _, _) => IsEven(id)
    case Crash(id) => IsEven(id)
    case _ => true
  }

  /** The protocol's step of an event of the lane, if it is one: a delivery and the end of a promise are none. */
  function StepOf(l: C.Lane, e: C.Event): Option<P.Action> {
    match e
    case BeginWork(k) =>
      if k < |l.tasks| then Some(P.StartHandler(CallOf(k), l.tasks[k].userId, l.tasks[k].chunk)) else None
    case Work(k, answer, acknowledged) => Some(P.Advance(CallOf(k), answer, acknowledged))
    case Break(k) => Some(P.Crash(CallOf(k)))
    case _ => None
  }

  /** The engine sends nothing before the publish; otherwise anything may happen that is possible on either side. */
  predicate Enabled(j: Joint, e: Event) {
    match e
    case OfLane(event) =>
      !event.Outside? && C.Possible(j.lane, event) && (event.Deliver? ==> j.protocol.published)
    case OfOthers(action) => ByOthers(action) && P.Enabled(P.CONTRACT, j.protocol, action)
  }

  function ProtocolStep(j: Joint, e: Event): Option<P.Action> {
    match e
    case OfLane(event) => StepOf(j.lane, event)
    case OfOthers(action) => Some(action)
  }

  function Stepped(s: P.State, a: Option<P.Action>): P.State {
    if a.Some? then P.Apply(s, a.value) else s
  }

  /** The lane sees of the others what they do to the document. */
  function Next(j: Joint, e: Event): Joint {
    var protocol := Stepped(j.protocol, ProtocolStep(j, e));
    match e
    case OfLane(event) => Joint(C.Occur(j.lane, j.tail, event), C.NextTail(j.lane, j.tail, event), protocol)
    case OfOthers(_) =>
      if protocol.doc == j.protocol.doc then j.(protocol := protocol)
      else j.(lane := C.Occur(j.lane, j.tail, C.Outside(protocol.doc)), protocol := protocol)
  }

  // The two sides agree

  predicate Agrees(s: P.State, k: nat, t: C.Task) {
    match t.progress
    case Waiting => CallOf(k) !in s.calls
    case Working(call) => CallOf(k) in s.calls && s.calls[CallOf(k)] == call
    case _ => CallOf(k) in s.calls && P.Over(s.calls[CallOf(k)])
  }

  predicate CallsAgree(s: P.State, ts: seq<C.Task>) {
    && (forall k | 0 <= k < |ts| :: Agrees(s, k, ts[k]))
    && (forall i | i in s.calls && !IsEven(i) :: i < CallOf(|ts|))
    && (forall i | i in s.calls && IsEven(i) :: !P.IsHandler(s.calls[i]))
  }

  ghost predicate Inv(j: Joint) {
    && P.Inv(j.protocol) && C.LaneOk(j.lane, j.tail)
    && j.lane.doc == Some(j.protocol.doc)
    && CallsAgree(j.protocol, j.lane.tasks)
    && (j.lane.winner.Some? ==> P.ClaimedBy(j.protocol, CallOf(j.lane.winner.value)))
    && (j.lane.tasks != [] ==> j.protocol.published)
  }

  // Events of the lane

  lemma LaneKept(l: C.Lane, tail: Option<nat>, e: C.Event)
    requires C.LaneOk(l, tail) && C.Possible(l, e)
    ensures C.LaneOk(C.Occur(l, tail, e), C.NextTail(l, tail, e))
  {
    C.OrderKept(l, tail, e);
    C.RecordKept(l, tail, e);
  }

  lemma DeliveredAgrees(s: P.State, ts: seq<C.Task>, t: C.Task)
    requires CallsAgree(s, ts) && t.progress.Waiting?
    ensures CallsAgree(s, ts + [t])
  {
    var us := ts + [t];
    assert CallOf(|ts|) !in s.calls;
    forall k | 0 <= k < |us|
      ensures Agrees(s, k, us[k])
    {
      assert k < |ts| ==> us[k] == ts[k];
    }
  }

  /** A delivery that settles is one whose call is over. */
  lemma SettledAgrees(s: P.State, ts: seq<C.Task>, us: seq<C.Task>, k: nat)
    requires CallsAgree(s, ts) && k < |ts| && |us| == |ts| && us == ts[k := us[k]]
    requires ts[k].progress.Ended? && us[k].progress.Settled?
    ensures CallsAgree(s, us)
  {
    assert Agrees(s, k, ts[k]);
  }

  lemma DeliverKeepsInv(j: Joint, userId: string, chunk: Chunk)
    requires Inv(j) && Enabled(j, OfLane(C.Deliver(userId, chunk)))
    ensures Inv(Next(j, OfLane(C.Deliver(userId, chunk))))
  {
    LaneKept(j.lane, j.tail, C.Deliver(userId, chunk));
    DeliveredAgrees(j.protocol, j.lane.tasks, C.Task(userId, chunk, j.tail, C.Waiting, false));
  }

  lemma FinallyKeepsInv(j: Joint, k: nat)
    requires Inv(j) && Enabled(j, OfLane(C.Finally(k)))
    ensures Inv(Next(j, OfLane(C.Finally(k))))
  {
    LaneKept(j.lane, j.tail, C.Finally(k));
    SettledAgrees(j.protocol, j.lane.tasks, Next(j, OfLane(C.Finally(k))).lane.tasks, k);
  }

  /** Moving one delivery and its call together keeps the other calls in step. */
  lemma MovedTogether(s: P.State, t: P.State, ts: seq<C.Task>, us: seq<C.Task>, k: nat)
    requires CallsAgree(s, ts) && k < |ts| && |us| == |ts| && us == ts[k := us[k]]
    requires CallOf(k) in t.calls && t.calls == s.calls[CallOf(k) := t.calls[CallOf(k)]]
    requires Agrees(t, k, us[k])
    ensures CallsAgree(t, us)
  {
    forall i | 0 <= i < |us| && i != k
      ensures Agrees(t, i, us[i])
    {
      assert Agrees(s, i, ts[i]) && CallOf(i) != CallOf(k);
    }
  }

  lemma BeginKeepsInv(j: Joint, k: nat)
    requires Inv(j) && Enabled(j, OfLane(C.BeginWork(k)))
    ensures P.Enabled(P.CONTRACT, j.protocol, StepOf(j.lane, C.BeginWork(k)).value)
    ensures Inv(Next(j, OfLane(C.BeginWork(k))))
  {
    var e := C.BeginWork(k);
    var next, a := Next(j, OfLane(e)), StepOf(j.lane, e).value;
    assert Agrees(j.protocol, k, j.lane.tasks[k]);
    LaneKept(j.lane, j.tail, e);
    P.NextKeepsInv(j.protocol, a);
    MovedTogether(j.protocol, next.protocol, j.lane.tasks, next.lane.tasks, k);
    if j.lane.winner.Some? {
      P.ClaimStep(j.protocol, a, CallOf(j.lane.winner.value));
    }
  }

  lemma BreakKeepsInv(j: Joint, k: nat)
    requires Inv(j) && Enabled(j, OfLane(C.Break(k)))
    ensures P.Enabled(P.CONTRACT, j.protocol, P.Crash(CallOf(k)))
    ensures Inv(Next(j, OfLane(C.Break(k))))
  {
    var e := C.Break(k);
    var next, a := Next(j, OfLane(e)), P.Crash(CallOf(k));
    WorkingCall(j, k);
    LaneKept(j.lane, j.tail, e);
    P.NextKeepsInv(j.protocol, a);
    MovedTogether(j.protocol, next.protocol, j.lane.tasks, next.lane.tasks, k);
    if j.lane.winner.Some? {
      P.ClaimStep(j.protocol, a, CallOf(j.lane.winner.value));
    }
  }

  /** A delivery at work is a handler call that is neither over nor waiting for a publish. */
  lemma WorkingCall(j: Joint, k: nat)
    requires Inv(j) && k < |j.lane.tasks| && j.lane.tasks[k].progress.Working?
    ensures CallOf(k) in j.protocol.calls && j.protocol.calls[CallOf(k)] == j.lane.tasks[k].progress.call
    ensures var c := j.protocol.calls[CallOf(k)];
      && (P.IsHandler(c) || c.PlanningPhase?) && !P.Over(c) && !c.Publishing?
      && (c.Looking? ==> c.userId == j.lane.tasks[k].userId)
  {
    assert Agrees(j.protocol, k, j.lane.tasks[k]);
    assert C.TaskInv(j.lane, j.lane.tasks[k], C.ContextUpTo(j.lane.start, j.lane.tasks, k));
  }

  /** What a delivery's step makes of it, for the call it stands for. */
  predicate Follows(t: C.Task, next: P.Call, acknowledged: bool) {
    if t.progress.Working? then acknowledged && t.progress.call == next
    else !t.progress.Waiting? && (!acknowledged || P.Over(next))
  }

  lemma HandledAgrees(l: C.Lane, k: nat, d: JobDoc, a: P.Answer, acknowledged: bool)
    requires k < |l.tasks| && l.tasks[k].progress.Working? && l.doc == Some(d)
    requires var c := l.tasks[k].progress.call; !P.Over(c) && (c.Looking? ==> c.userId == l.tasks[k].userId)
    ensures var m := C.WorkOn(l, k, a, acknowledged); var (next, doc) := P.StepCall(l.tasks[k].progress.call, d, a);
      && m.doc == Some(doc) && |m.tasks| == |l.tasks| && m.tasks == l.tasks[k := m.tasks[k]]
      && Follows(m.tasks[k], next, acknowledged)
  {
  }

  lemma AdvancedCall(s: P.State, id: nat, a: P.Answer, acknowledged: bool)
    requires id in s.calls
    ensures var t := P.Apply(s, P.Advance(id, a, acknowledged)); var (next, doc) := P.StepCall(s.calls[id], s.doc, a);
      t.calls == s.calls[id := if acknowledged then next else P.Crashed] && t.doc == doc && t.published == s.published
  {
  }

  /** The lane and the protocol do the same to the document and to the call. */
  lemma WorkAgrees(j: Joint, k: nat, a: P.Answer, acknowledged: bool)
    requires Inv(j) && Enabled(j, OfLane(C.Work(k, a, acknowledged)))
    ensures var next := Next(j, OfLane(C.Work(k, a, acknowledged)));
      && next.lane.doc == Some(next.protocol.doc)
      && |next.lane.tasks| == |j.lane.tasks| && next.lane.tasks == j.lane.tasks[k := next.lane.tasks[k]]
      && CallOf(k) in next.protocol.calls
      && next.protocol.calls == j.protocol.calls[CallOf(k) := next.protocol.calls[CallOf(k)]]
      && Agrees(next.protocol, k, next.lane.tasks[k]) && next.protocol.published == j.protocol.published
  {
    WorkingCall(j, k);
    HandledAgrees(j.lane, k, j.protocol.doc, a, acknowledged);
    AdvancedCall(j.protocol, CallOf(k), a, acknowledged);
  }

  /** Who wins the claim of a published job is alone with it. */
  lemma WinningClaims(s: P.State, id: nat, a: P.Answer, acknowledged: bool)
    requires P.Inv(s) && P.Enabled(P.CONTRACT, s, P.Advance(id, a, acknowledged))
    requires s.calls[id].ClaimingPlanning? && P.StepCall(s.calls[id], s.doc, a).0.PlanningPhase?
    ensures P.ClaimedBy(P.Apply(s, P.Advance(id, a, acknowledged)), id)
  {
    forall i | i in s.calls && i != id
      ensures !P.Owns(s.calls[i])
    {
      P.StepSpares(s, s.calls[id], s.calls[i], a);
    }
  }

  lemma WorkKeepsClaim(j: Joint, k: nat, a: P.Answer, acknowledged: bool)
    requires Inv(j) && Enabled(j, OfLane(C.Work(k, a, acknowledged)))
    requires P.Enabled(P.CONTRACT, j.protocol, P.Advance(CallOf(k), a, acknowledged))
    ensures var next := Next(j, OfLane(C.Work(k, a, acknowledged)));
      next.lane.winner.Some? ==> P.ClaimedBy(next.protocol, CallOf(next.lane.winner.value))
  {
    var next := Next(j, OfLane(C.Work(k, a, acknowledged)));
    WorkingCall(j, k);
    if next.lane.winner != j.lane.winner {
      WinningClaims(j.protocol, CallOf(k), a, acknowledged);
    } else if j.lane.winner.Some? {
      P.ClaimStep(j.protocol, P.Advance(CallOf(k), a, acknowledged), CallOf(j.lane.winner.value));
    }
  }

  lemma WorkKeepsInv(j: Joint, k: nat, a: P.Answer, acknowledged: bool)
    requires Inv(j) && Enabled(j, OfLane(C.Work(k, a, acknowledged)))
    ensures P.Enabled(P.CONTRACT, j.protocol, P.Advance(CallOf(k), a, acknowledged))
    ensures Inv(Next(j, OfLane(C.Work(k, a, acknowledged))))
  {
    var e := C.Work(k, a, acknowledged);
    var next := Next(j, OfLane(e));
    WorkingCall(j, k);
    LaneKept(j.lane, j.tail, e);
    P.NextKeepsInv(j.protocol, P.Advance(CallOf(k), a, acknowledged));
    WorkAgrees(j, k, a, acknowledged);
    MovedTogether(j.protocol, next.protocol, j.lane.tasks, next.lane.tasks, k);
    WorkKeepsClaim(j, k, a, acknowledged);
  }

  // Steps of the others

  lemma OthersMoveEven(s: P.State, a: P.Action)
    requires ByOthers(a) && P.Enabled(P.CONTRACT, s, a)
    requires forall i | i in s.calls && IsEven(i) :: !P.IsHandler(s.calls[i])
    ensures var t := P.Apply(s, a);
      && (forall i | !IsEven(i) :: (i in t.calls <==> i in s.calls) && (i in t.calls ==> t.calls[i] == s.calls[i]))
      && (forall i | i in t.calls && IsEven(i) :: !P.IsHandler(t.calls[i]))
      && (s.published ==> t.published)
  {
    if a.Advance? {
      NoHandlerAppears(s.calls[a.id], s.doc, a.answer);
    }
  }

  lemma NoHandlerAppears(c: P.Call, d: JobDoc, a: P.Answer)
    requires !P.IsHandler(c)
    ensures !P.IsHandler(P.StepCall(c, d, a).0)
  {
  }

  /** No other actor's step is one of a delivery's call, nor does it make a handler. */
  lemma OthersAgree(s: P.State, a: P.Action, ts: seq<C.Task>)
    requires CallsAgree(s, ts) && ByOthers(a) && P.Enabled(P.CONTRACT, s, a)
    ensures CallsAgree(P.Apply(s, a), ts) && !C.HandlerStep(s, a)
    ensures s.published ==> P.Apply(s, a).published
  {
    var t := P.Apply(s, a);
    OthersMoveEven(s, a);
    forall k | 0 <= k < |ts|
      ensures Agrees(t, k, ts[k])
    {
      assert Agrees(s, k, ts[k]) && !IsEven(CallOf(k));
    }
  }

  lemma OthersLeaveClaim(s: P.State, a: P.Action, h: nat)
    requires P.Inv(s) && P.ClaimedBy(s, h) && !IsEven(h)
    requires ByOthers(a) && P.Enabled(P.CONTRACT, s, a) && !C.HandlerStep(s, a)
    ensures P.ClaimedBy(P.Apply(s, a), h) && P.Apply(s, a).doc == s.doc
  {
    P.ClaimStep(s, a, h);
  }

  lemma OthersLeaveWinner(s: P.State, ts: seq<C.Task>, winner: Option<nat>, a: P.Action)
    requires P.Inv(s) && CallsAgree(s, ts) && (winner.Some? ==> P.ClaimedBy(s, CallOf(winner.value)))
    requires ByOthers(a) && P.Enabled(P.CONTRACT, s, a)
    ensures winner.Some? ==> P.ClaimedBy(P.Apply(s, a), CallOf(winner.value)) && P.Apply(s, a).doc == s.doc
  {
    OthersAgree(s, a, ts);
    if winner.Some? {
      OthersLeaveClaim(s, a, CallOf(winner.value));
    }
  }

  lemma OthersArePossible(j: Joint, a: P.Action)
    requires Inv(j) && Enabled(j, OfOthers(a)) && P.Apply(j.protocol, a).doc != j.protocol.doc
    ensures C.Possible(j.lane, C.Outside(P.Apply(j.protocol, a).doc))
  {
    OthersLeaveWinner(j.protocol, j.lane.tasks, j.lane.winner, a);
    OthersAgree(j.protocol, a, j.lane.tasks);
    C.OthersRecordNothing(j.protocol, a);
    P.NextKeepsInv(j.protocol, a);
  }

  lemma OutsideChangesDoc(l: C.Lane, tail: Option<nat>, doc: JobDoc)
    ensures C.Occur(l, tail, C.Outside(doc)) == l.(doc := Some(doc)) && C.NextTail(l, tail, C.Outside(doc)) == tail
  {
  }

  lemma OthersKeepInv(j: Joint, a: P.Action)
    requires Inv(j) && Enabled(j, OfOthers(a))
    ensures Inv(Next(j, OfOthers(a)))
  {
    var after := P.Apply(j.protocol, a).doc;
    P.NextKeepsInv(j.protocol, a);
    OthersAgree(j.protocol, a, j.lane.tasks);
    OthersLeaveWinner(j.protocol, j.lane.tasks, j.lane.winner, a);
    if after != j.protocol.doc {
      OthersArePossible(j, a);
      LaneKept(j.lane, j.tail, C.Outside(after));
      OutsideChangesDoc(j.lane, j.tail, after);
    }
  }

  lemma NextKeepsInv(j: Joint, e: Event)
    requires Inv(j) && Enabled(j, e)
    ensures Inv(Next(j, e))
    ensures var a := ProtocolStep(j, e); a.Some? ==> P.Enabled(P.CONTRACT, j.protocol, a.value)
  {
    match e
    case OfOthers(action) => OthersKeepInv(j, action);
    case OfLane(event) =>
      match event
      case Deliver(userId, chunk) => DeliverKeepsInv(j, userId, chunk);
      case BeginWork(k) => BeginKeepsInv(j, k);
      case Work(k, a, acknowledged) => WorkKeepsInv(j, k, a, acknowledged);
      case Break(k) => BreakKeepsInv(j, k);
      case Finally(k) => FinallyKeepsInv(j, k);
  }

  // Whole runs

  /** The consumer starts at some point of a run of the protocol, perhaps not for the first time. */
  datatype Run = Begin(protocol: P.Run) | Then(before: Run, event: Event)

  function Now(r: Run): Joint {
    match r
    case Begin(protocol) =>
      var s := P.End(protocol);
      Joint(C.Lane(Some(s.doc), [], None, s.doc), None, s)
    case Then(before, e) => Next(Now(before), e)
  }

  /** When the consumer starts no handler is before its claim: those of the process before it are gone. */
  ghost predicate Legal(r: Run) {
    match r
    case Begin(protocol) =>
      && P.Legal(P.CONTRACT, protocol)
      && forall i | i in P.End(protocol).calls :: IsEven(i) && !P.IsHandler(P.End(protocol).calls[i])
    case Then(before, e) => Legal(before) && Enabled(Now(before), e)
  }

  /** The same run as the protocol sees it. */
  function ProtocolRun(r: Run): P.Run {
    match r
    case Begin(protocol) => protocol
    case Then(before, e) =>
      var a := ProtocolStep(Now(before), e);
      if a.Some? then P.Then(ProtocolRun(before), a.value) else ProtocolRun(before)
  }

  lemma StartInv(protocol: P.Run)
    requires Legal(Begin(protocol))
    ensures Inv(Now(Begin(protocol)))
  {
    P.EveryRunIsSafe(protocol);
    var l := Now(Begin(protocol)).lane;
    assert C.Tried(l.tasks) == [] && RecordAll(l.start, []) == l.start;
    assert C.InOrder(l) && C.ChainMatches(l, None) && C.RecordInv(l);
  }

  /** Every run of the consumer with the job's other actors is a run of the protocol under its contract, and what the
      consumer allows the others to do covers all they do. */
  lemma {:induction false} ConsumerRunIsProtocolRun(r: Run)
    requires Legal(r)
    ensures P.Legal(P.CONTRACT, ProtocolRun(r)) && P.End(ProtocolRun(r)) == Now(r).protocol
    ensures Inv(Now(r)) && P.Safe(ProtocolRun(r))
  {
    if r.Begin? {
      StartInv(r.protocol);
    } else {
      ConsumerRunIsProtocolRun(r.before);
      NextKeepsInv(Now(r.before), r.event);
    }
    P.EveryRunIsSafe(ProtocolRun(r));
  }

  /** In every such run, also after a restart: when a delivered `completed` chunk wins the claim and nothing this consumer
      was delivered before it was requeued, the job's context is what was recorded when the consumer started and all the
      deliveries up to it amount to, and at most one call ever reports that it ended the job. */
  lemma WinnerHoldsAll(r: Run, k: nat)
    requires Legal(r)
    requires var l := Now(r).lane; l.winner == Some(k) && k < |l.tasks| && C.NoRequeues(l.tasks[..k])
    ensures var l, doc := Now(r).lane, Now(r).protocol.doc;
      && doc.contextUsed.Some?
      && doc.contextUsed.value.chunks == ContextFrom(l.start, C.Mine(l.tasks[..k + 1], doc.userId)).chunks
      && P.AtMostOneReport(Now(r).protocol)
  {
    ConsumerRunIsProtocolRun(r);
    C.TriedAreMine(Now(r).lane, k);
  }

  // A run with two deliveries

  lemma LaneFollows(r: Run, e: C.Event)
    requires Legal(r) && C.Possible(Now(r).lane, e) && !e.Outside? && (e.Deliver? ==> Now(r).protocol.published)
    ensures var after := Then(r, OfLane(e));
      && Legal(after)
      && Now(after).lane == C.Occur(Now(r).lane, Now(r).tail, e)
      && Now(after).tail == C.NextTail(Now(r).lane, Now(r).tail, e)
      && (e.Deliver? ==> Now(after).protocol == Now(r).protocol)
  {
  }

  function Worked(r: Run, k: nat, a: P.Answer, steps: nat): Run {
    if steps == 0 then Then(r, OfLane(C.BeginWork(k))) else Then(Worked(r, k, a, steps - 1), OfLane(C.Work(k, a, true)))
  }

  function HandledThrough(r: Run, k: nat, a: P.Answer, steps: nat): Run {
    Then(Worked(r, k, a, steps), OfLane(C.Finally(k)))
  }

  lemma AppendedRun(r: Run, k: nat, d: JobDoc, t: C.Task, a: P.Answer)
    requires Legal(r) && D.IsNext(Now(r).lane, k, d, t)
    ensures Legal(Worked(r, k, a, 1))
    ensures Now(Worked(r, k, a, 1)).lane == D.At(Now(r).lane, k, d, t.(progress := C.Working(P.Appending(t.chunk))))
  {
    D.Appended(Now(r).lane, Now(r).tail, k, d, t, a);
    LaneFollows(r, C.BeginWork(k));
    LaneFollows(Worked(r, k, a, 0), C.Work(k, a, true));
  }

  lemma DataRun(r: Run, k: nat, d: JobDoc, t: C.Task, a: P.Answer)
    requires Legal(r) && D.IsNext(Now(r).lane, k, d, t) && t.chunk.DataMessage?
    ensures Legal(HandledThrough(r, k, a, 2))
    ensures Now(HandledThrough(r, k, a, 2)).lane
         == D.At(Now(r).lane, k, D.Recorded(d, t.chunk), t.(progress := C.Settled(C.Acked(false)), tried := true))
  {
    AppendedRun(r, k, d, t, a);
    D.DataHandled(Now(r).lane, None, k, d, t, a);
    LaneFollows(Worked(r, k, a, 1), C.Work(k, a, true));
    LaneFollows(Worked(r, k, a, 2), C.Finally(k));
  }

  lemma CompletedRun(r: Run, k: nat, d: JobDoc, t: C.Task, a: P.Answer)
    requires Legal(r) && D.IsNext(Now(r).lane, k, d, t)
    requires t.chunk.StatusMessage? && t.chunk.phase == Complete && d.status == Gathering
    ensures Legal(HandledThrough(r, k, a, 4))
    ensures Now(HandledThrough(r, k, a, 4)).lane
         == D.At(Now(r).lane.(winner := Some(k)), k, D.Planned(D.Recorded(d, t.chunk), Assemble(d.dataChunks), a),
                 t.(progress := C.Settled(C.Acked(true)), tried := true))
  {
    AppendedRun(r, k, d, t, a);
    D.CompletedHandled(Now(r).lane, None, k, d, t, a);
    LaneFollows(Worked(r, k, a, 1), C.Work(k, a, true));
    LaneFollows(Worked(r, k, a, 2), C.Work(k, a, true));
    LaneFollows(Worked(r, k, a, 3), C.Work(k, a, true));
    LaneFollows(Worked(r, k, a, 4), C.Finally(k));
  }

  function BothDelivered(protocol: P.Run, userId: string, data: Chunk, completed: Chunk): Run {
    Then(Then(Begin(protocol), OfLane(C.Deliver(userId, data))), OfLane(C.Deliver(userId, completed)))
  }

  lemma TwoDelivered(protocol: P.Run, data: Chunk, completed: Chunk)
    requires Legal(Begin(protocol)) && P.End(protocol).published
    ensures var d := P.End(protocol).doc; var r := BothDelivered(protocol, d.userId, data, completed);
      Legal(r) && Now(r).lane == D.TwoWaiting(d, data, completed)
  {
    var d := P.End(protocol).doc;
    var first := Then(Begin(protocol), OfLane(C.Deliver(d.userId, data)));
    LaneFollows(Begin(protocol), C.Deliver(d.userId, data));
    assert Now(first).lane == C.Lane(Some(d), [C.Task(d.userId, data, None, C.Waiting, false)], None, d);
    LaneFollows(first, C.Deliver(d.userId, completed));
    assert Now(BothDelivered(protocol, d.userId, data, completed)).lane.tasks == D.TwoWaiting(d, data, completed).tasks;
  }

  /** The job is submitted and a worker for the transport starts. */
  function Started(s: P.State): P.Run {
    P.Then(P.Then(P.Begin(s), P.EnqueueAnswers(true, true)), P.StartWorker(0, true))
  }

  function Advanced(r: P.Run, yes: P.Answer): P.Run {
    P.Then(r, P.Advance(0, yes, true))
  }

  /** It claims the job, finds the user and something to gather, and publishes, up to the scheduling of the timeout. */
  function Published(s: P.State, yes: P.Answer): P.Run {
    P.Then(Advanced(Advanced(Advanced(Started(s), yes), yes), yes), P.PublishAnswers(0, true, true))
  }

  lemma StartedIs(s: P.State)
    requires P.Init(s)
    ensures P.Legal(P.CONTRACT, Started(s))
    ensures P.End(Started(s)) == s.(submission := P.Submitted(false), enqueued := true, calls := map[0 := P.Claiming(true)])
  {
    assert P.End(P.Begin(s)) == s && P.Legal(P.CONTRACT, P.Begin(s));
    var t := P.End(P.Then(P.Begin(s), P.EnqueueAnswers(true, true)));
    assert t == s.(submission := P.Submitted(false), enqueued := true);
  }

  lemma AdvancedIs(r: P.Run, yes: P.Answer, c: P.Call)
    requires P.Legal(P.CONTRACT, r) && P.End(r).calls == map[0 := c] && !P.Over(c) && !c.Publishing? && !c.SchedulingTimeout?
    ensures P.Legal(P.CONTRACT, Advanced(r, yes))
    ensures var (next, doc) := P.StepCall(c, P.End(r).doc, yes);
      P.End(Advanced(r, yes)) == P.End(r).(calls := map[0 := next], doc := doc)
  {
  }

  lemma AboutToPublish(s: P.State, yes: P.Answer)
    requires P.Init(s) && yes.ok
    ensures var r := Advanced(Advanced(Advanced(Started(s), yes), yes), yes); var t := P.End(r);
      && P.Legal(P.CONTRACT, r)
      && t.enqueued && t.doc == s.doc.(status := Gathering) && t.calls == map[0 := P.Publishing]
  {
    StartedIs(s);
    AdvancedIs(Started(s), yes, P.Claiming(true));
    AdvancedIs(Advanced(Started(s), yes), yes, P.CheckingUser);
    AdvancedIs(Advanced(Advanced(Started(s), yes), yes), yes, P.ResolvingConnectors);
  }

  lemma PublishedIsGathering(s: P.State, yes: P.Answer)
    requires P.Init(s) && yes.ok
    ensures Legal(Begin(Published(s, yes)))
    ensures var t := P.End(Published(s, yes)); t.published && t.doc == s.doc.(status := Gathering)
  {
    AboutToPublish(s, yes);
  }

  /** From every start: the job is submitted and published, a data chunk and a `completed` chunk are delivered and handled,
      both are acked, the second as terminal, and the second wins the claim with the first's data. */
  lemma DataThenCompleted(s: P.State, data: Chunk, completed: Chunk, a: P.Answer)
    requires P.Init(s) && a.ok && data.DataMessage? && completed.StatusMessage? && completed.phase == Complete
    requires data.sequence != completed.sequence
    ensures var d := s.doc.(status := Gathering);
      var r := HandledThrough(
        HandledThrough(BothDelivered(Published(s, a), d.userId, data, completed), 0, a, 2), 1, a, 4);
      && Legal(r)
      && Now(r).lane == D.BothHandled(d, data, completed, a)
      && C.NoRequeues(Now(r).lane.tasks)
  {
    var d := s.doc.(status := Gathering);
    var delivered := BothDelivered(Published(s, a), d.userId, data, completed);
    var l := D.TwoWaiting(d, data, completed);
    PublishedIsGathering(s, a);
    TwoDelivered(Published(s, a), data, completed);
    DataRun(delivered, 0, d, l.tasks[0], a);
    CompletedRun(HandledThrough(delivered, 0, a, 2), 1, D.Recorded(d, data), l.tasks[1], a);
    D.BothTasks(d, data, completed);
  }
}
