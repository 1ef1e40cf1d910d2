/** Every interleaving of the calls that touch one planning job: the submission, any number of worker runs
    (queue retries included), chunk handlers (redeliveries included) and timeouts. Each repository call is one
    atomic step; a call can stop for good at any point, also right after a write whose acknowledgement was lost. */
module JobProtocol {
  import opened Options
  import opened PlanningJobs
  import opened ContextAssembly

  const CONTEXT_ENGINE_FAILED := "CONTEXT_ENGINE_FAILED"
  const CONTEXT_ENGINE_TIMEOUT := "CONTEXT_ENGINE_TIMEOUT"
  const PUBLISH_FAILED := "CONTEXT_ENGINE_PUBLISH_FAILED"
  const ENQUEUE_FAILED := "ENQUEUE_FAILED"

  /** The program counter of one call, with the locals it still needs. */
  datatype Call =
    // ProcessPlanningJobUseCase
    | Claiming(viaTransport: bool)
    | RunningLegacy
    | CheckingUser
    | UserRejected(code: string)
    | ResolvingConnectors
    | NothingToGather
    | Publishing
    | PublishRejected
    | SchedulingTimeout
    // runClaimedPlanning, in a worker or in a handler
    | PlanningPhase(context: Context)
    // HandleContextResultChunkUseCase
    | Looking(userId: string, chunk: Chunk)
    | Appending(chunk: Chunk)
    | ClaimingPlanning(assembled: Context)
    | FailingGather(code: string)
    // HandleGatherTimeoutUseCase
    | TimingOut
    | Returned(finalised: bool)
    | Crashed

  /** SubmitPlanningJobUseCase after it created the pending document. */
  datatype Submission = Enqueuing | EnqueueRejected | Submitted(failedIt: bool) | SubmitterCrashed

  datatype State = State(
    doc: JobDoc,
    submission: Submission,
    enqueued: bool,
    published: bool,
    scheduled: bool,
    calls: map<nat, Call>)

  /** What the environment may do beyond the contract: deliver an enqueue it rejected, deliver a publish it rejected, or
      send chunks of a job before the job's gather request was published. */
  datatype Environment = Environment(deliversRejectedEnqueue: bool, deliversRejectedPublish: bool, repliesEarly: bool)

  const CONTRACT := Environment(false, false, false)

  /** What a step learns from outside: whether the attempt succeeded, the result or error code, the context a
      legacy worker gathered, and the retrieval metadata (absent when the planning phase failed before it). */
  datatype Answer = Answer(ok: bool, text: string, gathered: Option<Context>, retrieval: Option<string>)

  datatype Action =
    | EnqueueAnswers(accepted: bool, delivered: bool)
    | MarkEnqueueFailed(acknowledged: bool)
    | StopSubmitter
    | StartWorker(id: nat, viaTransport: bool)
    | StartHandler(id: nat, userId: string, chunk: Chunk)
    | StartTimeout(id: nat)
    | PublishAnswers(id: nat, accepted: bool, delivered: bool)
    | Advance(id: nat, answer: Answer, acknowledged: bool)
    | Crash(id: nat)

  function FailWith(code: string): Patch {
    Patch(Failed, None, Some(code), None)
  }

  /** The one terminal write of a planning phase. */
  function Finish(a: Answer, context: Option<Context>): Patch {
    var used := if context.Some? then Some(context.value.(retrieval := a.retrieval)) else None;
    if a.ok then Patch(Completed, Some(a.text), None, used) else Patch(Failed, None, Some(a.text), used)
  }

  function AllowedCode(code: Option<string>): string {
    if code.Some? && code.value in {CONTEXT_ENGINE_FAILED, CONTEXT_ENGINE_TIMEOUT} then code.value else CONTEXT_ENGINE_FAILED
  }

  /** A guarded update either wins and continues, or loses and the call returns without finalising. */
  function Guarded(d: JobDoc, update: Option<JobDoc>, won: Call): (Call, JobDoc) {
    match update
    case Some(updated) => (won, updated)
    case None => (Returned(false), d)
  }

  function Append(d: JobDoc, c: Chunk): (Call, JobDoc) {
    match AppendResultChunk(d, c)
    case None => (Returned(false), d)
    case Some(updated) =>
      match c
      case DataMessage(_, _) => (Returned(false), updated)
      case StatusMessage(_, phase, code) =>
        match phase
        case Complete => (ClaimingPlanning(Assemble(updated.dataChunks)), updated)
        case Fail => (FailingGather(AllowedCode(code)), updated)
        case _ => (Returned(false), updated)
  }

  /** One step of a call: its next program counter and the document after the step. */
  function StepCall(c: Call, d: JobDoc, a: Answer): (Call, JobDoc) {
    match c
    case Claiming(true) => Guarded(d, ClaimForGathering(d), CheckingUser)
    case Claiming(false) => Guarded(d, ClaimForProcessing(d), RunningLegacy)
    case RunningLegacy => (Returned(true), UpdateStatus(d, Finish(a, a.gathered)))
    case CheckingUser => (if a.ok then ResolvingConnectors else UserRejected(a.text), d)
    case UserRejected(code) => (Returned(true), UpdateStatus(d, FailWith(code)))
    case ResolvingConnectors => (if a.ok then Publishing else NothingToGather, d)
    case NothingToGather => Guarded(d, ClaimForPlanning(d, EMPTY_CONTEXT), PlanningPhase(EMPTY_CONTEXT))
    case Publishing => (c, d)
    case PublishRejected => (Returned(true), UpdateStatus(d, FailWith(PUBLISH_FAILED)))
    case SchedulingTimeout => (Returned(false), d)
    case PlanningPhase(context) => (Returned(true), UpdateStatus(d, Finish(a, Some(context))))
    case Looking(userId, chunk) =>
      (if d.userId != userId || IsTerminal(d.status) then Returned(false) else Appending(chunk), d)
    case Appending(chunk) => Append(d, chunk)
    case ClaimingPlanning(assembled) => Guarded(d, ClaimForPlanning(d, assembled), PlanningPhase(assembled))
    case FailingGather(code) => Guarded(d, FailIfStillGathering(d, code), Returned(true))
    case TimingOut => Guarded(d, FailIfStillGathering(d, CONTEXT_ENGINE_TIMEOUT), Returned(true))
    case Returned(_) => (c, d)
    case Crashed => (c, d)
  }

  predicate Over(c: Call) {
    c.Returned? || c.Crashed?
  }

  predicate Enabled(env: Environment, s: State, a: Action) {
    match a
    case EnqueueAnswers(accepted, delivered) =>
      s.submission.Enqueuing? && (accepted ==> delivered) && (delivered && !accepted ==> env.deliversRejectedEnqueue)
    case MarkEnqueueFailed(_) => s.submission.EnqueueRejected?
    case StopSubmitter => s.submission.Enqueuing? || s.submission.EnqueueRejected?
    case StartWorker(id, _) => s.enqueued && id !in s.calls
    case StartHandler(id, _, _) => id !in s.calls && (s.published || (env.repliesEarly && s.enqueued))
    case StartTimeout(id) => s.scheduled && id !in s.calls
    case PublishAnswers(id, accepted, delivered) =>
      && id in s.calls && s.calls[id].Publishing?
      && (accepted ==> delivered) && (delivered && !accepted ==> env.deliversRejectedPublish)
    case Advance(id, _, _) => id in s.calls && !Over(s.calls[id]) && !s.calls[id].Publishing?
    case Crash(id) => id in s.calls && !Over(s.calls[id])
  }

  function Apply(s: State, a: Action): State {
    match a
    case EnqueueAnswers(accepted, delivered) =>
      s.(submission := if accepted then Submitted(false) else EnqueueRejected, enqueued := delivered)
    case MarkEnqueueFailed(acknowledged) =>
      s.(submission := if acknowledged then Submitted(true) else SubmitterCrashed,
         doc := UpdateStatus(s.doc, FailWith(ENQUEUE_FAILED)))
    case StopSubmitter => s.(submission := SubmitterCrashed)
    case StartWorker(id, viaTransport) => s.(calls := s.calls[id := Claiming(viaTransport)])
    case StartHandler(id, userId, chunk) => s.(calls := s.calls[id := Looking(userId, chunk)])
    case StartTimeout(id) => s.(calls := s.calls[id := TimingOut])
    case PublishAnswers(id, accepted, delivered) =>
      s.(calls := s.calls[id := if accepted then SchedulingTimeout else PublishRejected],
         published := s.published || delivered)
    case Advance(id, answer, acknowledged) =>
      if id !in s.calls then s
      else
        var (next, doc) := StepCall(s.calls[id], s.doc, answer);
        s.(calls := s.calls[id := if acknowledged then next else Crashed],
           doc := doc,
           scheduled := s.scheduled || s.calls[id].SchedulingTimeout?)
    case Crash(id) => s.(calls := s.calls[id := Crashed])
  }

  predicate Init(s: State) {
    && s.doc == NewJob(s.doc.userId)
    && s.submission == Enqueuing
    && !s.enqueued && !s.published && !s.scheduled
    && s.calls == map[]
  }

  /** A finite run: a start and the actions taken since. */
  datatype Run = Begin(start: State) | Then(before: Run, action: Action)

  function End(r: Run): State {
    match r
    case Begin(s) => s
    case Then(before, a) => Apply(End(before), a)
  }

  predicate Legal(env: Environment, r: Run) {
    match r
    case Begin(s) => Init(s)
    case Then(before, a) => Legal(env, before) && Enabled(env, End(before), a)
  }

  // The invariant

  /** Calls that own the job: only they may write its status without a guard. */
  predicate Owns(c: Call) {
    c.RunningLegacy? || c.PlanningPhase? || BeforePublish(c)
  }

  predicate BeforePublish(c: Call) {
    || c.CheckingUser? || c.UserRejected? || c.ResolvingConnectors? || c.NothingToGather?
    || c.Publishing? || c.PublishRejected?
  }

  function OwnedStatus(c: Call): Status {
    if c.RunningLegacy? then Running else if c.PlanningPhase? then Planning else Gathering
  }

  predicate IsHandler(c: Call) {
    c.Looking? || c.Appending? || c.ClaimingPlanning? || c.FailingGather?
  }

  predicate CallInv(s: State, c: Call) {
    && (Owns(c) ==> s.doc.status == OwnedStatus(c))
    && (BeforePublish(c) ==> !s.published)
    && (IsHandler(c) ==> s.published)
    && (c.SchedulingTimeout? ==> s.published)
    && (c.TimingOut? ==> s.scheduled)
    && (c == Returned(true) ==> IsTerminal(s.doc.status))
  }

  /** Two different calls neither own the job together nor both report that they finalised it. */
  predicate Exclusive(c: Call, d: Call) {
    && !(Owns(c) && Owns(d))
    && !(c == Returned(true) && d == Returned(true))
  }

  predicate FlagsInv(s: State) {
    && (s.scheduled ==> s.published)
    && (s.published ==> s.enqueued && s.doc.status != Pending && s.doc.status != Running)
    && (s.calls != map[] ==> s.enqueued)
    && (s.submission.Enqueuing? || s.submission.EnqueueRejected? ==> !s.enqueued)
    && (s.submission == Submitted(true) ==> !s.enqueued && IsTerminal(s.doc.status))
    && (!s.enqueued && (s.submission.Enqueuing? || s.submission.EnqueueRejected?) ==> s.doc.status == Pending)
  }

  predicate Inv(s: State) {
    && FlagsInv(s)
    && (forall i | i in s.calls :: CallInv(s, s.calls[i]))
    && (forall i, j | i in s.calls && j in s.calls && i != j :: Exclusive(s.calls[i], s.calls[j]))
  }

  /** The status moves the documentation draws, and what a terminal job keeps whatever arrives later. */
  predicate StatusEdge(before: JobDoc, after: JobDoc) {
    && (|| before.status == after.status
        || (before.status.Pending? && (after.status.Running? || after.status.Gathering? || after.status.Failed?))
        || (before.status.Running? && IsTerminal(after.status))
        || (before.status.Gathering? && (after.status.Planning? || after.status.Failed?))
        || (before.status.Planning? && IsTerminal(after.status)))
    && (IsTerminal(before.status) ==>
          && after.status == before.status && after.result == before.result
          && after.errorCode == before.errorCode && after.contextUsed == before.contextUsed)
  }

  /** The state after a step of a call that leaves the other calls alone. */
  function WithDoc(s: State, doc: JobDoc, scheduled: bool): State {
    s.(doc := doc, scheduled := s.scheduled || scheduled)
  }

  lemma StepKeepsFlags(s: State, c: Call, a: Answer)
    requires FlagsInv(s) && CallInv(s, c) && s.enqueued && !Over(c) && !c.Publishing?
    ensures FlagsInv(WithDoc(s, StepCall(c, s.doc, a).1, c.SchedulingTimeout?))
  {
  }

  lemma StepKeepsCall(s: State, c: Call, a: Answer)
    requires FlagsInv(s) && CallInv(s, c) && !Over(c) && !c.Publishing?
    ensures var (n, d) := StepCall(c, s.doc, a);
      CallInv(WithDoc(s, d, c.SchedulingTimeout?), n)
  {
  }

  lemma StepOnEdge(s: State, c: Call, a: Answer)
    requires CallInv(s, c) && !Over(c)
    ensures StatusEdge(s.doc, StepCall(c, s.doc, a).1)
  {
  }

  /** What one step does to the call that takes it. */
  lemma StepFits(s: State, c: Call, a: Answer)
    requires FlagsInv(s) && CallInv(s, c) && s.enqueued && !Over(c) && !c.Publishing?
    ensures var (n, d) := StepCall(c, s.doc, a);
            var t := WithDoc(s, d, c.SchedulingTimeout?);
            CallInv(t, n) && FlagsInv(t) && StatusEdge(s.doc, d)
  {
    StepKeepsFlags(s, c, a);
    StepKeepsCall(s, c, a);
    StepOnEdge(s, c, a);
  }

  /** What one step of `c` does to any other call `o`. */
  lemma StepSpares(s: State, c: Call, o: Call, a: Answer)
    requires FlagsInv(s) && CallInv(s, c) && CallInv(s, o) && Exclusive(c, o) && !Over(c) && !c.Publishing?
    ensures var (n, d) := StepCall(c, s.doc, a);
            CallInv(WithDoc(s, d, c.SchedulingTimeout?), o) && Exclusive(n, o)
  {
  }

  lemma AdvanceKeepsInv(s: State, id: nat, a: Answer, acknowledged: bool)
    requires Inv(s) && Enabled(CONTRACT, s, Advance(id, a, acknowledged))
    ensures Inv(Apply(s, Advance(id, a, acknowledged)))
    ensures StatusEdge(s.doc, Apply(s, Advance(id, a, acknowledged)).doc)
  {
    var t := Apply(s, Advance(id, a, acknowledged));
    var c := s.calls[id];
    StepFits(s, c, a);
    forall i | i in s.calls && i != id
      ensures CallInv(t, s.calls[i]) && Exclusive(s.calls[i], t.calls[id])
    {
      StepSpares(s, c, s.calls[i], a);
    }
  }

  /** Putting one call in place keeps the invariant when it and the new flags fit all the other calls. */
  lemma PutCall(s: State, t: State, id: nat, c: Call)
    requires Inv(s) && FlagsInv(t) && CallInv(t, c)
    requires t.calls == s.calls[id := c]
    requires forall i | i in s.calls && i != id :: CallInv(t, s.calls[i]) && Exclusive(s.calls[i], c)
    ensures Inv(t)
  {
  }

  lemma StartKeepsInv(s: State, id: nat, c: Call)
    requires Inv(s) && id !in s.calls && s.enqueued
    requires c.Claiming? || (IsHandler(c) && s.published) || (c.TimingOut? && s.scheduled)
    ensures Inv(s.(calls := s.calls[id := c]))
  {
  }

  lemma PublishKeepsInv(s: State, id: nat, accepted: bool)
    requires Inv(s) && Enabled(CONTRACT, s, PublishAnswers(id, accepted, accepted))
    ensures Inv(Apply(s, PublishAnswers(id, accepted, accepted)))
  {
    var t := Apply(s, PublishAnswers(id, accepted, accepted));
    assert CallInv(s, s.calls[id]);
    PutCall(s, t, id, t.calls[id]);
  }

  lemma NextKeepsInv(s: State, a: Action)
    requires Inv(s) && Enabled(CONTRACT, s, a)
    ensures Inv(Apply(s, a)) && StatusEdge(s.doc, Apply(s, a).doc)
  {
    match a
    case Advance(id, answer, acknowledged) => AdvanceKeepsInv(s, id, answer, acknowledged);
    case StartWorker(id, viaTransport) => StartKeepsInv(s, id, Claiming(viaTransport));
    case StartHandler(id, userId, chunk) => StartKeepsInv(s, id, Looking(userId, chunk));
    case StartTimeout(id) => StartKeepsInv(s, id, TimingOut);
    case PublishAnswers(id, accepted, _) => PublishKeepsInv(s, id, accepted);
    case Crash(id) => PutCall(s, Apply(s, a), id, Crashed);
    case EnqueueAnswers(_, _) =>
    case MarkEnqueueFailed(_) =>
    case StopSubmitter =>
  }

  // Whole runs

  /** The calls that told their caller that they ended the job. */
  predicate AtMostOneReport(s: State) {
    && (forall i, j | i in s.calls && j in s.calls && s.calls[i] == Returned(true) && s.calls[j] == Returned(true) :: i == j)
    && (forall i | i in s.calls && s.calls[i] == Returned(true) ::
          IsTerminal(s.doc.status) && s.submission != Submitted(true))
    && (s.submission == Submitted(true) ==> IsTerminal(s.doc.status))
  }

  /** Along the whole run the status moves only on the documented edges and at most one call reports the end. */
  predicate Safe(r: Run) {
    && AtMostOneReport(End(r))
    && (r.Then? ==> Safe(r.before) && StatusEdge(End(r.before).doc, End(r).doc))
  }

  /** In every interleaving the contract allows, the status moves only along the documented edges, a terminal
      job keeps its outcome, and at most one call ever reports that it ended the job. */
  lemma {:induction false} EveryRunIsSafe(r: Run)
    requires Legal(CONTRACT, r)
    ensures Safe(r) && Inv(End(r))
  {
    if r.Then? {
      EveryRunIsSafe(r.before);
      NextKeepsInv(End(r.before), r.action);
    }
  }

  predicate Continues(later: Run, earlier: Run) {
    later == earlier || (later.Then? && Continues(later.before, earlier))
  }

  /** Once terminal, the same terminal status, result, error code and context for ever. */
  lemma {:induction false} TerminalIsFrozen(earlier: Run, later: Run)
    requires Legal(CONTRACT, later) && Continues(later, earlier) && IsTerminal(End(earlier).doc.status)
    ensures End(later).doc.status == End(earlier).doc.status && End(later).doc.result == End(earlier).doc.result
    ensures End(later).doc.errorCode == End(earlier).doc.errorCode
    ensures End(later).doc.contextUsed == End(earlier).doc.contextUsed
  {
    if later != earlier {
      TerminalIsFrozen(earlier, later.before);
      EveryRunIsSafe(later);
    }
  }

  // A job that one call has claimed for planning

  predicate PlanningOrOver(d: JobDoc) {
    d.status.Planning? || IsTerminal(d.status)
  }

  /** Call `h` has claimed the job, and no other call owns it since. */
  predicate ClaimedBy(s: State, h: nat) {
    && h in s.calls && PlanningOrOver(s.doc)
    && forall i | i in s.calls && i != h :: !Owns(s.calls[i])
  }

  /** A call that does not own a job being planned does not come to own it, and writes nothing unless it records. */
  lemma OthersStayOut(c: Call, d: JobDoc, a: Answer)
    requires PlanningOrOver(d) && !Owns(c)
    ensures var (next, e) := StepCall(c, d, a);
      !Owns(next) && e.status == d.status && (!IsHandler(c) ==> e == d)
  {
  }

  lemma WinnerStep(s: State, a: Action, h: nat)
    requires Inv(s) && Enabled(CONTRACT, s, a) && ClaimedBy(s, h) && a.Advance? && a.id == h
    ensures ClaimedBy(Apply(s, a), h)
  {
    NextKeepsInv(s, a);
    assert StatusEdge(s.doc, Apply(s, a).doc);
  }

  lemma ClaimStep(s: State, a: Action, h: nat)
    requires Inv(s) && Enabled(CONTRACT, s, a) && ClaimedBy(s, h)
    ensures ClaimedBy(Apply(s, a), h)
    ensures !(a.Advance? && (a.id == h || IsHandler(s.calls[a.id]))) ==> Apply(s, a).doc == s.doc
  {
    if a.Advance? {
      if a.id == h {
        WinnerStep(s, a, h);
      } else {
        OthersStayOut(s.calls[a.id], s.doc, a.answer);
      }
    }
  }

  /** From the claim on, whatever happens in between, only the call that won it and the recording of chunks write to the
      job: workers, timeouts and the submitter leave it alone. */
  lemma {:induction false} ClaimedIsLeftAlone(earlier: Run, later: Run, h: nat, a: Action)
    requires Legal(CONTRACT, later) && Continues(later, earlier) && Enabled(CONTRACT, End(later), a)
    requires h in End(earlier).calls && End(earlier).calls[h].PlanningPhase?
    ensures ClaimedBy(End(later), h)
    ensures !(a.Advance? && (a.id == h || IsHandler(End(later).calls[a.id]))) ==> Apply(End(later), a).doc == End(later).doc
  {
    EveryRunIsSafe(later);
    if later == earlier {
      assert forall i | i in End(later).calls && i != h :: Exclusive(End(later).calls[h], End(later).calls[i]);
    } else {
      ClaimedIsLeftAlone(earlier, later.before, h, later.action);
      EveryRunIsSafe(later.before);
      ClaimStep(End(later.before), later.action, h);
    }
    ClaimStep(End(later), a, h);
  }

  // Each environment assumption is needed

  const YES := Answer(true, "", None, None)
  const NO := Answer(false, "", None, None)

  /** One acknowledged step of call `id`, known to be at `c`. */
  lemma Go(env: Environment, before: Run, id: nat, c: Call, a: Answer) returns (r: Run)
    requires Legal(env, before) && id in End(before).calls && End(before).calls[id] == c
    requires !Over(c) && !c.Publishing? && !c.SchedulingTimeout?
    ensures r == Then(before, Advance(id, a, true)) && Legal(env, r)
    ensures var (n, d) := StepCall(c, End(before).doc, a);
            End(r) == End(before).(calls := End(before).calls[id := n], doc := d)
  {
    r := Then(before, Advance(id, a, true));
  }

  lemma Gather(env: Environment) returns (r: Run)
    ensures Legal(env, r)
    ensures End(r) == State(NewJob("").(status := Gathering), Submitted(false), true, false, false, map[0 := CheckingUser])
  {
    r := Begin(State(NewJob(""), Enqueuing, false, false, false, map[]));
    r := Then(r, EnqueueAnswers(true, true));
    r := Then(r, StartWorker(0, true));
    r := Go(env, r, 0, Claiming(true), YES);
    assert End(r).calls == map[0 := CheckingUser];
  }

  lemma LookUp(env: Environment, before: Run, chunk: Chunk) returns (r: Run)
    requires Legal(env, before)
    requires var s := End(before);
      s.doc == NewJob("").(status := Gathering) && s.enqueued && 1 !in s.calls && (s.published || env.repliesEarly)
    ensures Legal(env, r) && End(r) == End(before).(calls := End(before).calls[1 := Appending(chunk)])
  {
    r := Then(before, StartHandler(1, "", chunk));
    r := Go(env, r, 1, Looking("", chunk), YES);
  }

  lemma AppendedCompleted(d: JobDoc, chunk: Chunk)
    requires d == NewJob("").(status := Gathering) && chunk == StatusMessage(0, Complete, None)
    ensures var (next, e) := StepCall(Appending(chunk), d, YES);
      next == ClaimingPlanning(Assemble([])) && e.status == Gathering
  {
  }

  lemma ReadCompleted(env: Environment, before: Run) returns (r: Run, assembled: Context)
    requires Legal(env, before)
    requires var s := End(before);
      s.doc == NewJob("").(status := Gathering) && s.enqueued && 1 !in s.calls && (s.published || env.repliesEarly)
    ensures Legal(env, r) && End(r).doc.status == Gathering
    ensures End(r).calls == End(before).calls[1 := ClaimingPlanning(assembled)]
  {
    var chunk := StatusMessage(0, Complete, None);
    assembled := Assemble([]);
    r := LookUp(env, before, chunk);
    AppendedCompleted(End(r).doc, chunk);
    r := Go(env, r, 1, Appending(chunk), YES);
  }

  lemma ClaimAndPlan(env: Environment, before: Run, assembled: Context) returns (r: Run)
    requires Legal(env, before) && End(before).doc.status == Gathering
    requires 1 in End(before).calls && End(before).calls[1] == ClaimingPlanning(assembled)
    ensures Legal(env, r) && End(r).doc.status == Completed && End(r).calls == End(before).calls[1 := Returned(true)]
  {
    r := Go(env, before, 1, ClaimingPlanning(assembled), YES);
    r := Go(env, r, 1, PlanningPhase(assembled), YES);
  }

  /** A handler of a `completed` chunk that is let in while a worker still owns the job completes it. */
  lemma CompleteBehindWorker(env: Environment, before: Run) returns (r: Run)
    requires Legal(env, before)
    requires var s := End(before);
      s.doc == NewJob("").(status := Gathering) && s.enqueued && 1 !in s.calls && (s.published || env.repliesEarly)
    ensures Legal(env, r) && End(r).doc.status == Completed
    ensures End(r).calls == End(before).calls[1 := Returned(true)]
  {
    var assembled;
    r, assembled := ReadCompleted(env, before);
    r := ClaimAndPlan(env, r, assembled);
  }

  /** A worker told that its publish was rejected while the engine has it. */
  lemma DeliveredRejection(env: Environment) returns (r: Run)
    requires env.deliversRejectedPublish
    ensures Legal(env, r) && End(r).doc == NewJob("").(status := Gathering) && End(r).enqueued && End(r).published
    ensures End(r).calls == map[0 := PublishRejected]
  {
    r := Gather(env);
    r := Go(env, r, 0, CheckingUser, YES);
    r := Go(env, r, 0, ResolvingConnectors, YES);
    r := Then(r, PublishAnswers(0, false, true));
  }

  lemma DeliveredRejectionOverwrites(env: Environment) returns (r: Run)
    requires env.deliversRejectedPublish
    ensures Legal(env, r) && !Safe(r)
  {
    r := DeliveredRejection(env);
    r := CompleteBehindWorker(env, r);
    r := Go(env, r, 0, PublishRejected, YES);
    assert !StatusEdge(End(r.before).doc, End(r).doc);
  }

  /** A worker of a job whose enqueue was rejected goes on after the submitter failed the job. */
  lemma DeliveredEnqueueOverwrites(env: Environment) returns (r: Run)
    requires env.deliversRejectedEnqueue
    ensures Legal(env, r) && !Safe(r)
  {
    r := Begin(State(NewJob(""), Enqueuing, false, false, false, map[]));
    r := Then(r, EnqueueAnswers(false, true));
    r := Then(r, StartWorker(0, true));
    r := Go(env, r, 0, Claiming(true), YES);
    r := Go(env, r, 0, CheckingUser, NO);
    r := Then(r, MarkEnqueueFailed(true));
    r := Go(env, r, 0, UserRejected(""), NO);
    assert !StatusEdge(End(r.before).doc, End(r).doc);
  }

  lemma EarlyReplyOverwritten(env: Environment) returns (r: Run)
    requires env.repliesEarly
    ensures Legal(env, r) && !Safe(r)
  {
    r := Gather(env);
    r := Go(env, r, 0, CheckingUser, NO);
    r := CompleteBehindWorker(env, r);
    r := Go(env, r, 0, UserRejected(""), NO);
    assert !StatusEdge(End(r.before).doc, End(r).doc);
  }

  /** All runs are safe exactly when the environment keeps the whole contract: it delivers no enqueue and no publish that
      it rejected and never answers before the request was published. Giving up any one of the three lets a job that has
      ended change again. */
  lemma SafeExactlyUnderContract(env: Environment)
    ensures (forall r: Run | Legal(env, r) :: Safe(r)) <==> env == CONTRACT
  {
    if env == CONTRACT {
      forall r: Run | Legal(env, r) ensures Safe(r) {
        EveryRunIsSafe(r);
      }
    } else if env.deliversRejectedEnqueue {
      var r := DeliveredEnqueueOverwrites(env);
    } else if env.deliversRejectedPublish {
      var r := DeliveredRejectionOverwrites(env);
    } else {
      var r := EarlyReplyOverwritten(env);
    }
  }
}
