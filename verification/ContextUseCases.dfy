/** The use cases as the programs the source writes, over the repository object. Run alone, each does exactly
    what its program counters in `JobProtocol` do one step after another; the interleavings are proved there. */
module ContextUseCases {
  import opened Options
  import opened PlanningJobs
  import opened ContextAssembly
  import opened JobProtocol

  datatype HandleOutcome = Applied | Duplicate | UnknownJob | OwnershipMismatch

  function StepsLeft(c: Call): nat {
    match c
    case Claiming(_) => 8
    case CheckingUser => 7
    case ResolvingConnectors => 6
    case Publishing => 5
    case Looking(_, _) => 5
    case Appending(_) => 4
    case NothingToGather => 3
    case ClaimingPlanning(_) => 3
    case Returned(_) => 0
    case Crashed => 0
    case _ => 2
  }

  /** What the outside answers at each program counter of one call. */
  type Answers = Call -> Answer

  /** A call running with nobody else: its steps to the end. */
  function Solo(c: Call, d: JobDoc, ask: Answers): (r: (Call, JobDoc))
    decreases StepsLeft(c)
  {
    if Over(c) then (c, d)
    else if c.Publishing? then Solo(if ask(c).ok then SchedulingTimeout else PublishRejected, d, ask)
    else
      var (next, doc) := StepCall(c, d, ask(c));
      Solo(next, doc, ask)
  }

  /** The planning phase after a won claim: one terminal write, whatever planning did. */
  method RunClaimedPlanning(repo: PlanningJobRepository, jobId: string, context: Context, a: Answer)
    returns (job: Option<JobDoc>)
    requires jobId in repo.jobs
    modifies repo
    ensures repo.jobs == old(repo.jobs)[jobId := UpdateStatus(old(repo.jobs)[jobId], Finish(a, Some(context)))]
    ensures job == Some(repo.jobs[jobId])
    ensures IsTerminal(repo.jobs[jobId].status) && repo.jobs[jobId].contextUsed.Some?
    ensures repo.jobs[jobId].contextUsed.value.chunks == context.chunks
    ensures repo.jobs[jobId].contextUsed.value.retrieval == a.retrieval
    ensures a.ok ==> var job := repo.jobs[jobId];
      job.status == Completed && job.result == Some(a.text) && job.errorCode == old(repo.jobs)[jobId].errorCode
    ensures !a.ok ==> var job := repo.jobs[jobId];
      job.status == Failed && job.errorCode == Some(a.text) && job.result == old(repo.jobs)[jobId].result
  {
    var used := context.(retrieval := a.retrieval);
    if !a.ok {
      job := repo.PatchStatus(jobId, Patch(Failed, None, Some(a.text), Some(used)));
      return;
    }
    job := repo.PatchStatus(jobId, Patch(Completed, Some(a.text), None, Some(used)));
  }

  /** The job was planned with this context: the answer's text is its result or its error code. */
  predicate PlannedWith(before: JobDoc, after: JobDoc, context: Context, a: Answer) {
    && after.contextUsed == Some(Context(context.chunks, a.retrieval))
    && after.status == (if a.ok then Completed else Failed)
    && after.result == (if a.ok then Some(a.text) else before.result)
    && after.errorCode == (if a.ok then before.errorCode else Some(a.text))
    && after.userId == before.userId && after.dataChunks == before.dataChunks
    && after.chunkSequences == before.chunkSequences
  }

  method FinalizeCompleted(repo: PlanningJobRepository, jobId: string, job: JobDoc, ask: Answers) returns (won: bool)
    requires jobId in repo.jobs && repo.jobs[jobId] == job
    modifies repo
    ensures var (end, doc) := Solo(ClaimingPlanning(Assemble(job.dataChunks)), job, ask);
      end == Returned(won) && repo.jobs == old(repo.jobs)[jobId := doc]
    ensures won == (job.status == Gathering) && (!won ==> repo.jobs == old(repo.jobs))
    ensures won ==>
      PlannedWith(job, repo.jobs[jobId], Assemble(job.dataChunks), ask(PlanningPhase(Assemble(job.dataChunks))))
  {
    var assembled := Assemble(job.dataChunks);
    var claimed := repo.ClaimPlanning(jobId, assembled);
    if claimed == None {
      assert Solo(ClaimingPlanning(assembled), job, ask) == Solo(Returned(false), job, ask);
      return false;
    }
    assert Solo(ClaimingPlanning(assembled), job, ask) == Solo(PlanningPhase(assembled), claimed.value, ask);
    var finished := RunClaimedPlanning(repo, jobId, assembled, ask(PlanningPhase(assembled)));
    return true;
  }

  method FinalizeFailed(repo: PlanningJobRepository, jobId: string, job: JobDoc, code: Option<string>, ask: Answers)
    returns (won: bool)
    requires jobId in repo.jobs && repo.jobs[jobId] == job
    modifies repo
    ensures var (end, doc) := Solo(FailingGather(AllowedCode(code)), job, ask);
      end == Returned(won) && repo.jobs == old(repo.jobs)[jobId := doc]
    ensures won == (job.status == Gathering) && (!won ==> repo.jobs == old(repo.jobs))
    ensures won ==> var failed := repo.jobs[jobId];
      && failed.status == Failed && failed.result == job.result && failed.errorCode.Some?
      && failed.errorCode.value in {"CONTEXT_ENGINE_FAILED", "CONTEXT_ENGINE_TIMEOUT"}
      && (failed.errorCode == Some("CONTEXT_ENGINE_TIMEOUT") <==> code == Some("CONTEXT_ENGINE_TIMEOUT"))
      && failed.userId == job.userId && failed.dataChunks == job.dataChunks && failed.chunkSequences == job.chunkSequences
  {
    var errorCode := if code.Some? && code.value in {CONTEXT_ENGINE_FAILED, CONTEXT_ENGINE_TIMEOUT} then code.value
                     else CONTEXT_ENGINE_FAILED;
    assert errorCode == AllowedCode(code);
    var failed := repo.FailGathering(jobId, errorCode);
    won := failed != None;
    assert Solo(FailingGather(errorCode), job, ask) == Solo(Returned(won), repo.jobs[jobId], ask);
  }

  /** The job is the user's, has not ended and has not recorded this number. */
  predicate Handled(job: JobDoc, userId: string, chunk: Chunk) {
    job.userId == userId && job.status != Completed && job.status != Failed && chunk.sequence !in job.chunkSequences
  }

  predicate Finalizing(chunk: Chunk) {
    chunk.StatusMessage? && (chunk.phase == Complete || chunk.phase == Fail)
  }

  /** How a final chunk ends a job: planned with all recorded data, or failed with the chunk's own code if that is one of
      the two the engine may give. */
  predicate Finalized(before: JobDoc, after: JobDoc, chunk: Chunk, ask: Answers) {
    var recorded := after.(result := before.result, errorCode := before.errorCode);
    && Finalizing(chunk)
    && if chunk.phase == Complete then
         PlannedWith(recorded, after, Assemble(after.dataChunks), ask(PlanningPhase(Assemble(after.dataChunks))))
       else
         && after.status == Failed && after.result == before.result && after.errorCode.Some?
         && after.errorCode.value in {"CONTEXT_ENGINE_FAILED", "CONTEXT_ENGINE_TIMEOUT"}
         && (after.errorCode == Some("CONTEXT_ENGINE_TIMEOUT") <==> chunk.errorCode == Some("CONTEXT_ENGINE_TIMEOUT"))
  }

  method FinalizeChunk(repo: PlanningJobRepository, jobId: string, job: JobDoc, chunk: Chunk, ask: Answers)
    returns (won: bool)
    requires jobId in repo.jobs && repo.jobs[jobId] == job && Finalizing(chunk)
    modifies repo
    ensures var (end, doc) := Solo(FinalCall(job, chunk), job, ask);
      end == Returned(won) && repo.jobs == old(repo.jobs)[jobId := doc]
    ensures won == (job.status == Gathering) && (!won ==> repo.jobs == old(repo.jobs))
    ensures won ==> var after := repo.jobs[jobId];
      && Finalized(job, after, chunk, ask)
      && after.userId == job.userId && after.chunkSequences == job.chunkSequences && after.dataChunks == job.dataChunks
  {
    if chunk.phase == Complete {
      won := FinalizeCompleted(repo, jobId, job, ask);
    } else {
      won := FinalizeFailed(repo, jobId, job, chunk.errorCode, ask);
    }
  }

  /** What a chunk makes of a job that exists. */
  predicate ChunkHandled(before: JobDoc, after: JobDoc, userId: string, chunk: Chunk, ask: Answers, outcome: HandleOutcome,
                         terminal: bool) {
    && (outcome == OwnershipMismatch <==> before.userId != userId)
    && outcome != UnknownJob
    && (outcome == Applied <==>
          Handled(before, userId, chunk) && (Finalizing(chunk) ==> before.status == Gathering))
    && (terminal <==> Handled(before, userId, chunk) && Finalizing(chunk) && before.status == Gathering)
    && (terminal ==> Finalized(before, after, chunk, ask))
    && (Handled(before, userId, chunk) ==> Recording(before, after, chunk) && (!terminal ==> SameOutcome(before, after)))
    && (!Handled(before, userId, chunk) ==> after == before)
  }

  predicate Recording(before: JobDoc, after: JobDoc, chunk: Chunk) {
    && after.chunkSequences == before.chunkSequences + [chunk.sequence]
    && after.dataChunks
       == before.dataChunks + (if chunk.DataMessage? then [DataChunk(chunk.sequence, chunk.entry)] else [])
  }

  predicate SameOutcome(before: JobDoc, after: JobDoc) {
    after.status == before.status && after.result == before.result && after.errorCode == before.errorCode
  }

  /** Recording a chunk and then ending the job, or not, with what was recorded. */
  lemma RecordedThen(before: JobDoc, recorded: JobDoc, after: JobDoc, userId: string, chunk: Chunk, ask: Answers, won: bool)
    requires Handled(before, userId, chunk) && Recording(before, recorded, chunk) && SameOutcome(before, recorded)
    requires before.status == recorded.status && (Finalizing(chunk) ==> won == (recorded.status == Gathering))
    requires won ==>
      && Finalizing(chunk) && Finalized(recorded, after, chunk, ask)
      && after.chunkSequences == recorded.chunkSequences && after.dataChunks == recorded.dataChunks
    requires !won ==> after == recorded
    requires recorded.userId == before.userId
    ensures ChunkHandled(before, after, userId, chunk, ask, if won || !Finalizing(chunk) then Applied else Duplicate, won)
  {
  }

  lemma ChunkRecorded(d: JobDoc, userId: string, chunk: Chunk)
    requires d.userId == userId && d.status != Completed && d.status != Failed
    ensures var update := AppendResultChunk(d, chunk);
      && (update.Some? <==> Handled(d, userId, chunk))
      && (update.Some? ==>
            Recording(d, update.value, chunk) && SameOutcome(d, update.value) && update.value.userId == d.userId)
  {
  }

  lemma SoloLooking(d: JobDoc, userId: string, chunk: Chunk, ask: Answers)
    ensures Solo(Looking(userId, chunk), d, ask)
      == if d.userId != userId || d.status == Completed || d.status == Failed then (Returned(false), d)
         else Solo(Appending(chunk), d, ask)
  {
    assert Solo(Returned(false), d, ask) == (Returned(false), d);
  }

  /** The call that ends a job on a final chunk. */
  function FinalCall(d: JobDoc, chunk: Chunk): Call
    requires Finalizing(chunk)
  {
    if chunk.phase == Complete then ClaimingPlanning(Assemble(d.dataChunks)) else FailingGather(AllowedCode(chunk.errorCode))
  }

  lemma SoloAppending(d: JobDoc, chunk: Chunk, ask: Answers)
    ensures Solo(Appending(chunk), d, ask)
      == match AppendResultChunk(d, chunk)
         case None => (Returned(false), d)
         case Some(updated) =>
           if Finalizing(chunk) then Solo(FinalCall(updated, chunk), updated, ask) else (Returned(false), updated)
  {
  }

  /** A chunk of a job of its user's that had not ended when it was looked up. */
  method RecordChunk(repo: PlanningJobRepository, jobId: string, job: JobDoc, chunk: Chunk, ask: Answers)
    returns (outcome: HandleOutcome, terminal: bool)
    requires jobId in repo.jobs && repo.jobs[jobId] == job && job.status != Completed && job.status != Failed
    modifies repo
    ensures var (end, doc) := Solo(Appending(chunk), job, ask);
      end == Returned(terminal) && repo.jobs == old(repo.jobs)[jobId := doc]
    ensures jobId in repo.jobs && ChunkHandled(job, repo.jobs[jobId], job.userId, chunk, ask, outcome, terminal)
  {
    SoloAppending(job, chunk, ask);
    ChunkRecorded(job, job.userId, chunk);
    var applied, current := repo.Append(jobId, chunk);
    if !applied {
      return Duplicate, false;
    }
    if chunk.DataMessage? || !(chunk.phase == Complete || chunk.phase == Fail) {
      RecordedThen(job, current.value, current.value, job.userId, chunk, ask, false);
      return Applied, false;
    }
    terminal := FinalizeChunk(repo, jobId, current.value, chunk, ask);
    RecordedThen(job, current.value, repo.jobs[jobId], job.userId, chunk, ask, terminal);
    return if terminal then Applied else Duplicate, terminal;
  }

  method HandleChunk(repo: PlanningJobRepository, jobId: string, userId: string, chunk: Chunk, ask: Answers)
    returns (outcome: HandleOutcome, terminal: bool)
    modifies repo
    ensures jobId !in old(repo.jobs) ==> outcome == UnknownJob && !terminal && repo.jobs == old(repo.jobs)
    ensures jobId in old(repo.jobs) ==>
      var (end, doc) := Solo(Looking(userId, chunk), old(repo.jobs)[jobId], ask);
      end == Returned(terminal) && repo.jobs == old(repo.jobs)[jobId := doc]
    ensures jobId in old(repo.jobs) ==>
      && jobId in repo.jobs
      && ChunkHandled(old(repo.jobs)[jobId], repo.jobs[jobId], userId, chunk, ask, outcome, terminal)
  {
    var job := repo.FindById(jobId);
    if job == None {
      return UnknownJob, false;
    }
    SoloLooking(job.value, userId, chunk, ask);
    if job.value.userId != userId {
      return OwnershipMismatch, false;
    }
    if job.value.status == Completed || job.value.status == Failed {
      return Duplicate, false;
    }
    outcome, terminal := RecordChunk(repo, jobId, job.value, chunk, ask);
  }

  method HandleGatherTimeout(repo: PlanningJobRepository, jobId: string) returns (timedOut: bool, job: Option<JobDoc>)
    modifies repo
    ensures timedOut <==> jobId in old(repo.jobs) && old(repo.jobs)[jobId].status == Gathering
    ensures timedOut ==> jobId in repo.jobs && var failed := repo.jobs[jobId];
      && failed.status == Failed && failed.errorCode == Some("CONTEXT_ENGINE_TIMEOUT")
      && failed.result == old(repo.jobs)[jobId].result
    ensures !timedOut ==> repo.jobs == old(repo.jobs)
    ensures jobId in old(repo.jobs) ==>
      var (end, doc) := Solo(TimingOut, old(repo.jobs)[jobId], _ => YES);
      end == Returned(timedOut) && repo.jobs == old(repo.jobs)[jobId := doc]
    ensures jobId !in old(repo.jobs) ==> repo.jobs == old(repo.jobs)
    ensures job == if jobId in repo.jobs then Some(repo.jobs[jobId]) else None
  {
    job := repo.FailGathering(jobId, CONTEXT_ENGINE_TIMEOUT);
    if job != None {
      return true, job;
    }
    job := repo.FindById(jobId);
    timedOut := false;
  }

  /** `None` stands for the source's not-found error. */
  method ProcessLegacy(repo: PlanningJobRepository, jobId: string, ask: Answers) returns (processed: Option<bool>)
    modifies repo
    ensures processed == if jobId in old(repo.jobs) then Some(old(repo.jobs)[jobId].status == Pending) else None
    ensures jobId in old(repo.jobs) ==>
      repo.jobs == old(repo.jobs)[jobId := Solo(Claiming(false), old(repo.jobs)[jobId], ask).1]
    ensures jobId !in old(repo.jobs) ==> repo.jobs == old(repo.jobs)
    ensures processed == Some(false) ==> repo.jobs == old(repo.jobs)
    ensures processed == Some(true) ==> var before, after, a := old(repo.jobs)[jobId], repo.jobs[jobId], ask(RunningLegacy);
      && (a.ok ==> after.status == Completed && after.result == Some(a.text) && after.errorCode == before.errorCode)
      && (!a.ok ==> after.status == Failed && after.errorCode == Some(a.text) && after.result == before.result)
      && (a.gathered.Some? ==> after.contextUsed == Some(Context(a.gathered.value.chunks, a.retrieval)))
      && (a.gathered.None? ==> after.contextUsed == before.contextUsed)
  {
    var claimed := repo.ClaimProcessing(jobId);
    if claimed == None {
      var existing := repo.FindById(jobId);
      return if existing == None then None else Some(false);
    }
    assert Solo(Claiming(false), old(repo.jobs)[jobId], ask) == Solo(RunningLegacy, claimed.value, ask);
    var a := ask(RunningLegacy);
    var context := a.gathered;
    if context.Some? {
      context := Some(context.value.(retrieval := a.retrieval));
    }
    if a.ok {
      var completed := repo.PatchStatus(jobId, Patch(Completed, Some(a.text), None, context));
    } else {
      var failed := repo.PatchStatus(jobId, Patch(Failed, None, Some(a.text), context));
    }
    return Some(true);
  }

  /** With nothing to gather the worker takes the claim a terminal chunk would, and may lose it: a timeout can have failed
      the job since. */
  method PlanWithoutGathering(repo: PlanningJobRepository, jobId: string, ask: Answers) returns (processed: bool)
    requires jobId in repo.jobs
    modifies repo
    ensures processed == (old(repo.jobs)[jobId].status == Gathering)
    ensures !processed ==> repo.jobs == old(repo.jobs)
    ensures jobId in repo.jobs && (processed ==>
      PlannedWith(old(repo.jobs)[jobId], repo.jobs[jobId], Context([], None), ask(PlanningPhase(EMPTY_CONTEXT))))
    ensures var (end, doc) := Solo(NothingToGather, old(repo.jobs)[jobId], ask);
      end == Returned(processed) && repo.jobs == old(repo.jobs)[jobId := doc]
  {
    ghost var job := repo.jobs[jobId];
    var planning := repo.ClaimPlanning(jobId, EMPTY_CONTEXT);
    if planning == None {
      assert Solo(NothingToGather, job, ask) == Solo(Returned(false), job, ask);
      return false;
    }
    assert Solo(NothingToGather, job, ask) == Solo(PlanningPhase(EMPTY_CONTEXT), planning.value, ask);
    var finished := RunClaimedPlanning(repo, jobId, EMPTY_CONTEXT, ask(PlanningPhase(EMPTY_CONTEXT)));
    return true;
  }

  /** Where a worker leaves a job it claimed for the transport: failed by the user check or a rejected publish, planned when
      there is nothing to gather, and otherwise gathering. */
  predicate TransportedTo(before: JobDoc, after: JobDoc, ask: Answers) {
    if !ask(CheckingUser).ok then after == before.(status := Failed, errorCode := Some(ask(CheckingUser).text))
    else if !ask(ResolvingConnectors).ok then
      PlannedWith(before, after, Context([], None), ask(PlanningPhase(EMPTY_CONTEXT)))
    else if !ask(Publishing).ok then
      after == before.(status := Failed, errorCode := Some("CONTEXT_ENGINE_PUBLISH_FAILED"))
    else after == before.(status := Gathering)
  }

  /** The publish of a job that has something to gather. */
  method PublishRequest(repo: PlanningJobRepository, jobId: string, ask: Answers)
    requires jobId in repo.jobs
    modifies repo
    ensures repo.jobs == old(repo.jobs)[jobId := Solo(Publishing, old(repo.jobs)[jobId], ask).1]
    ensures jobId in repo.jobs && var before := old(repo.jobs)[jobId];
      repo.jobs[jobId] == if ask(Publishing).ok then before
                          else before.(status := Failed, errorCode := Some("CONTEXT_ENGINE_PUBLISH_FAILED"))
  {
    ghost var job := repo.jobs[jobId];
    if !ask(Publishing).ok {
      assert Solo(Publishing, job, ask) == Solo(PublishRejected, job, ask);
      var failed := repo.PatchStatus(jobId, FailWith(PUBLISH_FAILED));
    } else {
      assert Solo(Publishing, job, ask) == Solo(SchedulingTimeout, job, ask);
    }
  }

  lemma SoloClaimed(d: JobDoc, ask: Answers)
    ensures Solo(CheckingUser, d, ask)
      == if !ask(CheckingUser).ok then Solo(UserRejected(ask(CheckingUser).text), d, ask)
         else if !ask(ResolvingConnectors).ok then Solo(NothingToGather, d, ask)
         else Solo(Publishing, d, ask)
    ensures Solo(UserRejected(ask(CheckingUser).text), d, ask).1 == UpdateStatus(d, FailWith(ask(CheckingUser).text))
  {
    assert ask(CheckingUser).ok ==> Solo(CheckingUser, d, ask) == Solo(ResolvingConnectors, d, ask);
  }

  /** From a won claim on. */
  method TransportClaimed(repo: PlanningJobRepository, jobId: string, ask: Answers) returns (processed: bool)
    requires jobId in repo.jobs && repo.jobs[jobId].status == Gathering
    modifies repo
    ensures processed
    ensures repo.jobs == old(repo.jobs)[jobId := Solo(CheckingUser, old(repo.jobs)[jobId], ask).1]
    ensures jobId in repo.jobs && TransportedTo(old(repo.jobs)[jobId], repo.jobs[jobId], ask)
  {
    SoloClaimed(repo.jobs[jobId], ask);
    if !ask(CheckingUser).ok {
      var failed := repo.PatchStatus(jobId, FailWith(ask(CheckingUser).text));
      return true;
    }
    if !ask(ResolvingConnectors).ok {
      processed := PlanWithoutGathering(repo, jobId, ask);
      return;
    }
    PublishRequest(repo, jobId, ask);
    return true;
  }

  lemma ClaimThenTransport(before: JobDoc, claimed: JobDoc, after: JobDoc, ask: Answers)
    requires claimed == before.(status := Gathering) && TransportedTo(claimed, after, ask)
    ensures TransportedTo(before, after, ask)
  {
  }

  method ProcessViaTransport(repo: PlanningJobRepository, jobId: string, ask: Answers) returns (processed: Option<bool>)
    modifies repo
    ensures processed == if jobId in old(repo.jobs) then Some(old(repo.jobs)[jobId].status == Pending) else None
    ensures jobId in old(repo.jobs) ==>
      repo.jobs == old(repo.jobs)[jobId := Solo(Claiming(true), old(repo.jobs)[jobId], ask).1]
    ensures jobId !in old(repo.jobs) ==> repo.jobs == old(repo.jobs)
    ensures processed == Some(false) ==> repo.jobs == old(repo.jobs)
    ensures processed == Some(true) ==> TransportedTo(old(repo.jobs)[jobId], repo.jobs[jobId], ask)
  {
    var claimed := repo.ClaimGathering(jobId);
    if claimed == None {
      var existing := repo.FindById(jobId);
      return if existing == None then None else Some(false);
    }
    assert Solo(Claiming(true), old(repo.jobs)[jobId], ask) == Solo(CheckingUser, claimed.value, ask);
    var finished := TransportClaimed(repo, jobId, ask);
    ClaimThenTransport(old(repo.jobs)[jobId], claimed.value, repo.jobs[jobId], ask);
    return Some(finished);
  }
}
