/** The stored planning job and the repository calls on it. Every repository call is one atomic
    find-and-update of one document, so each is a function from the document before to the document after;
    the repository class applies them in place. */
module PlanningJobs {
  import opened Options

  datatype Status = Pending | Running | Gathering | Planning | Completed | Failed

  datatype ContextEntry = ContextEntry(provider: string, content: string, tokenEstimate: Option<real>)

  datatype DataChunk = DataChunk(sequence: nat, entry: ContextEntry)

  datatype Phase = Started | Progress | Complete | Fail

  /** A parsed chunk of the context engine's answer. */
  datatype Chunk =
    | DataMessage(sequence: nat, entry: ContextEntry)
    | StatusMessage(sequence: nat, phase: Phase, errorCode: Option<string>)

  /** What a job records as `context_used`: the connector entries and, once planning ran, retrieval metadata. */
  datatype Context = Context(chunks: seq<ContextEntry>, retrieval: Option<string>)

  const EMPTY_CONTEXT := Context([], None)

  datatype JobDoc = JobDoc(
    userId: string,
    status: Status,
    chunkSequences: seq<nat>,
    dataChunks: seq<DataChunk>,
    contextUsed: Option<Context>,
    result: Option<string>,
    errorCode: Option<string>)

  /** `updateStatus`: the status is always written, every other field only when given. */
  datatype Patch = Patch(status: Status, result: Option<string>, errorCode: Option<string>, contextUsed: Option<Context>)

  predicate IsTerminal(s: Status) {
    s.Completed? || s.Failed?
  }

  function NewJob(userId: string): JobDoc {
    JobDoc(userId, Pending, [], [], None, None, None)
  }

  function UpdateStatus(d: JobDoc, p: Patch): JobDoc {
    d.(status := p.status,
       result := if p.result.Some? then p.result else d.result,
       errorCode := if p.errorCode.Some? then p.errorCode else d.errorCode,
       contextUsed := if p.contextUsed.Some? then p.contextUsed else d.contextUsed)
  }

  function ClaimForProcessing(d: JobDoc): Option<JobDoc> {
    if d.status.Pending? then Some(d.(status := Running)) else None
  }

  function ClaimForGathering(d: JobDoc): Option<JobDoc> {
    if d.status.Pending? then Some(d.(status := Gathering)) else None
  }

  function ClaimForPlanning(d: JobDoc, context: Context): Option<JobDoc> {
    if d.status.Gathering? then Some(d.(status := Planning, contextUsed := Some(context))) else None
  }

  function FailIfStillGathering(d: JobDoc, code: string): Option<JobDoc> {
    if d.status.Gathering? then Some(d.(status := Failed, errorCode := Some(code))) else None
  }

  /** The append matches only when the sequence is not recorded yet; a status chunk records its sequence alone. */
  function AppendResultChunk(d: JobDoc, c: Chunk): Option<JobDoc> {
    if c.sequence in d.chunkSequences then None
    else
      Some(d.(chunkSequences := d.chunkSequences + [c.sequence],
              dataChunks := if c.DataMessage? then d.dataChunks + [DataChunk(c.sequence, c.entry)] else d.dataChunks))
  }

  /** The collection, one document per job id. `None` from a claim means the guard did not match. */
  class PlanningJobRepository {
    var jobs: map<string, JobDoc>

    constructor ()
      ensures jobs == map[]
    {
      jobs := map[];
    }

    /** A guarded update: the document is replaced when the guard accepts it, and nothing else changes. */
    ghost predicate Applied(before: map<string, JobDoc>, id: string, update: Option<JobDoc>, r: Option<JobDoc>)
      reads this
    {
      r == update && jobs == if update.Some? then before[id := update.value] else before
    }

    method Create(id: string, userId: string) returns (r: JobDoc)
      requires id !in jobs
      modifies this
      ensures r == NewJob(userId) && jobs == old(jobs)[id := r]
    {
      r := NewJob(userId);
      jobs := jobs[id := r];
    }

    method FindById(id: string) returns (r: Option<JobDoc>)
      ensures r == if id in jobs then Some(jobs[id]) else None
    {
      r := if id in jobs then Some(jobs[id]) else None;
    }

    method PatchStatus(id: string, patch: Patch) returns (r: Option<JobDoc>)
      modifies this
      ensures Applied(old(jobs), id, if id in old(jobs) then Some(UpdateStatus(old(jobs)[id], patch)) else None, r)
    {
      r := None;
      if id in jobs {
        var d := jobs[id];
        var result := if patch.result.Some? then patch.result else d.result;
        var errorCode := if patch.errorCode.Some? then patch.errorCode else d.errorCode;
        var contextUsed := if patch.contextUsed.Some? then patch.contextUsed else d.contextUsed;
        var updated := d.(status := patch.status, result := result, errorCode := errorCode, contextUsed := contextUsed);
        jobs := jobs[id := updated];
        r := Some(updated);
      }
    }

    method ClaimProcessing(id: string) returns (r: Option<JobDoc>)
      modifies this
      ensures Applied(old(jobs), id, if id in old(jobs) then ClaimForProcessing(old(jobs)[id]) else None, r)
    {
      r := None;
      if id in jobs && jobs[id].status == Pending {
        jobs := jobs[id := jobs[id].(status := Running)];
        r := Some(jobs[id]);
      }
    }

    method ClaimGathering(id: string) returns (r: Option<JobDoc>)
      modifies this
      ensures Applied(old(jobs), id, if id in old(jobs) then ClaimForGathering(old(jobs)[id]) else None, r)
    {
      r := None;
      if id in jobs && jobs[id].status == Pending {
        jobs := jobs[id := jobs[id].(status := Gathering)];
        r := Some(jobs[id]);
      }
    }

    method ClaimPlanning(id: string, context: Context) returns (r: Option<JobDoc>)
      modifies this
      ensures Applied(old(jobs), id, if id in old(jobs) then ClaimForPlanning(old(jobs)[id], context) else None, r)
    {
      r := None;
      if id in jobs && jobs[id].status == Gathering {
        jobs := jobs[id := jobs[id].(status := Planning, contextUsed := Some(context))];
        r := Some(jobs[id]);
      }
    }

    method FailGathering(id: string, code: string) returns (r: Option<JobDoc>)
      modifies this
      ensures Applied(old(jobs), id, if id in old(jobs) then FailIfStillGathering(old(jobs)[id], code) else None, r)
    {
      r := None;
      if id in jobs && jobs[id].status == Gathering {
        jobs := jobs[id := jobs[id].(status := Failed, errorCode := Some(code))];
        r := Some(jobs[id]);
      }
    }

    /** `applied` with the updated document, or not applied with the current one (`None`: no such job). */
    method Append(id: string, c: Chunk) returns (applied: bool, job: Option<JobDoc>)
      modifies this
      ensures applied == (id in old(jobs) && AppendResultChunk(old(jobs)[id], c).Some?)
      ensures jobs == if applied then old(jobs)[id := AppendResultChunk(old(jobs)[id], c).value] else old(jobs)
      ensures job == if id in jobs then Some(jobs[id]) else None
    {
      applied, job := false, None;
      if id in jobs {
        var d := jobs[id];
        if c.sequence !in d.chunkSequences {
          var updated := d.(chunkSequences := d.chunkSequences + [c.sequence]);
          if c.DataMessage? {
            updated := updated.(dataChunks := updated.dataChunks + [DataChunk(c.sequence, c.entry)]);
          }
          jobs := jobs[id := updated];
          applied := true;
        }
        job := Some(jobs[id]);
      }
    }
  }
}
