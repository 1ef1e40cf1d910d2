/** What an ended planning job holds: the outcome of the one step that ended it. */
module JobOutcomes {
  import opened Options
  import opened PlanningJobs
  import opened JobProtocol

  /** The document of a job that failed with this code. */
  predicate FailedWith(d: JobDoc, code: string) {
    d.status == Failed && d.errorCode == Some(code) && d.result == None
  }

  /** The document after planning answered: the text is the result or the code of the failure. */
  predicate AnsweredWith(d: JobDoc, a: Answer) {
    if a.ok then d.status == Completed && d.result == Some(a.text) && d.errorCode == None else FailedWith(d, a.text)
  }

  /** The step, taken from this state, accounts for the outcome: a planning step for its own answer, every other end for a
      failure with its own code. */
  predicate Explains(s: State, a: Action, d: JobDoc) {
    match a
    case MarkEnqueueFailed(_) => FailedWith(d, "ENQUEUE_FAILED")
    case Advance(id, answer, _) =>
      id in s.calls &&
      (match s.calls[id]
       case RunningLegacy => AnsweredWith(d, answer) && RecordsGathered(s.doc, d, answer)
       case PlanningPhase(context) =>
         AnsweredWith(d, answer) && d.contextUsed == Some(Context(context.chunks, answer.retrieval))
       case UserRejected(code) => FailedWith(d, code)
       case PublishRejected => FailedWith(d, "CONTEXT_ENGINE_PUBLISH_FAILED")
       case FailingGather(code) => FailedWith(d, code) && code in {"CONTEXT_ENGINE_FAILED", "CONTEXT_ENGINE_TIMEOUT"}
       case TimingOut => FailedWith(d, "CONTEXT_ENGINE_TIMEOUT")
       case _ => false)
    case _ => false
  }

  predicate RecordsGathered(before: JobDoc, after: JobDoc, a: Answer) {
    after.contextUsed == if a.gathered.Some? then Some(Context(a.gathered.value.chunks, a.retrieval)) else before.contextUsed
  }

  /** Until it ends a job has neither result nor code, and a handler fails it only with a code the engine may give. */
  predicate Open(s: State) {
    && (!IsTerminal(s.doc.status) ==> s.doc.result == None && s.doc.errorCode == None)
    && (forall i | i in s.calls && s.calls[i].FailingGather? ::
          s.calls[i].code in {"CONTEXT_ENGINE_FAILED", "CONTEXT_ENGINE_TIMEOUT"})
  }

  lemma CallEnds(s: State, id: nat, a: Answer)
    requires Inv(s) && Open(s) && id in s.calls && !Over(s.calls[id]) && !s.calls[id].Publishing?
    requires !IsTerminal(s.doc.status)
    ensures var (next, d) := StepCall(s.calls[id], s.doc, a);
      && (IsTerminal(d.status) ==> Explains(s, Advance(id, a, true), d) && Explains(s, Advance(id, a, false), d))
      && (!IsTerminal(d.status) ==> d.result == None && d.errorCode == None)
  {
    assert CallInv(s, s.calls[id]);
  }

  lemma CodesStay(s: State, id: nat, a: Answer)
    requires id in s.calls && Open(s)
    ensures var next := StepCall(s.calls[id], s.doc, a).0;
      next.FailingGather? ==> next.code in {"CONTEXT_ENGINE_FAILED", "CONTEXT_ENGINE_TIMEOUT"}
  {
  }

  lemma StepEnds(s: State, a: Action)
    requires Inv(s) && Open(s) && Enabled(CONTRACT, s, a)
    ensures Open(Apply(s, a))
    ensures !IsTerminal(s.doc.status) && IsTerminal(Apply(s, a).doc.status) ==> Explains(s, a, Apply(s, a).doc)
  {
    NextKeepsInv(s, a);
    if a.Advance? {
      CodesStay(s, a.id, a.answer);
      if !IsTerminal(s.doc.status) {
        CallEnds(s, a.id, a.answer);
      }
    }
  }

  lemma {:induction false} EveryRunOpen(r: Run)
    requires Legal(CONTRACT, r)
    ensures Open(End(r))
  {
    if r.Then? {
      EveryRunOpen(r.before);
      EveryRunIsSafe(r.before);
      StepEnds(End(r.before), r.action);
    }
  }

  /** A step of the run that ended the job. */
  predicate Ends(r: Run) {
    r.Then? && !IsTerminal(End(r.before).doc.status) && IsTerminal(End(r).doc.status)
  }

  /** The run up to the step that ended the job. */
  function Ending(r: Run): (p: Run)
    requires Legal(CONTRACT, r) && IsTerminal(End(r).doc.status)
    ensures Ends(p) && Continues(r, p)
  {
    assert r.Then?;
    if IsTerminal(End(r.before).doc.status) then Ending(r.before) else r
  }

  lemma {:induction false} TerminalStays(later: Run, earlier: Run)
    requires Legal(CONTRACT, later) && Continues(later, earlier) && IsTerminal(End(earlier).doc.status)
    ensures IsTerminal(End(later).doc.status)
  {
    TerminalIsFrozen(earlier, later);
  }

  lemma {:induction false} LegalBefore(later: Run, earlier: Run)
    requires Legal(CONTRACT, later) && Continues(later, earlier)
    ensures Legal(CONTRACT, earlier)
  {
    if later != earlier {
      LegalBefore(later.before, earlier);
    }
  }

  /** Only one step of a run ends the job. */
  lemma {:induction false} OneEnding(r: Run, p: Run)
    requires Legal(CONTRACT, r) && Continues(r, p) && Ends(p)
    ensures IsTerminal(End(r).doc.status) && p == Ending(r)
  {
    TerminalStays(r, p);
    if r != p {
      TerminalStays(r.before, p);
      OneEnding(r.before, p);
    }
  }

  /** In every run exactly one step ends an ended job, and the job still holds what that step brought: the text of the
      planning step that succeeded, or the code of the step that failed it. */
  lemma {:induction false} OutcomeIsOfTheEnding(r: Run)
    requires Legal(CONTRACT, r) && IsTerminal(End(r).doc.status)
    ensures var p := Ending(r);
      && Ends(p) && Continues(r, p) && (forall q | Continues(r, q) && Ends(q) :: q == p)
      && Explains(End(p.before), p.action, End(p).doc)
      && End(r).doc.status == End(p).doc.status && End(r).doc.result == End(p).doc.result
      && End(r).doc.errorCode == End(p).doc.errorCode && End(r).doc.contextUsed == End(p).doc.contextUsed
  {
    var p := Ending(r);
    forall q | Continues(r, q) && Ends(q)
      ensures q == p
    {
      OneEnding(r, q);
    }
    LegalBefore(r, p);
    EveryRunOpen(p.before);
    EveryRunIsSafe(p.before);
    StepEnds(End(p.before), p.action);
    TerminalIsFrozen(p, r);
  }

  /** A completed job holds the text of a planning step that succeeded, with the context that step planned with. */
  lemma CompletedByPlanning(r: Run)
    requires Legal(CONTRACT, r) && End(r).doc.status == Completed
    ensures var p := Ending(r);
      && p.action.Advance? && p.action.answer.ok && End(r).doc.result == Some(p.action.answer.text)
      && End(r).doc.errorCode == None && p.action.id in End(p.before).calls
      && var c := End(p.before).calls[p.action.id];
         && (c.RunningLegacy? || c.PlanningPhase?)
         && (c.PlanningPhase? ==> End(r).doc.contextUsed == Some(Context(c.context.chunks, p.action.answer.retrieval)))
  {
    OutcomeIsOfTheEnding(r);
  }

  // Who reports the end

  lemma CallReports(s: State, id: nat, a: Answer)
    requires Inv(s) && id in s.calls && !Over(s.calls[id]) && !s.calls[id].Publishing?
    ensures var (next, d) := StepCall(s.calls[id], s.doc, a);
      next == Returned(true) <==> !IsTerminal(s.doc.status) && IsTerminal(d.status)
  {
    assert CallInv(s, s.calls[id]);
  }

  /** A call comes to report the end in the step that ends the job, when that step is acknowledged. */
  lemma StepReports(s: State, a: Action, i: nat)
    requires Inv(s) && Enabled(CONTRACT, s, a) && i in Apply(s, a).calls
    ensures var t := Apply(s, a);
      t.calls[i] == Returned(true) <==>
        || (i in s.calls && s.calls[i] == Returned(true))
        || (a.Advance? && a.id == i && a.acknowledged && !IsTerminal(s.doc.status) && IsTerminal(t.doc.status))
  {
    if a.Advance? {
      CallReports(s, a.id, a.answer);
    }
  }

  lemma SubmissionReports(s: State, a: Action)
    requires Inv(s) && Enabled(CONTRACT, s, a)
    ensures var t := Apply(s, a);
      && (t.submission == Submitted(true) <==> s.submission == Submitted(true) || a == MarkEnqueueFailed(true))
      && (a.MarkEnqueueFailed? ==> !IsTerminal(s.doc.status) && IsTerminal(t.doc.status))
  {
  }

  /** In every run a call reports that it ended the job exactly when the one step that ended it was its own and was
      acknowledged, and so does the submission. */
  lemma {:induction false} ReportedExactly(r: Run, i: nat)
    requires Legal(CONTRACT, r)
    ensures i in End(r).calls && End(r).calls[i] == Returned(true) <==>
      IsTerminal(End(r).doc.status) && var a := Ending(r).action; a.Advance? && a.id == i && a.acknowledged
    ensures End(r).submission == Submitted(true) <==>
      IsTerminal(End(r).doc.status) && Ending(r).action == MarkEnqueueFailed(true)
  {
    if r.Then? {
      var s := End(r.before);
      ReportedExactly(r.before, i);
      EveryRunIsSafe(r.before);
      SubmissionReports(s, r.action);
      if IsTerminal(s.doc.status) {
        TerminalStays(r, r.before);
      }
      if i in End(r).calls {
        StepReports(s, r.action, i);
        assert i in s.calls ==> CallInv(s, s.calls[i]);
      }
    }
  }

  // The timeout of a published job

  function TimedOut(r: Run, id: nat, timer: nat, a: Answer): Run {
    Then(Then(Then(r, Advance(id, a, true)), StartTimeout(timer)), Advance(timer, a, true))
  }

  lemma ScheduledIs(r: Run, id: nat, a: Answer)
    requires Legal(CONTRACT, r) && id in End(r).calls && End(r).calls[id] == SchedulingTimeout
    ensures var after := Then(r, Advance(id, a, true));
      && Legal(CONTRACT, after) && End(after).scheduled && End(after).doc == End(r).doc
      && End(after).calls.Keys == End(r).calls.Keys
  {
  }

  lemma StartedIs(r: Run, timer: nat)
    requires Legal(CONTRACT, r) && End(r).scheduled && timer !in End(r).calls
    ensures var after := Then(r, StartTimeout(timer));
      && Legal(CONTRACT, after) && End(after).doc == End(r).doc
      && timer in End(after).calls && End(after).calls[timer] == TimingOut
  {
  }

  lemma TimerRuns(r: Run, timer: nat, a: Answer)
    requires Legal(CONTRACT, r) && timer in End(r).calls && End(r).calls[timer] == TimingOut
    ensures var after := Then(r, Advance(timer, a, true)); var d := End(r).doc;
      && Legal(CONTRACT, after)
      && End(after).doc == (if d.status == Gathering
                            then d.(status := Failed, errorCode := Some("CONTEXT_ENGINE_TIMEOUT")) else d)
      && timer in End(after).calls && End(after).calls[timer] == Returned(d.status == Gathering)
  {
  }

  /** From every state of every run in which a job's request was just published: its timeout is scheduled, can fire, and
      fails the job exactly when it is still gathering. */
  lemma TimeoutRuns(r: Run, id: nat, timer: nat, a: Answer)
    requires Legal(CONTRACT, r) && id in End(r).calls && End(r).calls[id] == SchedulingTimeout && timer !in End(r).calls
    ensures var after := TimedOut(r, id, timer, a); var d := End(r).doc;
      && Legal(CONTRACT, after)
      && End(after).doc == (if d.status == Gathering
                            then d.(status := Failed, errorCode := Some("CONTEXT_ENGINE_TIMEOUT")) else d)
      && timer in End(after).calls && End(after).calls[timer] == Returned(d.status == Gathering)
  {
    ScheduledIs(r, id, a);
    var scheduled := Then(r, Advance(id, a, true));
    StartedIs(scheduled, timer);
    TimerRuns(Then(scheduled, StartTimeout(timer)), timer, a);
  }
}
