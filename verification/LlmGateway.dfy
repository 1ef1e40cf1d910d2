/** The provider gateway: one deadline and one retry budget for a whole `complete` call, a reservation per attempt. */
module LlmGateway {
  import opened Options

  const MAX_RETRY_AFTER_SECONDS: real := 10.0
  const MIN_TIME_AFTER_WAIT_MS: real := 1000.0
  const BACKOFF_BASE_MS := 500
  const BACKOFF_JITTER_MS := 250
  const DEFAULT_MAX_RETRIES := 1

  /** The typed domain errors. */
  datatype DomainError = Unavailable | RateLimited(retryAfterSeconds: Option<real>) | Provider | Refused | Truncated

  datatype QuotaError = Exceeded(retryAfterSeconds: nat) | QuotaUnavailable

  datatype Retry = RateLimit(seconds: Option<real>) | Transient | Never

  /** Everything an attempt can throw; `AttemptFailure` is meant to stay inside. */
  datatype Thrown = Domain(error: DomainError) | Quota(quota: QuotaError) | AttemptFailure(domain: DomainError, retry: Retry)

  datatype Result<T> = Ok(value: T) | Err(thrown: Thrown)

  /** A completed attempt; whether its content parses as JSON decides about the repair attempt. */
  datatype Raw = Raw(isJson: bool, tokens: Option<nat>)

  datatype Finish = Length | ContentFilter | OtherFinish

  /** What the provider does with one request: no answer, an error status (of the response, or inside its body, then
      without a retry-after header), a body without a usable choice, or a choice. */
  datatype Reply =
    | NetworkFailure(timedOut: bool)
    | ErrorStatus(status: Option<real>, retryAfter: Option<real>)
    | Malformed
    | Choice(finish: Finish, blank: bool, raw: Raw)

  function MapStatus(status: Option<real>, retryAfter: Option<real>): Thrown {
    if status == Some(429.0) then AttemptFailure(RateLimited(retryAfter), RateLimit(retryAfter))
    else if status.Some? && status.value >= 500.0 then AttemptFailure(Unavailable, Transient)
    else if status == Some(408.0) then AttemptFailure(Unavailable, Never)
    else AttemptFailure(Provider, Never)
  }

  function Classify(reply: Reply): Result<Raw> {
    match reply
    case NetworkFailure(timedOut) => Err(AttemptFailure(Unavailable, if timedOut then Never else Transient))
    case ErrorStatus(status, retryAfter) => Err(MapStatus(status, retryAfter))
    case Malformed => Err(Domain(Provider))
    case Choice(finish, blank, raw) =>
      if finish.Length? then Err(Domain(Truncated))
      else if finish.ContentFilter? then Err(Domain(Refused))
      else if blank then Err(Domain(Provider))
      else Ok(raw)
  }

  /** What the call meets from outside, by number of attempt: the reservation's answer, the provider's, the clock when a
      failure is looked at, the random jitter, and the clock before the repair. */
  datatype World = World(
    reserve: nat -> Option<QuotaError>,
    reply: nat -> Reply,
    now: nat -> real,
    random: nat -> nat,
    beforeRepair: real)

  function MaxRetries(configured: Option<int>): (n: nat)
    ensures n <= 3 && (configured.None? ==> n == 1)
    ensures configured.Some? && 0 <= configured.value <= 3 ==> n == configured.value
    ensures configured.Some? && configured.value < 0 ==> n == 0
    ensures configured.Some? && configured.value > 3 ==> n == 3
  {
    var c := if configured.Some? then configured.value else DEFAULT_MAX_RETRIES;
    if c < 0 then 0 else if c > 3 then 3 else c
  }

  /** Milliseconds to wait before the next attempt; `None` gives up. */
  function RetryDelay(retry: Retry, remaining: real, left: nat, random: nat): Option<real> {
    if left == 0 || retry.Never? then None
    else if retry.RateLimit? && (retry.seconds.None? || retry.seconds.value > MAX_RETRY_AFTER_SECONDS) then None
    else
      var wait := if retry.RateLimit? then retry.seconds.value * 1000.0
                  else (BACKOFF_BASE_MS + random % BACKOFF_JITTER_MS) as real;
      if remaining - wait >= MIN_TIME_AFTER_WAIT_MS then Some(wait) else None
  }

  // What a call does, in order

  datatype Event =
    | Reserved
    | Denied(error: QuotaError)
    | Called(reply: Reply)
    | Waited(ms: real, remaining: real)

  datatype Events = Done | Next(event: Event, rest: Events)

  /** How a series of attempts ended, what it did, the retries it left and the number of the next attempt. */
  datatype Trace = Trace(result: Result<Raw>, events: Events, left: nat, next: nat)

  /** The attempts from number `k` on with `left` retries. */
  function Attempts(w: World, deadline: real, left: nat, k: nat): Trace
    decreases left
  {
    if w.reserve(k).Some? then Trace(Err(Quota(w.reserve(k).value)), Next(Denied(w.reserve(k).value), Done), left, k + 1)
    else
      var reply, remaining := w.reply(k), deadline - w.now(k);
      match Classify(reply)
      case Err(AttemptFailure(domain, retry)) =>
        var wait := RetryDelay(retry, remaining, left, w.random(k));
        if wait.None? then Trace(Err(Domain(domain)), Next(Reserved, Next(Called(reply), Done)), left, k + 1)
        else
          var after := Attempts(w, deadline, left - 1, k + 1);
          after.(events := Next(Reserved, Next(Called(reply), Next(Waited(wait.value, remaining), after.events))))
      case result => Trace(result, Next(Reserved, Next(Called(reply), Done)), left, k + 1)
  }

  function Append(a: Events, b: Events): Events {
    if a.Done? then b else Next(a.event, Append(a.rest, b))
  }

  datatype Completion = Completion(result: Result<Raw>, events: Events)

  /** `complete`: the first series of attempts and, for a reply that is no JSON, one repair series out of the same
      retry budget. */
  function Complete(w: World, hasKey: bool, deadline: real, configured: Option<int>): Completion {
    if !hasKey then Completion(Err(Domain(Unavailable)), Done)
    else
      var first := Attempts(w, deadline, MaxRetries(configured), 0);
      if first.result.Err? || first.result.value.isJson then Completion(first.result, first.events)
      else if deadline - w.beforeRepair <= 0.0 then Completion(Err(Domain(Provider)), first.events)
      else
        var second := Attempts(w, deadline, first.left, first.next);
        Completion(Repaired(first.result.value, second.result), Append(first.events, second.events))
  }

  function SumTokens(a: Option<nat>, b: Option<nat>): Option<nat> {
    if a.None? then b else if b.None? then a else Some(a.value + b.value)
  }

  /** The second reply, with the tokens of both counted; one that is no JSON either is an error. */
  function Repaired(first: Raw, second: Result<Raw>): Result<Raw> {
    if second.Err? then second
    else if second.value.isJson then Ok(second.value.(tokens := SumTokens(first.tokens, second.value.tokens)))
    else Err(Domain(Provider))
  }

  // The loop

  /** The retries left for one call; the repair series goes on with the same object. */
  class RetryBudget {
    var left: nat

    constructor (left: nat)
      ensures this.left == left
    {
      this.left := left;
    }
  }

  /** What a provider call left behind on its way, newest last. */
  class Journal {
    var events: Events

    constructor ()
      ensures events == Done
    {
      events := Done;
    }

    method Add(event: Event)
      modifies this
      ensures events == Append(old(events), Next(event, Done))
    {
      events := Append(events, Next(event, Done));
    }
  }

  lemma {:induction false} AppendTwice(a: Events, b: Events, c: Events)
    ensures Append(Append(a, b), c) == Append(a, Append(b, c))
  {
    if a.Next? {
      AppendTwice(a.rest, b, c);
    }
  }

  /** A failed call, its wait and the rest, put together one by one or at once. */
  lemma AppendFailed(done: Events, reply: Reply, waited: Events, rest: Events)
    ensures Append(Append(Append(done, Next(Reserved, Next(Called(reply), Done))), waited), rest)
      == Append(done, Next(Reserved, Next(Called(reply), Append(waited, rest))))
  {
    var pair := Next(Reserved, Next(Called(reply), Done));
    AppendTwice(Append(done, pair), waited, rest);
    AppendTwice(done, pair, Append(waited, rest));
    assert Append(Next(Called(reply), Done), Append(waited, rest)) == Next(Called(reply), Append(waited, rest));
  }

  /** One attempt: the reservation first, outside any error mapping. */
  method Attempt(w: World, k: nat, journal: Journal) returns (r: Result<Raw>)
    modifies journal
    ensures w.reserve(k).Some? ==>
      && r == Err(Quota(w.reserve(k).value))
      && journal.events == Append(old(journal.events), Next(Denied(w.reserve(k).value), Done))
    ensures w.reserve(k).None? ==>
      && r == Classify(w.reply(k))
      && journal.events == Append(old(journal.events), Next(Reserved, Next(Called(w.reply(k)), Done)))
  {
    ghost var before := journal.events;
    if w.reserve(k).Some? {
      journal.Add(Denied(w.reserve(k).value));
      return Err(Quota(w.reserve(k).value));
    }
    journal.Add(Reserved);
    journal.Add(Called(w.reply(k)));
    AppendTwice(before, Next(Reserved, Done), Next(Called(w.reply(k)), Done));
    return Classify(w.reply(k));
  }

  method CallWithRetries(w: World, deadline: real, budget: RetryBudget, k: nat, journal: Journal)
    returns (r: Result<Raw>, next: nat)
    modifies budget, journal
    ensures var t := Attempts(w, deadline, old(budget.left), k);
      && r == t.result && budget.left == t.left && next == t.next
      && journal.events == Append(old(journal.events), t.events)
  {
    next := k;
    ghost var before := journal.events;
    ghost var all := Attempts(w, deadline, budget.left, k);
    while true
      invariant var t := Attempts(w, deadline, budget.left, next);
        && t.result == all.result && t.left == all.left && t.next == all.next
        && Append(journal.events, t.events) == Append(before, all.events)
      decreases budget.left
    {
      ghost var done, t := journal.events, Attempts(w, deadline, budget.left, next);
      r := Attempt(w, next, journal);
      if r.Err? && r.thrown.AttemptFailure? {
        var remaining := deadline - w.now(next);
        var wait := RetryDelay(r.thrown.retry, remaining, budget.left, w.random(next));
        if wait.None? {
          r := Err(Domain(r.thrown.domain));
          next := next + 1;
          return;
        }
        budget.left := budget.left - 1;
        journal.Add(Waited(wait.value, remaining));
        ghost var rest := Attempts(w, deadline, budget.left, next + 1).events;
        ghost var waited := Next(Waited(wait.value, remaining), Done);
        AppendFailed(done, w.reply(next), waited, rest);
        next := next + 1;
      } else {
        next := next + 1;
        return;
      }
    }
  }

  method CompleteRequest(w: World, hasKey: bool, deadline: real, configured: Option<int>)
    returns (r: Result<Raw>, ghost events: Events)
    ensures Completion(r, events) == Complete(w, hasKey, deadline, configured)
  {
    events := Done;
    if !hasKey {
      return Err(Domain(Unavailable)), Done;
    }
    var journal := new Journal();
    var budget := new RetryBudget(MaxRetries(configured));
    var next;
    r, next := CallWithRetries(w, deadline, budget, 0, journal);
    events := journal.events;
    if r.Err? || r.value.isJson {
      return;
    }
    if deadline - w.beforeRepair <= 0.0 {
      r := Err(Domain(Provider));
      return;
    }
    var first := r.value;
    r, next := CallWithRetries(w, deadline, budget, next, journal);
    events := journal.events;
    if r.Ok? {
      r := if r.value.isJson then Ok(r.value.(tokens := SumTokens(first.tokens, r.value.tokens))) else Err(Domain(Provider));
    }
  }

  // What every call keeps

  function Calls(e: Events): nat {
    if e.Done? then 0 else (if e.event.Called? then 1 else 0) + Calls(e.rest)
  }

  function Reservations(e: Events): nat {
    if e.Done? then 0 else (if e.event.Reserved? then 1 else 0) + Reservations(e.rest)
  }

  /** The failures that may be tried again. */
  predicate Retryable(reply: Reply) {
    var r := Classify(reply);
    r.Err? && r.thrown.AttemptFailure? && !r.thrown.retry.Never?
  }

  /** Attempts one after the other: a reservation and its call, or a denied reservation and nothing after it. */
  predicate Metered(e: Events)
    decreases e, 0
  {
    && e.Next?
    && match e.event
       case Denied(_) => e.rest.Done?
       case Reserved => e.rest.Next? && e.rest.event.Called? && AfterCall(e.rest.event.reply, e.rest.rest)
       case _ => false
  }

  /** After a call the next attempt comes only behind a wait for a failure that may be retried, or as the repair of a
      completed reply. */
  predicate AfterCall(reply: Reply, e: Events)
    decreases e, 1
  {
    || e.Done?
    || if e.event.Waited? then Retryable(reply) && Metered(e.rest) else Classify(reply).Ok? && Metered(e)
  }

  /** The last thing done is a call that completed. */
  predicate EndsCompleted(e: Events) {
    e.Next? && if e.rest.Done? then e.event.Called? && Classify(e.event.reply).Ok? else EndsCompleted(e.rest)
  }

  /** Every wait was scheduled with at least a second to spare, of a length its failure allows. */
  predicate WaitsFit(e: Events) {
    e.Done? || ((e.event.Waited? ==> e.event.remaining - e.event.ms >= MIN_TIME_AFTER_WAIT_MS
                                     && e.event.ms <= MAX_RETRY_AFTER_SECONDS * 1000.0) && WaitsFit(e.rest))
  }

  /** The error of the reservation that was denied, if one was. */
  function DeniedWith(e: Events): Option<QuotaError> {
    if e.Done? then None else if e.event.Denied? then Some(e.event.error) else DeniedWith(e.rest)
  }

  /** The result is the quota's own error exactly when a reservation was denied, and no internal failure gets out. */
  predicate ErrorFits(r: Result<Raw>, e: Events) {
    && (r.Err? && r.thrown.Quota? <==> DeniedWith(e).Some?)
    && (DeniedWith(e).Some? ==> r == Err(Quota(DeniedWith(e).value)))
    && !(r.Err? && r.thrown.AttemptFailure?)
  }

  lemma {:induction false} CallThen(reply: Reply, rest: Events)
    ensures var e := Next(Reserved, Next(Called(reply), rest));
      && Calls(e) == 1 + Calls(rest) && DeniedWith(e) == DeniedWith(rest) && (WaitsFit(e) <==> WaitsFit(rest))
  {
    assert Calls(Next(Called(reply), rest)) == 1 + Calls(rest);
    assert DeniedWith(Next(Called(reply), rest)) == DeniedWith(rest);
    assert WaitsFit(Next(Called(reply), rest)) <==> WaitsFit(rest);
  }

  lemma WaitIsShort(retry: Retry, remaining: real, left: nat, random: nat)
    requires RetryDelay(retry, remaining, left, random).Some?
    ensures var wait := RetryDelay(retry, remaining, left, random).value;
      wait <= MAX_RETRY_AFTER_SECONDS * 1000.0 && remaining - wait >= MIN_TIME_AFTER_WAIT_MS
  {
  }

  /** A failed call, its wait and the attempts after it. */
  lemma {:induction false} RetriedIs(reply: Reply, ms: real, remaining: real, after: Events)
    requires Retryable(reply) && Metered(after) && WaitsFit(after)
    requires remaining - ms >= MIN_TIME_AFTER_WAIT_MS && ms <= MAX_RETRY_AFTER_SECONDS * 1000.0
    ensures var e := Next(Reserved, Next(Called(reply), Next(Waited(ms, remaining), after)));
      && Calls(e) == 1 + Calls(after) && DeniedWith(e) == DeniedWith(after) && Metered(e) && WaitsFit(e)
      && (EndsCompleted(after) ==> EndsCompleted(e))
  {
    var waited := Next(Waited(ms, remaining), after);
    CallThen(reply, waited);
    assert Calls(waited) == Calls(after) && DeniedWith(waited) == DeniedWith(after) && WaitsFit(waited);
    assert AfterCall(reply, waited);
    assert EndsCompleted(after) ==> EndsCompleted(waited) && EndsCompleted(Next(Called(reply), waited));
  }

  /** A series makes at most one call more than the retries it spends, each right after its own reservation. */
  lemma {:induction false} AttemptsAre(w: World, deadline: real, left: nat, k: nat)
    ensures var t := Attempts(w, deadline, left, k);
      && t.left <= left && Calls(t.events) <= 1 + (left - t.left)
      && t.next == k + Calls(t.events) + (if DeniedWith(t.events).Some? then 1 else 0)
      && Metered(t.events) && WaitsFit(t.events) && ErrorFits(t.result, t.events)
      && (t.result.Ok? ==> EndsCompleted(t.events))
    decreases left
  {
    CallThen(w.reply(k), Done);
    if w.reserve(k).None? && Classify(w.reply(k)).Err? && Classify(w.reply(k)).thrown.AttemptFailure? {
      var retry := Classify(w.reply(k)).thrown.retry;
      var remaining := deadline - w.now(k);
      var wait := RetryDelay(retry, remaining, left, w.random(k));
      if wait.Some? {
        AttemptsAre(w, deadline, left - 1, k + 1);
        WaitIsShort(retry, remaining, left, w.random(k));
        RetriedIs(w.reply(k), wait.value, remaining, Attempts(w, deadline, left - 1, k + 1).events);
      }
    }
  }

  lemma {:induction false} AppendCounts(a: Events, b: Events)
    requires DeniedWith(a).None? && WaitsFit(a) && WaitsFit(b)
    ensures Calls(Append(a, b)) == Calls(a) + Calls(b) && DeniedWith(Append(a, b)) == DeniedWith(b)
    ensures WaitsFit(Append(a, b))
  {
    if a.Next? {
      AppendCounts(a.rest, b);
    }
  }

  /** A repair series goes on where a completed series ended. */
  lemma {:induction false} AppendRepair(a: Events, b: Events)
    requires Metered(a) && EndsCompleted(a) && Metered(b)
    ensures Metered(Append(a, b))
    decreases a
  {
    if a.event.Reserved? {
      var reply, after := a.rest.event.reply, a.rest.rest;
      assert EndsCompleted(a.rest);
      if after.Next? {
        assert EndsCompleted(after);
        AppendRepair(if after.event.Waited? then after.rest else after, b);
      }
      assert Append(a, b) == Next(Reserved, Next(Called(reply), Append(after, b)));
    }
  }

  lemma {:induction false} EachCallReserved(e: Events)
    requires Metered(e)
    ensures Reservations(e) == Calls(e)
    decreases e
  {
    if e.event.Reserved? {
      var reply, after := e.rest.event.reply, e.rest.rest;
      CallThen(reply, after);
      assert Reservations(Next(Called(reply), after)) == Reservations(after);
      if after.Next? {
        EachCallReserved(if after.event.Waited? then after.rest else after);
      }
    }
  }

  /** Whatever the provider, the quota, the clock and the dice do: at most two calls more than the retries allowed, one
      reservation right before each call and none without one, every scheduled wait within the deadline with a second
      to spare, a denied reservation ending the call with its own error, and no internal failure thrown. */
  lemma CompleteIsMetered(w: World, hasKey: bool, deadline: real, configured: Option<int>)
    ensures var c := Complete(w, hasKey, deadline, configured);
      && Calls(c.events) <= 2 + MaxRetries(configured) && Reservations(c.events) == Calls(c.events)
      && (if hasKey then Metered(c.events) else c.events.Done?)
      && WaitsFit(c.events) && ErrorFits(c.result, c.events)
  {
    if hasKey {
      var first := Attempts(w, deadline, MaxRetries(configured), 0);
      AttemptsAre(w, deadline, MaxRetries(configured), 0);
      EachCallReserved(first.events);
      if first.result.Ok? && !first.result.value.isJson && deadline - w.beforeRepair > 0.0 {
        var second := Attempts(w, deadline, first.left, first.next);
        AttemptsAre(w, deadline, first.left, first.next);
        AppendCounts(first.events, second.events);
        AppendRepair(first.events, second.events);
        EachCallReserved(Append(first.events, second.events));
      }
    }
  }

  /** Failing calls for every retry, then replies that are no JSON. */
  function Unlucky(retries: nat): World {
    World(
      (k: nat) => None,
      (k: nat) => if k < retries then ErrorStatus(Some(500.0), None) else Choice(OtherFinish, false, Raw(false, None)),
      (k: nat) => 0.0,
      (k: nat) => 0,
      0.0)
  }

  lemma {:induction false} UnluckyStep(retries: nat, k: nat)
    requires k < retries
    ensures var w := Unlucky(retries); var after := Attempts(w, 60000.0, retries - k - 1, k + 1);
      Attempts(w, 60000.0, retries - k, k)
      == after.(events := Next(Reserved, Next(Called(w.reply(k)), Next(Waited(500.0, 60000.0), after.events))))
  {
    var w := Unlucky(retries);
    assert Classify(w.reply(k)) == Err(AttemptFailure(Unavailable, Transient));
    assert RetryDelay(Transient, 60000.0 - w.now(k), retries - k, w.random(k)) == Some(500.0);
  }

  lemma {:induction false} UnluckyLast(retries: nat)
    ensures var t := Attempts(Unlucky(retries), 60000.0, 0, retries);
      && t.result == Ok(Raw(false, None)) && t.left == 0 && t.next == retries + 1 && Calls(t.events) == 1
      && DeniedWith(t.events).None? && WaitsFit(t.events)
  {
    var w := Unlucky(retries);
    assert Classify(w.reply(retries)) == Ok(Raw(false, None));
    CallThen(w.reply(retries), Done);
  }

  lemma {:induction false} UnluckySeries(retries: nat, k: nat)
    requires k <= retries
    ensures var t := Attempts(Unlucky(retries), 60000.0, retries - k, k);
      && t.result == Ok(Raw(false, None)) && t.left == 0 && t.next == retries + 1 && Calls(t.events) == retries - k + 1
      && DeniedWith(t.events).None? && WaitsFit(t.events)
    decreases retries - k
  {
    if k < retries {
      UnluckySeries(retries, k + 1);
      UnluckyStep(retries, k);
      var w := Unlucky(retries);
      var rest := Attempts(w, 60000.0, retries - k - 1, k + 1).events;
      CallThen(w.reply(k), Next(Waited(500.0, 60000.0), rest));
    } else {
      UnluckyLast(retries);
    }
  }

  /** Both series together. */
  lemma UnluckyCalls(n: nat)
    ensures var first, second := Attempts(Unlucky(n), 60000.0, n, 0), Attempts(Unlucky(n), 60000.0, 0, n + 1);
      && first.result == Ok(Raw(false, None)) && first.left == 0 && first.next == n + 1
      && Calls(Append(first.events, second.events)) == n + 2
  {
    var w := Unlucky(n);
    UnluckySeries(n, 0);
    var first, second := Attempts(w, 60000.0, n, 0), Attempts(w, 60000.0, 0, n + 1);
    CallThen(w.reply(n + 1), Done);
    AttemptsAre(w, 60000.0, 0, n + 1);
    AppendCounts(first.events, second.events);
  }

  /** The bound is met: with every retry used up, the repair still makes its own call. */
  lemma BoundIsMet(configured: Option<int>)
    ensures Calls(Complete(Unlucky(MaxRetries(configured)), true, 60000.0, configured).events)
      == 2 + MaxRetries(configured)
  {
    UnluckyCalls(MaxRetries(configured));
  }

  // Which result a call ends with

  predicate Failed(reply: Reply, status: real) {
    reply.ErrorStatus? && reply.status == Some(status)
  }

  predicate ServerError(reply: Reply) {
    reply.ErrorStatus? && reply.status.Some? && reply.status.value >= 500.0
  }

  /** A choice that stopped of its own accord and says something. */
  predicate Completed(reply: Reply) {
    reply.Choice? && reply.finish == OtherFinish && !reply.blank
  }

  /** The domain error an attempt gives. */
  function ErrorOf(t: Thrown): Option<DomainError> {
    match t
    case Domain(error) => Some(error)
    case AttemptFailure(domain, _) => Some(domain)
    case Quota(_) => None
  }

  /** Each kind of reply has its own error: a reply cut off at the length is truncated, a filtered one refused, a 429 is a
      rate limit with the wait its header gives, no answer, a timeout status or a server error make the provider unavailable,
      and everything else is the provider's error. Only a rate limit, a server error and a lost connection may be retried. */
  lemma RepliesAreClassified(reply: Reply)
    ensures Classify(reply).Ok? <==> Completed(reply)
    ensures Completed(reply) ==> Classify(reply) == Ok(reply.raw)
    ensures !Completed(reply) ==> var error := ErrorOf(Classify(reply).thrown);
      && (error == Some(Truncated) <==> reply.Choice? && reply.finish == Length)
      && (error == Some(Refused) <==> reply.Choice? && reply.finish == ContentFilter)
      && (error.Some? && error.value.RateLimited? <==> Failed(reply, 429.0))
      && (Failed(reply, 429.0) ==> error == Some(RateLimited(reply.retryAfter)))
      && (error == Some(Unavailable) <==> reply.NetworkFailure? || Failed(reply, 408.0) || ServerError(reply))
      && error.Some?
    ensures Retryable(reply) <==>
      (reply.NetworkFailure? && !reply.timedOut) || Failed(reply, 429.0) || ServerError(reply)
  {
  }

  /** The wait a failed call asks for: the header's own of at most ten seconds for a rate limit, from half a second up to
      less than three quarters for a server error or a lost connection. */
  function AskedWait(reply: Reply, random: nat): Option<real> {
    if Failed(reply, 429.0) then
      if reply.retryAfter.Some? && reply.retryAfter.value <= 10.0 then Some(reply.retryAfter.value * 1000.0) else None
    else if ServerError(reply) || (reply.NetworkFailure? && !reply.timedOut) then Some((500 + random % 250) as real)
    else None
  }

  /** A retry is left, the failure asks for a wait, and a second of the deadline remains behind it. */
  predicate MayRetry(reply: Reply, remaining: real, left: nat, random: nat) {
    left > 0 && AskedWait(reply, random).Some? && remaining - AskedWait(reply, random).value >= 1000.0
  }

  lemma RetriedExactly(reply: Reply, remaining: real, left: nat, random: nat)
    requires Classify(reply).Err? && Classify(reply).thrown.AttemptFailure?
    ensures RetryDelay(Classify(reply).thrown.retry, remaining, left, random)
      == if MayRetry(reply, remaining, left, random) then AskedWait(reply, random) else None
  {
  }

  /** The first attempt of a series goes on to a next one exactly when its call may be retried, after that wait and with one
      retry less; otherwise the series ends with it. */
  lemma SeriesGoesOn(w: World, deadline: real, left: nat, k: nat)
    requires w.reserve(k).None?
    ensures var t, reply, remaining := Attempts(w, deadline, left, k), w.reply(k), deadline - w.now(k);
      t.events == Next(Reserved, Next(Called(reply),
        if MayRetry(reply, remaining, left, w.random(k))
        then Next(Waited(AskedWait(reply, w.random(k)).value, remaining), Attempts(w, deadline, left - 1, k + 1).events)
        else Done))
    ensures MayRetry(w.reply(k), deadline - w.now(k), left, w.random(k)) ==>
      Attempts(w, deadline, left, k).result == Attempts(w, deadline, left - 1, k + 1).result
  {
    RepliesAreClassified(w.reply(k));
    if Classify(w.reply(k)).Err? && Classify(w.reply(k)).thrown.AttemptFailure? {
      RetriedExactly(w.reply(k), deadline - w.now(k), left, w.random(k));
    }
  }

  /** The reply of the last call. */
  function LastReply(e: Events): Option<Reply> {
    if e.Done? then None
    else
      var later := LastReply(e.rest);
      if later.Some? || !e.event.Called? then later else Some(e.event.reply)
  }

  /** A completed reply that tells its tokens. */
  predicate TellsTokens(event: Event) {
    event.Called? && Completed(event.reply) && event.reply.raw.tokens.Some?
  }

  predicate AnyTell(e: Events) {
    e.Next? && (TellsTokens(e.event) || AnyTell(e.rest))
  }

  function TokenSum(e: Events): nat {
    if e.Done? then 0 else (if TellsTokens(e.event) then e.event.reply.raw.tokens.value else 0) + TokenSum(e.rest)
  }

  /** The tokens of all replies that completed, if any of them tells. */
  function TokensUsed(e: Events): Option<nat> {
    if AnyTell(e) then Some(TokenSum(e)) else None
  }

  lemma {:induction false} UntoldIsNothing(e: Events)
    requires !AnyTell(e)
    ensures TokenSum(e) == 0
  {
    if e.Next? {
      UntoldIsNothing(e.rest);
    }
  }

  /** One more event first. */
  lemma TokensOfNext(event: Event, rest: Events)
    ensures TokensUsed(Next(event, rest)) ==
      if event.Called? && Completed(event.reply) then SumTokens(event.reply.raw.tokens, TokensUsed(rest))
      else TokensUsed(rest)
  {
    if !AnyTell(rest) {
      UntoldIsNothing(rest);
    }
  }

  /** A series ends with what its last call gave, and has used the tokens of that call. */
  predicate EndsWith(r: Result<Raw>, e: Events) {
    match r
    case Ok(raw) => LastReply(e).Some? && Completed(LastReply(e).value) && LastReply(e).value.raw == raw
                    && TokensUsed(e) == raw.tokens
    case Err(Quota(_)) => TokensUsed(e) == None
    case Err(thrown) => LastReply(e).Some? && !Completed(LastReply(e).value) && TokensUsed(e) == None
                        && ErrorOf(thrown) == ErrorOf(Classify(LastReply(e).value).thrown)
  }

  lemma {:induction false} CallEnds(reply: Reply, rest: Events)
    ensures var e := Next(Reserved, Next(Called(reply), rest));
      && LastReply(e) == (if LastReply(rest).Some? then LastReply(rest) else Some(reply))
      && TokensUsed(e) == if Completed(reply) then SumTokens(reply.raw.tokens, TokensUsed(rest)) else TokensUsed(rest)
  {
    assert LastReply(Next(Called(reply), rest)) == if LastReply(rest).Some? then LastReply(rest) else Some(reply);
    TokensOfNext(Called(reply), rest);
    TokensOfNext(Reserved, Next(Called(reply), rest));
  }

  lemma {:induction false} SeriesEnds(w: World, deadline: real, left: nat, k: nat)
    ensures var t := Attempts(w, deadline, left, k); EndsWith(t.result, t.events)
    decreases left
  {
    RepliesAreClassified(w.reply(k));
    CallEnds(w.reply(k), Done);
    if w.reserve(k).None? && Classify(w.reply(k)).Err? && Classify(w.reply(k)).thrown.AttemptFailure? {
      var remaining := deadline - w.now(k);
      var wait := RetryDelay(Classify(w.reply(k)).thrown.retry, remaining, left, w.random(k));
      if wait.Some? {
        SeriesEnds(w, deadline, left - 1, k + 1);
        var after := Attempts(w, deadline, left - 1, k + 1).events;
        TokensOfNext(Waited(wait.value, remaining), after);
        CallEnds(w.reply(k), Next(Waited(wait.value, remaining), after));
      }
    }
  }

  lemma {:induction false} AppendEnds(a: Events, b: Events)
    ensures LastReply(Append(a, b)) == if LastReply(b).Some? then LastReply(b) else LastReply(a)
    ensures TokensUsed(Append(a, b)) == SumTokens(TokensUsed(a), TokensUsed(b))
  {
    if a.Next? {
      AppendEnds(a.rest, b);
      TokensOfNext(a.event, a.rest);
      TokensOfNext(a.event, Append(a.rest, b));
    }
  }

  /** Whatever happens: a call succeeds only with a last reply that completed and is JSON, reporting the tokens of every
      reply that completed, and fails with the error of its last reply, or with the provider's error when that reply
      completed without being JSON. */
  lemma CompleteEnds(w: World, deadline: real, configured: Option<int>)
    ensures var c := Complete(w, true, deadline, configured); var last := LastReply(c.events);
      match c.result
      case Ok(raw) => last.Some? && Completed(last.value) && last.value.raw.isJson
                      && raw == Raw(true, TokensUsed(c.events))
      case Err(Quota(error)) => DeniedWith(c.events) == Some(error)
      case Err(thrown) =>
        && last.Some?
        && (if Completed(last.value) then !last.value.raw.isJson && thrown == Domain(Provider)
            else ErrorOf(thrown) == ErrorOf(Classify(last.value).thrown))
  {
    var first := Attempts(w, deadline, MaxRetries(configured), 0);
    CompleteIsMetered(w, true, deadline, configured);
    SeriesEnds(w, deadline, MaxRetries(configured), 0);
    if first.result.Ok? && !first.result.value.isJson && deadline - w.beforeRepair > 0.0 {
      var second := Attempts(w, deadline, first.left, first.next);
      SeriesEnds(w, deadline, first.left, first.next);
      AppendEnds(first.events, second.events);
    }
  }

  function Steps(e: Events): nat {
    if e.Done? then 0 else 1 + Steps(e.rest)
  }

  lemma {:induction false} AppendSteps(a: Events, b: Events)
    ensures Steps(Append(a, b)) == Steps(a) + Steps(b)
  {
    if a.Next? {
      AppendSteps(a.rest, b);
    }
  }

  /** More is done than one series exactly when that ended with a reply that is no JSON and time is left; it is then one more
      series on the retries that are left. */
  lemma RepairedExactly(w: World, deadline: real, configured: Option<int>)
    ensures var c, first := Complete(w, true, deadline, configured), Attempts(w, deadline, MaxRetries(configured), 0);
      && (c.events != first.events <==> first.result.Ok? && !first.result.value.isJson && w.beforeRepair < deadline)
      && (c.events != first.events ==>
            c.events == Append(first.events, Attempts(w, deadline, first.left, first.next).events))
  {
    var first := Attempts(w, deadline, MaxRetries(configured), 0);
    var second := Attempts(w, deadline, first.left, first.next);
    AttemptsAre(w, deadline, first.left, first.next);
    AppendSteps(first.events, second.events);
  }
}
