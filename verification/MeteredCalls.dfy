/** Any number of gateway calls against one daily quota: `beforeAttempt` reserves one unit for the caller. */
module MeteredCalls {
  import Q = AiQuota
  import G = LlmGateway
  import opened Options

  /** A reservation of a gateway call, which is also the one provider call it allows. */
  datatype Ticket = Ticket(call: nat, attempt: nat)

  /** A gateway call under way, with the provider calls it has made so far. */
  datatype Client = Client(user: Q.UserId, world: G.World, hasKey: bool, deadline: real, configured: Option<int>, made: nat)

  /** A history of the quota; a step that runs the script for a gateway call carries the ticket. */
  datatype Shared = Begin(clock: int) | Then(before: Shared, action: Q.Action, ticket: Option<Ticket>)

  function Plain(s: Shared): Q.History {
    match s
    case Begin(clock) => Q.Begin(clock)
    case Then(before, action, _) => Q.Then(Plain(before), action)
  }

  function Grants(limits: Q.Limits, s: Shared): Q.Grants {
    Q.End(limits, Plain(s)).grants
  }

  /** What the last step granted. */
  function StepGrant(limits: Q.Limits, s: Shared): Option<Q.Grant>
    requires s.Then?
  {
    if Grants(limits, s).Granted? && Grants(limits, s).before == Grants(limits, s.before) then Some(Grants(limits, s).last)
    else None
  }

  /** What the step with this ticket granted. */
  function GrantOf(limits: Q.Limits, s: Shared, t: Ticket): Option<Q.Grant> {
    if s.Begin? then None
    else if s.ticket == Some(t) && StepGrant(limits, s).Some? then StepGrant(limits, s)
    else GrantOf(limits, s.before, t)
  }

  function Complete(c: Client): G.Completion {
    G.Complete(c.world, c.hasKey, c.deadline, c.configured)
  }

  /** Each client has made some of the provider calls it is going to make, and a reservation it made for one was answered
      without an error only by a step of its own that granted its user a unit. */
  ghost predicate Answered(limits: Q.Limits, s: Shared, clients: seq<Client>) {
    forall c, k: nat {:trigger clients[c].world.reserve(k)} | 0 <= c < |clients| && k < clients[c].made ::
      && clients[c].made <= G.Calls(Complete(clients[c]).events)
      && (clients[c].world.reserve(k).None? ==>
            var g := GrantOf(limits, s, Ticket(c, k)); g.Some? && g.value.user == clients[c].user)
  }

  /** A unit a counter counts. */
  predicate Counts(k: Q.Key, g: Q.Grant) {
    k.day == g.day && (k.UserKey? ==> k.user == g.user)
  }

  predicate CountedCall(limits: Q.Limits, s: Shared, k: Q.Key, t: Ticket) {
    var g := GrantOf(limits, s, t);
    g.Some? && Counts(k, g.value)
  }

  /** The provider calls made on reservations that a counter counts. */
  function ProviderCalls(limits: Q.Limits, s: Shared, clients: seq<Client>, k: Q.Key): set<Ticket> {
    set c, n | 0 <= c < |clients| && 0 <= n < clients[c].made && CountedCall(limits, s, k, Ticket(c, n)) :: Ticket(c, n)
  }

  // Reservations before calls

  /** A series calls the provider on consecutive reservations, all of them answered without an error. */
  lemma {:induction false} SeriesReserves(w: G.World, deadline: real, left: nat, k: nat, j: nat)
    requires k <= j < k + G.Calls(G.Attempts(w, deadline, left, k).events)
    ensures w.reserve(j).None?
    decreases left
  {
    G.CallThen(w.reply(k), G.Done);
    if w.reserve(k).None? && G.Classify(w.reply(k)).Err? && G.Classify(w.reply(k)).thrown.AttemptFailure? {
      var remaining := deadline - w.now(k);
      var wait := G.RetryDelay(G.Classify(w.reply(k)).thrown.retry, remaining, left, w.random(k));
      if wait.Some? {
        var rest := G.Attempts(w, deadline, left - 1, k + 1).events;
        G.CallThen(w.reply(k), G.Next(G.Waited(wait.value, remaining), rest));
        if j > k {
          SeriesReserves(w, deadline, left - 1, k + 1, j);
        }
      }
    }
  }

  /** The n-th provider call of a gateway call was allowed by its n-th reservation, in the repair series too. */
  lemma {:induction false} CallIsReserved(c: Client, n: nat)
    requires n < G.Calls(Complete(c).events)
    ensures c.world.reserve(n).None?
  {
    var w, left := c.world, G.MaxRetries(c.configured);
    var first := G.Attempts(w, c.deadline, left, 0);
    G.AttemptsAre(w, c.deadline, left, 0);
    if n < G.Calls(first.events) {
      SeriesReserves(w, c.deadline, left, 0, n);
    } else {
      var second := G.Attempts(w, c.deadline, first.left, first.next);
      G.AttemptsAre(w, c.deadline, first.left, first.next);
      G.AppendCounts(first.events, second.events);
      SeriesReserves(w, c.deadline, first.left, first.next, n);
    }
  }

  // Each call its own unit

  /** The tickets of the steps that granted a unit the counter counts. */
  function Owners(limits: Q.Limits, s: Shared, k: Q.Key): set<Ticket> {
    if s.Begin? then {}
    else
      var g := StepGrant(limits, s);
      Owners(limits, s.before, k) + if s.ticket.Some? && g.Some? && Counts(k, g.value) then {s.ticket.value} else {}
  }

  lemma {:induction false} StepGrantIs(limits: Q.Limits, s: Shared)
    requires s.Then?
    ensures var g := StepGrant(limits, s); var before := Grants(limits, s.before);
      Grants(limits, s) == if g.Some? then Q.Granted(g.value, before) else before
  {
  }

  lemma {:induction false} OneMoreGrant(g: Q.Grant, before: Q.Grants, k: Q.Key)
    ensures Q.KeyGrants(Q.Granted(g, before), k) == Q.KeyGrants(before, k) + if Counts(k, g) then 1 else 0
  {
  }

  /** A step grants at most one unit and has at most one ticket. */
  lemma {:induction false} OwnersWithinGrants(limits: Q.Limits, s: Shared, k: Q.Key)
    ensures |Owners(limits, s, k)| <= Q.KeyGrants(Grants(limits, s), k)
  {
    if s.Then? {
      OwnersWithinGrants(limits, s.before, k);
      StepGrantIs(limits, s);
      var g := StepGrant(limits, s);
      if g.Some? {
        OneMoreGrant(g.value, Grants(limits, s.before), k);
      }
    }
  }

  lemma {:induction false} GrantedIsOwner(limits: Q.Limits, s: Shared, k: Q.Key, t: Ticket)
    requires CountedCall(limits, s, k, t)
    ensures t in Owners(limits, s, k)
  {
    if !(s.ticket == Some(t) && StepGrant(limits, s).Some?) {
      GrantedIsOwner(limits, s.before, k, t);
    }
  }

  lemma {:induction false} SubsetIsNoLarger<T>(a: set<T>, b: set<T>)
    requires a <= b
    ensures |a| <= |b|
  {
    assert b == a + (b - a);
  }

  /** However the calls interleave with each other and with everyone else: each provider call owns a unit that was granted
      to its user, and no two calls share one, so those that a counter counts are no more than the units it counted. */
  lemma {:induction false} CallsOwnTheirGrants(limits: Q.Limits, s: Shared, clients: seq<Client>, k: Q.Key)
    requires Answered(limits, s, clients)
    ensures forall c, n: nat | 0 <= c < |clients| && n < clients[c].made ::
      var g := GrantOf(limits, s, Ticket(c, n)); g.Some? && g.value.user == clients[c].user
    ensures |ProviderCalls(limits, s, clients, k)| <= Q.KeyGrants(Grants(limits, s), k)
  {
    forall c, n: nat | 0 <= c < |clients| && n < clients[c].made
      ensures var g := GrantOf(limits, s, Ticket(c, n)); g.Some? && g.value.user == clients[c].user
    {
      assert clients[c].world.reserve(n).None? ==> GrantOf(limits, s, Ticket(c, n)).Some?;
      CallIsReserved(clients[c], n);
    }
    forall t | t in ProviderCalls(limits, s, clients, k)
      ensures t in Owners(limits, s, k)
    {
      GrantedIsOwner(limits, s, k, t);
    }
    SubsetIsNoLarger(ProviderCalls(limits, s, clients, k), Owners(limits, s, k));
    OwnersWithinGrants(limits, s, k);
  }

  /** In every run of any number of gateway calls at once, retries and repairs included, the provider is called on a day's
      reservations at most as often as the user's cap for one user and as the global cap for all of them, as long as no
      reservation reaches the store more than an hour after its instance read the clock. */
  lemma {:induction false} ProviderCallsWithinCaps(limits: Q.Limits, s: Shared, clients: seq<Client>, k: Q.Key, lag: int)
    requires Q.Legal(limits, Plain(s)) && Q.Timely(limits, Plain(s), lag) && lag <= Q.EXPIRY_GRACE_MS
    requires Answered(limits, s, clients)
    ensures |ProviderCalls(limits, s, clients, k)| <= Q.KeyCap(limits, k)
  {
    CallsOwnTheirGrants(limits, s, clients, k);
    Q.TimelyWithinCaps(limits, Plain(s), lag);
    assert Q.KeyGrants(Grants(limits, s), k) <= Q.KeyCap(limits, k);
  }

  // The bound is met

  /** A provider that answers at once, for a user who is never refused. */
  function Prompt(): G.World {
    G.World(
      (k: nat) => None,
      (k: nat) => G.Choice(G.OtherFinish, false, G.Raw(true, None)),
      (k: nat) => 0.0,
      (k: nat) => 0,
      0.0)
  }

  /** Calls of one user under way at once, each past its provider call. */
  function Busy(n: nat): seq<Client> {
    seq(n, i => Client(0, Prompt(), true, 1000.0, None, 1))
  }

  /** Their reservations, one after the other on one day. */
  function BusyHistory(n: nat): Shared {
    if n == 0 then Begin(0) else Then(BusyHistory(n - 1), Q.Run(0, 0, Q.Reserve), Some(Ticket(n - 1, 0)))
  }

  lemma PromptCallsOnce()
    ensures G.Calls(G.Complete(Prompt(), true, 1000.0, None).events) == 1
  {
    var w := Prompt();
    assert G.Classify(w.reply(0)) == G.Ok(G.Raw(true, None));
    G.CallThen(w.reply(0), G.Done);
  }

  /** One reservation below both caps is granted. */
  lemma {:induction false} BusyStep(limits: Q.Limits, n: nat)
    requires n < limits.user && n < limits.global
    requires Q.Legal(limits, Plain(BusyHistory(n))) && Q.End(limits, Plain(BusyHistory(n))).store.clock == 0
    requires forall k: Q.Key | k.day == 0 :: Q.KeyGrants(Grants(limits, BusyHistory(n)), k) <= n
    ensures Q.Legal(limits, Plain(BusyHistory(n + 1))) && Q.End(limits, Plain(BusyHistory(n + 1))).store.clock == 0
    ensures Grants(limits, BusyHistory(n + 1)) == Q.Granted(Q.Grant(0, 0), Grants(limits, BusyHistory(n)))
  {
    var s := Q.End(limits, Plain(BusyHistory(n)));
    Q.EveryHistoryInv(limits, Plain(BusyHistory(n)));
    var user, all := Q.UserKey(0, 0), Q.GlobalKey(0);
    assert Q.KeyInv(limits, s, user) && Q.KeyInv(limits, s, all);
    assert Q.KeyGrants(s.grants, user) <= n && Q.KeyGrants(s.grants, all) <= n;
    assert Q.UtcDay(0) == 0;
  }

  lemma {:induction false} BusyGrants(limits: Q.Limits, n: nat)
    requires n <= limits.user && n <= limits.global
    ensures var h := Plain(BusyHistory(n));
      && Q.Legal(limits, h) && Q.Timely(limits, h, 0) && Q.End(limits, h).store.clock == 0
      && forall k: Q.Key | k.day == 0 :: Q.KeyGrants(Grants(limits, BusyHistory(n)), k) <= n
  {
    if n > 0 {
      BusyGrants(limits, n - 1);
      BusyStep(limits, n - 1);
      var before := Grants(limits, BusyHistory(n - 1));
      forall k: Q.Key | k.day == 0
        ensures Q.KeyGrants(Q.Granted(Q.Grant(0, 0), before), k) <= n
      {
        OneMoreGrant(Q.Grant(0, 0), before, k);
        assert Q.KeyGrants(before, k) <= n - 1;
      }
    }
  }

  lemma {:induction false} BusyOwners(limits: Q.Limits, n: nat, c: nat)
    requires c < n <= limits.user && n <= limits.global
    ensures GrantOf(limits, BusyHistory(n), Ticket(c, 0)) == Some(Q.Grant(0, 0))
  {
    var s := BusyHistory(n);
    BusyGrants(limits, n - 1);
    BusyStep(limits, n - 1);
    assert s.before == BusyHistory(n - 1) && s.ticket == Some(Ticket(n - 1, 0));
    assert StepGrant(limits, s) == Some(Q.Grant(0, 0));
    if c < n - 1 {
      BusyOwners(limits, n - 1, c);
      assert GrantOf(limits, s, Ticket(c, 0)) == GrantOf(limits, s.before, Ticket(c, 0));
    }
  }

  lemma {:induction false} FirstTickets(n: nat) returns (tickets: set<Ticket>)
    ensures |tickets| == n && forall t :: t in tickets <==> t.call < n && t.attempt == 0
  {
    tickets := {};
    if n > 0 {
      tickets := FirstTickets(n - 1);
      tickets := tickets + {Ticket(n - 1, 0)};
    }
  }

  /** As many calls at once as the user's cap allows, each with a unit of its own, call the provider exactly that often. */
  lemma {:induction false} CapIsReached(limits: Q.Limits)
    requires 0 <= limits.user <= limits.global
    ensures var n := limits.user; var s := BusyHistory(n);
      && Q.Legal(limits, Plain(s)) && Q.Timely(limits, Plain(s), 0) && Answered(limits, s, Busy(n))
      && |ProviderCalls(limits, s, Busy(n), Q.UserKey(0, 0))| == Q.KeyCap(limits, Q.UserKey(0, 0))
  {
    var n := limits.user;
    var s := BusyHistory(n);
    BusyGrants(limits, n);
    PromptCallsOnce();
    forall c: nat | c < n
      ensures GrantOf(limits, s, Ticket(c, 0)) == Some(Q.Grant(0, 0))
    {
      BusyOwners(limits, n, c);
    }
    var tickets := FirstTickets(n);
    var calls := ProviderCalls(limits, s, Busy(n), Q.UserKey(0, 0));
    forall t
      ensures t in calls <==> t in tickets
    {
      if t in tickets {
        assert Busy(n)[t.call].made == 1;
        assert CountedCall(limits, s, Q.UserKey(0, 0), Ticket(t.call, 0));
      }
    }
    assert calls == tickets;
  }
}
