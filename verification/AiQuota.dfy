/** The daily quota: one counter per user and one global, kept by an atomic script in the shared store. */
module AiQuota {
  const DAY_MS := 86400000
  const DAY_SECONDS := 86400
  const EXPIRY_GRACE_SECONDS := 3600
  const EXPIRY_GRACE_MS := 3600000

  type UserId = nat

  // Days and midnights, in milliseconds since the epoch

  /** The day `toISOString` names. */
  function UtcDay(at: int): int {
    at / DAY_MS
  }

  function NextMidnight(at: int): int {
    (UtcDay(at) + 1) * DAY_MS
  }

  /** `Math.ceil(ms / 1000)`. */
  function CeilSeconds(ms: int): int {
    (ms + 999) / 1000
  }

  function SecondsUntilUtcMidnight(at: int): (s: int)
    ensures s >= 1
  {
    var s := CeilSeconds(NextMidnight(at) - at);
    if s < 1 then 1 else s
  }

  function ExpireAt(at: int): int {
    at / 1000 + SecondsUntilUtcMidnight(at) + EXPIRY_GRACE_SECONDS
  }

  /** When the counters of a day go, in seconds: the next midnight and an hour. */
  function DayExpiry(day: int): int {
    (day + 1) * DAY_SECONDS + EXPIRY_GRACE_SECONDS
  }

  /** The wait ends at the next midnight, less than a second late, and is never longer than a day. */
  lemma WaitReachesMidnight(at: int)
    ensures NextMidnight(at) <= at + 1000 * SecondsUntilUtcMidnight(at) < NextMidnight(at) + 1000
    ensures SecondsUntilUtcMidnight(at) <= DAY_SECONDS
  {
  }

  /** Every moment of a day computes the same expiry. */
  lemma ExpiryIsTheDays(at: int)
    ensures ExpireAt(at) == DayExpiry(UtcDay(at))
  {
  }

  // The store

  datatype Key = UserKey(user: UserId, day: int) | GlobalKey(day: int)

  /** A counter and the second at which it goes. */
  datatype Counter = Counter(count: nat, expiry: int)

  datatype Limits = Limits(user: int, global: int)

  /** One unit granted. */
  datatype Grant = Grant(user: UserId, day: int)

  /** The grants ever made, newest first. */
  datatype Grants = NoGrants | Granted(last: Grant, before: Grants)

  datatype Store = Store(counters: map<Key, Counter>, clock: int)

  /** The clock of the store, in milliseconds, has reached this second. */
  predicate Reached(s: Store, second: int) {
    1000 * second <= s.clock
  }

  /** What a read of the store sees: an expired counter is gone whether or not it was removed yet. */
  function Count(s: Store, k: Key): nat {
    if k in s.counters && !Reached(s, s.counters[k].expiry) then s.counters[k].count else 0
  }

  /** `INCR` and `EXPIREAT`; an expiry that has passed deletes at once, as a read can tell. */
  function Incremented(s: Store, k: Key, expiry: int): Store {
    s.(counters := s.counters[k := Counter(Count(s, k) + 1, expiry)])
  }

  datatype Mode = Reserve | Check

  datatype Answer = Answer(allowed: bool, store: Store)

  /** The script: both counters are read before anything is written. */
  function Script(s: Store, limits: Limits, user: UserId, day: int, expiry: int, mode: Mode): Answer {
    var userKey, globalKey := UserKey(user, day), GlobalKey(day);
    if Count(s, userKey) >= limits.user || Count(s, globalKey) >= limits.global then Answer(false, s)
    else if mode.Check? then Answer(true, s)
    else Answer(true, Incremented(Incremented(s, userKey, expiry), globalKey, expiry))
  }

  // Runs

  datatype State = State(store: Store, grants: Grants)

  /** A call of some instance, whose own clock says `at`; the store's clock moving on; a counter past its expiry being
      removed. A call whose script never reached the store is no step. */
  datatype Action = Run(user: UserId, at: int, mode: Mode) | Tick(clock: int) | Remove(key: Key)

  predicate Enabled(s: State, a: Action) {
    match a
    case Run(_, _, _) => true
    case Tick(clock) => s.store.clock <= clock
    case Remove(key) => key in s.store.counters && Reached(s.store, s.store.counters[key].expiry)
  }

  function Apply(limits: Limits, s: State, a: Action): State {
    match a
    case Run(user, at, mode) =>
      var answer := Script(s.store, limits, user, UtcDay(at), ExpireAt(at), mode);
      State(answer.store,
            if answer.allowed && mode.Reserve? then Granted(Grant(user, UtcDay(at)), s.grants) else s.grants)
    case Tick(clock) => s.(store := s.store.(clock := clock))
    case Remove(key) => s.(store := s.store.(counters := s.store.counters - {key}))
  }

  datatype History = Begin(clock: int) | Then(before: History, action: Action)

  function End(limits: Limits, h: History): State {
    match h
    case Begin(clock) => State(Store(map[], clock), NoGrants)
    case Then(before, action) => Apply(limits, End(limits, before), action)
  }

  predicate Legal(limits: Limits, h: History) {
    h.Then? ==> Legal(limits, h.before) && Enabled(End(limits, h.before), h.action)
  }

  function UserGrants(g: Grants, user: UserId, day: int): nat {
    if g.NoGrants? then 0
    else (if g.last == Grant(user, day) then 1 else 0) + UserGrants(g.before, user, day)
  }

  function DayGrants(g: Grants, day: int): nat {
    if g.NoGrants? then 0 else (if g.last.day == day then 1 else 0) + DayGrants(g.before, day)
  }

  function KeyGrants(g: Grants, k: Key): nat {
    match k
    case UserKey(user, day) => UserGrants(g, user, day)
    case GlobalKey(day) => DayGrants(g, day)
  }

  /** A limit as the script compares with it. */
  function Cap(limit: int): nat {
    if limit < 0 then 0 else limit
  }

  function KeyCap(limits: Limits, k: Key): nat {
    if k.UserKey? then Cap(limits.user) else Cap(limits.global)
  }

  /** A counter carries its day's expiry and is within its cap; while the store's clock has not reached the expiry, it is
      the number of grants. */
  ghost predicate KeyInv(limits: Limits, s: State, k: Key) {
    && (k in s.store.counters ==> s.store.counters[k].expiry == DayExpiry(k.day))
    && Count(s.store, k) <= KeyCap(limits, k)
    && (!Reached(s.store, DayExpiry(k.day)) ==> Count(s.store, k) == KeyGrants(s.grants, k))
  }

  lemma RunKeepsKey(limits: Limits, s: State, user: UserId, at: int, mode: Mode, k: Key)
    requires KeyInv(limits, s, k) && KeyInv(limits, s, UserKey(user, UtcDay(at))) && KeyInv(limits, s, GlobalKey(UtcDay(at)))
    ensures KeyInv(limits, Apply(limits, s, Run(user, at, mode)), k)
  {
  }

  lemma NextKeepsKey(limits: Limits, s: State, a: Action, k: Key)
    requires Enabled(s, a) && forall j :: KeyInv(limits, s, j)
    ensures KeyInv(limits, Apply(limits, s, a), k)
  {
    match a
    case Run(user, at, mode) => RunKeepsKey(limits, s, user, at, mode, k);
    case Tick(_) => assert KeyInv(limits, s, k);
    case Remove(_) => assert KeyInv(limits, s, k);
  }

  lemma {:induction false} EveryHistoryInv(limits: Limits, h: History)
    requires Legal(limits, h)
    ensures forall k :: KeyInv(limits, End(limits, h), k)
  {
    if h.Then? {
      EveryHistoryInv(limits, h.before);
      forall k
        ensures KeyInv(limits, End(limits, h), k)
      {
        NextKeepsKey(limits, End(limits, h.before), h.action, k);
      }
    }
  }

  // The caps, whatever the clocks

  /** Every reservation of the history reached the store at most `lag` milliseconds, by the store's clock, after the
      moment its instance read. */
  predicate Timely(limits: Limits, h: History, lag: int) {
    h.Then? ==>
      && Timely(limits, h.before, lag)
      && (h.action.Run? && h.action.mode.Reserve? ==> End(limits, h.before).store.clock - h.action.at <= lag)
  }

  /** No user has more units of a day than the user's cap, and all of them together no more than the global one. */
  ghost predicate WithinCaps(limits: Limits, g: Grants) {
    forall k :: KeyGrants(g, k) <= KeyCap(limits, k)
  }

  /** A reservation within the grace finds the counters of its day still there. */
  lemma {:induction false} TimelyGrant(limits: Limits, h: History, lag: int)
    requires Legal(limits, h) && h.Then? && Timely(limits, h, lag) && lag <= EXPIRY_GRACE_MS
    requires WithinCaps(limits, End(limits, h.before).grants)
    ensures WithinCaps(limits, End(limits, h).grants)
  {
    var s := End(limits, h.before);
    EveryHistoryInv(limits, h.before);
    forall k
      ensures KeyGrants(End(limits, h).grants, k) <= KeyCap(limits, k)
    {
      assert KeyInv(limits, s, k) && KeyGrants(s.grants, k) <= KeyCap(limits, k);
    }
  }

  lemma {:induction false} TimelyWithinCaps(limits: Limits, h: History, lag: int)
    requires Legal(limits, h) && Timely(limits, h, lag) && lag <= EXPIRY_GRACE_MS
    ensures WithinCaps(limits, End(limits, h).grants)
  {
    if h.Then? {
      TimelyWithinCaps(limits, h.before, lag);
      TimelyGrant(limits, h, lag);
    }
  }

  /** A user's n reservations that read the clock in the last millisecond of day 0 and reach the store at its expiry. */
  function LateHistory(n: nat): History {
    if n == 0 then Begin(1000 * DayExpiry(0)) else Then(LateHistory(n - 1), Run(0, DAY_MS - 1, Reserve))
  }

  /** Each finds no counter and is granted. */
  lemma {:induction false} LateGrants(limits: Limits, n: nat)
    requires limits.user >= 1 && limits.global >= 1
    ensures var h := LateHistory(n);
      && Legal(limits, h) && Timely(limits, h, EXPIRY_GRACE_MS + 1)
      && End(limits, h).store.clock == 1000 * DayExpiry(0)
      && UserGrants(End(limits, h).grants, 0, 0) == n
  {
    if n > 0 {
      LateGrants(limits, n - 1);
      EveryHistoryInv(limits, LateHistory(n - 1));
      var s := End(limits, LateHistory(n - 1));
      assert KeyInv(limits, s, UserKey(0, 0)) && KeyInv(limits, s, GlobalKey(0));
    }
  }

  lemma {:induction false} TimelyLonger(limits: Limits, h: History, lag: int, longer: int)
    requires Timely(limits, h, lag) && lag <= longer
    ensures Timely(limits, h, longer)
  {
    if h.Then? {
      TimelyLonger(limits, h.before, lag, longer);
    }
  }

  /** Both caps hold in every run whose reservations reach the store at most `lag` milliseconds after their instance read
      the clock, exactly when that is at most an hour; a limit below 1 grants nothing anyway. A slow request and an
      instance clock behind the store's count alike. */
  lemma {:induction false} CapsHoldExactly(limits: Limits, lag: int)
    ensures (forall h | Legal(limits, h) && Timely(limits, h, lag) :: WithinCaps(limits, End(limits, h).grants))
      <==> lag <= EXPIRY_GRACE_MS || limits.user < 1 || limits.global < 1
  {
    if lag <= EXPIRY_GRACE_MS {
      forall h | Legal(limits, h) && Timely(limits, h, lag)
        ensures WithinCaps(limits, End(limits, h).grants)
      {
        TimelyWithinCaps(limits, h, lag);
      }
    } else if limits.user < 1 || limits.global < 1 {
      forall h | Legal(limits, h)
        ensures WithinCaps(limits, End(limits, h).grants)
      {
        NothingGranted(limits, h);
      }
    } else {
      var h := LateHistory(limits.user + 1);
      LateGrants(limits, limits.user + 1);
      TimelyLonger(limits, h, EXPIRY_GRACE_MS + 1, lag);
      assert KeyGrants(End(limits, h).grants, UserKey(0, 0)) > KeyCap(limits, UserKey(0, 0));
    }
  }

  lemma {:induction false} NothingGranted(limits: Limits, h: History)
    requires limits.user < 1 || limits.global < 1
    ensures End(limits, h).grants == NoGrants && WithinCaps(limits, End(limits, h).grants)
  {
    if h.Then? {
      NothingGranted(limits, h.before);
    }
  }

  /** In every history, until a day's counters go: a call for that day is allowed exactly when its user has had fewer units
      of the day than the user limit and all users together fewer than the global one. An allowed reservation is granted one
      unit, and a check, like a refusal, changes nothing. */
  lemma AllowedExactly(limits: Limits, h: History, user: UserId, at: int, mode: Mode)
    requires Legal(limits, h) && End(limits, h).store.clock < 1000 * DayExpiry(UtcDay(at))
    ensures var s := End(limits, h);
      var allowed := UserGrants(s.grants, user, UtcDay(at)) < limits.user && DayGrants(s.grants, UtcDay(at)) < limits.global;
      var after := Apply(limits, s, Run(user, at, mode));
      && (Script(s.store, limits, user, UtcDay(at), ExpireAt(at), mode).allowed <==> allowed)
      && (allowed && mode == Reserve ==> after.grants == Granted(Grant(user, UtcDay(at)), s.grants))
      && (!allowed || mode == Check ==> after == s)
  {
    EveryHistoryInv(limits, h);
    var s := End(limits, h);
    assert KeyInv(limits, s, UserKey(user, UtcDay(at))) && KeyInv(limits, s, GlobalKey(UtcDay(at)));
  }

  /** No counter goes within its own day, even an hour after it. */
  lemma OutlivesItsDay(limits: Limits, h: History, k: Key, second: int)
    requires Legal(limits, h) && k in End(limits, h).store.counters
    requires UtcDay(1000 * second) == k.day
    ensures second + EXPIRY_GRACE_SECONDS < End(limits, h).store.counters[k].expiry
  {
  }

  // The adapter

  datatype Outcome = Allowed | Exceeded(retryAfterSeconds: int) | Unavailable

  class RedisAiQuota {
    var store: Store
    const limits: Limits

    constructor (limits: Limits, store: Store)
      ensures this.limits == limits && this.store == store
    {
      this.limits := limits;
      this.store := store;
    }

    /** `INCR`, then `EXPIREAT`. */
    method Increment(k: Key, expiry: int)
      modifies this
      ensures store == Incremented(old(store), k, expiry)
    {
      store := store.(counters := store.counters[k := Counter(Count(store, k) + 1, expiry)]);
    }

    /** `run`: any failure of the store refuses, a spent limit names the wait, and only an allowed reservation counts. */
    method RunScript(user: UserId, at: int, mode: Mode, reachable: bool) returns (r: Outcome)
      modifies this
      ensures !reachable ==> r == Unavailable && store == old(store)
      ensures reachable ==>
        var answer := Script(old(store), limits, user, UtcDay(at), ExpireAt(at), mode);
        && store == answer.store
        && r == (if answer.allowed then Allowed else Exceeded(SecondsUntilUtcMidnight(at)))
    {
      if !reachable {
        return Unavailable;
      }
      var day, wait := UtcDay(at), SecondsUntilUtcMidnight(at);
      var expireAt := at / 1000 + wait + EXPIRY_GRACE_SECONDS;
      var userCount, globalCount := Count(store, UserKey(user, day)), Count(store, GlobalKey(day));
      if userCount >= limits.user || globalCount >= limits.global {
        return Exceeded(wait);
      }
      if mode.Reserve? {
        Increment(UserKey(user, day), expireAt);
        Increment(GlobalKey(day), expireAt);
      }
      return Allowed;
    }
  }

  // The global counter is the sum of the user counters

  function SumCounts(s: Store, users: seq<UserId>, day: int): nat {
    if users == [] then 0 else Count(s, UserKey(users[0], day)) + SumCounts(s, users[1..], day)
  }

  function SumGrants(g: Grants, users: seq<UserId>, day: int): nat {
    if users == [] then 0 else UserGrants(g, users[0], day) + SumGrants(g, users[1..], day)
  }

  predicate Once(users: seq<UserId>) {
    forall i, j | 0 <= i < j < |users| :: users[i] != users[j]
  }

  lemma {:induction false} OneGrantCounts(g: Grants, grant: Grant, users: seq<UserId>, day: int)
    requires Once(users)
    ensures SumGrants(Granted(grant, g), users, day)
      == SumGrants(g, users, day) + if grant.day == day && grant.user in users then 1 else 0
  {
    if users != [] {
      OneGrantCounts(g, grant, users[1..], day);
      assert users == [users[0]] + users[1..];
    }
  }

  /** Every user with a grant that day is in the list. */
  predicate Covers(g: Grants, users: seq<UserId>, day: int) {
    g.Granted? ==> (g.last.day == day ==> g.last.user in users) && Covers(g.before, users, day)
  }

  lemma {:induction false} GrantsAddUp(g: Grants, users: seq<UserId>, day: int)
    requires Once(users) && Covers(g, users, day)
    ensures SumGrants(g, users, day) == DayGrants(g, day)
    decreases g
  {
    if g.Granted? {
      GrantsAddUp(g.before, users, day);
      OneGrantCounts(g.before, g.last, users, day);
    } else {
      NoGrantsAddUp(users, day);
    }
  }

  lemma {:induction false} NoGrantsAddUp(users: seq<UserId>, day: int)
    ensures SumGrants(NoGrants, users, day) == 0
  {
    if users != [] {
      NoGrantsAddUp(users[1..], day);
    }
  }

  lemma {:induction false} CountsAreGrants(limits: Limits, s: State, users: seq<UserId>, day: int)
    requires (forall k :: KeyInv(limits, s, k)) && !Reached(s.store, DayExpiry(day))
    ensures SumCounts(s.store, users, day) == SumGrants(s.grants, users, day)
  {
    if users != [] {
      assert KeyInv(limits, s, UserKey(users[0], day));
      CountsAreGrants(limits, s, users[1..], day);
    }
  }

  lemma {:induction false} CountsAreGone(limits: Limits, s: State, users: seq<UserId>, day: int)
    requires (forall k :: KeyInv(limits, s, k)) && Reached(s.store, DayExpiry(day))
    ensures SumCounts(s.store, users, day) == 0
  {
    if users != [] {
      assert KeyInv(limits, s, UserKey(users[0], day));
      CountsAreGone(limits, s, users[1..], day);
    }
  }

  /** In every run, at every time, a day's global counter is the sum of its user counters. */
  lemma GlobalIsSum(limits: Limits, h: History, users: seq<UserId>, day: int)
    requires Legal(limits, h)
    requires Once(users) && Covers(End(limits, h).grants, users, day)
    ensures var s := End(limits, h).store;
      Count(s, GlobalKey(day)) == SumCounts(s, users, day)
  {
    EveryHistoryInv(limits, h);
    var s := End(limits, h);
    assert KeyInv(limits, s, GlobalKey(day));
    if Reached(s.store, DayExpiry(day)) {
      CountsAreGone(limits, s, users, day);
    } else {
      CountsAreGrants(limits, s, users, day);
      GrantsAddUp(s.grants, users, day);
    }
  }
}
