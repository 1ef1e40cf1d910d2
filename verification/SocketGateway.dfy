/** The WebSocket handshake against account changes, and the expiry timers of connected sockets. A socket joins its
    user's room before its account is read, so an eviction by room cannot miss it. */
module SocketGateway {
  import opened Options

  /** Largest delay the runtime's timers accept. */
  const MAX_TIMEOUT_MS := 2_147_483_647

  // Expiry timers

  datatype Armed = Armed(socketId: nat, due: int)

  /** The gateway's map from sockets to timers, and the timers the runtime has armed. */
  datatype Timers = Timers(bySocket: map<nat, nat>, armed: map<nat, Armed>, next: nat)

  function Clear(t: Timers, id: nat): Timers {
    if id in t.bySocket then Timers(t.bySocket - {id}, t.armed - {t.bySocket[id]}, t.next) else t
  }

  /** Arms a timer for the wait, capped; `None` when the token has expired already. */
  function Schedule(t: Timers, id: nat, expiresAt: int, now: int): (Timers, bool) {
    var cleared := Clear(t, id);
    var remaining := expiresAt - now;
    if remaining <= 0 then (cleared, false)
    else
      var due := now + if remaining < MAX_TIMEOUT_MS then remaining else MAX_TIMEOUT_MS;
      (Timers(cleared.bySocket[id := t.next], cleared.armed[t.next := Armed(id, due)], t.next + 1), true)
  }

  /** A timer that goes off is no longer armed; its callback forgets it and schedules again. */
  function Fire(t: Timers, timer: nat, expiresAt: int, now: int): (Timers, bool)
    requires timer in t.armed
  {
    var id := t.armed[timer].socketId;
    Schedule(Timers(t.bySocket - {id}, t.armed - {timer}, t.next), id, expiresAt, now)
  }

  /** The object's map and the runtime's timers, updated in place. */
  class ExpiryTimers {
    var expiryTimers: map<nat, nat>
    var armed: map<nat, Armed>
    var nextTimer: nat

    function State(): Timers
      reads this
    {
      Timers(expiryTimers, armed, nextTimer)
    }

    constructor ()
      ensures State() == Timers(map[], map[], 0)
    {
      expiryTimers, armed, nextTimer := map[], map[], 0;
    }

    method ClearExpiry(id: nat)
      modifies this
      ensures State() == Clear(old(State()), id)
    {
      if id in expiryTimers {
        armed := armed - {expiryTimers[id]};
        expiryTimers := expiryTimers - {id};
      }
    }

    /** False when the socket has to be disconnected at once. */
    method ScheduleExpiry(id: nat, expiresAt: int, now: int) returns (scheduled: bool)
      modifies this
      ensures (State(), scheduled) == Schedule(old(State()), id, expiresAt, now)
    {
      ClearExpiry(id);
      var remaining := expiresAt - now;
      if remaining <= 0 {
        return false;
      }
      var delay := if remaining < MAX_TIMEOUT_MS then remaining else MAX_TIMEOUT_MS;
      armed := armed[nextTimer := Armed(id, now + delay)];
      expiryTimers := expiryTimers[id := nextTimer];
      nextTimer := nextTimer + 1;
      return true;
    }

    method TimerFires(timer: nat, expiresAt: int, now: int) returns (scheduled: bool)
      requires timer in armed
      modifies this
      ensures (State(), scheduled) == Fire(old(State()), timer, expiresAt, now)
    {
      var id := armed[timer].socketId;
      armed := armed - {timer};
      expiryTimers := expiryTimers - {id};
      scheduled := ScheduleExpiry(id, expiresAt, now);
    }
  }

  /** Every entry of the map is an armed timer of its socket and every armed timer is in the map. */
  ghost predicate Paired(t: Timers) {
    && (forall i | i in t.bySocket :: t.bySocket[i] in t.armed && t.armed[t.bySocket[i]].socketId == i)
    && (forall n | n in t.armed :: t.armed[n].socketId in t.bySocket && t.bySocket[t.armed[n].socketId] == n)
    && (forall n | n in t.armed :: n < t.next)
  }

  lemma ClearPairs(t: Timers, id: nat)
    requires Paired(t)
    ensures Paired(Clear(t, id)) && id !in Clear(t, id).bySocket
    ensures forall i | i != id :: i in t.bySocket <==> i in Clear(t, id).bySocket
    ensures forall i | i in Clear(t, id).bySocket :: Due(Clear(t, id), i) == Due(t, i)
  {
  }

  function Due(t: Timers, id: nat): Option<int> {
    if id in t.bySocket && t.bySocket[id] in t.armed then Some(t.armed[t.bySocket[id]].due) else None
  }

  function Sooner(a: int, b: int): int {
    if a < b then a else b
  }

  lemma SchedulePairs(t: Timers, id: nat, expiresAt: int, now: int)
    requires Paired(t)
    ensures var (u, scheduled) := Schedule(t, id, expiresAt, now);
      && Paired(u) && (scheduled <==> now < expiresAt) && (scheduled <==> id in u.bySocket)
      && (scheduled ==> Due(u, id) == Some(Sooner(expiresAt, now + 2_147_483_647)))
      && (forall i | i != id :: (i in t.bySocket <==> i in u.bySocket) && (i in u.bySocket ==> Due(u, i) == Due(t, i)))
  {
  }

  lemma FirePairs(t: Timers, timer: nat, expiresAt: int, now: int)
    requires Paired(t) && timer in t.armed
    ensures var id := t.armed[timer].socketId; var (u, scheduled) := Fire(t, timer, expiresAt, now);
      && Paired(u) && (scheduled <==> now < expiresAt) && (scheduled <==> id in u.bySocket)
      && (scheduled ==> Due(u, id) == Some(Sooner(expiresAt, now + 2_147_483_647)))
      && (forall i | i != id :: (i in t.bySocket <==> i in u.bySocket) && (i in u.bySocket ==> Due(u, i) == Due(t, i)))
  {
  }

  // The handshake

  datatype Account = Account(disabled: bool, tokenVersion: nat)

  datatype Token = Token(userId: string, version: nat, expiresAt: Option<int>)

  /** Where `handleConnection` stands; `Joined` is in the room, `Loaded` holds the account it read, `Ready` passed. */
  datatype Stage = Verifying | Verified | Joined | Loaded(seen: Account) | Ready(passed: Account) | Refused

  /** `cleaned`: the disconnect event has been handled. */
  datatype Socket = Socket(token: Token, connected: bool, stage: Stage, cleaned: bool)

  /** `settledDisabled`: an eviction ran while the account was disabled and it was not enabled since.
      `settledVersion`: the token version at the last eviction. `enables`: how often it was enabled. */
  datatype User = User(account: Account, settledDisabled: bool, settledVersion: nat, enables: nat)

  /** A disable or a session revocation: first the write, then the event that evicts the room. `enables` is how often the
      account had been enabled when it was written disabled (or found to be so already). */
  datatype Change =
    | Disabling(userId: string)
    | DisableWritten(userId: string, enables: nat)
    | Disabled(userId: string, enables: nat)
    | RevokeWritten(userId: string, version: nat)
    | Revoked(userId: string, version: nat)
    | Abandoned

  datatype State = State(
    users: map<string, User>,
    sockets: map<nat, Socket>,
    changes: map<nat, Change>,
    timers: Timers,
    now: int)

  datatype Action =
    | Connect(i: nat, token: Token)
    | Verify(i: nat, ok: bool)
    | Join(i: nat)
    | Load(i: nat, ok: bool)
    | Check(i: nat)
    | ClientLeaves(i: nat)
    | DisconnectEvent(i: nat)
    | Resubscribe(i: nat, ok: bool)
    | TimerFires(timer: nat)
    | StartDisable(k: nat, userId: string)
    | WriteDisabled(k: nat)
    | Enable(userId: string)
    | Revoke(k: nat, userId: string)
    | Evict(k: nat)
    | Abandon(k: nat)
    | Wait(ms: nat)

  predicate At(s: State, i: nat, stage: Stage) {
    i in s.sockets && s.sockets[i].stage == stage
  }

  predicate Enabled(s: State, a: Action) {
    match a
    case Connect(i, _) => i !in s.sockets
    case Verify(i, _) => At(s, i, Verifying)
    case Join(i) => At(s, i, Verified)
    case Load(i, _) => At(s, i, Joined)
    case Check(i) => i in s.sockets && s.sockets[i].stage.Loaded?
    case ClientLeaves(i) => i in s.sockets && s.sockets[i].connected
    case DisconnectEvent(i) => i in s.sockets && !s.sockets[i].connected && !s.sockets[i].cleaned
    case Resubscribe(i, _) => i in s.sockets && s.sockets[i].stage.Ready?
    case TimerFires(timer) =>
      timer in s.timers.armed && s.timers.armed[timer].due <= s.now && s.timers.armed[timer].socketId in s.sockets
    case StartDisable(k, userId) => k !in s.changes && userId in s.users
    case WriteDisabled(k) => k in s.changes && s.changes[k].Disabling? && s.changes[k].userId in s.users
    case Enable(userId) => userId in s.users
    case Revoke(k, userId) => k !in s.changes && userId in s.users
    case Evict(k) =>
      k in s.changes && (s.changes[k].DisableWritten? || s.changes[k].RevokeWritten?) && s.changes[k].userId in s.users
    case Abandon(k) =>
      k in s.changes && (s.changes[k].Disabling? || s.changes[k].DisableWritten? || s.changes[k].RevokeWritten?)
    case Wait(_) => true
  }

  function Drop(s: Socket): Socket {
    s.(connected := false)
  }

  predicate Refuses(account: Account, token: Token) {
    account.disabled || token.version != account.tokenVersion
  }

  predicate InRoom(s: Socket, userId: string) {
    s.connected && s.token.userId == userId && (s.stage.Joined? || s.stage.Loaded? || s.stage.Ready?)
  }

  function EvictRoom(sockets: map<nat, Socket>, userId: string): map<nat, Socket> {
    map i | i in sockets :: if InRoom(sockets[i], userId) then Drop(sockets[i]) else sockets[i]
  }

  /** The synchronous end of the handshake: account check, token expiry, timer. */
  function CheckSocket(s: State, i: nat): State
    requires i in s.sockets && s.sockets[i].stage.Loaded?
  {
    var c := s.sockets[i];
    if Refuses(c.stage.seen, c.token) || c.token.expiresAt.None? || !c.connected then
      s.(sockets := s.sockets[i := Drop(c).(stage := Refused)])
    else
      var (timers, scheduled) := Schedule(s.timers, i, c.token.expiresAt.value, s.now);
      s.(timers := timers, sockets := s.sockets[i := c.(stage := Ready(c.stage.seen), connected := scheduled)])
  }

  function FireTimer(s: State, timer: nat): State
    requires timer in s.timers.armed && s.timers.armed[timer].socketId in s.sockets
  {
    var i := s.timers.armed[timer].socketId;
    var c := s.sockets[i];
    var (timers, scheduled) :=
      Fire(s.timers, timer, if c.token.expiresAt.Some? then c.token.expiresAt.value else s.now, s.now);
    s.(timers := timers, sockets := s.sockets[i := c.(connected := c.connected && scheduled)])
  }

  function EvictUser(s: State, k: nat): State
    requires Enabled(s, Evict(k))
  {
    var c := s.changes[k];
    var u := s.users[c.userId];
    s.(sockets := EvictRoom(s.sockets, c.userId),
       users := s.users[c.userId := u.(settledDisabled := u.account.disabled, settledVersion := u.account.tokenVersion)],
       changes := s.changes[k := if c.DisableWritten? then Disabled(c.userId, c.enables) else Revoked(c.userId, c.version)])
  }

  function Apply(s: State, a: Action): State
    requires Enabled(s, a)
  {
    match a
    case Connect(i, token) => s.(sockets := s.sockets[i := Socket(token, true, Verifying, false)])
    case Verify(i, ok) =>
      s.(sockets := s.sockets[i := if ok then s.sockets[i].(stage := Verified) else Drop(s.sockets[i]).(stage := Refused)])
    case Join(i) => s.(sockets := s.sockets[i := s.sockets[i].(stage := Joined)])
    case Load(i, ok) =>
      var c := s.sockets[i];
      s.(sockets := s.sockets[i :=
           if ok && c.token.userId in s.users then c.(stage := Loaded(s.users[c.token.userId].account))
           else Drop(c).(stage := Refused)])
    case Check(i) => CheckSocket(s, i)
    case ClientLeaves(i) => s.(sockets := s.sockets[i := Drop(s.sockets[i])])
    case DisconnectEvent(i) =>
      s.(timers := Clear(s.timers, i), sockets := s.sockets[i := s.sockets[i].(cleaned := true)])
    case Resubscribe(i, ok) =>
      var c := s.sockets[i];
      s.(sockets := s.sockets[i :=
           if !ok || c.token.userId !in s.users || Refuses(s.users[c.token.userId].account, c.token) then Drop(c) else c])
    case TimerFires(timer) => FireTimer(s, timer)
    case StartDisable(k, userId) =>
      var u := s.users[userId];
      s.(changes := s.changes[k := if u.account.disabled then DisableWritten(userId, u.enables) else Disabling(userId)])
    case WriteDisabled(k) =>
      var c := s.changes[k];
      var u := s.users[c.userId];
      s.(users := s.users[c.userId := u.(account := u.account.(disabled := true))],
         changes := s.changes[k := DisableWritten(c.userId, u.enables)])
    case Enable(userId) =>
      var u := s.users[userId];
      s.(users := s.users[userId := u.(account := u.account.(disabled := false),
                           settledDisabled := false, enables := u.enables + 1)])
    case Revoke(k, userId) =>
      var u := s.users[userId];
      var version := u.account.tokenVersion + 1;
      s.(users := s.users[userId := u.(account := u.account.(tokenVersion := version))],
         changes := s.changes[k := RevokeWritten(userId, version)])
    case Evict(k) => EvictUser(s, k)
    case Abandon(k) => s.(changes := s.changes[k := Abandoned])
    case Wait(ms) => s.(now := s.now + ms)
  }

  // The invariant

  predicate UserInv(u: User) {
    (u.settledDisabled ==> u.account.disabled) && u.settledVersion <= u.account.tokenVersion
  }

  /** A connected socket that has read its account read it after the last eviction's write. */
  predicate AccountInv(users: map<string, User>, c: Socket) {
    var seen := if c.stage.Loaded? then Some(c.stage.seen) else if c.stage.Ready? then Some(c.stage.passed) else None;
    && (c.connected && seen.Some? ==>
          && c.token.userId in users
          && users[c.token.userId].settledVersion <= seen.value.tokenVersion
          && (users[c.token.userId].settledDisabled ==> seen.value.disabled))
    && (c.stage.Ready? ==> !Refuses(c.stage.passed, c.token) && c.token.expiresAt.Some?)
  }

  predicate TimerInv(t: Timers, i: nat, c: Socket) {
    && (c.connected && c.stage.Ready? ==> i in t.bySocket)
    && (i in t.bySocket ==>
          c.stage.Ready? && c.token.expiresAt.Some? && Due(t, i).Some? && Due(t, i).value <= c.token.expiresAt.value)
    && (c.cleaned ==> !c.connected && i !in t.bySocket)
  }

  predicate ChangeInv(users: map<string, User>, c: Change) {
    match c
    case Disabling(u) => u in users
    case DisableWritten(u, e) => u in users && e <= users[u].enables && (e == users[u].enables ==> users[u].account.disabled)
    case Disabled(u, e) => u in users && e <= users[u].enables && (e == users[u].enables ==> users[u].settledDisabled)
    case RevokeWritten(u, v) => u in users && v <= users[u].account.tokenVersion
    case Revoked(u, v) => u in users && v <= users[u].settledVersion
    case Abandoned => true
  }

  ghost predicate Inv(s: State) {
    && Paired(s.timers)
    && (forall i | i in s.timers.bySocket :: i in s.sockets)
    && (forall u | u in s.users :: UserInv(s.users[u]))
    && (forall i | i in s.sockets :: AccountInv(s.users, s.sockets[i]))
    && (forall i | i in s.sockets :: TimerInv(s.timers, i, s.sockets[i]))
    && (forall k | k in s.changes :: ChangeInv(s.users, s.changes[k]))
  }

  ghost predicate Init(s: State) {
    && s.sockets == map[] && s.changes == map[] && s.timers == Timers(map[], map[], 0)
    && (forall u | u in s.users :: !s.users[u].settledDisabled && s.users[u].settledVersion == 0)
  }

  /** A step that moves one socket and no timer. */
  lemma SocketMoved(s: State, t: State, i: nat)
    requires Inv(s) && i in t.sockets
    requires t == s.(sockets := s.sockets[i := t.sockets[i]])
    requires AccountInv(s.users, t.sockets[i]) && TimerInv(s.timers, i, t.sockets[i])
    ensures Inv(t)
  {
  }

  lemma HandshakeKeepsInv(s: State, a: Action)
    requires Inv(s) && Enabled(s, a)
    requires a.Connect? || a.Verify? || a.Join? || a.Load? || a.ClientLeaves? || a.Resubscribe?
    ensures Inv(Apply(s, a))
  {
    var t := Apply(s, a);
    assert !a.Connect? ==> AccountInv(s.users, s.sockets[a.i]) && TimerInv(s.timers, a.i, s.sockets[a.i]);
    assert a.Load? && s.sockets[a.i].token.userId in s.users ==> UserInv(s.users[s.sockets[a.i].token.userId]);
    SocketMoved(s, t, a.i);
  }

  /** The timers of the other sockets are untouched when one socket's timer is set, fired or cleared. */
  lemma TimersMoved(s: State, t: State, i: nat)
    requires Inv(s) && i in s.sockets
    requires i in t.sockets && t == s.(timers := t.timers, sockets := s.sockets[i := t.sockets[i]])
    requires Paired(t.timers) && AccountInv(s.users, t.sockets[i]) && TimerInv(t.timers, i, t.sockets[i])
    requires forall j | j != i :: (j in s.timers.bySocket <==> j in t.timers.bySocket)
    requires forall j | j != i && j in t.timers.bySocket :: Due(t.timers, j) == Due(s.timers, j)
    ensures Inv(t)
  {
    forall j | j in t.sockets && j != i ensures TimerInv(t.timers, j, t.sockets[j]) {
      assert TimerInv(s.timers, j, s.sockets[j]);
    }
  }

  lemma CheckKeepsInv(s: State, i: nat)
    requires Inv(s) && Enabled(s, Check(i))
    ensures Inv(Apply(s, Check(i)))
  {
    var t := Apply(s, Check(i));
    var c := s.sockets[i];
    assert AccountInv(s.users, c) && TimerInv(s.timers, i, c);
    if Refuses(c.stage.seen, c.token) || c.token.expiresAt.None? || !c.connected {
      SocketMoved(s, t, i);
    } else {
      SchedulePairs(s.timers, i, c.token.expiresAt.value, s.now);
      TimersMoved(s, t, i);
    }
  }

  lemma TimerKeepsInv(s: State, timer: nat)
    requires Inv(s) && Enabled(s, TimerFires(timer))
    ensures Inv(Apply(s, TimerFires(timer)))
  {
    var t := Apply(s, TimerFires(timer));
    var i := s.timers.armed[timer].socketId;
    assert AccountInv(s.users, s.sockets[i]) && TimerInv(s.timers, i, s.sockets[i]);
    FirePairs(s.timers, timer, s.sockets[i].token.expiresAt.value, s.now);
    TimersMoved(s, t, i);
  }

  lemma DisconnectKeepsInv(s: State, i: nat)
    requires Inv(s) && Enabled(s, DisconnectEvent(i))
    ensures Inv(Apply(s, DisconnectEvent(i)))
  {
    var t := Apply(s, DisconnectEvent(i));
    assert AccountInv(s.users, s.sockets[i]) && TimerInv(s.timers, i, s.sockets[i]);
    ClearPairs(s.timers, i);
    TimersMoved(s, t, i);
  }

  /** A step that changes one user's account in place: the sockets and the other changes still fit. */
  lemma UserMoved(s: State, t: State, u: string)
    requires Inv(s) && u in s.users && u in t.users && UserInv(t.users[u])
    requires t == s.(users := s.users[u := t.users[u]], changes := t.changes)
    requires t.users[u].settledVersion == s.users[u].settledVersion
    requires t.users[u].settledDisabled ==> s.users[u].settledDisabled
    requires forall k | k in t.changes :: ChangeInv(t.users, t.changes[k])
    ensures Inv(t)
  {
  }

  lemma AccountKeepsInv(s: State, a: Action)
    requires Inv(s) && Enabled(s, a) && (a.WriteDisabled? || a.Enable? || a.Revoke?)
    ensures Inv(Apply(s, a))
  {
    var t := Apply(s, a);
    var u := if a.WriteDisabled? then s.changes[a.k].userId else a.userId;
    assert a.WriteDisabled? ==> ChangeInv(s.users, s.changes[a.k]);
    assert UserInv(s.users[u]);
    forall k | k in t.changes ensures ChangeInv(t.users, t.changes[k]) {
      assert k in s.changes ==> ChangeInv(s.users, s.changes[k]);
    }
    UserMoved(s, t, u);
  }

  lemma EvictKeepsInv(s: State, k: nat)
    requires Inv(s) && Enabled(s, Evict(k))
    ensures Inv(Apply(s, Evict(k)))
  {
    var t := Apply(s, Evict(k));
    assert ChangeInv(s.users, s.changes[k]);
    assert UserInv(s.users[s.changes[k].userId]);
    forall i | i in t.sockets
      ensures AccountInv(t.users, t.sockets[i]) && TimerInv(t.timers, i, t.sockets[i])
    {
      assert AccountInv(s.users, s.sockets[i]) && TimerInv(s.timers, i, s.sockets[i]);
    }
    forall j | j in t.changes
      ensures ChangeInv(t.users, t.changes[j])
    {
      assert ChangeInv(s.users, s.changes[j]);
    }
  }

  lemma ActionKeepsInv(s: State, a: Action)
    requires Inv(s) && Enabled(s, a)
    ensures Inv(Apply(s, a))
  {
    match a
    case Check(i) => CheckKeepsInv(s, i);
    case DisconnectEvent(i) => DisconnectKeepsInv(s, i);
    case TimerFires(timer) => TimerKeepsInv(s, timer);
    case StartDisable(_, u) => UserMoved(s, Apply(s, a), u);
    case WriteDisabled(_) => AccountKeepsInv(s, a);
    case Enable(_) => AccountKeepsInv(s, a);
    case Revoke(_, _) => AccountKeepsInv(s, a);
    case Evict(k) => EvictKeepsInv(s, k);
    case Abandon(k) => UserMoved(s, Apply(s, a), s.changes[k].userId);
    case Wait(ms) => assert Apply(s, a) == s.(now := s.now + ms);
    case _ => HandshakeKeepsInv(s, a);
  }

  datatype Run = Begin(state: State) | Then(before: Run, action: Action, state: State)

  ghost predicate Legal(r: Run) {
    match r
    case Begin(s) => Init(s)
    case Then(before, a, s) => Legal(before) && Enabled(before.state, a) && s == Apply(before.state, a)
  }

  lemma {:induction false} EveryRunInv(r: Run)
    requires Legal(r)
    ensures Inv(r.state)
  {
    if r.Then? {
      EveryRunInv(r.before);
      ActionKeepsInv(r.before.state, r.action);
    }
  }

  // What each step does to the sockets

  /** It is connected, its token is of the version the account had when it was read, that account was enabled, and the token
      lasts. */
  predicate MayStay(c: Socket, now: int) {
    && c.connected && c.stage.Loaded? && !c.stage.seen.disabled && c.stage.seen.tokenVersion == c.token.version
    && c.token.expiresAt.Some? && now < c.token.expiresAt.value
  }

  /** The end of the handshake leaves a socket connected and ready exactly when it may stay, with a timer for its expiry or
      the longest delay there is, whichever is sooner; any other is dropped without a timer. No other socket is touched. */
  lemma CheckedExactly(s: State, i: nat)
    requires Inv(s) && Enabled(s, Check(i))
    ensures var t := Apply(s, Check(i)); var c, d := s.sockets[i], t.sockets[i];
      && t == s.(timers := t.timers, sockets := s.sockets[i := d])
      && d.token == c.token && d.cleaned == c.cleaned
      && (d.connected <==> MayStay(c, s.now)) && (d.connected ==> d.stage == Ready(c.stage.seen))
      && Due(t.timers, i) == (if d.connected then Some(Sooner(c.token.expiresAt.value, s.now + 2_147_483_647)) else None)
      && (forall j | j != i :: Due(t.timers, j) == Due(s.timers, j))
  {
    var c := s.sockets[i];
    assert TimerInv(s.timers, i, c);
    if c.token.expiresAt.Some? {
      SchedulePairs(s.timers, i, c.token.expiresAt.value, s.now);
    }
  }

  /** A timer that goes off drops its socket exactly when the token has expired, and is armed again otherwise. */
  lemma FiredExactly(s: State, timer: nat)
    requires Inv(s) && Enabled(s, TimerFires(timer))
    ensures var t := Apply(s, TimerFires(timer)); var i := s.timers.armed[timer].socketId;
      var c, d := s.sockets[i], t.sockets[i];
      && c.token.expiresAt.Some? && t == s.(timers := t.timers, sockets := s.sockets[i := d])
      && d == c.(connected := d.connected) && (d.connected <==> c.connected && s.now < c.token.expiresAt.value)
      && Due(t.timers, i) == (if s.now < c.token.expiresAt.value
                              then Some(Sooner(c.token.expiresAt.value, s.now + 2_147_483_647)) else None)
      && (forall j | j != i :: Due(t.timers, j) == Due(s.timers, j))
  {
    var i := s.timers.armed[timer].socketId;
    assert TimerInv(s.timers, i, s.sockets[i]);
    FirePairs(s.timers, timer, s.sockets[i].token.expiresAt.value, s.now);
  }

  /** The disconnect of a socket, whoever dropped it, is handled once and takes its timer away, and no other. */
  lemma DisconnectedExactly(s: State, i: nat)
    requires Inv(s) && i in s.sockets && !s.sockets[i].connected && !s.sockets[i].cleaned
    ensures Enabled(s, DisconnectEvent(i))
    ensures var t := Apply(s, DisconnectEvent(i));
      && t == s.(timers := t.timers, sockets := s.sockets[i := s.sockets[i].(cleaned := true)])
      && !Enabled(t, DisconnectEvent(i))
      && (forall n | n in t.timers.armed :: t.timers.armed[n].socketId != i)
      && (forall n | n in s.timers.armed && s.timers.armed[n].socketId != i ::
            n in t.timers.armed && t.timers.armed[n] == s.timers.armed[n])
  {
    ClearPairs(s.timers, i);
  }

  /** A subscription keeps the socket exactly when its user can be read and still exists, enabled and with the token's own
      version. */
  lemma ResubscribedExactly(s: State, i: nat, ok: bool)
    requires Enabled(s, Resubscribe(i, ok))
    ensures var t := Apply(s, Resubscribe(i, ok)); var c, d := s.sockets[i], t.sockets[i];
      && t == s.(sockets := s.sockets[i := d]) && d == c.(connected := d.connected)
      && (d.connected <==>
            && c.connected && ok && c.token.userId in s.users && !s.users[c.token.userId].account.disabled
            && s.users[c.token.userId].account.tokenVersion == c.token.version)
  {
  }

  /** The sockets that have joined the user's room are dropped and all others left alone. */
  predicate Evicted(before: map<nat, Socket>, after: map<nat, Socket>, u: string) {
    && after.Keys == before.Keys
    && forall i | i in before :: var c := before[i];
         after[i] == if c.token.userId == u && (c.stage.Joined? || c.stage.Loaded? || c.stage.Ready?)
                     then c.(connected := false) else c
  }

  /** An eviction drops exactly the sockets that have joined the room of its user, and changes no account. */
  lemma EvictedExactly(s: State, k: nat)
    requires Enabled(s, Evict(k))
    ensures var t := Apply(s, Evict(k));
      && Evicted(s.sockets, t.sockets, s.changes[k].userId) && t.timers == s.timers && t.users.Keys == s.users.Keys
      && (forall u | u in s.users :: t.users[u].account == s.users[u].account)
  {
  }

  /** An account is disabled by the write of a disable, enabled by an enable and moved to its next token version by a
      revocation, whose event carries that version; nothing else changes it. */
  lemma AccountChangesExactly(s: State, a: Action, u: string)
    requires Enabled(s, a) && u in s.users
    ensures var t := Apply(s, a); var account := s.users[u].account;
      && t.users.Keys == s.users.Keys
      && t.users[u].account == (
           if a.WriteDisabled? && s.changes[a.k].userId == u then account.(disabled := true)
           else if a == Action.Enable(u) then account.(disabled := false)
           else if a.Revoke? && a.userId == u then account.(tokenVersion := account.tokenVersion + 1)
           else account)
      && (a.Revoke? && a.userId == u ==> t.changes[a.k] == RevokeWritten(u, account.tokenVersion + 1))
  {
  }

  /** The action is one of the run's steps. */
  predicate Took(r: Run, a: Action) {
    r.Then? && (r.action == a || Took(r.before, a))
  }

  /** In every run a socket stands where it stands because its own steps have succeeded: its token was verified, it joined
      the room, its account was read and it was checked. */
  lemma {:induction false} StepsSucceeded(r: Run, i: nat)
    requires Legal(r) && i in r.state.sockets
    ensures var stage := r.state.sockets[i].stage;
      && (stage.Verified? || stage.Joined? || stage.Loaded? || stage.Ready? ==> Took(r, Verify(i, true)))
      && (stage.Joined? || stage.Loaded? || stage.Ready? ==> Took(r, Join(i)))
      && (stage.Loaded? || stage.Ready? ==> Took(r, Load(i, true)))
      && (stage.Ready? ==> Took(r, Check(i)))
  {
    if r.Then? && i in r.before.state.sockets {
      StepsSucceeded(r.before, i);
      StageAfter(r.before.state, r.action, i);
    }
  }

  lemma StageAfter(s: State, a: Action, i: nat)
    requires Enabled(s, a) && i in s.sockets
    ensures var before, after := s.sockets[i].stage, Apply(s, a).sockets[i].stage;
      && (after != before && after.Verified? ==> a == Verify(i, true))
      && (after != before && after.Joined? ==> before.Verified? && a == Join(i))
      && (after != before && after.Loaded? ==> before.Joined? && a == Load(i, true))
      && (after != before && after.Ready? ==> before.Loaded? && after.passed == before.seen && a == Check(i))
  {
  }

  lemma {:induction false} StepDrops(s: State, a: Action, i: nat)
    requires Enabled(s, a) && i in s.sockets
    ensures var t := Apply(s, a);
      && i in t.sockets && t.sockets[i].token == s.sockets[i].token
      && (t.sockets[i].connected ==> s.sockets[i].connected)
      && (t.sockets[i].connected && t.sockets[i].stage == Refused ==> s.sockets[i].stage == Refused)
  {
  }

  /** In every run a socket refused at any point of the handshake is disconnected. */
  lemma {:induction false} RefusedIsDropped(r: Run, i: nat)
    requires Legal(r) && i in r.state.sockets && r.state.sockets[i].stage == Refused
    ensures !r.state.sockets[i].connected
  {
    if r.Then? && i in r.before.state.sockets {
      StepDrops(r.before.state, r.action, i);
      if r.before.state.sockets[i].stage == Refused {
        RefusedIsDropped(r.before, i);
      }
    }
  }

  function Taken(r: Run, a: Action): Run
    requires Enabled(r.state, a)
  {
    Then(r, a, Apply(r.state, a))
  }

  /** A whole disable: the write, unless the account was disabled already, and the eviction. */
  function Disablement(r: Run, k: nat, u: string): Run
    requires k !in r.state.changes && u in r.state.users
  {
    var started := Taken(r, StartDisable(k, u));
    Taken(if r.state.users[u].account.disabled then started else Taken(started, WriteDisabled(k)), Evict(k))
  }

  function Revocation(r: Run, k: nat, u: string): Run
    requires k !in r.state.changes && u in r.state.users
  {
    Taken(Taken(r, Revoke(k, u)), Evict(k))
  }

  /** From every state of every run an account can be disabled, which drops the sockets in the user's room. */
  lemma DisableTakesEffect(r: Run, k: nat, u: string)
    requires Legal(r) && k !in r.state.changes && u in r.state.users
    ensures var after := Disablement(r, k, u);
      && Legal(after) && u in after.state.users
      && after.state.users[u].account == r.state.users[u].account.(disabled := true)
      && k in after.state.changes && after.state.changes[k] == Disabled(u, r.state.users[u].enables)
      && Evicted(r.state.sockets, after.state.sockets, u)
  {
    var started := Taken(r, StartDisable(k, u));
    var written := if r.state.users[u].account.disabled then started else Taken(started, WriteDisabled(k));
    assert Legal(written) && written.state.sockets == r.state.sockets;
    EvictedExactly(written.state, k);
  }

  /** So can its sessions be revoked, to the same effect. */
  lemma RevocationTakesEffect(r: Run, k: nat, u: string)
    requires Legal(r) && k !in r.state.changes && u in r.state.users
    ensures var after := Revocation(r, k, u); var account := r.state.users[u].account;
      && Legal(after) && u in after.state.users
      && after.state.users[u].account == account.(tokenVersion := account.tokenVersion + 1)
      && k in after.state.changes && after.state.changes[k] == Revoked(u, account.tokenVersion + 1)
      && Evicted(r.state.sockets, after.state.sockets, u)
  {
    EvictedExactly(Taken(r, Revoke(k, u)).state, k);
  }

  /** A new client's handshake up to its account check. */
  function Handshake(r: Run, i: nat, token: Token): Run
    requires i !in r.state.sockets
  {
    var joined := Taken(Taken(Taken(r, Connect(i, token)), Verify(i, true)), Join(i));
    assert At(joined.state, i, Joined);
    Taken(joined, Load(i, true))
  }

  /** The socket stands like this, and nothing else differs from the state before. */
  ghost predicate StandsAs(r: Run, before: State, i: nat, c: Socket) {
    Legal(r) && r.state == before.(sockets := before.sockets[i := c])
  }

  /** One step of a new client's handshake. */
  lemma HandshakeStep(r: Run, before: State, i: nat, c: Socket, a: Action, d: Socket)
    requires StandsAs(r, before, i, c) && Enabled(r.state, a)
    requires a == Verify(i, true) || a == Join(i) || a == Load(i, true)
    requires Apply(r.state, a).sockets[i] == d
    ensures StandsAs(Taken(r, a), before, i, d)
  {
    assert before.sockets[i := c][i := d] == before.sockets[i := d];
  }

  lemma HandshakeLoads(r: Run, i: nat, token: Token)
    requires Legal(r) && i !in r.state.sockets && token.userId in r.state.users
    ensures StandsAs(Handshake(r, i, token), r.state, i,
                     Socket(token, true, Loaded(r.state.users[token.userId].account), false))
  {
    var connected := Taken(r, Connect(i, token));
    var verified := Taken(connected, Verify(i, true));
    var joined := Taken(verified, Join(i));
    assert StandsAs(connected, r.state, i, Socket(token, true, Verifying, false));
    HandshakeStep(connected, r.state, i, Socket(token, true, Verifying, false), Verify(i, true),
                  Socket(token, true, Verified, false));
    HandshakeStep(verified, r.state, i, Socket(token, true, Verified, false), Join(i), Socket(token, true, Joined, false));
    HandshakeStep(joined, r.state, i, Socket(token, true, Joined, false), Load(i, true),
                  Socket(token, true, Loaded(r.state.users[token.userId].account), false));
  }

  lemma CheckConnects(before: State, i: nat, token: Token, account: Account)
    requires token.expiresAt.Some? && before.now < token.expiresAt.value
    requires !account.disabled && account.tokenVersion == token.version
    requires Inv(before.(sockets := before.sockets[i := Socket(token, true, Loaded(account), false)]))
    ensures var t := CheckSocket(before.(sockets := before.sockets[i := Socket(token, true, Loaded(account), false)]), i);
      && t == before.(sockets := before.sockets[i := Socket(token, true, Ready(account), false)], timers := t.timers)
      && Due(t.timers, i) == Some(Sooner(token.expiresAt.value, before.now + 2_147_483_647))
      && (forall j | j != i :: Due(t.timers, j) == Due(before.timers, j))
  {
    var s := before.(sockets := before.sockets[i := Socket(token, true, Loaded(account), false)]);
    CheckedExactly(s, i);
    var d := Socket(token, true, Ready(account), false);
    assert CheckSocket(s, i).sockets == s.sockets[i := d] == before.sockets[i := d];
  }

  /** From every state of every run: a client with a token of its enabled account's version that has not expired gets
      through the handshake, is connected and ready, and has its timer; no other socket, account or timer changes. */
  lemma ValidClientConnects(r: Run, i: nat, token: Token)
    requires Legal(r) && i !in r.state.sockets && token.userId in r.state.users
    requires var account := r.state.users[token.userId].account; !account.disabled && account.tokenVersion == token.version
    requires token.expiresAt.Some? && r.state.now < token.expiresAt.value
    ensures var loaded := Handshake(r, i, token);
      Enabled(loaded.state, Check(i)) && var ready := Taken(loaded, Check(i));
      && Legal(ready)
      && ready.state == r.state.(
           sockets := r.state.sockets[i := Socket(token, true, Ready(r.state.users[token.userId].account), false)],
           timers := ready.state.timers)
      && Due(ready.state.timers, i) == Some(Sooner(token.expiresAt.value, r.state.now + 2_147_483_647))
      && (forall j | j != i :: Due(ready.state.timers, j) == Due(r.state.timers, j))
  {
    var loaded := Handshake(r, i, token);
    HandshakeLoads(r, i, token);
    EveryRunInv(loaded);
    CheckConnects(r.state, i, token, r.state.users[token.userId].account);
  }

  /** Once a disable has evicted, and as long as the account was not enabled since the disable wrote it, no connected
      socket of that user is past the handshake, whatever handshakes were under way and whatever was enabled between the
      disable's own read and its write. */
  lemma NoSocketSurvivesDisable(r: Run, k: nat, i: nat)
    requires Legal(r) && k in r.state.changes && r.state.changes[k].Disabled? && r.state.changes[k].userId in r.state.users
    requires r.state.users[r.state.changes[k].userId].enables == r.state.changes[k].enables
    requires i in r.state.sockets && r.state.sockets[i].token.userId == r.state.changes[k].userId
    requires r.state.sockets[i].stage.Ready?
    ensures !r.state.sockets[i].connected
  {
    EveryRunInv(r);
    assert ChangeInv(r.state.users, r.state.changes[k]);
    assert AccountInv(r.state.users, r.state.sockets[i]);
  }

  /** Once a revocation that set token version v has evicted, no connected socket that passed the handshake does so
      on a token older than v, for ever. */
  lemma NoSocketSurvivesRevocation(r: Run, k: nat, i: nat)
    requires Legal(r) && k in r.state.changes && r.state.changes[k].Revoked?
    requires i in r.state.sockets && r.state.sockets[i].token.userId == r.state.changes[k].userId
    requires r.state.sockets[i].stage.Ready? && r.state.sockets[i].connected
    ensures r.state.changes[k].version <= r.state.sockets[i].token.version
  {
    EveryRunInv(r);
    assert ChangeInv(r.state.users, r.state.changes[k]);
    assert AccountInv(r.state.users, r.state.sockets[i]);
  }

  /** Every connected socket past the handshake has exactly one armed timer, due no later than its token's expiry,
      and no timer outlives the handling of its socket's disconnect. */
  lemma OneTimerPerSocket(r: Run, i: nat)
    requires Legal(r) && i in r.state.sockets
    ensures var s := r.state; var c := s.sockets[i];
      && (c.connected && c.stage.Ready? ==>
            && c.token.expiresAt.Some? && i in s.timers.bySocket && s.timers.bySocket[i] in s.timers.armed
            && s.timers.armed[s.timers.bySocket[i]].due <= c.token.expiresAt.value)
      && (forall m, n | m in s.timers.armed &&
            n in s.timers.armed && s.timers.armed[m].socketId == i && s.timers.armed[n].socketId == i :: m == n)
      && (c.cleaned ==> forall n | n in s.timers.armed :: s.timers.armed[n].socketId != i)
  {
    EveryRunInv(r);
    assert TimerInv(r.state.timers, i, r.state.sockets[i]);
    assert AccountInv(r.state.users, r.state.sockets[i]);
  }
}
