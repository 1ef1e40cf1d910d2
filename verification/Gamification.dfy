/** The experience ledger: milestones and daily missions, each written in one transaction with the XP it pays. */
module Gamification {
  import opened Options

  const XP_PER_LEVEL := 100

  type UserId = nat
  type DocumentId = nat
  type MissionId = nat
  type MilestoneType = nat

  datatype Account = Account(xp: int, level: int)

  datatype Milestone = Milestone(user: UserId, document: DocumentId, kind: MilestoneType, xpAwarded: int)

  datatype Progress = Progress(user: UserId, mission: MissionId, count: int, completed: bool)

  datatype Mission = Mission(target: int, xpReward: int)

  /** The daily missions, which nothing modelled here changes. */
  type Missions = MissionId -> Mission

  datatype Tables = Tables(users: map<UserId, Account>, milestones: seq<Milestone>, progress: seq<Progress>)

  /** Integer division of the database: towards zero. */
  function TruncatedQuotient(a: int, b: int): int
    requires b > 0
  {
    if a >= 0 then a / b else -(-a / b)
  }

  function LevelOf(xp: int): int {
    TruncatedQuotient(xp, XP_PER_LEVEL) + 1
  }

  /** The first hundred points are level 1, every further hundred is one level more, and negative points stay on level 1
      down to -99 and count downwards from there. */
  predicate OnLevel(xp: int, level: int) {
    if xp >= 0 then 100 * (level - 1) <= xp < 100 * level else 100 * (level - 2) < xp <= 100 * (level - 1)
  }

  lemma LevelFits(xp: int, level: int)
    ensures level == LevelOf(xp) <==> OnLevel(xp, level)
  {
  }

  function Pay(a: Account, delta: int): Account {
    Account(a.xp + delta, LevelOf(a.xp + delta))
  }

  /** A row with the unique key of `m` is there already. */
  predicate HasMilestone(rows: seq<Milestone>, m: Milestone) {
    exists i :: 0 <= i < |rows| && rows[i].user == m.user && rows[i].document == m.document && rows[i].kind == m.kind
  }

  /** The row of a user and a mission, the number of rows when there is none. */
  function RowOf(rows: seq<Progress>, user: UserId, mission: MissionId): (i: nat)
    ensures i <= |rows|
    ensures i < |rows| ==> rows[i].user == user && rows[i].mission == mission
    ensures forall j | 0 <= j < i :: !(rows[j].user == user && rows[j].mission == mission)
  {
    if rows == [] || (rows[0].user == user && rows[0].mission == mission) then 0
    else
      var i := RowOf(rows[1..], user, mission);
      assert forall j | 1 <= j <= i :: rows[j] == rows[1..][j - 1];
      i + 1
  }

  datatype Awarded = AlreadyAwarded | Paid(account: Account) | NoSuchUser

  datatype Incremented = Unchanged(row: Progress) | Counted(row: Progress)
                           | Completed(row: Progress, account: Account) | NoUser

  /** The tables; every method is one transaction of a repository. */
  class Ledger {
    var tables: Tables

    constructor ()
      ensures tables == Tables(map[], [], [])
    {
      tables := Tables(map[], [], []);
    }

    /** `awardOnce`: insert or ignore, then the XP. A user that is gone fails the insert. */
    method AwardOnce(m: Milestone) returns (r: Awarded)
      modifies this
      ensures tables == AfterAward(old(tables), m)
      ensures r == (if m.user !in old(tables).users then NoSuchUser
                    else if HasMilestone(old(tables).milestones, m) then AlreadyAwarded
                    else Paid(Pay(old(tables).users[m.user], m.xpAwarded)))
    {
      if m.user !in tables.users {
        return NoSuchUser;
      }
      if HasMilestone(tables.milestones, m) {
        return AlreadyAwarded;
      }
      tables := tables.(milestones := tables.milestones + [m]);
      var account := Pay(tables.users[m.user], m.xpAwarded);
      tables := tables.(users := tables.users[m.user := account]);
      return Paid(account);
    }

    /** `incrementAtomic`: a first row or none, the guarded update, and the XP when this update completed the mission. */
    method IncrementAtomic(missions: Missions, user: UserId, mission: MissionId) returns (r: Incremented)
      modifies this
      ensures tables == AfterIncrement(missions, old(tables), user, mission)
      ensures r.Completed? ==> user in tables.users && r.account == tables.users[user]
      ensures r.NoUser? <==> user !in old(tables).users
      ensures !r.NoUser? ==> var i := RowOf(tables.progress, user, mission);
        && i < |tables.progress| && r.row == tables.progress[i]
        && (r.Unchanged? <==> i < |old(tables).progress| && old(tables).progress[i].completed)
        && (r.Completed? <==> !r.Unchanged? && r.row.completed)
    {
      if user !in tables.users {
        return NoUser;
      }
      var rows := tables.progress;
      var i := RowOf(rows, user, mission);
      if i == |rows| {
        rows := rows + [Progress(user, mission, 0, false)];
      }
      RowAfterInsert(tables.progress, user, mission);
      if rows[i].completed {
        tables := tables.(progress := rows);
        return Unchanged(rows[i]);
      }
      var row := rows[i].(count := rows[i].count + 1, completed := rows[i].count + 1 >= missions(mission).target);
      UpdateKeepsRow(rows, i, row, user, mission);
      rows := rows[i := row];
      tables := tables.(progress := rows);
      if !row.completed {
        return Counted(row);
      }
      var account := Pay(tables.users[user], missions(mission).xpReward);
      tables := tables.(users := tables.users[user := account]);
      return Completed(row, account);
    }
  }

  lemma {:induction false} RowAfterInsert(rows: seq<Progress>, user: UserId, mission: MissionId)
    ensures var i := RowOf(rows, user, mission);
      i == |rows| ==> RowOf(rows + [Progress(user, mission, 0, false)], user, mission) == i
  {
    var i := RowOf(rows, user, mission);
    var more := rows + [Progress(user, mission, 0, false)];
    if i == |rows| {
      assert more[i].user == user && more[i].mission == mission;
      assert forall j | 0 <= j < i :: more[j] == rows[j];
    }
  }

  // The transactions as functions of the tables

  function AfterAward(t: Tables, m: Milestone): Tables {
    if m.user !in t.users || HasMilestone(t.milestones, m) then t
    else Tables(t.users[m.user := Pay(t.users[m.user], m.xpAwarded)], t.milestones + [m], t.progress)
  }

  function WithRow(rows: seq<Progress>, user: UserId, mission: MissionId): seq<Progress> {
    if RowOf(rows, user, mission) == |rows| then rows + [Progress(user, mission, 0, false)] else rows
  }

  function AfterIncrement(missions: Missions, t: Tables, user: UserId, mission: MissionId): Tables {
    if user !in t.users then t
    else
      var rows, i := WithRow(t.progress, user, mission), RowOf(t.progress, user, mission);
      if rows[i].completed then t.(progress := rows)
      else
        var done := rows[i].count + 1 >= missions(mission).target;
        var row := rows[i].(count := rows[i].count + 1, completed := done);
        Tables(if done then t.users[user := Pay(t.users[user], missions(mission).xpReward)] else t.users,
               t.milestones, rows[i := row])
  }

  // Every run

  datatype Action = Register(user: UserId) | Award(milestone: Milestone) | Increment(user: UserId, mission: MissionId)

  function Apply(missions: Missions, t: Tables, a: Action): Tables {
    match a
    case Register(user) => if user in t.users then t else t.(users := t.users[user := Account(0, LevelOf(0))])
    case Award(m) => AfterAward(t, m)
    case Increment(user, mission) => AfterIncrement(missions, t, user, mission)
  }

  /** Transactions one after the other; each is atomic, so concurrent ones fall into some such order, and one that
      rolls back is no step. */
  datatype Run = Begin | Then(before: Run, action: Action)

  function End(missions: Missions, r: Run): Tables {
    match r
    case Begin => Tables(map[], [], [])
    case Then(before, action) => Apply(missions, End(missions, before), action)
  }

  /** How many events of the mission the user had since registering. */
  function Events(missions: Missions, r: Run, user: UserId, mission: MissionId): nat {
    if r.Begin? then 0
    else
      var counts := r.action == Increment(user, mission) && user in End(missions, r.before).users;
      Events(missions, r.before, user, mission) + (if counts then 1 else 0)
  }

  function MilestoneXp(rows: seq<Milestone>, user: UserId): int {
    if rows == [] then 0
    else
      var last := rows[|rows| - 1];
      MilestoneXp(rows[..|rows| - 1], user) + (if last.user == user then last.xpAwarded else 0)
  }

  function Reward(missions: Missions, row: Progress, user: UserId): int {
    if row.user == user && row.completed then missions(row.mission).xpReward else 0
  }

  function MissionXp(missions: Missions, rows: seq<Progress>, user: UserId): int {
    if rows == [] then 0
    else MissionXp(missions, rows[..|rows| - 1], user) + Reward(missions, rows[|rows| - 1], user)
  }

  /** How many events complete a mission: its target, but at least the one that is looked at. */
  function Needed(m: Mission): nat {
    if m.target < 1 then 1 else m.target
  }

  function Capped(events: nat, needed: nat): nat {
    if events < needed then events else needed
  }

  // Sums

  lemma {:induction false} MissionUpdate(missions: Missions, rows: seq<Progress>, i: nat, row: Progress, user: UserId)
    requires i < |rows|
    ensures MissionXp(missions, rows[i := row], user)
      == MissionXp(missions, rows, user) - Reward(missions, rows[i], user) + Reward(missions, row, user)
  {
    var last := |rows| - 1;
    if i < last {
      MissionUpdate(missions, rows[..last], i, row, user);
      assert rows[i := row][..last] == rows[..last][i := row];
    } else {
      assert rows[i := row][..last] == rows[..last];
    }
  }

  lemma {:induction false} NothingEarned(missions: Missions, milestones: seq<Milestone>, rows: seq<Progress>, user: UserId)
    requires forall i | 0 <= i < |milestones| :: milestones[i].user != user
    requires forall i | 0 <= i < |rows| :: rows[i].user != user
    ensures MilestoneXp(milestones, user) == 0 && MissionXp(missions, rows, user) == 0
    decreases |milestones| + |rows|
  {
    if milestones != [] {
      NothingEarned(missions, milestones[..|milestones| - 1], rows, user);
    } else if rows != [] {
      NothingEarned(missions, milestones, rows[..|rows| - 1], user);
    }
  }

  // The invariant

  /** The account is what the ledger paid. */
  predicate AccountFits(missions: Missions, t: Tables, user: UserId) {
    user in t.users ==>
      && t.users[user].xp == MilestoneXp(t.milestones, user) + MissionXp(missions, t.progress, user)
      && t.users[user].level == LevelOf(t.users[user].xp)
  }

  predicate SameKey(a: Milestone, b: Milestone) {
    a.user == b.user && a.document == b.document && a.kind == b.kind
  }

  /** One row per milestone key and per user and mission, all of users that exist. */
  predicate Keyed(t: Tables) {
    && (forall i, j | 0 <= i < j < |t.milestones| :: !SameKey(t.milestones[i], t.milestones[j]))
    && (forall i | 0 <= i < |t.milestones| :: t.milestones[i].user in t.users)
    && (forall i | 0 <= i < |t.progress| :: t.progress[i].user in t.users)
    && (forall i | 0 <= i < |t.progress| :: RowOf(t.progress, t.progress[i].user, t.progress[i].mission) == i)
  }

  /** A row counts its events up to the number needed, and is complete exactly then. */
  predicate RowFits(missions: Missions, row: Progress, events: nat) {
    var needed := Needed(missions(row.mission));
    events >= 1 && row.count == Capped(events, needed) && (row.completed <==> events >= needed)
  }

  /** The progress of a user in a mission after this many events. */
  predicate ProgressFits(missions: Missions, t: Tables, user: UserId, mission: MissionId, events: nat) {
    var i := RowOf(t.progress, user, mission);
    if i < |t.progress| then RowFits(missions, t.progress[i], events) else events == 0
  }

  ghost predicate Inv(missions: Missions, r: Run) {
    var t := End(missions, r);
    && Keyed(t)
    && (forall user :: AccountFits(missions, t, user))
    && (forall user, mission :: ProgressFits(missions, t, user, mission, Events(missions, r, user, mission)))
  }

  lemma {:induction false} RegisterKeeps(missions: Missions, t: Tables, user: UserId, other: UserId)
    requires Keyed(t) && AccountFits(missions, t, other)
    ensures var next := Apply(missions, t, Register(user));
      Keyed(next) && AccountFits(missions, next, other)
  {
    if user !in t.users {
      NothingEarned(missions, t.milestones, t.progress, user);
    }
  }

  lemma {:induction false} AwardKeeps(missions: Missions, t: Tables, m: Milestone, other: UserId)
    requires Keyed(t) && AccountFits(missions, t, other)
    ensures Keyed(AfterAward(t, m)) && AccountFits(missions, AfterAward(t, m), other)
  {
  }

  lemma {:induction false} InsertMovesNoRow(rows: seq<Progress>, p: Progress, user: UserId, mission: MissionId)
    ensures RowOf(rows + [p], user, mission)
      == if RowOf(rows, user, mission) < |rows| || (p.user == user && p.mission == mission) then RowOf(rows, user, mission)
         else |rows| + 1
  {
    var more := rows + [p];
    assert forall k | 0 <= k < |rows| :: more[k] == rows[k];
    assert more[|rows|] == p;
    var a, b := RowOf(rows, user, mission), RowOf(more, user, mission);
    assert a < |rows| ==> more[a].user == user && more[a].mission == mission;
  }

  lemma {:induction false} UpdateKeepsRow(rows: seq<Progress>, i: nat, row: Progress, user: UserId, mission: MissionId)
    requires i < |rows| && row.user == rows[i].user && row.mission == rows[i].mission
    ensures RowOf(rows[i := row], user, mission) == RowOf(rows, user, mission)
  {
    var more := rows[i := row];
    assert forall k | 0 <= k < |rows| :: more[k].user == rows[k].user && more[k].mission == rows[k].mission;
    var a, b := RowOf(rows, user, mission), RowOf(more, user, mission);
    assert a < |rows| ==> more[a].user == user && more[a].mission == mission;
    assert b < |rows| ==> rows[b].user == user && rows[b].mission == mission;
  }

  /** What an increment of an existing user writes. */
  predicate Increments(missions: Missions, t: Tables, user: UserId, mission: MissionId, rows: seq<Progress>, i: nat,
                       row: Progress) {
    && user in t.users && rows == WithRow(t.progress, user, mission) && i == RowOf(t.progress, user, mission)
    && i < |rows| && rows[i].user == user && rows[i].mission == mission
    && row == rows[i].(count := rows[i].count + 1, completed := rows[i].count + 1 >= missions(mission).target)
  }

  lemma {:induction false} IncrementIs(missions: Missions, t: Tables, user: UserId, mission: MissionId)
    returns (rows: seq<Progress>, i: nat, row: Progress)
    requires user in t.users
    ensures Increments(missions, t, user, mission, rows, i, row)
    ensures var next := AfterIncrement(missions, t, user, mission);
      && next.milestones == t.milestones
      && next.progress == (if rows[i].completed then rows else rows[i := row])
      && next.users == (if !rows[i].completed && row.completed
                        then t.users[user := Pay(t.users[user], missions(mission).xpReward)] else t.users)
  {
    rows, i := WithRow(t.progress, user, mission), RowOf(t.progress, user, mission);
    row := rows[i].(count := rows[i].count + 1, completed := rows[i].count + 1 >= missions(mission).target);
  }

  lemma {:induction false} RowsInserted(rows: seq<Progress>, user: UserId, mission: MissionId, u: UserId, m: MissionId)
    ensures var more := WithRow(rows, user, mission);
      RowOf(more, u, m) == if RowOf(rows, u, m) < |rows| || (u == user && m == mission) then RowOf(rows, u, m) else |more|
  {
    InsertMovesNoRow(rows, Progress(user, mission, 0, false), u, m);
  }

  lemma {:induction false} InsertedEarnsNothing(missions: Missions, rows: seq<Progress>, user: UserId, mission: MissionId,
                                                other: UserId)
    ensures MissionXp(missions, WithRow(rows, user, mission), other) == MissionXp(missions, rows, other)
  {
  }

  /** The reward enters the sum in the step that completes the row. */
  lemma {:induction false} RewardEntersOnce(missions: Missions, rows: seq<Progress>, i: nat, row: Progress, other: UserId)
    requires i < |rows| && !rows[i].completed && row.user == rows[i].user && row.mission == rows[i].mission
    ensures MissionXp(missions, rows[i := row], other)
      == MissionXp(missions, rows, other) + Reward(missions, row, other)
  {
    MissionUpdate(missions, rows, i, row, other);
  }

  lemma {:induction false} IncrementKeepsAccount(missions: Missions, t: Tables, user: UserId, mission: MissionId,
                                                 other: UserId)
    requires AccountFits(missions, t, other)
    ensures AccountFits(missions, AfterIncrement(missions, t, user, mission), other)
  {
    if user in t.users {
      var rows, i, row := IncrementIs(missions, t, user, mission);
      InsertedEarnsNothing(missions, t.progress, user, mission, other);
      if !rows[i].completed {
        RewardEntersOnce(missions, rows, i, row, other);
      }
    }
  }

  lemma {:induction false} IncrementKeepsKeyed(missions: Missions, t: Tables, user: UserId, mission: MissionId)
    requires Keyed(t)
    ensures Keyed(AfterIncrement(missions, t, user, mission))
  {
    if user in t.users {
      var next := AfterIncrement(missions, t, user, mission);
      var rows, i, row := IncrementIs(missions, t, user, mission);
      forall k | 0 <= k < |next.progress|
        ensures RowOf(next.progress, next.progress[k].user, next.progress[k].mission) == k
      {
        assert next.progress[k].user == rows[k].user && next.progress[k].mission == rows[k].mission;
        RowsInserted(t.progress, user, mission, rows[k].user, rows[k].mission);
        UpdateKeepsRow(rows, i, row, rows[k].user, rows[k].mission);
      }
    }
  }

  lemma {:induction false} IncrementKeepsProgress(missions: Missions, t: Tables, user: UserId,
                                           mission: MissionId, u: UserId, m: MissionId,
                               events: nat)
    requires ProgressFits(missions, t, u, m, events)
    ensures ProgressFits(missions, AfterIncrement(missions, t, user, mission), u, m,
      events + if u == user && m == mission && user in t.users then 1 else 0)
  {
    if user in t.users {
      var next := AfterIncrement(missions, t, user, mission);
      var rows, i, row := IncrementIs(missions, t, user, mission);
      RowsInserted(t.progress, user, mission, u, m);
      UpdateKeepsRow(rows, i, row, u, m);
      var k := RowOf(next.progress, u, m);
      assert k == RowOf(rows, u, m);
      if (u == user && m == mission) {
        assert k == i;
      } else {
        assert k < |next.progress| ==> next.progress[k] == rows[k];
      }
    }
  }

  lemma {:induction false} ActionKeepsAccount(missions: Missions, t: Tables, a: Action, user: UserId)
    requires Keyed(t) && AccountFits(missions, t, user)
    ensures Keyed(Apply(missions, t, a)) && AccountFits(missions, Apply(missions, t, a), user)
  {
    match a
    case Register(registered) => RegisterKeeps(missions, t, registered, user);
    case Award(m) => AwardKeeps(missions, t, m, user);
    case Increment(u, mission) =>
      IncrementKeepsKeyed(missions, t, u, mission);
      IncrementKeepsAccount(missions, t, u, mission, user);
  }

  lemma {:induction false} ActionKeepsProgress(missions: Missions, r: Run, u: UserId, m: MissionId)
    requires r.Then? && ProgressFits(missions, End(missions, r.before), u, m, Events(missions, r.before, u, m))
    ensures ProgressFits(missions, End(missions, r), u, m, Events(missions, r, u, m))
  {
    if r.action.Increment? {
      var events := Events(missions, r.before, u, m);
      IncrementKeepsProgress(missions, End(missions, r.before), r.action.user, r.action.mission, u, m, events);
    }
  }

  lemma {:induction false} NextKeepsInv(missions: Missions, r: Run)
    requires r.Then? && Inv(missions, r.before)
    ensures Inv(missions, r)
  {
    var t := End(missions, r.before);
    forall u: UserId
      ensures Keyed(End(missions, r)) && AccountFits(missions, End(missions, r), u)
    {
      assert AccountFits(missions, t, u);
      ActionKeepsAccount(missions, t, r.action, u);
    }
    assert Keyed(End(missions, r)) by { assert AccountFits(missions, End(missions, r), 0); }
    forall u: UserId, m: MissionId
      ensures ProgressFits(missions, End(missions, r), u, m, Events(missions, r, u, m))
    {
      assert ProgressFits(missions, t, u, m, Events(missions, r.before, u, m));
      ActionKeepsProgress(missions, r, u, m);
    }
  }

  lemma {:induction false} EveryRunInv(missions: Missions, r: Run)
    ensures Inv(missions, r)
  {
    if r.Then? {
      EveryRunInv(missions, r.before);
      NextKeepsInv(missions, r);
    }
  }

  /** In every run a user's XP is what the milestones and the completed missions paid, and the level follows it. */
  lemma XpIsConserved(missions: Missions, r: Run, user: UserId)
    requires user in End(missions, r).users
    ensures var t := End(missions, r);
      && t.users[user].xp == MilestoneXp(t.milestones, user) + MissionXp(missions, t.progress, user)
      && OnLevel(t.users[user].xp, t.users[user].level)
  {
    LevelFits(End(missions, r).users[user].xp, End(missions, r).users[user].level);
    EveryRunInv(missions, r);
    assert AccountFits(missions, End(missions, r), user);
  }

  /** No milestone and no mission pays twice: each has at most one row. */
  lemma PaysOnce(missions: Missions, r: Run)
    ensures Keyed(End(missions, r))
  {
    EveryRunInv(missions, r);
  }

  /** The progress of a mission is the number of its events, stopped at the target (at 1 for a target below it), and it
      is complete exactly when that many came. */
  lemma ProgressCountsEvents(missions: Missions, r: Run, user: UserId, mission: MissionId)
    ensures var rows := End(missions, r).progress;
      var i, events, needed := RowOf(rows, user, mission), Events(missions, r, user, mission), Needed(missions(mission));
      && (i < |rows| <==> events >= 1)
      && (i < |rows| ==> rows[i].count == Capped(events, needed) && (rows[i].completed <==> events >= needed))
  {
    EveryRunInv(missions, r);
    assert ProgressFits(missions, End(missions, r), user, mission, Events(missions, r, user, mission));
  }

  /** Progress stays within the target in every run exactly when the target is at least 1: with a smaller one the first
      event of a user passes it. */
  lemma {:induction false} ProgressWithinTarget(missions: Missions, mission: MissionId)
    ensures missions(mission).target >= 1 <==>
      forall r, user :: WithinTarget(missions, End(missions, r), user, mission)
  {
    if missions(mission).target >= 1 {
      forall r, user
        ensures WithinTarget(missions, End(missions, r), user, mission)
      {
        ProgressCountsEvents(missions, r, user, mission);
      }
    } else {
      var r := Then(Then(Begin, Register(0)), Increment(0, mission));
      assert 0 in End(missions, Then(Begin, Register(0))).users;
      ProgressCountsEvents(missions, r, 0, mission);
      assert Events(missions, r, 0, mission) >= 1;
      assert !WithinTarget(missions, End(missions, r), 0, mission);
    }
  }

  predicate WithinTarget(missions: Missions, t: Tables, user: UserId, mission: MissionId) {
    var i := RowOf(t.progress, user, mission);
    i < |t.progress| ==> t.progress[i].count <= missions(mission).target
  }

  // Which awards pay

  /** The first award with this key that came when its user was registered. */
  function FirstAward(missions: Missions, r: Run, m: Milestone): Option<Milestone> {
    if r.Begin? then None
    else
      var before := FirstAward(missions, r.before, m);
      if before.Some? then before
      else if r.action.Award? && SameKey(r.action.milestone, m) && m.user in End(missions, r.before).users
      then Some(r.action.milestone) else None
  }

  predicate KeptAs(rows: seq<Milestone>, m: Milestone, first: Option<Milestone>) {
    match first
    case Some(row) => row in rows && SameKey(row, m)
    case None => forall row | row in rows :: !SameKey(row, m)
  }

  lemma AwardKeepsFirst(t: Tables, award: Milestone, m: Milestone, first: Option<Milestone>)
    requires KeptAs(t.milestones, m, first)
    ensures KeptAs(AfterAward(t, award).milestones, m,
                   if first.None? && SameKey(award, m) && m.user in t.users then Some(award) else first)
  {
    var rows := t.milestones;
    var more := rows + [award];
    assert more[|rows|] == award;
    if first.None? && SameKey(award, m) && m.user in t.users {
      forall i | 0 <= i < |rows|
        ensures !SameKey(rows[i], award)
      {
        assert rows[i] in rows;
      }
      assert AfterAward(t, award).milestones == more;
    } else if first.Some? {
      assert first.value in more;
    }
  }

  lemma {:induction false} FirstAwardKept(missions: Missions, r: Run, m: Milestone)
    ensures KeptAs(End(missions, r).milestones, m, FirstAward(missions, r, m))
  {
    if r.Then? {
      FirstAwardKept(missions, r.before, m);
      if r.action.Award? {
        AwardKeepsFirst(End(missions, r.before), r.action.milestone, m, FirstAward(missions, r.before, m));
      }
    }
  }

  /** In every run the row of a milestone's key is that of the first award with this key, and there is none without one. */
  lemma FirstAwardPays(missions: Missions, r: Run, m: Milestone, row: Milestone)
    ensures FirstAward(missions, r, m) == Some(row) <==> row in End(missions, r).milestones && SameKey(row, m)
  {
    FirstAwardKept(missions, r, m);
    EveryRunInv(missions, r);
    var rows := End(missions, r).milestones;
    if row in rows && SameKey(row, m) {
      var first := FirstAward(missions, r, m).value;
      var i :| 0 <= i < |rows| && rows[i] == row;
      var j :| 0 <= j < |rows| && rows[j] == first;
      assert SameKey(rows[i], rows[j]) && SameKey(rows[j], rows[i]);
    }
  }
}
