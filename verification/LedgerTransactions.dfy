/** The statements of concurrent award and increment transactions, interleaved as the database runs them: a statement sees
    what is committed and its own writes, waits for a row or a key another open transaction has written, and a commit
    makes the writes of one transaction visible at once. */
module LedgerTransactions {
  import opened Options
  import G = Gamification

  /** What a transaction was started for. */
  datatype Job = Awarding(milestone: G.Milestone) | Incrementing(user: G.UserId, mission: G.MissionId)

  /** Where it stands, with what it has written so far. `Refused`: the insert failed, as the user does not exist.
      `Skipped`: nothing to write, the milestone was awarded or the mission complete before. */
  datatype Phase =
    | Begun
    | Refused
    | Skipped
    | MilestoneIn
    | MilestonePaid(account: G.Account)
    | RowReady(inserted: bool)
    | Counted(inserted: bool, row: G.Progress)
    | MissionPaid(inserted: bool, row: G.Progress, account: G.Account)

  datatype Transaction = Transaction(job: Job, phase: Phase)

  /** Keys and rows that an open transaction has written. */
  datatype Lock =
    | MilestoneKey(user: G.UserId, document: G.DocumentId, kind: G.MilestoneType)
    | ProgressRow(user: G.UserId, mission: G.MissionId)
    | UserRow(user: G.UserId)

  function KeyOf(job: Job): Lock {
    match job
    case Awarding(m) => MilestoneKey(m.user, m.document, m.kind)
    case Incrementing(user, mission) => ProgressRow(user, mission)
  }

  function UserOf(job: Job): G.UserId {
    match job
    case Awarding(m) => m.user
    case Incrementing(user, _) => user
  }

  function Held(x: Transaction): set<Lock> {
    match x.phase
    case MilestoneIn => {KeyOf(x.job)}
    case MilestonePaid(_) => {KeyOf(x.job), UserRow(UserOf(x.job))}
    case RowReady(inserted) => if inserted then {KeyOf(x.job)} else {}
    case Counted(_, _) => {KeyOf(x.job)}
    case MissionPaid(_, _, _) => {KeyOf(x.job), UserRow(UserOf(x.job))}
    case _ => {}
  }

  /** A committed row is there. */
  predicate HasRow(t: G.Tables, user: G.UserId, mission: G.MissionId) {
    G.RowOf(t.progress, user, mission) < |t.progress|
  }

  /** The row an update acts on: the committed one, or the baseline the transaction has inserted itself. */
  function RowNow(t: G.Tables, user: G.UserId, mission: G.MissionId): G.Progress {
    if HasRow(t, user, mission) then t.progress[G.RowOf(t.progress, user, mission)] else G.Progress(user, mission, 0, false)
  }

  /** `progress + 1`, completed when that reaches the target. */
  function NextRow(missions: G.Missions, row: G.Progress): G.Progress {
    row.(count := row.count + 1, completed := row.count + 1 >= missions(row.mission).target)
  }

  predicate Exists(t: G.Tables, job: Job) {
    match job
    case Awarding(m) => G.HasMilestone(t.milestones, m)
    case Incrementing(user, mission) => HasRow(t, user, mission)
  }

  /** What the next statement has to wait for when another open transaction holds it. An insert that finds a committed
      row does not wait. */
  function Wanted(t: G.Tables, x: Transaction): set<Lock> {
    match x.phase
    case Begun => if Exists(t, x.job) then {} else {KeyOf(x.job)}
    case MilestoneIn => {UserRow(UserOf(x.job))}
    case RowReady(_) => {KeyOf(x.job)}
    case Counted(_, _) => {UserRow(UserOf(x.job))}
    case _ => {}
  }

  predicate HasStatement(x: Transaction) {
    match x.phase
    case Begun => true
    case MilestoneIn => x.job.Awarding?
    case RowReady(_) => x.job.Incrementing?
    case Counted(_, row) => x.job.Incrementing? && row.completed
    case _ => false
  }

  /** The effect of the next statement. */
  function NextPhase(missions: G.Missions, t: G.Tables, x: Transaction): Phase
    requires HasStatement(x)
  {
    if UserOf(x.job) !in t.users then Refused
    else
      match x.job
      case Awarding(m) =>
        if x.phase.Begun? then (if G.HasMilestone(t.milestones, m) then Skipped else MilestoneIn)
        else MilestonePaid(G.Pay(t.users[m.user], m.xpAwarded))
      case Incrementing(user, mission) =>
        match x.phase
        case Begun => RowReady(!HasRow(t, user, mission))
        case RowReady(inserted) =>
          var row := RowNow(t, user, mission);
          if row.completed then Skipped else Counted(inserted, NextRow(missions, row))
        case Counted(inserted, row) => MissionPaid(inserted, row, G.Pay(t.users[user], missions(mission).xpReward))
        case _ => x.phase
  }

  predicate CanCommit(x: Transaction) {
    match x.phase
    case Skipped => true
    case MilestonePaid(_) => x.job.Awarding?
    case Counted(_, row) => x.job.Incrementing? && !row.completed
    case MissionPaid(_, _, _) => x.job.Incrementing?
    case _ => false
  }

  function PutRow(rows: seq<G.Progress>, row: G.Progress): seq<G.Progress> {
    var i := G.RowOf(rows, row.user, row.mission);
    if i < |rows| then rows[i := row] else rows + [row]
  }

  /** The committed tables with the transaction's writes. */
  function Written(t: G.Tables, x: Transaction): G.Tables
    requires CanCommit(x)
  {
    match x.phase
    case Skipped => t
    case MilestonePaid(account) =>
      t.(users := t.users[UserOf(x.job) := account], milestones := t.milestones + [x.job.milestone])
    case Counted(_, row) => t.(progress := PutRow(t.progress, row))
    case MissionPaid(_, row, account) =>
      t.(users := t.users[UserOf(x.job) := account], progress := PutRow(t.progress, row))
  }

  datatype State = State(tables: G.Tables, open: map<nat, Transaction>)

  datatype Step =
    | Register(user: G.UserId)
    | Open(id: nat, job: Job)
    | Statement(id: nat)
    | Commit(id: nat)
    | RollBack(id: nat)

  predicate Enabled(s: State, step: Step) {
    match step
    case Register(_) => true
    case Open(id, _) => id !in s.open
    case Statement(id) =>
      && id in s.open && HasStatement(s.open[id])
      && forall other | other in s.open && other != id :: Wanted(s.tables, s.open[id]) !! Held(s.open[other])
    case Commit(id) => id in s.open && CanCommit(s.open[id])
    case RollBack(id) => id in s.open
  }

  function Apply(missions: G.Missions, s: State, step: Step): State
    requires Enabled(s, step)
  {
    match step
    case Register(user) => s.(tables := G.Apply(missions, s.tables, G.Register(user)))
    case Open(id, job) => s.(open := s.open[id := Transaction(job, Begun)])
    case Statement(id) => s.(open := s.open[id := s.open[id].(phase := NextPhase(missions, s.tables, s.open[id]))])
    case Commit(id) => State(Written(s.tables, s.open[id]), s.open - {id})
    case RollBack(id) => s.(open := s.open - {id})
  }

  datatype Run = Begin | Then(before: Run, step: Step, state: State)

  function Now(r: Run): State {
    if r.Begin? then State(G.Tables(map[], [], []), map[]) else r.state
  }

  predicate Legal(missions: G.Missions, r: Run) {
    r.Then? ==>
      Legal(missions, r.before) && Enabled(Now(r.before), r.step) && r.state == Apply(missions, Now(r.before), r.step)
  }

  // One transaction against the committed tables

  /** What a transaction has read still holds of the committed tables. */
  predicate Fits(missions: G.Missions, t: G.Tables, x: Transaction) {
    (x.phase.Begun? || x.phase.Refused?) ||
    (&& UserOf(x.job) in t.users
     && match x.job
        case Awarding(m) => AwardFits(t, m, x.phase)
        case Incrementing(user, mission) => IncrementFits(missions, t, user, mission, x.phase))
  }

  predicate AwardFits(t: G.Tables, m: G.Milestone, phase: Phase) {
    match phase
    case Skipped => G.HasMilestone(t.milestones, m)
    case MilestoneIn => !G.HasMilestone(t.milestones, m)
    case MilestonePaid(account) =>
      m.user in t.users && !G.HasMilestone(t.milestones, m) && account == G.Pay(t.users[m.user], m.xpAwarded)
    case _ => false
  }

  predicate IncrementFits(missions: G.Missions, t: G.Tables, user: G.UserId, mission: G.MissionId, phase: Phase) {
    var row := RowNow(t, user, mission);
    match phase
    case Skipped => HasRow(t, user, mission) && row.completed
    case RowReady(inserted) => inserted == !HasRow(t, user, mission)
    case Counted(inserted, next) =>
      inserted == !HasRow(t, user, mission) && !row.completed && next == NextRow(missions, row)
    case MissionPaid(inserted, next, account) =>
      && inserted == !HasRow(t, user, mission) && !row.completed && next == NextRow(missions, row) && next.completed
      && user in t.users && account == G.Pay(t.users[user], missions(mission).xpReward)
    case _ => false
  }

  lemma StatementFits(missions: G.Missions, t: G.Tables, x: Transaction)
    requires Fits(missions, t, x) && HasStatement(x)
    ensures var next := x.(phase := NextPhase(missions, t, x));
      Fits(missions, t, next) && Held(next) <= Held(x) + Wanted(t, x)
  {
  }

  function ActionOf(job: Job): G.Action {
    match job
    case Awarding(m) => G.Award(m)
    case Incrementing(user, mission) => G.Increment(user, mission)
  }

  lemma {:induction false} PutRowIs(rows: seq<G.Progress>, row: G.Progress, user: G.UserId, mission: G.MissionId)
    requires row.user != user || row.mission != mission
    ensures var put := PutRow(rows, row); var i, j := G.RowOf(rows, user, mission), G.RowOf(put, user, mission);
      (i < |rows| <==> j < |put|) && (i < |rows| ==> put[j] == rows[i])
  {
    var k := G.RowOf(rows, row.user, row.mission);
    if k < |rows| {
      G.UpdateKeepsRow(rows, k, row, user, mission);
    } else {
      G.InsertMovesNoRow(rows, row, user, mission);
    }
  }

  lemma {:induction false} MilestoneKept(rows: seq<G.Milestone>, more: G.Milestone, m: G.Milestone)
    ensures G.HasMilestone(rows + [more], m) <==> G.HasMilestone(rows, m) || G.SameKey(more, m)
  {
    var all := rows + [more];
    assert all[|rows|] == more && forall i | 0 <= i < |rows| :: all[i] == rows[i];
  }

  lemma {:induction false} RowPut(rows: seq<G.Progress>, row: G.Progress)
    ensures var put := PutRow(rows, row); var j := G.RowOf(put, row.user, row.mission);
      j < |put| && put[j] == row
  {
    var k := G.RowOf(rows, row.user, row.mission);
    if k < |rows| {
      G.UpdateKeepsRow(rows, k, row, row.user, row.mission);
    } else {
      G.InsertMovesNoRow(rows, row, row.user, row.mission);
    }
  }

  /** Inserting the baseline and updating it is putting the row. */
  lemma {:induction false} PutIsInsertAndUpdate(rows: seq<G.Progress>, user: G.UserId, mission: G.MissionId, row: G.Progress)
    requires row.user == user && row.mission == mission
    ensures var i := G.RowOf(rows, user, mission);
      i < |G.WithRow(rows, user, mission)| && G.WithRow(rows, user, mission)[i := row] == PutRow(rows, row)
  {
    var i := G.RowOf(rows, user, mission);
    if i == |rows| {
      assert (rows + [G.Progress(user, mission, 0, false)])[i := row] == rows + [row];
    }
  }

  lemma IncrementIsAtomic(missions: G.Missions, t: G.Tables, x: Transaction)
    requires Fits(missions, t, x) && CanCommit(x) && x.job.Incrementing? && !x.phase.Skipped?
    ensures Written(t, x) == G.AfterIncrement(missions, t, x.job.user, x.job.mission)
  {
    var user, mission := x.job.user, x.job.mission;
    var rows, i, row := G.IncrementIs(missions, t, user, mission);
    assert rows[i] == RowNow(t, user, mission);
    assert row == x.phase.row;
    PutIsInsertAndUpdate(t.progress, user, mission, row);
  }

  lemma SkippedIsAtomic(missions: G.Missions, t: G.Tables, x: Transaction)
    requires Fits(missions, t, x) && x.job.Incrementing? && x.phase.Skipped?
    ensures t == G.AfterIncrement(missions, t, x.job.user, x.job.mission)
  {
    var rows, i, row := G.IncrementIs(missions, t, x.job.user, x.job.mission);
    assert rows == t.progress && rows[i].completed;
  }

  /** What a commit writes is what the whole transaction does at once to the tables as they are then, and the transaction
      that tells its caller of a new milestone or a completed mission is the one whose commit brings it. */
  lemma CommitIsAtomic(missions: G.Missions, t: G.Tables, x: Transaction)
    requires Fits(missions, t, x) && CanCommit(x)
    ensures Written(t, x) == G.Apply(missions, t, ActionOf(x.job))
    ensures x.phase.MilestonePaid? <==> x.job.Awarding? && !G.HasMilestone(t.milestones, x.job.milestone)
    ensures x.phase.MissionPaid? <==>
      && x.job.Incrementing? && !RowNow(t, x.job.user, x.job.mission).completed
      && RowNow(Written(t, x), x.job.user, x.job.mission).completed
  {
    if x.job.Incrementing? && !x.phase.Skipped? {
      IncrementIsAtomic(missions, t, x);
      RowPut(t.progress, x.phase.row);
    } else if x.job.Incrementing? {
      SkippedIsAtomic(missions, t, x);
    }
  }

  /** The commit touches the row of a user only with that row's lock. */
  lemma UserSpared(t: G.Tables, x: Transaction, user: G.UserId)
    requires CanCommit(x) && user in t.users
    ensures user in Written(t, x).users
    ensures UserRow(user) !in Held(x) ==> Written(t, x).users[user] == t.users[user]
  {
  }

  lemma AwardSpared(missions: G.Missions, t: G.Tables, x: Transaction, y: Transaction)
    requires Fits(missions, t, x) && Fits(missions, t, y) && CanCommit(x) && Held(x) !! Held(y)
    requires y.job.Awarding? && !y.phase.Begun? && !y.phase.Refused?
    ensures Fits(missions, Written(t, x), y)
  {
    var m := y.job.milestone;
    UserSpared(t, x, m.user);
    assert y.phase.MilestonePaid? ==> UserRow(m.user) in Held(y);
    if x.phase.MilestonePaid? {
      assert KeyOf(x.job) in Held(x);
      MilestoneKept(t.milestones, x.job.milestone, m);
    }
  }

  /** What a commit does to the progress row that another transaction looks at. */
  lemma RowSpared(missions: G.Missions, t: G.Tables, x: Transaction, user: G.UserId, mission: G.MissionId)
    requires Fits(missions, t, x) && CanCommit(x)
    ensures var u := Written(t, x);
      && (HasRow(t, user, mission) ==> HasRow(u, user, mission))
      && (HasRow(t, user, mission) && RowNow(t, user, mission).completed ==>
            RowNow(u, user, mission) == RowNow(t, user, mission))
      && (ProgressRow(user, mission) !in Held(x) ==>
            HasRow(u, user, mission) == HasRow(t, user, mission) && RowNow(u, user, mission) == RowNow(t, user, mission))
  {
    if x.phase.Counted? || x.phase.MissionPaid? {
      var row := x.phase.row;
      if row.user == user && row.mission == mission {
        RowPut(t.progress, row);
      } else {
        PutRowIs(t.progress, row, user, mission);
      }
    }
  }

  lemma IncrementSpared(missions: G.Missions, t: G.Tables, x: Transaction, y: Transaction)
    requires Fits(missions, t, x) && Fits(missions, t, y) && CanCommit(x) && Held(x) !! Held(y)
    requires y.job.Incrementing? && !y.phase.Begun? && !y.phase.Refused?
    ensures Fits(missions, Written(t, x), y)
  {
    UserSpared(t, x, y.job.user);
    RowSpared(missions, t, x, y.job.user, y.job.mission);
    assert y.phase.MissionPaid? ==> UserRow(y.job.user) in Held(y);
    assert ProgressRow(y.job.user, y.job.mission) in Held(x) ==> KeyOf(y.job) !in Held(y);
  }

  /** What one transaction commits leaves all that another one has read alone. */
  lemma CommitSpares(missions: G.Missions, t: G.Tables, x: Transaction, y: Transaction)
    requires Fits(missions, t, x) && Fits(missions, t, y) && CanCommit(x) && Held(x) !! Held(y)
    ensures Fits(missions, Written(t, x), y)
  {
    if !y.phase.Begun? && !y.phase.Refused? {
      if y.job.Awarding? {
        AwardSpared(missions, t, x, y);
      } else {
        IncrementSpared(missions, t, x, y);
      }
    }
  }

  // All of them

  ghost predicate Inv(missions: G.Missions, s: State) {
    && (forall id | id in s.open :: Fits(missions, s.tables, s.open[id]))
    && (forall a, b | a in s.open && b in s.open && a != b :: Held(s.open[a]) !! Held(s.open[b]))
  }

  lemma StatementKeepsInv(missions: G.Missions, s: State, id: nat)
    requires Inv(missions, s) && Enabled(s, Statement(id))
    ensures Inv(missions, Apply(missions, s, Statement(id)))
  {
    StatementFits(missions, s.tables, s.open[id]);
  }

  lemma CommitKeepsInv(missions: G.Missions, s: State, id: nat)
    requires Inv(missions, s) && Enabled(s, Commit(id))
    ensures Inv(missions, Apply(missions, s, Commit(id)))
  {
    forall other | other in s.open && other != id
      ensures Fits(missions, Written(s.tables, s.open[id]), s.open[other])
    {
      CommitSpares(missions, s.tables, s.open[id], s.open[other]);
    }
  }

  lemma StepKeepsInv(missions: G.Missions, s: State, step: Step)
    requires Inv(missions, s) && Enabled(s, step)
    ensures Inv(missions, Apply(missions, s, step))
  {
    match step
    case Statement(id) => StatementKeepsInv(missions, s, id);
    case Commit(id) => CommitKeepsInv(missions, s, id);
    case _ =>
  }

  /** The transactions of the run one after the other, in the order of their commits. */
  function Serial(r: Run): G.Run {
    if r.Begin? then G.Begin
    else
      match r.step
      case Register(user) => G.Then(Serial(r.before), G.Register(user))
      case Commit(id) =>
        if id in Now(r.before).open then G.Then(Serial(r.before), ActionOf(Now(r.before).open[id].job)) else Serial(r.before)
      case _ => Serial(r.before)
  }

  /** Whatever the interleaving of the statements, what is committed is what the committed transactions do one by one. */
  lemma {:induction false} InterleavingIsSerial(missions: G.Missions, r: Run)
    requires Legal(missions, r)
    ensures Now(r).tables == G.End(missions, Serial(r)) && Inv(missions, Now(r))
  {
    if r.Then? {
      InterleavingIsSerial(missions, r.before);
      StepKeepsInv(missions, Now(r.before), r.step);
      if r.step.Commit? {
        CommitIsAtomic(missions, Now(r.before).tables, Now(r.before).open[r.step.id]);
      }
    }
  }

  /** In every interleaving a user's committed XP is what the committed milestones and completed missions paid, no key has
      two rows, and a mission's progress is the number of its committed events, stopped at the target. */
  lemma ConcurrentLedgerIsConserved(missions: G.Missions, r: Run, user: G.UserId, mission: G.MissionId)
    requires Legal(missions, r) && user in Now(r).tables.users
    ensures var t := Now(r).tables;
      && G.Keyed(t)
      && t.users[user].xp == G.MilestoneXp(t.milestones, user) + G.MissionXp(missions, t.progress, user)
      && G.OnLevel(t.users[user].xp, t.users[user].level)
      && G.ProgressFits(missions, t, user, mission, G.Events(missions, Serial(r), user, mission))
  {
    InterleavingIsSerial(missions, r);
    G.EveryRunInv(missions, Serial(r));
    assert G.AccountFits(missions, Now(r).tables, user);
    G.LevelFits(Now(r).tables.users[user].xp, Now(r).tables.users[user].level);
    assert G.ProgressFits(missions, Now(r).tables, user, mission, G.Events(missions, Serial(r), user, mission));
  }

  // A transaction that nobody is in the way of goes through

  function After(missions: G.Missions, r: Run, step: Step): Run {
    Then(r, step, if Enabled(Now(r), step) then Apply(missions, Now(r), step) else Now(r))
  }

  function Statements(missions: G.Missions, r: Run, id: nat, n: nat): Run {
    if n == 0 then r else After(missions, Statements(missions, r, id, n - 1), Statement(id))
  }

  function Opened(missions: G.Missions, r: Run, id: nat, job: Job, n: nat): Run {
    Statements(missions, After(missions, r, Open(id, job)), id, n)
  }

  /** No other open transaction holds the job's key or its user's row. */
  predicate Free(s: State, id: nat, job: Job) {
    forall other | other in s.open && other != id :: {KeyOf(job), UserRow(UserOf(job))} !! Held(s.open[other])
  }

  /** The open transaction is all that differs from the run it was opened in. */
  predicate StandsAt(missions: G.Missions, r: Run, before: State, id: nat, job: Job, phase: Phase) {
    Legal(missions, r) && Now(r) == before.(open := before.open[id := Transaction(job, phase)])
  }

  lemma StatementTaken(missions: G.Missions, r: Run, before: State, id: nat, job: Job, phase: Phase)
    requires StandsAt(missions, r, before, id, job, phase) && Free(before, id, job) && HasStatement(Transaction(job, phase))
    ensures StandsAt(missions, After(missions, r, Statement(id)), before, id, job,
                     NextPhase(missions, before.tables, Transaction(job, phase)))
  {
    var x := Transaction(job, phase);
    assert Wanted(before.tables, x) <= {KeyOf(job), UserRow(UserOf(job))};
    assert Enabled(Now(r), Statement(id));
  }

  function PhaseAfter(missions: G.Missions, t: G.Tables, job: Job, n: nat): Phase {
    if n == 0 then Begun
    else
      var x := Transaction(job, PhaseAfter(missions, t, job, n - 1));
      if HasStatement(x) then NextPhase(missions, t, x) else x.phase
  }

  /** How many statements a transaction for this job takes. */
  function StatementCount(missions: G.Missions, t: G.Tables, job: Job): nat {
    if UserOf(job) !in t.users then 1
    else
      match job
      case Awarding(m) => if G.HasMilestone(t.milestones, m) then 1 else 2
      case Incrementing(user, mission) =>
        var row := RowNow(t, user, mission);
        if !row.completed && NextRow(missions, row).completed then 3 else 2
  }

  lemma EndsReady(missions: G.Missions, t: G.Tables, job: Job)
    ensures var n := StatementCount(missions, t, job); var x := Transaction(job, PhaseAfter(missions, t, job, n));
      && (if UserOf(job) in t.users then CanCommit(x) else x.phase == Refused)
      && (forall k: nat | k < n :: HasStatement(Transaction(job, PhaseAfter(missions, t, job, k))))
  {
    var n := StatementCount(missions, t, job);
    assert PhaseAfter(missions, t, job, 1) == NextPhase(missions, t, Transaction(job, Begun));
    if n > 1 {
      assert PhaseAfter(missions, t, job, 2) == NextPhase(missions, t, Transaction(job, PhaseAfter(missions, t, job, 1)));
    }
  }

  lemma {:induction false} StandsAfter(missions: G.Missions, r: Run, id: nat, job: Job, n: nat)
    requires Legal(missions, r) && id !in Now(r).open && Free(Now(r), id, job)
    requires n <= StatementCount(missions, Now(r).tables, job)
    ensures StandsAt(missions, Opened(missions, r, id, job, n), Now(r), id, job,
                     PhaseAfter(missions, Now(r).tables, job, n))
  {
    if n > 0 {
      StandsAfter(missions, r, id, job, n - 1);
      EndsReady(missions, Now(r).tables, job);
      StatementTaken(missions, Opened(missions, r, id, job, n - 1), Now(r), id, job,
                     PhaseAfter(missions, Now(r).tables, job, n - 1));
    }
  }

  function Whole(missions: G.Missions, r: Run, id: nat, job: Job): Run {
    After(missions, Opened(missions, r, id, job, StatementCount(missions, Now(r).tables, job)), Commit(id))
  }

  /** From every state of every run a transaction of a user that exists, whose key and user row no other open transaction
      holds, can run to its commit, and then has done at once what it is for, whatever else is open. */
  lemma GoesThrough(missions: G.Missions, r: Run, id: nat, job: Job)
    requires Legal(missions, r) && id !in Now(r).open && Free(Now(r), id, job) && UserOf(job) in Now(r).tables.users
    ensures var after := Whole(missions, r, id, job);
      && Legal(missions, after)
      && Now(after) == Now(r).(tables := G.Apply(missions, Now(r).tables, ActionOf(job)))
  {
    var n := StatementCount(missions, Now(r).tables, job);
    var last := Opened(missions, r, id, job, n);
    EndsReady(missions, Now(r).tables, job);
    StandsAfter(missions, r, id, job, n);
    InterleavingIsSerial(missions, last);
    CommitIsAtomic(missions, Now(r).tables, Now(last).open[id]);
    assert Now(last).open - {id} == Now(r).open;
  }
}
