/** The active-prompt lookup of one instance: rows in the database, an in-memory entry per feature type reused for
    a minute, and a generation counter that keeps a slow read from storing what an activation has replaced. */
module PromptCache {
  import opened Options

  const ACTIVE_PROMPT_CACHE_TTL_MS := 60_000

  datatype Prompt = Prompt(id: string, featureType: string, version: string,
                           systemTemplate: string, template: string, userInvocable: bool)

  datatype Row = Row(prompt: Prompt, isActive: bool)

  datatype ActivePromptEntry = ActivePromptEntry(prompt: Option<Prompt>, expiresAt: nat)

  // The rows

  /** The two updates of the activation transaction: the feature's active rows off, then the target on. */
  function ActivateRows(rows: map<string, Row>, id: string): map<string, Row> {
    if id !in rows then rows
    else
      var feature := rows[id].prompt.featureType;
      var off := map k | k in rows ::
          if rows[k].prompt.featureType == feature && rows[k].isActive then rows[k].(isActive := false) else rows[k];
      off[id := off[id].(isActive := true)]
  }

  /** `active` gives the one active prompt of each feature type that has one. */
  ghost predicate Represents(rows: map<string, Row>, active: map<string, Prompt>) {
    && (forall k | k in rows :: rows[k].prompt.id == k)
    && (forall f | f in active ::
          active[f].id in rows && rows[active[f].id] == Row(active[f], true) && active[f].featureType == f)
    && (forall k | k in rows && rows[k].isActive ::
          rows[k].prompt.featureType in active && active[rows[k].prompt.featureType].id == k)
  }

  /** An activation replaces the active prompt of one feature type and leaves every other one alone. */
  lemma ActivationReplacesOne(rows: map<string, Row>, active: map<string, Prompt>, id: string)
    requires Represents(rows, active) && id in rows
    ensures Represents(ActivateRows(rows, id), active[rows[id].prompt.featureType := rows[id].prompt])
  {
  }

  function Find(active: map<string, Prompt>, featureType: string): Option<Prompt> {
    if featureType in active then Some(active[featureType]) else None
  }

  // The object, one method per stretch of code between two waits

  datatype Cache = Cache(entries: map<string, ActivePromptEntry>, generation: nat)

  function Usable(c: Cache, featureType: string, now: nat): Option<ActivePromptEntry> {
    if featureType in c.entries && c.entries[featureType].expiresAt > now then Some(c.entries[featureType]) else None
  }

  /** An answer read under an older generation is not kept. */
  function Stored(c: Cache, featureType: string, prompt: Option<Prompt>, generation: nat, now: nat): Cache {
    if generation != c.generation then c
    else c.(entries := c.entries[featureType := ActivePromptEntry(prompt, now + ACTIVE_PROMPT_CACHE_TTL_MS)])
  }

  function Cleared(c: Cache): Cache {
    Cache(map[], c.generation + 1)
  }

  class ActivePromptCache {
    var activeCache: map<string, ActivePromptEntry>
    var cacheGeneration: nat

    function Contents(): Cache
      reads this
    {
      Cache(activeCache, cacheGeneration)
    }

    constructor ()
      ensures Contents() == Cache(map[], 0)
    {
      activeCache, cacheGeneration := map[], 0;
    }

    /** Before the query: a usable entry, or the generation the query starts under. */
    method BeginLookup(featureType: string, now: nat) returns (hit: Option<ActivePromptEntry>, generation: nat)
      ensures hit == Usable(Contents(), featureType, now) && generation == Contents().generation
      ensures hit.Some? <==> featureType in activeCache && now < activeCache[featureType].expiresAt
      ensures hit.Some? ==> hit.value == activeCache[featureType]
    {
      hit, generation := None, cacheGeneration;
      if featureType in activeCache && activeCache[featureType].expiresAt > now {
        hit := Some(activeCache[featureType]);
      }
    }

    /** After the query. */
    method FinishLookup(featureType: string, prompt: Option<Prompt>, generation: nat, now: nat)
      modifies this
      ensures Contents() == Stored(old(Contents()), featureType, prompt, generation, now)
      ensures cacheGeneration == old(cacheGeneration)
      ensures activeCache == if generation == cacheGeneration
                             then old(activeCache)[featureType := ActivePromptEntry(prompt, now + 60_000)]
                             else old(activeCache)
    {
      if generation == cacheGeneration {
        activeCache := activeCache[featureType := ActivePromptEntry(prompt, now + ACTIVE_PROMPT_CACHE_TTL_MS)];
      }
    }

    method ClearActiveCache()
      modifies this
      ensures Contents() == Cleared(old(Contents()))
      ensures activeCache == map[] && cacheGeneration == old(cacheGeneration) + 1
    {
      cacheGeneration := cacheGeneration + 1;
      activeCache := map[];
    }
  }

  // All interleavings

  /** `asOf` is the number of commits the value was read after; `since` the number of commits already cleared
      when the lookup started. Both only serve the statements below. */
  datatype Lookup =
    | Querying(featureType: string, generation: nat, since: nat)
    | Queried(featureType: string, generation: nat, since: nat, prompt: Option<Prompt>, asOf: nat)
    | Answered(featureType: string, since: nat, prompt: Option<Prompt>, asOf: nat)
    | LookupFailed

  datatype Activation = Activating(id: string) | Committed(number: nat) | Done(number: nat) | RolledBack

  /** `history[n]` is the active prompt per feature type after n commits; `cleared` counts the commits followed by
      a cache clear; `asOf` says for each cached entry which history it was read from. */
  datatype State = State(
    rows: map<string, Row>,
    history: seq<map<string, Prompt>>,
    cache: Cache,
    asOf: map<string, nat>,
    cleared: nat,
    clock: nat,
    lookups: map<nat, Lookup>,
    activations: map<nat, Activation>)

  datatype Action =
    | StartLookup(i: nat, featureType: string)
    | Query(i: nat)
    | StoreAnswer(i: nat)
    | FailLookup(i: nat)
    | StartActivation(i: nat, id: string)
    | Commit(i: nat)
    | RollBack(i: nat)
    | Clear(i: nat)
    | CreatePrompt(prompt: Prompt)
    | Tick

  function Commits(s: State): nat {
    if |s.history| == 0 then 0 else |s.history| - 1
  }

  /** What the database holds now. */
  function Current(s: State): map<string, Prompt> {
    if s.history == [] then map[] else s.history[|s.history| - 1]
  }

  predicate Enabled(s: State, a: Action) {
    match a
    case StartLookup(i, _) => i !in s.lookups
    case Query(i) => i in s.lookups && s.lookups[i].Querying?
    case StoreAnswer(i) => i in s.lookups && s.lookups[i].Queried?
    case FailLookup(i) => i in s.lookups && s.lookups[i].Querying?
    case StartActivation(i, _) => i !in s.activations
    case Commit(i) => i in s.activations && s.activations[i].Activating? && s.activations[i].id in s.rows
    case RollBack(i) => i in s.activations && s.activations[i].Activating?
    case Clear(i) => i in s.activations && s.activations[i].Committed?
    case CreatePrompt(p) => p.id !in s.rows
    case Tick => true
  }

  function Apply(s: State, a: Action): State
    requires Enabled(s, a)
  {
    match a
    case StartLookup(i, f) =>
      var hit := Usable(s.cache, f, s.clock);
      s.(lookups := s.lookups[i :=
           if hit.Some? then Answered(f, s.cleared, hit.value.prompt, if f in s.asOf then s.asOf[f] else 0)
                                   else Querying(f, s.cache.generation, s.cleared)])
    case Query(i) =>
      var l := s.lookups[i];
      s.(lookups := s.lookups[i := Queried(l.featureType, l.generation, l.since,
                                           Find(Current(s), l.featureType), Commits(s))])
    case StoreAnswer(i) =>
      var l := s.lookups[i];
      s.(lookups := s.lookups[i := Answered(l.featureType, l.since, l.prompt, l.asOf)],
         cache := Stored(s.cache, l.featureType, l.prompt, l.generation, s.clock),
         asOf := if l.generation == s.cache.generation then s.asOf[l.featureType := l.asOf] else s.asOf)
    case FailLookup(i) => s.(lookups := s.lookups[i := LookupFailed])
    case StartActivation(i, id) => s.(activations := s.activations[i := Activating(id)])
    case Commit(i) =>
      var prompt := s.rows[s.activations[i].id].prompt;
      s.(rows := ActivateRows(s.rows, s.activations[i].id),
         history := s.history + [Current(s)[prompt.featureType := prompt]],
         activations := s.activations[i := Committed(Commits(s) + 1)])
    case RollBack(i) => s.(activations := s.activations[i := RolledBack])
    case Clear(i) =>
      s.(cache := Cleared(s.cache), asOf := map[], cleared := Commits(s),
         activations := s.activations[i := Done(s.activations[i].number)])
    case CreatePrompt(p) => s.(rows := s.rows[p.id := Row(p, false)])
    case Tick => s.(clock := s.clock + 1)
  }

  // The invariant

  predicate LookupInv(s: State, l: Lookup) {
    match l
    case Querying(_, generation, since) => generation <= s.cache.generation && since <= s.cleared
    case Queried(f, generation, since, prompt, asOf) =>
      && generation <= s.cache.generation && since <= asOf < |s.history|
      && prompt == Find(s.history[asOf], f)
      && (generation == s.cache.generation ==> s.cleared <= asOf)
    case Answered(f, since, prompt, asOf) => since <= asOf < |s.history| && prompt == Find(s.history[asOf], f)
    case LookupFailed => true
  }

  predicate ActivationInv(s: State, a: Activation) {
    match a
    case Committed(n) => n < |s.history|
    case Done(n) => n <= s.cleared
    case _ => true
  }

  /** The activation of commit `n` has not cleared the cache yet. */
  ghost predicate Uncleared(activations: map<nat, Activation>, n: nat) {
    exists i :: i in activations && activations[i] == Committed(n)
  }

  ghost predicate Inv(s: State) {
    && s.cleared < |s.history|
    && Represents(s.rows, Current(s))
    && s.asOf.Keys == s.cache.entries.Keys
    && (forall f | f in s.cache.entries ::
          s.cleared <= s.asOf[f] < |s.history| && s.cache.entries[f].prompt == Find(s.history[s.asOf[f]], f))
    && (forall i | i in s.lookups :: LookupInv(s, s.lookups[i]))
    && (forall i | i in s.activations :: ActivationInv(s, s.activations[i]))
    && (forall n | s.cleared < n < |s.history| :: Uncleared(s.activations, n))
  }

  ghost predicate Init(s: State) {
    && |s.history| == 1 && Represents(s.rows, s.history[0])
    && s.cache.entries == map[] && s.asOf == map[] && s.cleared == 0 && s.lookups == map[] && s.activations == map[]
  }

  /** A step that moves one lookup and nothing else. */
  lemma LookupMoved(s: State, t: State, i: nat)
    requires Inv(s) && i in t.lookups && t == s.(lookups := s.lookups[i := t.lookups[i]]) && LookupInv(s, t.lookups[i])
    ensures Inv(t)
  {
    forall k | k in t.lookups
      ensures LookupInv(t, t.lookups[k])
    {
      assert k != i ==> LookupInv(s, s.lookups[k]);
    }
  }

  lemma LookupStepKeepsInv(s: State, a: Action)
    requires Inv(s) && Enabled(s, a) && (a.StartLookup? || a.Query? || a.FailLookup?)
    ensures Inv(Apply(s, a))
  {
    var t := Apply(s, a);
    if a.Query? {
      assert LookupInv(s, s.lookups[a.i]);
    }
    assert t == s.(lookups := s.lookups[a.i := t.lookups[a.i]]);
    assert LookupInv(s, t.lookups[a.i]);
    LookupMoved(s, t, a.i);
  }

  lemma StoreKeepsInv(s: State, i: nat)
    requires Inv(s) && Enabled(s, StoreAnswer(i))
    ensures Inv(Apply(s, StoreAnswer(i)))
  {
    var t := Apply(s, StoreAnswer(i));
    var l := s.lookups[i];
    assert LookupInv(s, l);
    assert t.activations == s.activations && t.history == s.history && t.rows == s.rows && t.cleared == s.cleared;
    assert t.lookups == s.lookups[i := Answered(l.featureType, l.since, l.prompt, l.asOf)];
    forall k | k in t.lookups ensures LookupInv(t, t.lookups[k]) {
      assert k != i ==> LookupInv(s, s.lookups[k]);
    }
    assert Represents(t.rows, Current(t));
  }

  lemma CommitKeepsInv(s: State, i: nat)
    requires Inv(s) && Enabled(s, Commit(i))
    ensures Inv(Apply(s, Commit(i)))
  {
    var t := Apply(s, Commit(i));
    var id := s.activations[i].id;
    assert forall n | 0 <= n < |s.history| :: t.history[n] == s.history[n];
    ActivationReplacesOne(s.rows, Current(s), id);
    forall k | k in t.lookups ensures LookupInv(t, t.lookups[k]) {
      assert LookupInv(s, s.lookups[k]);
    }
    forall n | t.cleared < n < |t.history| ensures Uncleared(t.activations, n) {
      if n == Commits(s) + 1 {
        assert t.activations[i] == Committed(n);
      } else {
        UnclearedKept(s.activations, i, Committed(Commits(s) + 1), n);
      }
    }
  }

  /** Moving an activation that has not committed leaves every uncleared commit uncleared. */
  lemma UnclearedKept(activations: map<nat, Activation>, i: nat, a: Activation, n: nat)
    requires Uncleared(activations, n) && (i in activations ==> !activations[i].Committed?)
    ensures Uncleared(activations[i := a], n)
  {
    var k :| k in activations && activations[k] == Committed(n);
    assert activations[i := a][k] == Committed(n);
  }

  lemma ClearKeepsInv(s: State, i: nat)
    requires Inv(s) && Enabled(s, Clear(i))
    ensures Inv(Apply(s, Clear(i)))
  {
    var t := Apply(s, Clear(i));
    forall k | k in t.lookups ensures LookupInv(t, t.lookups[k]) {
      assert LookupInv(s, s.lookups[k]);
    }
    forall k | k in t.activations ensures ActivationInv(t, t.activations[k]) {
      assert ActivationInv(s, s.activations[k]);
    }
  }

  lemma CreatedRepresents(rows: map<string, Row>, active: map<string, Prompt>, p: Prompt)
    requires Represents(rows, active) && p.id !in rows
    ensures Represents(rows[p.id := Row(p, false)], active)
  {
  }

  lemma CreateKeepsInv(s: State, p: Prompt)
    requires Inv(s) && Enabled(s, CreatePrompt(p))
    ensures Inv(Apply(s, CreatePrompt(p)))
  {
    var t := Apply(s, CreatePrompt(p));
    CreatedRepresents(s.rows, Current(s), p);
    assert t == s.(rows := t.rows) && Current(t) == Current(s);
    forall k | k in t.lookups
      ensures LookupInv(t, t.lookups[k])
    {
      assert LookupInv(s, s.lookups[k]);
    }
    forall k | k in t.activations
      ensures ActivationInv(t, t.activations[k])
    {
      assert ActivationInv(s, s.activations[k]);
    }
  }

  lemma OpenOrAbandonKeepsInv(s: State, a: Action)
    requires Inv(s) && Enabled(s, a) && (a.StartActivation? || a.RollBack?)
    ensures Inv(Apply(s, a))
  {
    var t := Apply(s, a);
    forall n | t.cleared < n < |t.history| ensures Uncleared(t.activations, n) {
      UnclearedKept(s.activations, a.i, t.activations[a.i], n);
    }
  }

  lemma ActionKeepsInv(s: State, a: Action)
    requires Inv(s) && Enabled(s, a)
    ensures Inv(Apply(s, a))
  {
    match a
    case StartLookup(_, _) => LookupStepKeepsInv(s, a);
    case Query(_) => LookupStepKeepsInv(s, a);
    case FailLookup(_) => LookupStepKeepsInv(s, a);
    case StoreAnswer(i) => StoreKeepsInv(s, i);
    case StartActivation(_, _) => OpenOrAbandonKeepsInv(s, a);
    case RollBack(_) => OpenOrAbandonKeepsInv(s, a);
    case Commit(i) => CommitKeepsInv(s, i);
    case Clear(i) => ClearKeepsInv(s, i);
    case CreatePrompt(p) => CreateKeepsInv(s, p);
    case Tick => assert Apply(s, a) == s.(clock := s.clock + 1);
  }

  // Runs

  datatype Run = Begin(state: State) | Then(before: Run, action: Action, state: State)

  /** Each state of the run follows from the one before it by an enabled action. */
  ghost predicate Legal(r: Run) {
    match r
    case Begin(s) => Init(s)
    case Then(before, a, s) =>
      Legal(before) && Enabled(before.state, a) && s == Apply(before.state, a)
  }

  lemma {:induction false} EveryRunInv(r: Run)
    requires Legal(r)
    ensures Inv(r.state)
  {
    if r.Then? {
      EveryRunInv(r.before);
      ActionKeepsInv(r.before.state, r.action);
    }
  }

  ghost predicate AllCleared(s: State) {
    forall i | i in s.activations :: !s.activations[i].Committed?
  }

  lemma NothingUncleared(s: State)
    requires Inv(s) && AllCleared(s)
    ensures s.cleared == Commits(s)
  {
    assert s.cleared < Commits(s) ==> Uncleared(s.activations, Commits(s));
  }

  /** The prompt of the one active row of the feature type, or none when no row of it is active. */
  predicate IsActive(rows: map<string, Row>, featureType: string, prompt: Option<Prompt>) {
    && (prompt.Some? ==> prompt.value.id in rows && rows[prompt.value.id] == Row(prompt.value, true))
    && (forall k | k in rows && rows[k].isActive && rows[k].prompt.featureType == featureType ::
          prompt == Some(rows[k].prompt))
    && (prompt.Some? ==> prompt.value.featureType == featureType)
  }

  lemma FoundIsActive(rows: map<string, Row>, active: map<string, Prompt>, featureType: string)
    requires Represents(rows, active)
    ensures IsActive(rows, featureType, Find(active, featureType))
  {
  }

  /** Whenever no activation is between its commit and its cache clear, every cache entry, "no active prompt"
      included, is what the database holds: the active prompt of the rows. */
  lemma CacheAgreesWithDatabase(r: Run)
    requires Legal(r) && AllCleared(r.state)
    ensures Represents(r.state.rows, Current(r.state))
    ensures forall f | f in r.state.cache.entries :: IsActive(r.state.rows, f, r.state.cache.entries[f].prompt)
  {
    EveryRunInv(r);
    var s := r.state;
    NothingUncleared(s);
    forall f | f in s.cache.entries ensures IsActive(s.rows, f, s.cache.entries[f].prompt) {
      assert s.asOf[f] == Commits(s);
      FoundIsActive(s.rows, Current(s), f);
    }
  }

  predicate Continues(later: Run, earlier: Run) {
    later == earlier || (later.Then? && Continues(later.before, earlier))
  }

  lemma ClearedStep(s: State, a: Action)
    requires Inv(s) && Enabled(s, a)
    ensures s.cleared <= Apply(s, a).cleared
    ensures forall i | i in Apply(s, a).lookups :: i in s.lookups || a == StartLookup(i, a.featureType)
    ensures a.StartLookup? ==> var l := Apply(s, a).lookups[a.i]; !l.LookupFailed? && l.since == s.cleared
    ensures forall i | i in s.lookups :: !Apply(s, a).lookups[i].LookupFailed? ==>
      !s.lookups[i].LookupFailed? && Apply(s, a).lookups[i].since == s.lookups[i].since
  {
  }

  /** Commits once cleared stay cleared, and a lookup that starts later starts with at least as many cleared. */
  lemma {:induction false} LaterLookup(earlier: Run, later: Run, i: nat)
    requires Legal(later) && Continues(later, earlier)
    ensures Legal(earlier) && earlier.state.cleared <= later.state.cleared
    ensures i !in earlier.state.lookups && i in later.state.lookups && !later.state.lookups[i].LookupFailed?
      ==> earlier.state.cleared <= later.state.lookups[i].since
  {
    if later != earlier {
      LaterLookup(earlier, later.before, i);
      EveryRunInv(later.before);
      ClearedStep(later.before.state, later.action);
    }
  }

  /** A lookup started after `activate` returned for commit `n` answers with a prompt that was active after commit
      `n` or a later one: the prompt that commit replaced is never served again. */
  lemma LookupAfterActivationIsFresh(earlier: Run, later: Run, a: nat, i: nat)
    requires Legal(later) && Continues(later, earlier)
    requires a in earlier.state.activations && earlier.state.activations[a].Done?
    requires i !in earlier.state.lookups && i in later.state.lookups && later.state.lookups[i].Answered?
    ensures var l, h, n := later.state.lookups[i], later.state.history, earlier.state.activations[a].number;
      && n <= l.asOf < |h|
      && l.prompt == if l.featureType in h[l.asOf] then Some(h[l.asOf][l.featureType]) else None
  {
    EveryRunInv(later);
    LaterLookup(earlier, later, i);
    EveryRunInv(earlier);
    assert ActivationInv(earlier.state, earlier.state.activations[a]);
    assert LookupInv(later.state, later.state.lookups[i]);
  }

  // When a lookup is answered without a query

  /** How often the cache has been cleared. */
  function Clears(r: Run): nat {
    match r
    case Begin(_) => 0
    case Then(before, a, _) => Clears(before) + if a.Clear? then 1 else 0
  }

  /** How often it had been cleared when the lookup began. */
  function BegunAt(r: Run, i: nat): Option<nat> {
    match r
    case Begin(_) => None
    case Then(before, a, _) => if a.StartLookup? && a.i == i then Some(Clears(before)) else BegunAt(before, i)
  }

  /** An answer and when it was stored. */
  datatype Kept = Kept(prompt: Option<Prompt>, at: nat)

  /** The lookup has queried this feature type, and the cache was not cleared since it began. */
  predicate Keeps(r: Run, a: Action, featureType: string) {
    && a.StoreAnswer? && a.i in r.state.lookups && r.state.lookups[a.i].Queried?
    && r.state.lookups[a.i].featureType == featureType && BegunAt(r, a.i) == Some(Clears(r))
  }

  /** The last answer stored for a feature type since the cache was last cleared. */
  function LastKept(r: Run, featureType: string): Option<Kept> {
    match r
    case Begin(_) => None
    case Then(before, a, _) =>
      if a.Clear? then None
      else if Keeps(before, a, featureType) then Some(Kept(before.state.lookups[a.i].prompt, before.state.clock))
      else LastKept(before, featureType)
  }

  function FirstGeneration(r: Run): nat {
    match r
    case Begin(s) => s.cache.generation
    case Then(before, _, _) => FirstGeneration(before)
  }

  /** The generation counts the clears, and a lookup under way remembers how many there were when it began. */
  lemma {:induction false} GenerationCounts(r: Run)
    requires Legal(r)
    ensures r.state.cache.generation == FirstGeneration(r) + Clears(r)
    ensures forall i | i in r.state.lookups && (r.state.lookups[i].Querying? || r.state.lookups[i].Queried?) ::
      BegunAt(r, i).Some? && r.state.lookups[i].generation == FirstGeneration(r) + BegunAt(r, i).value
  {
    if r.Then? {
      GenerationCounts(r.before);
      var s, t := r.before.state, r.state;
      assert t.cache.generation == s.cache.generation + if r.action.Clear? then 1 else 0;
      forall i | i in t.lookups && (t.lookups[i].Querying? || t.lookups[i].Queried?)
        ensures BegunAt(r, i).Some? && t.lookups[i].generation == FirstGeneration(r) + BegunAt(r, i).value
      {
        UnderWay(s, r.action, i);
      }
    }
  }

  /** A lookup under way has just begun, or was under way with the same generation. */
  lemma UnderWay(s: State, a: Action, i: nat)
    requires Enabled(s, a) && i in Apply(s, a).lookups
    requires var l := Apply(s, a).lookups[i]; l.Querying? || l.Queried?
    ensures var l := Apply(s, a).lookups[i];
      if a.StartLookup? && a.i == i then l.generation == s.cache.generation
      else i in s.lookups && (s.lookups[i].Querying? || s.lookups[i].Queried?) && s.lookups[i].generation == l.generation
  {
  }

  /** What the cache holds is what was last kept, for a minute. */
  predicate Holds(c: Cache, featureType: string, kept: Option<Kept>) {
    if featureType in c.entries then
      kept.Some? && c.entries[featureType] == ActivePromptEntry(kept.value.prompt, kept.value.at + 60_000)
    else kept.None?
  }

  /** Only a clear and an answer under the current generation change what is held. */
  lemma CacheAfter(s: State, a: Action)
    requires Enabled(s, a)
    ensures Apply(s, a).cache ==
      if a.Clear? then Cache(map[], s.cache.generation + 1)
      else if a.StoreAnswer? && s.lookups[a.i].generation == s.cache.generation then
        s.cache.(entries := s.cache.entries[s.lookups[a.i].featureType :=
                                              ActivePromptEntry(s.lookups[a.i].prompt, s.clock + 60_000)])
      else s.cache
  {
  }

  lemma {:induction false} CacheHoldsKept(r: Run, featureType: string)
    requires Legal(r)
    ensures Holds(r.state.cache, featureType, LastKept(r, featureType))
  {
    if r.Then? {
      CacheHoldsKept(r.before, featureType);
      GenerationCounts(r.before);
      CacheAfter(r.before.state, r.action);
    }
  }

  /** In every run: a lookup is answered without a query exactly when an answer for its feature type was stored less than
      60 seconds before and the cache was not cleared since, and then with that answer. */
  lemma AnsweredFromCacheExactly(r: Run, i: nat, featureType: string)
    requires Legal(r) && Enabled(r.state, StartLookup(i, featureType))
    ensures var l, kept := Apply(r.state, StartLookup(i, featureType)).lookups[i], LastKept(r, featureType);
      if kept.Some? && r.state.clock < kept.value.at + 60_000 then
        l.Answered? && l.featureType == featureType && l.prompt == kept.value.prompt
      else l.Querying? && l.featureType == featureType
  {
    CacheHoldsKept(r, featureType);
  }

  // An activation and the lookup after it

  function After(r: Run, a: Action): Run {
    Then(r, a, if Enabled(r.state, a) then Apply(r.state, a) else r.state)
  }

  function Activated(r: Run, a: nat, id: string): Run {
    After(After(After(r, StartActivation(a, id)), Commit(a)), Clear(a))
  }

  function LookedUp(r: Run, i: nat, featureType: string): Run {
    After(After(After(r, StartLookup(i, featureType)), Query(i)), StoreAnswer(i))
  }

  /** The prompt's row is the only active one of its feature type, and all other rows are as they were. */
  predicate OnlyActive(before: map<string, Row>, after: map<string, Row>, id: string) {
    && after.Keys == before.Keys && id in before
    && forall k | k in before ::
         && after[k].prompt == before[k].prompt
         && (after[k].isActive <==>
               k == id || (before[k].isActive && before[k].prompt.featureType != before[id].prompt.featureType))
  }

  lemma ActivationRuns(r: Run, a: nat, id: string)
    requires Legal(r) && a !in r.state.activations && id in r.state.rows
    ensures var after := Activated(r, a, id);
      && Legal(after) && after.state.cache.entries == map[] && after.state.clock == r.state.clock
      && after.state.lookups == r.state.lookups && OnlyActive(r.state.rows, after.state.rows, id)
      && Find(Current(after.state), r.state.rows[id].prompt.featureType) == Some(r.state.rows[id].prompt)
  {
    var committed := After(After(r, StartActivation(a, id)), Commit(a));
    assert Legal(committed);
  }

  /** A lookup that finds nothing usable asks the database and keeps the answer. */
  lemma LookupRuns(r: Run, i: nat, featureType: string)
    requires Legal(r) && i !in r.state.lookups && Usable(r.state.cache, featureType, r.state.clock).None?
    ensures var after, found := LookedUp(r, i, featureType), Find(Current(r.state), featureType);
      && Legal(after) && i in after.state.lookups && after.state.lookups[i].Answered?
      && after.state.lookups[i].prompt == found && after.state.rows == r.state.rows
      && LastKept(after, featureType) == Some(Kept(found, r.state.clock))
  {
    var begun := After(r, StartLookup(i, featureType));
    var queried := After(begun, Query(i));
    assert Legal(queried) && queried.state.lookups[i].Queried?;
    assert Keeps(queried, StoreAnswer(i), featureType);
  }

  /** From every state of every run a prompt can be activated, is then the only active one of its feature type, and is what
      the next lookup answers with and keeps for the lookups of the next minute. */
  lemma ActivatedIsServed(r: Run, a: nat, id: string, i: nat)
    requires Legal(r) && a !in r.state.activations && id in r.state.rows && i !in r.state.lookups
    ensures var p := r.state.rows[id].prompt; var after := LookedUp(Activated(r, a, id), i, p.featureType);
      && Legal(after) && OnlyActive(r.state.rows, after.state.rows, id)
      && i in after.state.lookups && after.state.lookups[i].Answered? && after.state.lookups[i].prompt == Some(p)
      && LastKept(after, p.featureType) == Some(Kept(Some(p), r.state.clock))
  {
    ActivationRuns(r, a, id);
    LookupRuns(Activated(r, a, id), i, r.state.rows[id].prompt.featureType);
  }
}
