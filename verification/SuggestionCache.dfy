/** `GenerateSuggestionUseCase.execute` and the cache of validated suggestions it shares with other requests. */
module SuggestionCache {
  import opened Utf16
  import opened Options
  import opened CacheKeys

  const MAX_SUGGESTED_TEXT_CHARS := 100000

  /** What the leak check compares an output with. */
  datatype Leak = Leak(nonce: Text, system: Text, source: Text)

  /** `leaksPrompt`: any test of an output against a request's prompt. */
  type LeakTest = (Text, Leak) -> bool

  datatype Suggestion = Suggestion(text: Text, model: Option<Text>)

  /** `assertValidOutput`. */
  predicate Acceptable(leaks: LeakTest, s: Suggestion, leak: Leak) {
    Trim(s.text) != [] && |s.text| <= MAX_SUGGESTED_TEXT_CHARS && !leaks(s.text, leak)
  }

  /** An output passes when something of it is not white space, it is not over the limit, and it leaks nothing. */
  lemma AcceptableExactly(leaks: LeakTest, s: Suggestion, leak: Leak)
    ensures Acceptable(leaks, s, leak) <==>
      && (exists i :: 0 <= i < |s.text| && !IsSpace(s.text[i])) && |s.text| <= 100_000 && !leaks(s.text, leak)
  {
    TrimmedAway(s.text);
  }

  lemma TrimmedAway(s: Text)
    ensures Trim(s) == [] <==> forall i | 0 <= i < |s| :: IsSpace(s[i])
  {
  }

  datatype Request = Request(key: KeyInput, leak: Leak)

  /** What a request is checked by and keyed by. The steps only apply the two; `Real` is the use case's own pair. */
  datatype World = World(check: (Suggestion, Leak) -> bool, keyOf: KeyInput -> Digest)

  function Real(leaks: LeakTest): World {
    World((s: Suggestion, leak: Leak) => Acceptable(leaks, s, leak), (k: KeyInput) => CacheKey(k))
  }

  /** A created row; `seen` counts the stored outputs at the time the cache answered. */
  datatype Row = Row(request: Request, value: Suggestion, fromCache: bool, seen: nat)

  /** A request after the checks that come before the cache: what it has done so far. */
  datatype Call =
    | Asked(request: Request)
    | Looked(request: Request, entry: Option<Suggestion>, seen: nat)
    | Generated(request: Request, value: Suggestion)
    | Ready(request: Request, value: Suggestion, fromCache: bool, seen: nat)
    | Finished(request: Request)

  /** An output that passed its request's check and went to the cache. */
  datatype Stored = Stored(request: Request, value: Suggestion)

  datatype State = State(calls: map<nat, Call>, cache: map<Digest, Suggestion>, stored: seq<Stored>, rows: seq<Row>)

  /** One atomic step of one request, or of time. A lookup that fails, finds nothing or finds an entry it cannot read
      is a miss; a write that fails changes nothing. `Generate(_, None)` is any failure of the generator. */
  datatype Action =
    | Ask(id: nat, request: Request)
    | Get(id: nat, readable: bool)
    | UseEntry(id: nat)
    | Generate(id: nat, output: Option<Suggestion>)
    | Store(id: nat, writable: bool)
    | Create(id: nat)
    | Expire(key: Digest)

  /** The entry a lookup found is good enough for this request. */
  predicate Serves(w: World, call: Call) {
    call.Looked? && call.entry.Some? && w.check(call.entry.value, call.request.leak)
  }

  predicate Enabled(w: World, s: State, a: Action) {
    match a
    case Ask(id, _) => id !in s.calls
    case Get(id, _) => id in s.calls && s.calls[id].Asked?
    case UseEntry(id) => id in s.calls && Serves(w, s.calls[id])
    case Generate(id, _) => id in s.calls && s.calls[id].Looked? && !Serves(w, s.calls[id])
    case Store(id, _) => id in s.calls && s.calls[id].Generated?
    case Create(id) => id in s.calls && s.calls[id].Ready?
    case Expire(_) => true
  }

  /** The call after the step. */
  function StepCall(w: World, s: State, a: Action): Call
    requires Enabled(w, s, a) && !a.Expire?
  {
    match a
    case Ask(_, request) => Asked(request)
    case Get(id, readable) =>
      var request := s.calls[id].request;
      var key := w.keyOf(request.key);
      Looked(request, if readable && key in s.cache then Some(s.cache[key]) else None, |s.stored|)
    case UseEntry(id) => Ready(s.calls[id].request, s.calls[id].entry.value, true, s.calls[id].seen)
    case Generate(id, output) =>
      var request := s.calls[id].request;
      if output.Some? && w.check(output.value, request.leak) then Generated(request, output.value)
      else Finished(request)
    case Store(id, _) => Ready(s.calls[id].request, s.calls[id].value, false, |s.stored|)
    case Create(id) => Finished(s.calls[id].request)
  }

  function Apply(w: World, s: State, a: Action): State
    requires Enabled(w, s, a)
  {
    if a.Expire? then s.(cache := s.cache - {a.key})
    else
      var next := s.(calls := s.calls[a.id := StepCall(w, s, a)]);
      match a
      case Store(id, writable) =>
        if !writable then next
        else
          var call := s.calls[id];
          next.(cache := s.cache[w.keyOf(call.request.key) := call.value],
                stored := s.stored + [Stored(call.request, call.value)])
      case Create(id) =>
        var call := s.calls[id];
        next.(rows := s.rows + [Row(call.request, call.value, call.fromCache, call.seen)])
      case _ => next
  }

  datatype Run = Begin | Then(before: Run, action: Action)

  function End(w: World, r: Run): State
    requires Legal(w, r)
    decreases r, 1
  {
    match r
    case Begin => State(map[], map[], [], [])
    case Then(before, action) => Apply(w, End(w, before), action)
  }

  predicate Legal(w: World, r: Run)
    decreases r, 0
  {
    r.Then? ==> Legal(w, r.before) && Enabled(w, End(w, r.before), r.action)
  }

  // The invariant

  /** One of the first `seen` stored outputs has this key and this value. */
  predicate Backed(w: World, stored: seq<Stored>, seen: nat, key: Digest, value: Suggestion) {
    seen <= |stored| && exists i :: 0 <= i < seen && w.keyOf(stored[i].request.key) == key && stored[i].value == value
  }

  predicate CallInv(w: World, stored: seq<Stored>, c: Call) {
    match c
    case Looked(request, entry, seen) => entry.Some? ==> Backed(w, stored, seen, w.keyOf(request.key), entry.value)
    case Generated(request, value) => w.check(value, request.leak)
    case Ready(request, value, fromCache, seen) =>
      w.check(value, request.leak) && (fromCache ==> Backed(w, stored, seen, w.keyOf(request.key), value))
    case _ => true
  }

  predicate RowInv(w: World, stored: seq<Stored>, r: Row) {
    && w.check(r.value, r.request.leak)
    && (r.fromCache ==> Backed(w, stored, r.seen, w.keyOf(r.request.key), r.value))
  }

  ghost predicate Inv(w: World, s: State) {
    && (forall k | k in s.cache :: Backed(w, s.stored, |s.stored|, k, s.cache[k]))
    && (forall i | 0 <= i < |s.stored| :: w.check(s.stored[i].value, s.stored[i].request.leak))
    && (forall id | id in s.calls :: CallInv(w, s.stored, s.calls[id]))
    && (forall i | 0 <= i < |s.rows| :: RowInv(w, s.stored, s.rows[i]))
  }

  lemma StillBacked(w: World, stored: seq<Stored>, more: Stored, seen: nat, key: Digest, value: Suggestion)
    requires Backed(w, stored, seen, key, value)
    ensures Backed(w, stored + [more], seen, key, value) && Backed(w, stored + [more], |stored| + 1, key, value)
  {
    var i :| 0 <= i < seen && w.keyOf(stored[i].request.key) == key && stored[i].value == value;
    assert (stored + [more])[i] == stored[i];
  }

  lemma StoreKeepsInv(w: World, s: State, id: nat, writable: bool)
    requires Inv(w, s) && Enabled(w, s, Store(id, writable))
    ensures Inv(w, Apply(w, s, Store(id, writable)))
  {
    var next := Apply(w, s, Store(id, writable));
    if writable {
      var call := s.calls[id];
      var more := Stored(call.request, call.value);
      var key := w.keyOf(call.request.key);
      assert next.stored[|s.stored|] == more;
      assert Backed(w, next.stored, |next.stored|, key, call.value);
      forall k | k in next.cache
        ensures Backed(w, next.stored, |next.stored|, k, next.cache[k])
      {
        if k != key { StillBacked(w, s.stored, more, |s.stored|, k, s.cache[k]); }
      }
      forall i | i in next.calls
        ensures CallInv(w, next.stored, next.calls[i])
      {
        if i != id { CallStays(w, s.stored, more, s.calls[i]); }
      }
      forall i | 0 <= i < |next.rows|
        ensures RowInv(w, next.stored, next.rows[i])
      {
        RowStays(w, s.stored, more, s.rows[i]);
      }
    }
  }

  lemma CallStays(w: World, stored: seq<Stored>, more: Stored, c: Call)
    requires CallInv(w, stored, c)
    ensures CallInv(w, stored + [more], c)
  {
    if c.Looked? && c.entry.Some? {
      StillBacked(w, stored, more, c.seen, w.keyOf(c.request.key), c.entry.value);
    } else if c.Ready? && c.fromCache {
      StillBacked(w, stored, more, c.seen, w.keyOf(c.request.key), c.value);
    }
  }

  lemma RowStays(w: World, stored: seq<Stored>, more: Stored, r: Row)
    requires RowInv(w, stored, r)
    ensures RowInv(w, stored + [more], r)
  {
    if r.fromCache {
      StillBacked(w, stored, more, r.seen, w.keyOf(r.request.key), r.value);
    }
  }

  lemma CallStepKeepsInv(w: World, s: State, a: Action)
    requires Inv(w, s) && Enabled(w, s, a) && !a.Store? && !a.Expire?
    ensures Inv(w, Apply(w, s, a))
  {
  }

  /** Every step keeps the invariant. */
  lemma NextKeepsInv(w: World, s: State, a: Action)
    requires Inv(w, s) && Enabled(w, s, a)
    ensures Inv(w, Apply(w, s, a))
  {
    match a
    case Store(id, writable) => StoreKeepsInv(w, s, id, writable);
    case Expire(_) =>
    case _ => CallStepKeepsInv(w, s, a);
  }

  lemma {:induction false} EveryRunInv(w: World, r: Run)
    requires Legal(w, r)
    ensures Inv(w, End(w, r))
  {
    if r.Then? {
      EveryRunInv(w, r.before);
      NextKeepsInv(w, End(w, r.before), r.action);
    }
  }

  /** An output of a request with the same six fields, checked and stored before the row's lookup. */
  predicate EarlierOutput(w: World, stored: seq<Stored>, row: Row) {
    && row.seen <= |stored|
    && exists j :: 0 <= j < row.seen && stored[j].request.key == row.request.key && stored[j].value == row.value
         && w.check(row.value, stored[j].request.leak)
  }

  /** No two key inputs share a key. */
  ghost predicate Separates(w: World) {
    forall a, b :: w.keyOf(a) == w.keyOf(b) ==> a == b
  }

  lemma RealSeparates(leaks: LeakTest)
    ensures Separates(Real(leaks))
  {
    forall a, b | Real(leaks).keyOf(a) == Real(leaks).keyOf(b)
      ensures a == b
    {
      KeyInjective(a, b);
    }
  }

  lemma BackedIsEarlier(w: World, stored: seq<Stored>, row: Row)
    requires Separates(w)
    requires Backed(w, stored, row.seen, w.keyOf(row.request.key), row.value)
    requires forall i | 0 <= i < |stored| :: w.check(stored[i].value, stored[i].request.leak)
    ensures EarlierOutput(w, stored, row)
  {
  }

  lemma RowsAreEarlierOutputs(w: World, r: Run, i: nat)
    requires Separates(w) && Legal(w, r) && i < |End(w, r).rows|
    ensures var s := End(w, r);
      && w.check(s.rows[i].value, s.rows[i].request.leak)
      && (s.rows[i].fromCache ==> EarlierOutput(w, s.stored, s.rows[i]))
  {
    EveryRunInv(w, r);
    var s := End(w, r);
    assert RowInv(w, s.stored, s.rows[i]);
    if s.rows[i].fromCache {
      BackedIsEarlier(w, s.stored, s.rows[i]);
    }
  }

  /** Whatever requests do side by side: every created row passed the check of its own request, and one served from
      the cache was generated for, checked against and stored by a request of the same user, feature, prompt version,
      model scope, content and context, before its lookup. */
  lemma ServedFromEarlier(leaks: LeakTest, r: Run, i: nat)
    requires Legal(Real(leaks), r) && i < |End(Real(leaks), r).rows|
    ensures var s := End(Real(leaks), r);
      && Acceptable(leaks, s.rows[i].value, s.rows[i].request.leak)
      && (s.rows[i].fromCache ==> EarlierOutput(Real(leaks), s.stored, s.rows[i]))
  {
    RealSeparates(leaks);
    RowsAreEarlierOutputs(Real(leaks), r, i);
  }

  // When a suggestion is served

  /** The output last stored for these six fields and not expired since. */
  function LastStored(w: World, r: Run, key: KeyInput): Option<Suggestion>
    requires Legal(w, r)
  {
    match r
    case Begin => None
    case Then(before, action) =>
      if action == Expire(w.keyOf(key)) then None
      else if action.Store? && action.writable && End(w, before).calls[action.id].request.key == key
      then Some(End(w, before).calls[action.id].value)
      else LastStored(w, before, key)
  }

  function Cached(cache: map<Digest, Suggestion>, key: Digest): Option<Suggestion> {
    if key in cache then Some(cache[key]) else None
  }

  lemma {:induction false} CacheIsLastStored(w: World, r: Run, key: KeyInput)
    requires Separates(w) && Legal(w, r)
    ensures Cached(End(w, r).cache, w.keyOf(key)) == LastStored(w, r, key)
  {
    if r.Then? {
      CacheIsLastStored(w, r.before, key);
    }
  }

  lemma ThenIs(w: World, r: Run, a: Action)
    requires Legal(w, r)
    ensures Legal(w, Then(r, a)) <==> Enabled(w, End(w, r), a)
    ensures Legal(w, Then(r, a)) ==> End(w, Then(r, a)) == Apply(w, End(w, r), a)
  {
  }

  /** What a lookup finds decides what may follow. */
  lemma LookupServes(w: World, s: State, id: nat, readable: bool, output: Option<Suggestion>)
    requires id in s.calls && s.calls[id].Asked?
    ensures var request, t := s.calls[id].request, Apply(w, s, Get(id, readable));
      var found := if readable then Cached(s.cache, w.keyOf(request.key)) else None;
      var serves := found.Some? && w.check(found.value, request.leak);
      && (Enabled(w, t, UseEntry(id)) <==> serves) && (Enabled(w, t, Generate(id, output)) <==> !serves)
      && (serves ==> Apply(w, t, UseEntry(id)).calls[id] == Ready(request, found.value, true, |s.stored|))
  {
  }

  /** A call that has asked, and what it is to be served. */
  predicate Awaits(w: World, r: Run, id: nat, request: Request, readable: bool, found: Option<Suggestion>) {
    && Legal(w, r) && id in End(w, r).calls && End(w, r).calls[id] == Asked(request)
    && found == if readable then LastStored(w, r, request.key) else None
  }

  lemma FoundServes(w: World, r: Run, id: nat, request: Request, readable: bool, found: Option<Suggestion>,
                    output: Option<Suggestion>)
    requires Separates(w) && Awaits(w, r, id, request, readable, found)
    ensures var got := Then(r, Get(id, readable)); var serves := found.Some? && w.check(found.value, request.leak);
      && Legal(w, got)
      && (Legal(w, Then(got, UseEntry(id))) <==> serves) && (Legal(w, Then(got, Generate(id, output))) <==> !serves)
      && (serves ==>
            End(w, Then(got, UseEntry(id))).calls[id] == Ready(request, found.value, true, |End(w, r).stored|))
  {
    var got := Then(r, Get(id, readable));
    CacheIsLastStored(w, r, request.key);
    LookupServes(w, End(w, r), id, readable, output);
    ThenIs(w, r, Get(id, readable));
    ThenIs(w, got, UseEntry(id));
    ThenIs(w, got, Generate(id, output));
  }

  /** In every run a lookup finds the output last stored for the request's six fields and not expired since. It is served
      exactly when it passes this request's own check, and in every other case the generator is asked. */
  lemma ServedExactly(leaks: LeakTest, r: Run, id: nat, request: Request, readable: bool, found: Option<Suggestion>,
                      output: Option<Suggestion>)
    requires Awaits(Real(leaks), r, id, request, readable, found)
    ensures var w, got := Real(leaks), Then(r, Get(id, readable));
      var serves := found.Some? && Acceptable(leaks, found.value, request.leak);
      && Legal(w, got)
      && (Legal(w, Then(got, UseEntry(id))) <==> serves) && (Legal(w, Then(got, Generate(id, output))) <==> !serves)
      && (serves ==>
            End(w, Then(got, UseEntry(id))).calls[id] == Ready(request, found.value, true, |End(w, r).stored|))
  {
    RealSeparates(leaks);
    FoundServes(Real(leaks), r, id, request, readable, found, output);
  }

  // The use case itself

  /** The steps of one request that runs with nothing in between. */
  function Solo(w: World, s: State, id: nat, request: Request, readable: bool, output: Option<Suggestion>,
                writable: bool): State
    requires id !in s.calls
  {
    var asked := Apply(w, s, Ask(id, request));
    var looked := Apply(w, asked, Get(id, readable));
    if Serves(w, looked.calls[id]) then Apply(w, Apply(w, looked, UseEntry(id)), Create(id))
    else
      var generated := Apply(w, looked, Generate(id, output));
      if generated.calls[id].Finished? then generated
      else Apply(w, Apply(w, generated, Store(id, writable)), Create(id))
  }

  /** What one request returns and leaves in the cache. */
  datatype Executed = Executed(created: Option<Suggestion>, cache: map<Digest, Suggestion>, fromCache: bool)

  function Execution(w: World, cache: map<Digest, Suggestion>, request: Request, readable: bool,
                     output: Option<Suggestion>, writable: bool): Executed {
    var key := w.keyOf(request.key);
    if readable && key in cache && w.check(cache[key], request.leak) then
      Executed(Some(cache[key]), cache, true)
    else if output.Some? && w.check(output.value, request.leak) then
      Executed(output, if writable then cache[key := output.value] else cache, false)
    else Executed(None, cache, false)
  }

  /** From a served entry on: one row with the entry, and the cache as it was. */
  lemma ServedSolo(w: World, looked: State, id: nat)
    requires id in looked.calls && Serves(w, looked.calls[id])
    ensures var c := looked.calls[id]; var after := Apply(w, Apply(w, looked, UseEntry(id)), Create(id));
      after.cache == looked.cache && after.rows == looked.rows + [Row(c.request, c.entry.value, true, c.seen)]
  {
  }

  /** From a miss on: nothing, or the output stored when the cache is writable and one row with it. */
  lemma GeneratedSolo(w: World, looked: State, id: nat, output: Option<Suggestion>, writable: bool)
    requires id in looked.calls && looked.calls[id].Looked? && !Serves(w, looked.calls[id])
    ensures var c := looked.calls[id]; var generated := Apply(w, looked, Generate(id, output));
      var passes := output.Some? && w.check(output.value, c.request.leak);
      && generated.cache == looked.cache && generated.rows == looked.rows && (generated.calls[id].Finished? <==> !passes)
      && (passes ==> var after := Apply(w, Apply(w, generated, Store(id, writable)), Create(id));
            && after.cache == (if writable then looked.cache[w.keyOf(c.request.key) := output.value] else looked.cache)
            && |after.rows| == |looked.rows| + 1
            && var row := after.rows[|looked.rows|];
               row.value == output.value && row.request == c.request && !row.fromCache)
  {
  }

  /** The use case run alone is the run of its steps: same row, same cache. */
  lemma ExecutionIsSolo(w: World, s: State, id: nat, request: Request, readable: bool,
                        output: Option<Suggestion>, writable: bool)
    requires id !in s.calls
    ensures var e := Execution(w, s.cache, request, readable, output, writable);
      var after := Solo(w, s, id, request, readable, output, writable);
      && after.cache == e.cache
      && |after.rows| == |s.rows| + (if e.created.Some? then 1 else 0)
      && (e.created.Some? ==> var row := after.rows[|s.rows|];
            row.value == e.created.value && row.request == request && row.fromCache == e.fromCache)
  {
    var key := w.keyOf(request.key);
    var entry := if readable && key in s.cache then Some(s.cache[key]) else None;
    var looked := Apply(w, Apply(w, s, Ask(id, request)), Get(id, readable));
    assert looked.calls[id] == Looked(request, entry, |s.stored|);
    assert looked.cache == s.cache && looked.rows == s.rows && looked.stored == s.stored;
    if Serves(w, looked.calls[id]) {
      ServedSolo(w, looked, id);
    } else {
      GeneratedSolo(w, looked, id, output, writable);
    }
  }

  class GenerateSuggestion {
    var cache: map<Digest, Suggestion>
    var rows: seq<Suggestion>
    var generatorCalls: nat

    /** From the cache lookup to the created row; `None` is a mapped generation error. */
    method Execute(w: World, request: Request, readable: bool, output: Option<Suggestion>, writable: bool)
      returns (created: Option<Suggestion>)
      modifies this
      ensures var e := Execution(w, old(cache), request, readable, output, writable);
        && created == e.created && cache == e.cache
        && generatorCalls == old(generatorCalls) + (if e.fromCache then 0 else 1)
        && rows == old(rows) + (if created.Some? then [created.value] else [])
      ensures var key := w.keyOf(request.key);
        var served := readable && key in old(cache) && w.check(old(cache)[key], request.leak);
        var passes := output.Some? && w.check(output.value, request.leak);
        && (served ==> created == Some(old(cache)[key]) && generatorCalls == old(generatorCalls))
        && (!served ==> created == (if passes then output else None) && generatorCalls == old(generatorCalls) + 1)
        && cache == (if !served && passes && writable then old(cache)[key := output.value] else old(cache))
    {
      var key := w.keyOf(request.key);
      var generated: Option<Suggestion> := if readable && key in cache then Some(cache[key]) else None;
      if generated.Some? && !w.check(generated.value, request.leak) {
        generated := None;
      }
      if generated.None? {
        generatorCalls := generatorCalls + 1;
        generated := output;
        if generated.None? || !w.check(generated.value, request.leak) {
          return None;
        }
        if writable {
          cache := cache[key := generated.value];
        }
      }
      rows := rows + [generated.value];
      return generated;
    }
  }
}
