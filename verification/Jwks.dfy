/**
 The JWKS cache: one gate serialises refreshes, a generation lets those who waited
 reuse what was fetched meanwhile, and unknown key ids may not fetch too often.
 */
module Jwks {
  import opened Wrappers

  /** A fetched key set, as the list of its key ids. */
  type KeySet = seq<string>

  datatype Cache = Cache(keys: Option<KeySet>, fetchedAt: int, generation: nat, lastRefresh: Option<int>)

  /** What the holder of the gate does: hand out the current set, give up, or fetch. */
  datatype Verdict = Reuse(current: Option<KeySet>) | NoCache | Fetch

  predicate Stale(keys: Option<KeySet>, fetchedAt: int, now: int, refreshEvery: int) {
    keys.None? || now - fetchedAt >= refreshEvery
  }

  predicate UnknownKid(keys: Option<KeySet>, kid: string) { keys.Some? && kid != "" && kid !in keys.value }

  function Decide(c: Cache, now: int, minRefresh: int, rateLimited: bool, observed: nat): Verdict {
    if c.generation != observed then Reuse(c.keys)
    else if rateLimited && c.lastRefresh.Some? && now - c.lastRefresh.value < minRefresh then
      if c.keys.None? then NoCache else Reuse(c.keys)
    else Fetch
  }

  function Published(c: Cache, now: int, keys: KeySet): Cache {
    c.(keys := Some(keys), fetchedAt := now, generation := c.generation + 1)
  }

  // ---------- runs ----------

  /**
   Where one keySetFor call stands. Looked and Waiting carry what the call saw in the cache;
   Leaving carries what refresh will return once the gate is released: a set with
   its generation, or an error.
   */
  datatype Pc =
    | Begun(kid: string)
    | Looked(kid: string, seen: Option<KeySet>, fetchedAt: int)
    | Waiting(seen: Option<KeySet>, unknownKid: bool)
    | Holding(seen: Option<KeySet>, unknownKid: bool)
    | Fetching(seen: Option<KeySet>)
    | Fetched(seen: Option<KeySet>, keys: KeySet)
    | Leaving(seen: Option<KeySet>, outcome: Option<KeySet>)
    | Served(keys: KeySet)
    | Failed

  /** observed: the generation the call saw. */
  datatype Call = Call(pc: Pc, observed: nat)

  datatype FetchStart = FetchStart(at: int, unknownKid: bool, observed: nat)
  datatype Publication = Publication(keys: KeySet, observed: nat, at: int)

  /** What a call decided about the set it saw: the clock it went by, and whether it went without a refresh. */
  datatype Judgement = Judgement(kid: string, at: int, observed: nat, trusted: bool)

  datatype World = World(now: int, refreshEvery: int, minRefresh: int, cache: Cache, gate: Option<nat>,
                         calls: map<nat, Call>, fetches: seq<FetchStart>, published: seq<Publication>,
                         judged: seq<Judgement>)

  datatype Step =
    | Tick(ms: nat)
    | Begin(id: nat, kid: string)
    | Observe(id: nat)
    | Judge(id: nat)
    | Acquire(id: nat)
    | GiveUp(id: nat)
    | Check(id: nat)
    | FetchFails(id: nat)
    | FetchReturns(id: nat, keys: KeySet)
    | Publish(id: nat)
    | Release(id: nat)

  function Init(now: int, refreshEvery: int, minRefresh: int): World {
    World(now, refreshEvery, minRefresh, Cache(None, 0, 0, None), None, map[], [], [], [])
  }

  predicate Enabled(w: World, step: Step) {
    match step
    case Tick(_) => true
    case Begin(id, _) => id !in w.calls
    case Observe(id) => id in w.calls && w.calls[id].pc.Begun?
    case Judge(id) => id in w.calls && w.calls[id].pc.Looked?
    case Acquire(id) => id in w.calls && w.calls[id].pc.Waiting? && w.gate.None?
    case GiveUp(id) => id in w.calls && w.calls[id].pc.Waiting?
    case Check(id) => id in w.calls && w.calls[id].pc.Holding?
    case FetchFails(id) => id in w.calls && w.calls[id].pc.Fetching?
    case FetchReturns(id, _) => id in w.calls && w.calls[id].pc.Fetching?
    case Publish(id) => id in w.calls && w.calls[id].pc.Fetched?
    case Release(id) => id in w.calls && w.calls[id].pc.Leaving?
  }

  /** keySetFor after refresh: the refreshed set, or else the set it already had, or else nothing. */
  function Settle(seen: Option<KeySet>, outcome: Option<KeySet>): Pc {
    if outcome.Some? then Served(outcome.value) else if seen.Some? then Served(seen.value) else Failed
  }

  /** The clock is read after the cache: does what was seen do? */
  function Judged(pc: Pc, now: int, refreshEvery: int): Pc
    requires pc.Looked?
  {
    var unknown := UnknownKid(pc.seen, pc.kid);
    if Stale(pc.seen, pc.fetchedAt, now, refreshEvery) || unknown then Waiting(pc.seen, unknown)
    else Served(pc.seen.value)
  }

  function Moved(w: World, id: nat, pc: Pc): map<nat, Call>
    requires id in w.calls
  {
    w.calls[id := w.calls[id].(pc := pc)]
  }

  function Do(w: World, step: Step): World
    requires Enabled(w, step)
  {
    match step
    case Tick(ms) => w.(now := w.now + ms)
    case Begin(id, kid) => w.(calls := w.calls[id := Call(Begun(kid), 0)])
    case Observe(id) =>
      w.(calls := w.calls[id := Call(Looked(w.calls[id].pc.kid, w.cache.keys, w.cache.fetchedAt), w.cache.generation)])
    case Judge(id) =>
      var pc := w.calls[id].pc;
      var judged := Judged(pc, w.now, w.refreshEvery);
      w.(calls := Moved(w, id, judged),
         judged := w.judged + [Judgement(pc.kid, w.now, w.calls[id].observed, judged.Served?)])
    case Acquire(id) => w.(gate := Some(id),
                           calls := Moved(w, id, Holding(w.calls[id].pc.seen, w.calls[id].pc.unknownKid)))
    case GiveUp(id) => w.(calls := Moved(w, id, Settle(w.calls[id].pc.seen, None)))
    case Check(id) =>
      var pc := w.calls[id].pc;
      match Decide(w.cache, w.now, w.minRefresh, pc.unknownKid, w.calls[id].observed) {
        case Reuse(current) => w.(calls := Moved(w, id, Leaving(pc.seen, current)))
        case NoCache => w.(calls := Moved(w, id, Leaving(pc.seen, None)))
        case Fetch =>
          w.(cache := w.cache.(lastRefresh := Some(w.now)),
             fetches := w.fetches + [FetchStart(w.now, pc.unknownKid, w.calls[id].observed)],
             calls := Moved(w, id, Fetching(pc.seen)))
      }
    case FetchFails(id) => w.(calls := Moved(w, id, Leaving(w.calls[id].pc.seen, None)))
    case FetchReturns(id, keys) =>
      var seen := w.calls[id].pc.seen;
      w.(calls := Moved(w, id, if |keys| == 0 then Leaving(seen, None) else Fetched(seen, keys)))
    case Publish(id) =>
      var pc := w.calls[id].pc;
      w.(cache := Published(w.cache, w.now, pc.keys),
         published := w.published + [Publication(pc.keys, w.calls[id].observed, w.now)],
         calls := Moved(w, id, Leaving(pc.seen, Some(pc.keys))))
    case Release(id) => w.(gate := None, calls := Moved(w, id, Settle(w.calls[id].pc.seen, w.calls[id].pc.outcome)))
  }

  function Apply(w: World, step: Step): World { if Enabled(w, step) then Do(w, step) else w }

  function Exec(w: World, steps: seq<Step>): World
    decreases |steps|
  {
    if steps == [] then w else Exec(Apply(w, steps[0]), steps[1..])
  }

  // ---------- what every run keeps ----------

  predicate InGate(pc: Pc) { pc.Holding? || pc.Fetching? || pc.Fetched? || pc.Leaving? }

  /** The gate's holder is the only call inside. */
  ghost predicate GateSound(w: World) {
    && (w.gate.Some? ==> w.gate.value in w.calls)
    && (forall id :: id in w.calls ==> (InGate(w.calls[id].pc) <==> w.gate == Some(id)))
  }

  /** The set as it was at some generation. */
  function SetAt(w: World, generation: nat): Option<KeySet>
    requires generation <= |w.published|
  {
    if generation == 0 then None else Some(w.published[generation - 1].keys)
  }

  /** The cache is its last publication; publication number n was made for generation n, and none is empty. */
  ghost predicate CacheSound(w: World) {
    && w.cache.generation == |w.published|
    && w.cache.keys == SetAt(w, |w.published|)
    && (|w.published| > 0 ==> w.cache.fetchedAt == w.published[|w.published| - 1].at)
    && (forall i :: 0 <= i < |w.published| ==> w.published[i].observed == i && |w.published[i].keys| > 0)
  }

  /** A call that has not been served saw the set of its generation; a call past Check is still at its generation. */
  ghost predicate CallSound(w: World, c: Call) {
    && c.observed <= |w.published|
    && match c.pc
       case Begun(_) => true
       case Looked(_, seen, fetchedAt) =>
         seen == SetAt(w, c.observed) && (c.observed > 0 ==> fetchedAt == w.published[c.observed - 1].at)
       case Waiting(seen, unknown) => seen == SetAt(w, c.observed) && (unknown ==> seen.Some?)
       case Holding(seen, unknown) => seen == SetAt(w, c.observed) && (unknown ==> seen.Some?)
       case Fetching(seen) => seen == SetAt(w, c.observed) && c.observed == |w.published|
       case Fetched(seen, keys) => seen == SetAt(w, c.observed) && c.observed == |w.published| && |keys| > 0
       case Leaving(seen, outcome) =>
         && seen == SetAt(w, c.observed) && (outcome.Some? ==> SetSince(w, c.observed, outcome.value))
         && (outcome.None? ==> c.observed == |w.published|)
         && (outcome.Some? ==> outcome == SetAt(w, |w.published|))
       case Served(keys) => SetSince(w, c.observed, keys)
       case Failed => c.observed == 0
  }

  /** keys is some published set no older than the generation observed. */
  ghost predicate SetSince(w: World, observed: nat, keys: KeySet) {
    exists g :: observed <= g <= |w.published| && SetAt(w, g) == Some(keys)
  }

  ghost predicate CallsSound(w: World) { forall id :: id in w.calls ==> CallSound(w, w.calls[id]) }

  /** lastRefresh is the start of the last fetch, and unknown key ids kept their distance. */
  ghost predicate FetchesSound(w: World) {
    && (w.cache.lastRefresh == if w.fetches == [] then None else Some(w.fetches[|w.fetches| - 1].at))
    && (forall i :: 0 < i < |w.fetches| && w.fetches[i].unknownKid ==>
            w.fetches[i].at - w.fetches[i - 1].at >= w.minRefresh)
    && (forall i :: 0 < i < |w.fetches| ==> w.fetches[i - 1].at <= w.fetches[i].at)
    && (w.fetches != [] ==> w.fetches[|w.fetches| - 1].at <= w.now)
  }

  /** A call goes without a refresh exactly when the set it saw is young enough and has its key id, if it named one. */
  predicate JudgedWell(w: World, j: Judgement) {
    && j.observed <= |w.published|
    && (j.trusted <==>
        && j.observed > 0
        && j.at - w.published[j.observed - 1].at < w.refreshEvery
        && (j.kid == "" || j.kid in w.published[j.observed - 1].keys))
  }

  ghost predicate JudgedSound(w: World) { forall i :: 0 <= i < |w.judged| ==> JudgedWell(w, w.judged[i]) }

  ghost predicate Sound(w: World) {
    GateSound(w) && CacheSound(w) && CallsSound(w) && FetchesSound(w) && JudgedSound(w)
  }

  lemma JudgedStep(w: World, step: Step)
    requires CacheSound(w) && CallsSound(w) && JudgedSound(w) && Enabled(w, step)
    ensures JudgedSound(Do(w, step))
  {
    hide Decide, Settle;
    if step.Judge? {
      assert CallSound(w, w.calls[step.id]);
    }
  }

  lemma GateStep(w: World, step: Step)
    requires GateSound(w) && Enabled(w, step)
    ensures GateSound(Do(w, step))
  {
  }

  lemma FetchesStep(w: World, step: Step)
    requires FetchesSound(w) && Enabled(w, step)
    ensures FetchesSound(Do(w, step))
  {
    if step.Check? { FetchesCheck(w, step.id); } else { FetchesOther(w, step); }
  }

  lemma FetchesCheck(w: World, id: nat)
    requires FetchesSound(w) && Enabled(w, Check(id))
    ensures FetchesSound(Do(w, Check(id)))
  {
    hide Moved;
  }

  lemma FetchesOther(w: World, step: Step)
    requires FetchesSound(w) && Enabled(w, step) && !step.Check?
    ensures FetchesSound(Do(w, step))
  {
    hide Moved, Decide, Settle;
  }

  lemma CacheStep(w: World, step: Step)
    requires CacheSound(w) && CallsSound(w) && Enabled(w, step)
    ensures CacheSound(Do(w, step))
  {
  }

  /** Publications only accumulate. */
  ghost predicate Grew(w: World, w': World) {
    w'.published == w.published || (|w'.published| == |w.published| + 1 && w'.published[..|w.published|] == w.published)
  }

  lemma SetsKept(w: World, w': World)
    requires Grew(w, w')
    ensures forall g: nat :: g <= |w.published| ==> SetAt(w', g) == SetAt(w, g)
    ensures forall o: nat, keys :: SetSince(w, o, keys) ==> SetSince(w', o, keys)
  {
    forall g: nat | g <= |w.published|
      ensures SetAt(w', g) == SetAt(w, g)
    {
      if g > 0 && w'.published != w.published { assert w'.published[..|w.published|][g - 1] == w.published[g - 1]; }
    }
    forall o: nat, keys | SetSince(w, o, keys)
      ensures SetSince(w', o, keys)
    {
      var g :| o <= g <= |w.published| && SetAt(w, g) == Some(keys);
      assert SetAt(w', g) == Some(keys);
    }
  }

  /** What a call knew stays true, unless it needed the latest generation. */
  lemma CallKept(w: World, w': World, c: Call)
    requires CallSound(w, c) && Grew(w, w')
    requires |w'.published| != |w.published| ==> !c.pc.Fetching? && !c.pc.Fetched? && !c.pc.Leaving?
    ensures CallSound(w', c)
  {
    SetsKept(w, w');
  }

  /** The call that took the step is as its new place requires. */
  lemma OwnCall(w: World, step: Step, id: nat)
    requires CacheSound(w) && CallsSound(w) && Enabled(w, step) && !step.Tick? && id == step.id
    ensures id in Do(w, step).calls && CallSound(Do(w, step), Do(w, step).calls[id])
  {
    var w' := Do(w, step);
    SetsKept(w, w');
    if w.cache.keys.Some? {
      assert SetAt(w, |w.published|) == Some(w.cache.keys.value);
    }
    if w'.cache.keys.Some? {
      assert SetAt(w', |w'.published|) == Some(w'.cache.keys.value);
    }
    if id in w.calls && w.calls[id].observed > 0 {
      assert SetAt(w', w.calls[id].observed) == Some(w.published[w.calls[id].observed - 1].keys);
    }
  }

  lemma CallsStep(w: World, step: Step)
    requires Sound(w) && Enabled(w, step)
    ensures CallsSound(Do(w, step))
  {
    var w' := Do(w, step);
    forall id | id in w'.calls
      ensures CallSound(w', w'.calls[id])
    {
      if !step.Tick? && id == step.id {
        OwnCall(w, step, id);
      } else {
        CallKept(w, w', w.calls[id]);
      }
    }
  }

  lemma {:induction false} SoundRun(w: World, steps: seq<Step>)
    requires Sound(w)
    ensures Sound(Exec(w, steps))
    decreases |steps|
  {
    if steps != [] {
      if Enabled(w, steps[0]) {
        GateStep(w, steps[0]);
        FetchesStep(w, steps[0]);
        CacheStep(w, steps[0]);
        JudgedStep(w, steps[0]);
        CallsStep(w, steps[0]);
      }
      SoundRun(Apply(w, steps[0]), steps[1..]);
    }
  }

  /**
   Over every interleaving: at most one fetch is under way; the generation counts the
   publications; two successful fetches never answer callers that observed the same
   generation; a fetch for an unknown key id starts at least minRefresh after the
   fetch before it; and the cached set, once there is one, is never empty.
   */
  lemma RefreshDiscipline(start: int, refreshEvery: int, minRefresh: int, steps: seq<Step>)
    ensures var w := Exec(Init(start, refreshEvery, minRefresh), steps);
            && (forall a, b :: a in w.calls && b in w.calls && InGate(w.calls[a].pc) && InGate(w.calls[b].pc) ==>
                    a == b)
            && w.cache.generation == |w.published|
            && (forall i, j | 0 <= i < |w.published| && 0 <= j < |w.published| ::
                  w.published[i].observed == w.published[j].observed ==> i == j)
            && (forall i :: 0 < i < |w.fetches| && w.fetches[i].unknownKid ==>
                  w.fetches[i].at - w.fetches[i - 1].at >= minRefresh)
            && (w.cache.generation > 0 ==> w.cache.keys.Some? && |w.cache.keys.value| > 0)
  {
    SoundRun(Init(start, refreshEvery, minRefresh), steps);
    SettingsStay(Init(start, refreshEvery, minRefresh), steps);
  }

  lemma {:induction false} SettingsStay(w: World, steps: seq<Step>)
    ensures Exec(w, steps).minRefresh == w.minRefresh && Exec(w, steps).refreshEvery == w.refreshEvery
    decreases |steps|
  {
    if steps != [] { SettingsStay(Apply(w, steps[0]), steps[1..]); }
  }

  /**
   keySetFor fails only when it saw no set to fall back on, that is before the first
   publication; what it serves is a published, non-empty set no older than the one it first saw.
   Its last guard, and the branch for a rate-limited refresh without a cache, never fire.
   */
  lemma ServedSets(start: int, refreshEvery: int, minRefresh: int, steps: seq<Step>, id: nat)
    requires id in Exec(Init(start, refreshEvery, minRefresh), steps).calls
    ensures var w := Exec(Init(start, refreshEvery, minRefresh), steps); var c := w.calls[id];
            && (c.pc.Served? ==> |c.pc.keys| > 0 && SetSince(w, c.observed, c.pc.keys))
            && (c.pc.Failed? ==> c.observed == 0)
            && (c.pc.Leaving? ==>
                  if w.cache.generation > c.observed then c.pc.outcome == w.cache.keys && w.cache.keys.Some?
                  else c.pc.outcome.None? || c.pc.outcome == c.pc.seen)
            && (c.pc.Holding? ==> Decide(w.cache, w.now, minRefresh, c.pc.unknownKid, c.observed) != NoCache
                                  && Decide(w.cache, w.now, minRefresh, c.pc.unknownKid, c.observed) != Reuse(None))
  {
    var w := Exec(Init(start, refreshEvery, minRefresh), steps);
    SoundRun(Init(start, refreshEvery, minRefresh), steps);
    var c := w.calls[id];
    assert CallSound(w, c);
    if c.pc.Served? {
      var g :| c.observed <= g <= |w.published| && SetAt(w, g) == Some(c.pc.keys);
    }
  }

  /**
   Over every interleaving, whoever was served without a refresh had looked at the clock less than refreshEvery
   after the set it saw was published, and that set had its key id; and everyone in that position was.
   */
  lemma TrustedSets(start: int, refreshEvery: int, minRefresh: int, steps: seq<Step>, i: nat)
    requires i < |Exec(Init(start, refreshEvery, minRefresh), steps).judged|
    ensures var w := Exec(Init(start, refreshEvery, minRefresh), steps); var j := w.judged[i];
            && j.observed <= |w.published|
            && (j.trusted <==>
                && j.observed > 0
                && j.at - w.published[j.observed - 1].at < refreshEvery
                && (j.kid == "" || j.kid in w.published[j.observed - 1].keys))
  {
    SoundRun(Init(start, refreshEvery, minRefresh), steps);
    SettingsStay(Init(start, refreshEvery, minRefresh), steps);
    hide Exec;
    assert JudgedWell(Exec(Init(start, refreshEvery, minRefresh), steps),
                      Exec(Init(start, refreshEvery, minRefresh), steps).judged[i]);
  }

  /** What a judgement settles: the call is served what it saw, or goes on to refresh. */
  lemma JudgedMeans(w: World, id: nat)
    requires Enabled(w, Judge(id))
    ensures var w' := Do(w, Judge(id)); var j := w'.judged[|w.judged|]; var pc := w.calls[id].pc;
            && w'.judged == w.judged + [j] && j == Judgement(pc.kid, w.now, w.calls[id].observed, j.trusted)
            && (j.trusted ==> pc.seen.Some? && w'.calls[id].pc == Served(pc.seen.value))
            && (!j.trusted ==> w'.calls[id].pc.Waiting? && w'.calls[id].pc.seen == pc.seen)
  {
  }
}
