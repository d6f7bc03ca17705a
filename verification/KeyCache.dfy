/**
 The positive API-key cache: its operations on values, and runs in which any
 number of VerifyKey calls interleave with evictions and with changes to the
 authoritative store.
 */
module KeyCache {
  import opened Wrappers

  datatype Kind = User | ApiKey

  datatype Principal = Principal(kind: Kind, org: string, user: string, keyId: string)

  datatype Entry = Entry(principal: Principal, expiresAt: int)

  /** entries are keyed by the raw key itself: its digest is taken to be injective. */
  datatype Cache = Cache(entries: map<string, Entry>, generation: nat)

  /** What a control-bus message evicts. */
  datatype Target = ByKey(keyId: string) | ByUser(user: string) | ByOrg(org: string)
                  | ByUserOrg(user: string, org: string)

  predicate ValidApiKey(p: Principal) { p.kind == ApiKey && p.org != "" && p.keyId != "" }

  predicate Hits(t: Target, p: Principal) {
    match t
    case ByKey(k) => p.keyId == k
    case ByUser(u) => p.user == u
    case ByOrg(o) => p.org == o
    case ByUserOrg(u, o) => p.user == u && p.org == o
  }

  /** An eviction with an empty id is ignored. */
  predicate Blank(t: Target) {
    match t
    case ByKey(k) => k == ""
    case ByUser(u) => u == ""
    case ByOrg(o) => o == ""
    case ByUserOrg(u, o) => u == "" || o == ""
  }

  function Lookup(c: Cache, now: int, raw: string): (Cache, Option<Principal>) {
    if raw !in c.entries then (c, None)
    else if now >= c.entries[raw].expiresAt then (c.(entries := c.entries - {raw}), None)
    else (c, Some(c.entries[raw].principal))
  }

  function StoreIf(c: Cache, now: int, ttl: int, raw: string, p: Principal, generation: nat): (Cache, bool) {
    if c.generation != generation then (c, false)
    else (c.(entries := c.entries[raw := Entry(p, now + ttl)]), true)
  }

  function Evict(c: Cache, t: Target): Cache {
    if Blank(t) then c
    else Cache(map raw | raw in c.entries && !Hits(t, c.entries[raw].principal) :: c.entries[raw], c.generation + 1)
  }

  // ---------- runs ----------

  /** Where one VerifyKey call stands. */
  datatype Pc =
    | Begun
    | Missed
    | Snapped(generation: nat)
    | Fetched(generation: nat, principal: Principal)
    | Returned(principal: Principal)
    | Failed

  /** born is the cache's generation when the call began, retries how often its publication was refused. */
  datatype Call = Call(raw: string, pc: Pc, born: nat, retries: nat)

  /** What was last published for a raw key, and when: the clock, and how many evictions had run. */
  datatype Stamp = Stamp(at: int, evictions: nat, principal: Principal)

  /**
   rows: the authoritative store
   stamps: when each entry was published
   evictions: every eviction that ran, in order
   fetched: every principal the delegate ever returned, with its raw key
   revoked: key ids removed from the store
   dead: for a key evicted after its revocation, the generation that eviction produced
   */
  datatype World = World(now: int, ttl: int, cache: Cache, rows: map<string, Principal>, calls: map<nat, Call>,
                         stamps: map<string, Stamp>, evictions: seq<Target>, fetched: set<(string, Principal)>,
                         revoked: set<string>, dead: map<string, nat>)

  datatype Step =
    | Tick(ms: nat)
    | Put(raw: string, row: Principal)
    | Revoke(keyId: string)
    | EvictAll(target: Target)
    | Begin(id: nat, raw: string)
    | Look(id: nat)
    | Snap(id: nat)
    | Read(id: nat, reachable: bool)
    | Publish(id: nat, cancelled: bool)

  function Init(now: int, ttl: int, rows: map<string, Principal>): World {
    World(now, ttl, Cache(map[], 0), rows, map[], map[], [], {}, {}, map[])
  }

  predicate At(w: World, id: nat, pc: Pc) { id in w.calls && w.calls[id].pc == pc }

  /** A revoked key id is never put back; a raw key is not empty; call ids are not reused. */
  predicate Enabled(w: World, step: Step) {
    match step
    case Tick(_) => true
    case Put(_, row) => row.keyId !in w.revoked
    case Revoke(_) => true
    case EvictAll(_) => true
    case Begin(id, raw) => id !in w.calls && raw != ""
    case Look(id) => At(w, id, Begun)
    case Snap(id) => At(w, id, Missed)
    case Read(id, _) => id in w.calls && w.calls[id].pc.Snapped?
    case Publish(id, _) => id in w.calls && w.calls[id].pc.Fetched?
  }

  function Moved(w: World, id: nat, pc: Pc): map<nat, Call>
    requires id in w.calls
  {
    w.calls[id := w.calls[id].(pc := pc)]
  }

  function Died(w: World, t: Target): map<string, nat> {
    if t.ByKey? && t.keyId in w.revoked && t.keyId !in w.dead then w.dead[t.keyId := w.cache.generation + 1] else w.dead
  }

  /** The delegate's answer: the row, or nothing when the key is unknown or the store is out of reach. */
  function Delegate(w: World, raw: string, reachable: bool): Option<Principal> {
    if reachable && raw in w.rows then Some(w.rows[raw]) else None
  }

  function Do(w: World, step: Step): World
    requires Enabled(w, step)
  {
    match step
    case Tick(ms) => w.(now := w.now + ms)
    case Put(raw, row) => w.(rows := w.rows[raw := row])
    case Revoke(k) =>
      w.(rows := map raw | raw in w.rows && w.rows[raw].keyId != k :: w.rows[raw], revoked := w.revoked + {k})
    case EvictAll(t) =>
      if Blank(t) then w
      else w.(cache := Evict(w.cache, t), evictions := w.evictions + [t], dead := Died(w, t))
    case Begin(id, raw) => w.(calls := w.calls[id := Call(raw, Begun, w.cache.generation, 0)])
    case Look(id) =>
      var found := Lookup(w.cache, w.now, w.calls[id].raw);
      w.(cache := found.0, calls := Moved(w, id, if found.1.Some? then Returned(found.1.value) else Missed))
    case Snap(id) => w.(calls := Moved(w, id, Snapped(w.cache.generation)))
    case Read(id, reachable) =>
      var p := Delegate(w, w.calls[id].raw, reachable);
      if p.None? then w.(calls := Moved(w, id, Failed))
      else
        w.(fetched := w.fetched + {(w.calls[id].raw, p.value)},
           calls := Moved(w, id, if ValidApiKey(p.value) then Fetched(w.calls[id].pc.generation, p.value) else Failed))
    case Publish(id, cancelled) =>
      var call := w.calls[id];
      var stored := StoreIf(w.cache, w.now, w.ttl, call.raw, call.pc.principal, call.pc.generation);
      if stored.1 then
        w.(cache := stored.0, stamps := w.stamps[call.raw := Stamp(w.now, |w.evictions|, call.pc.principal)],
           calls := Moved(w, id, Returned(call.pc.principal)))
      else
        w.(calls := w.calls[id := call.(pc := if cancelled then Failed else Missed, retries := call.retries + 1)])
  }

  function Apply(w: World, step: Step): World { if Enabled(w, step) then Do(w, step) else w }

  function Exec(w: World, steps: seq<Step>): World
    decreases |steps|
  {
    if steps == [] then w else Exec(Apply(w, steps[0]), steps[1..])
  }

  lemma {:induction false} ExecSplit(w: World, first: seq<Step>, second: seq<Step>)
    ensures Exec(w, first + second) == Exec(Exec(w, first), second)
    decreases |first|
  {
    if first == [] {
      assert first + second == second;
    } else {
      assert (first + second)[0] == first[0] && (first + second)[1..] == first[1..] + second;
      ExecSplit(Apply(w, first[0]), first[1..], second);
    }
  }

  // ---------- what every run keeps ----------

  /** Entries come from the delegate, expire on time, and have not been hit by an eviction since they were published. */
  ghost predicate EntriesSound(w: World) {
    && |w.evictions| == w.cache.generation
    && forall raw :: raw in w.cache.entries ==>
         && raw in w.stamps
         && (raw, w.cache.entries[raw].principal) in w.fetched
         && ValidApiKey(w.cache.entries[raw].principal)
         && w.cache.entries[raw].principal == w.stamps[raw].principal
         && w.cache.entries[raw].expiresAt == w.stamps[raw].at + w.ttl
         && w.stamps[raw].evictions <= |w.evictions|
         && (forall i :: w.stamps[raw].evictions <= i < |w.evictions| ==>
               !Hits(w.evictions[i], w.cache.entries[raw].principal))
  }

  /** Some eviction since the publication meant what was published. */
  ghost predicate Evicted(w: World, raw: string)
    requires raw in w.stamps
  {
    exists i :: w.stamps[raw].evictions <= i < |w.evictions| && Hits(w.evictions[i], w.stamps[raw].principal)
  }

  /** An entry is gone only when its time was over or an eviction meant it. */
  ghost predicate GoneSound(w: World) {
    forall raw :: raw in w.stamps ==>
      && w.stamps[raw].evictions <= |w.evictions|
      && (raw !in w.cache.entries ==> w.stamps[raw].at + w.ttl <= w.now || Evicted(w, raw))
  }

  /** A call holds only what the delegate returned for its raw key, and its retries are paid for by evictions. */
  predicate CallSound(w: World, c: Call) {
    && c.born <= w.cache.generation
    && match c.pc
       case Begun => c.retries == 0
       case Missed => c.retries <= w.cache.generation - c.born
       case Snapped(g) => c.born <= g <= w.cache.generation && c.retries <= g - c.born
       case Fetched(g, p) =>
         c.born <= g <= w.cache.generation && c.retries <= g - c.born && ValidApiKey(p) && (c.raw, p) in w.fetched
       case Returned(p) => c.retries <= w.cache.generation - c.born && ValidApiKey(p) && (c.raw, p) in w.fetched
       case Failed => c.retries <= w.cache.generation - c.born
  }

  ghost predicate CallsSound(w: World) {
    forall id :: id in w.calls ==> CallSound(w, w.calls[id])
  }

  /** Once dead, a key is in no row and no entry, and only calls born before its death can still hold it. */
  ghost predicate DeadSound(w: World) {
    && w.dead.Keys <= w.revoked
    && (forall raw :: raw in w.rows ==> w.rows[raw].keyId !in w.revoked)
    && (forall k :: k in w.dead ==> w.dead[k] <= w.cache.generation)
    && (forall raw :: raw in w.cache.entries ==> w.cache.entries[raw].principal.keyId !in w.dead)
    && (forall id :: id in w.calls ==>
          && (w.calls[id].pc.Fetched? && w.calls[id].pc.principal.keyId in w.dead ==>
                w.calls[id].pc.generation < w.dead[w.calls[id].pc.principal.keyId])
          && (w.calls[id].pc.Returned? && w.calls[id].pc.principal.keyId in w.dead ==>
                w.calls[id].born < w.dead[w.calls[id].pc.principal.keyId]))
  }

  ghost predicate Sound(w: World) { EntriesSound(w) && GoneSound(w) && CallsSound(w) && DeadSound(w) }

  lemma EntriesStep(w: World, step: Step)
    requires EntriesSound(w) && CallsSound(w) && Enabled(w, step)
    ensures EntriesSound(Do(w, step))
  {
    match step
    case EvictAll(t) => EntriesEvict(w, t);
    case Publish(id, cancelled) => EntriesPublish(w, id, cancelled);
    case Look(_) => hide CallsSound;
    case _ => hide CallsSound, Evict, StoreIf, Lookup;
  }

  lemma EntriesEvict(w: World, t: Target)
    requires EntriesSound(w) && Enabled(w, EvictAll(t))
    ensures EntriesSound(Do(w, EvictAll(t)))
  {
    hide Died;
  }

  lemma EntriesPublish(w: World, id: nat, cancelled: bool)
    requires EntriesSound(w) && CallsSound(w) && Enabled(w, Publish(id, cancelled))
    ensures EntriesSound(Do(w, Publish(id, cancelled)))
  {
  }

  lemma GoneStep(w: World, step: Step)
    requires EntriesSound(w) && GoneSound(w) && Enabled(w, step)
    ensures GoneSound(Do(w, step))
  {
    match step
    case EvictAll(t) => GoneEvict(w, t);
    case Look(id) => GoneLook(w, id);
    case Publish(id, cancelled) => GonePublish(w, id, cancelled);
    case _ => GoneKept(w, Do(w, step));
  }

  lemma GoneKept(w: World, w': World)
    requires GoneSound(w) && w'.stamps == w.stamps && w'.evictions == w.evictions && w'.cache == w.cache
    requires w'.ttl == w.ttl && w.now <= w'.now
    ensures GoneSound(w')
  {
    forall raw | raw in w.stamps && Evicted(w, raw) ensures Evicted(w', raw) {
      var i :| w.stamps[raw].evictions <= i < |w.evictions| && Hits(w.evictions[i], w.stamps[raw].principal);
      assert Hits(w'.evictions[i], w'.stamps[raw].principal);
    }
  }

  lemma GoneEvict(w: World, t: Target)
    requires EntriesSound(w) && GoneSound(w)
    ensures GoneSound(Do(w, EvictAll(t)))
  {
    hide Hits, Died;
    var w' := Do(w, EvictAll(t));
    forall raw | raw in w'.stamps && raw !in w'.cache.entries
      ensures w'.stamps[raw].at + w'.ttl <= w'.now || Evicted(w', raw)
    {
      if raw in w.cache.entries {
        assert w'.evictions[|w.evictions|] == t && Hits(t, w.stamps[raw].principal);
      } else if Evicted(w, raw) {
        var i :| w.stamps[raw].evictions <= i < |w.evictions| && Hits(w.evictions[i], w.stamps[raw].principal);
        assert Hits(w'.evictions[i], w'.stamps[raw].principal);
      }
    }
  }

  lemma GoneLook(w: World, id: nat)
    requires EntriesSound(w) && GoneSound(w) && Enabled(w, Look(id))
    ensures GoneSound(Do(w, Look(id)))
  {
    hide Hits;
    var w' := Do(w, Look(id));
    forall raw | raw in w'.stamps && raw !in w'.cache.entries
      ensures w'.stamps[raw].at + w'.ttl <= w'.now || Evicted(w', raw)
    {
      if raw !in w.cache.entries && Evicted(w, raw) {
        var i :| w.stamps[raw].evictions <= i < |w.evictions| && Hits(w.evictions[i], w.stamps[raw].principal);
        assert Hits(w'.evictions[i], w'.stamps[raw].principal);
      }
    }
  }

  lemma GonePublish(w: World, id: nat, cancelled: bool)
    requires GoneSound(w) && Enabled(w, Publish(id, cancelled))
    ensures GoneSound(Do(w, Publish(id, cancelled)))
  {
    hide Hits;
    var w' := Do(w, Publish(id, cancelled));
    forall raw | raw in w'.stamps && raw !in w'.cache.entries
      ensures w'.stamps[raw].at + w'.ttl <= w'.now || Evicted(w', raw)
    {
      if Evicted(w, raw) {
        var i :| w.stamps[raw].evictions <= i < |w.evictions| && Hits(w.evictions[i], w.stamps[raw].principal);
        assert Hits(w'.evictions[i], w'.stamps[raw].principal);
      }
    }
  }

  lemma CallsStep(w: World, step: Step)
    requires EntriesSound(w) && CallsSound(w) && Enabled(w, step)
    ensures CallsSound(Do(w, step))
  {
    if step.Look? {
      CallsLook(w, step.id);
    } else {
      CallsOther(w, step);
    }
  }

  lemma CallsLook(w: World, id: nat)
    requires EntriesSound(w) && CallsSound(w) && Enabled(w, Look(id))
    ensures CallsSound(Do(w, Look(id)))
  {
  }

  lemma CallsOther(w: World, step: Step)
    requires CallsSound(w) && Enabled(w, step) && !step.Look?
    ensures CallsSound(Do(w, step))
  {
    hide Lookup, Died;
    var w' := Do(w, step);
    forall id | id in w'.calls
      ensures CallSound(w', w'.calls[id])
    {
      if id in w.calls { assert CallSound(w, w.calls[id]); }
    }
  }

  lemma DeadEvict(w: World, t: Target)
    requires CallsSound(w) && DeadSound(w)
    ensures DeadSound(Do(w, EvictAll(t)))
  {
    forall id | id in w.calls
      ensures CallSound(w, w.calls[id])
    {
    }
  }

  lemma DeadPublish(w: World, step: Step)
    requires CallsSound(w) && DeadSound(w) && Enabled(w, step) && step.Publish?
    ensures DeadSound(Do(w, step))
  {
  }

  lemma DeadStep(w: World, step: Step)
    requires CallsSound(w) && DeadSound(w) && Enabled(w, step)
    ensures DeadSound(Do(w, step))
  {
    match step
    case EvictAll(t) => DeadEvict(w, t);
    case Publish(_, _) => DeadPublish(w, step);
    case _ =>
  }

  lemma {:induction false} SoundRun(w: World, steps: seq<Step>)
    requires Sound(w)
    ensures Sound(Exec(w, steps))
    decreases |steps|
  {
    if steps != [] {
      if Enabled(w, steps[0]) {
        EntriesStep(w, steps[0]);
        GoneStep(w, steps[0]);
        CallsStep(w, steps[0]);
        DeadStep(w, steps[0]);
      }
      SoundRun(Apply(w, steps[0]), steps[1..]);
    }
  }

  /** How a run's later world relates to an earlier one. */
  ghost predicate Later(w: World, w': World) {
    && w.cache.generation <= w'.cache.generation
    && w.ttl == w'.ttl
    && w.revoked <= w'.revoked
    && (forall k :: k in w.dead ==> k in w'.dead && w'.dead[k] == w.dead[k])
    && (forall id :: id in w.calls ==>
            id in w'.calls && w'.calls[id].raw == w.calls[id].raw && w'.calls[id].born == w.calls[id].born)
    && (forall id :: id in w'.calls && id !in w.calls ==> w.cache.generation <= w'.calls[id].born)
  }

  lemma LaterStep(w: World, step: Step)
    requires Enabled(w, step)
    ensures Later(w, Do(w, step))
  {
  }

  lemma {:induction false} LaterRun(w: World, steps: seq<Step>)
    ensures Later(w, Exec(w, steps))
    decreases |steps|
  {
    if steps != [] {
      if Enabled(w, steps[0]) { LaterStep(w, steps[0]); }
      LaterRun(Apply(w, steps[0]), steps[1..]);
    }
  }

  /**
   Revoke a key in the store, then run its eviction: whatever else happens before,
   between and after, and however many lookups were in flight, from then on no cache
   entry carries the key and no call that begins later returns it.
   */
  lemma RevokedStaysOut(start: int, ttl: int, rows: map<string, Principal>, before: seq<Step>, keyId: string,
                        between: seq<Step>, after: seq<Step>)
    requires keyId != ""
    ensures var revoked := Apply(Exec(Init(start, ttl, rows), before), Revoke(keyId));
            var evicted := Apply(Exec(revoked, between), EvictAll(ByKey(keyId)));
            var w := Exec(evicted, after);
            && (forall raw :: raw in w.cache.entries ==> w.cache.entries[raw].principal.keyId != keyId)
            && (forall id :: id in w.calls && id !in evicted.calls && w.calls[id].pc.Returned? ==>
                  w.calls[id].pc.principal.keyId != keyId)
  {
    var revoked := Apply(Exec(Init(start, ttl, rows), before), Revoke(keyId));
    var ready := Exec(revoked, between);
    var evicted := Apply(ready, EvictAll(ByKey(keyId)));
    SoundRun(Init(start, ttl, rows), before);
    assert Sound(revoked) by {
      var w := Exec(Init(start, ttl, rows), before);
      EntriesStep(w, Revoke(keyId));
      GoneStep(w, Revoke(keyId));
      CallsStep(w, Revoke(keyId));
      DeadStep(w, Revoke(keyId));
    }
    SoundRun(revoked, between);
    LaterRun(revoked, between);
    EntriesStep(ready, EvictAll(ByKey(keyId)));
    GoneStep(ready, EvictAll(ByKey(keyId)));
    CallsStep(ready, EvictAll(ByKey(keyId)));
    DeadStep(ready, EvictAll(ByKey(keyId)));
    assert keyId in evicted.dead;
    SoundRun(evicted, after);
    LaterRun(evicted, after);
  }

  /**
   Bounded staleness, and nothing dropped early. Looking a raw key up gives exactly what was last published
   for it, for less than ttl and until the first eviction that means it; and that was once returned by the
   delegate for the same raw key.
   */
  lemma HitsExactly(start: int, ttl: int, rows: map<string, Principal>, steps: seq<Step>, raw: string, p: Principal)
    ensures var w := Exec(Init(start, ttl, rows), steps);
            && (Lookup(w.cache, w.now, raw).1 == Some(p) <==>
                  && raw in w.stamps && w.stamps[raw].principal == p && w.now < w.stamps[raw].at + ttl
                  && (forall i :: w.stamps[raw].evictions <= i < |w.evictions| ==> !Hits(w.evictions[i], p)))
            && (Lookup(w.cache, w.now, raw).1 == Some(p) ==> (raw, p) in w.fetched)
  {
    SoundRun(Init(start, ttl, rows), steps);
    LaterRun(Init(start, ttl, rows), steps);
    var w := Exec(Init(start, ttl, rows), steps);
    hide Exec, Hits, CallsSound, DeadSound;
    if raw in w.stamps && raw !in w.cache.entries && Evicted(w, raw) {
      var i :| w.stamps[raw].evictions <= i < |w.evictions| && Hits(w.evictions[i], w.stamps[raw].principal);
    }
  }

  /** Which principals each kind of eviction means; with an empty id it means none and does nothing. */
  lemma EvictLeaves(c: Cache, id: string, other: string, raw: string)
    requires raw in c.entries
    ensures var p := c.entries[raw].principal;
            && (raw in Evict(c, ByKey(id)).entries <==> id == "" || p.keyId != id)
            && (raw in Evict(c, ByUser(id)).entries <==> id == "" || p.user != id)
            && (raw in Evict(c, ByOrg(id)).entries <==> id == "" || p.org != id)
            && (raw in Evict(c, ByUserOrg(id, other)).entries <==>
                  id == "" || other == "" || p.user != id || p.org != other)
    ensures forall t :: raw in Evict(c, t).entries ==> Evict(c, t).entries[raw] == c.entries[raw]
    ensures forall t :: Evict(c, t).generation == c.generation <==> Evict(c, t) == c
  {
  }

  /**
   The cache never invents a principal: what a call returns and what an entry holds is an API key with an
   organization and a key id, from the delegate; and a call retries at most once per eviction during it.
   */
  lemma CallsAreFaithful(start: int, ttl: int, rows: map<string, Principal>, steps: seq<Step>, id: nat)
    requires id in Exec(Init(start, ttl, rows), steps).calls
    ensures var w := Exec(Init(start, ttl, rows), steps);
            && w.calls[id].retries <= w.cache.generation - w.calls[id].born
            && (w.calls[id].pc.Returned? ==>
                  var p := w.calls[id].pc.principal;
                  p.kind == ApiKey && p.org != "" && p.keyId != "" && (w.calls[id].raw, p) in w.fetched)
            && (forall raw :: raw in w.cache.entries ==>
                  var p := w.cache.entries[raw].principal;
                  p.kind == ApiKey && p.org != "" && p.keyId != "" && (raw, p) in w.fetched)
  {
    SoundRun(Init(start, ttl, rows), steps);
  }

  /** Everything the delegate returned was, at that moment, the store's row for the raw key. */
  lemma FetchedFromStore(w: World, step: Step, raw: string, p: Principal)
    requires (raw, p) in Apply(w, step).fetched && (raw, p) !in w.fetched
    ensures step.Read? && raw in w.rows && w.rows[raw] == p
  {
  }
}
