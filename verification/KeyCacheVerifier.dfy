/**
 The cache as the object it is, and VerifyKey as the retry loop it is, with other
 goroutines running between its steps.
 */
module KeyCacheVerifier {
  import opened Wrappers
  import opened KeyCache

  class CachingKeyVerifier {
    var entries: map<string, Entry>
    var generation: nat
    const ttl: int

    constructor (ttl: int)
      ensures Contents() == Cache(map[], 0) && this.ttl == if ttl <= 0 then 60_000 else ttl
    {
      this.ttl := if ttl <= 0 then 60_000 else ttl;
      entries, generation := map[], 0;
    }

    function Contents(): Cache
      reads this
    {
      Cache(entries, generation)
    }

    method Lookup(now: int, raw: string) returns (found: Option<Principal>)
      modifies this`entries
      ensures (Contents(), found) == KeyCache.Lookup(old(Contents()), now, raw)
    {
      if raw !in entries { return None; }
      var e := entries[raw];
      if !(now < e.expiresAt) {
        entries := entries - {raw};
        return None;
      }
      return Some(e.principal);
    }

    method StoreIfGeneration(now: int, raw: string, p: Principal, observed: nat) returns (ok: bool)
      modifies this`entries
      ensures (Contents(), ok) == StoreIf(old(Contents()), now, ttl, raw, p, observed)
    {
      if generation != observed { return false; }
      entries := entries[raw := Entry(p, now + ttl)];
      return true;
    }

    /** EvictKey, EvictUser, EvictOrg and EvictUserOrg: the map is walked in no particular order. */
    method EvictBy(t: Target)
      modifies this
      ensures Contents() == Evict(old(Contents()), t)
    {
      if Blank(t) { return; }
      generation := generation + 1;
      var todo := entries.Keys;
      while todo != {}
        invariant todo <= entries.Keys
        invariant forall raw :: raw in entries.Keys - todo ==> !Hits(t, entries[raw].principal)
        invariant forall raw :: raw in entries ==> raw in old(entries) && entries[raw] == old(entries[raw])
        invariant forall raw :: raw in old(entries) && raw !in entries ==> Hits(t, old(entries[raw]).principal)
        invariant generation == old(generation) + 1
        decreases |todo|
      {
        var raw :| raw in todo;
        todo := todo - {raw};
        if Hits(t, entries[raw].principal) {
          entries := entries - {raw};
        }
      }
    }
  }

  /**
   One pass of the retry loop as others see it: what they do before each of its steps, and how the
   delegate and the context behave.
   */
  datatype Round = Round(beforeSnap: seq<Step>, beforeRead: seq<Step>, reachable: bool, beforePublish: seq<Step>,
                         cancelled: bool)

  const UNDISTURBED := Round([], [], true, [], false)

  predicate Foreign(step: Step, id: nat) {
    match step
    case Begin(i, _) => i != id
    case Look(i) => i != id
    case Snap(i) => i != id
    case Read(i, _) => i != id
    case Publish(i, _) => i != id
    case _ => true
  }

  predicate AllForeign(steps: seq<Step>, id: nat) { forall s :: s in steps ==> Foreign(s, id) }

  predicate RoundForeign(r: Round, id: nat) {
    AllForeign(r.beforeSnap, id) && AllForeign(r.beforeRead, id) && AllForeign(r.beforePublish, id)
  }

  /** Others never move this call. */
  lemma {:induction false} ForeignKeeps(w: World, steps: seq<Step>, id: nat)
    requires id in w.calls && AllForeign(steps, id)
    ensures id in Exec(w, steps).calls && Exec(w, steps).calls[id] == w.calls[id]
    ensures w.cache.generation <= Exec(w, steps).cache.generation
    decreases |steps|
  {
    if steps != [] {
      assert Foreign(steps[0], id);
      ForeignStep(w, steps[0], id);
      assert forall s :: s in steps[1..] ==> s in steps;
      ForeignKeeps(Apply(w, steps[0]), steps[1..], id);
    }
  }

  lemma ForeignStep(w: World, step: Step, id: nat)
    requires id in w.calls && Foreign(step, id)
    ensures id in Apply(w, step).calls && Apply(w, step).calls[id] == w.calls[id]
    ensures w.cache.generation <= Apply(w, step).cache.generation
  {
  }

  /** The steps of one pass: snapshot, delegate, and publication if the delegate returned a valid principal. */
  function TurnSteps(w: World, id: nat, r: Round): seq<Step> {
    var head := r.beforeSnap + [Snap(id)] + r.beforeRead + [Read(id, r.reachable)];
    var calls := Exec(w, head).calls;
    if id in calls && calls[id].pc.Fetched? then head + r.beforePublish + [Publish(id, r.cancelled)] else head
  }

  function RoundAt(plan: seq<Round>, n: nat): Round { if n < |plan| then plan[n] else UNDISTURBED }

  /** The steps of the first n passes. */
  function Turns(w: World, id: nat, plan: seq<Round>, n: nat): seq<Step> {
    if n == 0 then []
    else
      var prior := Turns(w, id, plan, n - 1);
      prior + TurnSteps(Exec(w, prior), id, RoundAt(plan, n - 1))
  }

  /** Nobody else acts during the pass. */
  predicate Still(r: Round) { r.beforeSnap == [] && r.beforeRead == [] && r.beforePublish == [] }

  /** The row for the raw key, when it is an API key with an organization and a key id. */
  function ApiKeyRow(w: World, raw: string): Option<Principal> {
    if raw in w.rows && w.rows[raw].kind == ApiKey && w.rows[raw].org != "" && w.rows[raw].keyId != ""
    then Some(w.rows[raw]) else None
  }

  /** A pass on its own: the row is returned and published for ttl, or the call fails and nothing is. */
  predicate StillTurn(w: World, w': World, id: nat, r: Round)
    requires id in w.calls
  {
    var raw := w.calls[id].raw;
    var row := if r.reachable then ApiKeyRow(w, raw) else None;
    && id in w'.calls && w'.calls[id].pc == (if row.Some? then Returned(row.value) else Failed)
    && w'.cache == if row.Some? then w.cache.(entries := w.cache.entries[raw := Entry(row.value, w.now + w.ttl)])
                   else w.cache
  }

  lemma StillSteps(w: World, id: nat, r: Round)
    requires id in w.calls && w.calls[id].pc == Missed && Still(r)
    ensures StillTurn(w, Exec(w, TurnSteps(w, id, r)), id, r)
  {
    var snap, read := Apply(w, Snap(id)), Apply(Apply(w, Snap(id)), Read(id, r.reachable));
    assert r.beforeSnap + [Snap(id)] + r.beforeRead + [Read(id, r.reachable)] == [Snap(id), Read(id, r.reachable)];
    TwoSteps(w, Snap(id), Read(id, r.reachable));
    if read.calls[id].pc.Fetched? {
      ExecSplit(w, [Snap(id), Read(id, r.reachable)], [Publish(id, r.cancelled)]);
      OneStep(read, Publish(id, r.cancelled));
      assert TurnSteps(w, id, r) == [Snap(id), Read(id, r.reachable)] + [Publish(id, r.cancelled)];
    }
  }

  lemma OneStep(w: World, a: Step)
    ensures Exec(w, [a]) == Apply(w, a)
  {
    hide Apply;
    assert [a][1..] == [] && Exec(Apply(w, a), []) == Apply(w, a);
  }

  lemma TwoSteps(w: World, a: Step, b: Step)
    ensures Exec(w, [a, b]) == Apply(Apply(w, a), b)
  {
    hide Apply;
    assert [a, b][1..] == [b];
    OneStep(Apply(w, a), b);
  }

  class LiveVerifier {
    var world: World

    constructor (now: int, ttl: int, rows: map<string, Principal>)
      ensures world == Init(now, ttl, rows)
    {
      world := Init(now, ttl, rows);
    }

    method Interleave(steps: seq<Step>, ghost trace: seq<Step>, ghost from: World) returns (ghost trace': seq<Step>)
      requires world == Exec(from, trace)
      modifies this
      ensures world == Exec(old(world), steps) && world == Exec(from, trace') && trace' == trace + steps
    {
      ExecSplit(from, trace, steps);
      trace' := trace + steps;
      var i := 0;
      while i < |steps|
        invariant 0 <= i <= |steps|
        invariant Exec(world, steps[i..]) == Exec(old(world), steps)
      {
        world := Apply(world, steps[i]);
        i := i + 1;
      }
    }

    /** This call's own next step. */
    method Take(step: Step, ghost trace: seq<Step>, ghost from: World) returns (ghost trace': seq<Step>)
      requires world == Exec(from, trace) && Enabled(world, step)
      modifies this
      ensures world == Do(old(world), step) && world == Exec(from, trace') && trace' == trace + [step]
    {
      ExecSplit(from, trace, [step]);
      assert Exec(world, [step]) == Exec(Apply(world, step), []);
      trace' := trace + [step];
      world := Apply(world, step);
    }

    /** Others run, then this call takes its next step, which is still enabled. */
    method After(steps: seq<Step>, id: nat, step: Step, ghost trace: seq<Step>, ghost from: World)
      returns (ghost trace': seq<Step>)
      requires world == Exec(from, trace) && id in world.calls && AllForeign(steps, id)
      requires Enabled(Exec(world, steps), step)
      modifies this
      ensures world == Exec(from, trace') && trace' == trace + steps + [step]
      ensures var w := Exec(old(world), steps);
              world == Do(w, step) && id in w.calls && w.calls[id] == old(world).calls[id]
              && old(world).cache.generation <= w.cache.generation
    {
      ForeignKeeps(world, steps, id);
      trace' := Interleave(steps, trace, from);
      trace' := Take(step, trace', from);
    }

    lemma ExecNothing(w: World)
      ensures Exec(w, []) == w
    {
    }

    /** One pass of the loop: snapshot, delegate, publish. */
    method Turn(id: nat, r: Round, ghost trace: seq<Step>, ghost from: World) returns (ghost trace': seq<Step>)
      requires world == Exec(from, trace) && RoundForeign(r, id)
      requires id in world.calls && world.calls[id].pc == Missed
      modifies this
      ensures world == Exec(from, trace') && trace' == trace + TurnSteps(old(world), id, r)
      ensures id in world.calls && world.calls[id].raw == old(world).calls[id].raw
      ensures old(world).cache.generation <= world.cache.generation
      ensures world.calls[id].pc.Returned? || world.calls[id].pc == Failed || world.calls[id].pc == Missed
      ensures world.calls[id].pc == Missed ==> old(world).cache.generation < world.cache.generation && r != UNDISTURBED
    {
      hide Exec, Apply;
      ForeignKeeps(world, r.beforeSnap, id);
      ExecNothing(world);
      trace' := After(r.beforeSnap, id, Snap(id), trace, from);
      ForeignKeeps(world, r.beforeRead, id);
      ExecNothing(world);
      trace' := After(r.beforeRead, id, Read(id, r.reachable), trace', from);
      ghost var head := r.beforeSnap + [Snap(id)] + r.beforeRead + [Read(id, r.reachable)];
      assert trace' == trace + head;
      ExecSplit(from, trace, head);
      assert world == Exec(old(world), head);
      if world.calls[id].pc.Fetched? {
        ForeignKeeps(world, r.beforePublish, id);
        ExecNothing(world);
        trace' := After(r.beforePublish, id, Publish(id, r.cancelled), trace', from);
      }
    }

    /** The call up to its look into the cache. */
    method Arrive(id: nat, raw: string, arrival: seq<Step>, ghost from: World) returns (ghost trace: seq<Step>)
      requires id !in world.calls && raw != "" && from == world && AllForeign(arrival, id)
      modifies this
      ensures trace == [Begin(id, raw)] + arrival + [Look(id)] && world == Exec(from, trace)
      ensures id in world.calls && world.calls[id].raw == raw
              && (world.calls[id].pc == Missed || world.calls[id].pc.Returned?)
      ensures from.cache.generation <= world.cache.generation
      ensures arrival == [] ==>
                var e := from.cache.entries;
                && world.now == from.now && world.ttl == from.ttl && world.rows == from.rows
                && (raw in e && from.now < e[raw].expiresAt ==>
                      world.calls[id].pc == Returned(e[raw].principal) && world.cache == from.cache)
                && (!(raw in e && from.now < e[raw].expiresAt) ==>
                      world.calls[id].pc == Missed && world.cache == from.cache.(entries := e - {raw}))
    {
      hide Exec;
      ExecNothing(world);
      trace := Take(Begin(id, raw), [], from);
      ExecNothing(world);
      ForeignKeeps(world, arrival, id);
      trace := After(arrival, id, Look(id), trace, from);
    }

    /** The retry loop. */
    method Retry(id: nat, plan: seq<Round>, ghost begun: seq<Step>, ghost from: World)
      returns (rounds: nat, ghost trace: seq<Step>)
      requires world == Exec(from, begun) && id in world.calls
               && (world.calls[id].pc == Missed || world.calls[id].pc.Returned?)
      requires forall r :: r in plan ==> RoundForeign(r, id)
      modifies this
      ensures world == Exec(from, trace) && trace == begun + Turns(old(world), id, plan, rounds)
      ensures id in world.calls && world.calls[id].raw == old(world).calls[id].raw
      ensures world.calls[id].pc == Failed || world.calls[id].pc.Returned?
      ensures old(world).cache.generation <= world.cache.generation
      ensures rounds <= 1 + (world.cache.generation - old(world).cache.generation)
      ensures old(world).calls[id].pc == Missed && Still(RoundAt(plan, 0)) ==>
                StillTurn(old(world), world, id, RoundAt(plan, 0))
      ensures old(world).calls[id].pc.Returned? ==> world == old(world)
    {
      hide Exec, Do, Apply, TurnSteps;
      ghost var looked := world;
      trace, rounds := begun, 0;
      while world.calls[id].pc == Missed
        invariant world == Exec(from, trace) && trace == begun + Turns(looked, id, plan, rounds)
        invariant id in world.calls && world.calls[id].raw == looked.calls[id].raw
        invariant var pc := world.calls[id].pc; pc == Missed || pc == Failed || pc.Returned?
        invariant looked.cache.generation <= world.cache.generation
        invariant rounds <= world.cache.generation - looked.cache.generation
                            + if world.calls[id].pc == Missed then 0 else 1
        invariant world.calls[id].pc == Missed ==> rounds <= |plan|
        invariant rounds == 0 ==> world == looked
        invariant rounds > 0 ==> looked.calls[id].pc == Missed
        invariant rounds > 0 && Still(RoundAt(plan, 0)) ==>
                    rounds == 1 && StillTurn(looked, world, id, RoundAt(plan, 0))
        decreases if world.calls[id].pc == Missed then 1 + |plan| - rounds else 0
      {
        var r := RoundAt(plan, rounds);
        ghost var was := world;
        ExecSplit(from, begun, Turns(looked, id, plan, rounds));
        ExecSplit(from, trace, TurnSteps(was, id, r));
        trace := Turn(id, r, trace, from);
        if Still(r) { StillSteps(was, id, r); }
        rounds := rounds + 1;
      }
    }

    /**
     One VerifyKey call among any others. What it did together with them is a run of
     the cache, with exactly the steps the plan of the others leaves room for, so
     everything proved of runs holds of it; it answers with a principal
     exactly when the call ends Returned with it, and its loop turns at most once more
     than the number of evictions that ran meanwhile. An empty key goes straight to
     the delegate and touches nothing.
     */
    method VerifyKey(id: nat, raw: string, arrival: seq<Step>, plan: seq<Round>)
      returns (answer: Option<Principal>, rounds: nat, ghost trace: seq<Step>)
      requires id !in world.calls
      requires AllForeign(arrival, id) && forall r :: r in plan ==> RoundForeign(r, id)
      modifies this
      ensures world == Exec(old(world), trace)
      ensures raw != "" ==>
                var begun := [Begin(id, raw)] + arrival + [Look(id)];
                trace == begun + Turns(Exec(old(world), begun), id, plan, rounds)
      ensures raw == "" ==> world == old(world) && exists reachable :: answer == Delegate(world, raw, reachable)
      ensures raw != "" ==> id in world.calls && world.calls[id].raw == raw
      ensures raw != "" ==> world.calls[id].pc == if answer.Some? then Returned(answer.value) else Failed
      ensures rounds <= 1 + (world.cache.generation - old(world.cache.generation))
      ensures raw != "" && arrival == [] && Still(RoundAt(plan, 0)) ==>
                var w := old(world); var e := w.cache.entries;
                if raw in e && w.now < e[raw].expiresAt then
                  answer == Some(e[raw].principal) && world.cache == w.cache
                else
                  var row := if RoundAt(plan, 0).reachable then ApiKeyRow(w, raw) else None;
                  && answer == row
                  && world.cache == w.cache.(entries := if row.Some? then e[raw := Entry(row.value, w.now + w.ttl)]
                                                        else e - {raw})
    {
      ghost var from := world;
      if raw == "" {
        var reachable := |plan| == 0 || plan[0].reachable;
        return Delegate(world, raw, reachable), 0, [];
      }
      hide Exec, Do, Apply, TurnSteps;
      trace := Arrive(id, raw, arrival, from);
      assert raw !in from.cache.entries ==> from.cache.entries - {raw} == from.cache.entries;
      rounds, trace := Retry(id, plan, trace, from);
      answer := if world.calls[id].pc.Returned? then Some(world.calls[id].pc.principal) else None;
    }
  }
}
