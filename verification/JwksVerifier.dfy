/** keySetFor and refresh as the code they are, among any other callers. */
module JwksVerifier {
  import opened Wrappers
  import opened Jwks

  /** What others do before each of a call's steps, whether its context ends at the gate, and what its fetch brings. */
  datatype Plan = Plan(beforeLook: seq<Step>, beforeClock: seq<Step>, beforeGate: seq<Step>, cancelled: bool,
                       beforeCheck: seq<Step>, beforeAnswer: seq<Step>, answer: Option<KeySet>,
                       beforePublish: seq<Step>, beforeRelease: seq<Step>)

  predicate Foreign(step: Step, id: nat) { step.Tick? || step.id != id }

  predicate AllForeign(steps: seq<Step>, id: nat) { forall s :: s in steps ==> Foreign(s, id) }

  predicate PlanForeign(p: Plan, id: nat) {
    && AllForeign(p.beforeLook, id) && AllForeign(p.beforeClock, id) && AllForeign(p.beforeGate, id)
    && AllForeign(p.beforeCheck, id)
    && AllForeign(p.beforeAnswer, id) && AllForeign(p.beforePublish, id) && AllForeign(p.beforeRelease, id)
  }

  lemma ForeignStep(w: World, step: Step, id: nat)
    requires id in w.calls && Foreign(step, id)
    ensures id in Apply(w, step).calls && Apply(w, step).calls[id] == w.calls[id]
  {
  }

  /** Others never move this call. */
  lemma {:induction false} ForeignKeeps(w: World, steps: seq<Step>, id: nat)
    requires id in w.calls && AllForeign(steps, id)
    ensures id in Exec(w, steps).calls && Exec(w, steps).calls[id] == w.calls[id]
    decreases |steps|
  {
    hide Apply;
    if steps != [] {
      assert Foreign(steps[0], id);
      ForeignStep(w, steps[0], id);
      assert forall s :: s in steps[1..] ==> s in steps;
      ForeignKeeps(Apply(w, steps[0]), steps[1..], id);
    }
  }

  lemma {:induction false} ExecSplit(w: World, first: seq<Step>, second: seq<Step>)
    ensures Exec(w, first + second) == Exec(Exec(w, first), second)
    decreases |first|
  {
    hide Apply;
    if first == [] {
      assert first + second == second;
    } else {
      assert (first + second)[0] == first[0] && (first + second)[1..] == first[1..] + second;
      ExecSplit(Apply(w, first[0]), first[1..], second);
    }
  }

  // ---------- the steps a call takes, given what the others do ----------

  function PcOf(w: World, id: nat): Pc { if id in w.calls then w.calls[id].pc else Failed }

  function LookSteps(id: nat, kid: string, p: Plan): seq<Step> {
    [Begin(id, kid)] + p.beforeLook + [Observe(id)] + p.beforeClock + [Judge(id)]
  }

  /** A caller whose context ends, or that never gets the gate, gives up. */
  function GateSteps(w: World, id: nat, p: Plan): seq<Step> {
    p.beforeGate + [if p.cancelled || Exec(w, p.beforeGate).gate.Some? then GiveUp(id) else Acquire(id)]
  }

  function FetchSteps(id: nat, p: Plan): seq<Step> {
    p.beforeAnswer + [if p.answer.Some? then FetchReturns(id, p.answer.value) else FetchFails(id)]
      + if p.answer.Some? && |p.answer.value| > 0 then p.beforePublish + [Publish(id)] else []
  }

  /** refresh from the gate to its release. */
  function HeldSteps(w: World, id: nat, p: Plan): seq<Step> {
    var check := p.beforeCheck + [Check(id)];
    check + (if PcOf(Exec(w, check), id).Fetching? then FetchSteps(id, p) else []) + p.beforeRelease + [Release(id)]
  }

  function RefreshSteps(w: World, id: nat, p: Plan): seq<Step> {
    var gate := GateSteps(w, id, p);
    gate + if PcOf(Exec(w, gate), id).Holding? then HeldSteps(Exec(w, gate), id, p) else []
  }

  function CallSteps(w: World, id: nat, kid: string, p: Plan): seq<Step> {
    var look := LookSteps(id, kid, p);
    look + if PcOf(Exec(w, look), id).Waiting? then RefreshSteps(Exec(w, look), id, p) else []
  }

  // ---------- an undisturbed call ----------

  function Reused(v: Verdict): Option<KeySet> { if v.Reuse? then v.current else None }

  predicate Undisturbed(w: World, p: Plan) {
    && p.beforeLook == [] && p.beforeClock == [] && p.beforeGate == [] && p.beforeCheck == [] && p.beforeAnswer == []
    && p.beforePublish == [] && p.beforeRelease == []
    && !p.cancelled && w.gate.None?
  }

  /**
   Left alone a call fetches exactly when there is no set, the set is refreshEvery old or it lacks the
   key id, unless for the key id it would be less than minRefresh after the last fetch. A good answer is
   served and published, otherwise the set at hand is served, if any, and stays as it was.
   */
  ghost predicate QuietOutcome(w: World, kid: string, p: Plan, w': World, served: Option<KeySet>) {
    var old', last := w.cache.keys, w.cache.lastRefresh;
    var aged := old'.None? || w.now - w.cache.fetchedAt >= w.refreshEvery;
    var lacking := old'.Some? && kid != "" && kid !in old'.value;
    var fetches := if lacking then last.None? || w.now - last.value >= w.minRefresh else aged;
    var good := fetches && p.answer.Some? && |p.answer.value| > 0;
    && w'.gate.None?
    && served == (if good then p.answer else w.cache.keys)
    && w'.cache.keys == served
    && w'.cache.generation == w.cache.generation + (if good then 1 else 0)
    && w'.cache.fetchedAt == (if good then w.now else w.cache.fetchedAt)
    && w'.cache.lastRefresh == (if fetches then Some(w.now) else w.cache.lastRefresh)
  }

  class JwtVerifier {
    var keys: Option<KeySet>
    var fetchedAt: int
    var generation: nat
    var lastRefresh: Option<int>
    const refreshEvery: int
    const minRefresh: int

    /** The fields among everything else that goes on. */
    var world: World

    ghost predicate Valid()
      reads this
    {
      && world.cache == Cache(keys, fetchedAt, generation, lastRefresh)
      && world.refreshEvery == refreshEvery && world.minRefresh == minRefresh
      && Sound(world)
    }

    constructor (now: int, refreshEvery: int, minRefresh: int)
      ensures Valid() && world == Init(now, refreshEvery, minRefresh)
    {
      this.refreshEvery, this.minRefresh := refreshEvery, minRefresh;
      keys, fetchedAt, generation, lastRefresh := None, 0, 0, None;
      world := Init(now, refreshEvery, minRefresh);
    }

    /** Others run, and write the same fields. */
    method Interleave(others: seq<Step>)
      requires Valid()
      modifies this
      ensures Valid() && world == Exec(old(world), others)
    {
      SoundRun(world, others);
      SettingsStay(world, others);
      var i := 0;
      while i < |others|
        invariant 0 <= i <= |others|
        invariant Exec(world, others[i..]) == Exec(old(world), others)
      {
        world := Apply(world, others[i]);
        i := i + 1;
      }
      keys, fetchedAt := world.cache.keys, world.cache.fetchedAt;
      generation, lastRefresh := world.cache.generation, world.cache.lastRefresh;
    }

    /** This call's own step; the code writes the fields, the world follows. */
    method Take(step: Step, ghost from: World, ghost trace: seq<Step>)
      requires Sound(world) && Enabled(world, step) && world == Exec(from, trace)
      requires Do(world, step).cache == Cache(keys, fetchedAt, generation, lastRefresh)
      requires world.refreshEvery == refreshEvery && world.minRefresh == minRefresh
      modifies this`world
      ensures Valid() && world == Do(old(world), step) && world == Exec(from, trace + [step])
    {
      SoundRun(world, [step]);
      SettingsStay(world, [step]);
      OneStep(world, step);
      ExecSplit(from, trace, [step]);
      world := Apply(world, step);
    }

    lemma OneStep(w: World, step: Step)
      ensures Exec(w, [step]) == Apply(w, step)
    {
      assert Exec(w, [step]) == Exec(Apply(w, step), []);
    }

    /** Others run before a step of this call. */
    method Wait(others: seq<Step>, id: nat, ghost from: World, ghost trace: seq<Step>)
      requires Valid() && id in world.calls && AllForeign(others, id) && world == Exec(from, trace)
      modifies this
      ensures Valid() && world == Exec(old(world), others) && world == Exec(from, trace + others)
      ensures id in world.calls && world.calls[id] == old(world).calls[id]
      ensures others == [] ==> world == old(world)
    {
      hide Exec, Sound;
      ForeignKeeps(world, others, id);
      ExecSplit(from, trace, others);
      Nothing(world);
      Interleave(others);
    }

    lemma Nothing(w: World)
      ensures Exec(w, []) == w
    {
    }

    /** The part of refresh that asks the identity service. */
    method Fetch(id: nat, p: Plan, ghost from: World, ghost trace: seq<Step>) returns (outcome: Option<KeySet>)
      requires Valid() && id in world.calls && PlanForeign(p, id) && world == Exec(from, trace)
      requires world.calls[id].pc.Fetching?
      modifies this
      ensures Valid() && world == Exec(from, trace + FetchSteps(id, p))
      ensures id in world.calls
              && world.calls[id] == old(world).calls[id].(pc := Leaving(old(world).calls[id].pc.seen, outcome))
      ensures outcome == if p.answer.Some? && |p.answer.value| > 0 then p.answer else None
      ensures p.beforeAnswer == [] && p.beforePublish == [] ==>
                && world.now == old(world).now && world.gate == old(world).gate
                && world.cache == if outcome.Some? then Published(old(world).cache, old(world).now, outcome.value)
                                  else old(world).cache
    {
      hide Exec, Sound;
      Wait(p.beforeAnswer, id, from, trace);
      ghost var asked := trace + p.beforeAnswer;
      if p.answer.None? {
        Take(FetchFails(id), from, asked);
        assert asked + [FetchFails(id)] == trace + FetchSteps(id, p);
        return None;
      }
      Take(FetchReturns(id, p.answer.value), from, asked);
      ghost var answered := asked + [FetchReturns(id, p.answer.value)];
      if |p.answer.value| == 0 {
        assert answered == trace + FetchSteps(id, p);
        return None;
      }
      Wait(p.beforePublish, id, from, answered);
      keys, fetchedAt, generation := p.answer, world.now, generation + 1;
      Take(Publish(id), from, answered + p.beforePublish);
      assert answered + p.beforePublish + [Publish(id)] == trace + FetchSteps(id, p);
      return p.answer;
    }

    /** What refresh finds in the cache once it has the gate, and whether it goes on to fetch. */
    method Consult(id: nat, p: Plan, rateLimited: bool, observed: nat, ghost from: World, ghost trace: seq<Step>)
      returns (fetches: bool, outcome: Option<KeySet>)
      requires Valid() && id in world.calls && PlanForeign(p, id) && world == Exec(from, trace)
      requires world.calls[id].pc.Holding? && world.calls[id].pc.unknownKid == rateLimited
               && world.calls[id].observed == observed
      modifies this
      ensures Valid() && world == Exec(from, trace + (p.beforeCheck + [Check(id)]))
              && world == Exec(old(world), p.beforeCheck + [Check(id)])
      ensures var c := old(world).calls[id];
              id in world.calls
              && world.calls[id] == c.(pc := if fetches then Fetching(c.pc.seen) else Leaving(c.pc.seen, outcome))
      ensures p.beforeCheck == [] ==>
                var w := old(world);
                && world.now == w.now && world.gate == w.gate
                && fetches == (Decide(w.cache, w.now, w.minRefresh, rateLimited, observed) == Jwks.Fetch)
                && world.cache == (if fetches then w.cache.(lastRefresh := Some(w.now)) else w.cache)
                && (!fetches ==> outcome == Reused(Decide(w.cache, w.now, w.minRefresh, rateLimited, observed)))
    {
      hide Exec, Sound;
      Wait(p.beforeCheck, id, from, trace);
      ghost var check := p.beforeCheck + [Check(id)];
      ghost var upto := trace + p.beforeCheck;
      ExecSplit(from, trace, check);
      assert upto + [Check(id)] == trace + check;
      fetches, outcome := false, None;
      if generation != observed {
        outcome := keys;
      } else if rateLimited && lastRefresh.Some? && world.now - lastRefresh.value < minRefresh {
        outcome := if keys.None? then None else keys;
      } else {
        lastRefresh := Some(world.now);
        fetches := true;
      }
      Take(Check(id), from, upto);
    }

    /** refresh once it has the gate, up to its release. */
    method Held(id: nat, p: Plan, rateLimited: bool, observed: nat, ghost from: World, ghost trace: seq<Step>)
      returns (outcome: Option<KeySet>)
      requires Valid() && id in world.calls && PlanForeign(p, id) && world == Exec(from, trace)
      requires world.calls[id].pc.Holding? && world.calls[id].pc.unknownKid == rateLimited
               && world.calls[id].observed == observed
      modifies this
      ensures Valid() && world == Exec(from, trace + HeldSteps(old(world), id, p))
      ensures id in world.calls
              && world.calls[id] == old(world).calls[id].(pc := Settle(old(world).calls[id].pc.seen, outcome))
      ensures Undisturbed(old(world).(gate := None), p) ==>
                var w := old(world);
                && world.gate.None?
                && match Decide(w.cache, w.now, w.minRefresh, rateLimited, observed)
                   case Reuse(current) => world.cache == w.cache && outcome == current
                   case NoCache => world.cache == w.cache && outcome == None
                   case Fetch =>
                     var tried := w.cache.(lastRefresh := Some(w.now));
                     if p.answer.Some? && |p.answer.value| > 0
                     then outcome == p.answer && world.cache == Published(tried, w.now, p.answer.value)
                     else outcome == None && world.cache == tried
    {
      hide Exec, Sound, FetchSteps;
      ghost var held := world;
      ghost var done := trace + (p.beforeCheck + [Check(id)]);
      var fetches: bool;
      fetches, outcome := Consult(id, p, rateLimited, observed, from, trace);
      if fetches {
        outcome := Fetch(id, p, from, done);
        done := done + FetchSteps(id, p);
      }
      Wait(p.beforeRelease, id, from, done);
      Take(Release(id), from, done + p.beforeRelease);
      assert done + p.beforeRelease + [Release(id)] == trace + HeldSteps(held, id, p);
    }

    /** refresh: one at a time through the gate. */
    method Refresh(id: nat, p: Plan, rateLimited: bool, observed: nat, ghost from: World, ghost trace: seq<Step>)
      returns (outcome: Option<KeySet>)
      requires Valid() && id in world.calls && PlanForeign(p, id) && world == Exec(from, trace)
      requires world.calls[id].pc.Waiting? && world.calls[id].pc.unknownKid == rateLimited
               && world.calls[id].observed == observed
      modifies this
      ensures Valid() && world == Exec(from, trace + RefreshSteps(old(world), id, p))
      ensures id in world.calls
              && world.calls[id] == old(world).calls[id].(pc := Settle(old(world).calls[id].pc.seen, outcome))
      ensures Undisturbed(old(world), p) ==>
                var w := old(world);
                && world.gate.None?
                && match Decide(w.cache, w.now, w.minRefresh, rateLimited, observed)
                   case Reuse(current) => world.cache == w.cache && outcome == current
                   case NoCache => world.cache == w.cache && outcome == None
                   case Fetch =>
                     var tried := w.cache.(lastRefresh := Some(w.now));
                     if p.answer.Some? && |p.answer.value| > 0
                     then outcome == p.answer && world.cache == Published(tried, w.now, p.answer.value)
                     else outcome == None && world.cache == tried
    {
      hide Exec, Sound, HeldSteps;
      ghost var waiting := world;
      Wait(p.beforeGate, id, from, trace);
      ghost var gate := GateSteps(waiting, id, p);
      ExecSplit(from, trace, gate);
      if p.cancelled || world.gate.Some? {
        Take(GiveUp(id), from, trace + p.beforeGate);
        assert trace + p.beforeGate + [GiveUp(id)] == trace + gate;
        assert trace + RefreshSteps(waiting, id, p) == trace + gate;
        return None;
      }
      Take(Acquire(id), from, trace + p.beforeGate);
      assert trace + p.beforeGate + [Acquire(id)] == trace + gate;
      outcome := Held(id, p, rateLimited, observed, from, trace + gate);
      assert (trace + gate) + HeldSteps(Exec(waiting, gate), id, p) == trace + RefreshSteps(waiting, id, p);
    }

    /** The first look: what the cache holds, and whether that will do. */
    method Look(id: nat, kid: string, p: Plan, ghost from: World)
      returns (seen: Option<KeySet>, observed: nat, unknownKid: bool, waits: bool)
      requires Valid() && id !in world.calls && AllForeign(p.beforeLook, id) && AllForeign(p.beforeClock, id)
               && from == world
      modifies this
      ensures Valid() && world == Exec(from, LookSteps(id, kid, p))
      ensures !waits ==> seen.Some?
      ensures id in world.calls
      ensures world.calls[id] == Call(if waits then Waiting(seen, unknownKid) else Served(seen.value), observed)
      ensures p.beforeLook == [] && p.beforeClock == [] ==>
                && world == from.(calls := world.calls, judged := world.judged) && seen == from.cache.keys
                && observed == from.cache.generation
                && unknownKid == UnknownKid(from.cache.keys, kid)
                && waits == (Stale(from.cache.keys, from.cache.fetchedAt, from.now, from.refreshEvery) || unknownKid)
    {
      hide Exec, Sound;
      Nothing(world);
      Take(Begin(id, kid), from, []);
      ghost var trace := [Begin(id, kid)];
      assert [] + [Begin(id, kid)] == trace;
      Wait(p.beforeLook, id, from, trace);
      var fetched;
      seen, fetched, observed := keys, fetchedAt, generation;
      Take(Observe(id), from, trace + p.beforeLook);
      trace := trace + p.beforeLook + [Observe(id)];
      Wait(p.beforeClock, id, from, trace);
      var stale := seen.None? || world.now - fetched >= refreshEvery;
      unknownKid := seen.Some? && kid != "" && kid !in seen.value;
      waits := stale || unknownKid;
      Take(Judge(id), from, trace + p.beforeClock);
    }

    /**
     keySetFor among any others. What it did together with them is a run, with exactly the
     steps the others leave room for; it serves a published set no older than the one it
     saw, and nothing only if it saw none. Left alone its outcome is QuietOutcome.
     */
    method KeySetFor(id: nat, kid: string, p: Plan) returns (served: Option<KeySet>)
      requires Valid() && id !in world.calls && PlanForeign(p, id)
      modifies this
      ensures Valid() && world == Exec(old(world), CallSteps(old(world), id, kid, p))
      ensures id in world.calls && world.calls[id].pc == if served.Some? then Served(served.value) else Failed
      ensures served.Some? ==> |served.value| > 0 && SetSince(world, world.calls[id].observed, served.value)
      ensures served.None? ==> world.calls[id].observed == 0
      ensures Undisturbed(old(world), p) ==> QuietOutcome(old(world), kid, p, world, served)
    {
      hide Exec, Sound, RefreshSteps, LookSteps;
      ghost var from := world;
      var seen, observed, unknownKid, waits := Look(id, kid, p, from);
      ghost var look := LookSteps(id, kid, p);
      assert look + [] == look;
      served := seen;
      if waits {
        var refreshed := Refresh(id, p, unknownKid, observed, from, look);
        if refreshed.Some? { served := refreshed; }
      }
      Outcomes(world, id);
    }

    lemma Outcomes(w: World, id: nat)
      requires Sound(w) && id in w.calls
      ensures w.calls[id].pc.Served? ==>
                |w.calls[id].pc.keys| > 0 && SetSince(w, w.calls[id].observed, w.calls[id].pc.keys)
      ensures w.calls[id].pc.Failed? ==> w.calls[id].observed == 0
    {
      var c := w.calls[id];
      assert CallSound(w, c);
      if c.pc.Served? {
        var g :| c.observed <= g <= |w.published| && SetAt(w, g) == Some(c.pc.keys);
      }
    }
  }
}
