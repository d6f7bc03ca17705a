/** The client's connection methods and its event loop, over a world that others keep changing. */
module EventClient {
  import opened Wrappers
  import opened EventCursor

  /** Before each hold of the lock others run, and while a handler is called; a poll may fail. */
  datatype Turn = Turn(others: seq<Step>, meanwhile: seq<Step>, failed: bool)

  /** Each loop is run by its own goroutine. */
  predicate Foreign(s: Step, gen: nat) {
    match s
    case FinishConnect(g, _) => g != gen
    case Look(g) => g != gen
    case Poll(g, _) => g != gen
    case Claim(g) => g != gen
    case Handle(g) => g != gen
    case _ => true
  }

  predicate AllForeign(steps: seq<Step>, gen: nat) { forall s | s in steps :: Foreign(s, gen) }

  lemma ForeignStep(w: World, s: Step, gen: nat)
    requires InStep(w) && Foreign(s, gen) && gen in w.loops
    ensures gen in Apply(w, s).loops && Apply(w, s).loops[gen] == w.loops[gen]
    ensures gen == Apply(w, s).generation ==> gen == w.generation && Apply(w, s).claimed == w.claimed
  {
  }

  lemma {:induction false} ForeignRun(w: World, steps: seq<Step>, gen: nat)
    requires InStep(w) && AllForeign(steps, gen) && gen in w.loops
    ensures var w' := Exec(w, steps);
            && InStep(w') && w.claimed <= w'.claimed && w.handled <= w'.handled && w.generation <= w'.generation
            && gen in w'.loops && w'.loops[gen] == w.loops[gen]
            && (gen == w'.generation ==> gen == w.generation && w'.claimed == w.claimed)
    decreases |steps|
  {
    hide InStep, Apply;
    RunKeeps(w, steps);
    NeverBack(w, steps);
    if steps != [] {
      assert Foreign(steps[0], gen);
      ForeignStep(w, steps[0], gen);
      StepKeeps(w, steps[0]);
      ForeignRun(Apply(w, steps[0]), steps[1..], gen);
    }
  }

  /** Nobody else does anything, and no poll fails. */
  predicate Quiet(turns: seq<Turn>) {
    forall turn | turn in turns :: turn.others == [] && turn.meanwhile == [] && !turn.failed
  }

  /** This loop is the current one and may go on. */
  predicate Alone(w: World, gen: nat, turns: seq<Turn>) { Quiet(turns) && gen == w.generation && gen !in w.cancelled }

  class Client {
    var world: World

    constructor ()
      ensures world == EventCursor.Init()
    {
      world := EventCursor.Init();
    }

    /** Connect up to its request. */
    method StartConnect() returns (gen: nat)
      modifies this
      ensures world == Apply(old(world), BeginConnect) && gen in world.connecting
      ensures gen == world.generation == old(world).generation + 1 && world.current == Some(gen)
      ensures old(world).current.Some? ==> old(world).current.value in world.cancelled
      ensures world.loops == old(world).loops && world.claimed == old(world).claimed && world.after == old(world).after
    {
      if world.current.Some? { world := world.(cancelled := world.cancelled + {world.current.value}); }
      gen := world.generation + 1;
      world := world.(current := Some(gen), generation := gen, connecting := world.connecting + {gen});
    }

    /** Connect after the reply; started tells whether the loop of this generation goes on its way. */
    method EndConnect(gen: nat, ok: bool) returns (started: bool)
      requires gen in world.connecting
      modifies this
      ensures world == Apply(old(world), FinishConnect(gen, ok))
      ensures started <==> ok && gen == world.generation && gen !in world.cancelled
      ensures world.loops == if started then old(world).loops[gen := Top] else old(world).loops
      ensures gen !in world.connecting && (!ok ==> gen in world.cancelled)
    {
      world := world.(connecting := world.connecting - {gen});
      if !ok {
        world := world.(cancelled := world.cancelled + {gen});
        return false;
      }
      if gen != world.generation || gen in world.cancelled { return false; }
      world := world.(loops := world.loops[gen := Top]);
      return true;
    }

    method Disconnect()
      modifies this
      ensures world == Apply(old(world), Step.Disconnect)
      ensures world.generation == old(world).generation + 1 && world.current == None
      ensures old(world).current.Some? ==> old(world).current.value in world.cancelled
      ensures world.loops == old(world).loops && world.claimed == old(world).claimed && world.after == old(world).after
    {
      world := world.(generation := world.generation + 1);
      if world.current.Some? {
        world := world.(cancelled := world.cancelled + {world.current.value}, current := None);
      }
    }

    method Interleave(others: seq<Step>)
      modifies this
      ensures world == Exec(old(world), others)
    {
      var i := 0;
      while i < |others|
        invariant 0 <= i <= |others|
        invariant Exec(world, others[i..]) == Exec(old(world), others)
      {
        world := Apply(world, others[i]);
        i := i + 1;
      }
    }

    /** The world is sound, this loop is at the stage, and while it is the current one nobody else has claimed. */
    ghost predicate At(gen: nat, stage: Stage, before: seq<Event>, mine: seq<Event>)
      reads this
    {
      && InStep(world) && gen in world.loops && world.loops[gen] == stage
      && before + mine <= world.claimed
      && (gen == world.generation ==> world.claimed == before + mine)
    }

    /** Others run before the loop's next hold of the lock. */
    method Wait(gen: nat, others: seq<Step>, ghost stage: Stage, ghost before: seq<Event>, ghost mine: seq<Event>)
      requires At(gen, stage, before, mine) && AllForeign(others, gen)
      modifies this
      ensures At(gen, stage, before, mine) && (others == [] ==> world == old(world))
              && old(world).handled <= world.handled
    {
      ForeignRun(world, others, gen);
      Interleave(others);
    }

    /** One round of the loop over a batch: the event is claimed under the lock and handled outside it. */
    method Next(gen: nat, batch: seq<Event>, turn: Turn, ghost before: seq<Event>, ghost mine: seq<Event>)
      returns (claimed: bool)
      requires At(gen, Reading(batch), before, mine) && batch != []
      requires AllForeign(turn.others, gen) && AllForeign(turn.meanwhile, gen)
      modifies this
      ensures old(world).handled <= world.handled
      ensures claimed ==> At(gen, Reading(batch[1..]), before, mine + [batch[0]]) && batch[0] in world.handled
      ensures !claimed ==> At(gen, Ended, before, mine)
      ensures Alone(old(world), gen, [turn]) ==>
                && claimed && world.after == old(world).after + 1 && world.log == old(world).log
                && world.generation == old(world).generation && world.cancelled == old(world).cancelled
    {
      hide InStep, Exec, Apply;
      assert turn in [turn];
      Wait(gen, turn.others, Reading(batch), before, mine);
      ghost var met := world;
      ClaimKeeps(world, gen, batch);
      if gen in world.cancelled || gen != world.generation {
        world := world.(loops := world.loops[gen := Ended]);
        assert world == Claimed(met, gen, batch);
        return false;
      }
      var event, last := batch[0], world.after;
      assert event.sequence == last + 1;
      if event.sequence > last { world := world.(after := event.sequence); }
      world := world.(claimed := world.claimed + [event], loops := world.loops[gen := Handling(event, batch[1..])]);
      assert world == Claimed(met, gen, batch);
      assert before + (mine + [event]) == before + mine + [event];
      Wait(gen, turn.meanwhile, Handling(event, batch[1..]), before, mine + [event]);
      CallKeeps(world, gen, event, batch[1..]);
      world := world.(handled := world.handled + [event], loops := world.loops[gen := Reading(batch[1..])]);
      return true;
    }

    /** The part of the loop over one batch. */
    method Read(gen: nat, batch: seq<Event>, turns: seq<Turn>, first: nat, ghost before: seq<Event>,
                ghost mine: seq<Event>)
      returns (claims: seq<Event>, t: nat, ended: bool)
      requires At(gen, Reading(batch), before, mine) && first <= |turns|
      requires forall turn | turn in turns :: AllForeign(turn.others, gen) && AllForeign(turn.meanwhile, gen)
      modifies this
      ensures first <= t <= |turns| && claims <= batch
      ensures old(world).handled <= world.handled && forall e | e in claims :: e in world.handled
      ensures exists stage :: At(gen, stage, before, mine + claims) && (!ended && t < |turns| ==> stage == Top)
      ensures !ended ==> t == |turns| || claims == batch
      ensures Alone(old(world), gen, turns) ==>
                !ended && |claims| == t - first && (claims == batch || t == |turns|)
                && world.after == old(world.after) + |claims| && world.log == old(world.log)
                && world.generation == old(world.generation) && world.cancelled == old(world.cancelled)
    {
      claims, t := [], first;
      var i := 0;
      assert batch[0..] == batch && mine + claims == mine;
      while i < |batch| && t < |turns|
        invariant 0 <= i <= |batch| && first <= t <= |turns|
        invariant claims == batch[..i] && (forall e | e in claims :: e in world.handled)
                  && old(world).handled <= world.handled
        invariant At(gen, Reading(batch[i..]), before, mine + claims)
        invariant Alone(old(world), gen, turns) ==>
                    i == t - first && world.after == old(world.after) + i && world.log == old(world.log)
                    && world.generation == old(world.generation) && world.cancelled == old(world.cancelled)
        decreases |turns| - t
      {
        assert forall turn | turn in [turns[t]] :: turn in turns;
        var claimed := Next(gen, batch[i..], turns[t], before, mine + claims);
        t := t + 1;
        if !claimed {
          assert At(gen, Ended, before, mine + claims);
          return claims, t, true;
        }
        assert batch[i..][1..] == batch[i + 1..];
        assert mine + claims + [batch[i]] == mine + (claims + [batch[i]]);
        claims := claims + [batch[i]];
        i := i + 1;
      }
      assert At(gen, Reading(batch[i..]), before, mine + claims);
      if i == |batch| {
        ClaimKeeps(world, gen, []);
        world := world.(loops := world.loops[gen := Top]);
        assert At(gen, Top, before, mine + claims);
      }
      return claims, t, false;
    }

    /** The head of the loop: the cursor is read, then the peer is asked for what lies behind it. */
    method Ask(gen: nat, turn: Turn, ghost before: seq<Event>, ghost mine: seq<Event>)
      returns (batch: Option<seq<Event>>)
      requires At(gen, Top, before, mine) && AllForeign(turn.others, gen) && gen !in world.cancelled
      modifies this
      ensures old(world).handled <= world.handled
      ensures if batch.Some? then At(gen, Reading(batch.value), before, mine)
              else exists stage :: At(gen, stage, before, mine)
      ensures Alone(old(world), gen, [turn]) ==>
                && world == old(world).(loops := world.loops)
                && batch == if world.after < |world.log| then Some(world.log[world.after..]) else None
    {
      assert turn in [turn];
      Wait(gen, turn.others, Top, before, mine);
      StepKeeps(world, Look(gen));
      var after, active := world.after, gen == world.generation;
      if !active || gen in world.cancelled {
        assert At(gen, Top, before, mine);
        return None;
      }
      world := world.(loops := world.loops[gen := Polling(after)]);
      Wait(gen, turn.others, Polling(after), before, mine);
      if turn.failed || after >= |world.log| {
        assert At(gen, Polling(after), before, mine);
        return None;
      }
      PollKeeps(world, gen);
      batch := Some(world.log[after..]);
      world := world.(loops := world.loops[gen := Reading(batch.value)]);
    }

    /**
     Client.events, for as long as there are turns, or until a poll is left waiting. claims are the
     events this loop claimed, for each of which it then called the handler.
     */
    method Events(gen: nat, turns: seq<Turn>) returns (claims: seq<Event>)
      requires InStep(world) && gen in world.loops && world.loops[gen] == Top
      requires forall turn | turn in turns :: AllForeign(turn.others, gen) && AllForeign(turn.meanwhile, gen)
      modifies this
      ensures InStep(world)
      ensures old(world).claimed + claims <= world.claimed && forall e | e in claims :: e in world.handled
      ensures Alone(old(world), gen, turns) && |turns| > |old(world).log| - old(world).after ==>
                claims == old(world).log[old(world).after..]
    {
      ghost var before := world.claimed;
      claims := [];
      var t := 0;
      ghost var stage := Top;
      assert before + claims == before;
      while t < |turns| && gen !in world.cancelled
        invariant t <= |turns|
        invariant At(gen, stage, before, claims)
        invariant t < |turns| ==> stage == Top
        invariant forall e | e in claims :: e in world.handled
        invariant Alone(old(world), gen, turns) ==>
                    && world.log == old(world).log && world.generation == old(world).generation
                    && world.cancelled == old(world).cancelled
                    && world.after == old(world).after + |claims|
                    && (t == 0 ==> claims == [])
                    && (t > 0 ==> claims == world.log[old(world).after..] || t == |turns|) && t <= |claims| + 1
        decreases |turns| - t
      {
        assert forall turn | turn in [turns[t]] :: turn in turns;
        var batch := Ask(gen, turns[t], before, claims);
        t := t + 1;
        if batch.None? { return; }
        var more, t', ended := Read(gen, batch.value, turns, t, before, claims);
        claims, t := claims + more, t';
        if ended { return; }
        stage :| At(gen, stage, before, claims) && (t < |turns| ==> stage == Top);
      }
    }
  }
}
