/**
 The event log of the simulated peer and the clients that follow it. Each Connect
 starts a loop of its own generation; a loop notices only between events that it has
 been replaced, so loops of several generations are about at once. One step is one
 hold of a lock, or one answer to a poll.
 */
module EventCursor {
  import opened Wrappers

  datatype Event = Event(sequence: nat, body: string)

  /** Handling is outside the lock: the event is claimed, its handler about to be called. */
  datatype Stage = Top | Polling(from: nat) | Reading(batch: seq<Event>)
                 | Handling(event: Event, rest: seq<Event>) | Ended

  /**
   loops: the event loop of each generation that got one
   current: the context c.cancel would cancel; contexts go by their generation
   claimed: the events claimed by moving the cursor, in that order
   handled: the events whose handler was called, in the order of the calls
   */
  datatype World = World(
    log: seq<Event>,
    after: nat,
    generation: nat,
    current: Option<nat>,
    cancelled: set<nat>,
    connecting: set<nat>,
    loops: map<nat, Stage>,
    claimed: seq<Event>,
    handled: seq<Event>)

  function Init(): World { World([], 0, 0, None, {}, {}, map[], [], []) }

  datatype Step =
    | Append(body: string)
    | BeginConnect
    | FinishConnect(gen: nat, ok: bool)
    | Disconnect
    | Look(gen: nat)
    | Poll(gen: nat, failed: bool)
    | Claim(gen: nat)
    | Handle(gen: nat)

  /** appendEvent. */
  function Appended(log: seq<Event>, body: string): seq<Event> { log + [Event(|log| + 1, body)] }

  function Cancel(w: World): set<nat> { if w.current.Some? then w.cancelled + {w.current.value} else w.cancelled }

  function Begun(w: World): World {
    var g := w.generation + 1;
    w.(cancelled := Cancel(w), current := Some(g), generation := g, connecting := w.connecting + {g})
  }

  /** The reply to a connect counts only while it is the latest. */
  function Finished(w: World, gen: nat, ok: bool): World {
    var v := w.(connecting := w.connecting - {gen});
    if !ok then v.(cancelled := w.cancelled + {gen})
    else if gen != w.generation || gen in w.cancelled then v
    else v.(loops := w.loops[gen := Top])
  }

  function Disconnected(w: World): World {
    w.(generation := w.generation + 1, cancelled := Cancel(w), current := None)
  }

  function Looked(w: World, gen: nat): World {
    w.(loops := w.loops[gen := if gen in w.cancelled || gen != w.generation then Ended else Polling(w.after)])
  }

  /** pollEvents answers with everything behind the cursor it was given. */
  function Polled(w: World, gen: nat, from: nat, failed: bool): World
    requires !failed ==> from < |w.log|
  {
    w.(loops := w.loops[gen := if failed then Ended else Reading(w.log[from..])])
  }

  /** One round of the loop over a batch. */
  function Claimed(w: World, gen: nat, batch: seq<Event>): World {
    if batch == [] then w.(loops := w.loops[gen := Top])
    else if gen in w.cancelled || gen != w.generation then w.(loops := w.loops[gen := Ended])
    else if batch[0].sequence <= w.after then w.(loops := w.loops[gen := Reading(batch[1..])])
    else w.(after := batch[0].sequence, claimed := w.claimed + [batch[0]],
            loops := w.loops[gen := Handling(batch[0], batch[1..])])
  }

  /** The handler runs whether or not the loop has been replaced meanwhile. */
  function Called(w: World, gen: nat, event: Event, rest: seq<Event>): World {
    w.(handled := w.handled + [event], loops := w.loops[gen := Reading(rest)])
  }

  predicate Enabled(w: World, s: Step) {
    match s
    case FinishConnect(gen, _) => gen in w.connecting
    case Look(gen) => gen in w.loops && w.loops[gen] == Top
    case Poll(gen, failed) => gen in w.loops && w.loops[gen].Polling? && (!failed ==> w.loops[gen].from < |w.log|)
    case Claim(gen) => gen in w.loops && w.loops[gen].Reading?
    case Handle(gen) => gen in w.loops && w.loops[gen].Handling?
    case _ => true
  }

  function Apply(w: World, s: Step): World {
    if !Enabled(w, s) then w
    else
      match s
      case Append(body) => w.(log := Appended(w.log, body))
      case BeginConnect => Begun(w)
      case FinishConnect(gen, ok) => Finished(w, gen, ok)
      case Disconnect => Disconnected(w)
      case Look(gen) => Looked(w, gen)
      case Poll(gen, failed) => Polled(w, gen, w.loops[gen].from, failed)
      case Claim(gen) => Claimed(w, gen, w.loops[gen].batch)
      case Handle(gen) => Called(w, gen, w.loops[gen].event, w.loops[gen].rest)
  }

  function Exec(w: World, steps: seq<Step>): World
    decreases |steps|
  {
    if steps == [] then w else Exec(Apply(w, steps[0]), steps[1..])
  }

  // ---------- the invariant ----------

  /** Sequence numbers are exactly 1 to n. */
  predicate Numbered(log: seq<Event>) { forall i | 0 <= i < |log| :: log[i].sequence == i + 1 }

  /** What has been claimed is the log up to the cursor. */
  predicate Followed(w: World) { w.after <= |w.log| && w.claimed == w.log[..w.after] }

  /** Only the loop of the current generation matters, and it stands at the cursor. */
  predicate Stands(w: World, stage: Stage) {
    match stage
    case Top => true
    case Polling(from) => from == w.after
    case Reading(batch) => w.after + |batch| <= |w.log| && batch == w.log[w.after..w.after + |batch|]
    case Handling(_, rest) => w.after + |rest| <= |w.log| && rest == w.log[w.after..w.after + |rest|]
    case Ended => true
  }

  predicate Fenced(w: World) {
    && (forall g | g in w.loops :: g <= w.generation && g !in w.connecting)
    && (forall g | g in w.connecting :: g <= w.generation)
    && (w.generation in w.loops ==> Stands(w, w.loops[w.generation]))
  }

  predicate InStep(w: World) { Numbered(w.log) && Followed(w) && Fenced(w) }

  lemma AppendKeeps(w: World, body: string)
    requires InStep(w)
    ensures InStep(w.(log := Appended(w.log, body)))
  {
    var log' := Appended(w.log, body);
    assert log'[..w.after] == w.log[..w.after];
    if w.generation in w.loops && (w.loops[w.generation].Reading? || w.loops[w.generation].Handling?) {
      var n := |if w.loops[w.generation].Reading? then w.loops[w.generation].batch else w.loops[w.generation].rest|;
      assert log'[w.after..w.after + n] == w.log[w.after..w.after + n];
    }
  }

  lemma ClaimKeeps(w: World, gen: nat, batch: seq<Event>)
    requires InStep(w) && gen in w.loops && w.loops[gen] == Reading(batch)
    ensures InStep(Claimed(w, gen, batch))
    ensures gen == w.generation && batch != [] ==> batch[0].sequence == w.after + 1 && batch[0] == w.log[w.after]
  {
    if gen == w.generation && batch != [] {
      assert batch[0] == w.log[w.after];
      assert w.log[..w.after + 1] == w.log[..w.after] + [batch[0]];
      assert batch[1..] == w.log[w.after + 1..w.after + |batch|];
    }
  }

  lemma ConnectKeeps(w: World, gen: nat, ok: bool)
    requires InStep(w)
    ensures InStep(Begun(w)) && InStep(Disconnected(w))
    ensures gen in w.connecting ==> InStep(Finished(w, gen, ok))
  {
  }

  lemma LookKeeps(w: World, gen: nat)
    requires InStep(w) && gen in w.loops
    ensures InStep(Looked(w, gen)) && InStep(w.(loops := w.loops[gen := Ended]))
  {
  }

  lemma CallKeeps(w: World, gen: nat, event: Event, rest: seq<Event>)
    requires InStep(w) && gen in w.loops && w.loops[gen] == Handling(event, rest)
    ensures InStep(Called(w, gen, event, rest))
  {
  }

  lemma StepKeeps(w: World, s: Step)
    requires InStep(w)
    ensures InStep(Apply(w, s))
  {
    hide InStep, Appended, Begun, Disconnected, Finished, Looked, Claimed, Called;
    if Enabled(w, s) {
      match s
      case Append(body) => AppendKeeps(w, body);
      case BeginConnect => ConnectKeeps(w, 0, false);
      case FinishConnect(gen, ok) => ConnectKeeps(w, gen, ok);
      case Disconnect => ConnectKeeps(w, 0, false);
      case Look(gen) => LookKeeps(w, gen);
      case Poll(gen, failed) => if failed { LookKeeps(w, gen); } else { PollKeeps(w, gen); }
      case Claim(gen) => ClaimKeeps(w, gen, w.loops[gen].batch);
      case Handle(gen) => CallKeeps(w, gen, w.loops[gen].event, w.loops[gen].rest);
    }
  }

  lemma PollKeeps(w: World, gen: nat)
    requires InStep(w) && Enabled(w, Poll(gen, false))
    ensures InStep(Apply(w, Poll(gen, false)))
  {
    var from := w.loops[gen].from;
    assert w.log[from..] == w.log[from..from + |w.log[from..]|];
  }

  lemma {:induction false} RunKeeps(w: World, steps: seq<Step>)
    requires InStep(w)
    ensures InStep(Exec(w, steps))
    decreases |steps|
  {
    hide InStep, Apply;
    if steps != [] {
      StepKeeps(w, steps[0]);
      RunKeeps(Apply(w, steps[0]), steps[1..]);
    }
  }

  /**
   Whatever connects, disconnects, failures and stale loops there were: the log's events have
   been claimed, each once, in order and without gaps, up to the cursor.
   */
  lemma ClaimedInOrder(steps: seq<Step>)
    ensures var w := Exec(Init(), steps);
            && w.after <= |w.log| && w.claimed == w.log[..w.after]
            && (forall i | 0 <= i < |w.log| :: w.log[i].sequence == i + 1)
            && (forall i | 0 <= i < |w.claimed| :: w.claimed[i].sequence == i + 1)
  {
    RunKeeps(Init(), steps);
  }

  /**
   A claim by the current loop is of the very next event, so no event is ever skipped as old; a
   stale loop claims nothing.
   */
  lemma NextInLine(steps: seq<Step>, gen: nat)
    ensures var w := Exec(Init(), steps);
            Enabled(w, Claim(gen)) && w.loops[gen].batch != [] ==>
              var w' := Apply(w, Claim(gen));
              if gen == w.generation && gen !in w.cancelled
              then w.after < |w.log| && w'.after == w.after + 1 && w'.claimed == w.claimed + [w.log[w.after]]
                   && w.loops[gen].batch[0] == w.log[w.after]
              else w' == w.(loops := w.loops[gen := Ended])
  {
    RunKeeps(Init(), steps);
    var w := Exec(Init(), steps);
    if Enabled(w, Claim(gen)) { ClaimKeeps(w, gen, w.loops[gen].batch); }
  }

  /**
   A loop asks only while it is current and not cancelled, and is given everything it has not
   claimed; any other ends.
   */
  lemma AsksForTheRest(steps: seq<Step>, gen: nat)
    ensures var w := Exec(Init(), steps); var goes := gen == w.generation && gen !in w.cancelled;
            && (Enabled(w, Look(gen)) ==>
                  Apply(w, Look(gen)) == w.(loops := w.loops[gen := if goes then Polling(w.after) else Ended]))
            && (Enabled(w, Poll(gen, false)) && gen == w.generation ==>
                  w.after < |w.log|
                  && Apply(w, Poll(gen, false)) == w.(loops := w.loops[gen := Reading(w.log[w.after..])]))
            && (Enabled(w, Poll(gen, true)) ==> Apply(w, Poll(gen, true)) == w.(loops := w.loops[gen := Ended]))
  {
    RunKeeps(Init(), steps);
  }

  // ---------- the handlers ----------

  /** The event is in the hands of this loop. */
  predicate Holds(w: World, gen: nat, e: Event) { gen in w.loops && w.loops[gen].Handling? && w.loops[gen].event == e }

  /** Each claimed event is handled once, or in the hands of exactly one loop that is about to. */
  ghost predicate HandledOnce(w: World) {
    && (forall e | e in w.handled :: e in w.claimed)
    && (forall i, j | 0 <= i < j < |w.handled| :: w.handled[i] != w.handled[j])
    && (forall g, e | Holds(w, g, e) :: e in w.claimed && e !in w.handled)
    && (forall g, h, e | Holds(w, g, e) && Holds(w, h, e) :: g == h)
    && (forall e | e in w.claimed :: e in w.handled || exists g :: Holds(w, g, e))
  }

  /** Loops are at it as before, and nothing was claimed or handled. */
  ghost predicate SameHands(w: World, w': World) {
    w'.claimed == w.claimed && w'.handled == w.handled && forall g, e :: Holds(w', g, e) <==> Holds(w, g, e)
  }

  lemma SameKeeps(w: World, w': World)
    requires HandledOnce(w) && SameHands(w, w')
    ensures HandledOnce(w')
  {
    hide Holds;
    forall e | e in w'.claimed && e !in w'.handled ensures exists g :: Holds(w', g, e) {
      var g :| Holds(w, g, e);
      assert Holds(w', g, e);
    }
  }

  lemma HandleKeeps(w: World, gen: nat)
    requires HandledOnce(w) && Enabled(w, Handle(gen))
    ensures HandledOnce(Apply(w, Handle(gen)))
  {
    var w', event := Apply(w, Handle(gen)), w.loops[gen].event;
    assert Holds(w, gen, event);
    forall e | e in w'.claimed && e !in w'.handled ensures exists g :: Holds(w', g, e) {
      var g :| Holds(w, g, e);
      assert Holds(w', g, e);
    }
    forall g, e | Holds(w', g, e) ensures e in w'.claimed && e !in w'.handled { assert Holds(w, g, e); }
    forall g, h, e | Holds(w', g, e) && Holds(w', h, e) ensures g == h { assert Holds(w, g, e) && Holds(w, h, e); }
  }

  lemma TakeKeeps(w: World, w': World, gen: nat, event: Event)
    requires HandledOnce(w) && event !in w.claimed && w'.claimed == w.claimed + [event] && w'.handled == w.handled
    requires forall g, e :: Holds(w', g, e) <==> Holds(w, g, e) || (g == gen && e == event)
    ensures HandledOnce(w')
  {
    hide Holds;
    forall e | e in w'.claimed && e !in w'.handled ensures exists g :: Holds(w', g, e) {
      if e == event {
        assert Holds(w', gen, event);
      } else {
        var g :| Holds(w, g, e);
        assert Holds(w', g, e);
      }
    }
  }

  /** Whose turn it is to claim holds nothing, and the next event is new. */
  lemma ClaimHands(w: World, gen: nat)
    requires InStep(w) && HandledOnce(w) && Enabled(w, Claim(gen))
    ensures HandledOnce(Apply(w, Claim(gen)))
  {
    var w', batch := Apply(w, Claim(gen)), w.loops[gen].batch;
    if w'.claimed == w.claimed {
      SameKeeps(w, w');
    } else {
      ClaimKeeps(w, gen, batch);
      NewEvent(w);
      TakeKeeps(w, w', gen, batch[0]);
    }
  }

  lemma NewEvent(w: World)
    requires InStep(w) && w.after < |w.log|
    ensures w.log[w.after] !in w.claimed
  {
    forall i | 0 <= i < |w.claimed| ensures w.claimed[i] != w.log[w.after] {
      assert w.claimed[i] == w.log[i];
    }
  }

  lemma StepHands(w: World, s: Step)
    requires InStep(w) && HandledOnce(w)
    ensures HandledOnce(Apply(w, s))
  {
    hide HandledOnce;
    if Enabled(w, s) {
      match s
      case Claim(gen) => ClaimHands(w, gen);
      case Handle(gen) => HandleKeeps(w, gen);
      case _ =>
        assert SameHands(w, Apply(w, s));
        SameKeeps(w, Apply(w, s));
    }
  }

  lemma {:induction false} RunHands(w: World, steps: seq<Step>)
    requires InStep(w) && HandledOnce(w)
    ensures HandledOnce(Exec(w, steps))
    decreases |steps|
  {
    hide InStep, HandledOnce, Apply;
    if steps != [] {
      StepHands(w, steps[0]);
      StepKeeps(w, steps[0]);
      RunHands(Apply(w, steps[0]), steps[1..]);
    }
  }

  /** No event is handled twice, and none that was claimed is lost: it has been handled, or one loop is about to. */
  lemma EachEventHandledOnce(steps: seq<Step>)
    ensures HandledOnce(Exec(Init(), steps))
  {
    RunHands(Init(), steps);
  }

  // ---------- progress ----------

  predicate Onward(w: World, w': World) {
    && w.after <= w'.after && w.generation <= w'.generation
    && w.claimed <= w'.claimed && w.handled <= w'.handled && w.log <= w'.log
  }

  lemma StepOnward(w: World, s: Step)
    requires InStep(w)
    ensures Onward(w, Apply(w, s))
  {
  }

  /** The cursor never moves back, and what was claimed stays claimed. */
  lemma {:induction false} NeverBack(w: World, steps: seq<Step>)
    requires InStep(w)
    ensures Onward(w, Exec(w, steps))
    decreases |steps|
  {
    hide InStep, Apply;
    if steps != [] {
      StepOnward(w, steps[0]);
      StepKeeps(w, steps[0]);
      NeverBack(Apply(w, steps[0]), steps[1..]);
    }
  }
}
