/** The worker as the code it is: step and process, over a world that others keep changing. */
module MediaWorker {
  import opened Wrappers
  import opened Media
  import opened MediaAsset
  import opened MediaRuns

  /** Before each act others run; then the world answers. */
  datatype Turn = Turn(others: seq<Step>, ok: bool, reply: Reply, got: Fetched, version: Option<string>)

  datatype Failure = NoFailure | Transfer | Policy

  /** Where an error leaves the transaction. */
  function StageAfter(f: Failure): Stage {
    match f case NoFailure => Committing case Policy => Rejecting case Transfer => Retrying
  }

  /** No other worker touches a locked row. */
  predicate Foreign(s: Step, id: Id) { (s.Pick? || s.Act? || s.Commit? || s.Rollback?) ==> s.id != id }

  predicate AllForeign(steps: seq<Step>, id: Id) { forall s | s in steps :: Foreign(s, id) }

  ghost predicate Courteous(env: nat -> Turn, id: Id) { forall n :: AllForeign(env(n).others, id) }

  /** Nothing the worker asks for fails. */
  ghost predicate Smooth(env: nat -> Turn) { forall n :: env(n).ok && env(n).reply == Done && env(n).got == Bytes }

  /** Everything the worker asks for is answered, though perhaps with content it must reject. */
  ghost predicate Answering(env: nat -> Turn) { forall n :: env(n).ok && env(n).reply == Done && env(n).got != Broken }

  lemma ForeignStep(w: World, s: Step, id: Id)
    requires Sound(w) && Foreign(s, id) && id in w.working
    ensures id in Apply(w, s).working && Apply(w, s).working[id] == w.working[id]
    ensures Apply(w, s).now >= w.now && Apply(w, s).timing == w.timing
  {
    hide Perform, View, Where, AssetOk;
  }

  lemma SoundActive(w: World, id: Id)
    requires Sound(w) && id in w.working
    ensures Active(w, id) && CellOk(w.now, View(w, id))
  {
    hide Good, CellOk;
    assert AssetOk(w, id);
  }

  /** The connection of a locked row is always found. */
  lemma PlaceFound(w: World, id: Id)
    requires Sound(w) && id in w.working
    ensures Place(w, w.working[id].row).Some?
  {
    hide Good, AtStage;
    SoundActive(w, id);
    SameRow(w.now, View(w, id));
    assert AssetOk(w, id);
  }

  /** A worker that gets as far as downloading has its source, and the object is not there. */
  lemma ReadyToUpload(now: int, c: Cell)
    requires CellOk(now, c) && c.work.stage in {Fetching, Storing}
    ensures c.work.row.source && c.stored.None?
  {
  }

  /** The row once its notification is out. */
  function Silenced(staged: Row, a: Row): Row {
    staged.(note := None, next := if a.status == Ready then Deadline(a) else MAX)
  }

  /** What a step achieves when nothing fails. */
  predicate Advanced(a: Row, b: Row, from: int, till: int) {
    if a.note.Some? && (a.status == Expired || !Past(a, from)) then b == Silenced(a, a)
    else
      && Recorded(b, b) && SameAsset(a, b) && from <= b.next <= till
      && (b.status == Expired || (b.status == Ready && !Past(a, from)))
      && (b.status == Expired ==> Past(a, till))
  }

  /** The row as process writes it, with the matching notification. */
  predicate Recorded(staged: Row, a: Row) {
    && staged.status == a.status && staged.version == a.version && staged.attempts == 0 && !staged.source
    && staged.note == Some(if a.status == Expired then ExpiredNote else ReadyNote)
  }

  /** Rows a worker may take, and the order it takes them in; locked ones are skipped. */
  predicate Selectable(w: World, id: Id) { id in w.rows && id !in w.working && w.rows[id].next <= w.now }

  predicate NoLater(w: World, a: Id, b: Id)
    requires a in w.rows && b in w.rows
  {
    w.rows[a].next < w.rows[b].next || (w.rows[a].next == w.rows[b].next && a <= b)
  }

  class Service {
    var world: World
    ghost var start: World
    ghost var trace: seq<Step>

    /** Everything done so far is a run. */
    ghost predicate Valid()
      reads this
    {
      Sound(start) && Sound(world) && world == Exec(start, trace)
    }

    constructor (w: World)
      requires Sound(w)
      ensures Valid() && world == w && start == w
    {
      world, start, trace := w, w, [];
    }

    method Take(s: Step)
      requires Valid()
      modifies this
      ensures Valid() && start == old(start) && trace == old(trace) + [s] && world == Apply(old(world), s)
    {
      hide Apply, Exec, Sound;
      StepSound(world, s);
      ExecSnoc(start, trace, s);
      world := Apply(world, s);
      trace := trace + [s];
    }

    method Interleave(others: seq<Step>, id: Id)
      requires Valid() && id in world.working && AllForeign(others, id)
      modifies this
      ensures Valid() && start == old(start) && trace == old(trace) + others
      ensures id in world.working && world.working[id] == old(world.working[id])
      ensures world.now >= old(world.now) && world.timing == old(world.timing)
    {
      hide Apply, Exec, Sound, Foreign;
      var i := 0;
      while i < |others|
        invariant 0 <= i <= |others|
        invariant Valid() && start == old(start) && trace == old(trace) + others[..i]
        invariant id in world.working && world.working[id] == old(world.working[id])
        invariant world.now >= old(world.now) && world.timing == old(world.timing)
      {
        ForeignStep(world, others[i], id);
        Take(others[i]);
        i := i + 1;
      }
      assert others[..|others|] == others;
    }

    /** Others run, then this worker acts; c is what it met. */
    method Do(others: seq<Step>, id: Id, act: Act) returns (c: Cell, place: Option<Dest>)
      requires Valid() && id in world.working && AllForeign(others, id)
      modifies this
      ensures Valid() && start == old(start) && trace == old(trace) + others + [Step.Act(id, act)]
      ensures world.now >= old(world.now) && world.timing == old(world.timing)
      ensures c.work == old(world.working[id]) && CellOk(world.now, c) && place.Some?
      ensures id in world.working && world.working[id] == Perform(world.now, world.timing, place, c, act).work
    {
      hide Sound, Exec, Perform, CellOk, Foreign;
      Interleave(others, id);
      SoundActive(world, id);
      PlaceFound(world, id);
      c, place := View(world, id), Place(world, world.working[id].row);
      Take(Step.Act(id, act));
    }

    /** The first half of process for an asset past its deadline: its object goes. */
    method CleanUp(id: Id, asset: Row, env: nat -> Turn, first: nat) returns (a: Row, n: nat, failure: Failure)
      requires Valid() && id in world.working && Courteous(env, id)
      requires world.working[id].row == asset
      requires world.working[id].stage == if asset.version.None? then Looking else Removing
      modifies this
      ensures Valid() && start == old(start) && old(trace) <= trace
      ensures id in world.working && world.working[id].row == a && world.timing == old(world.timing)
      ensures failure == if world.working[id].stage == Saving then NoFailure else Transfer
      ensures world.working[id].stage == if failure == NoFailure then Saving else Retrying
      ensures failure == NoFailure ==> a.status == Expired
      ensures SameAsset(asset, a) && world.now >= old(world.now)
      ensures Answering(env) ==> failure == NoFailure
    {
      hide Sound, Exec, Apply, CellOk, Foreign, View, Place, Where;
      a, n := asset, first;
      var present := true;
      if a.version.None? {
        var head, _ := Do(env(n).others, id, Head(env(n).ok));
        if !env(n).ok { return a, n, Transfer; }
        if head.stored.Some? { a := a.(version := head.stored.value); } else { present := false; }
        n := n + 1;
      }
      if present {
        var _, _ := Do(env(n).others, id, Remove(env(n).reply));
        if env(n).reply != Done { return a, n, Transfer; }
        n := n + 1;
      }
      a := a.(status := Expired, source := false);
      return a, n, NoFailure;
    }

    /** The first half of process for any other asset: its object is found or uploaded. */
    method Upload(id: Id, asset: Row, env: nat -> Turn, first: nat) returns (a: Row, n: nat, failure: Failure)
      requires Valid() && id in world.working && Courteous(env, id)
      requires world.working[id].row == asset && world.working[id].stage == Probing
      modifies this
      ensures Valid() && start == old(start) && old(trace) <= trace
      ensures id in world.working && world.working[id].row == a && world.timing == old(world.timing)
      ensures world.working[id].stage == if failure == NoFailure then Checking
              else if failure == Policy then Rejecting else Retrying
      ensures failure == NoFailure ==> a.status == Ready
      ensures SameAsset(asset, a) && world.now >= old(world.now)
      ensures Answering(env) ==> failure != Transfer
      ensures failure == Policy ==> env(n).got == Invalid
    {
      hide Sound, Exec, Apply, CellOk, Foreign, View, Place, Where;
      a, n := asset, first;
      var head, _ := Do(env(n).others, id, Head(env(n).ok));
      if !env(n).ok { return a, n, Transfer; }
      n := n + 1;
      if head.stored.Some? {
        a := a.(version := head.stored.value);
      } else {
        var fetch, _ := Do(env(n).others, id, Fetch(env(n).got));
        ReadyToUpload(world.now, fetch);
        if !a.source || env(n).got == Broken { return a, n, Transfer; }
        if env(n).got == Invalid { return a, n, Policy; }
        n := n + 1;
        var put, _ := Do(env(n).others, id, Put(env(n).reply, env(n).version));
        ReadyToUpload(world.now, put);
        if put.stored.Some? || env(n).reply != Done { return a, n, Transfer; }
        a := a.(version := env(n).version);
        n := n + 1;
      }
      a := a.(status := Ready, source := false);
      return a, n, NoFailure;
    }

    /** The second half: the row and its event. */
    method Record(id: Id, a: Row, env: nat -> Turn, n: nat) returns (failure: Failure)
      requires Valid() && id in world.working && Courteous(env, id)
      requires world.working[id].row == a && world.working[id].stage == Saving
      modifies this
      ensures Valid() && start == old(start) && old(trace) <= trace
      ensures id in world.working && world.working[id].row == a && world.timing == old(world.timing)
      ensures world.working[id].stage == if failure == NoFailure then Committing else Retrying
      ensures failure == NoFailure || failure == Transfer
      ensures failure == NoFailure ==> world.working[id].logged && Recorded(world.working[id].staged, a)
      ensures world.now >= old(world.now)
      ensures failure == NoFailure ==>
                old(world.now) <= world.working[id].staged.next <= world.now && SameAsset(a, world.working[id].staged)
      ensures Answering(env) ==> failure == NoFailure
    {
      hide Sound, Exec, Apply, CellOk, Foreign, View, Place, Where;
      var _, _ := Do(env(n).others, id, Save(env(n).ok));
      if !env(n).ok { return Transfer; }
      var _, _ := Do(env(n + 1).others, id, Log(env(n + 1).ok));
      if !env(n + 1).ok { return Transfer; }
      StagedIsSame(world, id);
      return NoFailure;
    }

    lemma StagedIsSame(w: World, id: Id)
      requires Sound(w) && id in w.working
      ensures SameAsset(w.working[id].row, w.working[id].staged)
    {
      hide Good, AtStage;
      SoundActive(w, id);
      SameRow(w.now, View(w, id));
    }

    /** The connection is read, then the clock. */
    method Enter(id: Id, a: Row, turn: Turn) returns (failure: Failure)
      requires Valid() && id in world.working && AllForeign(turn.others, id)
      requires world.working[id].stage == Connecting && world.working[id].row == a
      modifies this
      ensures Valid() && start == old(start) && old(trace) <= trace
      ensures id in world.working && world.working[id].row == a && world.timing == old(world.timing)
              && world.now >= old(world.now)
      ensures failure == NoFailure || failure == Transfer
      ensures turn.ok ==> failure == NoFailure
      ensures world.working[id].stage ==
              if failure == Transfer then Retrying else if !Past(a, world.now) then Probing
              else if a.version.None? then Looking else Removing
    {
      hide Sound, Exec, Apply, CellOk, Foreign, View, Place, Where;
      var _, place := Do(turn.others, id, Connect(turn.ok));
      return if !turn.ok || place.None? then Transfer else NoFailure;
    }

    /** The clock is read once more after an upload. */
    method Recheck(id: Id, a: Row, others: seq<Step>)
      requires Valid() && id in world.working && AllForeign(others, id)
      requires world.working[id].stage == Checking && world.working[id].row == a
      modifies this
      ensures Valid() && start == old(start) && old(trace) <= trace
      ensures id in world.working && world.working[id].row == a && world.timing == old(world.timing)
              && world.now >= old(world.now)
      ensures world.working[id].stage == if Past(a, world.now) then Connecting else Saving
    {
      hide Sound, Exec, Apply, CellOk, Foreign, View, Place, Where;
      var _, _ := Do(others, id, Check);
    }

    /** Service.process; a is the asset in memory. It calls itself at most once. */
    method Process(id: Id, asset: Row, env: nat -> Turn, first: nat) returns (a: Row, n: nat, failure: Failure)
      requires Valid() && id in world.working && Courteous(env, id)
      requires world.working[id].stage == Connecting && world.working[id].row == asset
      modifies this
      ensures Valid() && start == old(start) && old(trace) <= trace
      ensures id in world.working && world.working[id].row == a && world.timing == old(world.timing)
      ensures world.working[id].stage == StageAfter(failure)
      ensures failure == NoFailure ==>
                && world.working[id].logged && Recorded(world.working[id].staged, a)
                && old(world.now) <= world.working[id].staged.next <= world.now
                && SameAsset(asset, world.working[id].staged)
                && (a.status == Expired || (a.status == Ready && !Past(asset, old(world.now))))
                && (a.status == Expired ==> Past(asset, world.now))
      ensures SameAsset(asset, a) && world.now >= old(world.now)
      ensures Answering(env) ==> failure != Transfer
      ensures failure == Policy ==> env(n).got == Invalid
      decreases if Past(asset, world.now) then 0 else 1
    {
      hide Sound, Exec, Apply, CellOk, Foreign, View, Place, Where, Perform, Recorded, Deadline;
      a, n := asset, first;
      failure := Enter(id, a, env(n));
      if failure != NoFailure { return; }
      n := n + 1;
      if Past(a, world.now) {
        a, n, failure := CleanUp(id, a, env, n);
        if failure != NoFailure { return; }
      } else {
        a, n, failure := Upload(id, a, env, n);
        if failure != NoFailure { return; }
        Recheck(id, a, env(n).others);
        n := n + 1;
        if Past(a, world.now) {
          a, n, failure := Process(id, a, env, n);
          return;
        }
      }
      failure := Record(id, a, env, n);
      n := n + 2;
    }

    /** What step does with an error before it commits; when even that update fails it does not commit. */
    method Settle(id: Id, failure: Failure, turn: Turn) returns (ok: bool)
      requires Valid() && id in world.working && AllForeign(turn.others, id)
      requires world.working[id].stage == StageAfter(failure)
      modifies this
      ensures Valid() && start == old(start) && old(trace) <= trace && id in world.working
      ensures ok <==> failure == NoFailure || turn.ok
      ensures world.now >= old(world.now)
      ensures !ok ==> world.working[id] == old(world.working[id])
      ensures ok ==> world.working[id].stage == Committing
      ensures ok ==>
                var was, now := old(world.working[id]), world.working[id].staged;
                match failure
                case NoFailure => now == was.staged
                case Policy => now == was.staged.(status := Failed, next := Deadline(was.row))
                case Transfer =>
                  now == was.staged.(attempts := was.staged.attempts + 1,
                                     next := world.now + Delay(world.timing, was.row.attempts))
    {
      hide Sound, Exec, Apply, CellOk, Foreign, View, Place, Where, Delay;
      if failure == NoFailure { return true; }
      if !turn.ok {
        Interleave(turn.others, id);
        return false;
      }
      if failure == Policy {
        var _, _ := Do(turn.others, id, Reject);
      } else {
        var _, _ := Do(turn.others, id, Retry);
      }
      return true;
    }

    /** The query of step: the earliest due row that nobody has locked. */
    method SelectDue() returns (found: Option<Id>)
      ensures found.None? ==> forall id | id in world.rows :: !Selectable(world, id)
      ensures found.Some? ==> Selectable(world, found.value)
                              && forall id | id in world.rows && Selectable(world, id) ::
                                   NoLater(world, found.value, id)
    {
      found := None;
      var left := world.rows.Keys;
      while left != {}
        invariant left <= world.rows.Keys
        invariant found.None? ==> forall id | id in world.rows :: id !in left ==> !Selectable(world, id)
        invariant found.Some? ==> Selectable(world, found.value)
                                  && forall id | id in world.rows && id !in left && Selectable(world, id) ::
                                       NoLater(world, found.value, id)
        decreases |left|
      {
        var id :| id in left;
        left := left - {id};
        if Selectable(world, id) && (found.None? || NoLater(world, id, found.value)) { found := Some(id); }
      }
    }

    /** The row is locked and read. */
    method Begin(id: Id) returns (a: Row)
      requires Valid() && id in world.rows && id !in world.working && world.rows[id].next <= world.now
      modifies this
      ensures Valid() && start == old(start) && old(trace) <= trace
      ensures a == old(world).rows[id] && id in world.working && world.working[id] == Picked(a, old(world).now)
      ensures world.now == old(world).now
    {
      hide Sound, Exec, Picked, Perform, Performed;
      a := world.rows[id];
      Take(Pick(id));
    }

    /** Service.step: publish or process the earliest due row; then a retry, a rejection, or the commit. */
    method StepOnce(envs: Id -> nat -> Turn) returns (found: Option<Id>)
      requires Valid() && forall id :: Courteous(envs(id), id)
      modifies this
      ensures Valid() && start == old(start) && old(trace) <= trace
      ensures found.None? ==>
                && world == old(world)
                && forall id | id in world.rows :: id in world.working || world.now < world.rows[id].next
      ensures found.Some? ==>
                var w, a := old(world), found.value;
                && a in w.rows && a !in w.working && w.rows[a].next <= w.now
                && (forall id | id in w.rows && id !in w.working && w.rows[id].next <= w.now ::
                      w.rows[a].next < w.rows[id].next || (w.rows[a].next == w.rows[id].next && a <= id))
                && a !in world.working
      ensures found.Some? && Smooth(envs(found.value)) ==>
                found.value in world.rows
                && Advanced(old(world).rows[found.value], world.rows[found.value], old(world).now, world.now)
    {
      hide Sound, Exec, Apply, CellOk, Foreign, View, Place, Where, Perform, Performed;
      found := SelectDue();
      if found.None? { return; }
      var id := found.value;
      Work(id, envs(id));
    }

    /** step's first decision, and what comes of it. */
    method Treat(id: Id, a: Row, env: nat -> Turn) returns (failure: Failure, n: nat)
      requires Valid() && id in world.working && Courteous(env, id) && world.working[id] == Picked(a, world.now)
      modifies this
      ensures Valid() && start == old(start) && old(trace) <= trace && world.now >= old(world.now)
      ensures id in world.working && world.working[id].stage == StageAfter(failure)
      ensures Smooth(env) ==> failure == NoFailure && Advanced(a, world.working[id].staged, old(world.now), world.now)
    {
      hide Sound, Exec, Apply, CellOk, Foreign, View, Place, Where, Perform, Performed;
      if a.note.Some? && (a.status == Expired || !Past(a, world.now)) {
        failure, n := Notify(id, a, env);
      } else {
        var b;
        b, n, failure := Process(id, a, env, 0);
      }
    }

    /** The transaction for the row it took. */
    method Work(id: Id, env: nat -> Turn)
      requires Valid() && Selectable(world, id) && Courteous(env, id)
      modifies this
      ensures Valid() && start == old(start) && old(trace) <= trace
      ensures id !in world.working
      ensures Smooth(env) ==>
                id in world.rows && Advanced(old(world).rows[id], world.rows[id], old(world).now, world.now)
    {
      hide Sound, Exec, Apply, CellOk, Foreign, View, Place, Where, Perform, Performed, Advanced, Picked;
      var a := Begin(id);
      var failure, n := Treat(id, a, env);
      ghost var till, staged := world.now, world.working[id].staged;
      var settled := Settle(id, failure, env(n));
      n := n + 1;
      Interleave(env(n).others, id);
      if Smooth(env) { StillAdvanced(a, staged, old(world.now), till, world.now); }
      End(id, settled && env(n).ok);
    }

    lemma StillAdvanced(a: Row, b: Row, from: int, till: int, later: int)
      requires Advanced(a, b, from, till) && till <= later
      ensures Advanced(a, b, from, later)
    {
    }

    /** The notification branch of step. */
    method Notify(id: Id, a: Row, env: nat -> Turn) returns (failure: Failure, n: nat)
      requires Valid() && id in world.working && Courteous(env, id)
      requires world.working[id].stage == Publishing && world.working[id].row == a && a.note.Some?
      modifies this
      ensures Valid() && start == old(start) && old(trace) <= trace
      ensures id in world.working && world.timing == old(world.timing) && world.now >= old(world.now)
      ensures world.working[id].stage == if failure == NoFailure then Committing else Retrying
      ensures failure == NoFailure || failure == Transfer
      ensures failure == NoFailure ==> world.working[id].staged == Silenced(old(world.working[id].staged), a)
      ensures Smooth(env) ==> failure == NoFailure
    {
      hide Sound, Exec, Apply, CellOk, Foreign, View, Place, Where;
      n := 2;
      var _, _ := Do(env(0).others, id, Publish(env(0).ok));
      if !env(0).ok { return Transfer, n; }
      var _, _ := Do(env(1).others, id, Clear(env(1).ok));
      if !env(1).ok { return Transfer, n; }
      return NoFailure, n;
    }

    /** The transaction is committed, or is lost and leaves what it did to the object store. */
    method End(id: Id, committed: bool)
      requires Valid() && id in world.working && (committed ==> world.working[id].stage == Committing)
      modifies this
      ensures Valid() && start == old(start) && old(trace) <= trace
      ensures id !in world.working && world.objects == old(world).objects && world.now == old(world).now
      ensures committed ==> id in world.rows && world.rows[id] == old(world).working[id].staged
      ensures !committed ==> world.rows == old(world).rows
    {
      hide Sound, Exec, CellOk, View, Place, Where, Performed;
      SoundActive(world, id);
      if committed { Take(Commit(id)); } else { Take(Rollback(id)); }
    }
  }
}
