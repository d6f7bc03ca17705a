/** The storage guarantees over whole runs. */
module MediaGuarantees {
  import opened Wrappers
  import opened Media
  import opened MediaAsset
  import opened MediaRuns

  predicate Starts(now: int, t: Timing) { ValidTiming(t) && 0 <= now && now + t.cap < MAX }

  /** The row and the object store agree, and the connection is as it was at capture. */
  lemma StoreAgrees(now: int, t: Timing, steps: seq<Step>, id: Id)
    requires Starts(now, t)
    ensures var w := Exec(Init(now, t), steps);
            id in w.rows ==>
              && id in w.trails && w.trails[id].uploads <= 1
              && Place(w, w.rows[id]) == Some(w.trails[id].dest)
              && (w.rows[id].status == Ready && !Past(w.rows[id], w.now) ==>
                    ObjectOf(w, id) == Some(w.rows[id].version))
              && (w.rows[id].status == Expired ==> ObjectOf(w, id).None?)
              && (forall a | a in w.objects :: a.id == id ==> a.dest == w.trails[id].dest)
  {
    var w := Reachable(now, t, steps);
    if id in w.rows {
      assert AssetOk(w, id);
      GoodMeans(w.now, w.rows[id], ObjectOf(w, id), w.trails[id].uploads);
    }
  }

  lemma GoodMeans(now: int, a: Row, stored: Option<Option<string>>, uploads: nat)
    requires Good(now, a, stored, uploads)
    ensures uploads <= 1
    ensures a.status == Ready && !Past(a, now) ==> stored == Some(a.version)
    ensures a.status == Expired ==> stored.None?
  {
  }

  /** Nothing left to do. */
  predicate Settled(a: Row) {
    || (a.status == Expired && a.note.None?)
    || (a.status == Ready && a.note.None? && Deadline(a) == MAX)
    || (a.status == Failed && Deadline(a) == MAX)
  }

  /** A worker downloads and uploads only from a source that is still there, and enters process at most twice. */
  lemma UploadsFromSource(now: int, t: Timing, steps: seq<Step>, id: Id)
    requires Starts(now, t)
    ensures var w := Exec(Init(now, t), steps);
            id in w.working ==>
              && w.working[id].rounds <= 2
              && (w.working[id].stage in {Fetching, Storing} ==>
                    && id in w.rows && id in w.trails && w.rows[id].source && w.working[id].row.source
                    && w.rows[id].status == Pending && w.trails[id].uploads == 0)
  {
    var w := Reachable(now, t, steps);
    if id in w.working {
      assert AssetOk(w, id);
      StageMeans(w.now, View(w, id));
    }
  }

  lemma StageMeans(now: int, c: Cell)
    requires CellOk(now, c)
    ensures c.work.rounds <= 2
    ensures c.work.stage in {Fetching, Storing} ==>
              c.row.source && c.work.row.source && c.row.status == Pending && c.trail.uploads == 0
  {
  }

  // ---------- later in the run ----------

  /** The asset's past as a later state must respect it. */
  predicate Since(w: World, w': World, id: Id)
    requires id in w.trails
  {
    && id in w'.trails && w'.trails[id].dest == w.trails[id].dest && w'.trails[id].uploads >= w.trails[id].uploads
    && (id !in w.rows ==> id !in w'.rows && w'.trails[id].uploads == w.trails[id].uploads)
    && (id in w'.rows ==>
        && id in w.rows
        && SameAsset(w.rows[id], w'.rows[id])
        && Forward(w.rows[id].status, w'.rows[id].status))
    && (id in w.rows && w.rows[id].status == Expired ==> w'.trails[id].uploads == w.trails[id].uploads)
  }

  lemma CellSince(now: int, t: Timing, place: Option<Dest>, c: Cell, act: Act)
    requires CellOk(now, c)
    ensures var d := Perform(now, t, place, c, act);
            d.trail.uploads >= c.trail.uploads && (c.row.status == Expired ==> d.trail.uploads == c.trail.uploads)
  {
    hide Good;
  }

  lemma StagedSince(now: int, c: Cell)
    requires CellOk(now, c)
    ensures SameAsset(c.row, c.work.staged) && Forward(c.row.status, c.work.staged.status)
  {
  }

  lemma ActSince(w: World, id: Id, act: Act, o: Id)
    requires Sound(w) && Active(w, id) && o in w.trails
    ensures Since(w, Performed(w, id, act), o)
  {
    hide CellOk, Perform, Good;
    assert AssetOk(w, id);
    PerformFrame(w.now, w.timing, Place(w, w.working[id].row), View(w, id), act);
    CellSince(w.now, w.timing, Place(w, w.working[id].row), View(w, id), act);
  }

  lemma CommitSince(w: World, id: Id, o: Id)
    requires Sound(w) && Enabled(w, Commit(id)) && o in w.trails
    ensures Since(w, Apply(w, Commit(id)), o)
  {
    hide Performed, Picked, Captured, Deleted, Linked, SavedBucket, CellOk, Good, Where, ObjectAt, InUse;
    assert AssetOk(w, id);
    StagedSince(w.now, View(w, id));
  }

  lemma OtherSince(w: World, step: Step, id: Id)
    requires Enabled(w, step) && !step.Act? && !step.Commit? && id in w.trails && w.rows.Keys <= w.trails.Keys
    ensures Since(w, Apply(w, step), id)
  {
    match step
    case Tick(_) =>
    case Capture(_, _) =>
    case CreateBucket(_, _, _, _) =>
    case SaveBucket(_, _, _, _) =>
    case Link(_, _, _) =>
    case DeleteBucket(b, org) => DeleteSince(w, b, org, id);
    case Pick(_) =>
    case Rollback(_) =>
  }

  lemma DeleteSince(w: World, bucket: nat, org: nat, id: Id)
    requires id in w.trails
    ensures Since(w, Deleted(w, bucket, org), id)
  {
  }

  lemma StepSince(w: World, step: Step, id: Id)
    requires Sound(w) && id in w.trails
    ensures Since(w, Apply(w, step), id)
  {
    hide AssetOk, Since;
    if !Enabled(w, step) {
      SelfSince(w, id);
    } else if step.Act? {
      ActSince(w, step.id, step.act, id);
    } else if step.Commit? {
      CommitSince(w, step.id, id);
    } else {
      OtherSince(w, step, id);
    }
  }

  lemma SelfSince(w: World, id: Id)
    requires id in w.trails
    ensures Since(w, w, id)
  {
  }

  lemma SinceSince(w: World, w': World, w'': World, id: Id)
    requires id in w.trails && Since(w, w', id) && Since(w', w'', id)
    ensures Since(w, w'', id)
  {
  }

  /** Deadline, identity and destination never change, states only move forward. */
  lemma {:induction false} RunSince(w: World, steps: seq<Step>, id: Id)
    requires Sound(w) && id in w.trails
    ensures Since(w, Exec(w, steps), id)
    decreases |steps|
  {
    hide Sound, Apply, Since;
    if steps == [] {
      SelfSince(w, id);
    } else {
      StepSince(w, steps[0], id);
      StepSound(w, steps[0]);
      TrailStays(w, Apply(w, steps[0]), id);
      RunSince(Apply(w, steps[0]), steps[1..], id);
      SinceSince(w, Apply(w, steps[0]), Exec(w, steps), id);
    }
  }

  lemma TrailStays(w: World, w': World, id: Id)
    requires id in w.trails && Since(w, w', id)
    ensures id in w'.trails
  {
  }

  /** Once expired is committed, the object is gone for good, whatever happens to the row or the connection. */
  lemma GoneForGood(now: int, t: Timing, steps: seq<Step>, more: seq<Step>, id: Id)
    requires Starts(now, t)
    ensures var w := Exec(Init(now, t), steps);
            var w' := Exec(w, more);
            id in w.rows && w.rows[id].status == Expired ==>
              && id in w.trails && id in w'.trails && w'.trails[id].uploads == w.trails[id].uploads
              && (forall a | a in w'.objects :: a.id != id)
              && (id in w'.rows ==> w'.rows[id].status == Expired)
  {
    var w := Reachable(now, t, steps);
    var w' := Exec(w, more);
    RunSound(w, more);
    if id in w.rows && w.rows[id].status == Expired {
      RunSince(w, more, id);
      assert AssetOk(w', id);
      if id in w'.rows { GoodMeans(w'.now, w'.rows[id], ObjectOf(w', id), w'.trails[id].uploads); }
      assert ObjectOf(w', id).None?;
    }
  }

  /**
   One row per message and index; a capture of a bound session has one, and its replay changes
   nothing, whatever id it brings.
   */
  lemma CaptureReplays(now: int, t: Timing, steps: seq<Step>, slot: Slot, first: Id, second: Id)
    requires Starts(now, t)
    ensures var w := Exec(Init(now, t), steps);
            var once := Apply(w, Capture(first, slot));
            && (first !in w.trails && Bound(w, slot) ==> Taken(once, slot))
            && (Taken(once, slot) ==> Apply(once, Capture(second, slot)) == once)
            && Distinct(once.rows)
  {
    hide AssetOk, Good;
    var w := Reachable(now, t, steps);
    var once := Apply(w, Capture(first, slot));
    StepSound(w, Capture(first, slot));
    if first !in w.trails && Bound(w, slot) && !Taken(w, slot) {
      assert once.rows[first].slot == slot;
    }
  }

  /**
   What a capture of a bound session records: a pending row, due at once, for the session's connection, whose
   deadline is the retention's days from now, and ahead, exactly if the retention still fits; otherwise it is
   past already.
   */
  lemma CapturedRow(now: int, t: Timing, steps: seq<Step>, id: Id, slot: Slot)
    requires Starts(now, t)
    ensures var w := Exec(Init(now, t), steps); var w' := Apply(w, Capture(id, slot));
            id !in w.trails && Bound(w, slot) && !Taken(w, slot) ==>
              var b := w.bindings[slot.session].bucket; var days := w.buckets[b].days;
              && id in w'.rows && w' == w.(rows := w.rows[id := w'.rows[id]], trails := w'.trails)
              && w'.rows[id] == Row(slot, b, Pending, None, true, w'.rows[id].expiresAt, w.now, 0, None)
              && (days.None? ==> w'.rows[id].expiresAt == None)
              && (days.Some? && 1 <= days.value <= MAX / DAY ==>
                    && w'.rows[id].expiresAt.Some?
                    && (days.value <= (MAX - w.now) / DAY ==>
                          w'.rows[id].expiresAt == Some(w.now + days.value * DAY) && !Past(w'.rows[id], w.now))
                    && (days.value > (MAX - w.now) / DAY ==> Past(w'.rows[id], w.now)))
  {
    hide AllOk, Distinct, Keyed, Expiry;
    var w := Reachable(now, t, steps);
    hide Exec;
    if id !in w.trails && Bound(w, slot) && !Taken(w, slot) {
      var days := w.buckets[w.bindings[slot.session].bucket].days;
      if days.Some? && 1 <= days.value <= MAX / DAY { RetentionAhead(w.now, days.value); }
    }
  }

  lemma RetentionAhead(now: int, days: int)
    requires 0 <= now <= MAX && 1 <= days <= MAX / DAY
    ensures days <= (MAX - now) / DAY ==> Expiry(now, days) == now + days * DAY && Expiry(now, days) > now
    ensures days > (MAX - now) / DAY ==> Expiry(now, days) <= now
  {
    ExpiryAhead(0, now, days);
  }

  /**
   After a link the session's messages are kept in that connection, after an unlink in none, for its
   own organization.
   */
  lemma LinkTakes(w: World, session: nat, org: nat, target: Option<nat>, message: nat, index: int)
    ensures var w' := Apply(w, Link(session, org, target)); var slot := Slot(org, session, message, index);
            && (target.Some? && target.value in w.buckets && w.buckets[target.value].org == org ==>
                  Bound(w', slot) && w'.bindings[session].bucket == target.value)
            && (target.Some? && !(target.value in w.buckets && w.buckets[target.value].org == org) ==> w' == w)
            && (target.None? ==> !Bound(w', slot))
            && (forall s | s != session :: s in w'.bindings <==> s in w.bindings)
            && (forall s | s != session && s in w.bindings :: w'.bindings[s] == w.bindings[s])
  {
  }

  /** Saving a connection changes its retention, for its own organization and with its own destination; nothing else. */
  lemma SaveTakes(w: World, bucket: nat, org: nat, dest: Dest, days: Option<int>)
    ensures var w' := Apply(w, SaveBucket(bucket, org, dest, days));
            if bucket in w.buckets && w.buckets[bucket].org == org && w.buckets[bucket].dest == dest
            then w' == w.(buckets := w.buckets[bucket := Bucket(org, dest, days)]) else w' == w
  {
  }

  /**
   Deleting a connection succeeds exactly when it is the organization's own, no session uses it and all its
   assets are expired and announced; then no row, no work and no object of those assets is left.
   */
  lemma DeleteLeavesNothing(now: int, t: Timing, steps: seq<Step>, bucket: nat, org: nat)
    requires Starts(now, t)
    ensures var w := Exec(Init(now, t), steps);
            var w' := Apply(w, DeleteBucket(bucket, org));
            bucket in w.buckets ==>
              && (bucket !in w'.buckets <==>
                  && w.buckets[bucket].org == org
                  && (forall s | s in w.bindings :: w.bindings[s].bucket != bucket)
                  && (forall id | id in w.rows :: w.rows[id].bucket == bucket ==>
                        w.rows[id].status == Expired && w.rows[id].note.None?))
              && (bucket in w'.buckets ==> w' == w)
              && (bucket !in w'.buckets ==>
                    forall id | id in w.rows && w.rows[id].bucket == bucket ::
                      id in w.trails && id !in w'.rows && id !in w'.working
                      && (forall a | a in w'.objects :: a.id != id))
  {
    hide Good, CellOk;
    var w := Reachable(now, t, steps);
    var w' := Apply(w, DeleteBucket(bucket, org));
    if bucket in w.buckets && bucket !in w'.buckets {
      DeleteKeeps(w, bucket, org);
      forall id | id in w.rows && w.rows[id].bucket == bucket
        ensures id in w.trails && id !in w'.rows && id !in w'.working && (forall a | a in w'.objects :: a.id != id)
      {
        assert AssetOk(w, id);
        assert AssetOk(w', id);
        assert ObjectOf(w', id).None?;
      }
    }
  }
}
