/** What holds of the rows, the connections and the object store in every reachable world. */
module MediaRuns {
  import opened Wrappers
  import opened Media
  import opened MediaAsset

  /** The asset's object, where its connection said at capture. */
  function ObjectOf(w: World, id: Id): Option<Option<string>>
    requires id in w.trails
  {
    ObjectAt(w, Address(w.trails[id].dest, id))
  }

  /** The row's connection is there, belongs to the row's organization and still names the first destination. */
  predicate AtHome(w: World, id: Id)
    requires id in w.rows && id in w.trails
  {
    Place(w, w.rows[id]) == Some(w.trails[id].dest)
  }

  predicate AssetOk(w: World, id: Id)
    requires id in w.trails
  {
    if id in w.rows then
      && AtHome(w, id)
      && Good(w.now, w.rows[id], ObjectOf(w, id), w.trails[id].uploads)
      && (id in w.working ==> w.working[id].dest in {None, Some(w.trails[id].dest)} && CellOk(w.now, View(w, id)))
    else
      id !in w.working && ObjectOf(w, id).None?
  }

  predicate Clocked(w: World) { ValidTiming(w.timing) && 0 <= w.now && w.now + w.timing.cap < MAX }

  /** Rows have trails, work is on rows, and objects are where some asset belongs. */
  ghost predicate Keyed(w: World) {
    && w.rows.Keys <= w.trails.Keys && w.working.Keys <= w.rows.Keys
    && (forall a | a in w.objects :: a.id in w.trails && w.trails[a.id].dest == a.dest)
  }

  /** The unique key of the table. */
  ghost predicate Distinct(rows: map<Id, Row>) {
    forall i, j | i in rows && j in rows :: rows[i].slot == rows[j].slot ==> i == j
  }

  ghost predicate AllOk(w: World) { forall id | id in w.trails :: AssetOk(w, id) }

  ghost predicate Sound(w: World) { Clocked(w) && Keyed(w) && Distinct(w.rows) && AllOk(w) }

  // ---------- steps on one asset ----------

  /** Everything but this asset is as before. */
  ghost predicate Apart(w: World, w': World, id: Id) {
    && w'.now == w.now && w'.timing == w.timing && w'.buckets == w.buckets
    && RowsApart(w.rows, w'.rows, id) && TrailsApart(w.trails, w'.trails, id) && WorkApart(w.working, w'.working, id)
    && w'.working.Keys <= w.rows.Keys
    && ObjectsApart(w, w', id)
  }

  ghost predicate RowsApart(rows: map<Id, Row>, rows': map<Id, Row>, id: Id) {
    && rows'.Keys == rows.Keys
    && (forall o | o in rows :: rows'[o].slot == rows[o].slot && (o != id ==> rows'[o] == rows[o]))
  }

  ghost predicate TrailsApart(trails: map<Id, Trail>, trails': map<Id, Trail>, id: Id) {
    && trails'.Keys == trails.Keys
    && (forall o | o in trails :: trails'[o].dest == trails[o].dest && (o != id ==> trails'[o] == trails[o]))
  }

  ghost predicate WorkApart(working: map<Id, Work>, working': map<Id, Work>, id: Id) {
    && (forall o | o in working :: o != id ==> o in working' && working'[o] == working[o])
    && (forall o | o in working' :: o != id ==> o in working)
  }

  ghost predicate ObjectsApart(w: World, w': World, id: Id) {
    && (forall a: Address | a.id != id :: ObjectAt(w', a) == ObjectAt(w, a))
    && (forall a | a in w'.objects :: a.id == id ==> id in w.trails && w.trails[id].dest == a.dest)
  }

  lemma OtherKeeps(w: World, w': World, id: Id, o: Id)
    requires Apart(w, w', id) && o != id && o in w.trails && AssetOk(w, o)
    ensures AssetOk(w', o)
  {
    hide Good, CellOk;
  }

  lemma ApartKeeps(w: World, w': World, id: Id)
    requires Sound(w) && Apart(w, w', id)
    requires id in w.rows && id in w'.trails && AssetOk(w', id)
    ensures Sound(w')
  {
    hide AssetOk;
    forall o | o in w'.trails ensures AssetOk(w', o) {
      if o != id { OtherKeeps(w, w', id, o); }
    }
    forall a | a in w'.objects ensures a.id in w'.trails && w'.trails[a.id].dest == a.dest {
      if a.id != id {
        assert ObjectAt(w', a) == ObjectAt(w, a);
        assert a in w.objects;
      }
    }
  }

  /** The cell is all a worker's asset needs. */
  lemma FromCell(w: World, id: Id)
    requires id in w.rows && id in w.trails && id in w.working && AtHome(w, id)
    requires w.working[id].dest in {None, Some(w.trails[id].dest)} && CellOk(w.now, View(w, id))
    ensures AssetOk(w, id)
  {
    hide Good, AtStage;
  }

  /** A step of the worker writes one row, one trail, its own state, and its own object. */
  lemma TablesApart(w: World, w': World, id: Id, row: Row, trail: Trail, working: map<Id, Work>)
    requires w' == w.(rows := w.rows[id := row], trails := w.trails[id := trail],
                      working := working, objects := w'.objects)
    requires Keyed(w) && id in w.rows && row.slot == w.rows[id].slot && trail.dest == w.trails[id].dest
    requires working.Keys <= w.rows.Keys && WorkApart(w.working, working, id) && ObjectsApart(w, w', id)
    ensures Apart(w, w', id)
  {
    assert RowsApart(w.rows, w'.rows, id);
    assert TrailsApart(w.trails, w'.trails, id);
    hide RowsApart, TrailsApart, WorkApart, ObjectsApart;
  }

  lemma SameObjects(w: World, w': World, id: Id)
    requires Keyed(w) && w'.objects == w.objects && id in w.trails
    ensures ObjectsApart(w, w', id)
  {
  }

  lemma PickAsset(w: World, id: Id)
    requires Sound(w) && Enabled(w, Pick(id))
    ensures id in w.trails && AssetOk(w, id) && AssetOk(Apply(w, Pick(id)), id)
  {
    hide Good, CellOk, Picked;
    var w' := Apply(w, Pick(id));
    assert AssetOk(w, id);
    PickedOk(w.now, w.rows[id], ObjectOf(w, id), w.trails[id]);
    PickedDest(w.rows[id], w.now);
    FromCell(w', id);
  }

  lemma PickKeeps(w: World, id: Id)
    requires Sound(w) && Enabled(w, Pick(id))
    ensures Sound(Apply(w, Pick(id)))
  {
    hide AssetOk, Picked, AllOk, Distinct, Apart;
    var w' := Apply(w, Pick(id));
    PickAsset(w, id);
    assert w.rows == w.rows[id := w.rows[id]] && w.trails == w.trails[id := w.trails[id]];
    assert WorkApart(w.working, w'.working, id);
    SameObjects(w, w', id);
    TablesApart(w, w', id, w.rows[id], w.trails[id], w'.working);
    ApartKeeps(w, w', id);
  }

  lemma PickedDest(a: Row, now: int)
    ensures Picked(a, now).dest == None
  {
  }

  lemma PerformFrame(now: int, t: Timing, place: Option<Dest>, c: Cell, act: Act)
    ensures var d := Perform(now, t, place, c, act);
            d.row == c.row && d.trail.dest == c.trail.dest && d.work.dest in {c.work.dest, place}
  {
  }

  lemma SameRow(now: int, c: Cell)
    requires CellOk(now, c)
    ensures SameAsset(c.row, c.work.row) && SameAsset(c.row, c.work.staged) && Busy(c.row)
  {
  }

  lemma StillGood(now: int, c: Cell)
    requires CellOk(now, c)
    ensures Good(now, c.row, c.stored, c.trail.uploads) && Good(now, c.work.staged, c.stored, c.trail.uploads)
  {
  }

  /** The worker writes where the asset belongs. */
  lemma ActObjects(w: World, w': World, id: Id, act: Act)
    requires Active(w, id) && w' == Performed(w, id, act)
    requires w.working[id].dest in {None, Some(w.trails[id].dest)}
    requires forall a | a in w.objects :: a.id in w.trails && w.trails[a.id].dest == a.dest
    ensures ObjectsApart(w, w', id)
  {
    hide Perform;
  }

  lemma ActTables(w: World, w': World, id: Id, act: Act)
    requires Active(w, id) && w' == Performed(w, id, act)
    ensures w' == w.(objects := w'.objects, working := w'.working, trails := w'.trails)
    ensures id in w'.working && w'.working == w.working[id := w'.working[id]]
    ensures id in w'.trails && w'.trails == w.trails[id := w'.trails[id]] && w'.trails[id].dest == w.trails[id].dest
  {
    hide Perform, View, Where;
    PerformFrame(w.now, w.timing, Place(w, w.working[id].row), View(w, id), act);
    ViewHas(w, id);
  }

  lemma ViewHas(w: World, id: Id)
    requires Active(w, id)
    ensures View(w, id).row == w.rows[id] && View(w, id).work == w.working[id] && View(w, id).trail == w.trails[id]
  {
  }

  lemma ActApart(w: World, w': World, id: Id, act: Act)
    requires Active(w, id) && w' == Performed(w, id, act) && Keyed(w)
    requires w.working[id].dest in {None, Some(w.trails[id].dest)}
    ensures Apart(w, w', id)
  {
    hide Performed, ObjectsApart;
    ActObjects(w, w', id, act);
    ActTables(w, w', id, act);
    assert WorkApart(w.working, w'.working, id);
    assert w.rows == w.rows[id := w.rows[id]];
    TablesApart(w, w', id, w.rows[id], w'.trails[id], w'.working);
  }

  lemma ActView(w: World, w': World, id: Id, act: Act)
    requires Active(w, id) && w' == Performed(w, id, act)
    requires w.working[id].dest in {None, Some(w.trails[id].dest)}
             && Place(w, w.working[id].row) == Some(w.trails[id].dest)
    ensures Active(w', id) && w'.rows == w.rows && w'.buckets == w.buckets && w'.now == w.now
            && w'.trails[id].dest == w.trails[id].dest
    ensures View(w', id) == Perform(w.now, w.timing, Some(w.trails[id].dest), View(w, id), act)
    ensures w'.working[id].dest in {None, Some(w.trails[id].dest)}
  {
    hide Perform;
    PerformFrame(w.now, w.timing, Some(w.trails[id].dest), View(w, id), act);
  }

  lemma ActAsset(w: World, w': World, id: Id, act: Act)
    requires Active(w, id) && AssetOk(w, id) && Clocked(w) && w' == Performed(w, id, act)
    ensures id in w'.trails && AssetOk(w', id)
  {
    hide Good, CellOk, Perform, Performed, View;
    SameRow(w.now, View(w, id));
    ViewHas(w, id);
    ActView(w, w', id, act);
    PerformKeeps(w.now, w.timing, Some(w.trails[id].dest), View(w, id), act);
    FromCell(w', id);
  }

  lemma ActKeeps(w: World, id: Id, act: Act)
    requires Sound(w) && Enabled(w, Step.Act(id, act))
    ensures Sound(Apply(w, Step.Act(id, act)))
  {
    hide Perform, Performed, View, Apart, AllOk;
    var w' := Apply(w, Step.Act(id, act));
    assert AssetOk(w, id) by { assert AllOk(w); OneOk(w, id); }
    ActAsset(w, w', id, act);
    ActApart(w, w', id, act);
    hide AssetOk;
    ApartKeeps(w, w', id);
  }

  lemma OneOk(w: World, id: Id)
    requires AllOk(w) && id in w.trails
    ensures AssetOk(w, id)
  {
  }

  lemma CommitAsset(w: World, w': World, id: Id)
    requires Active(w, id) && AssetOk(w, id) && w' == Apply(w, Commit(id))
    ensures id in w'.rows && id in w'.trails && AssetOk(w', id)
    ensures w'.rows[id].slot == w.rows[id].slot
  {
    hide Good, CellOk;
    SameRow(w.now, View(w, id));
    StillGood(w.now, View(w, id));
  }

  lemma CommitKeeps(w: World, id: Id)
    requires Sound(w) && Enabled(w, Commit(id))
    ensures Sound(Apply(w, Commit(id)))
  {
    hide AssetOk, AllOk, Distinct, Apart;
    var w' := Apply(w, Commit(id));
    OneOk(w, id);
    CommitAsset(w, w', id);
    assert WorkApart(w.working, w'.working, id);
    SameObjects(w, w', id);
    TablesApart(w, w', id, w'.rows[id], w'.trails[id], w'.working);
    ApartKeeps(w, w', id);
  }

  lemma RollbackAsset(w: World, id: Id)
    requires id in w.working && id in w.rows && id in w.trails && AssetOk(w, id)
    ensures AssetOk(Apply(w, Rollback(id)), id)
  {
    hide Good, CellOk;
  }

  lemma RollbackKeeps(w: World, id: Id)
    requires Sound(w) && Enabled(w, Rollback(id))
    ensures Sound(Apply(w, Rollback(id)))
  {
    hide AssetOk, AllOk, Distinct, Apart;
    var w' := Apply(w, Rollback(id));
    OneOk(w, id);
    RollbackAsset(w, id);
    assert w.rows == w.rows[id := w.rows[id]] && w.trails == w.trails[id := w.trails[id]];
    assert WorkApart(w.working, w'.working, id);
    SameObjects(w, w', id);
    TablesApart(w, w', id, w.rows[id], w.trails[id], w'.working);
    ApartKeeps(w, w', id);
  }

  // ---------- time, captures and connections ----------

  lemma LaterOk(w: World, w': World, id: Id)
    requires id in w.trails && AssetOk(w, id) && w' == w.(now := w'.now) && w.now <= w'.now
    ensures AssetOk(w', id)
  {
    hide Good, CellOk;
    if id in w.rows { GoodLater(w.now, w'.now, w.rows[id], ObjectOf(w, id), w.trails[id].uploads); }
    if id in w.working { CellLater(w.now, w'.now, View(w, id)); }
  }

  lemma TickKeeps(w: World, ms: nat)
    requires Sound(w) && Enabled(w, Tick(ms))
    ensures Sound(Apply(w, Tick(ms)))
  {
    hide AssetOk;
    var w' := Apply(w, Tick(ms));
    forall id | id in w'.trails ensures AssetOk(w', id) { LaterOk(w, w', id); }
  }

  lemma ExpiryFits(now: int, days: int)
    ensures Expiry(now, days) <= MAX
  {
  }

  lemma CapturedOk(w: World, id: Id, slot: Slot)
    requires Clocked(w) && Keyed(w) && id !in w.trails && Bound(w, slot) && !Taken(w, slot)
    ensures AssetOk(Captured(w, id, slot), id)
  {
    hide Expiry;
    if w.buckets[w.bindings[slot.session].bucket].days.Some? {
      ExpiryFits(w.now, w.buckets[w.bindings[slot.session].bucket].days.value);
    }
  }

  lemma CapturedOther(w: World, id: Id, slot: Slot, o: Id)
    requires o in w.trails && id !in w.trails && AssetOk(w, o)
    ensures AssetOk(Captured(w, id, slot), o)
  {
    hide Good, CellOk;
  }

  lemma CaptureKeeps(w: World, id: Id, slot: Slot)
    requires Sound(w) && Enabled(w, Capture(id, slot))
    ensures Sound(Apply(w, Capture(id, slot)))
  {
    hide AssetOk;
    var w' := Apply(w, Capture(id, slot));
    if Bound(w, slot) && !Taken(w, slot) {
      CapturedOk(w, id, slot);
      forall o | o in w'.trails ensures AssetOk(w', o) {
        if o != id { CapturedOther(w, id, slot, o); }
      }
    }
  }

  /** Every connection is there still, with the same owner and destination. */
  ghost predicate BucketsStay(old': map<nat, Bucket>, new': map<nat, Bucket>) {
    forall b | b in old' :: b in new' && new'[b].org == old'[b].org && new'[b].dest == old'[b].dest
  }

  lemma BucketsOther(w: World, w': World, id: Id)
    requires id in w.trails && AssetOk(w, id) && BucketsStay(w.buckets, w'.buckets)
    requires w' == w.(buckets := w'.buckets, bindings := w'.bindings)
    ensures AssetOk(w', id)
  {
    hide Good, CellOk;
  }

  lemma BucketSteps(w: World, step: Step)
    requires Enabled(w, step) && (step.CreateBucket? || step.SaveBucket? || step.Link?)
    ensures var w' := Apply(w, step);
            BucketsStay(w.buckets, w'.buckets) && w' == w.(buckets := w'.buckets, bindings := w'.bindings)
  {
    hide Captured, Deleted, Performed, Picked;
    match step
    case CreateBucket(_, _, _, _) =>
    case SaveBucket(_, _, _, _) =>
    case Link(_, _, _) =>
  }

  lemma BucketsKeep(w: World, step: Step)
    requires Sound(w) && Enabled(w, step) && (step.CreateBucket? || step.SaveBucket? || step.Link?)
    ensures Sound(Apply(w, step))
  {
    hide AssetOk, Apply, Enabled, BucketsStay;
    BucketSteps(w, step);
    var w' := Apply(w, step);
    forall id | id in w'.trails ensures AssetOk(w', id) { BucketsOther(w, w', id); }
  }

  lemma ExpiredIsGone(now: int, a: Row, stored: Option<Option<string>>, uploads: nat)
    requires Good(now, a, stored, uploads) && a.status == Expired
    ensures stored.None?
  {
  }

  lemma DeletedOther(w: World, w': World, bucket: nat, org: nat, id: Id)
    requires id in w.trails && AssetOk(w, id) && w' == Deleted(w, bucket, org)
    ensures AssetOk(w', id)
    ensures id in w.rows && id in w.working ==> id in w'.rows
  {
    hide Good, CellOk;
    if w' != w && id in w.rows {
      if id in w.working { SameRow(w.now, View(w, id)); }
      if w.rows[id].status == Expired { ExpiredIsGone(w.now, w.rows[id], ObjectOf(w, id), w.trails[id].uploads); }
    }
  }

  /** A connection goes only with assets that are expired and announced. */
  lemma DeleteKeeps(w: World, bucket: nat, org: nat)
    requires Sound(w)
    ensures Sound(Apply(w, DeleteBucket(bucket, org)))
  {
    hide AssetOk;
    var w' := Apply(w, DeleteBucket(bucket, org));
    forall id | id in w.trails ensures AssetOk(w', id) && (id in w.rows && id in w.working ==> id in w'.rows) {
      DeletedOther(w, w', bucket, org, id);
    }
  }

  lemma StepSound(w: World, step: Step)
    requires Sound(w)
    ensures Sound(Apply(w, step))
  {
    hide Sound, Apply, Enabled;
    if !Enabled(w, step) {
      Stutters(w, step);
    } else {
      match step
      case Tick(ms) => TickKeeps(w, ms);
      case Capture(id, slot) => CaptureKeeps(w, id, slot);
      case DeleteBucket(b, org) => DeleteKeeps(w, b, org);
      case Pick(id) => PickKeeps(w, id);
      case Act(id, act) => ActKeeps(w, id, act);
      case Commit(id) => CommitKeeps(w, id);
      case Rollback(id) => RollbackKeeps(w, id);
      case _ => BucketsKeep(w, step);
    }
  }

  lemma Stutters(w: World, step: Step)
    requires !Enabled(w, step)
    ensures Apply(w, step) == w
  {
  }

  lemma {:induction false} RunSound(w: World, steps: seq<Step>)
    requires Sound(w)
    ensures Sound(Exec(w, steps))
    decreases |steps|
  {
    hide Sound, Apply;
    if steps != [] {
      StepSound(w, steps[0]);
      RunSound(Apply(w, steps[0]), steps[1..]);
    }
  }

  lemma {:induction false} Reachable(now: int, t: Timing, steps: seq<Step>) returns (w: World)
    requires ValidTiming(t) && 0 <= now && now + t.cap < MAX
    ensures w == Exec(Init(now, t), steps) && Sound(w)
  {
    w := Exec(Init(now, t), steps);
    RunSound(Init(now, t), steps);
  }
}
