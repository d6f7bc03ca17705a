/** When rows come due: whatever is left to do is tried again within one backoff cap. */
module MediaDue {
  import opened Wrappers
  import opened Media
  import opened MediaAsset
  import opened MediaRuns
  import opened MediaGuarantees

  /** Rows with work left are due by the horizon, the others exactly at their deadline, or never again. */
  predicate Soon(a: Row, now: int, horizon: int) {
    match a.status
    case Pending => a.next <= horizon
    case Failed => Rests(a, now, horizon)
    case Ready => if a.note.Some? then a.next <= horizon else Rests(a, now, horizon)
    case Expired => if a.note.Some? then a.next <= horizon else a.next == MAX
  }

  predicate Rests(a: Row, now: int, horizon: int) { a.next == Deadline(a) || (Past(a, now) && a.next <= horizon) }

  ghost predicate DueOk(w: World) {
    && (forall id | id in w.rows :: Soon(w.rows[id], w.now, w.now + w.timing.cap))
    && (forall id | id in w.working :: Soon(w.working[id].staged, w.now, w.now + w.timing.cap))
  }

  lemma ClearsSoon(now: int, horizon: int, c: Cell, ok: bool)
    requires CellOk(now, c) && c.work.stage == Clearing && Soon(c.work.staged, now, horizon)
    ensures Soon(Cleared(c, ok).work.staged, now, horizon)
  {
  }

  lemma SavesSoon(now: int, horizon: int, c: Cell, ok: bool)
    requires CellOk(now, c) && c.work.stage == Saving && Soon(c.work.staged, now, horizon) && now <= horizon
    ensures Soon(Saved(now, c, ok).work.staged, now, horizon)
  {
  }

  lemma RetriesSoon(now: int, t: Timing, c: Cell)
    requires CellOk(now, c) && c.work.stage == Retrying && ValidTiming(t)
    ensures Soon(Retried(now, t, c).work.staged, now, now + t.cap)
  {
    DelayWithin(t, c.work.row.attempts);
  }

  lemma RejectsSoon(now: int, horizon: int, c: Cell)
    requires CellOk(now, c) && c.work.stage == Rejecting
    ensures Soon(Rejected(c).work.staged, now, horizon)
  {
  }

  lemma OthersSoon(now: int, t: Timing, place: Option<Dest>, c: Cell, act: Act)
    requires c.work.stage !in {Clearing, Saving, Retrying, Rejecting}
    ensures Perform(now, t, place, c, act).work.staged == c.work.staged
  {
  }

  lemma ActSoon(now: int, t: Timing, place: Option<Dest>, c: Cell, act: Act)
    requires CellOk(now, c) && ValidTiming(t) && Soon(c.work.staged, now, now + t.cap)
    ensures Soon(Perform(now, t, place, c, act).work.staged, now, now + t.cap)
  {
    hide CellOk, Soon, Published, Cleared, Connected, Looked, Removed, Probed, FetchedBy, Stored, Checked, Saved,
         Logged, Retried, Rejected;
    match (c.work.stage, act)
    case (Clearing, Clear(ok)) => ClearsSoon(now, now + t.cap, c, ok);
    case (Saving, Save(ok)) => SavesSoon(now, now + t.cap, c, ok);
    case (Retrying, Retry) => RetriesSoon(now, t, c);
    case (Rejecting, Reject) => RejectsSoon(now, now + t.cap, c);
    case _ => if c.work.stage !in {Clearing, Saving, Retrying, Rejecting} { OthersSoon(now, t, place, c, act); }
  }

  lemma SoonLater(a: Row, now: int, later: int, cap: int)
    requires Soon(a, now, now + cap) && now <= later
    ensures Soon(a, later, later + cap)
  {
  }

  lemma ActDue(w: World, id: Id, act: Act)
    requires Sound(w) && DueOk(w) && Active(w, id)
    ensures DueOk(Performed(w, id, act))
  {
    hide Soon, CellOk, Good, Perform, View, Where;
    var w' := Performed(w, id, act);
    assert AssetOk(w, id);
    ViewHas(w, id);
    ActTables(w, w', id, act);
    ActSoon(w.now, w.timing, Place(w, w.working[id].row), View(w, id), act);
  }

  lemma TickDue(w: World, ms: nat)
    requires DueOk(w)
    ensures DueOk(w.(now := w.now + ms))
  {
    hide Soon;
    var w' := w.(now := w.now + ms);
    forall id | id in w'.rows ensures Soon(w'.rows[id], w'.now, w'.now + w'.timing.cap) {
      SoonLater(w.rows[id], w.now, w'.now, w.timing.cap);
    }
    forall id | id in w'.working ensures Soon(w'.working[id].staged, w'.now, w'.now + w'.timing.cap) {
      SoonLater(w.working[id].staged, w.now, w'.now, w.timing.cap);
    }
  }

  lemma CaptureDue(w: World, id: Id, slot: Slot)
    requires DueOk(w) && ValidTiming(w.timing)
    ensures DueOk(Captured(w, id, slot))
  {
    hide Expiry, Taken, Bound;
  }

  lemma PickDue(w: World, id: Id)
    requires DueOk(w) && id in w.rows
    ensures DueOk(w.(working := w.working[id := Picked(w.rows[id], w.now)]))
  {
    hide Soon;
  }

  lemma StepDue(w: World, step: Step)
    requires Sound(w) && DueOk(w)
    ensures DueOk(Apply(w, step))
  {
    hide Soon, AllOk, Distinct, Keyed, Performed, Captured, Picked, Told, InUse;
    if Enabled(w, step) {
      match step
      case Tick(ms) => TickDue(w, ms);
      case Capture(id, slot) => CaptureDue(w, id, slot);
      case Act(id, act) => ActDue(w, id, act);
      case Pick(id) => PickDue(w, id);
      case _ =>
    }
  }

  lemma {:induction false} RunDue(w: World, steps: seq<Step>)
    requires Sound(w) && DueOk(w)
    ensures DueOk(Exec(w, steps)) && Exec(w, steps).timing == w.timing
    decreases |steps|
  {
    hide Sound, DueOk, Apply;
    if steps != [] {
      StepDue(w, steps[0]);
      StepSound(w, steps[0]);
      TimingStays(w, steps[0]);
      RunDue(Apply(w, steps[0]), steps[1..]);
    }
  }

  lemma TimingStays(w: World, step: Step)
    ensures Apply(w, step).timing == w.timing
  {
    hide Perform, View, Where, Picked, Expiry;
  }

  /**
   In every reachable world: a row that is pending or has a notification to publish comes due within one
   backoff cap; a row without one that is ready or failed comes due exactly at its deadline, or once that
   has passed within one cap; only settled rows never do.
   */
  lemma NotStranded(now: int, t: Timing, steps: seq<Step>, id: Id)
    requires Starts(now, t)
    ensures var w := Exec(Init(now, t), steps);
            id in w.rows ==>
              var a := w.rows[id];
              && (a.status == Pending || a.note.Some? ==> a.next <= w.now + t.cap)
              && (a.status in {Ready, Failed} && a.note.None? && !Past(a, w.now) ==> a.next == Deadline(a))
              && (a.status in {Ready, Failed} && Past(a, w.now) ==> a.next <= w.now + t.cap)
              && (a.next >= MAX <==> Settled(a))
  {
    var w := Reachable(now, t, steps);
    RunDue(Init(now, t), steps);
    if id in w.rows {
      assert AssetOk(w, id);
      SettledMeans(w.now, w.rows[id], ObjectOf(w, id), w.trails[id].uploads, w.now + t.cap);
    }
  }

  lemma SettledMeans(now: int, a: Row, stored: Option<Option<string>>, uploads: nat, horizon: int)
    requires Good(now, a, stored, uploads) && Soon(a, now, horizon) && horizon < MAX && now <= horizon
    ensures a.next >= MAX <==> Settled(a)
  {
  }

  /** So a worker can take any such row at the latest one cap from now, if nobody else has it. */
  lemma TakenWithinCap(now: int, t: Timing, steps: seq<Step>, id: Id)
    requires Starts(now, t)
    ensures var w := Exec(Init(now, t), steps);
            id in w.rows && id !in w.working && !Settled(w.rows[id])
            && (w.rows[id].status == Pending || w.rows[id].note.Some? || Past(w.rows[id], w.now))
            && Enabled(w, Tick(t.cap)) ==>
              Enabled(Apply(w, Tick(t.cap)), Pick(id))
  {
    NotStranded(now, t, steps, id);
    var w := Reachable(now, t, steps);
    if id in w.rows {
      assert AssetOk(w, id);
    }
  }
}
