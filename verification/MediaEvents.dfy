/**
 The event log and the notification outbox. A state change and its event are meant to be
 committed together. They are, unless the insert of the event fails while the transaction
 lives on: the worker then stages a retry over the change and commits both.
 */
module MediaEvents {
  import opened Wrappers
  import opened Media
  import opened MediaAsset
  import opened MediaRuns
  import opened MediaGuarantees

  /** How often a state change was committed, with an event or without. */
  function Changes(h: Trail, n: Note): nat { h.logged[n] + h.missed[n] }

  /** Every state change has its event. */
  predicate AllLogged(h: Trail) {
    h.logged[ReadyNote] == Changes(h, ReadyNote) && h.logged[ExpiredNote] == Changes(h, ExpiredNote)
  }

  lemma NoneMissed(h: Trail)
    ensures AllLogged(h) <==> h.missed == multiset{}
  {
    if AllLogged(h) {
      forall n ensures h.missed[n] == 0 {
        match n
        case ReadyNote =>
        case ExpiredNote =>
      }
    }
  }

  /** One change for each state the row has been through, and none cleared from the outbox unpublished. */
  predicate Announced(a: Row, h: Trail) {
    && Changes(h, ExpiredNote) == (if a.status == Expired then 1 else 0)
    && Changes(h, ReadyNote) <= 1
    && (a.status == Ready ==> Changes(h, ReadyNote) == 1)
    && (a.status == Pending || a.status == Failed ==> Changes(h, ReadyNote) == 0)
    && (a.note.None? && (a.status == Ready || a.status == Expired) ==> NoteOf(a) in h.published)
  }

  /** The same after the commit to come. */
  predicate CellAnnounced(c: Cell) {
    && Announced(c.row, c.trail)
    && Announced(c.work.staged, Told(c.work, c.trail))
    && (c.work.change.Some? ==> c.work.stage in {Logging, Retrying, Committing})
    && (c.work.logged ==> c.work.change.Some?)
    && (c.work.stage == Logging ==> c.work.change.Some? && !c.work.logged)
  }

  lemma {:induction false} PickAnnounced(a: Row, stored: Option<Option<string>>, h: Trail, now: int)
    requires Announced(a, h)
    ensures CellAnnounced(Cell(a, stored, Picked(a, now), h))
  {
  }

  lemma PublishTells(now: int, c: Cell, ok: bool)
    requires CellOk(now, c) && CellAnnounced(c) && c.work.stage == Publishing
    ensures CellAnnounced(Published(c, ok))
  {
  }

  lemma ClearTells(now: int, c: Cell, ok: bool)
    requires CellOk(now, c) && CellAnnounced(c) && c.work.stage == Clearing
    ensures CellAnnounced(Cleared(c, ok))
  {
  }

  lemma SaveTells(now: int, c: Cell, ok: bool)
    requires CellOk(now, c) && CellAnnounced(c) && c.work.stage == Saving
    ensures CellAnnounced(Saved(now, c, ok))
  {
  }

  lemma LogTells(c: Cell, ok: bool)
    requires CellAnnounced(c) && c.work.stage == Logging
    ensures CellAnnounced(Logged(c, ok))
  {
  }

  lemma RetryTells(now: int, t: Timing, c: Cell)
    requires CellAnnounced(c) && c.work.stage == Retrying
    ensures CellAnnounced(Retried(now, t, c))
  {
  }

  lemma RejectTells(now: int, c: Cell)
    requires CellOk(now, c) && CellAnnounced(c) && c.work.stage == Rejecting
    ensures CellAnnounced(Rejected(c))
  {
  }

  /** The other acts stage nothing. */
  lemma QuietTells(now: int, t: Timing, place: Option<Dest>, c: Cell, act: Act)
    requires CellAnnounced(c)
    requires c.work.stage in {Connecting, Looking, Removing, Probing, Fetching, Storing, Checking}
    ensures CellAnnounced(Perform(now, t, place, c, act))
  {
    hide Announced;
    SameNews(c.row, c.trail, Perform(now, t, place, c, act).trail);
    SameNews(c.work.staged, c.trail, Perform(now, t, place, c, act).trail);
  }

  lemma SameNews(a: Row, h: Trail, h': Trail)
    requires h'.logged == h.logged && h'.missed == h.missed && h'.published == h.published
    ensures Announced(a, h') <==> Announced(a, h)
  {
  }

  lemma PerformTells(now: int, t: Timing, place: Option<Dest>, c: Cell, act: Act)
    requires CellOk(now, c) && CellAnnounced(c)
    ensures var d := Perform(now, t, place, c, act); CellAnnounced(d)
  {
    hide CellOk, CellAnnounced, Published, Cleared, Connected, Looked, Removed, Probed, FetchedBy, Stored, Checked,
         Saved, Logged, Retried, Rejected;
    var d := Perform(now, t, place, c, act);
    if c.work.stage in {Connecting, Looking, Removing, Probing, Fetching, Storing, Checking} {
      QuietTells(now, t, place, c, act);
    } else if c.work.stage == Publishing && act.Publish? {
      PublishTells(now, c, act.ok);
      assert d == Published(c, act.ok);
    } else if c.work.stage == Clearing && act.Clear? {
      ClearTells(now, c, act.ok);
      assert d == Cleared(c, act.ok);
    } else if c.work.stage == Saving && act.Save? {
      SaveTells(now, c, act.ok);
      assert d == Saved(now, c, act.ok);
    } else if c.work.stage == Logging && act.Log? {
      LogTells(c, act.ok);
      assert d == Logged(c, act.ok);
    } else if c.work.stage == Retrying && act.Retry? {
      RetryTells(now, t, c);
      assert d == Retried(now, t, c);
    } else if c.work.stage == Rejecting && act.Reject? {
      RejectTells(now, c);
      assert d == Rejected(c);
    } else {
      assert d == c;
    }
  }

  // ---------- runs ----------

  predicate Heard(w: World, id: Id)
    requires id in w.trails
  {
    id in w.rows ==> Announced(w.rows[id], w.trails[id]) && (id in w.working ==> CellAnnounced(View(w, id)))
  }

  ghost predicate AllHeard(w: World) { forall id | id in w.trails :: Heard(w, id) }

  lemma ActHeard(w: World, id: Id, act: Act, o: Id)
    requires Sound(w) && Active(w, id) && o in w.trails && Heard(w, o)
    ensures o in Performed(w, id, act).trails && Heard(Performed(w, id, act), o)
  {
    hide Announced, CellAnnounced, CellOk, Good, Perform, Performed;
    var w' := Performed(w, id, act);
    assert AssetOk(w, id);
    ActTables(w, w', id, act);
    if o == id {
      SameRow(w.now, View(w, id));
      ActView(w, w', id, act);
      PerformTells(w.now, w.timing, Some(w.trails[id].dest), View(w, id), act);
      RowAnnounced(View(w', id));
      ViewHas(w', id);
    } else {
      assert ObjectsApart(w, w', id) by { ActObjects(w, w', id, act); }
      if o in w.working { assert View(w', o) == View(w, o); }
    }
  }

  lemma RowAnnounced(c: Cell)
    requires CellAnnounced(c)
    ensures Announced(c.row, c.trail) && Announced(c.work.staged, Told(c.work, c.trail))
  {
  }

  lemma CommitHeard(w: World, id: Id, o: Id)
    requires Sound(w) && Enabled(w, Commit(id)) && o in w.trails && Heard(w, o) && Heard(w, id)
    ensures Heard(Apply(w, Commit(id)), o)
  {
    hide Announced, CellAnnounced, Sound;
    if o == id { RowAnnounced(View(w, id)); }
  }

  lemma OtherHeard(w: World, step: Step, o: Id)
    requires Sound(w) && Enabled(w, step) && !step.Act? && !step.Commit? && o in w.trails && Heard(w, o)
    ensures o in Apply(w, step).trails && Heard(Apply(w, step), o)
  {
    hide Announced, CellAnnounced, AllOk;
    match step
    case Pick(id) =>
      if o == id {
        PickAnnounced(w.rows[id], ObjectOf(w, id), w.trails[id], w.now);
        PickedDest(w.rows[id], w.now);
      }
    case Tick(_) =>
    case Capture(_, _) =>
    case CreateBucket(_, _, _, _) =>
    case SaveBucket(_, _, _, _) =>
    case Link(_, _, _) =>
    case DeleteBucket(_, _) =>
    case Rollback(_) =>
  }

  lemma FreshHeard(w: World, step: Step)
    requires Sound(w) && Enabled(w, step)
    ensures forall o | o in Apply(w, step).trails && o !in w.trails :: Heard(Apply(w, step), o)
  {
    hide AssetOk, AllOk;
    if step.Act? { ActTables(w, Apply(w, step), step.id, step.act); }
  }

  lemma StepHeard(w: World, step: Step)
    requires Sound(w) && AllHeard(w)
    ensures AllHeard(Apply(w, step))
  {
    hide Heard, Sound;
    var w' := Apply(w, step);
    if Enabled(w, step) {
      FreshHeard(w, step);
      forall o | o in w'.trails ensures Heard(w', o) {
        if o in w.trails { OneHeard(w, step, o); }
      }
    }
  }

  lemma OneHeard(w: World, step: Step, o: Id)
    requires Sound(w) && AllHeard(w) && Enabled(w, step) && o in w.trails
    ensures o in Apply(w, step).trails && Heard(Apply(w, step), o)
  {
    hide Heard, Sound, Performed;
    if step.Act? {
      ActHeard(w, step.id, step.act, o);
    } else if step.Commit? {
      CommitHeard(w, step.id, o);
    } else {
      OtherHeard(w, step, o);
    }
  }

  lemma {:induction false} RunHeard(w: World, steps: seq<Step>)
    requires Sound(w) && AllHeard(w)
    ensures AllHeard(Exec(w, steps)) && Sound(Exec(w, steps))
    decreases |steps|
  {
    hide Sound, AllHeard, Apply;
    if steps != [] {
      StepSound(w, steps[0]);
      StepHeard(w, steps[0]);
      RunHeard(Apply(w, steps[0]), steps[1..]);
    }
  }

  // ---------- changes without an event ----------

  /** The commit of a transaction whose event could not be inserted. */
  predicate CommitsUnlogged(w: World, step: Step, id: Id) {
    step == Commit(id) && Enabled(w, step) && w.working[id].change.Some? && !w.working[id].logged
  }

  predicate UnloggedIn(w: World, steps: seq<Step>, id: Id)
    decreases |steps|
  {
    steps != [] && (CommitsUnlogged(w, steps[0], id) || UnloggedIn(Apply(w, steps[0]), steps[1..], id))
  }

  function MissedOf(w: World, id: Id): multiset<Note> { if id in w.trails then w.trails[id].missed else multiset{} }

  lemma PerformMisses(now: int, t: Timing, place: Option<Dest>, c: Cell, act: Act)
    ensures Perform(now, t, place, c, act).trail.missed == c.trail.missed
  {
  }

  lemma StepMisses(w: World, step: Step, id: Id)
    ensures if CommitsUnlogged(w, step, id)
            then MissedOf(Apply(w, step), id) == MissedOf(w, id) + multiset{w.working[id].change.value}
            else MissedOf(Apply(w, step), id) == MissedOf(w, id)
  {
    hide Perform, View, Where;
    if Enabled(w, step) && step.Act? {
      ActTables(w, Apply(w, step), step.id, step.act);
      ViewHas(w, step.id);
      PerformMisses(w.now, w.timing, Place(w, w.working[step.id].row), View(w, step.id), step.act);
    }
  }

  lemma {:induction false} RunMisses(w: World, steps: seq<Step>, id: Id)
    ensures MissedOf(w, id) <= MissedOf(Exec(w, steps), id)
    ensures MissedOf(Exec(w, steps), id) == MissedOf(w, id) <==> !UnloggedIn(w, steps, id)
    decreases |steps|
  {
    hide Apply, CommitsUnlogged, MissedOf;
    if steps != [] {
      StepMisses(w, steps[0], id);
      RunMisses(Apply(w, steps[0]), steps[1..], id);
    }
  }

  // ---------- the insert that fails ----------

  /** The insert of the event into the log fails; the transaction goes on. */
  predicate InsertFails(w: World, step: Step, id: Id) {
    step == Step.Act(id, Log(false)) && Enabled(w, step) && w.working[id].stage == Logging
  }

  predicate Ends(w: World, step: Step, id: Id) { (step == Commit(id) || step == Rollback(id)) && Enabled(w, step) }

  /** Has an insert failed since the asset's last transaction ended? */
  predicate StillRefused(w: World, step: Step, id: Id, refused: bool) {
    InsertFails(w, step, id) || (refused && !Ends(w, step, id))
  }

  /** Some transaction is committed although its insert failed. */
  predicate CommitAfterRefusal(w: World, steps: seq<Step>, id: Id, refused: bool)
    decreases |steps|
  {
    && steps != []
    && (|| (refused && steps[0] == Commit(id) && Enabled(w, steps[0]))
        || CommitAfterRefusal(Apply(w, steps[0]), steps[1..], id, StillRefused(w, steps[0], id, refused)))
  }

  /** What the worker's state remembers of a failed insert. */
  predicate Remembers(w: World, id: Id) {
    && id in w.working && w.working[id].change.Some? && !w.working[id].logged
    && w.working[id].stage in {Retrying, Committing}
  }

  lemma CellRemembers(now: int, t: Timing, place: Option<Dest>, c: Cell, act: Act)
    requires CellAnnounced(c)
    ensures var d := Perform(now, t, place, c, act).work;
            (d.change.Some? && !d.logged && d.stage in {Retrying, Committing}) <==>
              (act == Log(false) && c.work.stage == Logging)
              || (c.work.change.Some? && !c.work.logged && c.work.stage in {Retrying, Committing})
  {
    hide Announced;
  }

  lemma ActRemembers(w: World, id: Id, act: Act)
    requires Sound(w) && AllHeard(w) && Enabled(w, Step.Act(id, act))
    ensures Remembers(Apply(w, Step.Act(id, act)), id) <==> StillRefused(w, Step.Act(id, act), id, Remembers(w, id))
  {
    hide Sound, CellAnnounced, Perform, View, Where, Announced;
    assert Heard(w, id);
    ViewHas(w, id);
    CellRemembers(w.now, w.timing, Place(w, w.working[id].row), View(w, id), act);
  }

  lemma StepRemembers(w: World, step: Step, id: Id)
    requires Sound(w) && AllHeard(w)
    ensures Remembers(Apply(w, step), id) <==> StillRefused(w, step, id, Remembers(w, id))
  {
    hide Sound, AllHeard, Perform, View, Where;
    if Enabled(w, step) {
      match step
      case Act(j, act) => if j == id { ActRemembers(w, id, act); }
      case Pick(_) =>
      case Commit(_) =>
      case Rollback(_) =>
      case _ =>
    }
  }

  /** A commit leaves a change without its event exactly when it follows a failed insert of its own transaction. */
  lemma {:induction false} UnloggedMeansRefused(w: World, steps: seq<Step>, id: Id)
    requires Sound(w) && AllHeard(w)
    ensures UnloggedIn(w, steps, id) <==> CommitAfterRefusal(w, steps, id, Remembers(w, id))
    decreases |steps|
  {
    hide Sound, AllHeard, Apply, StillRefused;
    if steps != [] {
      StepRemembers(w, steps[0], id);
      CommitRemembers(w, id);
      StepSound(w, steps[0]);
      StepHeard(w, steps[0]);
      UnloggedMeansRefused(Apply(w, steps[0]), steps[1..], id);
    }
  }

  lemma CommitRemembers(w: World, id: Id)
    ensures CommitsUnlogged(w, Commit(id), id) <==> Remembers(w, id) && Enabled(w, Commit(id))
  {
  }

  /**
   Every committed state change has exactly one event in the log if and only if no transaction
   was committed after the insert of its event had failed; never more than one, and nothing
   leaves the outbox unpublished.
   */
  lemma EventsMatchChanges(now: int, t: Timing, steps: seq<Step>, id: Id)
    requires Starts(now, t)
    ensures var w := Exec(Init(now, t), steps);
            id in w.rows ==>
              && id in w.trails
              && w.trails[id].logged[ReadyNote] <= 1 && w.trails[id].logged[ExpiredNote] <= 1
              && (w.rows[id].note.None? && w.rows[id].status in {Ready, Expired} ==>
                    NoteOf(w.rows[id]) in w.trails[id].published)
              && (!CommitAfterRefusal(Init(now, t), steps, id, false) <==> AllLogged(w.trails[id]))
              && Announced(w.rows[id], w.trails[id])
  {
    hide AssetOk, UnloggedIn, CommitAfterRefusal;
    var w0, w := Init(now, t), Exec(Init(now, t), steps);
    RunHeard(w0, steps);
    RunMisses(w0, steps, id);
    UnloggedMeansRefused(w0, steps, id);
    if id in w.rows {
      assert Heard(w, id);
      NoneMissed(w.trails[id]);
    }
  }
}
