/** What holds of one asset at every moment, and that each act of a worker keeps it. */
module MediaAsset {
  import opened Wrappers
  import opened Media

  /**
   The heart of it: at most one upload ever; before its deadline an uploaded object is
   never missing; a ready row has lost its source and has its object, an expired row has
   neither; and only rows with nothing left to do have no next attempt.
   */
  predicate Good(now: int, a: Row, stored: Option<Option<string>>, uploads: nat) {
    && uploads <= 1
    && (stored.Some? ==> uploads == 1)
    && (uploads == 1 && stored.None? ==> Past(a, now))
    && Deadline(a) <= MAX
    && match a.status
       case Pending => a.source && a.note.None? && a.version.None? && a.next < MAX
       case Failed => a.source && a.note.None? && a.version.None? && Waiting(now, a)
       case Ready =>
         && !a.source && uploads == 1
         && (stored.Some? ==> stored.value == a.version)
         && (if a.note.Some? then a.note.value == ReadyNote && a.next < MAX else Waiting(now, a))
       case Expired =>
         && !a.source && stored.None? && Past(a, now)
         && (if a.note.Some? then a.note.value == ExpiredNote && a.next < MAX else a.next == MAX)
  }

  /** Left alone until the deadline, or past it and being retried. */
  predicate Waiting(now: int, a: Row) { a.next == Deadline(a) || (Past(a, now) && a.next < MAX) }

  /** What may be put off by a backoff delay without being stranded. */
  predicate Retryable(now: int, a: Row) {
    a.status == Pending || a.note.Some? || (a.status != Expired && Past(a, now))
  }

  /** Neither deadline nor identity of a row ever changes. */
  predicate SameAsset(a: Row, b: Row) { a.slot == b.slot && a.bucket == b.bucket && a.expiresAt == b.expiresAt }

  /** The stage says what the worker has found out; c.row is the committed row. */
  predicate AtStage(now: int, c: Cell) {
    var k := c.work;
    var a := k.row;
    match k.stage
    case Publishing => k.rounds == 0 && c.row == a == k.staged && a.note.Some?
    case Clearing => k.rounds == 0 && c.row == a == k.staged && a.note.Some? && a.note.value in c.trail.published
    case Connecting =>
      && k.staged == c.row && c.row.status != Expired && (c.row.status == Pending || Past(a, now))
      && (k.rounds == 0 ==> a == c.row)
      && (k.rounds > 0 ==>
            k.rounds == 1 && Past(a, now) && (a.version.Some? && c.stored.Some? ==> c.stored.value == a.version))
    case Looking => k.rounds <= 2 && k.staged == c.row && c.row.status != Expired && Past(a, now)
    case Removing =>
      && k.rounds <= 2 && k.staged == c.row && c.row.status != Expired && Past(a, now)
      && (c.stored.Some? ==> c.stored.value == a.version)
    case Probing =>
      k.rounds == 1 && c.row == a == k.staged && a.status == Pending && (c.trail.uploads == 1 ==> c.stored.Some?)
    case Fetching => k.rounds == 1 && c.row == a == k.staged && a.status == Pending && c.trail.uploads == 0
    case Storing => k.rounds == 1 && c.row == a == k.staged && a.status == Pending && c.trail.uploads == 0
    case Rejecting => k.rounds == 1 && c.row == a == k.staged && a.status == Pending && c.trail.uploads == 0
    case Checking =>
      && k.rounds == 1 && k.staged == c.row && c.row.status == Pending
      && a.status == Ready && !a.source && c.stored == Some(a.version)
    case Saving =>
      && k.rounds <= 2 && k.staged == c.row && !a.source
      && ((a.status == Ready && c.row.status == Pending && c.stored == Some(a.version))
          || (a.status == Expired && c.row.status != Expired && Past(a, now) && c.stored.None?))
    case Logging => k.rounds <= 2 && k.change.Some? && k.staged.note.Some?
    case Retrying => k.rounds <= 2 && Retryable(now, k.staged)
    case Committing => k.rounds <= 2
  }

  /** The order of states: a settled asset is only ever cleaned up, and an expired one stays so. */
  predicate Forward(s: Status, s': Status) { s == s' || s == Pending || (s != Expired && s' == Expired) }

  /** Deleting the row's connection is refused. */
  predicate Busy(a: Row) { a.status != Expired || a.note.Some? }

  /** The committed row is good, and so is whatever the transaction would commit. */
  predicate CellOk(now: int, c: Cell) {
    && Good(now, c.row, c.stored, c.trail.uploads)
    && Good(now, c.work.staged, c.stored, c.trail.uploads)
    && SameAsset(c.row, c.work.row) && SameAsset(c.row, c.work.staged)
    && Busy(c.row) && Forward(c.row.status, c.work.staged.status)
    && (c.row.status == Expired ==> c.work.stage in {Publishing, Clearing, Retrying, Committing})
    && AtStage(now, c)
  }

  lemma PickedOk(now: int, a: Row, stored: Option<Option<string>>, h: Trail)
    requires Good(now, a, stored, h.uploads) && a.next <= now < MAX
    ensures CellOk(now, Cell(a, stored, Picked(a, now), h))
  {
  }

  /** Time only turns "not yet due" into "due". */
  lemma GoodLater(now: int, later: int, a: Row, stored: Option<Option<string>>, uploads: nat)
    requires Good(now, a, stored, uploads) && now <= later
    ensures Good(later, a, stored, uploads)
  {
  }

  lemma CellLater(now: int, later: int, c: Cell)
    requires CellOk(now, c) && now <= later
    ensures CellOk(later, c)
  {
  }

  lemma NotePublishes(now: int, c: Cell, ok: bool)
    requires CellOk(now, c) && c.work.stage == Publishing
    ensures CellOk(now, Published(c, ok))
  {
  }

  lemma NoteClears(now: int, c: Cell, ok: bool)
    requires CellOk(now, c) && c.work.stage == Clearing && now < MAX
    ensures CellOk(now, Cleared(c, ok))
  {
  }

  lemma Connects(now: int, place: Option<Dest>, c: Cell, ok: bool)
    requires CellOk(now, c) && c.work.stage == Connecting
    ensures CellOk(now, Connected(now, place, c, ok))
  {
  }

  lemma Looks(now: int, c: Cell, ok: bool)
    requires CellOk(now, c) && c.work.stage == Looking
    ensures CellOk(now, Looked(c, ok))
  {
  }

  lemma Removes(now: int, c: Cell, reply: Reply)
    requires CellOk(now, c) && c.work.stage == Removing
    ensures CellOk(now, Removed(c, reply))
  {
  }

  lemma Probes(now: int, c: Cell, ok: bool)
    requires CellOk(now, c) && c.work.stage == Probing
    ensures CellOk(now, Probed(c, ok))
  {
  }

  lemma Fetches(now: int, c: Cell, got: Fetched)
    requires CellOk(now, c) && c.work.stage == Fetching
    ensures CellOk(now, FetchedBy(c, got))
  {
  }

  lemma Stores(now: int, c: Cell, reply: Reply, version: Option<string>)
    requires CellOk(now, c) && c.work.stage == Storing
    ensures CellOk(now, Stored(c, reply, version))
  {
  }

  lemma Checks(now: int, c: Cell)
    requires CellOk(now, c) && c.work.stage == Checking
    ensures CellOk(now, Checked(now, c))
  {
  }

  lemma Saves(now: int, c: Cell, ok: bool)
    requires CellOk(now, c) && c.work.stage == Saving && now < MAX
    ensures CellOk(now, Saved(now, c, ok))
  {
  }

  lemma Logs(now: int, c: Cell, ok: bool)
    requires CellOk(now, c) && c.work.stage == Logging
    ensures CellOk(now, Logged(c, ok))
  {
  }

  lemma Retries(now: int, t: Timing, c: Cell)
    requires CellOk(now, c) && c.work.stage == Retrying && ValidTiming(t) && now + t.cap < MAX
    ensures CellOk(now, Retried(now, t, c))
  {
    DelayWithin(t, c.work.row.attempts);
  }

  lemma Rejects(now: int, c: Cell)
    requires CellOk(now, c) && c.work.stage == Rejecting
    ensures CellOk(now, Rejected(c))
  {
  }

  lemma PerformKeeps(now: int, t: Timing, place: Option<Dest>, c: Cell, act: Act)
    requires CellOk(now, c) && ValidTiming(t) && now + t.cap < MAX
    ensures CellOk(now, Perform(now, t, place, c, act))
  {
    hide CellOk, Published, Cleared, Connected, Looked, Removed, Probed, FetchedBy, Stored, Checked, Saved, Logged,
         Retried, Rejected;
    match (c.work.stage, act)
    case (Publishing, Publish(ok)) => NotePublishes(now, c, ok);
    case (Clearing, Clear(ok)) => NoteClears(now, c, ok);
    case (Connecting, Connect(ok)) => Connects(now, place, c, ok);
    case (Looking, Head(ok)) => Looks(now, c, ok);
    case (Removing, Remove(reply)) => Removes(now, c, reply);
    case (Probing, Head(ok)) => Probes(now, c, ok);
    case (Fetching, Fetch(got)) => Fetches(now, c, got);
    case (Storing, Put(reply, version)) => Stores(now, c, reply, version);
    case (Checking, Check) => Checks(now, c);
    case (Saving, Save(ok)) => Saves(now, c, ok);
    case (Logging, Log(ok)) => Logs(now, c, ok);
    case (Retrying, Retry) => Retries(now, t, c);
    case (Rejecting, Reject) => Rejects(now, c);
    case _ =>
  }
}
