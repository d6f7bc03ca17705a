/**
 Attachment storage: connections, session bindings, asset rows, the object store and
 the workers that move assets between them.

 A worker's transaction is a sequence of separate acts, so the clock, other workers
 and the administrative operations run in between, and it can end at any act without
 a commit. Its effects on the object store then stay. An act that does not fit the
 stage a worker is in leaves the world alone, so every sequence of steps is a run.
 */
module Media {
  import opened Wrappers

  // ---------- arithmetic of deadlines ----------

  const MAX := 0x7FFF_FFFF_FFFF_FFFF
  const DAY := 86_400_000

  function Wrap64(x: int): int { (x + 0x8000_0000_0000_0000) % 0x1_0000_0000_0000_0000 - 0x8000_0000_0000_0000 }

  /** The deadline Capture gives an asset. */
  function Expiry(now: int, days: int): int { Wrap64(now + Wrap64(days * DAY)) }

  /** What validate accepts when a connection is saved. */
  predicate ValidRetention(now: int, days: int) { 1 <= days <= (MAX - now) / DAY }

  /** A deadline lies ahead exactly while the retention accepted earlier still fits. */
  lemma ExpiryAhead(saved: int, now: int, days: int)
    requires 0 <= saved <= now <= MAX && ValidRetention(saved, days)
    ensures Expiry(now, days) > now <==> ValidRetention(now, days)
    ensures ValidRetention(now, days) ==> Expiry(now, days) == now + days * DAY
  {
    assert days * DAY <= MAX - saved;
    assert Wrap64(days * DAY) == days * DAY;
    assert days <= (MAX - now) / DAY <==> now + days * DAY <= MAX;
  }

  /** The longest retention accepted one day makes the next day's assets expire at once. */
  lemma ExpiryWrapsExample()
    ensures ValidRetention(0, 106_751_991_167) && Expiry(DAY, 106_751_991_167) < 0
  {
  }

  datatype Timing = Timing(base: int, cap: int)

  /** What Run demands before it starts. */
  predicate ValidTiming(t: Timing) { 0 < t.base <= t.cap }

  function Pow2(n: nat): nat { if n == 0 then 1 else 2 * Pow2(n - 1) }

  /** The delay after this many failures: the base doubled for each, up to the cap. */
  function Delay(t: Timing, attempts: nat): int {
    if t.base * Pow2(attempts) < t.cap then t.base * Pow2(attempts) else t.cap
  }

  lemma {:induction false} Pow2Grows(m: nat, n: nat)
    requires m <= n
    ensures 1 <= Pow2(m) <= Pow2(n)
    decreases n
  {
    if m < n {
      Pow2Grows(m, n - 1);
    } else if n > 0 {
      Pow2Grows(n - 1, n - 1);
    }
  }

  lemma Scaled(base: int, a: int, b: int)
    requires base > 0 && a <= b
    ensures base * a <= base * b
  {
  }

  lemma DelayWithin(t: Timing, attempts: nat)
    requires ValidTiming(t)
    ensures t.base <= Delay(t, attempts) <= t.cap
  {
    Pow2Grows(0, attempts);
    Scaled(t.base, 1, Pow2(attempts));
  }

  /** The base at first, then twice as long each time until the cap. */
  lemma DelayDoubles(t: Timing, attempts: nat)
    requires ValidTiming(t)
    ensures Delay(t, 0) == t.base
    ensures Delay(t, attempts + 1) == if 2 * Delay(t, attempts) < t.cap then 2 * Delay(t, attempts) else t.cap
  {
    Doubled(t.base, Pow2(attempts));
    assert Pow2(attempts + 1) == 2 * Pow2(attempts);
  }

  /** The loop never lets the delay beyond the cap, so it cannot overflow whatever attempts says. */
  method BackoffDelay(t: Timing, attempts: nat) returns (delay: int)
    requires ValidTiming(t)
    ensures delay == Delay(t, attempts)
  {
    delay := t.base;
    var i := 0;
    while i < attempts && delay < t.cap
      invariant 0 <= i <= attempts && 0 < delay <= t.cap
      invariant delay == t.base * Pow2(i)
      decreases attempts - i
    {
      Pow2Grows(i + 1, attempts);
      Scaled(t.base, Pow2(i + 1), Pow2(attempts));
      Doubled(t.base, Pow2(i));
      if delay > t.cap / 2 { return t.cap; }
      delay := delay * 2;
      i := i + 1;
    }
    Pow2Grows(i, attempts);
    Scaled(t.base, Pow2(i), Pow2(attempts));
  }

  lemma Doubled(base: int, p: int)
    ensures base * (2 * p) == 2 * (base * p)
  {
  }

  // ---------- rows ----------

  type Id = nat

  datatype Status = Pending | Ready | Expired | Failed
  datatype Note = ReadyNote | ExpiredNote

  /** The unique key of an asset row. */
  datatype Slot = Slot(org: nat, session: nat, message: nat, index: int)

  /** source tells whether the encrypted source is still there. */
  datatype Row = Row(slot: Slot, bucket: nat, status: Status, version: Option<string>, source: bool,
                     expiresAt: Option<int>, next: int, attempts: nat, note: Option<Note>)

  datatype Dest = Dest(endpoint: string, region: string, bucket: string, pathStyle: bool)

  datatype Bucket = Bucket(org: nat, dest: Dest, days: Option<int>)

  datatype Binding = Binding(org: nat, bucket: nat)

  predicate Past(a: Row, now: int) { a.expiresAt.Some? && a.expiresAt.value <= now }

  function Deadline(a: Row): int { if a.expiresAt.Some? then a.expiresAt.value else MAX }

  // ---------- one worker's transaction ----------

  datatype Stage =
    | Publishing | Clearing
    | Connecting | Looking | Removing | Probing | Fetching | Storing | Checking
    | Saving | Logging | Retrying | Rejecting | Committing

  /**
   row: the asset in the worker's memory
   staged: the row as the transaction would commit it
   rounds: how often process has been entered
   change: the state change staged, and whether its event is in the transaction too
   */
  datatype Work = Work(row: Row, staged: Row, stage: Stage, dest: Option<Dest>, rounds: nat, change: Option<Note>,
                       logged: bool)

  /**
   What nobody reads but the proofs: where the asset was first meant to go, how often its
   object was written, the committed state changes with and without an event, and what was published.
   */
  datatype Trail = Trail(dest: Dest, uploads: nat, logged: multiset<Note>, missed: multiset<Note>, published: set<Note>)

  /** An asset under work; the stored object is known by its version id, none for unversioned buckets. */
  datatype Cell = Cell(row: Row, stored: Option<Option<string>>, work: Work, trail: Trail)

  /** A request takes effect and says so, takes effect unheard, or has no effect. */
  datatype Reply = Done | Lost | Refused

  datatype Fetched = Bytes | Invalid | Broken

  datatype Act =
    | Publish(ok: bool) | Clear(ok: bool)
    | Connect(ok: bool) | Head(ok: bool) | Remove(reply: Reply) | Fetch(got: Fetched)
    | Put(reply: Reply, version: Option<string>) | Check
    | Save(ok: bool) | Log(ok: bool) | Retry | Reject

  /** step's first decision about a picked row. */
  function Picked(a: Row, now: int): Work {
    var stage := if a.note.Some? && (a.status == Expired || !Past(a, now)) then Publishing else Connecting;
    Work(a, a, stage, None, 0, None, false)
  }

  function Fail(k: Work): Work { k.(stage := Retrying) }

  function Uploaded(a: Row, version: Option<string>): Row { a.(version := version, status := Ready, source := false) }

  function Gone(a: Row): Row { a.(status := Expired, source := false) }

  function Published(c: Cell, ok: bool): Cell {
    if !ok || c.work.row.note.None? then c.(work := Fail(c.work))
    else c.(work := c.work.(stage := Clearing),
            trail := c.trail.(published := c.trail.published + {c.work.row.note.value}))
  }

  function Cleared(c: Cell, ok: bool): Cell {
    if !ok then c.(work := Fail(c.work))
    else
      var next := if c.work.row.status == Ready && c.work.row.expiresAt.Some? then c.work.row.expiresAt.value else MAX;
      c.(work := c.work.(staged := c.work.staged.(note := None, next := next), stage := Committing))
  }

  function Connected(now: int, place: Option<Dest>, c: Cell, ok: bool): Cell {
    var k := c.work.(rounds := c.work.rounds + 1);
    if !ok || place.None? then c.(work := Fail(k))
    else
      var stage := if !Past(k.row, now) then Probing else if k.row.version.None? then Looking else Removing;
      c.(work := k.(dest := place, stage := stage))
  }

  /** HEAD before a cleanup recovers the version of an upload nobody recorded. */
  function Looked(c: Cell, ok: bool): Cell {
    var k := c.work;
    if !ok then c.(work := Fail(k))
    else if c.stored.None? then c.(work := k.(row := Gone(k.row), stage := Saving))
    else c.(work := k.(row := k.row.(version := c.stored.value), stage := Removing))
  }

  function Removed(c: Cell, reply: Reply): Cell {
    var k := c.work;
    var after := if c.stored == Some(k.row.version) then None else c.stored;
    match reply
    case Refused => c.(work := Fail(k))
    case Lost => c.(stored := after, work := Fail(k))
    case Done => c.(stored := after, work := k.(row := Gone(k.row), stage := Saving))
  }

  /** HEAD before an upload recovers one that was never committed. */
  function Probed(c: Cell, ok: bool): Cell {
    var k := c.work;
    if !ok then c.(work := Fail(k))
    else if c.stored.None? then c.(work := k.(stage := Fetching))
    else c.(work := k.(row := Uploaded(k.row, c.stored.value), stage := Checking))
  }

  function FetchedBy(c: Cell, got: Fetched): Cell {
    var k := c.work;
    if !k.row.source || got == Broken then c.(work := Fail(k))
    else if got == Invalid then c.(work := k.(stage := Rejecting))
    else c.(work := k.(stage := Storing))
  }

  /** PutObject with If-None-Match. */
  function Stored(c: Cell, reply: Reply, version: Option<string>): Cell {
    var k := c.work;
    if c.stored.Some? || reply == Refused then c.(work := Fail(k))
    else
      var d := c.(stored := Some(version), trail := c.trail.(uploads := c.trail.uploads + 1));
      if reply == Lost then d.(work := Fail(k)) else d.(work := k.(row := Uploaded(k.row, version), stage := Checking))
  }

  function Checked(now: int, c: Cell): Cell {
    c.(work := c.work.(stage := if Past(c.work.row, now) then Connecting else Saving))
  }

  function NoteOf(a: Row): Note { if a.status == Expired then ExpiredNote else ReadyNote }

  function Saved(now: int, c: Cell, ok: bool): Cell {
    var k := c.work;
    if !ok then c.(work := Fail(k))
    else
      var note := NoteOf(k.row);
      var staged := k.staged.(status := k.row.status, source := false, version := k.row.version, note := Some(note),
                              next := now, attempts := 0);
      c.(work := k.(staged := staged, stage := Logging, change := Some(note)))
  }

  function Logged(c: Cell, ok: bool): Cell {
    if !ok then c.(work := Fail(c.work)) else c.(work := c.work.(logged := true, stage := Committing))
  }

  function Retried(now: int, t: Timing, c: Cell): Cell {
    var k := c.work;
    c.(work := k.(staged := k.staged.(attempts := k.staged.attempts + 1, next := now + Delay(t, k.row.attempts)),
                  stage := Committing))
  }

  function Rejected(c: Cell): Cell {
    var k := c.work;
    c.(work := k.(staged := k.staged.(status := Failed, next := Deadline(k.row)), stage := Committing))
  }

  /** One act of the worker; place is where the connection row says the asset belongs. */
  function Perform(now: int, t: Timing, place: Option<Dest>, c: Cell, act: Act): Cell {
    match (c.work.stage, act)
    case (Publishing, Publish(ok)) => Published(c, ok)
    case (Clearing, Clear(ok)) => Cleared(c, ok)
    case (Connecting, Connect(ok)) => Connected(now, place, c, ok)
    case (Looking, Head(ok)) => Looked(c, ok)
    case (Removing, Remove(reply)) => Removed(c, reply)
    case (Probing, Head(ok)) => Probed(c, ok)
    case (Fetching, Fetch(got)) => FetchedBy(c, got)
    case (Storing, Put(reply, version)) => Stored(c, reply, version)
    case (Checking, Check) => Checked(now, c)
    case (Saving, Save(ok)) => Saved(now, c, ok)
    case (Logging, Log(ok)) => Logged(c, ok)
    case (Retrying, Retry) => Retried(now, t, c)
    case (Rejecting, Reject) => Rejected(c)
    case _ => c
  }

  /** The state change a commit makes, with its event or without one. */
  function Told(k: Work, h: Trail): Trail {
    if k.change.None? then h
    else if k.logged then h.(logged := h.logged + multiset{k.change.value})
    else h.(missed := h.missed + multiset{k.change.value})
  }

  // ---------- the whole world ----------

  datatype Address = Address(dest: Dest, id: Id)

  datatype World = World(
    now: int,
    timing: Timing,
    rows: map<Id, Row>,
    buckets: map<nat, Bucket>,
    bindings: map<nat, Binding>,
    objects: map<Address, Option<string>>,
    working: map<Id, Work>,
    trails: map<Id, Trail>)

  function Init(now: int, t: Timing): World { World(now, t, map[], map[], map[], map[], map[], map[]) }

  datatype Step =
    | Tick(ms: nat)
    | Capture(id: Id, slot: Slot)
    | CreateBucket(bucket: nat, org: nat, dest: Dest, days: Option<int>)
    | SaveBucket(bucket: nat, org: nat, dest: Dest, days: Option<int>)
    | Link(session: nat, org: nat, target: Option<nat>)
    | DeleteBucket(bucket: nat, org: nat)
    | Pick(id: Id)
    | Act(id: Id, act: Act)
    | Commit(id: Id)
    | Rollback(id: Id)

  predicate Bound(w: World, slot: Slot) {
    && slot.session in w.bindings && w.bindings[slot.session].org == slot.org
    && w.bindings[slot.session].bucket in w.buckets && w.buckets[w.bindings[slot.session].bucket].org == slot.org
  }

  predicate Taken(w: World, slot: Slot) { exists id :: id in w.rows && w.rows[id].slot == slot }

  /** INSERT IGNORE under the unique key, when the session is bound. */
  function Captured(w: World, id: Id, slot: Slot): World {
    if !Bound(w, slot) || Taken(w, slot) then w
    else
      var bucket := w.bindings[slot.session].bucket;
      var b := w.buckets[bucket];
      var expiresAt := if b.days.None? then None else Some(Expiry(w.now, b.days.value));
      w.(rows := w.rows[id := Row(slot, bucket, Pending, None, true, expiresAt, w.now, 0, None)],
         trails := w.trails[id := Trail(b.dest, 0, multiset{}, multiset{}, {})])
  }

  /** Save refuses a connection of another organization and any other destination. */
  function SavedBucket(w: World, bucket: nat, org: nat, dest: Dest, days: Option<int>): World {
    if bucket !in w.buckets || w.buckets[bucket].org != org || w.buckets[bucket].dest != dest then w
    else w.(buckets := w.buckets[bucket := w.buckets[bucket].(days := days)])
  }

  function Linked(w: World, session: nat, org: nat, target: Option<nat>): World {
    if target.None? then
      if session in w.bindings && w.bindings[session].org == org then w.(bindings := w.bindings - {session}) else w
    else if target.value !in w.buckets || w.buckets[target.value].org != org then w
    else w.(bindings := w.bindings[session := Binding(org, target.value)])
  }

  predicate InUse(w: World, bucket: nat) {
    || (exists s :: s in w.bindings && w.bindings[s].bucket == bucket)
    || (exists id :: id in w.rows && w.rows[id].bucket == bucket
          && (w.rows[id].status != Expired || w.rows[id].note.Some?))
  }

  function Deleted(w: World, bucket: nat, org: nat): World {
    if bucket !in w.buckets || w.buckets[bucket].org != org || InUse(w, bucket) then w
    else
      w.(rows := map id | id in w.rows && !(w.rows[id].bucket == bucket && w.rows[id].slot.org == org) :: w.rows[id],
         buckets := w.buckets - {bucket})
  }

  /** What the connection query answers for this row. */
  function Place(w: World, a: Row): Option<Dest> {
    if a.bucket in w.buckets && w.buckets[a.bucket].org == a.slot.org then Some(w.buckets[a.bucket].dest) else None
  }

  predicate Active(w: World, id: Id) { id in w.working && id in w.rows && id in w.trails }

  /** Where a worker looks for the asset's object: the connection it read. */
  function Where(k: Work, h: Trail, id: Id): Address { Address(if k.dest.Some? then k.dest.value else h.dest, id) }

  function ObjectAt(w: World, a: Address): Option<Option<string>> {
    if a in w.objects then Some(w.objects[a]) else None
  }

  function View(w: World, id: Id): Cell
    requires Active(w, id)
  {
    Cell(w.rows[id], ObjectAt(w, Where(w.working[id], w.trails[id], id)), w.working[id], w.trails[id])
  }

  function Performed(w: World, id: Id, act: Act): World
    requires Active(w, id)
  {
    var at := Where(w.working[id], w.trails[id], id);
    var c := Perform(w.now, w.timing, Place(w, w.working[id].row), View(w, id), act);
    w.(objects := if c.stored.Some? then w.objects[at := c.stored.value] else w.objects - {at},
       working := w.working[id := c.work],
       trails := w.trails[id := c.trail])
  }

  predicate Enabled(w: World, step: Step) {
    match step
    case Tick(ms) => w.now + ms + w.timing.cap < MAX
    case Capture(id, _) => id !in w.trails
    case CreateBucket(b, _, _, _) => b !in w.buckets
    case Pick(id) => id in w.rows && id !in w.working && w.rows[id].next <= w.now
    case Act(id, _) => Active(w, id)
    case Commit(id) => Active(w, id) && w.working[id].stage == Committing
    case Rollback(id) => id in w.working
    case _ => true
  }

  function Apply(w: World, step: Step): World {
    if !Enabled(w, step) then w
    else
      match step
      case Tick(ms) => w.(now := w.now + ms)
      case Capture(id, slot) => Captured(w, id, slot)
      case CreateBucket(b, org, dest, days) => w.(buckets := w.buckets[b := Bucket(org, dest, days)])
      case SaveBucket(b, org, dest, days) => SavedBucket(w, b, org, dest, days)
      case Link(session, org, target) => Linked(w, session, org, target)
      case DeleteBucket(b, org) => Deleted(w, b, org)
      case Pick(id) => w.(working := w.working[id := Picked(w.rows[id], w.now)])
      case Act(id, act) => Performed(w, id, act)
      case Commit(id) =>
        w.(rows := w.rows[id := w.working[id].staged],
           trails := w.trails[id := Told(w.working[id], w.trails[id])],
           working := w.working - {id})
      case Rollback(id) => w.(working := w.working - {id})
  }

  function Exec(w: World, steps: seq<Step>): World
    decreases |steps|
  {
    if steps == [] then w else Exec(Apply(w, steps[0]), steps[1..])
  }

  lemma {:induction false} ExecSnoc(w: World, steps: seq<Step>, s: Step)
    ensures Exec(w, steps + [s]) == Apply(Exec(w, steps), s)
    decreases |steps|
  {
    hide Apply;
    if steps == [] {
      assert Exec(w, [s]) == Exec(Apply(w, s), []);
    } else {
      assert (steps + [s])[0] == steps[0] && (steps + [s])[1..] == steps[1..] + [s];
      ExecSnoc(Apply(w, steps[0]), steps[1..], s);
    }
  }
}
