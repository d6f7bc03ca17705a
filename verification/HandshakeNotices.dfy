/** What wait streams are told: the published notices of a flow are its state changes, in order. */
module HandshakeNotices {
  import opened Wrappers
  import opened Pending
  import opened Handshake
  import opened HandshakeFlows
  import opened HandshakeStops

  function NoticesOf(ns: seq<Notice>, browser: string): seq<Status> {
    if ns == [] then []
    else NoticesOf(ns[..|ns| - 1], browser) + if ns[|ns| - 1].browser == browser then [ns[|ns| - 1].status] else []
  }

  /** The notices a record's state implies: one per change, none for finalization. */
  function Told(r: Request): seq<Status> {
    match r.status
    case Pending => []
    case Verified => [Verified]
    case Finalized => [Verified]
    case Expired => [Expired]
    case Denied => if r.verified.Some? then [Verified, Denied] else [Denied]
  }

  ghost predicate NoticeSound(w: World) {
    forall b :: NoticesOf(w.store.published, b) == if b in w.hist.flows then Told(w.hist.flows[b]) else []
  }

  lemma NoticePush(ns: seq<Notice>, n: Notice)
    ensures forall b :: NoticesOf(ns + [n], b) == NoticesOf(ns, b) + if n.browser == b then [n.status] else []
  {
    assert (ns + [n])[..|ns|] == ns;
  }

  /** A silent step changed no record's notices. */
  predicate Silent(s: Store, s': Store) {
    && s'.published == s.published
    && (forall b :: b in s'.reqs ==> b in s.reqs && Told(s'.reqs[b].value) == Told(s.reqs[b].value))
  }

  lemma NoticeKept(w: World, w': World)
    requires Tracked(w) && NoticeSound(w) && Silent(w.store, w'.store)
    requires w'.hist.flows == Overlay(w.hist.flows, w'.store.reqs)
    ensures NoticeSound(w')
  {
    assert w'.hist.flows.Keys == w.hist.flows.Keys;
  }

  /** A step that writes one record and publishes one notice, which is what the record's new state adds. */
  lemma NoticeTold(w: World, w': World, b: string, r: Key<Request>, status: Status)
    requires Tracked(w) && NoticeSound(w) && b in w.store.reqs
    requires w'.store.reqs == w.store.reqs[b := r] && w'.hist.flows == Overlay(w.hist.flows, w'.store.reqs)
    requires w'.store.published == w.store.published + [Notice(b, status)]
    requires Told(r.value) == Told(w.store.reqs[b].value) + [status]
    ensures NoticeSound(w')
  {
    OverlayWrite(w, w'.store, b, r);
    NoticePush(w.store.published, Notice(b, status));
  }

  /** An open record closed as denied or expired is told so. */
  lemma ClosingTold(r: Request, deadline: int, target: Status)
    requires WellFormed(r, deadline)
    requires target == Denied || (target == Expired && r.status == Pending)
    requires IsOpen(r)
    ensures Told(r.(status := target)) == Told(r) + [target]
  {
  }

  lemma NoticeAccept(w: World, w': World, c: ClaimInput, b: string)
    requires Tracked(w) && Shaped(w) && NoticeSound(w) && Reaches(w.store, c, b)
    requires w'.store == Accept(w.store, IndexKey(c.session, c.userCode), b, c).0
    requires w'.hist.flows == Overlay(w.hist.flows, w'.store.reqs)
    ensures NoticeSound(w')
  {
    NoticeTold(w, w', b, w'.store.reqs[b], Verified);
  }

  lemma NoticeClaim(w: World, w': World, c: ClaimInput)
    requires Tracked(w) && Shaped(w) && NoticeSound(w)
    requires w'.store == Claim(w.store, w.now, c).0 && w'.hist.flows == Overlay(w.hist.flows, w'.store.reqs)
    ensures NoticeSound(w')
  {
    var b := ClaimCases(w.store, w.now, c);
    var k := IndexKey(c.session, c.userCode);
    if !Reaches(w.store, c, b) {
      NoticeKept(w, w');
    } else if w'.store == Accept(w.store, k, b, c).0 {
      NoticeAccept(w, w', c, b);
    } else if w'.store == Bump(w.store, w.now, k, b, c.identity.lid, ModeMismatch).0 {
      NoticeBump(w, w', c, b, ModeMismatch);
    } else if w'.store == Bump(w.store, w.now, k, b, c.identity.lid, CommandMismatch).0 {
      NoticeBump(w, w', c, b, CommandMismatch);
    } else {
      NoticeKept(w, w');
    }
  }

  /** A record closed in place and announced. */
  lemma NoticeClose(w: World, w': World, b: string, target: Status, until: int)
    requires Tracked(w) && Shaped(w) && NoticeSound(w) && b in w.store.reqs && IsOpen(w.store.reqs[b].value)
    requires target == Denied || (target == Expired && w.store.reqs[b].value.status == Pending)
    requires w'.store.reqs == w.store.reqs[b := Key(w.store.reqs[b].value.(status := target), until)]
    requires w'.hist.flows == Overlay(w.hist.flows, w'.store.reqs)
    requires w'.store.published == w.store.published + [Notice(b, target)]
    ensures NoticeSound(w')
  {
    var r := w.store.reqs[b].value;
    assert w.hist.flows[b] == r;
    ClosingTold(r, w.hist.deadlines[b], target);
    NoticeTold(w, w', b, Key(r.(status := target), until), target);
  }

  /** A bump is silent unless it is the one that closes the request. */
  lemma BumpSilent(s: Store, now: int, k: IndexKey, b: string, sender: string, mismatch: ClaimStatus)
    requires b in s.reqs && s.reqs[b].value.status == Pending
    ensures var s' := Bump(s, now, k, b, sender, mismatch).0; var r := s.reqs[b].value;
            || Silent(s, s')
            || (&& r.attempts + 1 >= ATTEMPT_LIMIT
                && s'.reqs == s.reqs[b := Key(Attempted(r), r.expiresAt)]
                && s'.published == s.published + [Notice(b, Denied)])
  {
  }

  lemma NoticeBump(w: World, w': World, c: ClaimInput, b: string, mismatch: ClaimStatus)
    requires Tracked(w) && Shaped(w) && NoticeSound(w) && b in w.store.reqs && w.store.reqs[b].value.status == Pending
    requires w'.store == Bump(w.store, w.now, IndexKey(c.session, c.userCode), b, c.identity.lid, mismatch).0
    requires w'.hist.flows == Overlay(w.hist.flows, w'.store.reqs)
    ensures NoticeSound(w')
  {
    BumpSilent(w.store, w.now, IndexKey(c.session, c.userCode), b, c.identity.lid, mismatch);
    if Silent(w.store, w'.store) {
      NoticeKept(w, w');
    } else {
      NoticeAttempt(w, w', b, w.store.reqs[b].value);
    }
  }

  lemma AttemptTold(r: Request, deadline: int)
    requires WellFormed(r, deadline) && r.status == Pending && r.attempts + 1 >= ATTEMPT_LIMIT
    ensures Told(Attempted(r)) == Told(r) + [Denied]
  {
  }

  /** The tenth attempt closes the request. */
  lemma NoticeAttempt(w: World, w': World, b: string, r: Request)
    requires Tracked(w) && Shaped(w) && NoticeSound(w) && b in w.store.reqs && r == w.store.reqs[b].value
    requires r.status == Pending && r.attempts + 1 >= ATTEMPT_LIMIT
    requires w'.store.reqs == w.store.reqs[b := Key(Attempted(r), r.expiresAt)]
    requires w'.hist.flows == Overlay(w.hist.flows, w'.store.reqs)
    requires w'.store.published == w.store.published + [Notice(b, Denied)]
    ensures NoticeSound(w')
  {
    hide NoticeSound, Told, Attempted, Overlay;
    assert w.hist.flows[b] == r && WellFormed(r, w.hist.deadlines[b]);
    AttemptTold(r, w.hist.deadlines[b]);
    NoticeTold(w, w', b, Key(Attempted(r), r.expiresAt), Denied);
  }

  lemma NoticeStopped(w: World, w': World, sender: string, b: string)
    requires Tracked(w) && Shaped(w) && NoticeSound(w)
    requires b in w.store.reqs && w.store.reqs[b].value.status == Verified
    requires w'.store == Stop(w.store, w.now, sender, b).0 && w'.hist.flows == Overlay(w.hist.flows, w'.store.reqs)
    ensures NoticeSound(w')
  {
    hide Tracked, Shaped, NoticeSound, Overlay;
    NoticeClose(w, w', b, Denied, w.now + STOP_RETAIN_MS);
  }

  lemma NoticeStop(w: World, w': World, sender: string, b: string)
    requires Tracked(w) && Shaped(w) && NoticeSound(w)
    requires w'.store == Stop(w.store, w.now, sender, b).0 && w'.hist.flows == Overlay(w.hist.flows, w'.store.reqs)
    ensures NoticeSound(w')
  {
    if b in w.store.reqs && w.store.reqs[b].value.status == Verified {
      NoticeStopped(w, w', sender, b);
    } else {
      assert w'.store == w.store;
      NoticeKept(w, w');
    }
  }

  lemma NoticeTransition(w: World, w': World, at: int, b: string, c: Change)
    requires Tracked(w) && Shaped(w) && NoticeSound(w)
    requires (c.target == Denied || c.target == Expired) && (c.allowVerified ==> c.target == Denied)
    requires w'.store == Transition(w.store, w.now, at, b, c).0 && w'.hist.flows == Overlay(w.hist.flows, w'.store.reqs)
    ensures NoticeSound(w')
  {
    if Transition(w.store, w.now, at, b, c).1 == 2 {
      NoticeClose(w, w', b, c.target, w'.store.reqs[b].expireAt);
    } else {
      NoticeKept(w, w');
    }
  }

  lemma NoticeCreate(w: World, step: Step)
    requires Tracked(w) && NoticeSound(w) && Enabled(w, step) && step.DoCreate?
    ensures NoticeSound(Apply(w, step))
  {
    var w' := Apply(w, step);
    if Create(w.store, step.at, step.browser, step.p).1 {
      OverlayCreate(w, w', step.browser, step.p);
    } else {
      OverlaySame(w, w'.store);
    }
  }

  lemma DropSilent(s: Store, l: Lapse)
    ensures Silent(s, Dropped(s, l))
  {
  }

  lemma OthersSilent(w: World, step: Step)
    requires Enabled(w, step) && !step.DoClaim? && !step.DoCreate? && !step.DoStop? && !step.DoTransition?
    ensures Silent(w.store, StoreAfter(w, step))
  {
    hide Claim, Create, Stop, Transition, Finalize, Dropped, Told;
    match step
    case DoFinalize(at, b, g, a) => FinalizeSilent(w.store, at, b, g, a);
    case Drop(l) => DropSilent(w.store, l);
    case _ =>
  }

  lemma FinalizeSilent(s: Store, at: int, b: string, g: Grant, a: AuthCode)
    ensures Silent(s, Finalize(s, at, b, g, a).0)
  {
  }

  lemma NoticeStep(w: World, step: Step)
    requires Tracked(w) && Shaped(w) && NoticeSound(w) && Enabled(w, step)
    ensures NoticeSound(Apply(w, step))
  {
    match step
    case DoClaim(c) => NoticeClaim(w, Apply(w, step), c);
    case DoCreate(_, _, _) => NoticeCreate(w, step);
    case DoStop(x, b) => NoticeStop(w, Apply(w, step), x, b);
    case DoTransition(at, b, c) => NoticeTransition(w, Apply(w, step), at, b, c);
    case _ =>
      OthersSilent(w, step);
      NoticeKept(w, Apply(w, step));
  }

  lemma {:induction false} NoticeRun(w: World, steps: seq<Step>)
    requires Tracked(w) && Shaped(w) && NoticeSound(w)
    ensures NoticeSound(Exec(w, steps))
    decreases |steps|
  {
    if steps != [] {
      FlowStep(w, steps[0]);
      if Enabled(w, steps[0]) { NoticeStep(w, steps[0]); }
      NoticeRun(Apply(w, steps[0]), steps[1..]);
    }
  }

  /** In every reachable world, each flow's notices are exactly those its record implies, so none is ever repeated. */
  lemma NoticesMatchFlows(start: int, steps: seq<Step>)
    ensures var w := Exec(Init(start), steps);
            forall b :: NoticesOf(w.store.published, b) == if b in w.hist.flows then Told(w.hist.flows[b]) else []
  {
    NoticeRun(Init(start), steps);
  }
}
