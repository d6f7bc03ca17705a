/** Attempt accounting: what mismatching senders can add to requests. */
module HandshakeMisses {
  import opened Wrappers
  import opened Pending
  import opened Handshake
  import opened HandshakeFlows
  import opened HandshakeStops

  function CountFlow(ms: seq<Miss>, browser: string): nat {
    if ms == [] then 0 else CountFlow(ms[..|ms| - 1], browser) + if ms[|ms| - 1].browser == browser then 1 else 0
  }

  function CountWindow(ms: seq<Miss>, sender: string, window: nat): nat {
    if ms == [] then 0
    else CountWindow(ms[..|ms| - 1], sender, window)
         + if ms[|ms| - 1].sender == sender && ms[|ms| - 1].window == window then 1 else 0
  }

  lemma CountPush(ms: seq<Miss>, m: Miss)
    ensures forall b :: CountFlow(ms + [m], b) == CountFlow(ms, b) + if m.browser == b then 1 else 0
    ensures forall x, n ::
              CountWindow(ms + [m], x, n) == CountWindow(ms, x, n) + if m.sender == x && m.window == n then 1 else 0
  {
    assert (ms + [m])[..|ms|] == ms;
  }

  /** Attempts are exactly the recorded misses. */
  ghost predicate AttemptsSound(h: History) {
    forall b :: CountFlow(h.misses, b) == if b in h.flows then h.flows[b].attempts else 0
  }

  /** No window holds more than five misses, the open one no more than its counter shows. */
  ghost predicate WindowsSound(h: History, wrong: map<string, Key<nat>>) {
    && (forall x, n: nat :: CountWindow(h.misses, x, n) <= SENDER_LIMIT)
    && (forall x, n: nat :: n > WindowOf(h, x) ==> CountWindow(h.misses, x, n) == 0)
    && (forall x :: x in wrong ==> CountWindow(h.misses, x, WindowOf(h, x)) <= wrong[x].value)
  }

  ghost predicate MissSound(w: World) { AttemptsSound(w.hist) && WindowsSound(w.hist, w.store.wrong) }

  /** Incrementing a sender's counter, in the window that is or becomes open, keeps the windows right. */
  lemma CountedWindow(h: History, s: Store, now: int, sender: string)
    requires WindowsSound(h, s.wrong)
    ensures var h' := OpenWindow(h, s, now, sender); var wrong' := Incr(s.wrong, now, sender);
            && WindowsSound(h', wrong')
            && CountWindow(h'.misses, sender, WindowOf(h', sender)) < wrong'[sender].value
  {
  }

  lemma MissedWindow(h: History, wrong: map<string, Key<nat>>, m: Miss)
    requires WindowsSound(h, wrong) && m.sender in wrong && wrong[m.sender].value <= SENDER_LIMIT
    requires m.window == WindowOf(h, m.sender) && CountWindow(h.misses, m.sender, m.window) < wrong[m.sender].value
    ensures WindowsSound(h.(misses := h.misses + [m]), wrong)
  {
    CountPush(h.misses, m);
  }

  /** What NoteClaim adds for a mismatch. */
  lemma MissNoted(w: World, c: ClaimInput, b: string, mismatch: ClaimStatus)
    requires b in w.store.reqs && mismatch != RateLimited
    ensures var answer := Bump(w.store, w.now, IndexKey(c.session, c.userCode), b, c.identity.lid, mismatch);
            var counted := OpenWindow(w.hist, w.store, w.now, c.identity.lid);
            && answer.0.wrong == Incr(w.store.wrong, w.now, c.identity.lid)
            && NoteClaim(w.hist, w.store, answer.0, w.now, c, answer.1)
               == (var m := Miss(c.identity.lid, WindowOf(counted, c.identity.lid), b);
                   if answer.0.wrong[c.identity.lid].value > SENDER_LIMIT then counted
                   else counted.(misses := w.hist.misses + [m]))
  {
    hide Attempted, VerifiesNothing, Lower;
  }

  /** One more attempt in a record, one more miss against it. */
  lemma AttemptsPush(h: History, m: Miss, r: Request)
    requires AttemptsSound(h) && m.browser in h.flows && r.attempts == h.flows[m.browser].attempts + 1
    ensures AttemptsSound(h.(misses := h.misses + [m], flows := h.flows[m.browser := r]))
  {
    CountPush(h.misses, m);
  }

  /** The mismatch that counts: within the sender's limit, so the window takes the miss. */
  lemma MissInWindow(h: History, s: Store, now: int, sender: string, b: string)
    requires WindowsSound(h, s.wrong) && Incr(s.wrong, now, sender)[sender].value <= SENDER_LIMIT
    ensures var counted := OpenWindow(h, s, now, sender);
            WindowsSound(counted.(misses := h.misses + [Miss(sender, WindowOf(counted, sender), b)]),
                         Incr(s.wrong, now, sender))
  {
    CountedWindow(h, s, now, sender);
    var counted := OpenWindow(h, s, now, sender);
    MissedWindow(counted, Incr(s.wrong, now, sender), Miss(sender, WindowOf(counted, sender), b));
  }

  /** And the request takes the attempt. */
  lemma MissInRequest(w: World, s': Store, m: Miss, r: Request)
    requires Tracked(w) && AttemptsSound(w.hist) && m.browser in w.store.reqs && r == w.store.reqs[m.browser].value
    requires s'.reqs == w.store.reqs[m.browser := Key(Attempted(r), r.expiresAt)]
    ensures AttemptsSound(w.hist.(misses := w.hist.misses + [m], flows := Overlay(w.hist.flows, s'.reqs)))
  {
    OverlayWrite(w, s', m.browser, Key(Attempted(r), r.expiresAt));
    AttemptsPush(w.hist, m, Attempted(r));
  }

  lemma MissCounted(w: World, w': World, sender: string, m: Miss, r: Request)
    requires Tracked(w) && MissSound(w) && m.browser in w.store.reqs && r == w.store.reqs[m.browser].value
    requires w'.store.wrong == Incr(w.store.wrong, w.now, sender) && w'.store.wrong[sender].value <= SENDER_LIMIT
    requires w'.store.reqs == w.store.reqs[m.browser := Key(Attempted(r), r.expiresAt)]
    requires m == Miss(sender, WindowOf(OpenWindow(w.hist, w.store, w.now, sender), sender), m.browser)
    requires w'.hist == OpenWindow(w.hist, w.store, w.now, sender).(misses := w.hist.misses + [m],
                                                            flows := Overlay(w.hist.flows, w'.store.reqs))
    ensures MissSound(w')
  {
    hide Tracked, Overlay, Incr, Attempted;
    MissInWindow(w.hist, w.store, w.now, sender, m.browser);
    MissInRequest(w, w'.store, m, r);
  }

  /** The mismatch that does not: the sender's counter moves and nothing else. */
  lemma MissLimited(w: World, w': World, sender: string)
    requires Tracked(w) && MissSound(w)
    requires w'.store.wrong == Incr(w.store.wrong, w.now, sender) && w'.store.reqs == w.store.reqs
    requires w'.hist == OpenWindow(w.hist, w.store, w.now, sender).(flows := Overlay(w.hist.flows, w'.store.reqs))
    ensures MissSound(w')
  {
    CountedWindow(w.hist, w.store, w.now, sender);
    OverlaySame(w, w'.store);
  }

  lemma MissBump(w: World, w': World, c: ClaimInput, b: string, mismatch: ClaimStatus)
    requires Tracked(w) && MissSound(w) && b in w.store.reqs && mismatch != RateLimited
    requires w'.store == Bump(w.store, w.now, IndexKey(c.session, c.userCode), b, c.identity.lid, mismatch).0
    requires w'.hist == NoteClaim(w.hist, w.store, w'.store, w.now, c,
                          Bump(w.store, w.now, IndexKey(c.session, c.userCode), b, c.identity.lid, mismatch).1)
                        .(flows := Overlay(w.hist.flows, w'.store.reqs))
    ensures MissSound(w')
  {
    hide MissSound, Tracked, NoteClaim, Overlay, OpenWindow;
    MissNoted(w, c, b, mismatch);
    if w'.store.wrong[c.identity.lid].value > SENDER_LIMIT {
      MissLimited(w, w', c.identity.lid);
    } else {
      var counted := OpenWindow(w.hist, w.store, w.now, c.identity.lid);
      MissCounted(w, w', c.identity.lid, Miss(c.identity.lid, WindowOf(counted, c.identity.lid), b),
                  w.store.reqs[b].value);
    }
  }

  /** The request counters did not move and no sender's counter appeared or grew. */
  predicate CountsNothing(s: Store, s': Store) {
    && (forall b :: b in s'.reqs ==> b in s.reqs && s'.reqs[b].value.attempts == s.reqs[b].value.attempts)
    && (forall x :: x in s'.wrong ==> x in s.wrong && s'.wrong[x] == s.wrong[x])
  }

  lemma MissKept(w: World, w': World)
    requires Tracked(w) && MissSound(w) && CountsNothing(w.store, w'.store)
    requires w'.hist.flows == Overlay(w.hist.flows, w'.store.reqs)
    requires w'.hist.misses == w.hist.misses && w'.hist.windows == w.hist.windows
    ensures MissSound(w')
  {
    assert w'.hist.flows.Keys == w.hist.flows.Keys;
  }

  lemma AcceptCountsNothing(w: World, c: ClaimInput, b: string)
    requires b in w.store.reqs
    ensures CountsNothing(w.store, Accept(w.store, IndexKey(c.session, c.userCode), b, c).0)
  {
  }

  lemma MissClaim(w: World, w': World, c: ClaimInput)
    requires Tracked(w) && MissSound(w)
    requires w'.store == Claim(w.store, w.now, c).0
    requires w'.hist == NoteClaim(w.hist, w.store, w'.store, w.now, c, Claim(w.store, w.now, c).1)
                        .(flows := Overlay(w.hist.flows, w'.store.reqs))
    ensures MissSound(w')
  {
    var b := ClaimCases(w.store, w.now, c);
    var k, answer := IndexKey(c.session, c.userCode), Claim(w.store, w.now, c);
    if !Reaches(w.store, c, b) {
      MissKept(w, w');
    } else if answer == Bump(w.store, w.now, k, b, c.identity.lid, ModeMismatch) {
      MissBump(w, w', c, b, ModeMismatch);
    } else if answer == Bump(w.store, w.now, k, b, c.identity.lid, CommandMismatch) {
      MissBump(w, w', c, b, CommandMismatch);
    } else {
      AcceptCountsNothing(w, c, b);
      MissKept(w, w');
    }
  }

  lemma MissCreate(w: World, step: Step)
    requires Tracked(w) && MissSound(w) && Enabled(w, step) && step.DoCreate?
    ensures MissSound(Apply(w, step))
  {
    var w' := Apply(w, step);
    if Create(w.store, step.at, step.browser, step.p).1 {
      OverlayCreate(w, w', step.browser, step.p);
    } else {
      OverlaySame(w, w'.store);
    }
  }

  lemma MissWrongCode(w: World, sender: string)
    requires Tracked(w) && MissSound(w)
    ensures MissSound(Apply(w, DoWrongCode(sender)))
  {
    MissLimited(w, Apply(w, DoWrongCode(sender)), sender);
  }

  lemma StopCountsNothing(s: Store, now: int, sender: string, b: string)
    ensures CountsNothing(s, Stop(s, now, sender, b).0)
  {
  }

  lemma TransitionCountsNothing(s: Store, now: int, at: int, b: string, c: Change)
    ensures CountsNothing(s, Transition(s, now, at, b, c).0)
  {
  }

  lemma FinalizeCountsNothing(s: Store, at: int, b: string, g: Grant, a: AuthCode)
    ensures CountsNothing(s, Finalize(s, at, b, g, a).0)
  {
  }

  lemma DropCountsNothing(s: Store, l: Lapse)
    ensures CountsNothing(s, Dropped(s, l))
  {
  }

  lemma OthersCountNothing(w: World, step: Step)
    requires Enabled(w, step) && !step.DoClaim? && !step.DoCreate? && !step.DoWrongCode?
    ensures CountsNothing(w.store, StoreAfter(w, step))
  {
    hide Claim, Create, WrongCode, Stop, Transition, Finalize, Dropped;
    match step
    case DoStop(sender, b) => StopCountsNothing(w.store, w.now, sender, b);
    case DoTransition(at, b, c) => TransitionCountsNothing(w.store, w.now, at, b, c);
    case DoFinalize(at, b, g, a) => FinalizeCountsNothing(w.store, at, b, g, a);
    case Drop(l) => DropCountsNothing(w.store, l);
    case _ =>
  }

  predicate SameCounts(h: History, h': History) {
    h'.misses == h.misses && h'.windows == h.windows && h'.openings == h.openings
  }

  lemma OthersNoteNothing(w: World, step: Step)
    requires !step.DoClaim? && !step.DoCreate? && !step.DoWrongCode?
    ensures SameCounts(w.hist, Noted(w, step))
  {
    hide Redeem, Claim, Create, OpenWindow, NoteFinalize, NoteReload;
    match step
    case DoReload(at, b) => ReloadNotes(w.hist, w.store, at, b);
    case DoFinalize(at, b, g, a) => FinalizeNotes(w.hist, w.store, at, b, g, a);
    case _ =>
  }

  lemma MissStep(w: World, step: Step)
    requires Tracked(w) && MissSound(w) && Enabled(w, step)
    ensures MissSound(Apply(w, step))
  {
    match step
    case DoClaim(c) => MissClaim(w, Apply(w, step), c);
    case DoCreate(_, _, _) => MissCreate(w, step);
    case DoWrongCode(x) => MissWrongCode(w, x);
    case _ =>
      OthersCountNothing(w, step);
      OthersNoteNothing(w, step);
      MissKept(w, Apply(w, step));
  }

  lemma {:induction false} MissRun(w: World, steps: seq<Step>)
    requires Tracked(w) && Shaped(w) && MissSound(w)
    ensures MissSound(Exec(w, steps))
    decreases |steps|
  {
    if steps != [] {
      FlowStep(w, steps[0]);
      if Enabled(w, steps[0]) { MissStep(w, steps[0]); }
      MissRun(Apply(w, steps[0]), steps[1..]);
    }
  }

  /** If one window holds every miss of a flow, the flow has no more misses than the window. */
  lemma {:induction false} FlowWithinWindow(ms: seq<Miss>, browser: string, sender: string, window: nat)
    requires forall m :: m in ms && m.browser == browser ==> m.sender == sender && m.window == window
    ensures CountFlow(ms, browser) <= CountWindow(ms, sender, window)
  {
    if ms != [] {
      assert ms[|ms| - 1] in ms;
      assert forall m :: m in ms[..|ms| - 1] ==> m in ms;
      FlowWithinWindow(ms[..|ms| - 1], browser, sender, window);
    }
  }

  /**
   In every reachable world a pending request has at most nine attempts and none has
   more than ten, a request with ten is denied, its attempts are exactly the misses
   recorded against it, and no sender adds more than five in one counter window.
   */
  lemma AttemptAccounting(start: int, steps: seq<Step>)
    ensures var h := Exec(Init(start), steps).hist;
            && (forall b :: b in h.flows ==>
                  && h.flows[b].attempts == CountFlow(h.misses, b) <= ATTEMPT_LIMIT
                  && (h.flows[b].status == Pending ==> h.flows[b].attempts < ATTEMPT_LIMIT)
                  && (h.flows[b].attempts == ATTEMPT_LIMIT ==> h.flows[b].status == Denied))
            && (forall x, n: nat :: CountWindow(h.misses, x, n) <= SENDER_LIMIT)
  {
    FlowRun(Init(start), steps);
    MissRun(Init(start), steps);
  }

  /** Whichever sender's window one looks at, an exhausted request took a miss from elsewhere. */
  lemma NoWindowExhausts(start: int, steps: seq<Step>, browser: string, sender: string, window: nat)
    requires var h := Exec(Init(start), steps).hist;
             browser in h.flows && h.flows[browser].attempts == ATTEMPT_LIMIT
    ensures var h := Exec(Init(start), steps).hist;
            exists m :: m in h.misses && m.browser == browser && !(m.sender == sender && m.window == window)
  {
    var h := Exec(Init(start), steps).hist;
    AttemptAccounting(start, steps);
    if forall m :: m in h.misses && m.browser == browser ==> m.sender == sender && m.window == window {
      FlowWithinWindow(h.misses, browser, sender, window);
    }
  }
}
