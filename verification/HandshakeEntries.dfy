/** The life of a reverse user-code entry: reserved, live, used, and nothing else in between. */
module HandshakeEntries {
  import opened Wrappers
  import opened Pending
  import opened Handshake
  import opened HandshakeFlows
  import opened HandshakeCodes
  import opened HandshakePersistence
  import opened HandshakeIndex

  /** What one step may make of the entry of a key; otherwise it is kept or gone. */
  predicate EntryStep(s: Store, s': Store, step: Step, k: IndexKey) {
    k in s'.index ==>
      || (k in s.index && s'.index[k] == s.index[k])
      || (step.DoReserve? && step.k == k && k !in s.index && s'.index[k].value == Reserved)
      || (step.DoCreate? && IndexOf(step.p) == k && (k in s.index ==> s.index[k].value == Reserved)
          && s'.index[k].value == Live(step.browser))
      || (step.DoClaim? && IndexKey(step.c.session, step.c.userCode) == k && k in s.index && s.index[k].value.Live?
          && s'.index[k].value == Used(s.index[k].value.browser))
  }

  lemma BumpEntries(s: Store, now: int, k: IndexKey, browser: string, sender: string, mismatch: ClaimStatus)
    requires browser in s.reqs
    ensures var s' := Bump(s, now, k, browser, sender, mismatch).0;
            forall j :: j in s'.index ==> j in s.index && s'.index[j] == s.index[j]
  {
  }

  lemma AcceptEntries(s: Store, k: IndexKey, browser: string, c: ClaimInput)
    requires browser in s.reqs
    ensures var s' := Accept(s, k, browser, c).0;
            && s'.index[k].value == Used(browser)
            && forall j :: j in s'.index && j != k ==> j in s.index && s'.index[j] == s.index[j]
  {
  }

  lemma ClaimEntry(w: World, c: ClaimInput, k: IndexKey)
    requires Tracked(w)
    ensures EntryStep(w.store, StoreAfter(w, DoClaim(c)), DoClaim(c), k)
  {
    hide Claim, Bump, Accept;
    var b := ClaimCases(w.store, w.now, c);
    if Reaches(w.store, c, b) {
      assert b != "";
      var j := IndexKey(c.session, c.userCode);
      BumpEntries(w.store, w.now, j, b, c.identity.lid, ModeMismatch);
      BumpEntries(w.store, w.now, j, b, c.identity.lid, CommandMismatch);
      AcceptEntries(w.store, j, b, c);
    }
  }

  lemma OtherEntry(w: World, step: Step, k: IndexKey)
    requires Enabled(w, step) && !step.DoClaim?
    ensures EntryStep(w.store, StoreAfter(w, step), step, k)
  {
    hide Claim, Bound;
    match step
    case Drop(l) => DropEntries(w.store, l);
    case DoStop(sender, b) =>
    case DoTransition(at, b, c) =>
    case DoFinalize(at, b, g, a) =>
    case _ =>
  }

  lemma DropEntries(s: Store, l: Lapse)
    ensures forall j :: j in Dropped(s, l).index ==> j in s.index && Dropped(s, l).index[j] == s.index[j]
  {
  }

  /**
   In any reachable world, whatever step is taken: an entry is made by a reservation of a free key, or by the
   creation of a request with that very key, and then only out of nothing or a reservation; a live entry
   becomes used, for the same flow, by a claim of its code; nothing else ever becomes of an entry but that it
   goes. In particular no creation touches an entry that is live or used.
   */
  lemma EntryMoves(start: int, steps: seq<Step>, step: Step, k: IndexKey)
    ensures var w := Exec(Init(start), steps);
            && EntryStep(w.store, Apply(w, step).store, step, k)
            && (step.DoCreate? && k in w.store.index && w.store.index[k].value != Reserved ==>
                  k in Apply(w, step).store.index && Apply(w, step).store.index[k] == w.store.index[k])
  {
    FlowRun(Init(start), steps);
    var w := Exec(Init(start), steps);
    hide Exec, StoreAfter, Noted;
    if Enabled(w, step) {
      if step.DoClaim? { ClaimEntry(w, step.c, k); } else { OtherEntry(w, step, k); }
      if step.DoCreate? && k in w.store.index && w.store.index[k].value != Reserved { CreateSpares(w, step, k); }
    }
  }

  lemma CreateSpares(w: World, step: Step, k: IndexKey)
    requires step.DoCreate? && k in w.store.index && w.store.index[k].value != Reserved
    ensures k in StoreAfter(w, step).index && StoreAfter(w, step).index[k] == w.store.index[k]
  {
  }

  /**
   A new flow is created exactly when its deadline lies ahead and its user code is not in the hands of
   another flow, reserved or not; then both its keys are there until its deadline. Otherwise nothing changes.
   */
  lemma CreateExact(start: int, steps: seq<Step>, at: int, browser: string, p: Request)
    requires Enabled(Exec(Init(start), steps), DoCreate(at, browser, p))
    ensures var w := Exec(Init(start), steps); var w' := Apply(w, DoCreate(at, browser, p)); var k := IndexOf(p);
            && browser !in w.hist.flows
            && (browser in w'.hist.flows <==>
                  at < p.expiresAt && (k in w.store.index ==> w.store.index[k].value == Reserved))
            && (browser in w'.hist.flows ==>
                  && w'.hist.flows[browser] == p && browser in w'.store.reqs
                  && w'.store.reqs[browser] == Key(p, p.expiresAt)
                  && k in w'.store.index && w'.store.index[k] == Key(Live(browser), p.expiresAt))
            && (browser !in w'.hist.flows ==> w'.store == w.store)
  {
    hide Claim, Finalize, Stop, Transition, Redeem, WrongCode;
    FlowRun(Init(start), steps);
    var w := Exec(Init(start), steps);
    hide Exec;
    var w' := Apply(w, DoCreate(at, browser, p));
    if browser in w'.store.reqs { OverlayCreate(w, w', browser, p); } else { OverlaySame(w, w'.store); }
  }

  // ---------- from the reservation to the request ----------

  predicate Creates(step: Step, k: IndexKey) { step.DoCreate? && IndexOf(step.p) == k }

  /** Nobody else creates a request with this key. */
  predicate LeavesFree(steps: seq<Step>, k: IndexKey) { forall s | s in steps :: !Creates(s, k) }

  predicate Free(s: Store, k: IndexKey) { k in s.index ==> s.index[k].value == Reserved }

  lemma {:induction false} StaysFree(start: int, steps: seq<Step>, more: seq<Step>, k: IndexKey)
    requires Free(Exec(Init(start), steps).store, k) && LeavesFree(more, k)
    ensures Free(Exec(Exec(Init(start), steps), more).store, k)
    decreases |more|
  {
    hide Apply;
    if more != [] {
      var w, step := Exec(Init(start), steps), more[0];
      assert step in more && forall s :: s in more[1..] ==> s in more;
      EntryMoves(start, steps, step, k);
      ExecSplit(Init(start), steps, [step]);
      assert [step][1..] == [] && Exec(w, [step]) == Exec(Apply(w, step), []);
      StaysFree(start, steps + [step], more[1..], k);
    }
  }

  /**
   A login's first two steps: when a free user code is reserved and, after anything but the creation of
   another request with it, the request is created before its deadline, then the request is there and its
   user code leads to it.
   */
  lemma ReservationHolds(start: int, before: seq<Step>, at: int, until: int, between: seq<Step>, later: int,
                         browser: string, p: Request)
    requires IndexOf(p) !in Exec(Init(start), before).store.index && LeavesFree(between, IndexOf(p))
    requires var w := Exec(Init(start), before + [DoReserve(at, IndexOf(p), until)] + between);
             Enabled(w, DoCreate(later, browser, p)) && later < p.expiresAt
    ensures var w := Exec(Init(start), before + [DoReserve(at, IndexOf(p), until)] + between);
            var w' := Apply(w, DoCreate(later, browser, p));
            && browser in w'.store.reqs && w'.store.reqs[browser].value == p
            && IndexOf(p) in w'.store.index && w'.store.index[IndexOf(p)].value == Live(browser)
  {
    hide Apply;
    var k, step := IndexOf(p), DoReserve(at, IndexOf(p), until);
    assert before + [step] + between == before + ([step] + between);
    ExecSplit(Init(start), before, [step] + between);
    assert forall s | s in [step] + between :: !Creates(s, k);
    StaysFree(start, before, [step] + between, k);
    CreateExact(start, before + [step] + between, later, browser, p);
  }

  /** A reservation gets a free key, for as long as asked, and leaves any other alone. */
  lemma ReserveExact(w: World, at: int, k: IndexKey, until: int)
    requires at <= w.now
    ensures var s' := Apply(w, DoReserve(at, k, until)).store;
            && (k !in w.store.index && at < until ==>
                  s' == w.store.(index := w.store.index[k := Key(Reserved, w.now + until - at)]))
            && (k in w.store.index || at >= until ==> s' == w.store)
  {
    hide Claim, Finalize, Stop, Transition, Redeem, WrongCode, Noted;
  }

  // ---------- when a code stops working ----------

  /** Live entries last as long as their flow was given at first. */
  ghost predicate EntriesLast(w: World) {
    forall k :: k in w.store.index && w.store.index[k].value.Live? ==>
      var b := w.store.index[k].value.browser;
      b in w.hist.deadlines && w.store.index[k].expireAt == w.hist.deadlines[b]
  }

  lemma EntriesLastStep(w: World, step: Step)
    requires Tracked(w) && Shaped(w) && EntriesLast(w) && Enabled(w, step)
    ensures EntriesLast(Apply(w, step))
  {
    hide Shaped, Evolves, WellFormed, EntryStep, Tracked;
    var w' := Apply(w, step);
    FlowStep(w, step);
    forall k | k in w'.store.index && w'.store.index[k].value.Live?
      ensures var b := w'.store.index[k].value.browser;
              b in w'.hist.deadlines && w'.store.index[k].expireAt == w'.hist.deadlines[b]
    {
      if step.DoClaim? { ClaimEntry(w, step.c, k); } else { OtherEntry(w, step, k); }
      EntryLasts(w, w', step, k);
    }
  }

  lemma EntryLasts(w: World, w': World, step: Step, k: IndexKey)
    requires Tracked(w) && EntriesLast(w) && Enabled(w, step) && Extends(w, w') && w' == Apply(w, step)
    requires EntryStep(w.store, w'.store, step, k)
    requires k in w'.store.index && w'.store.index[k].value.Live?
    ensures var b := w'.store.index[k].value.browser;
            b in w'.hist.deadlines && w'.store.index[k].expireAt == w'.hist.deadlines[b]
  {
    hide Claim, Finalize, Stop, Transition, Redeem, WrongCode, Overlay, Evolves;
    if k in w.store.index && w'.store.index[k] == w.store.index[k] {
      var b := w.store.index[k].value.browser;
      assert b in w.hist.flows && b in w.hist.deadlines;
    }
  }

  /** The step closes another flow that happens to have had the same user code. */
  predicate Undermines(w: World, step: Step, browser: string, k: IndexKey) {
    (step.DoStop? || step.DoTransition?) && Rewrites(w.store, Apply(w, step).store, step.browser, browser, k)
  }

  /** The flow is there, pending, and its user code leads to it. */
  predicate Claimable(w: World, browser: string, k: IndexKey) {
    && k in w.store.index && w.store.index[k].value == Live(browser)
    && browser in w.store.reqs && w.store.reqs[browser].value.status == Pending
    && IndexOf(w.store.reqs[browser].value) == k
    && w.now < w.store.reqs[browser].value.expiresAt
  }

  lemma BumpSpares(s: Store, now: int, j: IndexKey, b: string, x: string, m: ClaimStatus, browser: string, k: IndexKey)
    requires b in s.reqs && k in s.index && (j == k ==> b == browser)
    ensures var s' := Bump(s, now, j, b, x, m).0;
            browser in s'.reqs && s'.reqs[browser].value.status == Pending ==>
              k in s'.index && s'.index[k] == s.index[k]
  {
  }

  lemma ClaimSpares(w: World, c: ClaimInput, browser: string, k: IndexKey)
    requires Claimable(w, browser, k) && c.at <= w.now
    ensures var s' := Claim(w.store, w.now, c).0;
            browser in s'.reqs && s'.reqs[browser].value.status == Pending ==>
              k in s'.index && s'.index[k] == w.store.index[k]
  {
    var j := IndexKey(c.session, c.userCode);
    var b := ClaimCases(w.store, w.now, c);
    if Reaches(w.store, c, b) {
      BumpSpares(w.store, w.now, j, b, c.identity.lid, ModeMismatch, browser, k);
      BumpSpares(w.store, w.now, j, b, c.identity.lid, CommandMismatch, browser, k);
    }
    hide Bump;
  }

  /** The record b, not the browser's own, was written, and it has the same user code. */
  predicate Rewrites(s: Store, s': Store, b: string, browser: string, k: IndexKey) {
    && b != browser && b in s.reqs && IndexOf(s.reqs[b].value) == k
    && b in s'.reqs && s'.reqs[b].value != s.reqs[b].value
  }

  predicate SameEntry(s: Store, s': Store, k: IndexKey) { k in s.index && k in s'.index && s'.index[k] == s.index[k] }

  /** A step that is no claim: the entry goes when another flow with the code is closed, or with time. */
  lemma OtherSpares(w: World, step: Step, browser: string, k: IndexKey)
    requires Tracked(w) && EntriesLast(w) && Claimable(w, browser, k) && Enabled(w, step) && !step.DoClaim?
    requires browser in w.hist.deadlines && w.hist.deadlines[browser] > w.now
    ensures var s' := StoreAfter(w, step);
            browser in s'.reqs && s'.reqs[browser].value.status == Pending ==>
              if (step.DoStop? || step.DoTransition?) && Rewrites(w.store, s', step.browser, browser, k)
              then k !in s'.index else SameEntry(w.store, s', k)
  {
    hide Claim, Stop, Transition, Finalize, Create, Dropped, Tracked, Bound, IndexOf, Incr;
    match step
    case DoStop(x, b) => StopSpares(w, x, b, browser, k);
    case DoTransition(at, b, c) => TransitionSpares(w, at, b, c, browser, k);
    case Drop(l) => DropSpares(w, l, browser, k);
    case DoCreate(at, b, p) => CreateSpares(w, step, k);
    case DoFinalize(at, b, g, a) => FinalizeSpares(w.store, at, b, g, a);
    case _ =>
  }

  lemma FinalizeSpares(s: Store, at: int, b: string, g: Grant, a: AuthCode)
    ensures Finalize(s, at, b, g, a).0.index == s.index
  {
  }

  lemma DropSpares(w: World, l: Lapse, browser: string, k: IndexKey)
    requires EntriesLast(w) && Claimable(w, browser, k) && Lapsed(w.store, w.now, l)
    requires browser in w.hist.deadlines && w.hist.deadlines[browser] > w.now
    ensures k in Dropped(w.store, l).index && Dropped(w.store, l).index[k] == w.store.index[k]
  {
  }

  lemma StopSpares(w: World, x: string, b: string, browser: string, k: IndexKey)
    requires Claimable(w, browser, k)
    ensures var s' := Stop(w.store, w.now, x, b).0;
            if Rewrites(w.store, s', b, browser, k) then k !in s'.index else SameEntry(w.store, s', k)
  {
  }

  lemma TransitionSpares(w: World, at: int, b: string, c: Change, browser: string, k: IndexKey)
    requires Claimable(w, browser, k) && (c.target == Denied || c.target == Expired)
    ensures var s' := Transition(w.store, w.now, at, b, c).0;
            browser in s'.reqs && s'.reqs[browser].value.status == Pending ==>
              if Rewrites(w.store, s', b, browser, k) then k !in s'.index else SameEntry(w.store, s', k)
  {
  }

  ghost predicate Timely(w: World) { Tracked(w) && Shaped(w) && FlowsLast(w) && EntriesLast(w) }

  lemma AllSpare(w: World, step: Step, browser: string, k: IndexKey)
    requires Timely(w) && Claimable(w, browser, k) && Enabled(w, step)
    ensures var s' := StoreAfter(w, step);
            browser in s'.reqs && s'.reqs[browser].value.status == Pending ==>
              if (step.DoStop? || step.DoTransition?) && Rewrites(w.store, s', step.browser, browser, k)
              then k !in s'.index else SameEntry(w.store, s', k)
  {
    hide Shaped, Tracked, FlowsLast, EntriesLast, Enabled, Rewrites, IndexOf, Claim;
    KnownPending(w, browser, k);
    if step.DoClaim? {
      CurrentClaim(w, step.c);
      ClaimSpares(w, step.c, browser, k);
    } else {
      OtherSpares(w, step, browser, k);
    }
  }

  /**
   A flow that can be claimed can be claimed after any step that leaves it pending and in time,
   unless it is undermined.
   */
  lemma StaysClaimable(w: World, step: Step, browser: string, k: IndexKey)
    requires Timely(w) && Claimable(w, browser, k) && Enabled(w, step)
    ensures var w' := Apply(w, step);
            && browser in w'.hist.flows
            && (w'.hist.flows[browser].status == Pending && w'.now < w'.hist.flows[browser].expiresAt ==>
                  (Claimable(w', browser, k) <==> !Undermines(w, step, browser, k)))
  {
    hide Evolves, StoreAfter, Noted, EntriesLast, Tracked, Shaped, FlowsLast, Extends, Overlay, Enabled, Rewrites,
         IndexOf;
    var w' := Apply(w, step);
    FlowStep(w, step);
    FlowsLastStep(w, step);
    KnownPending(w, browser, k);
    StillThere(w, w', browser);
    AllSpare(w, step, browser, k);
  }

  lemma CurrentClaim(w: World, c: ClaimInput)
    requires Enabled(w, DoClaim(c))
    ensures c.at <= w.now
  {
  }

  lemma KnownPending(w: World, browser: string, k: IndexKey)
    requires Tracked(w) && Shaped(w) && Claimable(w, browser, k)
    ensures browser in w.hist.flows && w.hist.flows[browser] == w.store.reqs[browser].value
    ensures browser in w.hist.deadlines && w.hist.deadlines[browser] > w.now
  {
    hide WellFormed;
    assert WellFormed(w.hist.flows[browser], w.hist.deadlines[browser]);
    PendingDeadline(w.hist.flows[browser], w.hist.deadlines[browser]);
  }

  lemma PendingDeadline(r: Request, deadline: int)
    requires WellFormed(r, deadline) && r.status == Pending
    ensures r.expiresAt == deadline
  {
  }

  /** What the flow's record is after the step, if it is still open. */
  lemma StillThere(w: World, w': World, browser: string)
    requires Tracked(w) && Tracked(w') && Extends(w, w') && FlowsLast(w') && browser in w.hist.flows
    ensures browser in w'.hist.flows && IndexOf(w'.hist.flows[browser]) == IndexOf(w.hist.flows[browser])
    ensures w'.hist.flows[browser].status == Pending && w'.now < w'.hist.flows[browser].expiresAt ==>
              browser in w'.store.reqs && w'.store.reqs[browser].value == w'.hist.flows[browser]
  {
    assert Evolves(w.hist.flows[browser], w'.hist.flows[browser]);
  }

  ghost predicate UnderminedIn(w: World, steps: seq<Step>, browser: string, k: IndexKey)
    decreases |steps|
  {
    steps != [] && (Undermines(w, steps[0], browser, k) || UnderminedIn(Apply(w, steps[0]), steps[1..], browser, k))
  }

  lemma TimelyStep(w: World, step: Step)
    requires Timely(w)
    ensures Timely(Apply(w, step)) && Extends(w, Apply(w, step))
  {
    hide Tracked, Shaped, FlowsLast, EntriesLast, Apply, Extends;
    FlowStep(w, step);
    FlowsLastStep(w, step);
    if Enabled(w, step) { EntriesLastStep(w, step); } else { Idle(w, step); }
  }

  lemma Idle(w: World, step: Step)
    requires !Enabled(w, step)
    ensures Apply(w, step) == w
  {
  }

  /** No entry leads to the flow any more, and none ever will again. */
  predicate Unreachable(w: World, browser: string, k: IndexKey) {
    browser in w.hist.flows && !(k in w.store.index && w.store.index[k].value == Live(browser))
  }

  lemma StaysUnreachable(w: World, step: Step, browser: string, k: IndexKey)
    requires Timely(w) && Unreachable(w, browser, k)
    ensures Unreachable(Apply(w, step), browser, k)
  {
    hide Shaped, FlowsLast, EntriesLast, StoreAfter, Noted, Overlay, Evolves;
    FlowStep(w, step);
    if Enabled(w, step) {
      if step.DoClaim? { ClaimEntry(w, step.c, k); } else { OtherEntry(w, step, k); }
    }
  }

  lemma {:induction false} UnreachableRun(w: World, steps: seq<Step>, browser: string, k: IndexKey)
    requires Timely(w) && Unreachable(w, browser, k)
    ensures Unreachable(Exec(w, steps), browser, k)
    decreases |steps|
  {
    hide Timely, Unreachable, Apply, Extends;
    if steps != [] {
      StaysUnreachable(w, steps[0], browser, k);
      TimelyStep(w, steps[0]);
      UnreachableRun(Apply(w, steps[0]), steps[1..], browser, k);
    }
  }

  predicate InTime(w: World, browser: string) {
    browser in w.hist.flows && w.hist.flows[browser].status == Pending && w.now < w.hist.flows[browser].expiresAt
  }

  /** A flow that ends pending and in time was so all along. */
  lemma {:induction false} InTimeBefore(w: World, steps: seq<Step>, browser: string)
    requires Timely(w) && browser in w.hist.flows && InTime(Exec(w, steps), browser)
    ensures InTime(w, browser)
  {
    hide FlowsLast, EntriesLast, Exec;
    FlowRun(w, steps);
    assert Evolves(w.hist.flows[browser], Exec(w, steps).hist.flows[browser]);
  }

  lemma {:induction false} ClaimableRun(w: World, steps: seq<Step>, browser: string, k: IndexKey)
    requires Timely(w) && Claimable(w, browser, k) && InTime(Exec(w, steps), browser)
    ensures Claimable(Exec(w, steps), browser, k) <==> !UnderminedIn(w, steps, browser, k)
    decreases |steps|
  {
    hide Timely, Apply, Extends, Undermines, InTime, Claimable;
    if steps != [] {
      var step, w' := steps[0], Apply(w, steps[0]);
      TimelyStep(w, step);
      Known(w, browser, k);
      KnownLater(w, w', browser);
      InTimeBefore(w', steps[1..], browser);
      if Enabled(w, step) { NextClaimable(w, step, browser, k); } else { IdleUnharmed(w, step, browser, k); }
      if Undermines(w, step, browser, k) {
        NotClaimable(w', browser, k);
        UnreachableRun(w', steps[1..], browser, k);
        NeverClaimable(Exec(w, steps), browser, k);
      } else {
        ClaimableRun(w', steps[1..], browser, k);
      }
    }
  }

  lemma Known(w: World, browser: string, k: IndexKey)
    requires Timely(w) && Claimable(w, browser, k)
    ensures browser in w.hist.flows && IndexOf(w.hist.flows[browser]) == k
  {
  }

  lemma KnownLater(w: World, w': World, browser: string)
    requires Extends(w, w') && browser in w.hist.flows
    ensures browser in w'.hist.flows && IndexOf(w'.hist.flows[browser]) == IndexOf(w.hist.flows[browser])
  {
    assert Evolves(w.hist.flows[browser], w'.hist.flows[browser]);
  }

  lemma NextClaimable(w: World, step: Step, browser: string, k: IndexKey)
    requires Timely(w) && Claimable(w, browser, k) && Enabled(w, step) && InTime(Apply(w, step), browser)
    ensures Claimable(Apply(w, step), browser, k) <==> !Undermines(w, step, browser, k)
  {
    hide Timely, Apply, Undermines, Claimable;
    StaysClaimable(w, step, browser, k);
  }

  lemma IdleUnharmed(w: World, step: Step, browser: string, k: IndexKey)
    requires !Enabled(w, step)
    ensures Apply(w, step) == w && !Undermines(w, step, browser, k)
  {
  }

  lemma NotClaimable(w: World, browser: string, k: IndexKey)
    requires Timely(w) && InTime(w, browser) && !Claimable(w, browser, k) && IndexOf(w.hist.flows[browser]) == k
    ensures Unreachable(w, browser, k)
  {
  }

  lemma NeverClaimable(w: World, browser: string, k: IndexKey)
    requires Unreachable(w, browser, k)
    ensures !Claimable(w, browser, k)
  {
  }

  lemma {:induction false} TimelyRun(w: World, steps: seq<Step>)
    requires Timely(w)
    ensures Timely(Exec(w, steps))
    decreases |steps|
  {
    hide Timely, Apply, Extends;
    if steps != [] {
      TimelyStep(w, steps[0]);
      TimelyRun(Apply(w, steps[0]), steps[1..]);
    }
  }

  lemma InitTimely(start: int)
    ensures Timely(Init(start))
  {
  }

  /** A claim of the code with the right mode and command wins, whoever sends it and whatever they tried before. */
  lemma ClaimableWins(w: World, c: ClaimInput, browser: string)
    requires Claimable(w, browser, IndexKey(c.session, c.userCode)) && c.at <= w.now
    ensures var r := w.store.reqs[browser].value; var answer := Claim(w.store, w.now, c).1;
            answer.status == Is(Verified) && answer.browser == browser <==>
              r.mode == c.mode && Lower(r.command) == c.command
  {
  }

  /**
   A login's user code works for as long as its request is pending and in time, exactly unless another flow
   with the same session and code was closed meanwhile: closing a flow deletes the code it had, even if it
   has long been given to this one.
   */
  lemma CodeWorks(start: int, before: seq<Step>, at: int, browser: string, p: Request, after: seq<Step>, c: ClaimInput)
    requires Enabled(Exec(Init(start), before), DoCreate(at, browser, p))
    requires var w := Apply(Exec(Init(start), before), DoCreate(at, browser, p));
             browser in w.hist.flows && InTime(Exec(w, after), browser) && c.at <= Exec(w, after).now
    requires IndexKey(c.session, c.userCode) == IndexOf(p) && c.mode == p.mode && c.command == Lower(p.command)
    ensures var w := Apply(Exec(Init(start), before), DoCreate(at, browser, p)); var e := Exec(w, after);
            Claim(e.store, e.now, c).1 == ClaimResult(Is(Verified), browser, p.client, e.hist.flows[browser].attempts)
            <==> !UnderminedIn(w, after, browser, IndexOf(p))
  {
    hide Timely, InTime, Claimable, Apply, Exec, Claim, UnderminedIn, Enabled, Lower, IndexOf, Load;
    var v := Exec(Init(start), before);
    var w := Apply(v, DoCreate(at, browser, p));
    InitTimely(start);
    TimelyRun(Init(start), before);
    TimelyStep(v, DoCreate(at, browser, p));
    CreateExact(start, before, at, browser, p);
    InTimeBefore(w, after, browser);
    FreshClaimable(v, w, at, browser, p);
    ClaimableRun(w, after, browser, IndexOf(p));
    TimelyRun(w, after);
    Winning(w, Exec(w, after), browser, p, after, c);
  }

  lemma FreshClaimable(v: World, w: World, at: int, browser: string, p: Request)
    requires InTime(w, browser) && w.hist.flows[browser] == p
    requires browser in w.store.reqs && w.store.reqs[browser] == Key(p, p.expiresAt)
    requires IndexOf(p) in w.store.index && w.store.index[IndexOf(p)] == Key(Live(browser), p.expiresAt)
    ensures Claimable(w, browser, IndexOf(p))
  {
  }

  lemma MatchingClaim(s: Store, now: int, c: ClaimInput, browser: string)
    requires browser != "" && browser in s.reqs
    requires var r := s.reqs[browser].value;
             r.status == Pending && c.at < r.expiresAt && r.session == c.session && r.mode == c.mode
             && Lower(r.command) == c.command
    ensures var k, r := IndexKey(c.session, c.userCode), s.reqs[browser].value;
            Claim(s, now, c).1 == ClaimResult(Is(Verified), browser, r.client, r.attempts)
            <==> k in s.index && s.index[k].value == Live(browser)
  {
    var k := IndexKey(c.session, c.userCode);
    hide Lower;
    if k in s.index && s.index[k].value != Live(browser) { OtherAnswer(s, now, c, browser); }
  }

  lemma OtherAnswer(s: Store, now: int, c: ClaimInput, browser: string)
    requires browser != "" && IndexKey(c.session, c.userCode) in s.index
    requires s.index[IndexKey(c.session, c.userCode)].value != Live(browser)
    ensures Claim(s, now, c).1.status == Is(Verified) ==> Claim(s, now, c).1.browser != browser
  {
  }

  lemma StillSame(w: World, e: World, after: seq<Step>, browser: string, p: Request)
    requires Timely(w) && Timely(e) && e == Exec(w, after) && browser in w.hist.flows && w.hist.flows[browser] == p
    requires InTime(e, browser)
    ensures browser != "" && browser in e.store.reqs && e.store.reqs[browser].value == e.hist.flows[browser]
    ensures var r := e.hist.flows[browser];
            r == p.(status := r.status, attempts := r.attempts, verified := r.verified, finalized := r.finalized,
                    expiresAt := r.expiresAt)
  {
    hide Exec, EntriesLast;
    FlowRun(w, after);
    assert Evolves(p, e.hist.flows[browser]);
  }

  lemma Winning(w: World, e: World, browser: string, p: Request, after: seq<Step>, c: ClaimInput)
    requires Timely(w) && Timely(e) && e == Exec(w, after) && browser in w.hist.flows && w.hist.flows[browser] == p
    requires InTime(e, browser) && c.at <= e.now
    requires IndexKey(c.session, c.userCode) == IndexOf(p) && c.mode == p.mode && c.command == Lower(p.command)
    ensures Claim(e.store, e.now, c).1 == ClaimResult(Is(Verified), browser, p.client, e.hist.flows[browser].attempts)
            <==> Claimable(e, browser, IndexOf(p))
  {
    hide Exec, Lower, Timely, Claim;
    StillSame(w, e, after, browser, p);
    MatchingClaim(e.store, e.now, c, browser);
  }

  // ---------- an instance ----------

  function Login(client: string, until: int): Request {
    Request(client, "s", "https://" + client, "pkce", "dm", "482913", "login", Pending, 0, None, None, until)
  }

  const CODE := IndexKey("s", "482913")
  const FIRST_CLAIM := ClaimInput("s", "482913", "dm", "login", Identity("lid", "", "", "", None, 0), 0)

  /** The first flow is verified, and its used marker has lapsed a minute later. */
  lemma FirstVerified() returns (w: World)
    ensures w == Exec(Init(0), [DoCreate(0, "a", Login("one", 600_000)), DoClaim(FIRST_CLAIM), Tick(60_000),
                                Drop(LapseIndex(CODE))])
    ensures w.now == 60_000 && CODE !in w.store.index && w.hist.flows.Keys == {"a"} == w.store.reqs.Keys
    ensures var r := w.store.reqs["a"].value; r.status == Verified && r.client == "one" && IndexOf(r) == CODE
  {
    var p := Login("one", 600_000);
    var w1 := Apply(Init(0), DoCreate(0, "a", p));
    assert w1.store.reqs == map["a" := Key(p, 600_000)] && w1.store.index == map[CODE := Key(Live("a"), 600_000)];
    assert w1.hist.flows == map["a" := p];
    var w2 := Apply(w1, DoClaim(FIRST_CLAIM));
    FirstClaim(w1, p);
    var w3 := Apply(w2, Tick(60_000));
    w := Apply(w3, Drop(LapseIndex(CODE)));
    hide Apply;
    FourSteps(Init(0), DoCreate(0, "a", p), DoClaim(FIRST_CLAIM), Tick(60_000), Drop(LapseIndex(CODE)));
  }

  lemma FirstClaim(w: World, p: Request)
    requires w.now == 0 && p == Login("one", 600_000)
    requires w.store.reqs == map["a" := Key(p, 600_000)] && w.store.index == map[CODE := Key(Live("a"), 600_000)]
    requires w.hist.flows == map["a" := p]
    ensures var w' := Apply(w, DoClaim(FIRST_CLAIM));
            && w'.now == 0 && w'.hist.flows.Keys == {"a"} == w'.store.reqs.Keys
            && w'.store.reqs["a"].value.status == Verified && w'.store.reqs["a"].value.client == "one"
            && IndexOf(w'.store.reqs["a"].value) == CODE
            && w'.store.index == map[CODE := Key(Used("a"), 60_000)]
  {
    FirstWin(w.store, p);
    hide Claim, NoteClaim;
    assert StoreAfter(w, DoClaim(FIRST_CLAIM)) == Claim(w.store, 0, FIRST_CLAIM).0;
  }

  lemma FirstWin(s: Store, p: Request)
    requires p == Login("one", 600_000)
    requires s.reqs == map["a" := Key(p, 600_000)] && s.index == map[CODE := Key(Live("a"), 600_000)]
    ensures var s' := Claim(s, 0, FIRST_CLAIM).0;
            && s'.reqs == map["a" := Key(Won(p, FIRST_CLAIM.identity, 0), 180_000)]
            && s'.index == map[CODE := Key(Used("a"), 60_000)]
  {
    assert Lower("login") == "login";
  }

  lemma FirstStep(w: World, steps: seq<Step>)
    requires steps != []
    ensures Exec(w, steps) == Exec(Apply(w, steps[0]), steps[1..])
  {
  }

  lemma NoStep(w: World)
    ensures Exec(w, []) == w
  {
  }

  lemma FourSteps(w: World, a: Step, b: Step, c: Step, d: Step)
    ensures Exec(w, [a, b, c, d]) == Apply(Apply(Apply(Apply(w, a), b), c), d)
  {
    hide Apply, Exec;
    FirstStep(w, [a, b, c, d]);
    assert [a, b, c, d][1..] == [b, c, d];
    FirstStep(Apply(w, a), [b, c, d]);
    assert [b, c, d][1..] == [c, d];
    FirstStep(Apply(Apply(w, a), b), [c, d]);
    assert [c, d][1..] == [d];
    FirstStep(Apply(Apply(Apply(w, a), b), c), [d]);
    assert [d][1..] == [];
    NoStep(Apply(Apply(Apply(Apply(w, a), b), c), d));
  }

  /** A second flow gets the code; then the first one is denied, and the second one's code is gone. */
  lemma LostCodeExample() returns (before: seq<Step>, after: seq<Step>)
    ensures var w := Apply(Exec(Init(0), before), DoCreate(60_000, "b", Login("two", 700_000)));
            && InTime(Exec(w, after), "b") && CODE !in Exec(w, after).store.index
            && UnderminedIn(w, after, "b", CODE)
  {
    var v := FirstVerified();
    before := [DoCreate(0, "a", Login("one", 600_000)), DoClaim(FIRST_CLAIM), Tick(60_000), Drop(LapseIndex(CODE))];
    var deny := DoTransition(60_000, "a", Change(Denied, "", "one", true, 0));
    after := [deny];
    var w := Apply(v, DoCreate(60_000, "b", Login("two", 700_000)));
    SecondCreated(v);
    SecondLost(w);
    hide Apply;
    assert after[1..] == [] && Exec(w, after) == Exec(Apply(w, deny), []);
  }

  lemma SecondCreated(v: World)
    requires v.now == 60_000 && CODE !in v.store.index && v.hist.flows.Keys == {"a"} == v.store.reqs.Keys
    requires v.store.reqs["a"].value.status == Verified && v.store.reqs["a"].value.client == "one"
    requires IndexOf(v.store.reqs["a"].value) == CODE
    ensures var w := Apply(v, DoCreate(60_000, "b", Login("two", 700_000)));
            && w.now == 60_000 && w.store.reqs.Keys == {"a", "b"} && w.store.reqs["a"] == v.store.reqs["a"]
            && w.store.reqs["b"].value == Login("two", 700_000)
  {
  }

  lemma SecondLost(w: World)
    requires w.now == 60_000 && w.store.reqs.Keys == {"a", "b"}
    requires w.store.reqs["a"].value.status == Verified && w.store.reqs["a"].value.client == "one"
    requires IndexOf(w.store.reqs["a"].value) == CODE && w.store.reqs["b"].value == Login("two", 700_000)
    ensures var deny := DoTransition(60_000, "a", Change(Denied, "", "one", true, 0));
            InTime(Apply(w, deny), "b") && CODE !in Apply(w, deny).store.index && Undermines(w, deny, "b", CODE)
  {
  }
}
