/** Who verified a flow, and whom a STOP can stop. */
module HandshakeStops {
  import opened Wrappers
  import opened Pending
  import opened Handshake
  import opened HandshakeFlows
  import opened HandshakeCodes

  /** Wins and verified identities are the same thing, one per flow; STOP pointers only ever name a sender's own win. */
  ghost predicate WinSound(w: World) {
    && (forall i :: 0 <= i < |w.hist.wins| ==>
          var b := w.hist.wins[i].browser;
          b in w.hist.flows && w.hist.flows[b].verified.Some?
          && w.hist.flows[b].verified.value.lid == w.hist.wins[i].sender)
    && (forall i, j :: 0 <= i < j < |w.hist.wins| ==> w.hist.wins[i].browser != w.hist.wins[j].browser)
    && (forall b :: b in w.hist.flows && w.hist.flows[b].verified.Some? ==>
          Win(w.hist.flows[b].verified.value.lid, b) in w.hist.wins)
    && (forall x :: x in w.store.stops ==> Win(x, w.store.stops[x].value) in w.hist.wins)
    && (forall x :: x in w.hist.seen ==> Win(x.0, x.1) in w.hist.wins)
  }

  /** No request was verified, and pointers only went away. */
  predicate VerifiesNothing(s: Store, s': Store) {
    && (forall b :: b in s'.reqs ==> b in s.reqs && s'.reqs[b].value.verified == s.reqs[b].value.verified)
    && (forall x :: x in s'.stops ==> x in s.stops && s'.stops[x] == s.stops[x])
  }

  lemma BumpVerifiesNothing(s: Store, now: int, k: IndexKey, browser: string, sender: string, mismatch: ClaimStatus)
    requires browser in s.reqs
    ensures VerifiesNothing(s, Bump(s, now, k, browser, sender, mismatch).0)
    ensures Bump(s, now, k, browser, sender, mismatch).0.wrong != s.wrong
  {
    assert sender in s.wrong ==> Incr(s.wrong, now, sender)[sender].value != s.wrong[sender].value;
  }

  lemma StopVerifiesNothing(s: Store, now: int, sender: string, b: string)
    ensures VerifiesNothing(s, Stop(s, now, sender, b).0)
  {
  }

  lemma TransitionVerifiesNothing(s: Store, now: int, at: int, b: string, c: Change)
    ensures VerifiesNothing(s, Transition(s, now, at, b, c).0)
  {
  }

  lemma FinalizeVerifiesNothing(s: Store, at: int, b: string, g: Grant, a: AuthCode)
    ensures VerifiesNothing(s, Finalize(s, at, b, g, a).0)
  {
  }

  lemma DropVerifiesNothing(s: Store, l: Lapse)
    ensures VerifiesNothing(s, Dropped(s, l))
  {
  }

  lemma OthersVerifyNothing(w: World, step: Step)
    requires Enabled(w, step) && !step.DoClaim? && !step.DoCreate? && !step.DoRemember?
    ensures VerifiesNothing(w.store, StoreAfter(w, step))
  {
    hide Claim, Create, Remember, Stop, Transition, Finalize, Dropped;
    match step
    case DoStop(sender, b) => StopVerifiesNothing(w.store, w.now, sender, b);
    case DoTransition(at, b, c) => TransitionVerifiesNothing(w.store, w.now, at, b, c);
    case DoFinalize(at, b, g, a) => FinalizeVerifiesNothing(w.store, at, b, g, a);
    case Drop(l) => DropVerifiesNothing(w.store, l);
    case _ =>
  }

  lemma NotedWins(w: World, step: Step)
    requires !step.DoClaim?
    ensures Noted(w, step).wins == w.hist.wins
    ensures !step.DoReadStop? ==> Noted(w, step).seen == w.hist.seen
  {
    hide Create, Redeem, OpenWindow, NoteClaim, NoteReload, NoteFinalize;
    match step
    case DoWrongCode(sender) => WindowNotes(w.hist, w.store, w.now, sender);
    case DoReload(at, b) => ReloadNotes(w.hist, w.store, at, b);
    case DoFinalize(at, b, g, a) => FinalizeNotes(w.hist, w.store, at, b, g, a);
    case _ =>
  }

  /** Without a new win, WinSound survives any forward motion whose pointers are covered. */
  lemma WinKept(w: World, w': World)
    requires Tracked(w) && WinSound(w) && Extends(w, w') && w'.hist.wins == w.hist.wins
    requires forall b :: b in w'.hist.flows ==>
      w'.hist.flows[b].verified == if b in w.hist.flows then w.hist.flows[b].verified else None
    requires forall x :: x in w'.store.stops ==> Win(x, w'.store.stops[x].value) in w.hist.wins
    requires forall x :: x in w'.hist.seen ==> Win(x.0, x.1) in w.hist.wins
    ensures WinSound(w')
  {
  }

  /** A win adds its flow's identity once. */
  lemma WinNew(w: World, w': World, b: string, id: Identity, r: Request)
    requires WinSound(w) && b in w.hist.flows && w.hist.flows[b].verified.None? && r.verified == Some(id)
    requires w'.hist.flows == w.hist.flows[b := r] && w'.hist.wins == w.hist.wins + [Win(id.lid, b)]
    requires w'.store.stops == w.store.stops && w'.hist.seen == w.hist.seen
    ensures WinSound(w')
  {
    assert w'.hist.wins[|w.hist.wins|] == Win(id.lid, b);
    assert forall x :: x in w.hist.wins ==> x in w'.hist.wins;
  }

  lemma WinAccept(w: World, c: ClaimInput, b: string)
    requires Tracked(w) && Shaped(w) && WinSound(w) && Enabled(w, DoClaim(c))
    requires Reaches(w.store, c, b)
             && Claim(w.store, w.now, c) == Accept(w.store, IndexKey(c.session, c.userCode), b, c)
    ensures WinSound(Apply(w, DoClaim(c)))
  {
    var answer := Accept(w.store, IndexKey(c.session, c.userCode), b, c);
    OverlayWrite(w, answer.0, b, answer.0.reqs[b]);
    WinNew(w, Apply(w, DoClaim(c)), b, c.identity, answer.0.reqs[b].value);
  }

  lemma WinQuiet(w: World, w': World)
    requires Tracked(w) && WinSound(w) && Extends(w, w') && VerifiesNothing(w.store, w'.store)
    requires w'.hist.flows == Overlay(w.hist.flows, w'.store.reqs)
    requires w'.hist.wins == w.hist.wins && w'.hist.seen == w.hist.seen
    ensures WinSound(w')
  {
    WinKept(w, w');
  }

  lemma WinMiss(w: World, c: ClaimInput)
    requires Tracked(w) && Shaped(w) && WinSound(w) && Enabled(w, DoClaim(c))
    requires VerifiesNothing(w.store, Claim(w.store, w.now, c).0)
    requires var answer := Claim(w.store, w.now, c);
             NoteClaim(w.hist, w.store, answer.0, w.now, c, answer.1).wins == w.hist.wins
    ensures WinSound(Apply(w, DoClaim(c)))
  {
    hide Claim, NoteClaim, WinSound, Shaped, Tracked, Extends, VerifiesNothing, Overlay;
    var answer := Claim(w.store, w.now, c);
    FlowStep(w, DoClaim(c));
    ClaimNotes(w.hist, w.store, answer.0, w.now, c, answer.1);
    WinQuiet(w, Apply(w, DoClaim(c)));
  }

  /** A claim that is not the winning one adds no win. */
  lemma LosesQuietly(h: History, s: Store, now: int, c: ClaimInput, b: string)
    requires var k, answer := IndexKey(c.session, c.userCode), Claim(s, now, c);
             || (answer.0.wrong == s.wrong && answer.1.status != Is(Verified))
             || (b in s.reqs && answer == Bump(s, now, k, b, c.identity.lid, ModeMismatch))
             || (b in s.reqs && answer == Bump(s, now, k, b, c.identity.lid, CommandMismatch))
    ensures var answer := Claim(s, now, c); NoteClaim(h, s, answer.0, now, c, answer.1).wins == h.wins
  {
    hide Claim, Bump;
    if b in s.reqs {
      BumpVerifiesNothing(s, now, IndexKey(c.session, c.userCode), b, c.identity.lid, ModeMismatch);
      BumpVerifiesNothing(s, now, IndexKey(c.session, c.userCode), b, c.identity.lid, CommandMismatch);
    }
  }

  lemma WinClaim(w: World, c: ClaimInput)
    requires Tracked(w) && Shaped(w) && WinSound(w) && Enabled(w, DoClaim(c))
    ensures WinSound(Apply(w, DoClaim(c)))
  {
    hide Claim, Bump, Accept, NoteClaim, Apply, WinSound, Shaped, Tracked, Enabled;
    var k := IndexKey(c.session, c.userCode);
    var b := ClaimCases(w.store, w.now, c);
    if Reaches(w.store, c, b) {
      if Claim(w.store, w.now, c) == Accept(w.store, k, b, c) {
        WinAccept(w, c, b);
        return;
      }
      BumpVerifiesNothing(w.store, w.now, k, b, c.identity.lid, ModeMismatch);
      BumpVerifiesNothing(w.store, w.now, k, b, c.identity.lid, CommandMismatch);
    }
    LosesQuietly(w.hist, w.store, w.now, c, b);
    WinMiss(w, c);
  }

  lemma CreateVerifiesNothing(w: World, step: Step)
    requires Enabled(w, step) && step.DoCreate?
    ensures var w' := Apply(w, step);
            && w'.hist.wins == w.hist.wins && w'.hist.seen == w.hist.seen && w'.store.stops == w.store.stops
            && (forall b :: b in w'.hist.flows ==>
                  if b in w.hist.flows && b !in w'.store.reqs then w'.hist.flows[b] == w.hist.flows[b]
                  else b in w'.store.reqs && w'.hist.flows[b] == w'.store.reqs[b].value)
            && (forall b :: b in w'.store.reqs ==> (b in w.store.reqs && w'.store.reqs[b] == w.store.reqs[b])
                                                   || (b !in w.hist.flows && w'.store.reqs[b].value.verified.None?))
  {
    hide Claim, Finalize, Stop, Transition, Redeem, WrongCode;
  }

  lemma WinCreate(w: World, step: Step)
    requires Tracked(w) && Shaped(w) && WinSound(w) && Enabled(w, step) && step.DoCreate?
    ensures WinSound(Apply(w, step))
  {
    FlowStep(w, step);
    CreateVerifiesNothing(w, step);
    hide Apply, Shaped;
    WinKept(w, Apply(w, step));
  }

  /** A pointer is written only for a win of that sender, and read only as written. */
  lemma WinPointers(w: World, step: Step)
    requires Tracked(w) && Shaped(w) && WinSound(w) && Enabled(w, step) && (step.DoRemember? || step.DoReadStop?)
    ensures WinSound(Apply(w, step))
  {
    hide Shaped, Extends, Claim, Create;
    FlowStep(w, step);
    WinKept(w, Apply(w, step));
  }

  lemma WinStep(w: World, step: Step)
    requires Tracked(w) && Shaped(w) && WinSound(w) && Enabled(w, step)
    ensures WinSound(Apply(w, step))
  {
    match step
    case DoClaim(c) => WinClaim(w, c);
    case DoCreate(_, _, _) => WinCreate(w, step);
    case DoRemember(_, _) => WinPointers(w, step);
    case DoReadStop(_) => WinPointers(w, step);
    case _ =>
      FlowStep(w, step);
      NotedWins(w, step);
      OthersVerifyNothing(w, step);
      WinQuiet(w, Apply(w, step));
  }

  lemma {:induction false} WinRun(w: World, steps: seq<Step>)
    requires Tracked(w) && Shaped(w) && WinSound(w)
    ensures WinSound(Exec(w, steps))
    decreases |steps|
  {
    if steps != [] {
      FlowStep(w, steps[0]);
      if Enabled(w, steps[0]) { WinStep(w, steps[0]); }
      WinRun(Apply(w, steps[0]), steps[1..]);
    }
  }

  /** At most one claim ever wins a flow, and the winner's identity is the flow's identity for good. */
  lemma OneWinner(start: int, steps: seq<Step>, i: nat, j: nat)
    requires var h := Exec(Init(start), steps).hist;
             i < |h.wins| && j < |h.wins| && h.wins[i].browser == h.wins[j].browser
    ensures i == j
    ensures var h := Exec(Init(start), steps).hist;
            h.wins[i].browser in h.flows && h.flows[h.wins[i].browser].verified.Some?
            && h.flows[h.wins[i].browser].verified.value.lid == h.wins[i].sender
  {
    WinRun(Init(start), steps);
  }

  /** A denied flow that minted nothing stays as it is and never mints. */
  lemma DeniedForGood(w: World, browser: string, steps: seq<Step>)
    requires Tracked(w) && Shaped(w) && CodesSound(w) && browser in w.hist.flows
             && w.hist.flows[browser].status == Denied
    ensures var e := Exec(w, steps);
            && browser in e.hist.flows && e.hist.flows[browser] == w.hist.flows[browser]
            && (forall m :: m in e.hist.minted ==> m.browser != browser)
  {
    FlowRun(w, steps);
    CodesRun(w, steps);
  }

  lemma StopEffect(w: World, sender: string, browser: string)
    requires Tracked(w) && Shaped(w) && WinSound(w) && Enabled(w, DoStop(sender, browser))
    requires browser in w.store.reqs && Stop(w.store, w.now, sender, browser).0.reqs != w.store.reqs
    ensures var r := w.hist.flows[browser];
            && r.status == Verified && r.verified.Some? && r.verified.value.lid == sender
            && Apply(w, DoStop(sender, browser)).hist.flows == w.hist.flows[browser := r.(status := Denied)]
  {
    var m := Apply(w, DoStop(sender, browser));
    OverlayWrite(w, m.store, browser, m.store.reqs[browser]);
  }

  /**
   A STOP that changes a request denies a flow its own sender verified, which was
   not finalized; from then on the flow is denied and no code is ever minted for it,
   although the pointer was written, read and acted on in three separate steps.
   */
  lemma StopDeniesOwnFlow(start: int, before: seq<Step>, sender: string, browser: string, after: seq<Step>)
    requires var w := Exec(Init(start), before);
             && Enabled(w, DoStop(sender, browser)) && browser in w.store.reqs
             && Stop(w.store, w.now, sender, browser).0.reqs != w.store.reqs
    ensures var w := Exec(Init(start), before);
            var e := Exec(Apply(w, DoStop(sender, browser)), after);
            && browser in w.hist.flows && w.hist.flows[browser].status == Verified
            && w.hist.flows[browser].verified.Some?
            && w.hist.flows[browser].verified.value.lid == sender
            && browser in e.hist.flows && e.hist.flows[browser] == w.hist.flows[browser].(status := Denied)
            && (forall m :: m in e.hist.minted ==> m.browser != browser)
  {
    var w := Exec(Init(start), before);
    FlowRun(Init(start), before);
    WinRun(Init(start), before);
    CodesRun(Init(start), before);
    StopEffect(w, sender, browser);
    FlowStep(w, DoStop(sender, browser));
    MintStep(w, DoStop(sender, browser));
    RedeemStep(w, DoStop(sender, browser));
    DeniedForGood(Apply(w, DoStop(sender, browser)), browser, after);
  }
}
