/** Nothing is lost early: which records and codes are there, and what loading and redeeming them answer. */
module HandshakePersistence {
  import opened Wrappers
  import opened Pending
  import opened Handshake
  import opened HandshakeFlows
  import opened HandshakeCodes
  import opened HandshakeBinding

  /** Closed records are kept for a while of their own; all others until their deadline. */
  predicate Kept(s: Status) { s == Pending || s == Verified || s == Finalized }

  predicate Lasts(k: Key<Request>) { Kept(k.value.status) ==> k.expireAt == k.value.expiresAt }

  /** Records last until their deadline, and one that is gone has passed it. */
  ghost predicate FlowsLast(w: World) {
    && (forall b :: b in w.store.reqs ==> Lasts(w.store.reqs[b]))
    && (forall b :: b in w.hist.flows && b !in w.store.reqs && Kept(w.hist.flows[b].status) ==>
          w.hist.flows[b].expiresAt <= w.now)
  }

  /** So do codes, unless they were redeemed. */
  ghost predicate CodesLast(w: World) {
    && (forall c :: c in w.store.codes ==> w.store.codes[c].expireAt == w.store.codes[c].value.expiresAt)
    && (forall c :: c in w.hist.payloads && c !in w.store.codes && c !in w.hist.redeemed ==>
          w.hist.payloads[c].expiresAt <= w.now)
  }

  // ---------- records ----------

  /** Records are written with their deadline, and go only when they are due. */
  predicate Retains(s: Store, s': Store, now: int) {
    && (forall b :: b in s.reqs && b !in s'.reqs ==> s.reqs[b].expireAt <= now)
    && (forall b :: b in s'.reqs ==> (b in s.reqs && s'.reqs[b] == s.reqs[b]) || Lasts(s'.reqs[b]))
  }

  lemma BumpRetains(s: Store, now: int, k: IndexKey, browser: string, sender: string, mismatch: ClaimStatus)
    requires browser in s.reqs
    ensures Retains(s, Bump(s, now, k, browser, sender, mismatch).0, now)
  {
  }

  lemma AcceptRetains(s: Store, now: int, k: IndexKey, browser: string, c: ClaimInput)
    requires browser in s.reqs
    ensures Retains(s, Accept(s, k, browser, c).0, now)
  {
  }

  lemma ClaimRetains(s: Store, now: int, c: ClaimInput)
    ensures Retains(s, Claim(s, now, c).0, now)
  {
    hide Claim, Bump, Accept, Lasts;
    var b := ClaimCases(s, now, c);
    if Reaches(s, c, b) {
      var k := IndexKey(c.session, c.userCode);
      BumpRetains(s, now, k, b, c.identity.lid, ModeMismatch);
      BumpRetains(s, now, k, b, c.identity.lid, CommandMismatch);
      AcceptRetains(s, now, k, b, c);
    }
  }

  lemma StopRetains(s: Store, now: int, sender: string, b: string)
    ensures Retains(s, Stop(s, now, sender, b).0, now)
  {
  }

  lemma TransitionRetains(s: Store, now: int, at: int, b: string, c: Change)
    requires c.target == Denied || c.target == Expired
    ensures Retains(s, Transition(s, now, at, b, c).0, now)
  {
  }

  lemma FinalizeRetains(s: Store, now: int, at: int, b: string, g: Grant, a: AuthCode)
    ensures Retains(s, Finalize(s, at, b, g, a).0, now)
  {
  }

  lemma CreateRetains(s: Store, now: int, at: int, b: string, p: Request)
    ensures Retains(s, Create(s, at, b, p).0, now)
  {
  }

  lemma DropRetains(s: Store, now: int, l: Lapse)
    requires Lapsed(s, now, l)
    ensures Retains(s, Dropped(s, l), now)
  {
  }

  lemma StepRetains(w: World, step: Step)
    requires Enabled(w, step)
    ensures Retains(w.store, StoreAfter(w, step), w.now)
  {
    hide Claim, Create, Stop, Transition, Finalize, Dropped, Lapsed, Bound, Lasts, Incr;
    match step
    case DoClaim(c) => ClaimRetains(w.store, w.now, c);
    case DoCreate(at, b, p) => CreateRetains(w.store, w.now, at, b, p);
    case DoStop(sender, b) => StopRetains(w.store, w.now, sender, b);
    case DoTransition(at, b, c) => TransitionRetains(w.store, w.now, at, b, c);
    case DoFinalize(at, b, g, a) => FinalizeRetains(w.store, w.now, at, b, g, a);
    case Drop(l) => DropRetains(w.store, w.now, l);
    case _ =>
  }

  lemma FlowsLastOn(w: World, w': World)
    requires Tracked(w) && FlowsLast(w) && Retains(w.store, w'.store, w.now) && w.now <= w'.now
    requires w'.hist.flows == Overlay(w.hist.flows, w'.store.reqs)
    ensures FlowsLast(w')
  {
  }

  lemma FlowsLastStep(w: World, step: Step)
    requires Tracked(w) && FlowsLast(w)
    ensures FlowsLast(Apply(w, step))
  {
    hide FlowsLast, Tracked, Retains, StoreAfter, Noted, Overlay, Enabled;
    if Enabled(w, step) {
      StepRetains(w, step);
      FlowsLastOn(w, Apply(w, step));
    }
  }

  // ---------- codes ----------

  lemma CodesLastFinalize(w: World, w': World, g: Grant, a: AuthCode)
    requires CodesLast(w) && w'.now == w.now && w'.hist.redeemed == w.hist.redeemed
    requires w'.store.codes == w.store.codes[g.code := Key(a, a.expiresAt)]
    requires w'.hist.payloads == w.hist.payloads[g.code := a]
    ensures CodesLast(w')
  {
  }

  lemma CodesLastRedeem(w: World, at: int, code: string)
    requires CodesLast(w) && BindSound(w) && at <= w.now
    ensures CodesLast(Apply(w, DoRedeem(at, code)))
  {
  }

  lemma CodesLastDrop(w: World, l: Lapse)
    requires CodesLast(w) && BindSound(w) && Lapsed(w.store, w.now, l)
    ensures CodesLast(Apply(w, Drop(l)))
  {
  }

  lemma CodesLastKept(w: World, w': World)
    requires CodesLast(w) && w'.store.codes == w.store.codes && w.now <= w'.now
    requires w'.hist.payloads == w.hist.payloads && w'.hist.redeemed == w.hist.redeemed
    ensures CodesLast(w')
  {
  }

  lemma OthersKeepCodes(w: World, step: Step)
    requires !step.DoFinalize? && !step.DoRedeem? && !step.Drop?
    ensures StoreAfter(w, step).codes == w.store.codes
  {
    hide Claim, Stop, Transition, Create;
    match step
    case DoClaim(c) => ClaimKeepsCodes(w.store, w.now, c);
    case DoStop(sender, b) => ScriptsKeepCodes(w.store, w.now, w.now, sender, b, Change(Denied, "", "", false, 0));
    case DoTransition(at, b, c) => ScriptsKeepCodes(w.store, w.now, at, "", b, c);
    case DoCreate(at, b, p) => CreateKeepsCodes(w.store, at, b, p);
    case _ =>
  }

  lemma CodesLastStep(w: World, step: Step)
    requires Tracked(w) && Shaped(w) && BindSound(w) && CodesLast(w)
    ensures CodesLast(Apply(w, step))
  {
    hide Tracked, Shaped, BindSound, CodesLast, Noted, StoreAfter, Overlay, Bound;
    if Enabled(w, step) {
      match step
      case DoFinalize(at, b, g, a) =>
        if Finalizable(w.store, at, b) {
          FinalizeNoted(w, step);
          hide Apply;
          CodesLastFinalize(w, Apply(w, step), g, a);
        } else {
          FinalizeAgainNoted(w, step);
          hide Apply;
          CodesLastKept(w, Apply(w, step));
        }
      case DoRedeem(at, code) => CodesLastRedeem(w, at, code);
      case Drop(l) => CodesLastDrop(w, l);
      case _ =>
        OthersKeepCodes(w, step);
        NotedCodes(w, step);
        NotedPayloads(w, step);
        CodesLastKept(w, Apply(w, step));
    }
  }

  // ---------- runs ----------

  ghost predicate Sound(w: World) {
    Tracked(w) && Shaped(w) && CodesSound(w) && BindSound(w) && FlowsLast(w) && CodesLast(w)
  }

  lemma {:induction false} LastRun(w: World, steps: seq<Step>)
    requires Sound(w)
    ensures Sound(Exec(w, steps))
    decreases |steps|
  {
    hide Tracked, Shaped, BindSound, FlowsLast, CodesLast, Apply;
    if steps != [] {
      FlowStep(w, steps[0]);
      MintStep(w, steps[0]);
      RedeemStep(w, steps[0]);
      BindStep(w, steps[0]);
      FlowsLastStep(w, steps[0]);
      CodesLastStep(w, steps[0]);
      LastRun(Apply(w, steps[0]), steps[1..]);
    }
  }

  lemma InitSound(start: int)
    ensures Sound(Init(start))
  {
  }

  lemma {:induction false} Reachable(start: int, steps: seq<Step>) returns (w: World)
    ensures w == Exec(Init(start), steps) && Sound(w)
  {
    w := Exec(Init(start), steps);
    InitSound(start);
    LastRun(Init(start), steps);
  }

  /**
   A flow that is neither denied nor expired and whose deadline lies ahead is in the store as it was
   last recorded, so loading it now gives it; what loading gives is always such a record or a denied one.
   */
  lemma FlowsPersist(start: int, steps: seq<Step>, browser: string)
    ensures var w := Exec(Init(start), steps);
            var loaded := Load(w.store, w.now, browser);
            && (browser in w.hist.flows && Kept(w.hist.flows[browser].status)
                && w.now < w.hist.flows[browser].expiresAt ==>
                  browser in w.store.reqs && loaded == Some(w.hist.flows[browser]))
            && (loaded.Some? ==>
                  && browser in w.hist.flows && loaded.value == w.hist.flows[browser]
                  && w.now < w.hist.flows[browser].expiresAt && w.hist.flows[browser].status != Expired)
  {
    var w := Reachable(start, steps);
  }

  /**
   Redeeming a code succeeds exactly when the code is in the store and its deadline, as its finalization
   stored it, has not passed by the caller's clock, or there is none; the code is gone either way. Before
   that deadline a code is in the store exactly until it is redeemed.
   */
  lemma RedeemExact(start: int, steps: seq<Step>, at: int, code: string)
    requires at <= Exec(Init(start), steps).now
    ensures var w := Exec(Init(start), steps); var answer := Redeem(w.store, at, code).1;
            && (code in w.store.codes ==> code in w.hist.payloads)
            && (answer.Ok? <==>
                  && code in w.store.codes
                  && (w.hist.payloads[code].expiresAt == 0 || at <= w.hist.payloads[code].expiresAt))
            && (answer == Err(NoSuchCode) <==> code !in w.store.codes)
            && code !in Apply(w, DoRedeem(at, code)).store.codes
            && (code in w.hist.payloads && w.now < w.hist.payloads[code].expiresAt ==>
                  (answer.Ok? <==> code !in w.hist.redeemed))
  {
    var w := Reachable(start, steps);
    hide MintSound, Tracked, Shaped, FlowsLast, Exec;
  }
}
