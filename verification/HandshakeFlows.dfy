/** How the record of one browser flow may change over a run. */
module HandshakeFlows {
  import opened Wrappers
  import opened Pending
  import opened Handshake

  /** Records in the store are the ones last recorded. */
  ghost predicate Tracked(w: World) {
    && w.hist.flows.Keys == w.hist.deadlines.Keys
    && "" !in w.hist.flows
    && forall b :: b in w.store.reqs ==> b in w.hist.flows && w.hist.flows[b] == w.store.reqs[b].value
  }

  predicate Follows(a: Status, b: Status) {
    a == b || a == Pending || (a == Verified && (b == Finalized || b == Denied))
  }

  predicate Terminal(s: Status) { s == Finalized || s == Denied || s == Expired }

  /** The order every flow obeys: everything that is ever true of a flow's later records. */
  predicate Evolves(r: Request, r': Request) {
    && r' == r.(status := r'.status, attempts := r'.attempts, verified := r'.verified, finalized := r'.finalized,
                expiresAt := r'.expiresAt)
    && Follows(r.status, r'.status)
    && (Terminal(r.status) ==> r' == r)
    && (r.verified.Some? ==> r'.verified == r.verified && r'.expiresAt == r.expiresAt && r'.attempts == r.attempts)
    && (r.finalized.Some? ==> r'.finalized == r.finalized)
    && r'.expiresAt <= r.expiresAt
    && r.attempts <= r'.attempts
    && (r'.expiresAt < r.expiresAt ==>
          r'.verified.Some? && r.verified.None? && r'.expiresAt == r'.verified.value.verifiedAt + VERIFIED_GRACE_MS)
  }

  /** The shape of a record, given the deadline its flow was created with. */
  predicate WellFormed(r: Request, deadline: int) {
    && (r.status == Pending || r.status == Expired ==> r.verified.None?)
    && (r.status == Verified || r.status == Finalized ==> r.verified.Some?)
    && (r.finalized.Some? <==> r.status == Finalized)
    && (if r.verified.Some? then r.expiresAt == Min(deadline, r.verified.value.verifiedAt + VERIFIED_GRACE_MS)
        else r.expiresAt == deadline)
    && r.attempts <= ATTEMPT_LIMIT
    && (r.attempts == ATTEMPT_LIMIT ==> r.status == Denied && r.verified.None?)
  }

  ghost predicate Shaped(w: World) {
    forall b :: b in w.hist.flows && b in w.hist.deadlines ==> WellFormed(w.hist.flows[b], w.hist.deadlines[b])
  }

  /** What one world hands to any later one. */
  ghost predicate Extends(w: World, w': World) {
    && w.now <= w'.now
    && (forall b :: b in w.hist.flows ==>
          b in w'.hist.flows && b in w'.hist.deadlines
          && Evolves(w.hist.flows[b], w'.hist.flows[b])
          && (b in w.hist.deadlines ==> w'.hist.deadlines[b] == w.hist.deadlines[b]))
    && (forall b :: b in w'.store.reqs && b in w.hist.flows ==> b in w.store.reqs)
  }

  lemma MoveEvolves(r: Request, r': Request, deadline: int)
    requires Move(r, r') && WellFormed(r, deadline)
    ensures Evolves(r, r') && WellFormed(r', deadline)
  {
  }

  lemma EvolvesRefl(r: Request)
    ensures Evolves(r, r)
  {
  }

  lemma EvolvesTrans(a: Request, b: Request, c: Request)
    requires Evolves(a, b) && Evolves(b, c)
    ensures Evolves(a, c)
  {
  }

  lemma NotedDeadlines(w: World, step: Step)
    requires !step.DoCreate?
    ensures Noted(w, step).deadlines == w.hist.deadlines
  {
    hide Claim, Redeem, OpenWindow, NoteClaim, NoteReload, NoteFinalize;
    match step
    case DoClaim(c) => ClaimNotes(w.hist, w.store, Claim(w.store, w.now, c).0, w.now, c, Claim(w.store, w.now, c).1);
    case DoWrongCode(sender) => WindowNotes(w.hist, w.store, w.now, sender);
    case DoReload(at, b) => ReloadNotes(w.hist, w.store, at, b);
    case DoFinalize(at, b, g, a) => FinalizeNotes(w.hist, w.store, at, b, g, a);
    case _ =>
  }

  lemma MovedRecord(w: World, w': World, b: string)
    requires Tracked(w) && Shaped(w) && Moved(w.store, w'.store) && b in w'.store.reqs
    ensures b in w.hist.flows && b in w.hist.deadlines && b in w.store.reqs && w.store.reqs[b].value == w.hist.flows[b]
    ensures Evolves(w.hist.flows[b], w'.store.reqs[b].value) && WellFormed(w'.store.reqs[b].value, w.hist.deadlines[b])
  {
    hide Move, Evolves, WellFormed;
    EvolvesRefl(w.hist.flows[b]);
    if w'.store.reqs[b].value != w.store.reqs[b].value {
      MoveEvolves(w.hist.flows[b], w'.store.reqs[b].value, w.hist.deadlines[b]);
    }
  }

  /** Overlaying records that moved legally keeps every flow going forward. */
  lemma FlowMove(w: World, w': World)
    requires Tracked(w) && Shaped(w) && Moved(w.store, w'.store) && w.now <= w'.now
    requires w'.hist.flows == Overlay(w.hist.flows, w'.store.reqs) && w'.hist.deadlines == w.hist.deadlines
    ensures Tracked(w') && Shaped(w') && Extends(w, w')
  {
    hide Move, Evolves, WellFormed, Moved;
    forall b | b in w'.store.reqs
      ensures b in w.hist.flows && b in w.hist.deadlines && b in w.store.reqs
      ensures Evolves(w.hist.flows[b], w'.store.reqs[b].value)
              && WellFormed(w'.store.reqs[b].value, w.hist.deadlines[b])
    {
      MovedRecord(w, w', b);
    }
    forall b | b in w.hist.flows ensures Evolves(w.hist.flows[b], w.hist.flows[b]) { EvolvesRefl(w.hist.flows[b]); }
    assert w'.hist.flows.Keys == w.hist.flows.Keys;
  }

  lemma OverlayWrite(w: World, s': Store, b: string, r: Key<Request>)
    requires Tracked(w) && b in w.store.reqs && s'.reqs == w.store.reqs[b := r]
    ensures Overlay(w.hist.flows, s'.reqs) == w.hist.flows[b := r.value]
  {
  }

  lemma OverlaySame(w: World, s': Store)
    requires Tracked(w) && s'.reqs == w.store.reqs
    ensures Overlay(w.hist.flows, s'.reqs) == w.hist.flows
  {
  }

  /** A fresh flow joins the others, which stay as they were. */
  lemma OverlayCreate(w: World, w': World, browser: string, p: Request)
    requires Tracked(w) && browser !in w.hist.flows
    requires w'.store.reqs == w.store.reqs[browser := Key(p, p.expiresAt)]
    requires w'.hist.flows == Overlay(w.hist.flows, w'.store.reqs)
    ensures w'.hist.flows == w.hist.flows[browser := p]
  {
  }

  lemma FreshWellFormed(p: Request)
    requires Fresh(p)
    ensures WellFormed(p, p.expiresAt)
  {
  }

  lemma FlowCreate(w: World, w': World, browser: string, p: Request)
    requires Tracked(w) && Shaped(w) && browser != "" && browser !in w.hist.flows && Fresh(p) && w.now <= w'.now
    requires w'.store.reqs == w.store.reqs[browser := Key(p, p.expiresAt)]
    requires w'.hist.flows == w.hist.flows[browser := p]
    requires w'.hist.deadlines == w.hist.deadlines[browser := p.expiresAt]
    ensures Tracked(w') && Shaped(w') && Extends(w, w')
  {
    hide Evolves, WellFormed, Fresh;
    FreshWellFormed(p);
    assert Tracked(w');
    forall b | b in w.hist.flows
      ensures b in w'.hist.flows && w'.hist.flows[b] == w.hist.flows[b] && Evolves(w.hist.flows[b], w'.hist.flows[b])
    {
      EvolvesRefl(w.hist.flows[b]);
    }
  }

  lemma FlowStep(w: World, step: Step)
    requires Tracked(w) && Shaped(w)
    ensures Tracked(Apply(w, step)) && Shaped(Apply(w, step)) && Extends(w, Apply(w, step))
  {
    if Enabled(w, step) {
      if step.DoCreate? {
        if Create(w.store, step.at, step.browser, step.p).1 {
          OverlayCreate(w, Apply(w, step), step.browser, step.p);
          FlowCreate(w, Apply(w, step), step.browser, step.p);
        } else {
          FlowMove(w, Apply(w, step));
        }
      } else {
        StepMoves(w, step);
        NotedDeadlines(w, step);
        FlowMove(w, Apply(w, step));
      }
    }
  }

  lemma {:induction false} FlowRun(w: World, steps: seq<Step>)
    requires Tracked(w) && Shaped(w)
    ensures Tracked(Exec(w, steps)) && Shaped(Exec(w, steps)) && Extends(w, Exec(w, steps))
    decreases |steps|
  {
    if steps != [] {
      FlowStep(w, steps[0]);
      FlowRun(Apply(w, steps[0]), steps[1..]);
      var m, e := Apply(w, steps[0]), Exec(w, steps);
      forall b | b in w.hist.flows
        ensures b in e.hist.flows && Evolves(w.hist.flows[b], e.hist.flows[b])
      {
        EvolvesTrans(w.hist.flows[b], m.hist.flows[b], e.hist.flows[b]);
      }
    }
  }

  /** A run from the empty store, cut anywhere: the first part reaches a sound world the second part extends. */
  lemma ReachableFlows(start: int, before: seq<Step>, after: seq<Step>)
    ensures var w := Exec(Init(start), before);
            Tracked(w) && Shaped(w) && Extends(w, Exec(w, after))
  {
    FlowRun(Init(start), before);
    FlowRun(Exec(Init(start), before), after);
  }

  /** Load never returns a flow at or past the deadline it was created with, nor past a verified flow's grace. */
  lemma LoadWithinDeadline(start: int, steps: seq<Step>, at: int, browser: string)
    requires Load(Exec(Init(start), steps).store, at, browser).Some?
    ensures var w := Exec(Init(start), steps);
            var r := Load(w.store, at, browser).value;
            && browser in w.hist.deadlines && at < w.hist.deadlines[browser]
            && (r.verified.Some? ==> at < r.verified.value.verifiedAt + VERIFIED_GRACE_MS)
  {
    FlowRun(Init(start), steps);
  }
}
