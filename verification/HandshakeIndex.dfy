/** The reverse user-code index: where a live entry can point. */
module HandshakeIndex {
  import opened Wrappers
  import opened Pending
  import opened Handshake
  import opened HandshakeFlows

  /** A live entry names a created flow; while that flow's record exists it is pending and carries this very code. */
  ghost predicate IndexSound(w: World) {
    forall k :: k in w.store.index && w.store.index[k].value.Live? ==>
      var b := w.store.index[k].value.browser;
      b in w.hist.flows
      && (b in w.store.reqs ==> w.store.reqs[b].value.status == Pending && IndexOf(w.store.reqs[b].value) == k)
  }

  /** Entries survive a step unchanged or become something other than live. */
  predicate Shrinks(s: Store, s': Store) {
    forall k :: k in s'.index && s'.index[k].value.Live? ==> k in s.index && s'.index[k].value == s.index[k].value
  }

  /** A live entry that survives the step still names a pending record. */
  ghost predicate KeepsPending(s: Store, s': Store) {
    forall k :: k in s'.index && s'.index[k].value.Live? ==>
      var b := s'.index[k].value.browser;
      b in s'.reqs ==> s'.reqs[b].value.status == Pending
  }

  /**
   A write to one pending request whose entry is k keeps the live entries right,
   if the request stays pending or the entry stops being live.
   */
  lemma IndexWrite(w: World, s': Store, k: IndexKey, browser: string)
    requires Tracked(w) && IndexSound(w)
    requires k in w.store.index && w.store.index[k].value == Live(browser) && browser in w.store.reqs
    requires s'.reqs.Keys == w.store.reqs.Keys
    requires forall b :: b in w.store.reqs && b != browser ==> s'.reqs[b] == w.store.reqs[b]
    requires forall j :: j in s'.index && j != k ==> j in w.store.index && s'.index[j] == w.store.index[j]
    requires k in s'.index && s'.index[k].value.Live? ==>
      s'.index[k] == w.store.index[k] && s'.reqs[browser].value.status == Pending
    ensures Shrinks(w.store, s') && KeepsPending(w.store, s')
  {
    forall j | j in s'.index && s'.index[j].value.Live?
      ensures var b := s'.index[j].value.browser; b in s'.reqs ==> s'.reqs[b].value.status == Pending
    {
      assert j in w.store.index && s'.index[j].value == w.store.index[j].value;
      var b := s'.index[j].value.browser;
      if b == browser {
        assert IndexOf(w.store.reqs[browser].value) == j;
        assert IndexOf(w.store.reqs[browser].value) == k;
      }
    }
  }

  lemma IndexStepBump(w: World, k: IndexKey, browser: string, sender: string, mismatch: ClaimStatus)
    requires Tracked(w) && IndexSound(w)
    requires k in w.store.index && w.store.index[k].value == Live(browser) && browser in w.store.reqs
    ensures var s' := Bump(w.store, w.now, k, browser, sender, mismatch).0;
            Shrinks(w.store, s') && KeepsPending(w.store, s')
  {
    IndexWrite(w, Bump(w.store, w.now, k, browser, sender, mismatch).0, k, browser);
  }

  lemma IndexStepClaim(w: World, c: ClaimInput)
    requires Tracked(w) && IndexSound(w)
    ensures var s' := Claim(w.store, w.now, c).0; Shrinks(w.store, s') && KeepsPending(w.store, s')
  {
    var browser := ClaimCases(w.store, w.now, c);
    if Reaches(w.store, c, browser) && browser != "" {
      var k := IndexKey(c.session, c.userCode);
      IndexStepBump(w, k, browser, c.identity.lid, ModeMismatch);
      IndexStepBump(w, k, browser, c.identity.lid, CommandMismatch);
      IndexWrite(w, Accept(w.store, k, browser, c).0, k, browser);
    }
  }

  /** Closing a request together with its own entry leaves no live entry behind that names it. */
  lemma IndexClose(w: World, s': Store, browser: string)
    requires Tracked(w) && IndexSound(w) && browser in w.store.reqs
    requires s'.reqs.Keys == w.store.reqs.Keys
    requires forall b :: b in w.store.reqs && b != browser ==> s'.reqs[b] == w.store.reqs[b]
    requires s'.index == w.store.index - {IndexOf(w.store.reqs[browser].value)}
    ensures Shrinks(w.store, s') && KeepsPending(w.store, s')
  {
    forall j | j in s'.index && s'.index[j].value.Live?
      ensures var b := s'.index[j].value.browser; b in s'.reqs ==> s'.reqs[b].value.status == Pending
    {
      assert j in w.store.index && s'.index[j].value == w.store.index[j].value;
    }
  }

  lemma IndexStepFinalize(w: World, at: int, browser: string, g: Grant, a: AuthCode)
    requires Tracked(w) && IndexSound(w)
    ensures var s' := Finalize(w.store, at, browser, g, a).0; Shrinks(w.store, s') && KeepsPending(w.store, s')
  {
  }

  lemma IndexStepStop(w: World, sender: string, browser: string)
    requires Tracked(w) && IndexSound(w)
    ensures var s' := Stop(w.store, w.now, sender, browser).0; Shrinks(w.store, s') && KeepsPending(w.store, s')
  {
    if browser in w.store.reqs && w.store.reqs[browser].value.status == Verified {
      IndexClose(w, Stop(w.store, w.now, sender, browser).0, browser);
    }
  }

  lemma IndexStepTransition(w: World, at: int, browser: string, c: Change)
    requires Tracked(w) && IndexSound(w)
    ensures var s' := Transition(w.store, w.now, at, browser, c).0; Shrinks(w.store, s') && KeepsPending(w.store, s')
  {
    if Transition(w.store, w.now, at, browser, c).1 == 2 {
      IndexClose(w, Transition(w.store, w.now, at, browser, c).0, browser);
    }
  }

  lemma IndexStepDrop(w: World, l: Lapse)
    requires KeepsPending(w.store, w.store)
    ensures Shrinks(w.store, Dropped(w.store, l)) && KeepsPending(w.store, Dropped(w.store, l))
  {
  }

  lemma IndexStepReserve(s: Store, now: int, at: int, k: IndexKey, expiresAt: int)
    requires KeepsPending(s, s)
    ensures Shrinks(s, Reserve(s, now, at, k, expiresAt).0) && KeepsPending(s, Reserve(s, now, at, k, expiresAt).0)
  {
  }

  lemma IndexStepOther(w: World, step: Step)
    requires Tracked(w) && IndexSound(w) && Enabled(w, step) && !step.DoCreate? && !step.DoClaim?
    ensures Shrinks(w.store, StoreAfter(w, step)) && KeepsPending(w.store, StoreAfter(w, step))
  {
    hide Claim, Create, Stop, Transition, Finalize, Reserve, Dropped;
    assert KeepsPending(w.store, w.store);
    match step
    case DoStop(sender, b) => IndexStepStop(w, sender, b);
    case DoTransition(at, b, c) => IndexStepTransition(w, at, b, c);
    case DoFinalize(at, b, g, a) => IndexStepFinalize(w, at, b, g, a);
    case Drop(l) => IndexStepDrop(w, l);
    case DoReserve(at, k, expiresAt) => IndexStepReserve(w.store, w.now, at, k, expiresAt);
    case _ =>
  }

  lemma MoveKeepsIndex(r: Request, r': Request)
    ensures Move(r, r') ==> IndexOf(r') == IndexOf(r)
  {
  }

  lemma IndexMove(w: World, w': World)
    requires Tracked(w) && Shaped(w) && IndexSound(w) && Extends(w, w')
    requires Moved(w.store, w'.store) && Shrinks(w.store, w'.store) && KeepsPending(w.store, w'.store)
    ensures IndexSound(w')
  {
    hide Move, Shaped, Evolves, WellFormed, IndexOf;
    forall k | k in w'.store.index && w'.store.index[k].value.Live?
      ensures var b := w'.store.index[k].value.browser;
              b in w'.hist.flows
              && (b in w'.store.reqs ==>
                    w'.store.reqs[b].value.status == Pending && IndexOf(w'.store.reqs[b].value) == k)
    {
      assert k in w.store.index && w'.store.index[k].value == w.store.index[k].value;
      var b := w'.store.index[k].value.browser;
      if b in w'.store.reqs { MoveKeepsIndex(w.store.reqs[b].value, w'.store.reqs[b].value); }
    }
  }

  lemma IndexCreate(w: World, step: Step)
    requires Tracked(w) && Shaped(w) && IndexSound(w) && Enabled(w, step) && step.DoCreate?
    ensures IndexSound(Apply(w, step))
  {
    assert forall k :: k in w.store.index && w.store.index[k].value.Live? ==>
      w.store.index[k].value.browser != step.browser;
  }

  lemma IndexStep(w: World, step: Step)
    requires Tracked(w) && Shaped(w) && IndexSound(w)
    ensures IndexSound(Apply(w, step))
  {
    if Enabled(w, step) {
      if step.DoCreate? {
        IndexCreate(w, step);
      } else {
        FlowStep(w, step);
        StepMoves(w, step);
        if step.DoClaim? {
          IndexStepClaim(w, step.c);
        } else {
          IndexStepOther(w, step);
        }
        IndexMove(w, Apply(w, step));
      }
    }
  }

  lemma {:induction false} IndexRun(w: World, steps: seq<Step>)
    requires Tracked(w) && Shaped(w) && IndexSound(w)
    ensures IndexSound(Exec(w, steps))
    decreases |steps|
  {
    if steps != [] {
      FlowStep(w, steps[0]);
      IndexStep(w, steps[0]);
      IndexRun(Apply(w, steps[0]), steps[1..]);
    }
  }

  /** In every reachable world the index is sound. */
  lemma IndexAlwaysSound(start: int, steps: seq<Step>)
    ensures IndexSound(Exec(Init(start), steps))
  {
    IndexRun(Init(start), steps);
  }

  /** Two live entries never name one existing request. */
  lemma OneLiveEntry(start: int, steps: seq<Step>, k: IndexKey, k': IndexKey)
    requires var s := Exec(Init(start), steps).store;
             && k in s.index && k' in s.index && s.index[k].value.Live? && s.index[k'].value == s.index[k].value
             && s.index[k].value.browser in s.reqs
    ensures k == k'
  {
    IndexAlwaysSound(start, steps);
  }

  /**
   A claim that reaches a request by a live entry finds it pending in its own
   session: the status tests and the session half of the mode test in claimScript
   never fire, and the claim is answered by expiry, by a mode or command mismatch,
   or by a win.
   */
  lemma ClaimBranches(start: int, steps: seq<Step>, c: ClaimInput)
    requires var s := Exec(Init(start), steps).store;
             var k := IndexKey(c.session, c.userCode);
             k in s.index && s.index[k].value.Live? && s.index[k].value.browser in s.reqs
    ensures var w := Exec(Init(start), steps);
            var r := w.store.reqs[w.store.index[IndexKey(c.session, c.userCode)].value.browser].value;
            var answer := Claim(w.store, w.now, c).1.status;
            && r.status == Pending && r.session == c.session && r.userCode == c.userCode
            && answer != AlreadyUsed
            && (answer == Is(Verified) <==> r.expiresAt > c.at && r.mode == c.mode && Lower(r.command) == c.command)
            && (answer == Is(Expired) <==> r.expiresAt <= c.at)
  {
    IndexAlwaysSound(start, steps);
  }
}
