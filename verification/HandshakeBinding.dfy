/** What a code is worth: the payload of the one finalization that stored it, bound to its flow. */
module HandshakeBinding {
  import opened Wrappers
  import opened Pending
  import opened Handshake
  import opened HandshakeFlows
  import opened HandshakeCodes

  /** Stored codes carry the payload of their finalization, and payloads are bound to the flows they were stored for. */
  ghost predicate BindSound(w: World) {
    && (forall c :: c in w.store.codes ==> c in w.hist.payloads && w.store.codes[c].value == w.hist.payloads[c])
    && (forall i :: 0 <= i < |w.hist.minted| ==> MintBound(w.hist, w.hist.minted[i]))
  }

  predicate MintBound(h: History, m: Minted) {
    m.browser in h.flows && m.grant.code in h.payloads && Bound(h.payloads[m.grant.code], h.flows[m.browser])
  }

  /** Codes only go away. */
  predicate CodesShrink(s: Store, s': Store) {
    forall c :: c in s'.codes ==> c in s.codes && s'.codes[c] == s.codes[c]
  }

  lemma BumpKeepsCodes(s: Store, now: int, k: IndexKey, browser: string, sender: string, mismatch: ClaimStatus)
    requires browser in s.reqs
    ensures Bump(s, now, k, browser, sender, mismatch).0.codes == s.codes
  {
  }

  lemma ClaimKeepsCodes(s: Store, now: int, c: ClaimInput)
    ensures Claim(s, now, c).0.codes == s.codes
  {
    hide Bump;
    var browser := ClaimCases(s, now, c);
    if browser in s.reqs {
      BumpKeepsCodes(s, now, IndexKey(c.session, c.userCode), browser, c.identity.lid, ModeMismatch);
      BumpKeepsCodes(s, now, IndexKey(c.session, c.userCode), browser, c.identity.lid, CommandMismatch);
    }
  }

  lemma ScriptsKeepCodes(s: Store, now: int, at: int, sender: string, b: string, c: Change)
    ensures Stop(s, now, sender, b).0.codes == s.codes && Transition(s, now, at, b, c).0.codes == s.codes
  {
  }

  lemma CreateKeepsCodes(s: Store, at: int, b: string, p: Request)
    ensures Create(s, at, b, p).0.codes == s.codes
  {
  }

  lemma DropShrinks(s: Store, l: Lapse)
    ensures CodesShrink(s, Dropped(s, l))
  {
  }

  lemma OthersShrink(w: World, step: Step)
    requires Enabled(w, step) && !(step.DoFinalize? && Finalizable(w.store, step.at, step.browser))
    ensures CodesShrink(w.store, StoreAfter(w, step))
  {
    hide Claim, Stop, Transition, Create, Dropped, Bound, Incr;
    match step
    case DoClaim(c) => ClaimKeepsCodes(w.store, w.now, c);
    case DoCreate(at, b, p) => CreateKeepsCodes(w.store, at, b, p);
    case Drop(l) => DropShrinks(w.store, l);
    case DoStop(sender, b) => ScriptsKeepCodes(w.store, w.now, w.now, sender, b, Change(Denied, "", "", false, 0));
    case DoTransition(at, b, c) => ScriptsKeepCodes(w.store, w.now, at, "", b, c);
    case _ =>
  }

  predicate SamePayloads(h: History, h': History) { h'.payloads == h.payloads && h'.minted == h.minted }

  lemma FinalizePayloads(h: History, s: Store, at: int, b: string, g: Grant, a: AuthCode)
    requires !Finalizable(s, at, b)
    ensures SamePayloads(h, NoteFinalize(h, s, at, b, g, a))
  {
    hide Finalize;
  }

  lemma NotedPayloads(w: World, step: Step)
    requires !(step.DoFinalize? && Finalizable(w.store, step.at, step.browser))
    ensures SamePayloads(w.hist, Noted(w, step))
  {
    hide Claim, Redeem, Create, NoteClaim, NoteReload, NoteFinalize;
    match step
    case DoClaim(c) => ClaimNotes(w.hist, w.store, Claim(w.store, w.now, c).0, w.now, c, Claim(w.store, w.now, c).1);
    case DoReload(at, b) => ReloadNotes(w.hist, w.store, at, b);
    case DoFinalize(at, b, g, a) => FinalizePayloads(w.hist, w.store, at, b, g, a);
    case _ =>
  }

  lemma StaysBound(r: Request, r': Request, a: AuthCode)
    requires Evolves(r, r') && Bound(a, r)
    ensures Bound(a, r')
  {
  }

  lemma BindKept(w: World, w': World)
    requires BindSound(w) && Extends(w, w') && CodesShrink(w.store, w'.store)
    requires w'.hist.payloads == w.hist.payloads && w'.hist.minted == w.hist.minted
    ensures BindSound(w')
  {
    hide Evolves, Bound;
    forall i | 0 <= i < |w'.hist.minted| ensures MintBound(w'.hist, w'.hist.minted[i]) {
      var m := w.hist.minted[i];
      assert MintBound(w.hist, m);
      StaysBound(w.hist.flows[m.browser], w'.hist.flows[m.browser], w.hist.payloads[m.grant.code]);
    }
  }

  lemma BindNew(w: World, w': World, b: string, g: Grant, a: AuthCode)
    requires BindSound(w) && MintSound(w.hist) && g.code !in w.hist.offered
    requires b in w.hist.flows && Bound(a, w.hist.flows[b])
    requires w'.store.codes.Keys == w.store.codes.Keys + {g.code} && w'.store.codes[g.code].value == a
    requires forall c :: c in w.store.codes && c != g.code ==> w'.store.codes[c] == w.store.codes[c]
    requires w'.hist.payloads == w.hist.payloads[g.code := a] && w'.hist.minted == w.hist.minted + [Minted(b, g)]
    requires w'.hist.flows == w.hist.flows[b := w.hist.flows[b].(status := Finalized, finalized := Some(g))]
    ensures BindSound(w')
  {
    forall i | 0 <= i < |w'.hist.minted| ensures MintBound(w'.hist, w'.hist.minted[i]) {
      if i < |w.hist.minted| {
        assert MintBound(w.hist, w.hist.minted[i]);
        assert w.hist.minted[i].grant.code in w.hist.offered;
      }
    }
  }

  lemma BoundGuard(w: World, step: Step)
    requires Enabled(w, step) && step.DoFinalize? && step.browser in w.hist.flows
    ensures Bound(step.auth, w.hist.flows[step.browser])
  {
  }

  lemma BindStep(w: World, step: Step)
    requires Tracked(w) && Shaped(w) && MintSound(w.hist) && BindSound(w)
    ensures BindSound(Apply(w, step))
  {
    hide BindSound, MintSound, Tracked, Shaped, Noted, StoreAfter, Overlay, Bound;
    if Enabled(w, step) {
      if step.DoFinalize? && Finalizable(w.store, step.at, step.browser) {
        FinalizeNoted(w, step);
        BoundGuard(w, step);
        hide Apply;
        BindNew(w, Apply(w, step), step.browser, step.grant, step.auth);
      } else {
        FlowStep(w, step);
        OthersShrink(w, step);
        NotedPayloads(w, step);
        BindKept(w, Apply(w, step));
      }
    }
  }

  lemma {:induction false} BindRun(w: World, steps: seq<Step>)
    requires Tracked(w) && Shaped(w) && CodesSound(w) && BindSound(w)
    ensures BindSound(Exec(w, steps))
    decreases |steps|
  {
    hide BindSound, Tracked, Shaped, Apply;
    if steps != [] {
      FlowStep(w, steps[0]);
      MintStep(w, steps[0]);
      RedeemStep(w, steps[0]);
      BindStep(w, steps[0]);
      BindRun(Apply(w, steps[0]), steps[1..]);
    }
  }

  /**
   A redemption that succeeds returns exactly what the flow's one finalization stored:
   there is one flow the code was minted for, it is finalized with this code, and the
   payload carries its client, its redirect URI and its challenge (sections 4.1.2 of
   RFC 6749 and 4.4 of RFC 7636).
   */
  lemma RedemptionIsBound(start: int, steps: seq<Step>, at: int, code: string)
    requires Redeem(Exec(Init(start), steps).store, at, code).1.Ok?
    ensures var w := Exec(Init(start), steps); var a := Redeem(w.store, at, code).1.value;
            && code in w.hist.payloads && a == w.hist.payloads[code]
            && exists m | m in w.hist.minted ::
                 && m.grant.code == code && m.browser in w.hist.flows
                 && w.hist.flows[m.browser].status == Finalized && w.hist.flows[m.browser].finalized == Some(m.grant)
                 && Bound(a, w.hist.flows[m.browser])
                 && forall n | n in w.hist.minted && n.grant.code == code :: n == m
  {
    hide Exec, Redeem, Bound;
    var w := Exec(Init(start), steps);
    InitNothing(start);
    FlowRun(Init(start), steps);
    CodesRun(Init(start), steps);
    BindRun(Init(start), steps);
    RedeemedPayload(w, at, code);
    var i := MintOf(w, code);
    assert w.hist.minted[i] in w.hist.minted;
  }

  lemma InitNothing(start: int)
    ensures var w := Init(start); Tracked(w) && Shaped(w) && CodesSound(w) && BindSound(w)
  {
  }

  lemma RedeemedPayload(w: World, at: int, code: string)
    requires BindSound(w) && Redeem(w.store, at, code).1.Ok?
    ensures code in w.store.codes && code in w.hist.payloads
            && Redeem(w.store, at, code).1.value == w.hist.payloads[code]
  {
  }

  /** A stored code was minted once, for a flow it is bound to. */
  lemma MintOf(w: World, code: string) returns (i: nat)
    requires Shaped(w) && Tracked(w) && CodesSound(w) && BindSound(w) && code in w.store.codes
    ensures i < |w.hist.minted| && w.hist.minted[i].grant.code == code && MintBound(w.hist, w.hist.minted[i])
    ensures var m := w.hist.minted[i];
            m.browser in w.hist.flows && w.hist.flows[m.browser].status == Finalized
            && w.hist.flows[m.browser].finalized == Some(m.grant)
    ensures forall n | n in w.hist.minted && n.grant.code == code :: n == w.hist.minted[i]
  {
    hide Bound;
    i :| 0 <= i < |w.hist.minted| && w.hist.minted[i].grant.code == code;
    assert MintBound(w.hist, w.hist.minted[i]);
  }
}
