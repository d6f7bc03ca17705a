/** Authorization codes: one per flow, redeemed at most once (section 4.1.2 of RFC 6749). */
module HandshakeCodes {
  import opened Wrappers
  import opened Pending
  import opened Handshake
  import opened HandshakeFlows

  ghost predicate CodeMinted(h: History, code: string) {
    exists i :: 0 <= i < |h.minted| && h.minted[i].grant.code == code
  }

  /** Each code stored belongs to one finalized flow, and each flow has one. */
  ghost predicate MintSound(h: History) {
    && (forall i :: 0 <= i < |h.minted| ==>
          h.minted[i].browser in h.flows
          && h.flows[h.minted[i].browser].finalized == Some(h.minted[i].grant)
          && h.minted[i].grant.code in h.offered)
    && (forall i, j :: 0 <= i < j < |h.minted| ==>
          h.minted[i].browser != h.minted[j].browser && h.minted[i].grant.code != h.minted[j].grant.code)
    && (forall b :: b in h.flows && h.flows[b].finalized.Some? ==> Minted(b, h.flows[b].finalized.value) in h.minted)
    && (forall r :: r in h.replies ==> r.0 in h.flows && h.flows[r.0].finalized == Some(r.1))
  }

  /** Redeemed codes were minted, are gone from the store, and differ from each other. */
  ghost predicate RedeemSound(w: World) {
    && (forall c :: c in w.store.codes ==> CodeMinted(w.hist, c) && c !in w.hist.redeemed)
    && (forall c :: c in w.hist.redeemed ==> CodeMinted(w.hist, c))
    && (forall i, j :: 0 <= i < j < |w.hist.redeemed| ==> w.hist.redeemed[i] != w.hist.redeemed[j])
  }

  ghost predicate CodesSound(w: World) { MintSound(w.hist) && RedeemSound(w) }

  /** No request was granted anything, and no code was stored. */
  predicate GrantsNothing(s: Store, s': Store) {
    && (forall b :: b in s'.reqs ==> b in s.reqs && s'.reqs[b].value.finalized == s.reqs[b].value.finalized)
    && s'.codes.Keys <= s.codes.Keys
  }

  lemma BumpGrantsNothing(s: Store, now: int, k: IndexKey, browser: string, sender: string, mismatch: ClaimStatus)
    requires browser in s.reqs
    ensures GrantsNothing(s, Bump(s, now, k, browser, sender, mismatch).0)
  {
  }

  lemma ClaimGrantsNothing(s: Store, now: int, c: ClaimInput)
    ensures GrantsNothing(s, Claim(s, now, c).0)
  {
    var browser := ClaimCases(s, now, c);
    if browser in s.reqs {
      BumpGrantsNothing(s, now, IndexKey(c.session, c.userCode), browser, c.identity.lid, ModeMismatch);
      BumpGrantsNothing(s, now, IndexKey(c.session, c.userCode), browser, c.identity.lid, CommandMismatch);
    }
  }

  /** Only a finalization grants anything or stores a code. */
  lemma OnlyFinalizeMints(w: World, step: Step)
    requires Enabled(w, step) && !step.DoFinalize? && !step.DoCreate?
    ensures GrantsNothing(w.store, StoreAfter(w, step))
  {
    hide Claim, Stop, Transition, Finalize, Create, Dropped;
    match step
    case Drop(l) => DropGrantsNothing(w.store, l);
    case DoClaim(c) => ClaimGrantsNothing(w.store, w.now, c);
    case DoStop(sender, b) => StopGrantsNothing(w.store, w.now, sender, b);
    case DoTransition(at, b, c) => TransitionGrantsNothing(w.store, w.now, at, b, c);
    case _ =>
  }

  lemma DropGrantsNothing(s: Store, l: Lapse)
    ensures GrantsNothing(s, Dropped(s, l))
  {
  }

  lemma StopGrantsNothing(s: Store, now: int, sender: string, b: string)
    ensures GrantsNothing(s, Stop(s, now, sender, b).0)
  {
  }

  lemma TransitionGrantsNothing(s: Store, now: int, at: int, b: string, c: Change)
    ensures GrantsNothing(s, Transition(s, now, at, b, c).0)
  {
  }

  lemma NotedCodes(w: World, step: Step)
    requires !step.DoFinalize?
    ensures var h, h' := w.hist, Noted(w, step);
            && h'.minted == h.minted && h'.offered == h.offered
            && (!step.DoReload? ==> h'.replies == h.replies)
            && (!step.DoRedeem? ==> h'.redeemed == h.redeemed)
  {
    hide Claim, Redeem, Create, OpenWindow, NoteClaim, NoteReload;
    match step
    case DoClaim(c) => ClaimNotes(w.hist, w.store, Claim(w.store, w.now, c).0, w.now, c, Claim(w.store, w.now, c).1);
    case DoWrongCode(sender) => WindowNotes(w.hist, w.store, w.now, sender);
    case DoReload(at, b) => ReloadNotes(w.hist, w.store, at, b);
    case _ =>
  }

  /** A history whose flows only moved forward without new grants keeps MintSound. */
  lemma MintKept(w: World, w': World)
    requires Tracked(w) && Shaped(w) && MintSound(w.hist) && Extends(w, w')
    requires w'.hist.minted == w.hist.minted && w'.hist.offered == w.hist.offered
    requires forall b :: b in w'.hist.flows ==>
      w'.hist.flows[b].finalized == if b in w.hist.flows then w.hist.flows[b].finalized else None
    requires forall r :: r in w'.hist.replies ==>
      r in w.hist.replies || (r.0 in w.hist.flows && w.hist.flows[r.0].finalized == Some(r.1))
    ensures MintSound(w'.hist)
  {
  }

  lemma MintOther(w: World, step: Step)
    requires Tracked(w) && Shaped(w) && MintSound(w.hist) && Enabled(w, step) && !step.DoFinalize? && !step.DoCreate?
    ensures MintSound(Apply(w, step).hist)
  {
    hide MintSound, Shaped, Claim, Create, Transition, Stop, NoteClaim, OpenWindow, Bound, Extends;
    var w' := Apply(w, step);
    FlowStep(w, step);
    OnlyFinalizeMints(w, step);
    NotedCodes(w, step);
    assert w'.hist.flows.Keys == w.hist.flows.Keys;
    assert w'.store == StoreAfter(w, step);
    MintKept(w, w');
  }

  lemma CreateGrantsNothing(w: World, step: Step)
    requires Tracked(w) && Shaped(w) && Enabled(w, step) && step.DoCreate?
    ensures var f, f' := w.hist.flows, Apply(w, step).hist.flows;
            forall b :: b in f' ==> if b in f then f'[b].finalized == f[b].finalized else f'[b].finalized.None?
  {
    hide Claim, Finalize, Stop, Transition, Redeem, WrongCode, Noted, Enabled;
    assert Fresh(step.p) && step.browser !in w.hist.flows by { FreshOnly(w, step); }
  }

  lemma FreshOnly(w: World, step: Step)
    requires Enabled(w, step) && step.DoCreate?
    ensures Fresh(step.p) && step.browser !in w.hist.flows
  {
  }

  lemma MintCreate(w: World, step: Step)
    requires Tracked(w) && Shaped(w) && MintSound(w.hist) && Enabled(w, step) && step.DoCreate?
    ensures MintSound(Apply(w, step).hist)
  {
    hide Claim, Finalize, Stop, Transition, Redeem, WrongCode, Shaped, MintSound, Overlay, Tracked, Extends;
    FlowStep(w, step);
    NotedCodes(w, step);
    CreateGrantsNothing(w, step);
    MintKept(w, Apply(w, step));
  }

  /** The finalization that wins mints the one code of its flow. */
  lemma MintNew(h: History, h': History, b: string, g: Grant)
    requires MintSound(h) && b in h.flows && h.flows[b].finalized.None? && g.code !in h.offered
    requires h' == h.(flows := h'.flows, offered := h.offered + {g.code}, minted := h.minted + [Minted(b, g)],
                      replies := h.replies + {(b, g)}, payloads := h'.payloads)
    requires h'.flows == h.flows[b := h.flows[b].(status := Finalized, finalized := Some(g))]
    ensures MintSound(h')
  {
    assert h'.minted[|h.minted|] == Minted(b, g);
    forall x | x in h'.flows && h'.flows[x].finalized.Some?
      ensures Minted(x, h'.flows[x].finalized.value) in h'.minted
    {
      if x != b { assert Minted(x, h.flows[x].finalized.value) in h.minted; }
    }
  }

  lemma MintFinalize(w: World, step: Step)
    requires Tracked(w) && Shaped(w) && MintSound(w.hist) && Enabled(w, step) && step.DoFinalize?
    requires Finalizable(w.store, step.at, step.browser)
    ensures MintSound(Apply(w, step).hist)
  {
    hide MintSound;
    FinalizeNoted(w, step);
    hide Apply;
    MintNew(w.hist, Apply(w, step).hist, step.browser, step.grant);
  }

  lemma MintsNote(h: History, s: Store, at: int, b: string, g: Grant, a: AuthCode)
    requires Finalizable(s, at, b)
    ensures var r, s' := s.reqs[b], Finalize(s, at, b, g, a).0;
            && s'.codes == s.codes[g.code := Key(a, a.expiresAt)]
            && s'.reqs == s.reqs[b := Key(r.value.(status := Finalized, finalized := Some(g)), r.value.expiresAt)]
            && NoteFinalize(h, s, at, b, g, a)
               == h.(offered := h.offered + {g.code}, minted := h.minted + [Minted(b, g)],
                     replies := h.replies + {(b, g)}, payloads := h.payloads[g.code := a])
  {
  }

  /** The history after the finalization that wins. */
  lemma FinalizeNoted(w: World, step: Step)
    requires Tracked(w) && Shaped(w) && Enabled(w, step) && step.DoFinalize?
             && Finalizable(w.store, step.at, step.browser)
    ensures var h, h', b, g := w.hist, Apply(w, step).hist, step.browser, step.grant;
            && b in h.flows && h.flows[b].finalized.None? && g.code !in h.offered
            && h' == h.(flows := h'.flows, offered := h.offered + {g.code}, minted := h.minted + [Minted(b, g)],
                        replies := h.replies + {(b, g)}, payloads := h.payloads[g.code := step.auth])
            && h'.flows == h.flows[b := h.flows[b].(status := Finalized, finalized := Some(g))]
            && Apply(w, step).store.codes == w.store.codes[g.code := Key(step.auth, step.auth.expiresAt)]
  {
    hide Finalize, NoteFinalize, Overlay, Bound;
    MintsNote(w.hist, w.store, step.at, step.browser, step.grant, step.auth);
    OverlayWrite(w, Apply(w, step).store, step.browser, Apply(w, step).store.reqs[step.browser]);
  }

  lemma ReplaysNote(h: History, s: Store, at: int, b: string, g: Grant, a: AuthCode)
    requires !Finalizable(s, at, b)
    ensures var h' := NoteFinalize(h, s, at, b, g, a);
            && Finalize(s, at, b, g, a).0 == s && h' == h.(offered := h.offered + {g.code}, replies := h'.replies)
            && (h'.replies == h.replies
                || (b in s.reqs && s.reqs[b].value.finalized.Some?
                    && h'.replies == h.replies + {(b, s.reqs[b].value.finalized.value)}))
  {
  }

  lemma FinalizeAgainNoted(w: World, step: Step)
    requires Tracked(w) && Shaped(w) && Enabled(w, step) && step.DoFinalize?
             && !Finalizable(w.store, step.at, step.browser)
    ensures var h, h', b, g := w.hist, Apply(w, step).hist, step.browser, step.grant;
            && Apply(w, step).store == w.store && h'.flows == h.flows
            && h' == h.(offered := h.offered + {g.code}, replies := h'.replies)
            && (h'.replies == h.replies
                || (b in h.flows && h.flows[b].finalized.Some?
                    && h'.replies == h.replies + {(b, h.flows[b].finalized.value)}))
  {
    hide Finalize, NoteFinalize, Overlay, Bound, Finalizable;
    ReplaysNote(w.hist, w.store, step.at, step.browser, step.grant, step.auth);
    OverlaySame(w, Apply(w, step).store);
  }

  lemma MintAgain(h: History, h': History, b: string, code: string)
    requires MintSound(h) && h' == h.(offered := h.offered + {code}, replies := h'.replies)
    requires h'.replies == h.replies
             || (b in h.flows && h.flows[b].finalized.Some?
                 && h'.replies == h.replies + {(b, h.flows[b].finalized.value)})
    ensures MintSound(h')
  {
  }

  lemma MintFinalizeAgain(w: World, step: Step)
    requires Tracked(w) && Shaped(w) && MintSound(w.hist) && Enabled(w, step) && step.DoFinalize?
    requires !Finalizable(w.store, step.at, step.browser)
    ensures MintSound(Apply(w, step).hist) && Apply(w, step).store == w.store
  {
    hide MintSound, Tracked, Shaped, Apply, Finalize, Finalizable;
    FinalizeAgainNoted(w, step);
    MintAgain(w.hist, Apply(w, step).hist, step.browser, step.grant.code);
  }

  lemma MintStep(w: World, step: Step)
    requires Tracked(w) && Shaped(w) && MintSound(w.hist)
    ensures MintSound(Apply(w, step).hist)
  {
    if Enabled(w, step) {
      if step.DoCreate? {
        MintCreate(w, step);
      } else if !step.DoFinalize? {
        MintOther(w, step);
      } else if Finalizable(w.store, step.at, step.browser) {
        MintFinalize(w, step);
      } else {
        MintFinalizeAgain(w, step);
      }
    }
  }

  lemma RedeemFinalize(w: World, w': World, b: string, g: Grant)
    requires CodesSound(w) && g.code !in w.hist.offered
    requires w'.hist.minted == w.hist.minted + [Minted(b, g)] && w'.hist.redeemed == w.hist.redeemed
    requires w'.store.codes.Keys == w.store.codes.Keys + {g.code}
    ensures RedeemSound(w')
  {
    assert w'.hist.minted[|w.hist.minted|].grant.code == g.code;
    forall c | CodeMinted(w.hist, c)
      ensures CodeMinted(w'.hist, c) && c in w.hist.offered
    {
      var i :| 0 <= i < |w.hist.minted| && w.hist.minted[i].grant.code == c;
      assert w'.hist.minted[i].grant.code == c;
    }
  }

  lemma RedeemRedeem(w: World, w': World, code: string)
    requires CodesSound(w) && w'.hist.minted == w.hist.minted
    requires w'.store.codes.Keys == w.store.codes.Keys - {code}
    requires w'.hist.redeemed == w.hist.redeemed
             || (code in w.store.codes && w'.hist.redeemed == w.hist.redeemed + [code])
    ensures RedeemSound(w')
  {
    hide MintSound;
    assert forall c :: CodeMinted(w.hist, c) ==> CodeMinted(w'.hist, c);
  }

  lemma RedeemKept(w: World, w': World)
    requires CodesSound(w) && w'.hist.minted == w.hist.minted && w'.hist.redeemed == w.hist.redeemed
    requires w'.store.codes.Keys <= w.store.codes.Keys
    ensures RedeemSound(w')
  {
    assert forall c :: CodeMinted(w.hist, c) ==> CodeMinted(w'.hist, c);
  }

  lemma RedeemOthers(w: World, step: Step)
    requires CodesSound(w) && Enabled(w, step) && !step.DoRedeem? && !step.DoFinalize? && !step.DoCreate?
    ensures RedeemSound(Apply(w, step))
  {
    hide Claim, Stop, Transition, WrongCode, Create, Finalize, RedeemSound, CodesSound, Overlay, Dropped;
    OnlyFinalizeMints(w, step);
    NotedCodes(w, step);
    RedeemKept(w, Apply(w, step));
  }

  lemma RedeemStep(w: World, step: Step)
    requires CodesSound(w)
    ensures RedeemSound(Apply(w, step))
  {
    hide Claim, Stop, Transition, WrongCode, MintSound, RedeemSound, Overlay, Dropped;
    if Enabled(w, step) {
      match step
      case DoRedeem(_, code) => RedeemRedeem(w, Apply(w, step), code);
      case DoCreate(_, _, _) => RedeemKept(w, Apply(w, step));
      case DoFinalize(at, b, g, _) =>
        if Finalizable(w.store, at, b) {
          RedeemFinalize(w, Apply(w, step), b, g);
        } else {
          RedeemKept(w, Apply(w, step));
        }
      case _ => RedeemOthers(w, step);
    }
  }

  lemma {:induction false} CodesRun(w: World, steps: seq<Step>)
    requires Tracked(w) && Shaped(w) && CodesSound(w)
    ensures CodesSound(Exec(w, steps))
    decreases |steps|
  {
    if steps != [] {
      FlowStep(w, steps[0]);
      MintStep(w, steps[0]);
      RedeemStep(w, steps[0]);
      CodesRun(Apply(w, steps[0]), steps[1..]);
    }
  }

  /**
   Whatever happens between its callers, a flow stores at most one authorization
   code, its codes are redeemed at most once altogether, a redeemed code is never
   in the store again, and every successful finalization of the flow was answered
   with the same grant.
   */
  lemma SingleUse(start: int, before: seq<Step>, after: seq<Step>)
    ensures var w := Exec(Init(start), before); var e := Exec(w, after);
            var m := e.hist.minted; var d := e.hist.redeemed;
            && (forall i, j :: 0 <= i < |m| && 0 <= j < |m| && m[i].browser == m[j].browser ==> i == j)
            && (forall x, y, i, j | 0 <= x < |m| && 0 <= y < |m| && 0 <= i < |d| && 0 <= j < |d| ::
                  m[x].grant.code == d[i] && m[y].grant.code == d[j] && m[x].browser == m[y].browser ==> i == j)
            && (forall c :: c in w.hist.redeemed ==> c !in e.store.codes)
            && (forall a, b :: a in e.hist.replies && b in e.hist.replies && a.0 == b.0 ==> a == b)
            && (forall a :: a in e.hist.replies ==> Minted(a.0, a.1) in m)
  {
    FlowRun(Init(start), before);
    CodesRun(Init(start), before);
    var w := Exec(Init(start), before);
    FlowRun(w, after);
    CodesRun(w, after);
    RedeemedStays(w, after);
  }

  lemma {:induction false} RedeemedStays(w: World, steps: seq<Step>)
    ensures forall c :: c in w.hist.redeemed ==> c in Exec(w, steps).hist.redeemed
    decreases |steps|
  {
    if steps != [] {
      RedeemedGrows(w, steps[0]);
      RedeemedStays(Apply(w, steps[0]), steps[1..]);
    }
  }

  lemma RedeemedGrows(w: World, step: Step)
    ensures forall c :: c in w.hist.redeemed ==> c in Apply(w, step).hist.redeemed
  {
    if step.DoFinalize? {
      assert Noted(w, step).redeemed == w.hist.redeemed;
    } else {
      NotedCodes(w, step);
    }
  }

  /**
   The comment on Finalize says a code collision changes neither record, but the
   script never looks at the code key. It leaves every stored code alone exactly
   when it does not move the request to finalized, or the code it brings is not
   in the store, or it happens to bring the very record already there; and it leaves
   everything alone exactly when it does not move the request, collision or not.
   */
  lemma FinalizeCollision(s: Store, at: int, browser: string, g: Grant, a: AuthCode)
    ensures var s' := Finalize(s, at, browser, g, a).0;
            (forall c :: c in s.codes ==> c in s'.codes && s'.codes[c] == s.codes[c])
            <==> (!Finalizable(s, at, browser) || g.code !in s.codes || s.codes[g.code] == Key(a, a.expiresAt))
    ensures Finalize(s, at, browser, g, a).0 == s <==> !Finalizable(s, at, browser)
  {
  }

  /** Two flows of one session, each created, claimed and finalized with the same code. */
  function Flow(client: string, userCode: string): Request {
    Request(client, "s", "https://" + client, "pkce", "dm", userCode, "login", Status.Pending, 0, None, None, 1000)
  }

  function Claimed(s: Store, userCode: string, at: int): Store {
    Claim(s, at, ClaimInput("s", userCode, "dm", "login", Identity("lid", "", "", "", None, at), at)).0
  }

  function Collided(): (s: Store) {
    var s1 := Create(EMPTY_STORE, 0, "b1", Flow("first", "111111")).0;
    var s2 := Create(s1, 0, "b2", Flow("second", "222222")).0;
    Claimed(Claimed(s2, "111111", 10), "222222", 20)
  }

  /** The first client's code, stored by its own finalization, then yields the second client's grant. */
  lemma FinalizeCollisionExample()
    ensures var mine := AuthCode("g1", "first", "https://first", "pkce", 90);
            var other := AuthCode("g2", "second", "https://second", "pkce", 95);
            var one := Finalize(Collided(), 30, "b1", Grant("c", "https://first?code=c"), mine);
            var two := Finalize(one.0, 40, "b2", Grant("c", "https://second?code=c"), other);
            && one.1.Some? && two.1.Some?
            && Redeem(one.0, 50, "c").1 == Ok(mine) && Redeem(two.0, 50, "c").1 == Ok(other)
  {
    var r1, r2 := Flow("first", "111111"), Flow("second", "222222");
    var k1, k2 := IndexKey("s", "111111"), IndexKey("s", "222222");
    assert "111111"[0] != "222222"[0];
    var s1 := Create(EMPTY_STORE, 0, "b1", r1).0;
    assert s1.reqs == map["b1" := Key(r1, 1000)] && s1.index == map[k1 := Key(Live("b1"), 1000)];
    var s2 := Create(s1, 0, "b2", r2).0;
    assert s2.reqs["b1"].value == r1 && s2.reqs["b2"].value == r2 && s2.index[k1].value == Live("b1");
    assert Lower("login") == "login";
    var s3 := Claimed(s2, "111111", 10);
    assert s3.reqs["b1"].value.status == Verified && s3.reqs["b2"].value == r2 && s3.index[k2].value == Live("b2");
    var s4 := Claimed(s3, "222222", 20);
    assert s4.reqs["b1"].value.status == Verified && s4.reqs["b2"].value.status == Verified;
  }
}
