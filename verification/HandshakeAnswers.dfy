/** What each script does and answers in a reachable world, by what the flow, the code and the sender are then. */
module HandshakeAnswers {
  import opened Wrappers
  import opened Pending
  import opened Handshake
  import opened HandshakeFlows
  import opened HandshakeIndex
  import opened HandshakeStops
  import opened HandshakePersistence

  // ---------- claims ----------

  const UPPER := "ABCDEFGHIJKLMNOPQRSTUVWXYZ"
  const LOWER := "abcdefghijklmnopqrstuvwxyz"

  /** Letter by letter: the 26 capitals become their small letters, everything else stays. */
  lemma LowerSpelled(s: string, i: nat)
    requires i < |s|
    ensures |Lower(s)| == |s|
    ensures forall j | 0 <= j < 26 :: s[i] == UPPER[j] ==> Lower(s)[i] == LOWER[j]
    ensures s[i] !in UPPER ==> Lower(s)[i] == s[i]
  {
    var c := s[i];
    if 'A' <= c <= 'Z' { Capitals(c); }
    forall j | 0 <= j < 26 && c == UPPER[j] ensures Lower(s)[i] == LOWER[j] { Letters(j); }
  }

  lemma Capitals(c: char)
    requires 'A' <= c <= 'Z'
    ensures c == UPPER[c as int - 65]
  {
  }

  lemma Letters(j: nat)
    requires j < 26
    ensures 'A' <= UPPER[j] <= 'Z' && LOWER[j] == UPPER[j] + ' '
  {
  }

  /** How often the sender's counter has been incremented in its present window. */
  function Tries(s: Store, sender: string): nat { if sender in s.wrong then s.wrong[sender].value else 0 }

  /** The code leads to a request that is there and in time. */
  predicate Leads(s: Store, c: ClaimInput) {
    var k := IndexKey(c.session, c.userCode);
    && k in s.index && s.index[k].value.Live? && s.index[k].value.browser in s.reqs
    && c.at < s.reqs[s.index[k].value.browser].value.expiresAt
  }

  function Target(s: Store, c: ClaimInput): string
    requires Leads(s, c)
  {
    s.index[IndexKey(c.session, c.userCode)].value.browser
  }

  lemma DeadEnd(w: World, c: ClaimInput)
    requires Tracked(w) && !Leads(w.store, c)
    ensures var k := IndexKey(c.session, c.userCode); var answer := Claim(w.store, w.now, c);
            && answer.1.status
                 == (if k in w.store.index && w.store.index[k].value.Used? then AlreadyUsed else Is(Expired))
            && answer.0.reqs == w.store.reqs && answer.0.wrong == w.store.wrong
  {
  }

  lemma WinStores(w: World, c: ClaimInput)
    requires Tracked(w) && IndexSound(w) && Leads(w.store, c)
    requires var r := w.store.reqs[Target(w.store, c)].value; r.mode == c.mode && Lower(r.command) == c.command
    ensures var b, k := Target(w.store, c), IndexKey(c.session, c.userCode); var r := w.store.reqs[b].value;
            var until := if r.expiresAt <= c.at + VERIFIED_GRACE_MS then r.expiresAt else c.at + VERIFIED_GRACE_MS;
            var marked := if until <= c.at + USED_MARKER_MS then until else c.at + USED_MARKER_MS;
            var answer := Claim(w.store, w.now, c);
            var won := r.(status := Verified, verified := Some(c.identity), expiresAt := until);
            && answer.1 == ClaimResult(Is(Verified), b, r.client, r.attempts)
            && answer.0.reqs == w.store.reqs[b := Key(won, until)]
            && answer.0.index == w.store.index[k := Key(Used(b), marked)]
            && answer.0.wrong == w.store.wrong
  {
  }

  lemma MissStores(w: World, c: ClaimInput)
    requires Tracked(w) && IndexSound(w) && Leads(w.store, c)
    requires var r := w.store.reqs[Target(w.store, c)].value; !(r.mode == c.mode && Lower(r.command) == c.command)
    ensures var b := Target(w.store, c); var r, n := w.store.reqs[b].value, Tries(w.store, c.identity.lid);
            var answer := Claim(w.store, w.now, c);
            && Tries(answer.0, c.identity.lid) == n + 1
            && (n >= SENDER_LIMIT ==> answer.1.status == RateLimited && answer.0.reqs == w.store.reqs)
            && (n < SENDER_LIMIT ==>
                  var last := r.attempts + 1 >= ATTEMPT_LIMIT;
                  var tried := r.(attempts := r.attempts + 1, status := if last then Denied else Pending);
                  && answer.1.attempts == r.attempts + 1
                  && answer.0.reqs == w.store.reqs[b := Key(tried, r.expiresAt)]
                  && answer.1.status == if last then Is(Denied)
                                        else if r.mode != c.mode then ModeMismatch else CommandMismatch)
  {
    hide Lower, Tracked;
    KnownTarget(w, c);
  }

  lemma KnownTarget(w: World, c: ClaimInput)
    requires Tracked(w) && IndexSound(w) && Leads(w.store, c)
    ensures var r := w.store.reqs[Target(w.store, c)].value;
            r.status == Pending && IndexOf(r) == IndexKey(c.session, c.userCode)
  {
  }

  lemma FlowsAfter(w: World, c: ClaimInput)
    requires Enabled(w, DoClaim(c))
    ensures Apply(w, DoClaim(c)).store == Claim(w.store, w.now, c).0
    ensures Apply(w, DoClaim(c)).hist.flows == Overlay(w.hist.flows, Claim(w.store, w.now, c).0.reqs)
  {
  }

  /** What should become of the flows, and what the answer should be. */
  predicate Due(w: World, c: ClaimInput, f': map<string, Request>, answer: ClaimResult) {
    var f, k := w.hist.flows, IndexKey(c.session, c.userCode);
    if !Leads(w.store, c) then
      f' == f && answer.status == if k in w.store.index && w.store.index[k].value.Used? then AlreadyUsed
      else Is(Expired)
    else
      var b := Target(w.store, c);
      && b in f && f[b].status == Pending && IndexOf(f[b]) == k
      && if f[b].mode == c.mode && Lower(f[b].command) == c.command then
           var grace := c.at + 180_000;
           && answer.status == Is(Verified) && answer.browser == b
           && f' == f[b := f[b].(status := Verified, verified := Some(c.identity),
                                 expiresAt := if f[b].expiresAt <= grace then f[b].expiresAt else grace)]
         else if Tries(w.store, c.identity.lid) >= 5 then
           answer.status == RateLimited && f' == f
         else
           var last := f[b].attempts == 9;
           && f' == f[b := f[b].(attempts := f[b].attempts + 1, status := if last then Denied else Pending)]
           && answer.status == if last then Is(Denied)
                               else if f[b].mode != c.mode then ModeMismatch else CommandMismatch
  }

  lemma DueAt(w: World, c: ClaimInput)
    requires Tracked(w) && Shaped(w) && IndexSound(w) && c.at <= w.now
    ensures Due(w, c, Overlay(w.hist.flows, Claim(w.store, w.now, c).0.reqs), Claim(w.store, w.now, c).1)
  {
    hide Claim, Lower, IndexSound, Overlay, Tracked, Shaped, IndexOf, Tries, Target;
    if !Leads(w.store, c) {
      DeadEnd(w, c);
      OverlaySame(w, Claim(w.store, w.now, c).0);
    } else {
      LeadsSoundly(w, c);
      var r := w.store.reqs[Target(w.store, c)].value;
      if r.mode == c.mode && Lower(r.command) == c.command { WinFlows(w, c); } else { MissFlows(w, c); }
    }
  }

  /**
   Every claim there can be. A used code is answered "already used". A code that leads nowhere, or to a request
   past its deadline, is answered "expired". Otherwise the right mode and command win: the flow takes the
   sender's identity and its deadline the grace. The wrong ones count against the sender, and within the
   sender's five in a window against the request, which the tenth denies. No other flow is touched.
   */
  lemma ClaimExact(start: int, steps: seq<Step>, c: ClaimInput)
    requires Enabled(Exec(Init(start), steps), DoClaim(c))
    ensures var w := Exec(Init(start), steps);
            Due(w, c, Apply(w, DoClaim(c)).hist.flows, Claim(w.store, w.now, c).1)
  {
    IndexAlwaysSound(start, steps);
    FlowRun(Init(start), steps);
    var w := Exec(Init(start), steps);
    FlowsAfter(w, c);
    hide Exec, Claim, Due, IndexSound, Overlay, Apply, Tracked, Shaped;
    DueAt(w, c);
  }

  lemma WinFlows(w: World, c: ClaimInput)
    requires Tracked(w) && Shaped(w) && IndexSound(w) && Leads(w.store, c) && c.at <= w.now
    requires var r := w.store.reqs[Target(w.store, c)].value; r.mode == c.mode && Lower(r.command) == c.command
    ensures var b := Target(w.store, c); var f, answer := w.hist.flows, Claim(w.store, w.now, c);
            var grace := c.at + VERIFIED_GRACE_MS;
            && b in f && answer.1.status == Is(Verified) && answer.1.browser == b
            && Overlay(f, answer.0.reqs)
               == f[b := f[b].(status := Verified, verified := Some(c.identity),
                               expiresAt := if f[b].expiresAt <= grace then f[b].expiresAt else grace)]
  {
    hide Claim, Lower, IndexSound, Overlay, Tracked, Shaped;
    LeadsSoundly(w, c);
    WinStores(w, c);
    var b, s' := Target(w.store, c), Claim(w.store, w.now, c).0;
    OverlayWrite(w, s', b, s'.reqs[b]);
  }

  lemma MissFlows(w: World, c: ClaimInput)
    requires Tracked(w) && Shaped(w) && IndexSound(w) && Leads(w.store, c)
    requires var r := w.store.reqs[Target(w.store, c)].value; !(r.mode == c.mode && Lower(r.command) == c.command)
    ensures var b := Target(w.store, c); var f, answer := w.hist.flows, Claim(w.store, w.now, c);
            && b in f
            && if Tries(w.store, c.identity.lid) >= 5 then
                 answer.1.status == RateLimited && Overlay(f, answer.0.reqs) == f
               else
                 var last := f[b].attempts == 9;
                 && Overlay(f, answer.0.reqs)
                    == f[b := f[b].(attempts := f[b].attempts + 1, status := if last then Denied else Pending)]
                 && answer.1.status == if last then Is(Denied)
                                       else if f[b].mode != c.mode then ModeMismatch else CommandMismatch
  {
    hide Claim, Lower, IndexSound, Overlay, Tracked, Shaped;
    LeadsSoundly(w, c);
    MissStores(w, c);
    var b, s' := Target(w.store, c), Claim(w.store, w.now, c).0;
    if Tries(w.store, c.identity.lid) >= 5 { OverlaySame(w, s'); } else { OverlayWrite(w, s', b, s'.reqs[b]); }
  }

  lemma LeadsSoundly(w: World, c: ClaimInput)
    requires Tracked(w) && Shaped(w) && IndexSound(w) && Leads(w.store, c)
    ensures var b := Target(w.store, c);
            && b in w.hist.flows && b in w.store.reqs && w.hist.flows[b] == w.store.reqs[b].value
            && w.hist.flows[b].status == Pending && IndexOf(w.hist.flows[b]) == IndexKey(c.session, c.userCode)
            && w.hist.flows[b].attempts < ATTEMPT_LIMIT
  {
    assert WellFormed(w.hist.flows[Target(w.store, c)], w.hist.deadlines[Target(w.store, c)]);
  }

  /** The used marker of a code that won: until the flow's deadline, and no longer than a minute. */
  lemma UsedMarker(start: int, steps: seq<Step>, c: ClaimInput)
    requires var w := Exec(Init(start), steps);
             Enabled(w, DoClaim(c)) && Claim(w.store, w.now, c).1.status == Is(Verified)
    ensures var w' := Apply(Exec(Init(start), steps), DoClaim(c)); var k := IndexKey(c.session, c.userCode);
            && k in w'.store.index && w'.store.index[k].value.Used?
            && var b := w'.store.index[k].value.browser;
               && b in w'.hist.flows && w'.hist.flows[b].verified == Some(c.identity)
               && w'.store.index[k].expireAt == Min(w'.hist.flows[b].expiresAt, c.at + 60_000)
  {
    IndexAlwaysSound(start, steps);
    FlowRun(Init(start), steps);
    var w := Exec(Init(start), steps);
    hide Exec, Claim, Lower, IndexSound, Overlay;
    ClaimExact(start, steps, c);
    LeadsSoundly(w, c);
    WinStores(w, c);
    FlowsAfter(w, c);
  }

  /** A code that nobody was given counts like a miss: the sixth in a window is refused as too many. */
  lemma WrongCodeExact(w: World, sender: string)
    ensures var w' := Apply(w, DoWrongCode(sender)); var n := Tries(w.store, sender);
            && Tries(w'.store, sender) == n + 1
            && WrongCode(w.store, w.now, sender).1.status == (if n >= 5 then RateLimited else Wrong)
            && (forall x | x != sender :: Tries(w'.store, x) == Tries(w.store, x))
            && w'.store.reqs == w.store.reqs
  {
    hide Claim, Finalize, Stop, Transition, Redeem, NoteFinalize, NoteReload, NoteClaim;
  }

  // ---------- STOP, closing, finalizing ----------

  lemma StopStores(w: World, sender: string, b: string)
    requires Enabled(w, DoStop(sender, b))
    ensures var w' := Apply(w, DoStop(sender, b)); var status := Stop(w.store, w.now, sender, b).1.status;
            && w'.store == Stop(w.store, w.now, sender, b).0
            && w'.hist.flows == Overlay(w.hist.flows, w'.store.reqs)
            && (b in w.store.reqs && w.store.reqs[b].value.status == Verified ==>
                  && status == Is(Denied)
                  && w'.store.reqs == w.store.reqs[b := Key(w.store.reqs[b].value.(status := Denied), w.now + 300_000)]
                  && IndexOf(w.store.reqs[b].value) !in w'.store.index && sender !in w'.store.stops
                  && (sender, b) in w'.store.blocks && w'.store.blocks[(sender, b)] == w.now + 300_000)
            && (!(b in w.store.reqs && w.store.reqs[b].value.status == Verified) ==>
                  && w'.store == w.store
                  && status == Is(if b in w.store.reqs then w.store.reqs[b].value.status else Expired))
  {
    hide Claim, Finalize, Transition, Redeem, WrongCode;
  }

  /**
   A STOP denies the flow it is for exactly when that flow is verified and there, and then removes
   code and pointer.
   */
  lemma StopExact(start: int, steps: seq<Step>, sender: string, browser: string)
    requires Enabled(Exec(Init(start), steps), DoStop(sender, browser))
    ensures var w := Exec(Init(start), steps); var w' := Apply(w, DoStop(sender, browser));
            var f := w.hist.flows; var status := Stop(w.store, w.now, sender, browser).1.status;
            && browser in f
            && (browser in w.store.reqs && f[browser].status == Verified ==>
                  && status == Is(Denied) && w'.hist.flows == f[browser := f[browser].(status := Denied)]
                  && IndexOf(f[browser]) !in w'.store.index && sender !in w'.store.stops
                  && (sender, browser) in w'.store.blocks && w'.store.blocks[(sender, browser)] == w.now + 300_000)
            && (!(browser in w.store.reqs && f[browser].status == Verified) ==>
                  w'.store == w.store && w'.hist.flows == f
                  && status == Is(if browser in w.store.reqs then f[browser].status else Expired))
            && (f[browser].status == Verified && w.now < f[browser].expiresAt ==> browser in w.store.reqs)
  {
    hide Overlay, Stop, WinSound, Exec;
    WinRun(Init(start), steps);
    FlowRun(Init(start), steps);
    FlowsPersist(start, steps, browser);
    var w := Exec(Init(start), steps);
    SeenFlow(w, sender, browser);
    StopStores(w, sender, browser);
    var s' := Apply(w, DoStop(sender, browser)).store;
    hide Apply, Load;
    if browser in w.store.reqs && w.hist.flows[browser].status == Verified {
      OverlayWrite(w, s', browser, s'.reqs[browser]);
    } else {
      OverlaySame(w, s');
    }
  }

  lemma SeenFlow(w: World, sender: string, browser: string)
    requires WinSound(w) && Enabled(w, DoStop(sender, browser))
    ensures browser in w.hist.flows
  {
    assert Win(sender, browser) in w.hist.wins by { assert (sender, browser) in w.hist.seen; }
    var i :| 0 <= i < |w.hist.wins| && w.hist.wins[i] == Win(sender, browser);
  }

  /** The filters: an empty one lets everything through. */
  predicate Meant(r: Request, c: Change) {
    && (c.session != "" ==> r.session == c.session) && (c.client != "" ==> r.client == c.client)
    && (r.status == Pending || (r.status == Verified && c.allowVerified))
  }

  lemma TransitionStores(w: World, at: int, b: string, c: Change)
    requires Enabled(w, DoTransition(at, b, c))
    ensures var w' := Apply(w, DoTransition(at, b, c));
            && w'.hist.flows == Overlay(w.hist.flows, w'.store.reqs)
            && if b in w.store.reqs && Meant(w.store.reqs[b].value, c) then
                 var r := w.store.reqs[b].value;
                 var until := if c.retain > 0 then w.now + c.retain
                              else if at < r.expiresAt then r.expiresAt else w.now + 60_000;
                 && Transition(w.store, w.now, at, b, c).1 == 2
                 && w'.store.reqs == w.store.reqs[b := Key(r.(status := c.target), until)]
                 && IndexOf(r) !in w'.store.index
               else
                 w'.store == w.store && Transition(w.store, w.now, at, b, c).1 != 2
  {
    hide Claim, Finalize, Stop, Redeem, WrongCode;
  }

  /**
   Closing a flow takes effect exactly on one that is there, passes the filters and is pending, or verified
   where that is allowed; with no filters every pending one is closed, and one in time is always there. The
   closed record stays for as long as asked, or else until its deadline or for a minute.
   */
  lemma TransitionExact(start: int, steps: seq<Step>, at: int, browser: string, c: Change)
    requires Enabled(Exec(Init(start), steps), DoTransition(at, browser, c))
    ensures var w := Exec(Init(start), steps); var w' := Apply(w, DoTransition(at, browser, c)); var f := w.hist.flows;
            && (browser in w.store.reqs ==> browser in f)
            && (Transition(w.store, w.now, at, browser, c).1 == 2 <==> browser in w.store.reqs && Meant(f[browser], c))
            && (browser in w.store.reqs && Meant(f[browser], c) ==>
                  && w'.hist.flows == f[browser := f[browser].(status := c.target)]
                  && IndexOf(f[browser]) !in w'.store.index
                  && browser in w'.store.reqs
                  && w'.store.reqs[browser].expireAt == if c.retain > 0 then w.now + c.retain
                                                        else if at < f[browser].expiresAt then f[browser].expiresAt
                                                        else w.now + 60_000)
            && (!(browser in w.store.reqs && Meant(f[browser], c)) ==> w'.store == w.store && w'.hist.flows == f)
            && (browser in f && IsOpen(f[browser]) && w.now < f[browser].expiresAt ==> browser in w.store.reqs)
  {
    hide Overlay, Transition, Exec;
    FlowRun(Init(start), steps);
    FlowsPersist(start, steps, browser);
    var w := Exec(Init(start), steps);
    TransitionStores(w, at, browser, c);
    var s' := Apply(w, DoTransition(at, browser, c)).store;
    hide Apply, Load, Meant;
    if browser in w.store.reqs && Meant(w.hist.flows[browser], c) {
      OverlayWrite(w, s', browser, s'.reqs[browser]);
    } else {
      OverlaySame(w, s');
    }
  }

  lemma FinalizeStores(w: World, at: int, b: string, g: Grant, a: AuthCode)
    requires Enabled(w, DoFinalize(at, b, g, a))
    ensures var w' := Apply(w, DoFinalize(at, b, g, a)); var answer := Finalize(w.store, at, b, g, a).1;
            && w'.hist.flows == Overlay(w.hist.flows, w'.store.reqs)
            && if b in w.store.reqs && at < w.store.reqs[b].value.expiresAt
                  && w.store.reqs[b].value.status == Verified then
                 var r := w.store.reqs[b].value.(status := Finalized, finalized := Some(g));
                 && answer == Some(r) && w'.store.reqs == w.store.reqs[b := Key(r, r.expiresAt)]
                 && w'.store.codes == w.store.codes[g.code := Key(a, a.expiresAt)]
               else
                 && w'.store == w.store
                 && answer == if b in w.store.reqs && at < w.store.reqs[b].value.expiresAt
                                 && w.store.reqs[b].value.status == Finalized
                              then Some(w.store.reqs[b].value) else None
  {
    hide Claim, Transition, Stop, Redeem, WrongCode, Bound;
  }

  /**
   Finalizing succeeds exactly while the flow is verified or finalized, there, and in time by the caller's clock.
   The first time it brings the grant; after that it is answered with the grant of the first time and changes
   nothing. By an accurate clock such a flow is always there.
   */
  lemma FinalizeExact(start: int, steps: seq<Step>, at: int, browser: string, g: Grant, a: AuthCode)
    requires Enabled(Exec(Init(start), steps), DoFinalize(at, browser, g, a))
    ensures var w := Exec(Init(start), steps); var w' := Apply(w, DoFinalize(at, browser, g, a)); var f := w.hist.flows;
            var answer := Finalize(w.store, at, browser, g, a).1;
            && (browser in w.store.reqs ==> browser in f)
            && (answer.Some? <==>
                  && browser in w.store.reqs && at < f[browser].expiresAt
                  && (f[browser].status == Verified || f[browser].status == Finalized))
            && (answer.Some? ==>
                  && answer.value.finalized == (if f[browser].status == Verified then Some(g) else f[browser].finalized)
                  && answer.value.finalized.Some?
                  && w'.hist.flows == f[browser := answer.value] && answer.value.status == Finalized
                  && (f[browser].status == Verified ==>
                        w'.store.codes == w.store.codes[g.code := Key(a, a.expiresAt)])
                  && (f[browser].status == Finalized ==> w'.store == w.store))
            && (answer.None? ==> w'.store == w.store && w'.hist.flows == f)
            && (browser in f && f[browser].status in {Verified, Finalized} && w.now < f[browser].expiresAt ==>
                  browser in w.store.reqs)
  {
    hide Overlay, Finalize, Exec, WellFormed;
    FlowRun(Init(start), steps);
    FlowsPersist(start, steps, browser);
    var w := Exec(Init(start), steps);
    FinalizeStores(w, at, browser, g, a);
    var w' := Apply(w, DoFinalize(at, browser, g, a));
    hide Apply, Load;
    if browser in w.store.reqs {
      assert WellFormed(w.hist.flows[browser], w.hist.deadlines[browser]);
      FinalizedHasGrant(w.hist.flows[browser], w.hist.deadlines[browser]);
    }
    if w'.store == w.store {
      OverlaySame(w, w'.store);
    } else {
      OverlayWrite(w, w'.store, browser, w'.store.reqs[browser]);
    }
  }

  lemma FinalizedHasGrant(r: Request, deadline: int)
    requires WellFormed(r, deadline)
    ensures r.status == Finalized ==> r.finalized.Some?
  {
  }

  /** The winner of a flow can stop it until it is finalized or over: remember, read back, and deny. */
  lemma StopFollowsWin(start: int, steps: seq<Step>, sender: string, browser: string)
    requires var w := Exec(Init(start), steps);
             && Win(sender, browser) in w.hist.wins && browser in w.hist.flows
             && w.hist.flows[browser].status == Verified && w.now < w.hist.flows[browser].expiresAt
    ensures var w := Exec(Init(start), steps);
            var kept := Apply(w, DoRemember(sender, browser));
            var read := Apply(kept, DoReadStop(sender));
            && sender in kept.store.stops && kept.store.stops[sender] == Key(browser, w.now + 600_000)
            && Enabled(read, DoStop(sender, browser))
            && var e := Apply(read, DoStop(sender, browser));
               browser in e.hist.flows && e.hist.flows[browser] == w.hist.flows[browser].(status := Denied)
  {
    hide Overlay, Exec, Shaped, Enabled, Load, Stop;
    FlowRun(Init(start), steps);
    FlowsPersist(start, steps, browser);
    var w := Exec(Init(start), steps);
    PointerRead(w, sender, browser);
    var read := Apply(Apply(w, DoRemember(sender, browser)), DoReadStop(sender));
    StopStores(read, sender, browser);
    var e := Apply(read, DoStop(sender, browser));
    hide Apply;
    OverlayWrite(read, e.store, browser, e.store.reqs[browser]);
  }

  lemma PointerRead(w: World, sender: string, browser: string)
    requires Tracked(w) && Win(sender, browser) in w.hist.wins
    ensures var kept := Apply(w, DoRemember(sender, browser)); var read := Apply(kept, DoReadStop(sender));
            && kept.store == w.store.(stops := w.store.stops[sender := Key(browser, w.now + 600_000)])
            && read.store == kept.store && read.now == w.now && read.hist.flows == w.hist.flows && Tracked(read)
            && Enabled(read, DoStop(sender, browser))
  {
    hide Claim, Finalize, Transition, Redeem, WrongCode, Overlay, NoteFinalize, NoteReload, NoteClaim;
    var kept := Apply(w, DoRemember(sender, browser));
    OverlaySame(w, kept.store);
    OverlaySame(kept, kept.store);
  }
}
