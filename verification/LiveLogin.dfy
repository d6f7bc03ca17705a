/**
 The callers of the handshake: a login or STOP message, and the finalize request, with others acting
 between their calls.
 */
module LiveLogin {
  import opened Wrappers
  import opened Pending
  import opened Handshake
  import opened HandshakeFlows
  import opened HandshakeCodes
  import opened HandshakeStops
  import opened HandshakeAnswers
  import opened HandshakeBinding
  import opened PendingScans

  /** What later histories keep. */
  predicate Keeps(h: History, h': History) { h.wins <= h'.wins && h.seen <= h'.seen && h.replies <= h'.replies }

  /** What later worlds keep of the clock and the history. */
  predicate Grows(w: World, w': World) {
    w.now <= w'.now && Keeps(w.hist, w'.hist)
  }

  lemma ClaimGrows(h: History, s: Store, s': Store, now: int, c: ClaimInput, r: ClaimResult)
    ensures Keeps(h, NoteClaim(h, s, s', now, c, r))
  {
  }

  lemma RepliesGrow(h: History, s: Store, at: int, b: string, g: Grant, a: AuthCode)
    ensures Keeps(h, NoteReload(h, s, at, b)) && Keeps(h, NoteFinalize(h, s, at, b, g, a))
  {
    hide Load, Finalize;
  }

  lemma StepGrows(w: World, step: Step)
    ensures Grows(w, Apply(w, step))
  {
    hide StoreAfter, Overlay, Claim, Finalize, Create, Load, Redeem, Enabled, NoteFinalize, NoteReload, NoteClaim;
    match step
    case DoClaim(c) => ClaimGrows(w.hist, w.store, Claim(w.store, w.now, c).0, w.now, c, Claim(w.store, w.now, c).1);
    case DoReload(at, b) => RepliesGrow(w.hist, w.store, at, b, Grant("", ""), AuthCode("", "", "", "", 0));
    case DoFinalize(at, b, g, a) => RepliesGrow(w.hist, w.store, at, b, g, a);
    case _ =>
  }

  lemma {:induction false} RunGrows(w: World, steps: seq<Step>)
    ensures Grows(w, Exec(w, steps))
    decreases |steps|
  {
    hide Apply;
    if steps != [] {
      StepGrows(w, steps[0]);
      RunGrows(Apply(w, steps[0]), steps[1..]);
    }
  }

  lemma OneStep(w: World, step: Step)
    ensures Exec(w, [step]) == Apply(w, step)
  {
    hide Apply;
    assert [step][1..] == [];
    assert Exec(Apply(w, step), []) == Apply(w, step);
  }

  /** What a winning claim leaves in the history. */
  lemma WinNoted(w: World, c: ClaimInput)
    requires Enabled(w, DoClaim(c)) && Claim(w.store, w.now, c).1.status == Is(Verified)
    ensures Win(c.identity.lid, Claim(w.store, w.now, c).1.browser) in Apply(w, DoClaim(c)).hist.wins
  {
    var b := ClaimCases(w.store, w.now, c);
  }

  lemma ReplyNoted(w: World, at: int, browser: string, g: Grant, a: AuthCode)
    requires Enabled(w, DoFinalize(at, browser, g, a))
    ensures var r := Finalize(w.store, at, browser, g, a).1;
            r.Some? && r.value.finalized.Some? ==>
              (browser, r.value.finalized.value) in Apply(w, DoFinalize(at, browser, g, a)).hist.replies
  {
  }

  /** What a command sent to Redis adds to the run. */
  function Sent(step: Step, reply: Reply): seq<Step> { if reply == Lost(false) then [] else [step] }

  /** What HandleFinalize goes on with. */
  predicate Usable(r: Request) { r.verified.Some? && (r.status == Verified || r.status == Finalized) }

  function Payload(r: Request, grantId: string, until: int): AuthCode {
    AuthCode(grantId, r.client, r.redirectUri, r.challenge, until)
  }

  class Gateway {
    var world: World
    ghost var start: int
    ghost var trace: seq<Step>

    /** Everything done so far is a run from the empty store. */
    ghost predicate Valid()
      reads this
    {
      world == Exec(Handshake.Init(start), trace)
    }

    constructor (now: int)
      ensures Valid() && world == Handshake.Init(now)
    {
      world, start, trace := Handshake.Init(now), now, [];
    }

    method Interleave(steps: seq<Step>)
      requires Valid()
      modifies this
      ensures Valid() && start == old(start) && trace == old(trace) + steps
      ensures world == Exec(old(world), steps) && Grows(old(world), world)
    {
      hide Apply, Grows;
      RunGrows(world, steps);
      ExecSplit(Handshake.Init(start), trace, steps);
      trace := trace + steps;
      var i := 0;
      ghost var from := world;
      while i < |steps|
        invariant 0 <= i <= |steps|
        invariant Exec(world, steps[i..]) == Exec(from, steps)
        invariant start == old(start) && trace == old(trace) + steps
      {
        world := Apply(world, steps[i]);
        i := i + 1;
      }
    }

    method Take(step: Step)
      requires Valid()
      modifies this
      ensures Valid() && start == old(start) && trace == old(trace) + [step]
      ensures world == Apply(old(world), step) && Grows(old(world), world)
    {
      hide Apply, Grows;
      StepGrows(world, step);
      ExecSplit(Handshake.Init(start), trace, [step]);
      OneStep(world, step);
      world := Apply(world, step);
      trace := trace + [step];
    }

    /** A command sent to Redis runs unless it is lost on the way there. */
    method Send(step: Step, reply: Reply)
      requires Valid()
      modifies this
      ensures Valid() && start == old(start) && trace == old(trace) + Sent(step, reply)
      ensures world == if reply == Lost(false) then old(world) else Apply(old(world), step)
      ensures Grows(old(world), world)
    {
      hide Apply;
      if reply != Lost(false) { Take(step); }
    }

    /**
     HandleLogin for a login command, from the claim on. Without an answer to the claim the
     handler ends with the error, though the claim may have won; a win is then remembered for
     STOP, unless that command is lost, which nobody notices; an expired claim is counted.
     */
    method HandleLogin(c: ClaimInput, claim: Reply, beforeNext: seq<Step>, next: Reply)
      returns (answer: Option<ClaimResult>)
      requires Valid() && c.at <= world.now && c.identity.verifiedAt == c.at
      modifies this
      ensures Valid() && start == old(start)
      ensures answer.Some? <==> claim.Answered?
      ensures var first := Claim(old(world).store, old(world).now, c).1;
              trace == old(trace) + Sent(DoClaim(c), claim) +
                if claim.Lost? then []
                else if first.status == Is(Verified) && first.browser != "" then
                  beforeNext + Sent(DoRemember(c.identity.lid, first.browser), next)
                else if first.status == Is(Expired) then beforeNext + Sent(DoWrongCode(c.identity.lid), next)
                else []
      ensures answer.Some? ==>
                var first := Claim(old(world).store, old(world).now, c).1;
                && (var then' := Exec(Apply(old(world), DoClaim(c)), beforeNext);
                    var tries := Tries(then'.store, c.identity.lid);
                    answer.value == if first.status == Is(Expired) && next.Answered? && tries >= 5
                                    then ClaimResult(RateLimited, "", "", tries + 1) else first)
                && (first.status == Is(Verified) && first.browser != "" ==>
                      && Win(c.identity.lid, first.browser) in world.hist.wins
                      && (next != Lost(false) ==>
                            c.identity.lid in world.store.stops
                            && world.store.stops[c.identity.lid].value == first.browser))
    {
      hide Exec, Claim, WrongCode;
      var first := Claim(world.store, world.now, c).1;
      if first.status == Is(Verified) { WinNoted(world, c); }
      NeverWrong(world.store, world.now, c);
      var sender := c.identity.lid;
      Send(DoClaim(c), claim);
      if claim.Lost? { return None; }
      answer := Some(first);
      if first.status == Is(Expired) || first.status == Wrong {
        Interleave(beforeNext);
        var counted := WrongCode(world.store, world.now, sender).1;
        CountedAnswer(world.store, world.now, sender);
        Send(DoWrongCode(sender), next);
        if next.Answered? && counted.status == RateLimited { answer := Some(counted); }
      }
      if first.status == Is(Verified) && first.browser != "" {
        Interleave(beforeNext);
        assert Win(sender, first.browser) in world.hist.wins;
        Send(DoRemember(sender, first.browser), next);
      }
    }

    lemma CountedAnswer(s: Store, now: int, sender: string)
      ensures var n := Tries(s, sender);
              WrongCode(s, now, sender).1 == ClaimResult(if n >= 5 then RateLimited else Wrong, "", "", n + 1)
    {
    }

    lemma NeverWrong(s: Store, now: int, c: ClaimInput)
      ensures Claim(s, now, c).1.status != Wrong
    {
    }

    /**
     HandleLogin for STOP: the key is read, then the script runs; it holds a flow this sender won.
     A read that fails is answered like a missing key, a script without an answer is an error.
     */
    method HandleStop(sender: string, read: bool, between: seq<Step>, script: Reply)
      returns (answer: Option<ClaimStatus>)
      requires Valid()
      modifies this
      ensures Valid() && start == old(start)
      ensures !read || sender !in old(world).store.stops ==> answer == Some(Is(Expired)) && world == old(world)
      ensures read && sender in old(world).store.stops ==>
                var b := old(world).store.stops[sender].value;
                && trace == old(trace) + [DoReadStop(sender)] + between + Sent(DoStop(sender, b), script)
                && Win(sender, b) in world.hist.wins
                && var w := Exec(Apply(old(world), DoReadStop(sender)), between);
                && answer == (if script.Answered? then Some(Stop(w.store, w.now, sender, b).1.status) else None)
                && (answer == Some(Is(Denied)) ==> b in world.hist.flows && world.hist.flows[b].status == Denied)
    {
      hide Exec, Stop, Tracked, Shaped, WinSound;
      if !read || sender !in world.store.stops { return Some(Is(Expired)); }
      var browser := world.store.stops[sender].value;
      FlowRun(Handshake.Init(start), trace);
      WinRun(Handshake.Init(start), trace);
      PointerWon(world, sender);
      Take(DoReadStop(sender));
      assert (sender, browser) in world.hist.seen;
      Interleave(between);
      var status := Stop(world.store, world.now, sender, browser).1.status;
      StopAnswers(world, sender, browser);
      Send(DoStop(sender, browser), script);
      return if script.Lost? then None else Some(status);
    }

    lemma PointerWon(w: World, sender: string)
      requires WinSound(w) && sender in w.store.stops
      ensures Win(sender, w.store.stops[sender].value) in w.hist.wins
    {
    }

    lemma StopAnswers(w: World, sender: string, browser: string)
      requires Enabled(w, DoStop(sender, browser))
      ensures Stop(w.store, w.now, sender, browser).1.status == Is(Denied) ==>
                var w' := Apply(w, DoStop(sender, browser));
                browser in w'.hist.flows && w'.hist.flows[browser].status == Denied
    {
    }

    /**
     HandleFinalize: a finalized flow is answered from its record, a verified one is finalized if
     identity and grant are found; every grant given is on record. The script may have run
     although its answer was lost, and then the next attempt is answered from the record.
     */
    method HandleFinalize(browser: string, loaded: bool, read: int, found: bool, between: seq<Step>,
                          at: int, g: Grant, grantId: string, until: int, script: Reply)
      returns (granted: Option<Grant>)
      requires Valid() && read <= world.now
      requires var then' := Exec(Apply(world, DoReload(read, browser)), between);
               at <= then'.now && g.code !in then'.hist.offered
      modifies this
      ensures Valid() && start == old(start)
      ensures !loaded ==> granted == None && world == old(world)
      ensures loaded ==>
                var req := Load(old(world).store, read, browser);
                var reload := old(trace) + [DoReload(read, browser)];
                if req.None? || req.value.verified.None? || req.value.status !in {Verified, Finalized} then
                  granted == None && trace == reload
                else if req.value.status == Finalized then
                  granted == req.value.finalized && trace == reload
                else if !found then
                  granted == None && trace == reload
                else
                  var w := Exec(Apply(old(world), DoReload(read, browser)), between);
                  var a := AuthCode(grantId, req.value.client, req.value.redirectUri, req.value.challenge, until);
                  var r := Finalize(w.store, at, browser, g, a).1;
                  && trace == reload + between + Sent(DoFinalize(at, browser, g, a), script)
                  && granted == if script.Answered? && r.Some? then r.value.finalized else None
      ensures granted.Some? ==> (browser, granted.value) in world.hist.replies
      ensures forall other | (browser, other) in world.hist.replies :: granted.Some? ==> granted == Some(other)
      ensures granted.Some? ==> Minted(browser, granted.value) in world.hist.minted
    {
      hide Exec, Finalize, Load, Tracked, Shaped, Extends;
      if !loaded { return None; }
      var req := Load(world.store, read, browser);
      FlowRun(Handshake.Init(start), trace);
      ghost var from := world;
      Take(DoReload(read, browser));
      if req.None? || !Usable(req.value) { return None; }
      if req.value.status == Finalized {
        granted := req.value.finalized;
      } else {
        if !found { return None; }
        Interleave(between);
        var a := Payload(req.value, grantId, until);
        StillBound(from, read, browser, between, a);
        var r := Finalize(world.store, at, browser, g, a).1;
        ReplyNoted(world, at, browser, g, a);
        Send(DoFinalize(at, browser, g, a), script);
        granted := if script.Answered? && r.Some? then r.value.finalized else None;
      }
      OneGrant(start, trace, world, browser);
    }

    /** The flow that was read keeps what its payload was made of. */
    lemma StillBound(w: World, read: int, browser: string, between: seq<Step>, a: AuthCode)
      requires Tracked(w) && Shaped(w) && Load(w.store, read, browser).Some?
               && Bound(a, Load(w.store, read, browser).value)
      ensures var w' := Exec(Apply(w, DoReload(read, browser)), between);
              browser in w'.hist.flows ==> Bound(a, w'.hist.flows[browser])
    {
      hide Exec, Evolves;
      FlowStep(w, DoReload(read, browser));
      FlowRun(Apply(w, DoReload(read, browser)), between);
      var m := Apply(w, DoReload(read, browser));
      assert browser in w.hist.flows && w.hist.flows[browser] == Load(w.store, read, browser).value;
      assert Evolves(w.hist.flows[browser], m.hist.flows[browser]);
      StaysBound(w.hist.flows[browser], m.hist.flows[browser], a);
      StaysBound(m.hist.flows[browser], Exec(m, between).hist.flows[browser], a);
    }

    lemma OneGrant(from: int, steps: seq<Step>, w: World, browser: string)
      requires w == Exec(Handshake.Init(from), steps)
      ensures forall x, y | (browser, x) in w.hist.replies && (browser, y) in w.hist.replies :: x == y
      ensures forall x | (browser, x) in w.hist.replies :: Minted(browser, x) in w.hist.minted
    {
      SingleUse(from, steps, []);
      assert Exec(w, []) == w;
      forall x, y | (browser, x) in w.hist.replies && (browser, y) in w.hist.replies
        ensures x == y && Minted(browser, x) in w.hist.minted
      {
        var p, q := (browser, x), (browser, y);
        assert p in w.hist.replies && q in w.hist.replies && p.0 == q.0;
      }
    }
  }
}
