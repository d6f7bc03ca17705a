/**
 ExpireBySession and DenyClientPending: scans that read each key, decide, and run
 transitionScript later, while every other caller keeps stepping.
 */
module PendingScans {
  import opened Wrappers
  import opened Pending
  import opened Handshake
  import opened HandshakeFlows

  datatype Scan = DenyClient(client: string) | ExpireSession(session: string) {
    /** The check made on the record that was read. */
    predicate Wants(r: Request) {
      match this
      case DenyClient(c) => r.client == c && (r.status == Pending || r.status == Verified)
      case ExpireSession(s) => r.session == s && r.status == Pending
    }

    function Change(): Change {
      match this
      case DenyClient(c) => Pending.Change(Denied, "", c, true, 0)
      case ExpireSession(s) => Pending.Change(Expired, s, "", false, CLOSED_RETAIN_MS)
    }
  }

  /** How the script call ended: answered, or an error after it ran or before. */
  datatype Reply = Answered | Lost(ran: bool)

  /**
   One key handed out by SCAN. before and between are the steps other callers take
   before the key is read and between the read and the script; read says whether
   the GET succeeded; lag is how old the scan's clock reading is.
   */
  datatype Visit = Visit(browser: string, before: seq<Step>, read: bool, between: seq<Step>, lag: nat, reply: Reply)

  /** One SCAN call: its keys, or an error. */
  datatype Page = Keys(visits: seq<Visit>) | ScanError

  datatype Progress = Progress(world: World, changed: nat, failed: bool)

  function ScriptStep(w: World, scan: Scan, v: Visit): Step { DoTransition(w.now - v.lag, v.browser, scan.Change()) }

  function Answer(w: World, scan: Scan, v: Visit): nat {
    Transition(w.store, w.now, w.now - v.lag, v.browser, scan.Change()).1
  }

  /** Does the scan go on to the script for this key? */
  predicate Acts(w: World, scan: Scan, v: Visit) {
    v.read && v.browser in w.store.reqs && scan.Wants(w.store.reqs[v.browser].value)
  }

  function VisitOne(w: World, scan: Scan, v: Visit): Progress {
    var w1 := Exec(w, v.before);
    if !Acts(w1, scan, v) then Progress(w1, 0, false)
    else
      var w2 := Exec(w1, v.between);
      match v.reply
      case Answered => Progress(Apply(w2, ScriptStep(w2, scan, v)), if Answer(w2, scan, v) == 2 then 1 else 0, false)
      case Lost(ran) => Progress(if ran then Apply(w2, ScriptStep(w2, scan, v)) else w2, 0, true)
  }

  /** The visits of one page in order, up to the first error. */
  function VisitAll(w: World, scan: Scan, vs: seq<Visit>): Progress
    decreases |vs|
  {
    if vs == [] then Progress(w, 0, false)
    else
      var p := VisitOne(w, scan, vs[0]);
      if p.failed then p
      else
        var q := VisitAll(p.world, scan, vs[1..]);
        Progress(q.world, p.changed + q.changed, q.failed)
  }

  function Flatten(pages: seq<Page>): seq<Visit>
    decreases |pages|
  {
    if pages == [] || pages[0].ScanError? then [] else pages[0].visits + Flatten(pages[1..])
  }

  /** The whole scan: its pages' visits, and then the SCAN error if there is one. */
  function ScanAll(w: World, scan: Scan, pages: seq<Page>): Progress {
    var p := VisitAll(w, scan, Flatten(pages));
    p.(failed := p.failed || ScanError in pages)
  }

  /** The flows this scan itself moved. */
  function MovedBy(w: World, scan: Scan, vs: seq<Visit>): set<string>
    decreases |vs|
  {
    if vs == [] then {}
    else
      var p := VisitOne(w, scan, vs[0]);
      if p.failed then {}
      else (if p.changed == 1 then {vs[0].browser} else {}) + MovedBy(p.world, scan, vs[1..])
  }

  // ---------- what a visit settles ----------

  /** What the scans are to leave no more of: open requests of the client, pending ones of the session. */
  predicate Unclosed(scan: Scan, r: Request) {
    if scan.DenyClient? then r.client == scan.client && r.status in {Pending, Verified}
    else r.session == scan.session && r.status == Pending
  }

  /** The flow's record is gone, or it is closed, or none of the scan's business. */
  predicate Settled(w: World, scan: Scan, browser: string) {
    browser in w.store.reqs ==> !Unclosed(scan, w.store.reqs[browser].value)
  }

  lemma SettledStays(w: World, w': World, scan: Scan, browser: string)
    requires Tracked(w) && Tracked(w') && Extends(w, w') && browser in w.hist.flows && Settled(w, scan, browser)
    ensures Settled(w', scan, browser)
  {
    if browser in w'.store.reqs {
      assert Evolves(w.hist.flows[browser], w'.hist.flows[browser]);
    }
  }

  /** The script, run on a flow the scan wanted when it read it, leaves the flow settled whatever happened since. */
  lemma ScriptSettles(w: World, scan: Scan, v: Visit)
    requires Tracked(w)
    requires v.browser in w.store.reqs ==>
      var r := w.store.reqs[v.browser].value;
      match scan case DenyClient(c) => r.client == c case ExpireSession(s) => r.session == s
    ensures Settled(Apply(w, ScriptStep(w, scan, v)), scan, v.browser)
    ensures v.browser in w.store.reqs ==>
      (Answer(w, scan, v) == 2 <==> scan.Wants(w.store.reqs[v.browser].value))
    ensures var reqs := Apply(w, ScriptStep(w, scan, v)).store.reqs;
            Answer(w, scan, v) == 2 ==> v.browser in reqs && reqs[v.browser].value.status == scan.Change().target
  {
    hide Claim, Create, Stop, Finalize, Redeem, WrongCode, Noted;
  }

  lemma VisitExtends(w: World, scan: Scan, v: Visit)
    requires Tracked(w) && Shaped(w)
    ensures var e := VisitOne(w, scan, v).world; Tracked(e) && Shaped(e) && Extends(w, e)
  {
    hide Tracked, Shaped, Extends, Apply, Exec, Acts;
    var w1 := Exec(w, v.before);
    var w2 := Exec(w1, v.between);
    FlowRun(w, v.before);
    FlowRun(w1, v.between);
    FlowStep(w2, ScriptStep(w2, scan, v));
    ExtendsTrans(w, w1, w2);
    ExtendsTrans(w, w2, Apply(w2, ScriptStep(w2, scan, v)));
  }

  lemma ExtendsTrans(a: World, b: World, c: World)
    requires Tracked(a) && Extends(a, b) && Extends(b, c)
    ensures Extends(a, c)
  {
    forall x | x in a.hist.flows
      ensures x in c.hist.flows && Evolves(a.hist.flows[x], c.hist.flows[x])
    {
      EvolvesTrans(a.hist.flows[x], b.hist.flows[x], c.hist.flows[x]);
    }
  }

  lemma VisitSettles(w: World, scan: Scan, v: Visit)
    requires Tracked(w) && Shaped(w) && v.read && v.browser in w.hist.flows && !VisitOne(w, scan, v).failed
    ensures Settled(VisitOne(w, scan, v).world, scan, v.browser)
  {
    var w1 := Exec(w, v.before);
    FlowRun(w, v.before);
    if Acts(w1, scan, v) {
      var w2 := Exec(w1, v.between);
      FlowRun(w1, v.between);
      if v.browser in w2.store.reqs {
        assert Evolves(w1.hist.flows[v.browser], w2.hist.flows[v.browser]);
      }
      ScriptSettles(w2, scan, v);
    }
  }

  lemma {:induction false} AllExtends(w: World, scan: Scan, vs: seq<Visit>)
    requires Tracked(w) && Shaped(w)
    ensures var e := VisitAll(w, scan, vs).world; Tracked(e) && Shaped(e) && Extends(w, e)
    decreases |vs|
  {
    if vs != [] {
      var p := VisitOne(w, scan, vs[0]);
      VisitExtends(w, scan, vs[0]);
      if !p.failed {
        AllExtends(p.world, scan, vs[1..]);
        ExtendsTrans(w, p.world, VisitAll(p.world, scan, vs[1..]).world);
      }
    } else {
      FlowRun(w, []);
    }
  }

  /**
   A scan that ends without an error leaves settled every flow that existed when it
   began and whose key it read, with any steps interleaved: no such request of the
   client is pending or verified, no such request of the session is pending.
   */
  lemma {:induction false} ScanSettles(w: World, scan: Scan, vs: seq<Visit>, i: nat)
    requires Tracked(w) && Shaped(w) && !VisitAll(w, scan, vs).failed
    requires i < |vs| && vs[i].read && vs[i].browser in w.hist.flows
    ensures Settled(VisitAll(w, scan, vs).world, scan, vs[i].browser)
    decreases |vs|
  {
    hide Tracked, Shaped, Settled, VisitOne, Evolves;
    var p := VisitOne(w, scan, vs[0]);
    VisitExtends(w, scan, vs[0]);
    AllExtends(p.world, scan, vs[1..]);
    if i == 0 {
      VisitSettles(w, scan, vs[0]);
      SettledStays(p.world, VisitAll(w, scan, vs).world, scan, vs[0].browser);
    } else {
      ScanSettles(p.world, scan, vs[1..], i - 1);
    }
  }

  // ---------- what the scan counts ----------

  lemma ScriptMoves(w: World, scan: Scan, v: Visit)
    requires Tracked(w) && Shaped(w) && Answer(w, scan, v) == 2
    ensures var e := Apply(w, ScriptStep(w, scan, v));
            && v.browser in w.hist.flows && !Terminal(w.hist.flows[v.browser].status)
            && v.browser in e.hist.flows && e.hist.flows[v.browser].status == scan.Change().target
  {
    hide Noted;
  }

  lemma NotYetTerminal(w: World, w': World, browser: string)
    requires Extends(w, w') && browser in w'.hist.flows && !Terminal(w'.hist.flows[browser].status)
    ensures browser in w.hist.flows ==> !Terminal(w.hist.flows[browser].status)
  {
    if browser in w.hist.flows {
      assert Evolves(w.hist.flows[browser], w'.hist.flows[browser]);
    }
  }

  /** A visit that counts moved an open flow to the scan's target. */
  lemma VisitMoves(w: World, scan: Scan, v: Visit)
    requires Tracked(w) && Shaped(w) && VisitOne(w, scan, v).changed == 1
    ensures var e := VisitOne(w, scan, v).world;
            && v.browser in e.hist.flows && e.hist.flows[v.browser].status == scan.Change().target
            && (v.browser in w.hist.flows ==> !Terminal(w.hist.flows[v.browser].status))
  {
    var w1 := Exec(w, v.before);
    var w2 := Exec(w1, v.between);
    FlowRun(w, v.before);
    FlowRun(w1, v.between);
    ScriptMoves(w2, scan, v);
    NotYetTerminal(w1, w2, v.browser);
    NotYetTerminal(w, w1, v.browser);
  }

  lemma VisitCountsOne(w: World, scan: Scan, v: Visit)
    ensures VisitOne(w, scan, v).changed <= 1 && (VisitOne(w, scan, v).failed ==> VisitOne(w, scan, v).changed == 0)
  {
    hide Apply, Acts, Answer;
  }

  lemma KnownStays(w: World, w': World, browser: string)
    requires Extends(w, w') && browser in w.hist.flows
    ensures browser in w'.hist.flows
  {
  }

  lemma TerminalStays(w: World, w': World, browser: string)
    requires Extends(w, w') && browser in w.hist.flows && Terminal(w.hist.flows[browser].status)
    ensures browser in w'.hist.flows && w'.hist.flows[browser] == w.hist.flows[browser]
  {
    assert Evolves(w.hist.flows[browser], w'.hist.flows[browser]);
  }

  lemma {:induction false} MovedOnce(w: World, scan: Scan, vs: seq<Visit>)
    requires Tracked(w) && Shaped(w)
    ensures var e := VisitAll(w, scan, vs).world; var moved := MovedBy(w, scan, vs);
            && |moved| == VisitAll(w, scan, vs).changed
            && forall b :: b in moved ==>
                 && b in e.hist.flows && e.hist.flows[b].status == scan.Change().target
                 && (b in w.hist.flows ==> !Terminal(w.hist.flows[b].status))
    decreases |vs|
  {
    hide VisitOne, Tracked, Shaped, Extends;
    if vs != [] {
      var v, p := vs[0], VisitOne(w, scan, vs[0]);
      VisitCountsOne(w, scan, v);
      VisitExtends(w, scan, v);
      if !p.failed {
        var rest := MovedBy(p.world, scan, vs[1..]);
        MovedOnce(p.world, scan, vs[1..]);
        AllExtends(p.world, scan, vs[1..]);
        if p.changed == 1 {
          VisitMoves(w, scan, v);
          assert v.browser !in rest;
          TerminalStays(p.world, VisitAll(p.world, scan, vs[1..]).world, v.browser);
          assert MovedBy(w, scan, vs) == {v.browser} + rest;
        } else {
          assert MovedBy(w, scan, vs) == rest;
        }
        forall b | b in rest && b in w.hist.flows
          ensures !Terminal(w.hist.flows[b].status)
        {
          KnownStays(w, p.world, b);
          NotYetTerminal(w, p.world, b);
        }
      }
    }
  }

  /**
   The number returned is the number of distinct flows the scan moved, even if SCAN
   hands out keys twice, and each of them ends as the scan's target; with an Expired
   target every one was pending, so no verified or finalized flow was overwritten.
   */
  lemma ScanCounts(start: int, before: seq<Step>, scan: Scan, pages: seq<Page>)
    ensures var w := Exec(Init(start), before);
            var r := ScanAll(w, scan, pages); var moved := MovedBy(w, scan, Flatten(pages));
            && r.changed == |moved|
            && (forall b :: b in moved ==>
                  && b in r.world.hist.flows
                  && r.world.hist.flows[b].status == if scan.DenyClient? then Denied else Expired)
            && (forall b :: b in moved && b in w.hist.flows ==>
                  if scan.ExpireSession? then w.hist.flows[b].status == Pending else IsOpen(w.hist.flows[b]))
  {
    var w := Exec(Init(start), before);
    FlowRun(Init(start), before);
    MovedOnce(w, scan, Flatten(pages));
    AllExtends(w, scan, Flatten(pages));
    var e := VisitAll(w, scan, Flatten(pages)).world;
    forall b | b in MovedBy(w, scan, Flatten(pages)) && b in w.hist.flows
      ensures if scan.ExpireSession? then w.hist.flows[b].status == Pending else IsOpen(w.hist.flows[b])
    {
      assert Evolves(w.hist.flows[b], e.hist.flows[b]);
    }
  }

  // ---------- a failed read is skipped silently ----------

  /** Nothing else happens during the scan, and every script call is answered. */
  predicate Quiet(vs: seq<Visit>) {
    forall v :: v in vs ==> v.before == [] && v.between == [] && v.reply == Answered
  }

  predicate ReadOf(vs: seq<Visit>, browser: string) { exists v :: v in vs && v.browser == browser && v.read }

  /** What one visit does when nothing else happens. */
  lemma QuietEffect(w: World, scan: Scan, v: Visit)
    requires Tracked(w) && v.before == [] && v.between == [] && v.reply == Answered
    ensures var p := VisitOne(w, scan, v); var reqs := p.world.store.reqs;
            && !p.failed && reqs.Keys == w.store.reqs.Keys
            && (forall b | b in reqs ::
                  Unclosed(scan, reqs[b].value) <==>
                    Unclosed(scan, w.store.reqs[b].value) && !(v.read && v.browser == b))
            && p.changed == if v.read && v.browser in w.store.reqs && Unclosed(scan, w.store.reqs[v.browser].value)
                            then 1 else 0
  {
    hide Noted, Overlay;
    if Acts(w, scan, v) { ScriptAnswers(w, scan, v); }
  }

  lemma ScriptAnswers(w: World, scan: Scan, v: Visit)
    requires v.browser in w.store.reqs && scan.Wants(w.store.reqs[v.browser].value)
    ensures Answer(w, scan, v) == 2
    ensures var r := w.store.reqs[v.browser].value; var reqs := Apply(w, ScriptStep(w, scan, v)).store.reqs;
            && v.browser in reqs && reqs == w.store.reqs[v.browser := reqs[v.browser]]
            && !Unclosed(scan, reqs[v.browser].value)
  {
    hide Noted, Overlay;
  }

  lemma NothingRead(vs: seq<Visit>, browser: string)
    requires vs == []
    ensures !ReadOf(vs, browser)
  {
  }

  lemma ReadFirst(vs: seq<Visit>, browser: string)
    requires vs != []
    ensures ReadOf(vs, browser) <==> (vs[0].read && vs[0].browser == browser) || ReadOf(vs[1..], browser)
  {
    assert vs[0] in vs && forall x :: x in vs <==> x == vs[0] || x in vs[1..];
  }

  /**
   The comments promise that every open request is closed, but a GET that fails is
   skipped and the scan still ends without an error. Left to itself, a scan leaves a
   request it should close open exactly when no GET of its key succeeded.
   */
  lemma {:induction false} SkippedReads(w: World, scan: Scan, vs: seq<Visit>, browser: string)
    requires Tracked(w) && Shaped(w) && Quiet(vs) && browser in w.store.reqs
    ensures var r := VisitAll(w, scan, vs);
            && !r.failed && browser in r.world.store.reqs
            && (Unclosed(scan, r.world.store.reqs[browser].value) <==>
                Unclosed(scan, w.store.reqs[browser].value) && !ReadOf(vs, browser))
    decreases |vs|
  {
    hide Unclosed, VisitOne, Tracked, Shaped, Extends;
    if vs != [] {
      assert vs[0] in vs && forall x :: x in vs[1..] ==> x in vs;
      QuietEffect(w, scan, vs[0]);
      VisitExtends(w, scan, vs[0]);
      ReadFirst(vs, browser);
      SkippedReads(VisitOne(w, scan, vs[0]).world, scan, vs[1..], browser);
    }
  }

  /** The requests a scan is meant for whose key it read. */
  ghost function ReadAndOpen(w: World, scan: Scan, vs: seq<Visit>): set<string> {
    set b | b in w.store.reqs && Unclosed(scan, w.store.reqs[b].value) && ReadOf(vs, b)
  }

  /**
   Left to itself a scan closes, and counts once each, exactly the requests it is meant for whose key it
   read, however often it was handed the key.
   */
  lemma {:induction false} QuietScanCounts(w: World, scan: Scan, vs: seq<Visit>)
    requires Tracked(w) && Shaped(w) && Quiet(vs)
    ensures MovedBy(w, scan, vs) == ReadAndOpen(w, scan, vs)
            && VisitAll(w, scan, vs).changed == |ReadAndOpen(w, scan, vs)|
    decreases |vs|
  {
    hide Unclosed, VisitOne, Tracked, Shaped, Extends, ReadOf, VisitAll;
    MovedOnce(w, scan, vs);
    if vs == [] {
      forall b ensures !ReadOf(vs, b) { NothingRead(vs, b); }
    } else {
      var v, p := vs[0], VisitOne(w, scan, vs[0]);
      assert v in vs && forall x :: x in vs[1..] ==> x in vs;
      QuietEffect(w, scan, v);
      VisitExtends(w, scan, v);
      QuietScanCounts(p.world, scan, vs[1..]);
      forall b ensures b in MovedBy(w, scan, vs) <==> b in ReadAndOpen(w, scan, vs) {
        ReadFirst(vs, b);
        assert b in MovedBy(w, scan, vs) <==>
                 (p.changed == 1 && b == v.browser) || b in MovedBy(p.world, scan, vs[1..]);
      }
    }
  }

  /** One pending request, one page, one failed GET: no error, nothing denied, the request still open. */
  lemma SkippedReadExample()
    ensures var p := Request("app", "s", "https://app", "pkce", "dm", "482913", "login", Pending, 0, None, None, 100);
            var w := Apply(Init(0), DoCreate(0, "b", p));
            var r := ScanAll(w, DenyClient("app"), [Keys([Visit("b", [], false, [], 0, Answered)])]);
            && !r.failed && r.changed == 0
            && "b" in r.world.store.reqs && r.world.store.reqs["b"].value == p
  {
    var p := Request("app", "s", "https://app", "pkce", "dm", "482913", "login", Pending, 0, None, None, 100);
    var w := Apply(Init(0), DoCreate(0, "b", p));
    var v := Visit("b", [], false, [], 0, Answered);
    assert Flatten([Keys([v])]) == [v] + Flatten([]);
    assert VisitAll(w, DenyClient("app"), [v]) == Progress(w, 0, false);
  }
}
