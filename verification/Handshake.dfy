/**
 Runs of the login handshake.

 A `World` is the store, the clock, and a history that no script reads. A `Step`
 is one atomic action of some caller or of the environment; callers that read
 first and act later appear as two steps, so any other steps may come between.
 A step whose guard fails leaves the world alone, so every sequence of steps is
 a run. The guards carry the assumptions: clock readings are never ahead of the
 clock, browser codes and authorization codes are fresh, a code carries its flow's bindings.
 */
module Handshake {
  import opened Wrappers
  import opened Pending

  datatype Minted = Minted(browser: string, grant: Grant)
  datatype Win = Win(sender: string, browser: string)
  datatype Miss = Miss(sender: string, window: nat, browser: string)

  /**
   flows: the latest record of every flow ever created, kept after its key is gone
   deadlines: the deadline each flow was created with
   offered: every code any finalization brought along
   minted: each authorization code stored, with its flow
   replies: every grant a successful finalization returned
   redeemed: every code whose redemption succeeded
   wins: every claim answered "verified"
   seen: STOP pointers that have been read, whose scripts may still be on their way
   windows: how many counter windows each sender has opened
   openings: when each of those windows was opened
   misses: every attempt added to a request, with the sender and the window it was counted in
   payloads: what finalization stored under each code
   */
  datatype History = History(
    flows: map<string, Request>,
    deadlines: map<string, int>,
    offered: set<string>,
    minted: seq<Minted>,
    replies: set<(string, Grant)>,
    redeemed: seq<string>,
    wins: seq<Win>,
    seen: set<(string, string)>,
    windows: map<string, nat>,
    openings: map<(string, nat), int>,
    misses: seq<Miss>,
    payloads: map<string, AuthCode>)

  datatype World = World(now: int, store: Store, hist: History)

  datatype Lapse = LapseRequest(browser: string) | LapseIndex(k: IndexKey) | LapseWrong(sender: string)
                 | LapseCode(code: string) | LapseStop(sender: string) | LapseBlock(block: (string, string))

  datatype Step =
    | Tick(ms: nat)
    | Drop(lapse: Lapse)
    | DoReserve(at: int, k: IndexKey, expiresAt: int)
    | DoCreate(at: int, browser: string, p: Request)
    | DoClaim(c: ClaimInput)
    | DoWrongCode(sender: string)
    | DoRemember(sender: string, browser: string)
    | DoReadStop(sender: string)
    | DoStop(sender: string, browser: string)
    | DoTransition(at: int, browser: string, change: Change)
    | DoReload(at: int, browser: string)
    | DoFinalize(at: int, browser: string, grant: Grant, auth: AuthCode)
    | DoRedeem(at: int, code: string)

  const EMPTY_STORE := Store(map[], map[], map[], map[], map[], map[], [])
  const EMPTY_HISTORY := History(map[], map[], {}, [], {}, [], [], {}, map[], map[], [], map[])

  function Init(now: int): World { World(now, EMPTY_STORE, EMPTY_HISTORY) }

  predicate Fresh(p: Request) {
    p.status == Pending && p.attempts == 0 && p.verified == None && p.finalized == None
  }

  /** HandleFinalize copies what redemption will be checked against out of the request. */
  predicate Bound(a: AuthCode, r: Request) {
    a.client == r.client && a.redirectUri == r.redirectUri && a.challenge == r.challenge
  }

  predicate Lapsed(s: Store, now: int, l: Lapse) {
    match l
    case LapseRequest(b) => b in s.reqs && s.reqs[b].expireAt <= now
    case LapseIndex(k) => k in s.index && s.index[k].expireAt <= now
    case LapseWrong(x) => x in s.wrong && s.wrong[x].expireAt <= now
    case LapseCode(c) => c in s.codes && s.codes[c].expireAt <= now
    case LapseStop(x) => x in s.stops && s.stops[x].expireAt <= now
    case LapseBlock(x) => x in s.blocks && s.blocks[x] <= now
  }

  predicate Enabled(w: World, step: Step) {
    match step
    case Tick(_) => true
    case Drop(l) => Lapsed(w.store, w.now, l)
    case DoReserve(at, _, _) => at <= w.now
    case DoCreate(at, b, p) => at <= w.now && b != "" && b !in w.hist.flows && Fresh(p)
    case DoClaim(c) => c.at <= w.now && c.identity.verifiedAt == c.at
    case DoWrongCode(_) => true
    case DoRemember(sender, b) => Win(sender, b) in w.hist.wins
    case DoReadStop(sender) => sender in w.store.stops
    case DoStop(sender, b) => (sender, b) in w.hist.seen
    case DoTransition(at, _, c) =>
      at <= w.now && (c.target == Denied || c.target == Expired) && (c.allowVerified ==> c.target == Denied)
    case DoReload(at, _) => at <= w.now
    case DoFinalize(at, b, g, a) =>
      at <= w.now && g.code !in w.hist.offered && (b in w.hist.flows ==> Bound(a, w.hist.flows[b]))
    case DoRedeem(at, _) => at <= w.now
  }

  function Dropped(s: Store, l: Lapse): Store {
    match l
    case LapseRequest(b) => s.(reqs := s.reqs - {b})
    case LapseIndex(k) => s.(index := s.index - {k})
    case LapseWrong(x) => s.(wrong := s.wrong - {x})
    case LapseCode(c) => s.(codes := s.codes - {c})
    case LapseStop(x) => s.(stops := s.stops - {x})
    case LapseBlock(x) => s.(blocks := s.blocks - {x})
  }

  function Overlay(flows: map<string, Request>, reqs: map<string, Key<Request>>): map<string, Request> {
    flows + map b | b in reqs :: reqs[b].value
  }

  function WindowOf(h: History, sender: string): nat { if sender in h.windows then h.windows[sender] else 0 }

  /** A counter that is missing when it is incremented opens a new window. */
  function OpenWindow(h: History, s: Store, now: int, sender: string): History {
    if sender in s.wrong then h
    else
      var n := WindowOf(h, sender) + 1;
      h.(windows := h.windows[sender := n], openings := h.openings[(sender, n) := now])
  }

  /** A claim that touched the sender's counter is a mismatch. */
  function NoteClaim(h: History, s: Store, s': Store, now: int, c: ClaimInput, r: ClaimResult): History {
    var sender := c.identity.lid;
    if s'.wrong != s.wrong then
      var counted := OpenWindow(h, s, now, sender);
      if r.status == RateLimited then counted
      else counted.(misses := h.misses + [Miss(sender, WindowOf(counted, sender), r.browser)])
    else if r.status == Is(Verified) then h.(wins := h.wins + [Win(sender, r.browser)])
    else h
  }

  function StoreAfter(w: World, step: Step): Store {
    match step
    case Tick(_) => w.store
    case Drop(l) => Dropped(w.store, l)
    case DoReserve(at, k, expiresAt) => Reserve(w.store, w.now, at, k, expiresAt).0
    case DoCreate(at, b, p) => Create(w.store, at, b, p).0
    case DoClaim(c) => Claim(w.store, w.now, c).0
    case DoWrongCode(sender) => WrongCode(w.store, w.now, sender).0
    case DoRemember(sender, b) => Remember(w.store, w.now, sender, b)
    case DoReadStop(_) => w.store
    case DoStop(sender, b) => Stop(w.store, w.now, sender, b).0
    case DoTransition(at, b, c) => Transition(w.store, w.now, at, b, c).0
    case DoReload(_, _) => w.store
    case DoFinalize(at, b, g, a) => Finalize(w.store, at, b, g, a).0
    case DoRedeem(at, code) => Redeem(w.store, at, code).0
  }

  /** A finalized flow is answered from its record. */
  function NoteReload(h: History, s: Store, at: int, b: string): History {
    var r := Load(s, at, b);
    if r.Some? && r.value.status == Finalized && r.value.finalized.Some?
    then h.(replies := h.replies + {(b, r.value.finalized.value)}) else h
  }

  /** Every code brought along, what was answered, and what was stored. */
  function NoteFinalize(h: History, s: Store, at: int, b: string, g: Grant, a: AuthCode): History {
    var answer := Finalize(s, at, b, g, a).1;
    var offered := h.(offered := h.offered + {g.code});
    var replied := if answer.Some? && answer.value.finalized.Some?
                   then offered.(replies := h.replies + {(b, answer.value.finalized.value)}) else offered;
    if Finalizable(s, at, b)
    then replied.(minted := h.minted + [Minted(b, g)], payloads := h.payloads[g.code := a]) else replied
  }

  /** What the step adds to the history, apart from the records themselves. */
  function Noted(w: World, step: Step): History {
    var h := w.hist;
    match step
    case DoCreate(at, b, p) =>
      if Create(w.store, at, b, p).1 then h.(deadlines := h.deadlines[b := p.expiresAt]) else h
    case DoClaim(c) => NoteClaim(h, w.store, Claim(w.store, w.now, c).0, w.now, c, Claim(w.store, w.now, c).1)
    case DoWrongCode(sender) => OpenWindow(h, w.store, w.now, sender)
    case DoReadStop(sender) =>
      if sender in w.store.stops then h.(seen := h.seen + {(sender, w.store.stops[sender].value)}) else h
    case DoReload(at, b) => NoteReload(h, w.store, at, b)
    case DoFinalize(at, b, g, a) => NoteFinalize(h, w.store, at, b, g, a)
    case DoRedeem(at, code) => if Redeem(w.store, at, code).1.Ok? then h.(redeemed := h.redeemed + [code]) else h
    case _ => h
  }

  function Apply(w: World, step: Step): World {
    if !Enabled(w, step) then w
    else
      var s' := StoreAfter(w, step);
      var h' := Noted(w, step);
      World(if step.Tick? then w.now + step.ms else w.now, s', h'.(flows := Overlay(w.hist.flows, s'.reqs)))
  }

  function Exec(w: World, steps: seq<Step>): World
    decreases |steps|
  {
    if steps == [] then w else Exec(Apply(w, steps[0]), steps[1..])
  }

  // ---------- what each note can touch ----------

  lemma ClaimNotes(h: History, s: Store, s': Store, now: int, c: ClaimInput, r: ClaimResult)
    ensures var h' := NoteClaim(h, s, s', now, c, r);
            h' == h.(wins := h'.wins, misses := h'.misses, windows := h'.windows, openings := h'.openings)
  {
  }

  lemma WindowNotes(h: History, s: Store, now: int, sender: string)
    ensures var h' := OpenWindow(h, s, now, sender); h' == h.(windows := h'.windows, openings := h'.openings)
  {
  }

  lemma ReloadNotes(h: History, s: Store, at: int, b: string)
    ensures var h' := NoteReload(h, s, at, b); h' == h.(replies := h'.replies)
  {
    hide Load;
  }

  lemma FinalizeNotes(h: History, s: Store, at: int, b: string, g: Grant, a: AuthCode)
    ensures var h' := NoteFinalize(h, s, at, b, g, a);
            h' == h.(offered := h'.offered, replies := h'.replies, minted := h'.minted, payloads := h'.payloads)
  {
    hide Finalize, Finalizable;
  }

  // ---------- one step changes records only by legal moves ----------

  predicate Move(r: Request, r': Request) {
    || (r.status == Pending && r' == Attempted(r))
    || (r.status == Pending && r'.verified.Some? && r' == Won(r, r'.verified.value, r'.verified.value.verifiedAt))
    || (r.status == Pending && (r' == r.(status := Denied) || r' == r.(status := Expired)))
    || (r.status == Verified && r' == r.(status := Denied))
    || (r.status == Verified && r'.finalized.Some? && r' == r.(status := Finalized, finalized := r'.finalized))
  }

  predicate Moved(s: Store, s': Store) {
    forall b :: b in s'.reqs ==>
      b in s.reqs && (s'.reqs[b].value == s.reqs[b].value || Move(s.reqs[b].value, s'.reqs[b].value))
  }

  lemma BumpMoves(s: Store, now: int, k: IndexKey, browser: string, sender: string, mismatch: ClaimStatus)
    requires browser in s.reqs && s.reqs[browser].value.status == Pending
    ensures Moved(s, Bump(s, now, k, browser, sender, mismatch).0)
  {
  }

  lemma AcceptMoves(s: Store, k: IndexKey, browser: string, c: ClaimInput)
    requires browser in s.reqs && s.reqs[browser].value.status == Pending && c.identity.verifiedAt == c.at
    ensures Moved(s, Accept(s, k, browser, c).0)
  {
  }

  lemma ClaimMoves(s: Store, now: int, c: ClaimInput)
    requires c.identity.verifiedAt == c.at
    ensures Moved(s, Claim(s, now, c).0)
  {
    hide Claim, Bump, Accept, Attempted, Won, Move;
    var b := ClaimCases(s, now, c);
    if Reaches(s, c, b) {
      var k := IndexKey(c.session, c.userCode);
      BumpMoves(s, now, k, b, c.identity.lid, ModeMismatch);
      BumpMoves(s, now, k, b, c.identity.lid, CommandMismatch);
      AcceptMoves(s, k, b, c);
    }
  }

  lemma StopMoves(s: Store, now: int, sender: string, browser: string)
    ensures Moved(s, Stop(s, now, sender, browser).0)
  {
  }

  lemma TransitionMoves(s: Store, now: int, at: int, browser: string, c: Change)
    requires c.target == Denied || (c.target == Expired && !c.allowVerified)
    ensures Moved(s, Transition(s, now, at, browser, c).0)
  {
  }

  lemma FinalizeMoves(s: Store, at: int, browser: string, g: Grant, a: AuthCode)
    ensures Moved(s, Finalize(s, at, browser, g, a).0)
  {
  }

  /** Every step but a creation moves records legally and adds none. */
  lemma StepMoves(w: World, step: Step)
    requires Enabled(w, step) && !step.DoCreate?
    ensures Moved(w.store, StoreAfter(w, step))
  {
    hide Claim, Stop, Transition, Finalize, Create, Move, Incr, Bound;
    match step
    case DoClaim(c) => ClaimMoves(w.store, w.now, c);
    case DoStop(sender, b) => StopMoves(w.store, w.now, sender, b);
    case DoTransition(at, b, c) => TransitionMoves(w.store, w.now, at, b, c);
    case DoFinalize(at, b, g, a) => FinalizeMoves(w.store, at, b, g, a);
    case _ =>
  }

  lemma {:induction false} ExecSplit(w: World, first: seq<Step>, second: seq<Step>)
    ensures Exec(w, first + second) == Exec(Exec(w, first), second)
    decreases |first|
  {
    if first == [] {
      assert first + second == second;
    } else {
      assert (first + second)[0] == first[0] && (first + second)[1..] == first[1..] + second;
      ExecSplit(Apply(w, first[0]), first[1..], second);
    }
  }
}
