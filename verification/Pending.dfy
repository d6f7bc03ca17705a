/**
 The OAuth login handshake's Redis key space and its scripts.

 A `Store` holds the keys that exist, each with the instant at which Redis may
 drop it. Every script is a function from one store to the next, because Redis
 runs it as one atomic step. `now` is the server's clock when the script runs;
 `at` is the reading the caller took earlier and passed in, so it may be stale.
 */
module Pending {
  import opened Wrappers

  datatype Status = Pending | Verified | Finalized | Denied | Expired

  datatype Identity = Identity(lid: string, phoneJid: string, phoneNumber: string, pushName: string,
                               groupJid: Option<string>, verifiedAt: int)

  /** The authorization code and the redirect that carries it. */
  datatype Grant = Grant(code: string, redirect: string)

  datatype Request = Request(client: string, session: string, redirectUri: string, challenge: string,
                             mode: string, userCode: string, command: string, status: Status, attempts: nat,
                             verified: Option<Identity>, finalized: Option<Grant>, expiresAt: int)

  /** What a reverse user-code key holds: "", a browser code, or "__used__:" and a browser code. */
  datatype Ref = Reserved | Live(browser: string) | Used(browser: string)

  datatype AuthCode = AuthCode(grantId: string, client: string, redirectUri: string, challenge: string, expiresAt: int)

  datatype IndexKey = IndexKey(session: string, userCode: string)

  datatype Key<+T> = Key(value: T, expireAt: int)

  datatype Notice = Notice(browser: string, status: Status)

  datatype Store = Store(
    reqs: map<string, Key<Request>>,
    index: map<IndexKey, Key<Ref>>,
    wrong: map<string, Key<nat>>,
    codes: map<string, Key<AuthCode>>,
    stops: map<string, Key<string>>,
    blocks: map<(string, string), int>,
    published: seq<Notice>)

  /** A claim outcome: a request status echoed back, or one of the mismatch answers. */
  datatype ClaimStatus = Is(status: Status) | Wrong | RateLimited | AlreadyUsed | ModeMismatch | CommandMismatch

  datatype ClaimResult = ClaimResult(status: ClaimStatus, browser: string, client: string, attempts: nat)

  datatype ClaimInput = ClaimInput(session: string, userCode: string, mode: string, command: string,
                                   identity: Identity, at: int)

  const WRONG_WINDOW_MS := 300_000
  const SENDER_LIMIT := 5
  const ATTEMPT_LIMIT := 10
  const VERIFIED_GRACE_MS := 180_000
  const USED_MARKER_MS := 60_000
  const STOP_RETAIN_MS := 300_000
  const STOP_POINTER_MS := 600_000
  const CLOSED_RETAIN_MS := 60_000

  function Min(a: int, b: int): int { if a < b then a else b }

  function LowerChar(c: char): char { if 'A' <= c <= 'Z' then c + ' ' else c }

  /** Lua's string.lower in the C locale. */
  function Lower(s: string): string { seq(|s|, i requires 0 <= i < |s| => LowerChar(s[i])) }

  function IndexOf(r: Request): IndexKey { IndexKey(r.session, r.userCode) }

  predicate IsOpen(r: Request) { r.status == Pending || r.status == Verified }

  /** createPendingScript behind Create's deadline check. */
  function Create(s: Store, at: int, browser: string, p: Request): (Store, bool) {
    if p.expiresAt <= at then (s, false)
    else if browser in s.reqs then (s, false)
    else if IndexOf(p) in s.index && s.index[IndexOf(p)].value != Reserved then (s, false)
    else (s.(reqs := s.reqs[browser := Key(p, p.expiresAt)],
             index := s.index[IndexOf(p) := Key(Live(browser), p.expiresAt)]), true)
  }

  /** ReserveUserCode: SETNX with a relative lifetime. */
  function Reserve(s: Store, now: int, at: int, k: IndexKey, expiresAt: int): (Store, bool) {
    if expiresAt <= at || k in s.index then (s, false)
    else (s.(index := s.index[k := Key(Reserved, now + (expiresAt - at))]), true)
  }

  function Load(s: Store, at: int, browser: string): Option<Request> {
    if browser !in s.reqs then None
    else
      var r := s.reqs[browser].value;
      if r.expiresAt <= at || r.status == Expired then None else Some(r)
  }

  function Incr(wrong: map<string, Key<nat>>, now: int, sender: string): map<string, Key<nat>> {
    if sender in wrong then wrong[sender := wrong[sender].(value := wrong[sender].value + 1)]
    else wrong[sender := Key(1, now + WRONG_WINDOW_MS)]
  }

  /** What one more mismatch makes of a request. */
  function Attempted(r: Request): Request {
    r.(attempts := r.attempts + 1, status := if r.attempts + 1 >= ATTEMPT_LIMIT then Denied else r.status)
  }

  /** claimScript's local function bump. */
  function Bump(s: Store, now: int, k: IndexKey, browser: string, sender: string,
                mismatch: ClaimStatus): (Store, ClaimResult)
    requires browser in s.reqs
  {
    var r := s.reqs[browser].value;
    var counted := s.(wrong := Incr(s.wrong, now, sender));
    if counted.wrong[sender].value > SENDER_LIMIT then
      (counted, ClaimResult(RateLimited, browser, r.client, r.attempts))
    else
      var next := Attempted(r);
      var stored := counted.(reqs := s.reqs[browser := Key(next, r.expiresAt)]);
      if next.attempts >= ATTEMPT_LIMIT then
        (stored.(index := s.index - {k}, published := s.published + [Notice(browser, Denied)]),
         ClaimResult(Is(Denied), browser, r.client, next.attempts))
      else
        (stored, ClaimResult(mismatch, browser, r.client, next.attempts))
  }

  /** What a winning claim makes of a request. */
  function Won(r: Request, id: Identity, at: int): Request {
    r.(status := Verified, verified := Some(id), expiresAt := Min(r.expiresAt, at + VERIFIED_GRACE_MS))
  }

  /** The winning end of claimScript. */
  function Accept(s: Store, k: IndexKey, browser: string, c: ClaimInput): (Store, ClaimResult)
    requires browser in s.reqs
  {
    var r := s.reqs[browser].value;
    var next := Won(r, c.identity, c.at);
    (s.(reqs := s.reqs[browser := Key(next, next.expiresAt)],
        index := s.index[k := Key(Used(browser), Min(next.expiresAt, c.at + USED_MARKER_MS))],
        published := s.published + [Notice(browser, Verified)]),
     ClaimResult(Is(Verified), browser, r.client, r.attempts))
  }

  /** claimScript. A merely reserved key reads as the empty browser code. */
  function Claim(s: Store, now: int, c: ClaimInput): (Store, ClaimResult) {
    var k := IndexKey(c.session, c.userCode);
    if k !in s.index then (s, ClaimResult(Is(Expired), "", "", 0))
    else if s.index[k].value.Used? then (s, ClaimResult(AlreadyUsed, s.index[k].value.browser, "", 0))
    else
      var browser := if s.index[k].value.Live? then s.index[k].value.browser else "";
      if browser !in s.reqs then
        (s.(index := s.index - {k}), ClaimResult(Is(Expired), browser, "", 0))
      else
        var r := s.reqs[browser].value;
        if r.expiresAt <= c.at then
          (s.(index := s.index - {k}), ClaimResult(Is(Expired), browser, r.client, r.attempts))
        else if r.status == Verified || r.status == Finalized then
          (s, ClaimResult(AlreadyUsed, browser, r.client, r.attempts))
        else if r.status != Pending then
          (s, ClaimResult(Is(r.status), browser, r.client, r.attempts))
        else if r.session != c.session || r.mode != c.mode then
          Bump(s, now, k, browser, c.identity.lid, ModeMismatch)
        else if Lower(r.command) != c.command then
          Bump(s, now, k, browser, c.identity.lid, CommandMismatch)
        else
          Accept(s, k, browser, c)
  }

  /** The request a claim reaches: the one its live (or empty) entry names, if it is there, unexpired and pending. */
  predicate Reaches(s: Store, c: ClaimInput, browser: string) {
    var k := IndexKey(c.session, c.userCode);
    && k in s.index
    && s.index[k].value == (if browser == "" && s.index[k].value.Reserved? then Reserved else Live(browser))
    && browser in s.reqs && s.reqs[browser].value.expiresAt > c.at && s.reqs[browser].value.status == Pending
  }

  /** Every claim leaves the store alone, drops its own entry, counts a mismatch, or wins. */
  lemma ClaimCases(s: Store, now: int, c: ClaimInput) returns (browser: string)
    ensures var k := IndexKey(c.session, c.userCode);
            || (Claim(s, now, c).0 == s && Claim(s, now, c).1.status != Is(Verified))
            || (Claim(s, now, c).0 == s.(index := s.index - {k}) && Claim(s, now, c).1.status == Is(Expired))
            || (Reaches(s, c, browser) && Claim(s, now, c) == Bump(s, now, k, browser, c.identity.lid, ModeMismatch))
            || (Reaches(s, c, browser) && Claim(s, now, c) == Bump(s, now, k, browser, c.identity.lid, CommandMismatch))
            || (Reaches(s, c, browser) && Claim(s, now, c) == Accept(s, k, browser, c))
  {
    var k := IndexKey(c.session, c.userCode);
    browser := if k in s.index && s.index[k].value.Live? then s.index[k].value.browser else "";
  }

  /** wrongCodeScript. */
  function WrongCode(s: Store, now: int, sender: string): (Store, ClaimResult) {
    var counted := s.(wrong := Incr(s.wrong, now, sender));
    var n := counted.wrong[sender].value;
    (counted, ClaimResult(if n > SENDER_LIMIT then RateLimited else Wrong, "", "", n))
  }

  /** RememberStop. */
  function Remember(s: Store, now: int, sender: string, browser: string): Store {
    s.(stops := s.stops[sender := Key(browser, now + STOP_POINTER_MS)])
  }

  /** stopScript, given the browser code the caller read from the pointer. */
  function Stop(s: Store, now: int, sender: string, browser: string): (Store, ClaimResult) {
    if browser !in s.reqs then (s, ClaimResult(Is(Expired), browser, "", 0))
    else
      var r := s.reqs[browser].value;
      if r.status != Verified then (s, ClaimResult(Is(r.status), browser, r.client, r.attempts))
      else
        (s.(reqs := s.reqs[browser := Key(r.(status := Denied), now + STOP_RETAIN_MS)],
            index := s.index - {IndexOf(r)},
            stops := s.stops - {sender},
            blocks := s.blocks[(sender, browser) := now + STOP_RETAIN_MS],
            published := s.published + [Notice(browser, Denied)]),
         ClaimResult(Is(Denied), browser, r.client, r.attempts))
  }

  datatype Change = Change(target: Status, session: string, client: string, allowVerified: bool, retain: nat)

  /** Does transitionScript's filter let this request through? An empty filter matches everything. */
  predicate Matches(r: Request, c: Change) {
    (c.session == "" || r.session == c.session) && (c.client == "" || r.client == c.client)
  }

  /** transitionScript; the number is the script's own answer: 0 absent, 1 unchanged, 2 changed. */
  function Transition(s: Store, now: int, at: int, browser: string, c: Change): (Store, nat) {
    if browser !in s.reqs then (s, 0)
    else
      var r := s.reqs[browser].value;
      if !Matches(r, c) then (s, 0)
      else if !(r.status == Pending || (c.allowVerified && r.status == Verified)) then (s, 1)
      else
        var until := if c.retain > 0 then now + c.retain
                     else if r.expiresAt > at then r.expiresAt
                     else now + CLOSED_RETAIN_MS;
        (s.(reqs := s.reqs[browser := Key(r.(status := c.target), until)],
            index := s.index - {IndexOf(r)},
            published := s.published + [Notice(browser, c.target)]), 2)
  }

  /** Will finalizeScript move this request to finalized? */
  predicate Finalizable(s: Store, at: int, browser: string) {
    browser in s.reqs && s.reqs[browser].value.status == Verified && s.reqs[browser].value.expiresAt > at
  }

  /** finalizeScript: the next store, and the request when the script answers ok. */
  function Finalize(s: Store, at: int, browser: string, grant: Grant, auth: AuthCode): (Store, Option<Request>) {
    if browser !in s.reqs then (s, None)
    else
      var r := s.reqs[browser].value;
      if r.expiresAt <= at then (s, None)
      else if r.status == Finalized then (s, Some(r))
      else if r.status != Verified then (s, None)
      else
        var next := r.(status := Finalized, finalized := Some(grant));
        (s.(codes := s.codes[grant.code := Key(auth, auth.expiresAt)],
            reqs := s.reqs[browser := Key(next, r.expiresAt)]), Some(next))
  }

  datatype RedeemError = NoSuchCode | CodeExpired

  /** RedeemAuthCode: GETDEL first, then the embedded deadline. */
  function Redeem(s: Store, at: int, code: string): (Store, Result<AuthCode, RedeemError>) {
    if code !in s.codes then (s, Err(NoSuchCode))
    else
      var a := s.codes[code].value;
      (s.(codes := s.codes - {code}),
       if a.expiresAt != 0 && at > a.expiresAt then Err(CodeExpired) else Ok(a))
  }
}
