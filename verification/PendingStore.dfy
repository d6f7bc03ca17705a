/**
 The store itself: the Redis keys as fields that each script overwrites in place,
 statement by statement. Every method is proved to be the transition of module
 Pending that carries its name.
 */
module PendingStore {
  import opened Wrappers
  import opened Pending

  class PendingStore {
    var reqs: map<string, Key<Request>>
    var index: map<IndexKey, Key<Ref>>
    var wrong: map<string, Key<nat>>
    var codes: map<string, Key<AuthCode>>
    var stops: map<string, Key<string>>
    var blocks: map<(string, string), int>
    var published: seq<Notice>

    constructor ()
      ensures Contents() == Store(map[], map[], map[], map[], map[], map[], [])
    {
      reqs, index, wrong, codes, stops, blocks, published := map[], map[], map[], map[], map[], map[], [];
    }

    function Contents(): Store
      reads this
    {
      Store(reqs, index, wrong, codes, stops, blocks, published)
    }

    method ReserveUserCode(now: int, at: int, k: IndexKey, expiresAt: int) returns (ok: bool)
      modifies this`index
      ensures (Contents(), ok) == Reserve(old(Contents()), now, at, k, expiresAt)
    {
      var ttl := expiresAt - at;
      if ttl <= 0 { return false; }
      if k in index { return false; }
      index := index[k := Key(Reserved, now + ttl)];
      return true;
    }

    method Load(at: int, browser: string) returns (found: Option<Request>)
      ensures found == Pending.Load(Contents(), at, browser)
    {
      if browser !in reqs { return None; }
      var p := reqs[browser].value;
      if p.expiresAt <= at || p.status == Expired { return None; }
      return Some(p);
    }

    method Create(at: int, browser: string, p: Request) returns (ok: bool)
      modifies this
      ensures (Contents(), ok) == Pending.Create(old(Contents()), at, browser, p)
    {
      if p.expiresAt <= at { return false; }
      if browser in reqs { return false; }
      if IndexOf(p) in index && index[IndexOf(p)].value != Reserved { return false; }
      reqs := reqs[browser := Key(p, p.expiresAt)];
      index := index[IndexOf(p) := Key(Live(browser), p.expiresAt)];
      return true;
    }

    /** INCR and, for a new counter, EXPIRE. */
    method Count(now: int, sender: string) returns (n: nat)
      modifies this`wrong
      ensures wrong == Incr(old(wrong), now, sender) && n == wrong[sender].value
    {
      if sender in wrong {
        wrong := wrong[sender := wrong[sender].(value := wrong[sender].value + 1)];
      } else {
        wrong := wrong[sender := Key(1, now + WRONG_WINDOW_MS)];
      }
      n := wrong[sender].value;
    }

    method Bump(now: int, k: IndexKey, browser: string, sender: string, mismatch: ClaimStatus)
      returns (answer: ClaimResult)
      requires browser in reqs
      modifies this
      ensures (Contents(), answer) == Pending.Bump(old(Contents()), now, k, browser, sender, mismatch)
    {
      var r := reqs[browser].value;
      var senderWrong := Count(now, sender);
      if senderWrong > SENDER_LIMIT {
        return ClaimResult(RateLimited, browser, r.client, r.attempts);
      }
      var expiresAt := r.expiresAt;
      r := r.(attempts := r.attempts + 1);
      if r.attempts >= ATTEMPT_LIMIT {
        r := r.(status := Denied);
        reqs := reqs[browser := Key(r, expiresAt)];
        index := index - {k};
        published := published + [Notice(browser, Denied)];
        return ClaimResult(Is(Denied), browser, r.client, r.attempts);
      }
      reqs := reqs[browser := Key(r, expiresAt)];
      return ClaimResult(mismatch, browser, r.client, r.attempts);
    }

    method Accept(k: IndexKey, browser: string, c: ClaimInput) returns (answer: ClaimResult)
      requires browser in reqs
      modifies this
      ensures (Contents(), answer) == Pending.Accept(old(Contents()), k, browser, c)
    {
      var r := reqs[browser].value;
      var expiresAt := r.expiresAt;
      r := r.(status := Verified, verified := Some(c.identity));
      var verifiedUntil := expiresAt;
      var graceUntil := c.at + VERIFIED_GRACE_MS;
      if graceUntil < verifiedUntil { verifiedUntil := graceUntil; }
      r := r.(expiresAt := verifiedUntil);
      reqs := reqs[browser := Key(r, verifiedUntil)];
      var usedUntil := verifiedUntil;
      var usedMin := c.at + USED_MARKER_MS;
      if usedMin < usedUntil { usedUntil := usedMin; }
      index := index[k := Key(Used(browser), usedUntil)];
      published := published + [Notice(browser, Verified)];
      return ClaimResult(Is(Verified), browser, r.client, r.attempts);
    }

    method ClaimVerified(now: int, c: ClaimInput) returns (answer: ClaimResult)
      modifies this
      ensures (Contents(), answer) == Pending.Claim(old(Contents()), now, c)
    {
      var k := IndexKey(c.session, c.userCode);
      if k !in index { return ClaimResult(Is(Expired), "", "", 0); }
      var ref := index[k].value;
      if ref.Used? { return ClaimResult(AlreadyUsed, ref.browser, "", 0); }
      var browser := if ref.Live? then ref.browser else "";
      if browser !in reqs {
        index := index - {k};
        return ClaimResult(Is(Expired), browser, "", 0);
      }
      var r := reqs[browser].value;
      if r.expiresAt <= c.at {
        index := index - {k};
        return ClaimResult(Is(Expired), browser, r.client, r.attempts);
      }
      if r.status == Verified || r.status == Finalized {
        return ClaimResult(AlreadyUsed, browser, r.client, r.attempts);
      }
      if r.status != Pending {
        return ClaimResult(Is(r.status), browser, r.client, r.attempts);
      }
      if r.session != c.session || r.mode != c.mode {
        answer := Bump(now, k, browser, c.identity.lid, ModeMismatch);
        return;
      }
      if Lower(r.command) != c.command {
        answer := Bump(now, k, browser, c.identity.lid, CommandMismatch);
        return;
      }
      answer := Accept(k, browser, c);
    }

    method ClaimWrongCode(now: int, sender: string) returns (answer: ClaimResult)
      modifies this
      ensures (Contents(), answer) == Pending.WrongCode(old(Contents()), now, sender)
    {
      var n := Count(now, sender);
      answer := ClaimResult(if n > SENDER_LIMIT then RateLimited else Wrong, "", "", n);
    }

    method RememberStop(now: int, sender: string, browser: string)
      modifies this
      ensures Contents() == Pending.Remember(old(Contents()), now, sender, browser)
    {
      stops := stops[sender := Key(browser, now + STOP_POINTER_MS)];
    }

    method StopScript(now: int, sender: string, browser: string) returns (answer: ClaimResult)
      modifies this
      ensures (Contents(), answer) == Pending.Stop(old(Contents()), now, sender, browser)
    {
      if browser !in reqs { return ClaimResult(Is(Expired), browser, "", 0); }
      var r := reqs[browser].value;
      if r.status != Verified { return ClaimResult(Is(r.status), browser, r.client, r.attempts); }
      r := r.(status := Denied);
      reqs := reqs[browser := Key(r, now + STOP_RETAIN_MS)];
      index := index - {IndexKey(r.session, r.userCode)};
      stops := stops - {sender};
      blocks := blocks[(sender, browser) := now + STOP_RETAIN_MS];
      published := published + [Notice(browser, Denied)];
      return ClaimResult(Is(Denied), browser, r.client, r.attempts);
    }

    method Transition(now: int, at: int, browser: string, c: Change) returns (state: nat)
      modifies this
      ensures (Contents(), state) == Pending.Transition(old(Contents()), now, at, browser, c)
    {
      if browser !in reqs { return 0; }
      var r := reqs[browser].value;
      if c.session != "" && r.session != c.session { return 0; }
      if c.client != "" && r.client != c.client { return 0; }
      var allowed := r.status == Pending || (c.allowVerified && r.status == Verified);
      if !allowed { return 1; }
      r := r.(status := c.target);
      if c.retain > 0 {
        reqs := reqs[browser := Key(r, now + c.retain)];
      } else if r.expiresAt > at {
        reqs := reqs[browser := Key(r, r.expiresAt)];
      } else {
        reqs := reqs[browser := Key(r, now + CLOSED_RETAIN_MS)];
      }
      index := index - {IndexKey(r.session, r.userCode)};
      published := published + [Notice(browser, c.target)];
      return 2;
    }

    method Finalize(at: int, browser: string, grant: Grant, auth: AuthCode) returns (answer: Option<Request>)
      modifies this
      ensures (Contents(), answer) == Pending.Finalize(old(Contents()), at, browser, grant, auth)
    {
      if browser !in reqs { return None; }
      var r := reqs[browser].value;
      if r.expiresAt <= at { return None; }
      if r.status == Finalized { return Some(r); }
      if r.status != Verified { return None; }
      r := r.(status := Finalized);
      r := r.(finalized := Some(grant));
      codes := codes[grant.code := Key(auth, auth.expiresAt)];
      reqs := reqs[browser := Key(r, r.expiresAt)];
      return Some(r);
    }

    method RedeemAuthCode(at: int, code: string) returns (answer: Result<AuthCode, RedeemError>)
      modifies this
      ensures (Contents(), answer) == Pending.Redeem(old(Contents()), at, code)
    {
      if code !in codes { return Err(NoSuchCode); }
      var payload := codes[code].value;
      codes := codes - {code};
      if payload.expiresAt != 0 && at > payload.expiresAt { return Err(CodeExpired); }
      return Ok(payload);
    }
  }
}
