/** When the counter windows open, and the rate of attempts that follows. */
module HandshakeWindows {
  import opened Wrappers
  import opened Pending
  import opened Handshake
  import opened HandshakeFlows
  import opened HandshakeMisses

  /**
   The windows of a sender are numbered from one without a gap and open at least
   WRONG_WINDOW_MS apart. While the sender's counter is there, its expiry is the end of
   the latest window; once it is gone, that end has passed. Misses lie in these windows.
   */
  ghost predicate SenderTimed(h: History, wrong: map<string, Key<nat>>, start: int, now: int, x: string) {
    var n := WindowOf(h, x);
    && (forall m: nat :: (x, m) in h.openings <==> 1 <= m <= n)
    && (forall m: nat | 1 <= m < n :: h.openings[(x, m)] + WRONG_WINDOW_MS <= h.openings[(x, m + 1)])
    && (forall m: nat | 1 <= m <= n :: start <= h.openings[(x, m)] <= now)
    && (x in wrong ==> n >= 1 && wrong[x].expireAt == h.openings[(x, n)] + WRONG_WINDOW_MS)
    && (x !in wrong && n >= 1 ==> h.openings[(x, n)] + WRONG_WINDOW_MS <= now)
    && (forall i :: 0 <= i < |h.misses| && h.misses[i].sender == x ==> 1 <= h.misses[i].window <= n)
  }

  ghost predicate Timed(h: History, wrong: map<string, Key<nat>>, start: int, now: int) {
    forall x :: SenderTimed(h, wrong, start, now, x)
  }

  /** Counters only went away, and only when they were due. */
  predicate Lapses(wrong: map<string, Key<nat>>, wrong': map<string, Key<nat>>, now: int) {
    && (forall x :: x in wrong' ==> x in wrong && wrong'[x] == wrong[x])
    && (forall x :: x in wrong && x !in wrong' ==> wrong[x].expireAt <= now)
  }

  lemma TimedKept(h: History, h': History, wrong: map<string, Key<nat>>, wrong': map<string, Key<nat>>,
                  start: int, now: int, now': int)
    requires Timed(h, wrong, start, now) && SameCounts(h, h') && Lapses(wrong, wrong', now) && now <= now'
    ensures Timed(h', wrong', start, now')
  {
    forall x ensures SenderTimed(h', wrong', start, now', x) {
      assert SenderTimed(h, wrong, start, now, x);
    }
  }

  /** A counter that is missing when it is incremented has been due: the new window opens late enough. */
  lemma TimedOpened(h: History, s: Store, start: int, now: int, x: string)
    requires SenderTimed(h, s.wrong, start, now, x) && start <= now && x !in s.wrong
    ensures SenderTimed(OpenWindow(h, s, now, x), Incr(s.wrong, now, x), start, now, x)
  {
    var h', n := OpenWindow(h, s, now, x), WindowOf(h, x);
    assert h'.openings[(x, n + 1)] == now;
    assert forall m: nat | 1 <= m <= n :: (x, m) in h.openings && h'.openings[(x, m)] == h.openings[(x, m)];
  }

  lemma TimedCounted(h: History, s: Store, start: int, now: int, sender: string)
    requires Timed(h, s.wrong, start, now) && start <= now
    ensures Timed(OpenWindow(h, s, now, sender), Incr(s.wrong, now, sender), start, now)
  {
    var h', wrong' := OpenWindow(h, s, now, sender), Incr(s.wrong, now, sender);
    forall x ensures SenderTimed(h', wrong', start, now, x) {
      assert SenderTimed(h, s.wrong, start, now, x);
      if x == sender && x !in s.wrong { TimedOpened(h, s, start, now, x); }
      else { TimedElse(h, s, start, now, sender, x); }
    }
  }

  lemma TimedElse(h: History, s: Store, start: int, now: int, sender: string, x: string)
    requires SenderTimed(h, s.wrong, start, now, x) && (x == sender ==> x in s.wrong)
    ensures SenderTimed(OpenWindow(h, s, now, sender), Incr(s.wrong, now, sender), start, now, x)
  {
    var h' := OpenWindow(h, s, now, sender);
    assert WindowOf(h', x) == WindowOf(h, x) && h'.misses == h.misses;
    assert forall m: nat :: (x, m) in h'.openings <==> (x, m) in h.openings;
    assert forall m: nat | (x, m) in h.openings :: h'.openings[(x, m)] == h.openings[(x, m)];
  }

  lemma TimedMissed(h: History, wrong: map<string, Key<nat>>, start: int, now: int, m: Miss)
    requires Timed(h, wrong, start, now) && m.sender in wrong && m.window == WindowOf(h, m.sender)
    ensures Timed(h.(misses := h.misses + [m]), wrong, start, now)
  {
    var h' := h.(misses := h.misses + [m]);
    forall x ensures SenderTimed(h', wrong, start, now, x) {
      assert SenderTimed(h, wrong, start, now, x);
    }
  }

  // ---------- every step keeps the windows timed ----------

  lemma TimedBump(w: World, c: ClaimInput, b: string, mismatch: ClaimStatus, start: int)
    requires Timed(w.hist, w.store.wrong, start, w.now) && start <= w.now
    requires b in w.store.reqs && mismatch != RateLimited
    ensures var answer := Bump(w.store, w.now, IndexKey(c.session, c.userCode), b, c.identity.lid, mismatch);
            Timed(NoteClaim(w.hist, w.store, answer.0, w.now, c, answer.1), answer.0.wrong, start, w.now)
  {
    hide Timed, Bump, NoteClaim;
    var sender := c.identity.lid;
    var answer := Bump(w.store, w.now, IndexKey(c.session, c.userCode), b, sender, mismatch);
    var counted := OpenWindow(w.hist, w.store, w.now, sender);
    MissNoted(w, c, b, mismatch);
    TimedCounted(w.hist, w.store, start, w.now, sender);
    if answer.0.wrong[sender].value <= SENDER_LIMIT {
      TimedMissed(counted, answer.0.wrong, start, w.now, Miss(sender, WindowOf(counted, sender), b));
    }
  }

  lemma TimedClaim(w: World, c: ClaimInput, start: int)
    requires Timed(w.hist, w.store.wrong, start, w.now) && start <= w.now
    ensures var answer := Claim(w.store, w.now, c);
            Timed(NoteClaim(w.hist, w.store, answer.0, w.now, c, answer.1), answer.0.wrong, start, w.now)
  {
    hide Timed, Claim, Bump;
    var answer := Claim(w.store, w.now, c);
    var k := IndexKey(c.session, c.userCode);
    var b := ClaimCases(w.store, w.now, c);
    if Reaches(w.store, c, b) && answer == Bump(w.store, w.now, k, b, c.identity.lid, ModeMismatch) {
      TimedBump(w, c, b, ModeMismatch, start);
    } else if Reaches(w.store, c, b) && answer == Bump(w.store, w.now, k, b, c.identity.lid, CommandMismatch) {
      TimedBump(w, c, b, CommandMismatch, start);
    } else {
      var noted := NoteClaim(w.hist, w.store, answer.0, w.now, c, answer.1);
      TimedKept(w.hist, noted, w.store.wrong, answer.0.wrong, start, w.now, w.now);
    }
  }

  lemma OthersKeepCounters(w: World, step: Step)
    requires !step.DoClaim? && !step.DoWrongCode? && !step.Drop?
    ensures StoreAfter(w, step).wrong == w.store.wrong
  {
  }

  lemma LapseIsDue(w: World, l: Lapse)
    requires Lapsed(w.store, w.now, l)
    ensures Lapses(w.store.wrong, StoreAfter(w, Drop(l)).wrong, w.now)
  {
  }

  lemma OthersLapse(w: World, step: Step)
    requires Enabled(w, step) && !step.DoClaim? && !step.DoWrongCode?
    ensures Lapses(w.store.wrong, StoreAfter(w, step).wrong, w.now)
  {
    hide StoreAfter;
    match step
    case Drop(l) => LapseIsDue(w, l);
    case _ => OthersKeepCounters(w, step);
  }

  lemma OthersOpenNothing(w: World, step: Step)
    requires !step.DoClaim? && !step.DoWrongCode?
    ensures SameCounts(w.hist, Noted(w, step))
  {
    hide Create;
    if !step.DoCreate? { OthersNoteNothing(w, step); }
  }

  lemma TimedNoted(w: World, step: Step, start: int)
    requires Timed(w.hist, w.store.wrong, start, w.now) && start <= w.now && Enabled(w, step)
    ensures Timed(Noted(w, step), StoreAfter(w, step).wrong, start, w.now)
  {
    hide Timed, Claim, NoteClaim, OpenWindow, Lapses;
    match step
    case DoClaim(c) => TimedClaim(w, c, start);
    case DoWrongCode(sender) => TimedCounted(w.hist, w.store, start, w.now, sender);
    case _ =>
      OthersLapse(w, step);
      OthersOpenNothing(w, step);
      TimedKept(w.hist, Noted(w, step), w.store.wrong, StoreAfter(w, step).wrong, start, w.now, w.now);
  }

  lemma TimedStep(w: World, step: Step, start: int)
    requires Timed(w.hist, w.store.wrong, start, w.now) && start <= w.now
    ensures var w' := Apply(w, step); Timed(w'.hist, w'.store.wrong, start, w'.now) && start <= w'.now
  {
    hide Timed, Noted, StoreAfter, Overlay, Enabled;
    if Enabled(w, step) {
      TimedNoted(w, step, start);
      var w' := Apply(w, step);
      TimedKept(Noted(w, step), w'.hist, w'.store.wrong, w'.store.wrong, start, w.now, w'.now);
    }
  }

  lemma {:induction false} TimedRun(w: World, steps: seq<Step>, start: int)
    requires Timed(w.hist, w.store.wrong, start, w.now) && start <= w.now
    ensures var e := Exec(w, steps); Timed(e.hist, e.store.wrong, start, e.now) && start <= e.now
    decreases |steps|
  {
    hide Timed, Apply;
    if steps != [] {
      TimedStep(w, steps[0], start);
      TimedRun(Apply(w, steps[0]), steps[1..], start);
    }
  }

  lemma TimedInit(start: int)
    ensures Timed(Init(start).hist, Init(start).store.wrong, start, Init(start).now)
  {
  }

  // ---------- the rate ----------

  lemma {:induction false} OpeningsApart(h: History, wrong: map<string, Key<nat>>, start: int, now: int, x: string,
                                         m: nat, n: nat)
    requires SenderTimed(h, wrong, start, now, x) && 1 <= m <= n <= WindowOf(h, x)
    ensures h.openings[(x, m)] + (n - m) * WRONG_WINDOW_MS <= h.openings[(x, n)]
    decreases n
  {
    if m < n { OpeningsApart(h, wrong, start, now, x, m, n - 1); }
  }

  /**
   The windows of one sender open at least WRONG_WINDOW_MS apart, whatever else happens
   between them: the n-th no earlier than n - m windows after the m-th.
   */
  lemma WindowsApart(start: int, steps: seq<Step>, x: string, m: nat, n: nat)
    requires 1 <= m <= n <= WindowOf(Exec(Init(start), steps).hist, x)
    ensures var w := Exec(Init(start), steps);
            && (x, m) in w.hist.openings && (x, n) in w.hist.openings
            && start <= w.hist.openings[(x, m)]
            && w.hist.openings[(x, m)] + (n - m) * WRONG_WINDOW_MS <= w.hist.openings[(x, n)] <= w.now
  {
    var w := Exec(Init(start), steps);
    TimedRun(Init(start), steps, start);
    hide Exec;
    assert SenderTimed(w.hist, w.store.wrong, start, w.now, x);
    OpeningsApart(w.hist, w.store.wrong, start, w.now, x, m, n);
  }

  function CountSender(ms: seq<Miss>, x: string): nat {
    if ms == [] then 0 else CountSender(ms[..|ms| - 1], x) + if ms[|ms| - 1].sender == x then 1 else 0
  }

  /** The misses of a sender in its first n windows. */
  function CountUpTo(ms: seq<Miss>, x: string, n: nat): nat {
    if ms == [] then 0
    else CountUpTo(ms[..|ms| - 1], x, n) + if ms[|ms| - 1].sender == x && ms[|ms| - 1].window <= n then 1 else 0
  }

  lemma {:induction false} UpToAll(ms: seq<Miss>, x: string, n: nat)
    requires forall i :: 0 <= i < |ms| && ms[i].sender == x ==> 1 <= ms[i].window <= n
    ensures CountUpTo(ms, x, n) == CountSender(ms, x) && CountUpTo(ms, x, 0) == 0
  {
    if ms != [] { UpToAll(ms[..|ms| - 1], x, n); }
  }

  lemma {:induction false} UpToSplit(ms: seq<Miss>, x: string, n: nat)
    requires n >= 1
    ensures CountUpTo(ms, x, n) == CountUpTo(ms, x, n - 1) + CountWindow(ms, x, n)
  {
    if ms != [] { UpToSplit(ms[..|ms| - 1], x, n); }
  }

  lemma {:induction false} UpToBound(ms: seq<Miss>, x: string, n: nat)
    requires CountUpTo(ms, x, 0) == 0 && forall m: nat :: CountWindow(ms, x, m) <= SENDER_LIMIT
    ensures CountUpTo(ms, x, n) <= SENDER_LIMIT * n
  {
    if n > 0 {
      UpToSplit(ms, x, n);
      UpToBound(ms, x, n - 1);
    }
  }

  lemma SenderWithin(h: History, wrong: map<string, Key<nat>>, start: int, now: int, x: string)
    requires SenderTimed(h, wrong, start, now, x) && forall m: nat :: CountWindow(h.misses, x, m) <= SENDER_LIMIT
    ensures CountSender(h.misses, x) <= SENDER_LIMIT * WindowOf(h, x)
  {
    UpToAll(h.misses, x, WindowOf(h, x));
    UpToBound(h.misses, x, WindowOf(h, x));
  }

  lemma WindowsWithin(h: History, wrong: map<string, Key<nat>>, start: int, now: int, x: string)
    requires SenderTimed(h, wrong, start, now, x) && start <= now
    ensures WindowOf(h, x) <= (now - start) / WRONG_WINDOW_MS + 1
  {
    if WindowOf(h, x) >= 1 { OpeningsApart(h, wrong, start, now, x, 1, WindowOf(h, x)); }
  }

  /**
   Over any run a sender adds at most five attempts, to whatever requests, for every
   five minutes that have begun since the start.
   */
  lemma SenderRate(start: int, steps: seq<Step>, x: string)
    ensures var w := Exec(Init(start), steps);
            start <= w.now && CountSender(w.hist.misses, x) <= SENDER_LIMIT * ((w.now - start) / WRONG_WINDOW_MS + 1)
  {
    hide SenderTimed, CountSender, WindowOf, CountWindow;
    var w := Exec(Init(start), steps);
    TimedInit(start);
    TimedRun(Init(start), steps, start);
    AttemptAccounting(start, steps);
    hide Exec;
    assert SenderTimed(w.hist, w.store.wrong, start, w.now, x);
    SenderWithin(w.hist, w.store.wrong, start, w.now, x);
    WindowsWithin(w.hist, w.store.wrong, start, w.now, x);
  }
}
