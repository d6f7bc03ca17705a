/** What the counters of the simulated peer say in every reachable state. */
module SendConservation {
  import opened Wrappers
  import opened SendLedger

  /** Exactly the accepted attempts wait, except the one being handled under the lock. */
  ghost predicate WaitsBut(p: Peer, busy: Option<nat>) {
    && p.attempts == |p.trace|
    && (busy.Some? ==> busy.value < |p.trace| && busy.value !in p.waiting)
    && (forall i: nat :: i in p.waiting || busy == Some(i) <==> i < |p.trace| && p.trace[i].outcome == Accepted)
    && (forall i | i in p.waiting ::
          i < |p.trace| && p.trace[i].session == p.waiting[i].session && p.trace[i].to == p.waiting[i].send.to)
  }

  /** No wake-up is lost: an open gate is the one its session would close. */
  ghost predicate Gated(p: Peer) {
    && (forall i | i in p.waiting ::
          p.waiting[i].session in p.sessions
          && (p.waiting[i].gate in p.closed || p.sessions[p.waiting[i].session].gate == Some(p.waiting[i].gate)))
    && (forall g | g in p.closed :: g < p.gates)
    && (forall k | k in p.sessions && p.sessions[k].gate.Some? ::
          p.sessions[k].gate.value < p.gates && p.sessions[k].gate.value !in p.closed)
    && (forall j, k | j in p.sessions && k in p.sessions ::
          p.sessions[j].gate.Some? && p.sessions[j].gate == p.sessions[k].gate ==> j == k)
  }

  predicate Busy(p: Peer, busy: Option<nat>, key: string) {
    busy.Some? && busy.value < |p.trace| && p.trace[busy.value].session == key
  }

  /** Each session's counters count its own attempts. */
  ghost predicate SessionsBut(p: Peer, busy: Option<nat>) {
    forall key: string :: SessionCounts(p, busy, key)
  }

  predicate SessionCounts(p: Peer, busy: Option<nat>, key: string) {
    && SessionOf(p, key).attempts == Of(p.trace, key)
    && SessionOf(p, key).blocked + Flag(Busy(p, busy, key)) == Open(p.trace, key)
  }

  /** The global counters, and the messages. */
  ghost predicate TotalsBut(p: Peer, busy: Option<nat>) {
    && p.blocked + Flag(busy.Some?) == Count(p.trace, Accepted)
    && SumBlocked(p.sessions) == p.blocked
    && Deliveries(p.trace) == Captures(p.captures)
  }

  ghost predicate BalancedBut(p: Peer, busy: Option<nat>) {
    WaitsBut(p, busy) && Gated(p) && SessionsBut(p, busy) && TotalsBut(p, busy)
  }

  ghost predicate Balanced(p: Peer) { BalancedBut(p, None) }

  // ---------- the pieces of an operation ----------

  lemma EntersWaits(p: Peer, key: string, send: Send)
    requires WaitsBut(p, None)
    ensures WaitsBut(Entered(p, key, send), Some(|p.trace|))
  {
  }

  lemma EntersSessions(p: Peer, key: string, send: Send)
    requires SessionsBut(p, None)
    ensures SessionsBut(Entered(p, key, send), Some(|p.trace|))
  {
    var q := Entered(p, key, send);
    assert q.trace[..|p.trace|] == p.trace;
    forall k: string ensures SessionCounts(q, Some(|p.trace|), k) { assert SessionCounts(p, None, k); }
  }

  lemma EntersTotals(p: Peer, key: string, send: Send)
    requires TotalsBut(p, None)
    ensures TotalsBut(Entered(p, key, send), Some(|p.trace|))
  {
    var q := Entered(p, key, send);
    assert q.trace[..|p.trace|] == p.trace;
    SumSet(p.sessions, key, q.sessions[key]);
  }

  lemma EntersGated(p: Peer, key: string, send: Send)
    requires Gated(p)
    ensures Gated(Entered(p, key, send))
  {
  }

  lemma Enters(p: Peer, key: string, send: Send)
    requires Balanced(p)
    ensures BalancedBut(Entered(p, key, send), Some(|p.trace|))
  {
    hide WaitsBut, SessionsBut, TotalsBut, Gated, Entered;
    EntersWaits(p, key, send);
    EntersSessions(p, key, send);
    EntersTotals(p, key, send);
    EntersGated(p, key, send);
  }

  /** Writing down the outcome of the attempt at hand; a committed one has been captured. */
  lemma Settles(p: Peer, i: nat, a: Attempt, cs: seq<Capture>)
    requires BalancedBut(p, Some(i)) && i < |p.trace|
    requires a.outcome != Accepted && a.session == p.trace[i].session && a.to == p.trace[i].to
    requires if Committed(a.outcome) then cs != [] && cs == p.captures + [Capture(cs[|cs| - 1].id, a.to, a.session)]
             else cs == p.captures
    ensures Balanced(p.(trace := p.trace[i := a], captures := cs))
  {
    var q := p.(trace := p.trace[i := a], captures := cs);
    SettlesWaits(p, q, i, a);
    SettlesSessions(p, q, i, a);
    SettlesTotals(p, q, i, a);
    hide WaitsBut, SessionsBut, TotalsBut;
  }

  lemma SettlesTotals(p: Peer, q: Peer, i: nat, a: Attempt)
    requires i < |p.trace| && TotalsBut(p, Some(i)) && q == p.(trace := p.trace[i := a], captures := q.captures)
    requires p.trace[i].outcome == Accepted && a.outcome != Accepted
    requires if Committed(a.outcome)
             then q.captures != []
                  && q.captures == p.captures + [Capture(q.captures[|q.captures| - 1].id, a.to, a.session)]
             else q.captures == p.captures
    ensures TotalsBut(q, None)
  {
    CountSet(p.trace, i, a, Accepted);
    DeliveriesSet(p.trace, i, a);
    assert Deliveries(q.trace) + Delivery(p.trace[i]) == Deliveries(q.trace);
    if Committed(a.outcome) {
      assert q.captures[..|q.captures| - 1] == p.captures;
      assert Captures(q.captures) == Captures(p.captures) + multiset{(a.session, a.to)};
    } else {
      assert Deliveries(p.trace) + Delivery(a) == Deliveries(p.trace);
    }
  }

  lemma SettlesWaits(p: Peer, q: Peer, i: nat, a: Attempt)
    requires WaitsBut(p, Some(i)) && q == p.(trace := p.trace[i := a], captures := q.captures)
    requires a.outcome != Accepted && a.session == p.trace[i].session && a.to == p.trace[i].to
    ensures WaitsBut(q, None)
  {
  }

  lemma SettlesSessions(p: Peer, q: Peer, i: nat, a: Attempt)
    requires i < |p.trace| && SessionsBut(p, Some(i)) && q == p.(trace := p.trace[i := a], captures := q.captures)
    requires p.trace[i].outcome == Accepted && a.outcome != Accepted && a.session == p.trace[i].session
    ensures SessionsBut(q, None)
  {
    forall k: string ensures SessionCounts(q, None, k) {
      assert SessionCounts(p, Some(i), k);
      OfSet(p.trace, i, a, k);
      OpenSet(p.trace, i, a, k);
    }
  }

  lemma Performs(p: Peer, i: nat, key: string, send: Send, sc: Scenario)
    requires BalancedBut(p, Some(i)) && i < |p.trace| && p.trace[i].session == key && p.trace[i].to == send.to
    ensures Balanced(Performed(p, i, key, send, sc))
  {
    hide BalancedBut, Numeral;
    InRange(p, i);
    var a := Performed(p, i, key, send, sc).trace[i];
    Settles(p, i, a, Performed(p, i, key, send, sc).captures);
  }

  lemma InRange(p: Peer, i: nat)
    requires BalancedBut(p, Some(i))
    ensures i < |p.trace| && p.trace[i].outcome == Accepted
  {
  }

  lemma BlocksGated(p: Peer, i: nat, key: string, send: Send)
    requires Gated(p)
    ensures Gated(Blocked(p, i, key, send))
  {
  }

  lemma BlocksSessions(p: Peer, i: nat, key: string, send: Send)
    requires SessionsBut(p, Some(i)) && i < |p.trace| && p.trace[i].session == key
    ensures SessionsBut(Blocked(p, i, key, send), None)
  {
    var q := Blocked(p, i, key, send);
    forall k: string ensures SessionCounts(q, None, k) { assert SessionCounts(p, Some(i), k); }
  }

  lemma Blocks(p: Peer, i: nat, key: string, send: Send)
    requires BalancedBut(p, Some(i)) && i < |p.trace| && p.trace[i].session == key && p.trace[i].to == send.to
    ensures Balanced(Blocked(p, i, key, send))
  {
    hide SessionsBut, Gated;
    var q := Blocked(p, i, key, send);
    BlocksGated(p, i, key, send);
    BlocksSessions(p, i, key, send);
    SumSet(p.sessions, key, q.sessions[key]);
  }

  lemma {:induction false} CountAtLeast(trace: seq<Attempt>, i: nat)
    requires i < |trace| && trace[i].outcome == Accepted
    ensures Count(trace, Accepted) > 0 && Open(trace, trace[i].session) > 0
    decreases |trace|
  {
    if i < |trace| - 1 { CountAtLeast(trace[..|trace| - 1], i); }
  }

  lemma Unblocks(p: Peer, i: nat)
    requires Balanced(p) && i in p.waiting
    ensures BalancedBut(Unblocked(p, i), Some(i))
    ensures var q := Unblocked(p, i);
            q.trace == p.trace && q.trace[i].session == p.waiting[i].session && q.trace[i].to == p.waiting[i].send.to
  {
    var q, key := Unblocked(p, i), p.waiting[i].session;
    CountAtLeast(p.trace, i);
    forall k: string ensures SessionCounts(q, Some(i), k) { assert SessionCounts(p, None, k); }
    assert SessionCounts(p, None, key);
    SumSet(p.sessions, key, q.sessions[key]);
  }

  // ---------- steps ----------

  lemma ArriveKeeps(p: Peer, key: string, send: Send)
    requires Balanced(p)
    ensures Balanced(Arrived(p, key, send))
  {
    hide BalancedBut;
    var i, q := |p.trace|, Entered(p, key, send);
    var se := SessionOf(q, key);
    Enters(p, key, send);
    if !se.connected {
      Settles(q, i, q.trace[i].(outcome := Disconnected), q.captures);
    } else if ScenarioOf(q, se.number) == BlockSend {
      Blocks(q, i, key, send);
    } else {
      Performs(q, i, key, send, ScenarioOf(q, se.number));
    }
  }

  lemma WakeKeeps(p: Peer, i: nat)
    requires Balanced(p) && Tracked(p, i)
    ensures Balanced(Woken(p, i)) && Balanced(Abandoned(p, i))
  {
    hide BalancedBut;
    var k, q := p.waiting[i], Unblocked(p, i);
    Unblocks(p, i);
    Settles(q, i, q.trace[i].(outcome := Disconnected), q.captures);
    Settles(q, i, q.trace[i].(outcome := Cancelled), q.captures);
    Performs(q, i, k.session, k.send, ScenarioOf(q, SessionOf(q, k.session).number));
  }

  /** Steps that touch no counter: sessions keep theirs, gates are only closed. */
  lemma QuietKeeps(p: Peer, q: Peer)
    requires Balanced(p) && q == p.(sessions := q.sessions, numbers := q.numbers, closed := q.closed) && Gated(q)
    requires p.sessions.Keys <= q.sessions.Keys
    requires forall k: string ::
               && SessionOf(q, k).attempts == SessionOf(p, k).attempts
               && SessionOf(q, k).blocked == SessionOf(p, k).blocked
    requires SumBlocked(q.sessions) == SumBlocked(p.sessions)
    ensures Balanced(q)
  {
    forall k: string ensures SessionCounts(q, None, k) { assert SessionCounts(p, None, k); }
  }

  lemma ReleaseKeeps(p: Peer, key: string)
    requires Balanced(p)
    ensures Balanced(Released(p, key))
    ensures forall i | i in p.waiting :: p.waiting[i].session == key ==> p.waiting[i].gate in Released(p, key).closed
  {
    hide WaitsBut, SessionsBut;
    var q := Released(p, key);
    SumSet(p.sessions, key, q.sessions[key]);
    QuietKeeps(p, q);
  }

  lemma AttachKeeps(p: Peer, key: string, number: string, connected: bool)
    requires Balanced(p)
    ensures Balanced(Attached(p, key, number, connected))
  {
    hide WaitsBut, SessionsBut;
    var q := Attached(p, key, number, connected);
    SumSet(p.sessions, key, q.sessions[key]);
    QuietKeeps(p, q);
  }

  lemma ConfigureKeeps(p: Peer, number: string, sc: Scenario)
    requires Balanced(p)
    ensures Balanced(Configured(p, number, sc))
  {
    var q := Configured(p, number, sc);
    SumSame(p.sessions, q.sessions);
    QuietKeeps(p, q);
  }

  lemma StepKeeps(p: Peer, s: Step)
    requires Balanced(p)
    ensures Balanced(Apply(p, s))
  {
    hide Balanced, Arrived, Woken, Abandoned, Released, Configured, Attached;
    if Enabled(p, s) {
      match s
      case Arrive(key, send) => ArriveKeeps(p, key, send);
      case Wake(i) => WakeKeeps(p, i);
      case Abandon(i) => WakeKeeps(p, i);
      case Release(key) => ReleaseKeeps(p, key);
      case Disconnect(key) =>
        AttachKeeps(p, key, SessionOf(p, key).number, false);
        CutIs(p, key);
        ReleaseKeeps(Attached(p, key, SessionOf(p, key).number, false), key);
      case Configure(number, sc) => ConfigureKeeps(p, number, sc);
      case Attach(key, number, connected) => AttachKeeps(p, key, number, connected);
    }
  }

  lemma CutIs(p: Peer, key: string)
    ensures Cut(p, key) == Released(Attached(p, key, SessionOf(p, key).number, false), key)
  {
  }

  lemma {:induction false} RunKeeps(p: Peer, steps: seq<Step>)
    requires Balanced(p)
    ensures Balanced(Exec(p, steps))
    decreases |steps|
  {
    hide Balanced, Apply;
    if steps != [] {
      StepKeeps(p, steps[0]);
      RunKeeps(Apply(p, steps[0]), steps[1..]);
    }
  }

  // ---------- the guarantees ----------

  /** Attempts, blocked senders and captures balance whenever the lock is free. */
  lemma SendsBalance(steps: seq<Step>)
    ensures var p := Exec(Init(), steps);
            && p.attempts == |p.waiting| + Count(p.trace, Disconnected) + Count(p.trace, Cancelled)
                             + Count(p.trace, Rejected)
                             + Count(p.trace, AckLost) + Count(p.trace, Acknowledged)
            && |p.captures| == Count(p.trace, AckLost) + Count(p.trace, Acknowledged)
            && Captures(p.captures) == Deliveries(p.trace)
            && p.blocked == SumBlocked(p.sessions) == |p.waiting| == Count(p.trace, Accepted)
            && (forall i: nat :: i in p.waiting <==> i < |p.trace| && p.trace[i].outcome == Accepted)
            && (forall k | k in p.sessions ::
                  p.sessions[k].attempts == Of(p.trace, k) && p.sessions[k].blocked == Open(p.trace, k))
  {
    RunKeeps(Init(), steps);
    var p := Exec(Init(), steps);
    forall k | k in p.sessions
      ensures p.sessions[k].attempts == Of(p.trace, k) && p.sessions[k].blocked == Open(p.trace, k)
    {
      assert SessionCounts(p, None, k);
    }
    AcceptedAre(p.trace, p.waiting.Keys);
    CountsAll(p.trace);
    DeliveriesCount(p.trace);
    CapturesCount(p.captures);
  }

  lemma ReleaseWakes(p: Peer, key: string, i: nat)
    requires Balanced(p) && i in p.waiting && p.waiting[i].session == key
    ensures Enabled(Apply(p, Release(key)), Wake(i))
  {
    hide SessionsBut, TotalsBut, Gated;
    ReleaseKeeps(p, key);
  }

  lemma DisconnectWakes(p: Peer, key: string, i: nat)
    requires Balanced(p) && i in p.waiting && p.waiting[i].session == key
    ensures Enabled(Apply(p, Disconnect(key)), Wake(i))
  {
    hide Balanced;
    AttachKeeps(p, key, SessionOf(p, key).number, false);
    CutIs(p, key);
    ReleaseWakes(Attached(p, key, SessionOf(p, key).number, false), key, i);
  }

  /**
   After a release or a disconnect every sender waiting for the session can go on, and none waits at
   a gate nobody will close.
   */
  lemma NoLostWakeup(steps: seq<Step>, key: string, i: nat)
    ensures var p := Exec(Init(), steps);
            i in p.waiting ==>
              && i < |p.trace|
              && (p.waiting[i].session == key ==>
                    Enabled(Apply(p, Release(key)), Wake(i)) && Enabled(Apply(p, Disconnect(key)), Wake(i)))
              && (!Enabled(p, Wake(i)) ==> SessionOf(p, p.waiting[i].session).gate == Some(p.waiting[i].gate))
  {
    RunKeeps(Init(), steps);
    var p := Exec(Init(), steps);
    hide SessionsBut, TotalsBut, Apply, Exec;
    if i in p.waiting && p.waiting[i].session == key {
      ReleaseWakes(p, key, i);
      DisconnectWakes(p, key, i);
    }
  }

  /** Attempts are only appended, and an outcome once settled is never rewritten. */
  predicate Follows(p: Peer, q: Peer) {
    && |p.trace| <= |q.trace| && |p.captures| <= |q.captures| && p.captures == q.captures[..|p.captures|]
    && (forall i | 0 <= i < |p.trace| :: p.trace[i].session == q.trace[i].session && p.trace[i].to == q.trace[i].to
                                     && (p.trace[i].outcome != Accepted ==> q.trace[i] == p.trace[i]))
  }

  lemma ArriveFollows(p: Peer, key: string, send: Send)
    ensures Follows(p, Arrived(p, key, send))
  {
    hide Numeral;
  }

  lemma WakeFollows(p: Peer, i: nat)
    requires Tracked(p, i) && p.trace[i].outcome == Accepted
    ensures Follows(p, Woken(p, i)) && Follows(p, Abandoned(p, i))
  {
    hide Numeral;
  }

  lemma StepFollows(p: Peer, s: Step)
    requires Balanced(p)
    ensures Follows(p, Apply(p, s))
  {
    hide Arrived, Woken, Abandoned, Follows, SessionsBut, TotalsBut, Gated;
    assert Follows(p, p) by { SameTrace(p, p); }
    if Enabled(p, s) {
      match s
      case Arrive(key, send) => ArriveFollows(p, key, send);
      case Wake(i) => WakeFollows(p, i);
      case Abandon(i) => WakeFollows(p, i);
      case _ => SameTrace(p, Apply(p, s));
    }
  }

  lemma SameTrace(p: Peer, q: Peer)
    requires q.trace == p.trace && q.captures == p.captures
    ensures Follows(p, q)
  {
  }

  lemma {:induction false} SettledForGood(p: Peer, steps: seq<Step>)
    requires Balanced(p)
    ensures Follows(p, Exec(p, steps))
    decreases |steps|
  {
    hide Balanced, Apply;
    if steps != [] {
      StepFollows(p, steps[0]);
      StepKeeps(p, steps[0]);
      SettledForGood(Apply(p, steps[0]), steps[1..]);
    }
  }
}
