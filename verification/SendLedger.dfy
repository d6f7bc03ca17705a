/**
 Sends to the simulated peer: attempts, senders that block until they are released,
 and what was captured. One step is what happens under the server's lock.
 */
module SendLedger {
  import opened Wrappers

  datatype Scenario = Healthy | ConnectError | DisconnectAll | SendError | Server405 | UploadError | BlockSend
                    | CommitDropAck | Echo

  datatype Outcome = Accepted | Disconnected | Cancelled | Rejected | AckLost | Acknowledged

  predicate Committed(o: Outcome) { o == AckLost || o == Acknowledged }

  datatype Attempt = Attempt(session: string, id: string, to: string, outcome: Outcome)

  datatype Capture = Capture(id: string, to: string, session: string)

  datatype Send = Send(id: string, to: string)

  /** gate is the release channel senders of this session wait on. */
  datatype Session = Session(number: string, connected: bool, attempts: nat, blocked: nat, gate: Option<nat>)

  datatype Waiter = Waiter(session: string, send: Send, gate: nat)

  datatype Peer = Peer(
    numbers: map<string, Scenario>,
    sessions: map<string, Session>,
    attempts: nat,
    blocked: nat,
    trace: seq<Attempt>,
    captures: seq<Capture>,
    waiting: map<nat, Waiter>,
    closed: set<nat>,
    gates: nat)

  const NO_SESSION := Session("", false, 0, 0, None)

  function Init(): Peer { Peer(map[], map[], 0, 0, [], [], map[], {}, 0) }

  function SessionOf(p: Peer, key: string): Session { if key in p.sessions then p.sessions[key] else NO_SESSION }

  function ScenarioOf(p: Peer, number: string): Scenario { if number in p.numbers then p.numbers[number] else Healthy }

  function Numeral(n: nat): string
    decreases n
  {
    if n < 10 then [('0' as int + n) as char] else Numeral(n / 10) + [('0' as int + n % 10) as char]
  }

  function Settle(p: Peer, i: nat, o: Outcome): Peer
    requires i < |p.trace|
  {
    p.(trace := p.trace[i := p.trace[i].(outcome := o)])
  }

  /** perform for a send, and the outcome that operation writes down for it. */
  function Performed(p: Peer, i: nat, key: string, send: Send, sc: Scenario): Peer
    requires i < |p.trace|
  {
    if sc == SendError || sc == Server405 then Settle(p, i, Rejected)
    else
      var id := if send.id == "" then "FAKE_" + Numeral(|p.captures| + 1) else send.id;
      var q := p.(captures := p.captures + [Capture(id, send.to, key)]);
      if sc == CommitDropAck then Settle(q, i, AckLost)
      else
        var a := p.trace[i];
        q.(trace := p.trace[i := a.(outcome := Acknowledged, id := if a.id == "" then id else a.id)])
  }

  function Entered(p: Peer, key: string, send: Send): Peer {
    var se := SessionOf(p, key);
    p.(attempts := p.attempts + 1, sessions := p.sessions[key := se.(attempts := se.attempts + 1)],
       trace := p.trace + [Attempt(key, send.id, send.to, Accepted)])
  }

  /** The sender waits on the session's gate, which is made when there is none. */
  function Blocked(p: Peer, i: nat, key: string, send: Send): Peer {
    var se := SessionOf(p, key);
    var gate := if se.gate.Some? then se.gate.value else p.gates;
    p.(sessions := p.sessions[key := se.(gate := Some(gate), blocked := se.blocked + 1)],
       blocked := p.blocked + 1,
       gates := if se.gate.Some? then p.gates else p.gates + 1,
       waiting := p.waiting[i := Waiter(key, send, gate)])
  }

  /** operation up to its reply, or up to where the sender blocks. */
  function Arrived(p: Peer, key: string, send: Send): Peer {
    var i := |p.trace|;
    var q := Entered(p, key, send);
    var se := SessionOf(q, key);
    if !se.connected then Settle(q, i, Disconnected)
    else if ScenarioOf(q, se.number) == BlockSend then Blocked(q, i, key, send)
    else Performed(q, i, key, send, ScenarioOf(q, se.number))
  }

  function Less(n: nat): nat { if n == 0 then 0 else n - 1 }

  /** A sender stops waiting. */
  function Unblocked(p: Peer, i: nat): Peer
    requires i in p.waiting
  {
    var key := p.waiting[i].session;
    var se := SessionOf(p, key);
    p.(waiting := p.waiting - {i}, blocked := Less(p.blocked),
       sessions := p.sessions[key := se.(blocked := Less(se.blocked))])
  }

  predicate Tracked(p: Peer, i: nat) { i in p.waiting && i < |p.trace| }

  /** Its gate is closed: the scenario is read again, and so is the connection. */
  function Woken(p: Peer, i: nat): Peer
    requires Tracked(p, i)
  {
    var k := p.waiting[i];
    var q := Unblocked(p, i);
    var se := SessionOf(q, k.session);
    if !se.connected then Settle(q, i, Disconnected) else Performed(q, i, k.session, k.send, ScenarioOf(q, se.number))
  }

  function Abandoned(p: Peer, i: nat): Peer
    requires Tracked(p, i)
  {
    Settle(Unblocked(p, i), i, Cancelled)
  }

  /** The gate is closed and forgotten. */
  function Released(p: Peer, key: string): Peer {
    var se := SessionOf(p, key);
    p.(sessions := p.sessions[key := se.(gate := None)],
       closed := if se.gate.Some? then p.closed + {se.gate.value} else p.closed)
  }

  function Cut(p: Peer, key: string): Peer {
    var q := p.(sessions := p.sessions[key := SessionOf(p, key).(connected := false)]);
    Released(q, key)
  }

  function Fallen(se: Session, number: string): Session { if se.number == number then se.(connected := false) else se }

  /** The failing scenarios disconnect the number's sessions but open no gate. */
  function Configured(p: Peer, number: string, sc: Scenario): Peer {
    var down := sc == DisconnectAll || sc == ConnectError;
    p.(numbers := p.numbers[number := sc],
       sessions := map k | k in p.sessions :: if down then Fallen(p.sessions[k], number) else p.sessions[k])
  }

  /** Connecting, pairing, confirming and injected events leave the session like this. */
  function Attached(p: Peer, key: string, number: string, connected: bool): Peer {
    p.(sessions := p.sessions[key := SessionOf(p, key).(number := number, connected := connected)])
  }

  datatype Step =
    | Arrive(key: string, send: Send)
    | Wake(i: nat)
    | Abandon(i: nat)
    | Release(key: string)
    | Disconnect(key: string)
    | Configure(number: string, scenario: Scenario)
    | Attach(key: string, number: string, connected: bool)

  predicate Enabled(p: Peer, s: Step) {
    match s
    case Wake(i) => Tracked(p, i) && p.waiting[i].gate in p.closed
    case Abandon(i) => Tracked(p, i)
    case _ => true
  }

  function Apply(p: Peer, s: Step): Peer {
    if !Enabled(p, s) then p
    else
      match s
      case Arrive(key, send) => Arrived(p, key, send)
      case Wake(i) => Woken(p, i)
      case Abandon(i) => Abandoned(p, i)
      case Release(key) => Released(p, key)
      case Disconnect(key) => Cut(p, key)
      case Configure(number, sc) => Configured(p, number, sc)
      case Attach(key, number, connected) => Attached(p, key, number, connected)
  }

  function Exec(p: Peer, steps: seq<Step>): Peer
    decreases |steps|
  {
    if steps == [] then p else Exec(Apply(p, steps[0]), steps[1..])
  }

  // ---------- counting ----------

  function Count(trace: seq<Attempt>, o: Outcome): nat {
    if trace == [] then 0 else Count(trace[..|trace| - 1], o) + if trace[|trace| - 1].outcome == o then 1 else 0
  }

  /** Attempts of one session, and those of them still accepted. */
  function Of(trace: seq<Attempt>, key: string): nat {
    if trace == [] then 0 else Of(trace[..|trace| - 1], key) + if trace[|trace| - 1].session == key then 1 else 0
  }

  function Open(trace: seq<Attempt>, key: string): nat {
    if trace == [] then 0
    else
      var last := trace[|trace| - 1];
      Open(trace[..|trace| - 1], key) + if last.session == key && last.outcome == Accepted then 1 else 0
  }

  /** Where messages went: the committed attempts, and the captures. */
  function Deliveries(trace: seq<Attempt>): multiset<(string, string)> {
    if trace == [] then multiset{}
    else Deliveries(trace[..|trace| - 1]) + Delivery(trace[|trace| - 1])
  }

  function Delivery(a: Attempt): multiset<(string, string)> {
    if Committed(a.outcome) then multiset{(a.session, a.to)} else multiset{}
  }

  function Captures(cs: seq<Capture>): multiset<(string, string)> {
    if cs == [] then multiset{} else Captures(cs[..|cs| - 1]) + multiset{(cs[|cs| - 1].session, cs[|cs| - 1].to)}
  }

  function Flag(b: bool): nat { if b then 1 else 0 }

  lemma {:induction false} CountSet(trace: seq<Attempt>, i: nat, a: Attempt, o: Outcome)
    requires i < |trace|
    ensures Count(trace[i := a], o) + Flag(trace[i].outcome == o) == Count(trace, o) + Flag(a.outcome == o)
    decreases |trace|
  {
    var n := |trace| - 1;
    if i < n {
      CountSet(trace[..n], i, a, o);
      assert trace[i := a][..n] == trace[..n][i := a];
    } else {
      assert trace[i := a][..n] == trace[..n];
    }
  }

  lemma {:induction false} OfSet(trace: seq<Attempt>, i: nat, a: Attempt, key: string)
    requires i < |trace| && a.session == trace[i].session
    ensures Of(trace[i := a], key) == Of(trace, key)
    decreases |trace|
  {
    var n := |trace| - 1;
    if i < n {
      OfSet(trace[..n], i, a, key);
      assert trace[i := a][..n] == trace[..n][i := a];
    } else {
      assert trace[i := a][..n] == trace[..n];
    }
  }

  lemma {:induction false} OpenSet(trace: seq<Attempt>, i: nat, a: Attempt, key: string)
    requires i < |trace| && a.session == trace[i].session
    ensures Open(trace[i := a], key) + Flag(trace[i].session == key && trace[i].outcome == Accepted)
         == Open(trace, key) + Flag(trace[i].session == key && a.outcome == Accepted)
    decreases |trace|
  {
    var n := |trace| - 1;
    if i < n {
      OpenSet(trace[..n], i, a, key);
      assert trace[i := a][..n] == trace[..n][i := a];
    } else {
      assert trace[i := a][..n] == trace[..n];
    }
  }

  lemma {:induction false} DeliveriesSet(trace: seq<Attempt>, i: nat, a: Attempt)
    requires i < |trace|
    ensures Deliveries(trace[i := a]) + Delivery(trace[i]) == Deliveries(trace) + Delivery(a)
    decreases |trace|
  {
    hide Delivery;
    var n := |trace| - 1;
    if i < n {
      DeliveriesSet(trace[..n], i, a);
      assert trace[i := a][..n] == trace[..n][i := a];
      var before, after, last := Deliveries(trace[..n]), Deliveries(trace[..n][i := a]), Delivery(trace[n]);
      assert Deliveries(trace[i := a]) == after + last && Deliveries(trace) == before + last;
      assert (after + last) + Delivery(trace[i]) == (after + Delivery(trace[i])) + last;
      assert (before + last) + Delivery(a) == (before + Delivery(a)) + last;
    } else {
      assert trace[i := a][..n] == trace[..n];
      assert Deliveries(trace[i := a]) == Deliveries(trace[..n]) + Delivery(a);
      assert Deliveries(trace) == Deliveries(trace[..n]) + Delivery(trace[i]);
    }
  }

  /** Every attempt has exactly one outcome. */
  lemma {:induction false} CountsAll(trace: seq<Attempt>)
    ensures Count(trace, Accepted) + Count(trace, Disconnected) + Count(trace, Cancelled) + Count(trace, Rejected)
          + Count(trace, AckLost) + Count(trace, Acknowledged) == |trace|
  {
    if trace != [] { CountsAll(trace[..|trace| - 1]); }
  }

  lemma {:induction false} DeliveriesCount(trace: seq<Attempt>)
    ensures |Deliveries(trace)| == Count(trace, AckLost) + Count(trace, Acknowledged)
  {
    if trace != [] { DeliveriesCount(trace[..|trace| - 1]); }
  }

  lemma {:induction false} CapturesCount(cs: seq<Capture>)
    ensures |Captures(cs)| == |cs|
  {
    if cs != [] { CapturesCount(cs[..|cs| - 1]); }
  }

  /** The accepted attempts are a set of this size. */
  lemma {:induction false} AcceptedAre(trace: seq<Attempt>, ids: set<nat>)
    requires forall i: nat :: i in ids <==> i < |trace| && trace[i].outcome == Accepted
    ensures |ids| == Count(trace, Accepted)
    decreases |trace|
  {
    if trace == [] {
      assert ids == {};
    } else {
      var n := |trace| - 1;
      var rest := ids - {n};
      AcceptedAre(trace[..n], rest);
      if n in ids { assert ids == rest + {n}; } else { assert ids == rest; }
    }
  }

  ghost function SumBlocked(sessions: map<string, Session>): nat
    decreases |sessions|
  {
    if sessions == map[] then 0
    else
      var k :| k in sessions;
      sessions[k].blocked + SumBlocked(sessions - {k})
  }

  lemma {:induction false} SumWithout(sessions: map<string, Session>, k: string)
    requires k in sessions
    ensures SumBlocked(sessions) == sessions[k].blocked + SumBlocked(sessions - {k})
    decreases |sessions|
  {
    var j :| j in sessions && SumBlocked(sessions) == sessions[j].blocked + SumBlocked(sessions - {j});
    if j != k {
      SumWithout(sessions - {j}, k);
      SumWithout(sessions - {k}, j);
      assert sessions - {j} - {k} == sessions - {k} - {j};
    }
  }

  lemma SumSet(sessions: map<string, Session>, k: string, se: Session)
    ensures SumBlocked(sessions[k := se]) + (if k in sessions then sessions[k].blocked else 0)
              == SumBlocked(sessions) + se.blocked
  {
    var after := sessions[k := se];
    SumWithout(after, k);
    assert after - {k} == sessions - {k};
    if k in sessions { SumWithout(sessions, k); } else { assert sessions - {k} == sessions; }
  }

  lemma {:induction false} SumSame(sessions: map<string, Session>, sessions': map<string, Session>)
    requires sessions.Keys == sessions'.Keys && forall k | k in sessions :: sessions'[k].blocked == sessions[k].blocked
    ensures SumBlocked(sessions') == SumBlocked(sessions)
    decreases |sessions|
  {
    if sessions == map[] {
      assert sessions' == map[];
    } else {
      var k :| k in sessions;
      SumWithout(sessions, k);
      SumWithout(sessions', k);
      SumSame(sessions - {k}, sessions' - {k});
    }
  }
}
