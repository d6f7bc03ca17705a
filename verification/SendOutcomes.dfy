/** What becomes of a send, by the session and the scenario it meets. */
module SendOutcomes {
  import opened Wrappers
  import opened SendLedger
  import opened SendConservation

  /** The id a message goes by: the sender's, or else the next number. */
  function NameFor(p: Peer, send: Send): string {
    if send.id == "" then "FAKE_" + Numeral(|p.captures| + 1) else send.id
  }

  /** How a send ends that is let through to a connected session's scenario. */
  predicate Ends(p: Peer, q: Peer, i: nat, key: string, send: Send, sc: Scenario) {
    && i < |q.trace|
    && (sc == SendError || sc == Server405 ==> q.trace[i].outcome == Rejected && q.captures == p.captures)
    && (sc == CommitDropAck ==> q.trace[i].outcome == AckLost)
    && (sc !in {SendError, Server405, CommitDropAck} ==> q.trace[i].outcome == Acknowledged)
    && (sc !in {SendError, Server405} ==> q.captures == p.captures + [Capture(NameFor(p, send), send.to, key)])
  }

  /**
   A send to a session that is not connected is refused as such; one to a connected session waits under the
   blocking scenario, and otherwise ends as its scenario says, captured exactly unless it is rejected.
   */
  lemma ArriveOutcome(p: Peer, key: string, send: Send)
    ensures var q := Apply(p, Arrive(key, send)); var i := |p.trace|;
            var se := SessionOf(p, key); var sc := ScenarioOf(p, se.number);
            && |q.trace| == i + 1 && q.trace[..i] == p.trace
            && q.trace[i].session == key && q.trace[i].to == send.to
            && q.trace[i].id == (if q.trace[i].outcome == Acknowledged then NameFor(p, send) else send.id)
            && SessionOf(q, key).attempts == se.attempts + 1
            && (!se.connected ==>
                  q.trace[i].outcome == Disconnected && q.captures == p.captures && q.waiting == p.waiting)
            && (se.connected && sc == BlockSend ==>
                  && q.trace[i].outcome == Accepted && q.captures == p.captures
                  && i in q.waiting && q.waiting[i].session == key && q.waiting[i].send == send
                  && SessionOf(q, key).gate == Some(q.waiting[i].gate))
            && (se.connected && sc != BlockSend ==> Ends(p, q, i, key, send, sc) && q.waiting == p.waiting)
  {
    hide Numeral;
  }

  /**
   A sender that was let go is treated by what holds then, not by what held when it came: refused when its
   session has gone down meanwhile, else as the present scenario says, without being blocked again.
   */
  lemma WakeOutcome(p: Peer, i: nat)
    requires Enabled(p, Wake(i))
    ensures var q := Apply(p, Wake(i)); var k := p.waiting[i]; var se := SessionOf(p, k.session);
            && |q.trace| == |p.trace| && i !in q.waiting && q.waiting == p.waiting - {i}
            && (forall j | 0 <= j < |p.trace| && j != i :: q.trace[j] == p.trace[j])
            && (!se.connected ==> q.trace[i].outcome == Disconnected && q.captures == p.captures)
            && (se.connected ==> Ends(p, q, i, k.session, k.send, ScenarioOf(p, se.number)))
            && q.trace[i].id == (if q.trace[i].outcome == Acknowledged && p.trace[i].id == "" then NameFor(p, k.send)
                                 else p.trace[i].id)
  {
    hide Numeral;
  }

  /**
   A scenario that fails its number takes down that number's sessions and no others; every scenario
   is in force at once.
   */
  lemma ConfigureCuts(p: Peer, number: string, sc: Scenario, key: string, other: string)
    ensures var q := Apply(p, Configure(number, sc)); var se := SessionOf(p, key);
            && ScenarioOf(q, number) == sc && (other != number ==> ScenarioOf(q, other) == ScenarioOf(p, other))
            && (key in q.sessions <==> key in p.sessions)
            && SessionOf(q, key) == (if key in p.sessions && se.number == number && sc in {DisconnectAll, ConnectError}
                                     then se.(connected := false) else se)
            && q == p.(numbers := q.numbers, sessions := q.sessions)
  {
  }

  /** After a disconnect sends to the session are refused, and those who waited there are, too. */
  lemma DisconnectRefuses(p: Peer, key: string, send: Send, i: nat)
    requires Balanced(p)
    ensures var q := Apply(p, Disconnect(key));
            && Apply(q, Arrive(key, send)).trace[|q.trace|].outcome == Disconnected
            && (i in p.waiting && p.waiting[i].session == key ==>
                  Enabled(q, Wake(i)) && Apply(q, Wake(i)).trace[i].outcome == Disconnected)
            && (forall k | k != key :: SessionOf(q, k) == SessionOf(p, k))
  {
    hide Balanced, Arrived, Woken, Exec;
    var q := Apply(p, Disconnect(key));
    ArriveOutcome(q, key, send);
    if i in p.waiting && p.waiting[i].session == key {
      DisconnectWakes(p, key, i);
      WakeOutcome(q, i);
    }
  }

  // ---------- generated ids ----------

  function Decimal(s: string): int {
    if s == "" then 0 else 10 * Decimal(s[..|s| - 1]) + (s[|s| - 1] as int - '0' as int)
  }

  lemma {:induction false} NumeralReads(n: nat)
    ensures (forall c | c in Numeral(n) :: '0' <= c <= '9') && Decimal(Numeral(n)) == n
    decreases n
  {
    if n >= 10 {
      NumeralReads(n / 10);
      var s := Numeral(n);
      assert s[..|s| - 1] == Numeral(n / 10);
    }
  }

  /** Two messages that the peer has to name never get the same name. */
  lemma NamesDiffer(m: nat, n: nat)
    requires m != n
    ensures "FAKE_" + Numeral(m) != "FAKE_" + Numeral(n)
  {
    NumeralReads(m);
    NumeralReads(n);
    assert ("FAKE_" + Numeral(m))[5..] == Numeral(m);
    assert ("FAKE_" + Numeral(n))[5..] == Numeral(n);
  }
}
