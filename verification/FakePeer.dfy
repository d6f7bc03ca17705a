/** The peer's server as the object its handlers update, each method one hold of the lock. */
module FakePeer {
  import opened Wrappers
  import opened SendLedger
  import opened SendConservation

  class Server {
    var numbers: map<string, Scenario>
    var sessions: map<string, Session>
    var attempts: nat
    var blocked: nat
    var attemptTrace: seq<Attempt>
    var captures: seq<Capture>
    var waiting: map<nat, Waiter>
    var closed: set<nat>
    var gates: nat

    ghost function Contents(): Peer
      reads this
    {
      Peer(numbers, sessions, attempts, blocked, attemptTrace, captures, waiting, closed, gates)
    }

    constructor ()
      ensures Contents() == Init()
    {
      numbers, sessions, attempts, blocked := map[], map[], 0, 0;
      attemptTrace, captures, waiting, closed, gates := [], [], map[], {}, 0;
    }

    method GetSession(key: string) returns (se: Session)
      modifies this`sessions
      ensures se == SessionOf(old(Contents()), key) && sessions == old(sessions)[key := se]
    {
      if key !in sessions { sessions := sessions[key := NO_SESSION]; }
      se := sessions[key];
      assert sessions == sessions[key := se];
    }

    method ConfigOf(number: string) returns (sc: Scenario)
      ensures sc == ScenarioOf(Contents(), number)
    {
      sc := if number in numbers then numbers[number] else Healthy;
    }

    /** The reply to a send; none when it is an error. */
    method Perform(key: string, send: Send, sc: Scenario) returns (id: Option<string>)
      modifies this`captures
      ensures captures == if sc == SendError || sc == Server405 then old(captures)
                          else
                            var id := if send.id == "" then "FAKE_" + Numeral(|old(captures)| + 1) else send.id;
                            old(captures) + [Capture(id, send.to, key)]
      ensures id == if sc in {SendError, Server405, CommitDropAck} then None else Some(captures[|captures| - 1].id)
    {
      if sc == SendError || sc == Server405 { return None; }
      var name := if send.id == "" then "FAKE_" + Numeral(|captures| + 1) else send.id;
      captures := captures + [Capture(name, send.to, key)];
      return if sc == CommitDropAck then None else Some(name);
    }

    method Outcomes(i: nat, o: Outcome)
      requires i < |attemptTrace|
      modifies this`attemptTrace
      ensures attemptTrace == old(attemptTrace)[i := old(attemptTrace)[i].(outcome := o)]
    {
      attemptTrace := attemptTrace[i := attemptTrace[i].(outcome := o)];
    }

    /** The tail of operation, from perform on. */
    method Finish(i: nat, key: string, send: Send, sc: Scenario)
      requires i < |attemptTrace|
      modifies this`captures, this`attemptTrace
      ensures Contents() == Performed(old(Contents()), i, key, send, sc)
    {
      hide Numeral;
      var id := Perform(key, send, sc);
      if sc == CommitDropAck && id.None? {
        Outcomes(i, AckLost);
      } else if id.None? {
        Outcomes(i, Rejected);
      } else {
        Outcomes(i, Acknowledged);
        if attemptTrace[i].id == "" { attemptTrace := attemptTrace[i := attemptTrace[i].(id := id.value)]; }
      }
    }

    /** The bookkeeping at the start of operation. */
    method Enter(key: string, send: Send) returns (se: Session)
      modifies this
      ensures Contents() == Entered(old(Contents()), key, send) && se == SessionOf(Contents(), key)
    {
      se := GetSession(key);
      attempts := attempts + 1;
      se := se.(attempts := se.attempts + 1);
      sessions := sessions[key := se];
      attemptTrace := attemptTrace + [Attempt(key, send.id, send.to, Accepted)];
    }

    /** The sender goes to sleep at the session's gate. */
    method Block(i: nat, key: string, send: Send)
      modifies this
      ensures Contents() == Blocked(old(Contents()), i, key, send)
    {
      var se := GetSession(key);
      if se.gate.None? {
        se := se.(gate := Some(gates));
        gates := gates + 1;
      }
      se := se.(blocked := se.blocked + 1);
      sessions := sessions[key := se];
      blocked := blocked + 1;
      waiting := waiting[i := Waiter(key, send, se.gate.value)];
    }

    /** operation until it replies or blocks. */
    method Operation(key: string, send: Send) returns (blocks: bool)
      modifies this
      ensures Contents() == Arrived(old(Contents()), key, send)
      ensures var p := old(Contents());
              blocks <==> SessionOf(p, key).connected && ScenarioOf(p, SessionOf(p, key).number) == BlockSend
    {
      hide Performed, Blocked, Numeral;
      var se := Enter(key, send);
      var i := |attemptTrace| - 1;
      var sc := ConfigOf(se.number);
      if !se.connected {
        Outcomes(i, Disconnected);
        return false;
      }
      if sc == BlockSend {
        Block(i, key, send);
        return true;
      }
      Finish(i, key, send, sc);
      return false;
    }

    /** In a balanced state a waiting sender is counted, in its session and in all. */
    lemma Waits(p: Peer, i: nat)
      requires Balanced(p) && i in p.waiting
      ensures i < |p.trace| && p.waiting[i].session in p.sessions
      ensures p.blocked > 0 && p.sessions[p.waiting[i].session].blocked > 0
    {
      CountAtLeast(p.trace, i);
      assert SessionCounts(p, None, p.waiting[i].session);
    }

    method Unblock(i: nat)
      requires Balanced(Contents()) && i in waiting
      modifies this
      ensures Contents() == Unblocked(old(Contents()), i)
    {
      Waits(Contents(), i);
      hide Balanced;
      var key := waiting[i].session;
      sessions := sessions[key := sessions[key].(blocked := sessions[key].blocked - 1)];
      blocked := blocked - 1;
      waiting := waiting - {i};
    }

    /** operation after its gate was closed; connected tells whether it went on to perform. */
    method Resume(i: nat) returns (connected: bool)
      requires Balanced(Contents()) && i in waiting
      requires waiting[i].gate in closed
      modifies this
      ensures Balanced(Contents()) && i < |old(attemptTrace)|
      ensures Contents() == Woken(old(Contents()), i)
      ensures connected == SessionOf(Contents(), old(waiting)[i].session).connected
    {
      hide Performed, Numeral, Unblocked, Balanced;
      Waits(Contents(), i);
      WakeKeeps(Contents(), i);
      var key, send := waiting[i].session, waiting[i].send;
      UnblockedTrace(Contents(), i);
      Unblock(i);
      var se := sessions[key];
      var sc := ConfigOf(se.number);
      if !se.connected {
        Outcomes(i, Disconnected);
        return false;
      }
      Finish(i, key, send, sc);
      return true;
    }

    lemma UnblockedTrace(p: Peer, i: nat)
      requires i in p.waiting && p.waiting[i].session in p.sessions
      ensures Unblocked(p, i).trace == p.trace && p.waiting[i].session in Unblocked(p, i).sessions
    {
    }

    /** operation after its request was cancelled. */
    method Cancel(i: nat)
      requires Balanced(Contents()) && i in waiting
      modifies this
      ensures Balanced(Contents()) && i < |old(attemptTrace)|
      ensures Contents() == Abandoned(old(Contents()), i)
    {
      hide Balanced;
      Waits(Contents(), i);
      WakeKeeps(Contents(), i);
      Unblock(i);
      Outcomes(i, Cancelled);
    }

    method ReleaseSend(key: string)
      modifies this
      ensures Contents() == Released(old(Contents()), key)
    {
      var se := GetSession(key);
      if se.gate.Some? {
        closed := closed + {se.gate.value};
        sessions := sessions[key := se.(gate := None)];
      }
    }

    method Disconnect(key: string)
      modifies this
      ensures Contents() == Cut(old(Contents()), key)
    {
      var se := GetSession(key);
      se := se.(connected := false);
      sessions := sessions[key := se];
      if se.gate.Some? {
        closed := closed + {se.gate.value};
        sessions := sessions[key := se.(gate := None)];
      }
    }

    /** The loop over the sessions of a number that is configured to fail. */
    method Configure(number: string, sc: Scenario)
      modifies this
      ensures Contents() == Configured(old(Contents()), number, sc)
    {
      numbers := numbers[number := sc];
      if sc == DisconnectAll || sc == ConnectError {
        var left := sessions.Keys;
        while left != {}
          invariant left <= sessions.Keys == old(sessions).Keys
          invariant forall k | k in sessions ::
                      sessions[k] == if k in left then old(sessions)[k] else Fallen(old(sessions)[k], number)
          modifies this`sessions
          decreases |left|
        {
          var k :| k in left;
          if sessions[k].number == number && sessions[k].connected {
            sessions := sessions[k := sessions[k].(connected := false)];
          }
          left := left - {k};
        }
      }
      ghost var want := Configured(old(Contents()), number, sc).sessions;
      assert sessions.Keys == want.Keys;
      assert sessions == want;
    }
  }
}
