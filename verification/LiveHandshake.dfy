/** The two scans as the loops they are, over a world that other callers keep changing. */
module LiveHandshake {
  import opened Pending
  import opened Handshake
  import opened PendingScans

  class LiveHandshake {
    var world: World

    constructor (now: int)
      ensures world == Init(now)
    {
      world := Init(now);
    }

    /** Other callers run. */
    method Interleave(steps: seq<Step>)
      modifies this
      ensures world == Exec(old(world), steps)
    {
      var i := 0;
      while i < |steps|
        invariant 0 <= i <= |steps|
        invariant Exec(world, steps[i..]) == Exec(old(world), steps)
      {
        world := Apply(world, steps[i]);
        i := i + 1;
      }
    }

    /** The body of both loops for one key: read, check, and run the script. */
    method VisitKey(scan: Scan, v: Visit) returns (changed: bool, failed: bool)
      modifies this
      ensures VisitOne(old(world), scan, v) == Progress(world, if changed then 1 else 0, failed)
      ensures failed ==> !changed
    {
      Interleave(v.before);
      if !v.read || v.browser !in world.store.reqs { return false, false; }
      var p := world.store.reqs[v.browser].value;
      if !scan.Wants(p) { return false, false; }
      Interleave(v.between);
      if v.reply == Lost(false) { return false, true; }
      var state := Answer(world, scan, v);
      world := Apply(world, ScriptStep(world, scan, v));
      if v.reply.Lost? { return false, true; }
      return state == 2, false;
    }

    method DenyClientPending(client: string, pages: seq<Page>) returns (denied: nat, err: bool)
      modifies this
      ensures ScanAll(old(world), DenyClient(client), pages) == Progress(world, denied, err)
    {
      hide Apply, Exec, VisitOne;
      var scan := DenyClient(client);
      ghost var all := VisitAll(world, scan, Flatten(pages));
      denied := 0;
      var i := 0;
      while i < |pages|
        invariant 0 <= i <= |pages|
        invariant Remaining(all, denied, scan, Flatten(pages[i..]))
        invariant ScanError in pages <==> ScanError in pages[i..]
      {
        if pages[i].ScanError? { return denied, true; }
        var visits := pages[i].visits;
        var j := 0;
        assert pages[i..][0] == pages[i] && pages[i..][1..] == pages[i + 1..];
        assert visits[0..] == visits;
        while j < |visits|
          invariant 0 <= j <= |visits|
          invariant Remaining(all, denied, scan, visits[j..] + Flatten(pages[i + 1..]))
        {
          assert (visits[j..] + Flatten(pages[i + 1..]))[0] == visits[j];
          assert (visits[j..] + Flatten(pages[i + 1..]))[1..] == visits[j + 1..] + Flatten(pages[i + 1..]);
          var changed, failed := VisitKey(scan, visits[j]);
          if failed { return denied, true; }
          if changed { denied := denied + 1; }
          j := j + 1;
        }
        assert visits[|visits|..] + Flatten(pages[i + 1..]) == Flatten(pages[i + 1..]);
        i := i + 1;
      }
      return denied, false;
    }

    method ExpireBySession(session: string, pages: seq<Page>) returns (err: bool)
      modifies this
      ensures var p := ScanAll(old(world), ExpireSession(session), pages); p.world == world && p.failed == err
    {
      hide Apply, Exec, VisitOne;
      var scan := ExpireSession(session);
      ghost var all := VisitAll(world, scan, Flatten(pages));
      ghost var expired := 0;
      var i := 0;
      while i < |pages|
        invariant 0 <= i <= |pages|
        invariant Remaining(all, expired, scan, Flatten(pages[i..]))
        invariant ScanError in pages <==> ScanError in pages[i..]
      {
        if pages[i].ScanError? { return true; }
        var visits := pages[i].visits;
        var j := 0;
        assert pages[i..][0] == pages[i] && pages[i..][1..] == pages[i + 1..];
        assert visits[0..] == visits;
        while j < |visits|
          invariant 0 <= j <= |visits|
          invariant Remaining(all, expired, scan, visits[j..] + Flatten(pages[i + 1..]))
        {
          assert (visits[j..] + Flatten(pages[i + 1..]))[0] == visits[j];
          assert (visits[j..] + Flatten(pages[i + 1..]))[1..] == visits[j + 1..] + Flatten(pages[i + 1..]);
          var changed, failed := VisitKey(scan, visits[j]);
          if failed { return true; }
          expired := expired + if changed then 1 else 0;
          j := j + 1;
        }
        assert visits[|visits|..] + Flatten(pages[i + 1..]) == Flatten(pages[i + 1..]);
        i := i + 1;
      }
      return false;
    }

    /** The rest of the scan, run from here, completes the whole one. */
    ghost predicate Remaining(all: Progress, done: nat, scan: Scan, rest: seq<Visit>)
      reads this
    {
      var p := VisitAll(world, scan, rest);
      all == Progress(p.world, done + p.changed, p.failed)
    }
  }
}
