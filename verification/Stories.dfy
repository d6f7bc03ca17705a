/**
 Stories for the simulated peer: the check made when a story is registered, and the
 run. The check looks at the text of a story only; the run resolves names and message
 ids with what the calls returned.
 */
module Stories {
  import opened Wrappers
  import SendLedger

  datatype Step =
    | Send(chat: string, sender: string, quote: string, kind: string, text: string, mime: string, data: nat,
           contactName: string, contactPhone: string, options: nat, buttons: nat, rows: nat)
    | Group(alias: string, name: string, participants: seq<string>)
    | Behavior(mode: string)
    | Effect(chat: string, message: string, kind: string)
    | History(chats: int, messages: int)
    | Other
    | Nil

  datatype Story = Story(id: string, name: string, steps: seq<Step>)

  const LAST := "@last"
  const MAX_HISTORY_CHATS := 500
  const MAX_HISTORY_MESSAGES := 5000

  predicate IsRef(chat: string) { chat != "" && chat[0] == '@' }

  function Trim(chat: string): string { if IsRef(chat) then chat[1..] else chat }

  // ---------- the check, stated by position ----------

  /** Aliases made by the steps so far. */
  function Aliases(steps: seq<Step>): set<string> { set s | s in steps && s.Group? :: s.alias }

  predicate AnySend(steps: seq<Step>) { exists s :: s in steps && s.Send? }

  predicate ValidNumber(number: string) {
    |number| >= 3 && number[..3] == "555" && forall c | c in number :: '0' <= c <= '9'
  }

  predicate ValidKind(kind: string) {
    kind in {"text", "image", "video", "audio", "document", "sticker", "location", "contact", "poll", "buttons", "list"}
  }

  predicate ValidMode(mode: string) {
    mode in {"healthy", "connect_error", "disconnect", "send_error", "server_405", "upload_error", "block_send",
             "commit_drop_ack", "echo"}
  }

  predicate ValidEffect(kind: string) { kind in {"delivered", "read", "played", "reaction", "edit", "delete"} }

  /** validateTypedSend. */
  predicate ValidContent(s: Step)
    requires s.Send?
  {
    && (s.kind == "text" ==> s.text != "")
    && (s.kind in {"image", "video", "audio", "document", "sticker"} ==> s.data > 0 && s.mime != "")
    && (s.kind == "contact" ==> s.contactName != "" && s.contactPhone != "")
    && (s.kind == "poll" ==> s.text != "" && s.options > 0)
    && (s.kind == "buttons" ==> s.text != "" && s.buttons > 0)
    && (s.kind == "list" ==> s.text != "" && s.rows > 0)
  }

  /** What the step by itself must look like; jid is the address parser. */
  predicate WellFormed(s: Step, jid: string -> bool) {
    match s
    case Send(chat, sender, _, kind, _, _, _, _, _, _, _, _) =>
      chat != "" && ValidKind(kind) && (IsRef(chat) || jid(chat)) && (sender == "" || jid(sender)) && ValidContent(s)
    case Group(alias, name, participants) =>
      alias != "" && '@' !in alias && name != "" && forall p | p in participants :: ValidNumber(p)
    case Behavior(mode) => ValidMode(mode)
    case Effect(chat, message, kind) => chat != "" && message != "" && ValidEffect(kind)
    case History(chats, messages) => 0 <= chats <= MAX_HISTORY_CHATS && 0 <= messages <= MAX_HISTORY_MESSAGES
    case Other => false
    case Nil => false
  }

  /** Whatever the step refers to comes from an earlier step. */
  predicate Resolvable(steps: seq<Step>, i: nat)
    requires i < |steps|
  {
    match steps[i]
    case Send(chat, _, quote, _, _, _, _, _, _, _, _, _) =>
      (IsRef(chat) ==> Trim(chat) in Aliases(steps[..i])) && (quote == LAST ==> AnySend(steps[..i]))
    case Effect(chat, message, _) =>
      (IsRef(chat) ==> Trim(chat) in Aliases(steps[..i])) && (message == LAST ==> AnySend(steps[..i])) && message != ""
    case Other => false
    case Nil => false
    case _ => true
  }

  predicate Unique(steps: seq<Step>, i: nat)
    requires i < |steps|
  {
    steps[i].Group? ==> steps[i].alias !in Aliases(steps[..i])
  }

  predicate StepAccepted(steps: seq<Step>, i: nat, jid: string -> bool)
    requires i < |steps|
  {
    WellFormed(steps[i], jid) && Resolvable(steps, i) && Unique(steps, i)
  }

  predicate Accepted(story: Story, jid: string -> bool) {
    && story.id != "" && '/' !in story.id && story.name != "" && story.steps != []
    && forall i | 0 <= i < |story.steps| :: StepAccepted(story.steps, i, jid)
  }

  /** validateTypedSend, case by case. */
  method CheckContent(s: Step) returns (ok: bool)
    requires s.Send?
    ensures ok <==> ValidContent(s)
  {
    if s.kind == "text" { return s.text != ""; }
    if s.kind == "image" || s.kind == "video" || s.kind == "audio" || s.kind == "document" || s.kind == "sticker" {
      return s.data != 0 && s.mime != "";
    }
    if s.kind == "contact" { return s.contactName != "" && s.contactPhone != ""; }
    if s.kind == "poll" { return s.text != "" && s.options != 0; }
    if s.kind == "buttons" { return s.text != "" && s.buttons != 0; }
    if s.kind == "list" { return s.text != "" && s.rows != 0; }
    return true;
  }

  /** The body of the loop for one step, with the sets it keeps. */
  method CheckStep(s: Step, aliases: set<string>, seenSend: bool, jid: string -> bool) returns (ok: bool)
    ensures ok <==>
            && WellFormed(s, jid)
            && (s.Send? ==> (IsRef(s.chat) ==> Trim(s.chat) in aliases) && (s.quote == LAST ==> seenSend))
            && (s.Effect? ==> (IsRef(s.chat) ==> Trim(s.chat) in aliases) && (s.message == LAST ==> seenSend))
            && (s.Group? ==> s.alias !in aliases)
  {
    match s
    case Send(_, _, _, _, _, _, _, _, _, _, _, _) =>
      if s.chat == "" { return false; }
      if IsRef(s.chat) && Trim(s.chat) !in aliases { return false; }
      if !ValidKind(s.kind) { return false; }
      if !IsRef(s.chat) && !jid(s.chat) { return false; }
      if s.sender != "" && !jid(s.sender) { return false; }
      if s.quote == LAST && !seenSend { return false; }
      ok := CheckContent(s);
      return;
    case Group(alias, name, participants) =>
      if alias == "" || '@' in alias || alias in aliases { return false; }
      if name == "" { return false; }
      var i := 0;
      while i < |participants|
        invariant 0 <= i <= |participants|
        invariant forall p | p in participants[..i] :: ValidNumber(p)
      {
        if !ValidNumber(participants[i]) { return false; }
        i := i + 1;
      }
      assert participants[..i] == participants;
      return true;
    case Behavior(mode) =>
      return ValidMode(mode);
    case Effect(chat, message, kind) =>
      if IsRef(chat) && Trim(chat) !in aliases { return false; }
      if message == LAST && !seenSend { return false; }
      if chat == "" || message == "" { return false; }
      return ValidEffect(kind);
    case History(chats, messages) =>
      return 0 <= chats <= MAX_HISTORY_CHATS && 0 <= messages <= MAX_HISTORY_MESSAGES;
    case Other =>
      return false;
    case Nil =>
      return false;
  }

  lemma Prefixes(steps: seq<Step>, i: nat)
    requires i < |steps|
    ensures Aliases(steps[..i + 1]) == Aliases(steps[..i]) + if steps[i].Group? then {steps[i].alias} else {}
    ensures AnySend(steps[..i + 1]) <==> AnySend(steps[..i]) || steps[i].Send?
  {
    assert steps[..i + 1] == steps[..i] + [steps[i]];
    assert steps[i] in steps[..i + 1];
    assert forall s :: s in steps[..i + 1] <==> s in steps[..i] || s == steps[i];
  }

  /** validateStory. */
  method ValidateStory(story: Story, jid: string -> bool) returns (ok: bool)
    ensures ok <==> Accepted(story, jid)
  {
    if story.id == "" || '/' in story.id || story.name == "" || |story.steps| == 0 { return false; }
    var aliases, seenSend := {}, false;
    var i := 0;
    while i < |story.steps|
      invariant 0 <= i <= |story.steps|
      invariant aliases == Aliases(story.steps[..i]) && (seenSend <==> AnySend(story.steps[..i]))
      invariant forall j | 0 <= j < i :: StepAccepted(story.steps, j, jid)
    {
      var step := story.steps[i];
      var good := CheckStep(step, aliases, seenSend, jid);
      assert good <==> StepAccepted(story.steps, i, jid);
      if !good { return false; }
      Prefixes(story.steps, i);
      if step.Send? { seenSend := true; }
      if step.Group? { aliases := aliases + {step.alias}; }
      i := i + 1;
    }
    return true;
  }

  // ---------- the run ----------

  /** What the context and the call of a step come to; a run resolves names with whatever ids it is given. */
  datatype Reply = CallFailed | Answered(id: string, delivered: int)

  datatype Turn = Turn(cancelled: bool, reply: Reply)

  /** The same with the server's own handlers, which name what they make after their counters. */
  datatype ServerTurn = ServerTurn(cancelled: bool, ok: bool, sequence: nat, delivered: int)

  function MessageId(sequence: nat): string { "FAKE_IN_" + SendLedger.Numeral(sequence) }

  function GroupJid(sequence: nat): string { "120363" + SendLedger.Numeral(sequence) + "@g.us" }

  /** actorSend and actorCreateGroup answer with a fresh id, the other handlers with none. */
  function Handled(s: Step, t: ServerTurn): Reply {
    if !t.ok then CallFailed
    else Answered(if s.Send? then MessageId(t.sequence) else if s.Group? then GroupJid(t.sequence) else "", t.delivered)
  }

  function Served(steps: seq<Step>, env: nat -> ServerTurn): nat -> Turn {
    (i: nat) => Turn(env(i).cancelled, if i < |steps| then Handled(steps[i], env(i)) else CallFailed)
  }

  datatype Failure = Cancelled | CallError | UnknownAlias | NoQuote | NoMessage | Unsupported

  datatype Result = Done(id: string, delivered: int) | Bad(failure: Failure)

  /** scenarioRun. */
  datatype Run = Run(aliases: map<string, string>, last: string)

  function AliasOf(run: Run, name: string): string { if name in run.aliases then run.aliases[name] else "" }

  /** resolveAlias. */
  function Resolve(chat: string, run: Run): Option<string> {
    if !IsRef(chat) then Some(chat) else if AliasOf(run, Trim(chat)) == "" then None else Some(AliasOf(run, Trim(chat)))
  }

  function Called(reply: Reply, id: string): Result {
    if reply.CallFailed? then Bad(CallError) else Done(id, reply.delivered)
  }

  function IdOf(reply: Reply): string { if reply.CallFailed? then "" else reply.id }

  /** runStep. */
  function StepResult(s: Step, run: Run, reply: Reply): Result {
    match s
    case Send(chat, _, quote, _, _, _, _, _, _, _, _, _) =>
      if Resolve(chat, run).None? then Bad(UnknownAlias)
      else if quote == LAST && run.last == "" then Bad(NoQuote)
      else Called(reply, IdOf(reply))
    case Group(_, _, _) => Called(reply, IdOf(reply))
    case Behavior(_) => if reply.CallFailed? then Bad(CallError) else Done("", 0)
    case Effect(chat, message, _) =>
      if Resolve(chat, run).None? then Bad(UnknownAlias)
      else
        var target := if message == LAST then run.last else message;
        if target == "" then Bad(NoMessage) else Called(reply, target)
    case History(_, _) => Called(reply, "")
    case Other => Bad(Unsupported)
    case Nil => Bad(Unsupported)
  }

  /** The names after a step that went well. */
  function Next(s: Step, run: Run, reply: Reply): Run {
    match s
    case Send(_, _, _, _, _, _, _, _, _, _, _, _) => run.(last := IdOf(reply))
    case Group(alias, _, _) => run.(aliases := run.aliases[alias := IdOf(reply)])
    case _ => run
  }

  function Before(steps: seq<Step>, env: nat -> Turn, i: nat): Run
    requires i <= |steps|
  {
    if i == 0 then Run(map[], "") else Next(steps[i - 1], Before(steps, env, i - 1), env(i - 1).reply)
  }

  function Outcome(steps: seq<Step>, env: nat -> Turn, i: nat): Result
    requires i < |steps|
  {
    if env(i).cancelled then Bad(Cancelled) else StepResult(steps[i], Before(steps, env, i), env(i).reply)
  }

  function Delivered(results: seq<Result>): int {
    if results == [] then 0
    else
      var last := results[|results| - 1];
      Delivered(results[..|results| - 1]) + if last.Done? then last.delivered else 0
  }

  method RunStep(s: Step, run: Run, reply: Reply) returns (result: Result, after: Run)
    ensures result == StepResult(s, run, reply)
    ensures result.Done? ==> after == Next(s, run, reply)
  {
    after := run;
    match s
    case Send(chat, _, quote, _, _, _, _, _, _, _, _, _) =>
      if Resolve(chat, run).None? { return Bad(UnknownAlias), after; }
      var quoteId := if quote == LAST then run.last else quote;
      if quote != "" && quoteId == "" { return Bad(NoQuote), after; }
      if reply.CallFailed? { return Bad(CallError), after; }
      after := run.(last := reply.id);
      return Done(reply.id, reply.delivered), after;
    case Group(alias, _, _) =>
      if reply.CallFailed? { return Bad(CallError), after; }
      after := run.(aliases := run.aliases[alias := reply.id]);
      return Done(reply.id, reply.delivered), after;
    case Behavior(_) =>
      return if reply.CallFailed? then Bad(CallError) else Done("", 0), after;
    case Effect(chat, message, _) =>
      if Resolve(chat, run).None? { return Bad(UnknownAlias), after; }
      var target := if message == LAST then run.last else message;
      if target == "" { return Bad(NoMessage), after; }
      return if reply.CallFailed? then Bad(CallError) else Done(target, reply.delivered), after;
    case History(_, _) =>
      return if reply.CallFailed? then Bad(CallError) else Done("", reply.delivered), after;
    case Other =>
      return Bad(Unsupported), after;
    case Nil =>
      return Bad(Unsupported), after;
  }

  /** runScenario stops at the first failure with exactly the results up to it. */
  method RunScenario(steps: seq<Step>, env: nat -> Turn)
    returns (results: seq<Result>, delivered: int, failedAt: Option<nat>)
    ensures |results| <= |steps|
    ensures forall i | 0 <= i < |results| ::
              results[i] == Outcome(steps, env, i) && (i < |results| - 1 ==> results[i].Done?)
    ensures failedAt == if |results| > 0 && results[|results| - 1].Bad? then Some(|results| - 1) else None
    ensures failedAt.None? ==> |results| == |steps|
    ensures delivered == Delivered(results)
  {
    results, delivered := [], 0;
    var run := Run(map[], "");
    var i := 0;
    while i < |steps|
      invariant 0 <= i <= |steps| && |results| == i && run == Before(steps, env, i) && delivered == Delivered(results)
      invariant forall j | 0 <= j < i :: results[j] == Outcome(steps, env, j) && results[j].Done?
    {
      if env(i).cancelled {
        assert (results + [Bad(Cancelled)])[..i] == results;
        return results + [Bad(Cancelled)], delivered, Some(i);
      }
      var item, after := RunStep(steps[i], run, env(i).reply);
      assert (results + [item])[..i] == results;
      results := results + [item];
      if item.Bad? { return results, delivered, Some(i); }
      delivered := delivered + item.delivered;
      run := after;
      i := i + 1;
    }
    return results, delivered, None;
  }

  // ---------- what the check is worth ----------

  predicate Naming(s: Step) { s.Send? || s.Group? }

  /** An earlier call that should name something did not. */
  predicate NamelessBefore(steps: seq<Step>, env: nat -> Turn, i: nat)
    requires i <= |steps|
  {
    exists j | 0 <= j < i :: Naming(steps[j]) && IdOf(env(j).reply) == ""
  }

  /** The run knows exactly the names the check has seen. */
  predicate Knows(run: Run, aliases: set<string>, seenSend: bool) {
    && run.aliases.Keys == aliases && (forall a | a in aliases :: AliasOf(run, a) != "")
    && (run.last != "" <==> seenSend)
  }

  lemma NextKnows(s: Step, run: Run, reply: Reply, aliases: set<string>, seenSend: bool)
    requires Knows(run, aliases, seenSend) && (Naming(s) ==> IdOf(reply) != "")
    ensures Knows(Next(s, run, reply), aliases + (if s.Group? then {s.alias} else {}), seenSend || s.Send?)
  {
  }

  /** So it is all along, unless a call came back without an id. */
  lemma {:induction false} NamesKnown(steps: seq<Step>, env: nat -> Turn, i: nat)
    requires i <= |steps| && !NamelessBefore(steps, env, i)
    ensures Knows(Before(steps, env, i), Aliases(steps[..i]), AnySend(steps[..i]))
    decreases i
  {
    hide Knows, Next, Aliases, AnySend;
    if i == 0 {
      assert Knows(Run(map[], ""), Aliases(steps[..0]), AnySend(steps[..0])) by { NothingKnown(steps[..0]); }
    } else {
      NamesKnown(steps, env, i - 1);
      Prefixes(steps, i - 1);
      NextKnows(steps[i - 1], Before(steps, env, i - 1), env(i - 1).reply, Aliases(steps[..i - 1]),
                AnySend(steps[..i - 1]));
    }
  }

  lemma NothingKnown(steps: seq<Step>)
    requires steps == []
    ensures Knows(Run(map[], ""), Aliases(steps), AnySend(steps))
  {
  }

  /** A failure of the run's own making: the step does not even get to its call. */
  predicate OwnFault(r: Result) { r.Bad? && r.failure in {UnknownAlias, NoQuote, NoMessage, Unsupported} }

  /** Unless a call came back without an id, a step is at fault exactly when its references are. */
  lemma FaultsAreReferences(steps: seq<Step>, env: nat -> Turn, i: nat)
    requires i < |steps| && !NamelessBefore(steps, env, i) && !env(i).cancelled
    ensures OwnFault(Outcome(steps, env, i)) <==> !Resolvable(steps, i)
  {
    NamesKnown(steps, env, i);
  }

  // ---------- with the server's own handlers ----------

  /** No call before this step failed: runScenario would have stopped there. */
  predicate Reached(steps: seq<Step>, env: nat -> ServerTurn, i: nat)
    requires i <= |steps|
  {
    forall j | 0 <= j < i :: Outcome(steps, Served(steps, env), j).Done?
  }

  lemma DoneMeansOk(steps: seq<Step>, env: nat -> ServerTurn, j: nat)
    requires j < |steps| && Outcome(steps, Served(steps, env), j).Done?
    ensures env(j).ok
  {
    var s := steps[j];
    assert s.Send? || s.Group? || s.Behavior? || s.Effect? || s.History?;
  }

  lemma {:induction false} ServedIsNamed(steps: seq<Step>, env: nat -> ServerTurn, i: nat)
    requires i <= |steps| && Reached(steps, env, i)
    ensures !NamelessBefore(steps, Served(steps, env), i)
  {
    forall j | 0 <= j < i && Naming(steps[j]) ensures IdOf(Served(steps, env)(j).reply) != "" {
      DoneMeansOk(steps, env, j);
    }
  }

  /**
   A story that passed the check never fails on an alias, a quote, a message id or the type
   of a step: whatever the calls do, each step that is reached gets to its call.
   */
  lemma AcceptedNeverAtFault(story: Story, jid: string -> bool, env: nat -> ServerTurn, i: nat)
    requires Accepted(story, jid) && i < |story.steps| && Reached(story.steps, env, i)
    ensures !OwnFault(Outcome(story.steps, Served(story.steps, env), i))
  {
    assert StepAccepted(story.steps, i, jid);
    ServedIsNamed(story.steps, env, i);
    if !env(i).cancelled { FaultsAreReferences(story.steps, Served(story.steps, env), i); }
  }

  /**
   When all calls succeed a story runs to its end exactly when every reference resolves; the check
   refuses no less.
   */
  lemma RunsThrough(steps: seq<Step>, env: nat -> ServerTurn)
    requires forall i: nat :: env(i).ok && !env(i).cancelled
    ensures (forall i | 0 <= i < |steps| :: Outcome(steps, Served(steps, env), i).Done?) <==>
              (forall i | 0 <= i < |steps| :: Resolvable(steps, i))
  {
    forall i | 0 <= i < |steps| ensures Outcome(steps, Served(steps, env), i).Done? <==> Resolvable(steps, i) {
      assert env(i).ok && !env(i).cancelled;
      forall j | 0 <= j < i && Naming(steps[j]) ensures IdOf(Served(steps, env)(j).reply) != "" { assert env(j).ok; }
      FaultsAreReferences(steps, Served(steps, env), i);
    }
  }

  // ---------- with any replies at all ----------

  /** The id the last send before the step came back with. */
  function LastId(steps: seq<Step>, env: nat -> Turn, i: nat): string
    requires i <= |steps|
  {
    if i == 0 then "" else if steps[i - 1].Send? then IdOf(env(i - 1).reply) else LastId(steps, env, i - 1)
  }

  /** The id the last creation of this group before the step came back with. */
  function GroupId(steps: seq<Step>, env: nat -> Turn, i: nat, alias: string): string
    requires i <= |steps|
  {
    if i == 0 then ""
    else if steps[i - 1].Group? && steps[i - 1].alias == alias then IdOf(env(i - 1).reply)
    else GroupId(steps, env, i - 1, alias)
  }

  /** The step needs an id, and what it needs is empty. */
  predicate Dangling(steps: seq<Step>, env: nat -> Turn, i: nat)
    requires i < |steps|
  {
    match steps[i]
    case Send(chat, _, quote, _, _, _, _, _, _, _, _, _) =>
      (IsRef(chat) && GroupId(steps, env, i, Trim(chat)) == "") || (quote == LAST && LastId(steps, env, i) == "")
    case Effect(chat, message, _) =>
      (IsRef(chat) && GroupId(steps, env, i, Trim(chat)) == "") || (message == LAST && LastId(steps, env, i) == "")
    case _ => false
  }

  /** The run's names are what looking back at the replies gives. */
  lemma {:induction false} LooksBack(steps: seq<Step>, env: nat -> Turn, i: nat, alias: string)
    requires i <= |steps|
    ensures Before(steps, env, i).last == LastId(steps, env, i)
    ensures AliasOf(Before(steps, env, i), alias) == GroupId(steps, env, i, alias)
  {
    if i > 0 { LooksBack(steps, env, i - 1, alias); }
  }

  /** With replies of any kind, a step of an accepted story is at fault exactly when an id it needs came back empty. */
  lemma FaultIffDangling(story: Story, jid: string -> bool, env: nat -> Turn, i: nat)
    requires Accepted(story, jid) && i < |story.steps| && !env(i).cancelled
    ensures OwnFault(Outcome(story.steps, env, i)) <==> Dangling(story.steps, env, i)
  {
    var s := story.steps[i];
    assert StepAccepted(story.steps, i, jid);
    LooksBack(story.steps, env, i, if s.Send? || s.Effect? then Trim(s.chat) else "");
  }

  /**
   What a step reports: a send or a group what its call answered, an effect the message it was for, which is the
   last send's for "@last"; whatever fails before its call names the first thing missing, and a call that
   fails is reported as such.
   */
  lemma ResultIs(steps: seq<Step>, env: nat -> Turn, i: nat)
    requires i < |steps| && !env(i).cancelled
    ensures var s, r, o := steps[i], env(i).reply, Outcome(steps, env, i);
            var lost := (s.Send? || s.Effect?) && IsRef(s.chat) && GroupId(steps, env, i, s.chat[1..]) == "";
            var message := if !s.Effect? then "" else if s.message == LAST then LastId(steps, env, i) else s.message;
            && (s.Other? || s.Nil? ==> o == Bad(Unsupported))
            && (lost ==> o == Bad(UnknownAlias))
            && (s.Send? && !lost && s.quote == LAST && LastId(steps, env, i) == "" ==> o == Bad(NoQuote))
            && (s.Effect? && !lost && message == "" ==> o == Bad(NoMessage))
            && (!OwnFault(o) ==>
                  if r.CallFailed? then o == Bad(CallError)
                  else
                    o == Done(if s.Send? || s.Group? then r.id else message, if s.Behavior? then 0 else r.delivered))
  {
    var s := steps[i];
    LooksBack(steps, env, i, if s.Send? || s.Effect? then Trim(s.chat) else "");
  }

  /** The number of deliveries reported is the sum over the steps that went well. */
  lemma {:induction false} DeliveredSum(results: seq<Result>, more: seq<Result>)
    ensures Delivered(results + more) == Delivered(results) + Delivered(more)
    ensures |more| == 1 ==> Delivered(more) == if more[0].Done? then more[0].delivered else 0
    decreases |more|
  {
    if more == [] {
      assert results + more == results;
    } else {
      var n := |more| - 1;
      assert (results + more)[..|results| + n] == results + more[..n];
      DeliveredSum(results, more[..n]);
      assert |more| == 1 ==> more[..n] == [];
    }
  }
}
