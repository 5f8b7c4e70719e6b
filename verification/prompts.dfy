/** From prompt to prompt: what each command leaves of the transactions, the rules and the values. */
module Prompts {
  import opened Text
  import opened EventRing
  import opened Ledger
  import opened Kernel
  import opened Commands
  import opened Scripts
  import opened Closure
  import P = Policy

  // ---------------------------------------------------------------- the command loop

  lemma OpKeepsOpen(k: Kernel, op: Op, open: set<nat>)
    requires OpenExactly(k.l, open) && PlainOp(k, op)
    ensures OpenExactly(Apply(k.l, op), open) && |k.l.log| <= |Apply(k.l, op).log|
  {
    hide FindObject;
    match op
    case RecordOp(actor, target, operation, result, parent, decision, kind) =>
      RecordPlain(k.l, actor, target, operation, result, parent, decision, kind, open);
    case RegisterOp(kind, name, parentId, state, created) =>
      RegisterPlain(k.l, kind, name, parentId, state, created, open);
    case UpdateOp(name, state) => UpdatePlain(k.l, name, state, open);
    case SetCurrentOp(sequence) => MoveCurrent(k.l, sequence, k.l.tx, open);
    hide OpenExactly, Record, Register;
  }

  lemma {:induction false} WorkKeepsOpen(k: Kernel, work: seq<Work>, open: set<nat>)
    requires OpenExactly(k.l, open) && AllWorkOk(k, work)
    ensures var k' := DoAllWork(k, work);
            OpenExactly(k'.l, open) && |k.l.log| <= |k'.l.log| && k'.p == k.p && k'.config == k.config
    decreases |work|
  {
    hide OpenExactly, Trap, Apply, Note, Register, PlainKind;
    if work != [] {
      match work[0] {
        case Plain(op) => OpKeepsOpen(k, op, open);
        case Noted(actor, target, operation, result, decision, kind) =>
          NoteQuiet(k, actor, target, operation, result, k.l.current, decision, kind, open);
        case Registered(kind, name, parent, state) =>
          RegisterPlain(k.l, kind, name, ObjectId(k.l.objects, parent), state, k.l.current, open);
        case Called(number, ring3, pid, page, address) => TrapCloses(k, number, ring3, pid, page, address, open);
      }
      WorkKeepsOpen(DoWork(k, work[0]), work[1..], open);
    }
  }

  /** When a command succeeds. */
  predicate Succeeds(k: Kernel, c: Command) {
    match c
    case SetCommand(argument) => SetAccepted(k, argument)
    case GetCommand(key) => P.Decide(k.p, "shell", key, "config:get").allowed && key in k.config
    case PolicyCommand(request) => PolicyAccepted(k, request)
    case GatedCommand(target, gate, _, _) => P.Decide(k.p, "shell", target, gate).allowed
    case ScriptCommand(s) => s.UserDemo? ==> DemoRuns(k.p, s.demo)
    case UnknownCommand(_) => false
  }

  /** The configuration and the rules after a command that succeeded. */
  function ConfigAfter(k: Kernel, c: Command): Config {
    match c
    case SetCommand(argument) =>
      var (key, value) := Split(argument);
      if SetAccepted(k, argument) then k.config[key := Cut(value.value, LABEL)] else k.config
    case _ => k.config
  }

  function RulesAfter(k: Kernel, c: Command): P.Rules {
    match c
    case PolicyCommand(request) =>
      (match ParseRequest(request)
       case Change(allow, subject, operation, object_) =>
         if PolicyAccepted(k, request) then P.AddRule(k.p, allow, subject, operation, object_) else k.p
       case _ => k.p)
    case _ => k.p
  }

  lemma PassGateFacts(k: Kernel, target: string, gate: string, verb: string, query: bool, open: set<nat>)
    requires OpenExactly(k.l, open)
    ensures var (k', ok) := PassGate(k, target, gate, verb, query);
            && Quiet(k.l, k'.l, open) && k'.p == k.p && k'.config == k.config
            && (ok <==> P.Decide(k.p, "shell", target, gate).allowed)
  {
    PlainKinds();
    hide OpenExactly, PlainKind, Note, Check, P.Decide;
    CheckQuiet(k, "shell", target, gate, open);
    var c := Check(k, "shell", target, gate);
    if c.allowed {
      NoteQuiet(c.k, "shell", target, verb, Ok, c.event, c.reason, if query then "query" else "state", open);
    }
  }

  lemma ScriptKeepsOpen(k: Kernel, s: Script, open: set<nat>)
    requires OpenExactly(k.l, open)
    ensures var k' := DoAllWork(k, ScriptWork(k, s));
            OpenExactly(k'.l, open) && |k.l.log| <= |k'.l.log| && k'.p == k.p && k'.config == k.config
  {
    CurrentIsPast(k.l, open);
    EveryScriptOk(k, s);
    hide OpenExactly, ScriptWork, AllWorkOk, DoAllWork;
    WorkKeepsOpen(k, ScriptWork(k, s), open);
  }

  lemma BodyKeepsOpen(k: Kernel, c: Command, commandEvent: nat, open: set<nat>)
    requires OpenExactly(k.l, open) && commandEvent <= |k.l.log|
    ensures var (k', ok) := Body(k, c, commandEvent);
            && OpenExactly(k'.l, open) && |k.l.log| <= |k'.l.log|
            && (ok <==> Succeeds(k, c))
            && k'.config == ConfigAfter(k, c) && k'.p == RulesAfter(k, c)
  {
    PlainKinds();
    hide OpenExactly, PlainKind, SetConfig, ShowConfig, RunPolicy, Note, P.Decide, Split, Cut, ParseRequest,
        PolicyAccepted, SetAccepted, P.AddRule, DoAllWork, ScriptWork;
    match c
    case SetCommand(argument) => SetConfigFacts(k, argument, open);
    case GetCommand(key) => ShowConfigFacts(k, key, open);
    case PolicyCommand(request) => RunPolicyFacts(k, request, open);
    case GatedCommand(target, gate, verb, query) => PassGateFacts(k, target, gate, verb, query, open);
    case ScriptCommand(s) => ScriptKeepsOpen(k, s, open);
    case UnknownCommand(word) =>
      NoteQuiet(k, "shell", word, "command", Denied, commandEvent, "deny:unknown-command", "action", open);
  }

  /** The kernel at a prompt: nothing is open, each transaction has been closed exactly once, no
      transaction is current, and the current event is the boot event. */
  predicate AtPrompt(k: Kernel, boot: nat) {
    OpenExactly(k.l, {}) && k.l.tx == 0 && k.l.current == boot
  }

  lemma EnterOpens(k: Kernel, line: string, boot: nat)
    requires AtPrompt(k, boot)
    ensures var (k1, commandEvent, id) := Enter(k, line);
            && OpenExactly(k1.l, if id == 0 then {} else {id})
            && k1.p == k.p && k1.config == k.config
            && |k.l.log| < commandEvent + 1 <= |k1.l.log| + 1
            && (id == 0 <==> |k.l.txs| >= TRANSACTION_CAPACITY)
  {
    PlainKinds();
    CurrentIsPast(k.l, {});
    hide OpenExactly, PlainKind, Record, Begin, Split, TransactionTarget;
    var target := TransactionTarget(line);
    var commandEvent := NextSequence(k.l);
    RecordPlain(k.l, "shell", target, "command", Ok, k.l.current, Split(line).0, "command", {});
    var l1 := Record(k.l, "shell", target, "command", Ok, k.l.current, Split(line).0, "command");
    BeginOpens(l1, "shell", target, commandEvent, {});
    BeginKeepsOk0(l1, "shell", target, commandEvent);
    var (l2, id) := Begin(l1, "shell", target, commandEvent);
    assert {} + {id} == {id};
    MoveCurrent(l2, if id == 0 then commandEvent else id, id, if id == 0 then {} else {id});
  }

  /** One command, from prompt to prompt: the transaction it opened, if there was room for one, is closed
      exactly once, committed when the handler succeeded and aborted otherwise; set, get and policy
      succeed exactly when they are accepted, and one that is not leaves every value and rule as it was. */
  lemma CommandReturnsToPrompt(k: Kernel, line: string, demo: Demo, boot: nat)
    requires AtPrompt(k, boot) && boot <= |k.l.log|
    ensures var k' := RunCommand(k, line, demo, boot);
            var c := Dispatch(line, demo);
            && AtPrompt(k', boot) && |k.l.log| <= |k'.l.log|
            && Ended(k'.l, Enter(k, line).2, Succeeds(k, c))
            && (Enter(k, line).2 == 0 <==> |k.l.txs| >= TRANSACTION_CAPACITY)
            && k'.config == ConfigAfter(k, c) && k'.p == RulesAfter(k, c)
  {
    hide AtPrompt, OpenExactly, Enter, Body, Leave, Ended, Succeeds, ConfigAfter, RulesAfter, Dispatch;
    EnterOpens(k, line, boot);
    var (k1, commandEvent, id) := Enter(k, line);
    var c := Dispatch(line, demo);
    SameOutcome(k, k1, c);
    BodyKeepsOpen(k1, c, commandEvent, if id == 0 then {} else {id});
    var (k2, ok) := Body(k1, c, commandEvent);
    LeaveCloses(k2, id, ok, boot);
  }

  /** What a command does depends on the rules and the values, not on the journal. */
  lemma SameOutcome(k: Kernel, k1: Kernel, c: Command)
    requires k1.p == k.p && k1.config == k.config
    ensures Succeeds(k1, c) == Succeeds(k, c)
    ensures ConfigAfter(k1, c) == ConfigAfter(k, c) && RulesAfter(k1, c) == RulesAfter(k, c)
  {
    hide Split, P.Decide, ParseRequest;
  }

  lemma LeaveCloses(k: Kernel, id: nat, ok: bool, boot: nat)
    requires OpenExactly(k.l, if id == 0 then {} else {id}) && boot <= |k.l.log|
    ensures var k' := Leave(k, id, ok, boot);
            AtPrompt(k', boot) && Ended(k'.l, id, ok) && |k.l.log| <= |k'.l.log| && k'.p == k.p && k'.config == k.config
  {
    hide OpenExactly, Close, Ended;
    assert {} + {id} == {id};
    Finish(k.l, id, ok, "deny:transaction", {});
    var l1 := if id == 0 then k.l else if ok then Commit(k.l, id).0 else Abort(k.l, id, "deny:transaction").0;
    MoveCurrent(l1.(tx := 0), boot, 0, {});
    EndedElsewhere(l1, 0, boot, id, ok);
  }

  lemma EndedElsewhere(l: Ledger, tx: nat, current: nat, id: nat, ok: bool)
    requires Ended(l, id, ok)
    ensures Ended(l.(tx := tx, current := current), id, ok)
  {
  }

  /** The policy gate of a command: what it asks leave to do, and of what. */
  function GateOf(c: Command): Option<(string, string)> {
    match c
    case SetCommand(argument) =>
      var (key, value) := Split(argument);
      if value.Some? then Some((key, "config:set")) else None
    case GetCommand(key) => Some((key, "config:get"))
    case PolicyCommand(request) =>
      (match ParseRequest(request)
       case Malformed => None
       case Show => Some((POLICY_OBJECT, "policy:show"))
       case Change(_, _, _, _) => Some((POLICY_OBJECT, "policy:change")))
    case GatedCommand(target, gate, _, _) => Some((target, gate))
    case ScriptCommand(s) =>
      (match s
       case Silent => None
       case Meminfo => Some(("memory", "memory:inspect"))
       case List => Some(("ramfs", "filesystem:list"))
       case Read(path) => Some((path, "filesystem:read"))
       case Module(path) => Some((path, "module:load"))
       case UserDemo(_) => Some((HELLO, "process:load")))
    case UnknownCommand(_) => None
  }

  predicate IsDenied(k: Kernel, c: Command) {
    var gate := GateOf(c);
    gate.Some? && !P.Decide(k.p, "shell", gate.value.0, gate.value.1).allowed
  }

  /** meminfo, ls, cat and run do not say that they were denied. */
  predicate HidesDenial(c: Command) {
    c.ScriptCommand? && (c.script.Meminfo? || c.script.List? || c.script.Read? || c.script.Module?)
  }

  /** A denied command is aborted exactly when it is not meminfo, ls, cat or run, whose transactions are
      committed all the same. */
  lemma DeniedCommandIsAborted(k: Kernel, line: string, demo: Demo, boot: nat)
    requires AtPrompt(k, boot) && boot <= |k.l.log| && |k.l.txs| < TRANSACTION_CAPACITY
    requires IsDenied(k, Dispatch(line, demo))
    ensures var l' := RunCommand(k, line, demo, boot).l;
            var id := Enter(k, line).2;
            && id != 0 && Known(l'.txs, id)
            && l'.txs[FindTx(l'.txs, id)].status == if HidesDenial(Dispatch(line, demo)) then Committed else Aborted
  {
    CommandReturnsToPrompt(k, line, demo, boot);
    DeniedFails(k, Dispatch(line, demo));
    hide AtPrompt, RunCommand, Enter, Dispatch, Succeeds, IsDenied, HidesDenial, FindTx, ConfigAfter, RulesAfter;
  }

  lemma DeniedFails(k: Kernel, c: Command)
    requires IsDenied(k, c)
    ensures Succeeds(k, c) <==> HidesDenial(c)
  {
    hide P.Decide, Split, ParseRequest;
  }

  // ---------------------------------------------------------------- runs of commands

  /** A line typed at a prompt, and what a userdemo would find there. */
  datatype Turn = Turn(line: string, demo: Demo)

  function RunAll(k: Kernel, turns: seq<Turn>, boot: nat): Kernel
    decreases |turns|
  {
    if turns == [] then k
    else RunAll(RunCommand(k, turns[0].line, turns[0].demo, boot), turns[1..], boot)
  }

  /** At every prompt of every run no transaction is open, each was closed exactly once, and none is
      current. */
  lemma {:induction false} EveryPromptIsClosed(k: Kernel, turns: seq<Turn>, boot: nat)
    requires AtPrompt(k, boot) && boot <= |k.l.log|
    ensures AtPrompt(RunAll(k, turns, boot), boot)
    decreases |turns|
  {
    hide AtPrompt, RunCommand;
    if turns != [] {
      var t := turns[0];
      CommandReturnsToPrompt(k, t.line, t.demo, boot);
      EveryPromptIsClosed(RunCommand(k, t.line, t.demo, boot), turns[1..], boot);
    }
  }

  lemma SameKeys(k: Kernel, c: Command)
    ensures ConfigAfter(k, c).Keys == k.config.Keys
  {
    hide Split, P.Decide, Cut;
  }

  /** No command adds a configuration key or takes one away. */
  lemma {:induction false} KeysStay(k: Kernel, turns: seq<Turn>, boot: nat)
    requires AtPrompt(k, boot) && boot <= |k.l.log|
    ensures RunAll(k, turns, boot).config.Keys == k.config.Keys
    decreases |turns|
  {
    hide AtPrompt, RunCommand, Enter, Ended, Succeeds, ConfigAfter, RulesAfter, Dispatch;
    if turns != [] {
      var t := turns[0];
      CommandReturnsToPrompt(k, t.line, t.demo, boot);
      SameKeys(k, Dispatch(t.line, t.demo));
      KeysStay(RunCommand(k, t.line, t.demo, boot), turns[1..], boot);
    }
  }

  // ---------------------------------------------------------------- the rules over a run

  /** The command adds a rule. */
  predicate AddsRule(k: Kernel, c: Command) {
    c.PolicyCommand? && PolicyAccepted(k, c.request) && ParseRequest(c.request).Change?
  }

  lemma CommandGrows(k: Kernel, c: Command, loaded: P.Rules, n: nat)
    requires P.Grown(loaded, k.p, n)
    ensures P.Grown(loaded, RulesAfter(k, c), n + if AddsRule(k, c) then 1 else 0)
  {
    hide P.Grown, P.AddRule, P.Decide, ParseRequest;
    if AddsRule(k, c) {
      var r := ParseRequest(c.request);
      P.AddGrows(loaded, k.p, n, r.allow, r.subject, r.operation, r.object_);
    }
  }

  /** How many rules a run adds. */
  function RulesAdded(k: Kernel, turns: seq<Turn>, boot: nat): nat
    decreases |turns|
  {
    if turns == [] then 0
    else
      var t := turns[0];
      (if AddsRule(k, Dispatch(t.line, t.demo)) then 1 else 0) +
      RulesAdded(RunCommand(k, t.line, t.demo, boot), turns[1..], boot)
  }

  lemma TurnGrows(k: Kernel, t: Turn, boot: nat, loaded: P.Rules, n: nat)
    requires AtPrompt(k, boot) && boot <= |k.l.log|
    requires P.Grown(loaded, k.p, n)
    ensures var k' := RunCommand(k, t.line, t.demo, boot);
            && AtPrompt(k', boot) && boot <= |k'.l.log|
            && P.Grown(loaded, k'.p, n + if AddsRule(k, Dispatch(t.line, t.demo)) then 1 else 0)
  {
    hide AtPrompt, RunCommand, Dispatch, RulesAfter, P.Grown, AddsRule, Ended, Succeeds, ConfigAfter, Enter;
    CommandReturnsToPrompt(k, t.line, t.demo, boot);
    CommandGrows(k, Dispatch(t.line, t.demo), loaded, n);
  }

  /** At every prompt of every run the rules are the loaded ones and, after them, one for each policy
      change accepted since; rule i has number i + 1, and the revision has gone up by as many. */
  lemma {:induction false} RulesGrow(k: Kernel, turns: seq<Turn>, boot: nat, loaded: P.Rules, n: nat)
    requires AtPrompt(k, boot) && boot <= |k.l.log|
    requires P.Grown(loaded, k.p, n)
    ensures P.Grown(loaded, RunAll(k, turns, boot).p, n + RulesAdded(k, turns, boot))
    decreases |turns|
  {
    hide AtPrompt, RunCommand, Dispatch, P.Grown, AddsRule, Enter;
    if turns != [] {
      var t := turns[0];
      TurnGrows(k, t, boot, loaded, n);
      RulesGrow(RunCommand(k, t.line, t.demo, boot), turns[1..], boot, loaded,
                n + if AddsRule(k, Dispatch(t.line, t.demo)) then 1 else 0);
    }
  }
}
