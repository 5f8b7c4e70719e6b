/** Every journal that the kernel ever has is one that a disciplined run of journal operations leaves, so all
    that is proved of those runs holds at every prompt from power-on. */
module Reachability {
  import opened Text
  import opened EventRing
  import opened Ledger
  import opened History
  import opened Kernel
  import opened Commands
  import opened Scripts
  import opened Closure
  import opened Prompts
  import opened Mirror
  import opened Boot
  import opened TransactionObjects
  import P = Policy
  import T = PolicyText

  ghost predicate Reachable(l: Ledger) {
    exists ops: seq<Op> :: AllDisciplined(EMPTY, ops) && AllForeign(ops) && ApplyAll(EMPTY, ops) == l
  }

  lemma {:induction false} ApplyPush(l: Ledger, ops: seq<Op>, op: Op)
    requires AllDisciplined(l, ops) && Disciplined(ApplyAll(l, ops), op)
    ensures AllDisciplined(l, ops + [op]) && ApplyAll(l, ops + [op]) == Apply(ApplyAll(l, ops), op)
    decreases |ops|
  {
    hide Disciplined, Apply;
    if ops == [] {
      assert [] + [op] == [op] && [op][1..] == [];
      assert AllDisciplined(Apply(l, op), []);
    } else {
      assert (ops + [op])[1..] == ops[1..] + [op];
      ApplyPush(Apply(l, ops[0]), ops[1..], op);
    }
  }

  lemma ReachStep(l: Ledger, op: Op)
    requires Reachable(l) && Disciplined(l, op) && Foreign(op)
    ensures Reachable(Apply(l, op))
  {
    hide Disciplined, Apply, AllDisciplined, ApplyAll, Foreign;
    var ops :| AllDisciplined(EMPTY, ops) && AllForeign(ops) && ApplyAll(EMPTY, ops) == l;
    ApplyPush(EMPTY, ops, op);
    assert AllDisciplined(EMPTY, ops + [op]) && AllForeign(ops + [op]);
  }

  lemma ReachableFacts(l: Ledger)
    requires Reachable(l)
    ensures JournalOk(l) && HistoryOk(l)
    ensures l.current <= |l.log| && ObjectsOk(l.objects) && (l.tx == 0 || Known(l.txs, l.tx))
  {
    var ops :| AllDisciplined(EMPTY, ops) && AllForeign(ops) && ApplyAll(EMPTY, ops) == l;
    ReachableOk(ops);
    ReachableHistory(ops);
  }

  // ---------------------------------------------------------------- the steps

  lemma ReachRecord(l: Ledger, actor: string, target: string, operation: string, result: EventResult,
                    parent: nat, decision: string, kind: string)
    requires Reachable(l) && parent <= |l.log| && PlainKind(kind)
    ensures var l' := Record(l, actor, target, operation, result, parent, decision, kind);
            Reachable(l') && |l'.log| == |l.log| + 1 && l'.current == l.current && l'.objects == l.objects
  {
    ReachStep(l, RecordOp(actor, target, operation, result, parent, decision, kind));
    hide Reachable, Cut, FindTx, FindObject;
  }

  lemma ReachRegister(l: Ledger, kind: string, name: string, parentId: nat, state: string, created: nat)
    requires Reachable(l) && |name| <= LABEL && parentId <= |l.objects| && created <= |l.log|
    requires !NamesTransaction(name)
    ensures var (l', id) := Register(l, kind, name, parentId, state, created);
            && Reachable(l') && l'.log == l.log && l'.current == l.current
            && |l.objects| <= |l'.objects| && id <= |l'.objects|
  {
    ReachableFacts(l);
    hide Reachable, JournalOk, HistoryOk, Register;
    ReachStep(l, RegisterOp(kind, name, parentId, state, created));
    RegisterKeepsJournal(l, kind, name, parentId, state, created);
    RegisteredId(l, kind, name, parentId, state, created);
  }

  lemma RegisteredId(l: Ledger, kind: string, name: string, parentId: nat, state: string, created: nat)
    requires ObjectsOk(l.objects)
    ensures var (l', id) := Register(l, kind, name, parentId, state, created);
            |l.objects| <= |l'.objects| && id <= |l'.objects|
  {
    hide Cut, Matches;
  }

  lemma ReachUpdate(l: Ledger, name: string, state: string)
    requires Reachable(l) && !NamesTransaction(name) && !AllDigits(name)
    ensures var l' := UpdateState(l, name, state);
            Reachable(l') && |l.log| <= |l'.log| && l'.current == l.current
  {
    ReachStep(l, UpdateOp(name, state));
    hide Reachable, Cut, FindTx, FindObject, Revision, ObjectId;
  }

  lemma ReachMove(l: Ledger, current: nat, tx: nat)
    requires Reachable(l) && current <= |l.log| && (tx == 0 || Known(l.txs, tx))
    ensures Reachable(l.(current := current, tx := tx))
  {
    hide Reachable;
    ReachStep(l, SetCurrentOp(current));
    ReachStep(l.(current := current), SetTxOp(tx));
  }

  lemma ReachBegin(l: Ledger, actor: string, target: string, parent: nat)
    requires Reachable(l) && parent <= |l.log| && |target| <= LABEL
    ensures var (l', id) := Begin(l, actor, target, parent);
            && Reachable(l') && l'.current == l.current && |l.log| <= |l'.log| && id <= |l'.log|
            && (id != 0 ==> Known(l'.txs, id))
  {
    hide Reachable, JournalOk, HistoryOk, Begin, ObjectsOk, FindTx, Known;
    ReachableFacts(l);
    BeginKeepsOk(l, actor, target, parent);
    ReachStep(l, BeginOp(actor, target, parent));
    var (l', id) := Begin(l, actor, target, parent);
    if id != 0 {
      KnownAt(l'.txs, |l.txs|);
    }
  }

  lemma KnownAt(txs: seq<Transaction>, k: nat)
    requires k < |txs|
    ensures Known(txs, txs[k].id)
  {
  }

  /** The end of a bracket. */
  lemma ReachFinish(l: Ledger, id: nat, ok: bool, reason: string, current: nat)
    requires Reachable(l) && current <= |l.log|
    ensures var l1 := if id == 0 then l else if ok then Commit(l, id).0 else Abort(l, id, reason).0;
            Reachable(l1.(tx := 0)) && Reachable(l1.(tx := 0, current := current)) && |l.log| <= |l1.log|
  {
    hide Reachable, Close, JournalOk, HistoryOk, ObjectsOk;
    var l1 := if id == 0 then l else if ok then Commit(l, id).0 else Abort(l, id, reason).0;
    if id != 0 {
      ReachStep(l, if ok then CommitOp(id) else AbortOp(id, reason));
      FinishExtends(l, id, ok, reason);
    }
    ReachableFacts(l1);
    ReachMove(l1, l1.current, 0);
    ReachMove(l1, current, 0);
  }

  lemma FinishExtends(l: Ledger, id: nat, ok: bool, reason: string)
    ensures |l.log| <= |(if ok then Commit(l, id).0 else Abort(l, id, reason).0).log|
  {
    hide FindObject, Revision, ObjectId, Cut, TransactionName, Touch;
  }

  lemma ReachNote(k: Kernel, actor: string, target: string, operation: string, result: EventResult,
                  parent: nat, decision: string, kind: string)
    requires Reachable(k.l) && parent <= |k.l.log| && PlainKind(kind)
    ensures var k' := Note(k, actor, target, operation, result, parent, decision, kind);
            Reachable(k'.l) && |k'.l.log| == |k.l.log| + 1 && k'.l.current == k.l.current
  {
    hide Reachable, Record, PlainKind;
    ReachRecord(k.l, actor, target, operation, result, parent, decision, kind);
  }

  lemma ReachCheck(k: Kernel, actor: string, target: string, operation: string)
    requires Reachable(k.l)
    ensures var c := Check(k, actor, target, operation);
            && Reachable(c.k.l) && c.event == |c.k.l.log| == |k.l.log| + 1 && c.k.l.current == k.l.current
            && c.k.config == k.config
  {
    PlainKinds();
    ReachableFacts(k.l);
    var v := P.Decide(k.p, actor, target, operation);
    ReachRecord(k.l, actor, target, "policy_check", if v.allowed then Ok else Denied, k.l.current, v.reason, "policy");
    hide Reachable, Record, PlainKind, P.Decide, JournalOk, HistoryOk;
  }

  lemma ReachAt(k: Kernel, event: nat)
    requires Reachable(k.l) && event <= |k.l.log|
    ensures Reachable(At(k, event).l)
  {
    hide Reachable;
    ReachStep(k.l, SetCurrentOp(event));
  }

  // ---------------------------------------------------------------- handlers

  /** No key is a number or the name of a transaction. */
  predicate KeysForeign(config: Config) {
    forall key :: key in config.Keys ==> !NamesTransaction(key) && !AllDigits(key)
  }

  lemma ReachSetKey(k: Kernel, key: string, value: string)
    requires Reachable(k.l) && KeysForeign(k.config)
    ensures var k' := SetKey(k, key, value).0; Reachable(k'.l) && |k.l.log| <= |k'.l.log|
  {
    PlainKinds();
    ReachableFacts(k.l);
    ReachRecord(k.l, "config", key, "set", Denied, k.l.current, "deny:unknown-config-key", "state");
    if key in k.config {
      assert key in k.config.Keys;
      ReachUpdate(k.l, key, Cut(value, LABEL));
    }
    hide Reachable, Record, UpdateState, PlainKind, JournalOk, HistoryOk, Foreign;
  }

  lemma ReachSetConfig(k: Kernel, argument: string)
    requires Reachable(k.l) && KeysForeign(k.config)
    ensures var k' := SetConfig(k, argument).0; Reachable(k'.l) && |k.l.log| <= |k'.l.log|
  {
    PlainKinds();
    hide Reachable, Check, SetKey, Note, Split, PlainKind, JournalOk, HistoryOk, ObjectsOk, Known;
    ReachableFacts(k.l);
    var (key, value) := Split(argument);
    if value.Some? {
      ReachCheck(k, "shell", key, "config:set");
      var c := Check(k, "shell", key, "config:set");
      if c.allowed {
        ReachAt(c.k, c.event);
        ReachSetKey(At(c.k, c.event), key, value.value);
        var k1 := SetKey(At(c.k, c.event), key, value.value).0;
        ReachAt(k1, k.l.current);
        ReachNote(At(k1, k.l.current), "config", key, "set", Ok, c.event, c.reason, "state");
      }
    }
  }

  lemma ReachShowConfig(k: Kernel, key: string)
    requires Reachable(k.l)
    ensures var k' := ShowConfig(k, key).0; Reachable(k'.l) && |k.l.log| <= |k'.l.log|
  {
    PlainKinds();
    hide Reachable, Check, Note, PlainKind;
    ReachCheck(k, "shell", key, "config:get");
    var c := Check(k, "shell", key, "config:get");
    ReachNote(c.k, "config", key, "get", Denied, c.event, "deny:unknown-config-key", "state");
    ReachNote(c.k, "config", key, "get", Ok, c.event, c.reason, "state");
  }

  lemma OtherNames(subject: string, operation: string, object_: string)
    ensures !NamesTransaction(CapabilityName(subject, operation, object_))
    ensures !NamesTransaction(POLICY_OBJECT) && !AllDigits(POLICY_OBJECT)
  {
    assert CapabilityName(subject, operation, object_)[0] == 'c' && POLICY_OBJECT[0] == 'p' && !IsDigit('p');
  }

  lemma ReachCapability(l: Ledger, r: P.Rule, revision: nat, parentId: nat)
    requires Reachable(l) && parentId <= |l.objects|
    ensures var l' := RegisterCapability(l, r, revision, parentId);
            Reachable(l') && l'.log == l.log && l'.current == l.current && |l.objects| <= |l'.objects|
  {
    ReachableFacts(l);
    OtherNames(r.subject, r.operation, r.object_);
    hide CapabilityName, CapabilityState, NamesTransaction;
    ReachRegister(l, "capability", CapabilityName(r.subject, r.operation, r.object_), parentId,
                  CapabilityState(r.allow, r.number, revision), l.current);
    hide Reachable, Register, JournalOk, HistoryOk;
  }

  lemma ReachChangePolicy(k: Kernel, allow: bool, subject: string, operation: string, object_: string)
    requires Reachable(k.l)
    ensures var k' := ChangePolicy(k, allow, subject, operation, object_).0; Reachable(k'.l) && |k.l.log| <= |k'.l.log|
  {
    PlainKinds();
    ReachableFacts(k.l);
    IdsStayInRange(k.l.objects, POLICY_OBJECT);
    OtherNames(subject, operation, object_);
    hide Reachable, RegisterCapability, Record, UpdateState, PlainKind, JournalOk, HistoryOk, P.Reason, P.AddRule,
        ObjectId, NamesTransaction, AllDigits;
    var (p', ok) := P.ChangeRule(k.p, allow, subject, operation, object_);
    var verb := if allow then "allow" else "deny";
    if !ok {
      ReachRecord(k.l, "policy", POLICY_OBJECT, verb, Denied, k.l.current, "deny:policy-full", "state");
    } else {
      var r := p'.list[|k.p.list|];
      ReachCapability(k.l, r, p'.revision, ObjectId(k.l.objects, POLICY_OBJECT));
      var l1 := RegisterCapability(k.l, r, p'.revision, ObjectId(k.l.objects, POLICY_OBJECT));
      var reason := P.Reason(true, if allow then "policy:allow" else "policy:deny", p'.revision, r.number);
      ReachRecord(l1, "policy", POLICY_OBJECT, verb, Ok, l1.current, reason, "state");
      ReachUpdate(Record(l1, "policy", POLICY_OBJECT, verb, Ok, l1.current, reason, "state"), POLICY_OBJECT,
                  if allow then "allow-added" else "deny-added");
    }
  }

  lemma ReachChangeByCommand(k: Kernel, allow: bool, subject: string, operation: string, object_: string)
    requires Reachable(k.l)
    ensures var k' := ChangeByCommand(k, allow, subject, operation, object_).0;
            Reachable(k'.l) && |k.l.log| <= |k'.l.log|
  {
    ReachableFacts(k.l);
    hide Reachable, Check, ChangePolicy, JournalOk, HistoryOk;
    ReachCheck(k, "shell", POLICY_OBJECT, "policy:change");
    var c := Check(k, "shell", POLICY_OBJECT, "policy:change");
    ReachAt(c.k, c.event);
    ReachChangePolicy(At(c.k, c.event), allow, subject, operation, object_);
    ReachAt(ChangePolicy(At(c.k, c.event), allow, subject, operation, object_).0, k.l.current);
  }

  lemma ReachPassGate(k: Kernel, target: string, gate: string, verb: string, kind: string)
    requires Reachable(k.l) && PlainKind(kind)
    ensures var c := Check(k, "shell", target, gate);
            && Reachable(c.k.l) && |k.l.log| <= |c.k.l.log|
            && Reachable(Note(c.k, "shell", target, verb, Ok, c.event, c.reason, kind).l)
            && |k.l.log| <= |Note(c.k, "shell", target, verb, Ok, c.event, c.reason, kind).l.log|
  {
    hide Reachable, Check, Note, PlainKind;
    ReachCheck(k, "shell", target, gate);
    var c := Check(k, "shell", target, gate);
    ReachNote(c.k, "shell", target, verb, Ok, c.event, c.reason, kind);
  }

  lemma ReachRunPolicy(k: Kernel, request: Option<string>)
    requires Reachable(k.l)
    ensures var k' := RunPolicy(k, request).0; Reachable(k'.l) && |k.l.log| <= |k'.l.log|
  {
    PlainKinds();
    hide Reachable, Check, Note, ChangeByCommand, ParseRequest, PlainKind;
    match ParseRequest(request)
    case Malformed =>
    case Show => ReachPassGate(k, POLICY_OBJECT, "policy:show", "policy_show", "query");
    case Change(allow, subject, operation, object_) => ReachChangeByCommand(k, allow, subject, operation, object_);
  }

  // ---------------------------------------------------------------- system calls

  lemma ReachCallEvents(k: Kernel, call: Call, thread: string, target: string, event: nat, reason: string)
    requires Reachable(k.l) && event <= |k.l.log|
    ensures var k' := CallEvents(k, call, thread, target, event, reason).0; Reachable(k'.l) && |k.l.log| <= |k'.l.log|
  {
    PlainKinds();
    hide Reachable, Note, PlainKind;
    match call
    case Inspect => ReachNote(k, thread, target, "inspect", Ok, event, reason, "syscall");
    case Yield =>
      ReachNote(k, thread, "scheduler", "yield", Ok, event, reason, "syscall");
      var k1 := Note(k, thread, "scheduler", "yield", Ok, event, reason, "syscall");
      ReachNote(k1, "scheduler", thread, "schedule", Ok, event, reason, "state");
    case ConfigGet =>
      ReachNote(k, thread, target, "config_get", Denied, event, "deny:unknown-config-key", "syscall");
      ReachNote(k, thread, target, "config_get", Ok, event, reason, "syscall");
    case _ => ReachNote(k, thread, target, "config_set", Ok, event, reason, "syscall");
  }

  lemma ReachCallBody(k: Kernel, call: Call, thread: string, target: string)
    requires Reachable(k.l)
    ensures var k' := CallBody(k, call, thread, target).0; Reachable(k'.l) && |k.l.log| <= |k'.l.log|
  {
    PlainKinds();
    ReachableFacts(k.l);
    hide Reachable, Note, Check, CallEvents, PlainKind, JournalOk, HistoryOk;
    if call == Unknown {
      ReachNote(k, thread, "kernel", "unknown_syscall", Denied, k.l.current, "deny:unknown-syscall", "syscall");
    } else {
      ReachCheck(k, thread, target, Operation(call));
      var c := Check(k, thread, target, Operation(call));
      ReachCallEvents(c.k, call, thread, target, c.event, c.reason);
    }
  }

  lemma ReachSyscall(k: Kernel, call: Call, thread: string, target: string)
    requires Reachable(k.l) && |thread| <= LABEL && |target| <= LABEL
    ensures var k' := Syscall(k, call, thread, target).0; Reachable(k'.l) && |k.l.log| <= |k'.l.log|
  {
    ReachableFacts(k.l);
    var about := CallTarget(call, thread, target);
    assert |about| <= LABEL;
    hide Reachable, Begin, CallBody, Close, JournalOk, HistoryOk;
    ReachBegin(k.l, thread, about, k.l.current);
    var (l1, id) := Begin(k.l, thread, about, k.l.current);
    ReachMove(l1, if id == 0 then k.l.current else id, id);
    var k1 := SyscallBegin(k, thread, about).0;
    ReachCallBody(k1, call, thread, about);
    var (k2, ok) := CallBody(k1, call, thread, about);
    ReachFinish(k2.l, id, ok, "deny:syscall", 0);
  }

  lemma TrapTargetFits(number: nat, page: Page, address: nat)
    ensures |TrapTarget(number, page, address)| <= LABEL
  {
    assert |"kernel"| <= LABEL;
    hide TextFrom, NulAt;
  }

  lemma ReachTrap(k: Kernel, number: nat, ring3: bool, pid: nat, page: Page, address: nat)
    requires Reachable(k.l)
    ensures var k' := Trap(k, number, ring3, pid, page, address).0; Reachable(k'.l) && |k.l.log| <= |k'.l.log|
  {
    PlainKinds();
    ReachableFacts(k.l);
    TrapTargetFits(number, page, address);
    var thread := ThreadName(pid);
    assert |thread| <= LABEL;
    hide Reachable, Note, Syscall, PlainKind, JournalOk, HistoryOk, TrapTarget, ThreadName, SpaceName;
    ReachNote(k, thread, "kernel", "cpl3_trap", if ring3 then Ok else Denied, k.l.current,
              if ring3 then "allow:cpl3" else "deny:not-cpl3", "syscall");
    var k1 := Note(k, thread, "kernel", "cpl3_trap", if ring3 then Ok else Denied, k.l.current,
                   if ring3 then "allow:cpl3" else "deny:not-cpl3", "syscall");
    ReachNote(k1, thread, "kernel", "switch_cr3", Ok, k1.l.current, "allow:syscall-kernel-cr3", "action");
    var k2 := EnterTrap(k, ring3, thread);
    ReachSyscall(k2, CallOf(number), thread, TrapTarget(number, page, address));
    var k3 := Syscall(k2, CallOf(number), thread, TrapTarget(number, page, address)).0;
    ReachableFacts(k3.l);
    ReachNote(k3, thread, SpaceName(pid), "switch_cr3", Ok, k3.l.current, "allow:syscall-user-cr3", "action");
  }

  /** Registering an object under the one named `parent`. */
  lemma ReachRegistered(k: Kernel, kind: string, name: string, parent: string, state: string)
    requires Reachable(k.l) && |name| <= LABEL && !NamesTransaction(name)
    ensures var k' := DoWork(k, Registered(kind, name, parent, state));
            Reachable(k'.l) && k'.l.log == k.l.log
  {
    ReachableFacts(k.l);
    IdsStayInRange(k.l.objects, parent);
    hide Reachable, Register, ObjectId, JournalOk, HistoryOk, ObjectsOk;
    ReachRegister(k.l, kind, name, ObjectId(k.l.objects, parent), state, k.l.current);
  }

  lemma ReachPlain(k: Kernel, op: Op)
    requires Reachable(k.l) && PlainOp(k, op)
    ensures Reachable(Apply(k.l, op)) && |k.l.log| <= |Apply(k.l, op).log|
  {
    hide Reachable, Apply, Disciplined;
    ReachStep(k.l, op);
    StepGrows(k.l, op);
  }

  lemma {:induction false} ReachWork(k: Kernel, work: seq<Work>)
    requires Reachable(k.l) && AllWorkOk(k, work)
    ensures Reachable(DoAllWork(k, work).l) && |k.l.log| <= |DoAllWork(k, work).l.log|
    decreases |work|
  {
    hide Reachable, Trap, Apply, Disciplined, PlainOp, Note, Register, PlainKind;
    if work != [] {
      match work[0] {
        case Plain(op) => ReachPlain(k, op);
        case Noted(actor, target, operation, result, decision, kind) =>
          ReachNote(k, actor, target, operation, result, k.l.current, decision, kind);
        case Registered(kind, name, parent, state) => ReachRegistered(k, kind, name, parent, state);
        case Called(number, ring3, pid, page, address) => ReachTrap(k, number, ring3, pid, page, address);
      }
      ReachWork(DoWork(k, work[0]), work[1..]);
    }
  }

  // ---------------------------------------------------------------- the command loop

  lemma ReachScript(k: Kernel, s: Script)
    requires Reachable(k.l)
    ensures var k' := DoAllWork(k, ScriptWork(k, s)); Reachable(k'.l) && |k.l.log| <= |k'.l.log|
  {
    ReachableFacts(k.l);
    EveryScriptOk(k, s);
    hide Reachable, ScriptWork, AllWorkOk, DoAllWork, JournalOk, HistoryOk;
    ReachWork(k, ScriptWork(k, s));
  }

  lemma ReachBody(k: Kernel, c: Command, commandEvent: nat)
    requires Reachable(k.l) && KeysForeign(k.config) && commandEvent <= |k.l.log|
    ensures var k' := Body(k, c, commandEvent).0; Reachable(k'.l) && |k.l.log| <= |k'.l.log|
  {
    PlainKinds();
    hide Reachable, SetConfig, ShowConfig, RunPolicy, Check, Note, DoAllWork, AllWorkOk, PlainKind, ScriptWork,
         DemoRuns;
    match c
    case SetCommand(argument) => ReachSetConfig(k, argument);
    case GetCommand(key) => ReachShowConfig(k, key);
    case PolicyCommand(request) => ReachRunPolicy(k, request);
    case GatedCommand(target, gate, verb, query) =>
      ReachPassGate(k, target, gate, verb, if query then "query" else "state");
    case ScriptCommand(s) => ReachScript(k, s);
    case UnknownCommand(word) =>
      ReachNote(k, "shell", word, "command", Denied, commandEvent, "deny:unknown-command", "action");
  }

  lemma TargetFits(line: string)
    ensures |TransactionTarget(line)| <= LABEL
  {
    assert |POLICY_OBJECT| <= LABEL && |"scheduler"| <= LABEL;
    hide Split, ParseWhole;
  }

  lemma ReachEnter(k: Kernel, line: string)
    requires Reachable(k.l)
    ensures var (k1, commandEvent, id) := Enter(k, line);
            Reachable(k1.l) && commandEvent <= |k1.l.log| && |k.l.log| <= |k1.l.log|
  {
    PlainKinds();
    ReachableFacts(k.l);
    TargetFits(line);
    hide Reachable, Record, Begin, PlainKind, JournalOk, HistoryOk, TransactionTarget, Split;
    var target := TransactionTarget(line);
    var commandEvent := NextSequence(k.l);
    ReachRecord(k.l, "shell", target, "command", Ok, k.l.current, Split(line).0, "command");
    var l1 := Record(k.l, "shell", target, "command", Ok, k.l.current, Split(line).0, "command");
    ReachBegin(l1, "shell", target, commandEvent);
    var (l2, id) := Begin(l1, "shell", target, commandEvent);
    ReachMove(l2, if id == 0 then commandEvent else id, id);
  }

  lemma ReachLeave(k: Kernel, id: nat, ok: bool, boot: nat)
    requires Reachable(k.l) && boot <= |k.l.log|
    ensures Reachable(Leave(k, id, ok, boot).l) && |k.l.log| <= |Leave(k, id, ok, boot).l.log|
  {
    hide Reachable, Close;
    ReachFinish(k.l, id, ok, "deny:transaction", boot);
  }

  lemma EnterKeeps(k: Kernel, line: string)
    ensures Enter(k, line).0.config == k.config
  {
    hide Record, Begin, Split, TransactionTarget;
  }

  lemma ReachCommand(k: Kernel, t: Turn, boot: nat)
    requires Reachable(k.l) && boot <= |k.l.log| && KeysForeign(k.config)
    ensures var k' := RunCommand(k, t.line, t.demo, boot); Reachable(k'.l) && boot <= |k'.l.log|
  {
    EnterKeeps(k, t.line);
    hide Reachable, Enter, Body, Leave, Dispatch, KeysForeign;
    ReachEnter(k, t.line);
    var (k1, commandEvent, id) := Enter(k, t.line);
    var c := Dispatch(t.line, t.demo);
    ReachBody(k1, c, commandEvent);
    var (k2, ok) := Body(k1, c, commandEvent);
    ReachLeave(k2, id, ok, boot);
  }

  lemma {:induction false} ReachRun(k: Kernel, turns: seq<Turn>, boot: nat)
    requires Reachable(k.l) && AtPrompt(k, boot) && boot <= |k.l.log| && KeysForeign(k.config)
    ensures Reachable(RunAll(k, turns, boot).l)
    decreases |turns|
  {
    hide Reachable, RunCommand, Enter, Dispatch, AtPrompt, Ended, Succeeds, ConfigAfter, RulesAfter;
    if turns != [] {
      var t := turns[0];
      ReachCommand(k, t, boot);
      CommandReturnsToPrompt(k, t.line, t.demo, boot);
      SameKeys(k, Dispatch(t.line, t.demo));
      ReachRun(RunCommand(k, t.line, t.demo, boot), turns[1..], boot);
    }
  }

  // ---------------------------------------------------------------- start-up

  lemma ReachSystem(l: Ledger, kind: string, name: string, parentId: nat, state: string)
    requires Reachable(l) && |name| <= LABEL && parentId <= |l.objects| && BOOT_EVENT <= |l.log|
    requires !NamesTransaction(name)
    ensures var (l', id) := Register(l, kind, name, parentId, state, BOOT_EVENT);
            && Reachable(l') && BOOT_EVENT <= |l'.log| && l'.current == l.current
            && id <= |l'.objects| && |l.objects| <= |l'.objects|
  {
    hide Reachable, Register;
    ReachRegister(l, kind, name, parentId, state, BOOT_EVENT);
  }

  lemma ReachPowerOn()
    ensures Reachable(PowerOn()) && |PowerOn().log| == BOOT_EVENT
  {
    PlainKinds();
    hide Record, PlainKind;
    assert AllDisciplined(EMPTY, []) && ApplyAll(EMPTY, []) == EMPTY;
    assert Reachable(EMPTY);
    hide Reachable;
    ReachRecord(EMPTY, "boot", "kernel", "enter", Ok, 0, "allow:boot", "action");
    var l := Record(EMPTY, "boot", "kernel", "enter", Ok, 0, "allow:boot", "action");
    ReachStep(l, SetCurrentOp(BOOT_EVENT));
  }

  lemma ReachRegistry(l: Ledger)
    requires Reachable(l) && BOOT_EVENT <= |l.log|
    ensures Reachable(InitRegistry(l)) && BOOT_EVENT <= |InitRegistry(l).log| && InitRegistry(l).current == l.current
  {
    hide Reachable, Register;
    var (l1, system) := Register(l, "system", "system", 0, "booting", BOOT_EVENT);
    ReachSystem(l, "system", "system", 0, "booting");
    var l2 := Register(l1, "boot", "boot", system, "entered kernel", BOOT_EVENT).0;
    ReachSystem(l1, "boot", "boot", system, "entered kernel");
    var l3 := Register(l2, "subsystem", "memory", system, "initializing", BOOT_EVENT).0;
    ReachSystem(l2, "subsystem", "memory", system, "initializing");
    var l4 := Register(l3, "subsystem", "interrupts", system, "pending", BOOT_EVENT).0;
    ReachSystem(l3, "subsystem", "interrupts", system, "pending");
    var l5 := Register(l4, "subsystem", "ramfs", system, "pending", BOOT_EVENT).0;
    ReachSystem(l4, "subsystem", "ramfs", system, "pending");
    var l6 := Register(l5, "subsystem", "shell", system, "pending", BOOT_EVENT).0;
    ReachSystem(l5, "subsystem", "shell", system, "pending");
    ReachSystem(l6, "ledger", "events", system, "recording");
  }

  lemma {:induction false} ReachCapabilities(l: Ledger, p: P.Rules, i: nat, parentId: nat)
    requires Reachable(l) && i <= |p.list| && parentId <= |l.objects|
    ensures var l' := RegisterCapabilities(l, p, i, parentId);
            Reachable(l') && l'.log == l.log && l'.current == l.current
    decreases |p.list| - i
  {
    hide Reachable, RegisterCapability;
    if i < |p.list| {
      ReachCapability(l, p.list[i], p.revision, parentId);
      ReachCapabilities(RegisterCapability(l, p.list[i], p.revision, parentId), p, i + 1, parentId);
    }
  }

  /** Opening the transaction that loads the policy. */
  lemma ReachLoading(l: Ledger)
    requires Reachable(l) && BOOT_EVENT <= |l.log|
    ensures var (l', id) := Begin(l, "policy", POLICY_OBJECT, BOOT_EVENT);
            Reachable(l'.(current := id, tx := id)) && BOOT_EVENT <= |l'.log| && |l.objects| <= |l'.objects|
  {
    assert |POLICY_OBJECT| <= LABEL;
    StepAdvances(l, BeginOp("policy", POLICY_OBJECT, BOOT_EVENT));
    hide Reachable, Begin, Known;
    var (l', id) := Begin(l, "policy", POLICY_OBJECT, BOOT_EVENT);
    ReachBegin(l, "policy", POLICY_OBJECT, BOOT_EVENT);
    ReachMove(l', id, id);
  }

  /** What policy_init does once the rules are registered. */
  lemma ReachLoaded(l: Ledger, id: nat, reason: string)
    requires Reachable(l) && BOOT_EVENT <= |l.log|
    ensures var l1 := Record(l, "policy", POLICY_OBJECT, "load", Ok, BOOT_EVENT, reason, "state");
            var l2 := Commit(UpdateState(l1, POLICY_OBJECT, "loaded"), id).0;
            Reachable(l2.(tx := 0, current := BOOT_EVENT)) && BOOT_EVENT <= |l2.log|
  {
    PlainKinds();
    OtherNames("", "", "");
    hide Reachable, Record, UpdateState, Close, PlainKind, NamesTransaction, AllDigits;
    ReachRecord(l, "policy", POLICY_OBJECT, "load", Ok, BOOT_EVENT, reason, "state");
    var l1 := Record(l, "policy", POLICY_OBJECT, "load", Ok, BOOT_EVENT, reason, "state");
    ReachUpdate(l1, POLICY_OBJECT, "loaded");
    var l2 := UpdateState(l1, POLICY_OBJECT, "loaded");
    ReachStep(l2, CommitOp(id));
    StepGrows(l2, CommitOp(id));
    ReachMove(Commit(l2, id).0, BOOT_EVENT, 0);
  }

  lemma ReachPolicy(l: Ledger, source: string)
    requires Reachable(l) && BOOT_EVENT <= |l.log|
    ensures var l' := InitPolicy(l, source).0; Reachable(l') && BOOT_EVENT <= |l'.log| && l'.current == BOOT_EVENT
  {
    ReachableFacts(l);
    IdsStayInRange(l.objects, "system");
    assert |POLICY_OBJECT| <= LABEL;
    OtherNames("", "", "");
    hide NamesTransaction, Reachable, Register, Begin, ObjectId, RegisterCapabilities, Record, UpdateState, Close,
         T.Parse, P.Reason, JournalOk, HistoryOk, ObjectsOk, Known;
    var (l1, policy) := Register(l, "policy", POLICY_OBJECT, ObjectId(l.objects, "system"), "loading", BOOT_EVENT);
    ReachSystem(l, "policy", POLICY_OBJECT, ObjectId(l.objects, "system"), "loading");
    var (l2, id) := Begin(l1, "policy", POLICY_OBJECT, BOOT_EVENT);
    ReachLoading(l1);
    var p := T.Parse(source);
    ReachCapabilities(l2.(current := id, tx := id), p, 0, policy);
    ReachLoaded(RegisterCapabilities(l2.(current := id, tx := id), p, 0, policy), id,
                P.Reason(true, "policy-bootstrap", p.revision, 0));
  }

  lemma ReachConfig(l: Ledger)
    requires Reachable(l)
    ensures Reachable(InitConfig(l)) && |l.log| <= |InitConfig(l).log|
  {
    PlainKinds();
    ReachableFacts(l);
    IdsStayInRange(l.objects, "system");
    KeyFacts();
    hide Reachable, Register, Record, ObjectId, PlainKind, JournalOk, HistoryOk;
    var (l1, parent) := Register(l, "directory", "/config", ObjectId(l.objects, "system"), "ready", l.current);
    ReachRegister(l, "directory", "/config", ObjectId(l.objects, "system"), "ready", l.current);
    var l2 := Register(l1, "config_key", THEME, parent, "light", l1.current).0;
    ReachRegister(l1, "config_key", THEME, parent, "light", l1.current);
    ReachRegister(l2, "config_key", PROMPT, parent, ">", l2.current);
    var l3 := Register(l2, "config_key", PROMPT, parent, ">", l2.current).0;
    ReachRecord(l3, "config", "/config", "initialize", Ok, l3.current, "allow:boot-config", "action");
  }

  lemma {:induction false} ReachOps(l: Ledger, ops: seq<Op>)
    requires Reachable(l) && StartOps(l, ops)
    ensures Reachable(ApplyAll(l, ops)) && |l.log| <= |ApplyAll(l, ops).log|
    decreases |ops|
  {
    hide Reachable, Apply, Disciplined;
    if ops != [] {
      ReachStep(l, ops[0]);
      StepGrows(l, ops[0]);
      ReachOps(Apply(l, ops[0]), ops[1..]);
    }
  }

  lemma ReachStart(source: string, before: seq<Op>, after: seq<Op>)
    requires StartOk(source, before, after)
    ensures Reachable(Start(source, before, after).l) && |Start(source, before, after).l.log| >= BOOT_EVENT
  {
    hide Reachable, InitRegistry, InitPolicy, InitConfig, StartOps, ApplyAll, PowerOn;
    ReachPowerOn();
    ReachRegistry(PowerOn());
    ReachPolicy(InitRegistry(PowerOn()), source);
    var l1 := InitPolicy(InitRegistry(PowerOn()), source).0;
    ReachOps(l1, before);
    ReachConfig(ApplyAll(l1, before));
    ReachOps(InitConfig(ApplyAll(l1, before)), after);
  }

  /** What every disciplined run of journal operations leaves: causes before effects, a transaction table that
      agrees with the log, objects in order, revisions that no label of fewer than 47 characters sees going
      back, no transaction committed at an older revision than it started at, and, as long as the sequence has
      not wrapped around, an object for each transaction whose state says how it ended. */
  ghost predicate SoundJournal(l: Ledger) {
    && JournalOk(l) && HistoryOk(l)
    && (|l.log| < 0x1_0000_0000_0000_0000 ==> ShownInRegistry(l))
    && forall name: string :: |name| < LABEL ==> Rising(l.log, name)
  }

  lemma ReachableIsSound(l: Ledger)
    requires Reachable(l)
    ensures SoundJournal(l)
  {
    ReachableFacts(l);
    var ops :| AllDisciplined(EMPTY, ops) && AllForeign(ops) && ApplyAll(EMPTY, ops) == l;
    forall name: string | |name| < LABEL
      ensures Rising(l.log, name)
    {
      RevisionsNeverDecrease(ops, name);
    }
    if |l.log| < 0x1_0000_0000_0000_0000 {
      ObjectsShowTransactions(ops);
    }
    hide AllDisciplined, ApplyAll, HistoryOk, TagsOk, TableOk, ShownInRegistry, AllForeign;
  }

  lemma ForeignKeys(config: Config)
    requires config.Keys == {"/config/theme", "/config/prompt"}
    ensures KeysForeign(config)
  {
    assert forall key :: key in config.Keys ==> key[0] == '/';
  }

  /** From power-on, over any run of commands, the journal at every prompt is one that a disciplined run of
      journal operations leaves, and has all that is proved of those. */
  lemma EveryJournalIsReachable(source: string, before: seq<Op>, after: seq<Op>, turns: seq<Turn>)
    requires StartOk(source, before, after)
    ensures var l := RunAll(Start(source, before, after), turns, BOOT_EVENT).l; Reachable(l) && SoundJournal(l)
  {
    hide Reachable, SoundJournal, Start, StartOk, RunAll, AtPrompt, Mirrored, T.Parse;
    ReachStart(source, before, after);
    StartReachesPrompt(source, before, after);
    TwoKeys(Start(source, before, after).config);
    ForeignKeys(Start(source, before, after).config);
    ReachRun(Start(source, before, after), turns, BOOT_EVENT);
    ReachableIsSound(RunAll(Start(source, before, after), turns, BOOT_EVENT).l);
  }
}
