/** How many of the 32 transactions a run of commands uses, and what happens when they are used up. */
module Capacity {
  import opened Text
  import opened EventRing
  import opened Ledger
  import opened Kernel
  import opened Commands
  import opened Scripts
  import opened Closure
  import opened Prompts
  import opened Mirror
  import opened Boot
  import B = BasePolicy
  import P = Policy
  import R = RamFs
  import T = PolicyText

  // ---------------------------------------------------------------- the system calls of a command

  function CallCount(work: seq<Work>): nat {
    if work == [] then 0 else (if work[0].Called? then 1 else 0) + CallCount(work[1..])
  }

  lemma {:induction false} CallCountAppend(a: seq<Work>, b: seq<Work>)
    ensures CallCount(a + b) == CallCount(a) + CallCount(b)
  {
    if a == [] {
      assert a + b == b;
    } else {
      assert (a + b)[1..] == a[1..] + b;
      CallCountAppend(a[1..], b);
    }
  }

  predicate NoCalls(work: seq<Work>) { forall w :: w in work ==> !w.Called? }

  lemma {:induction false} NoneCounted(work: seq<Work>)
    requires NoCalls(work)
    ensures CallCount(work) == 0
  {
    if work != [] {
      NoneCounted(work[1..]);
    }
  }

  lemma NoCallsAppend(a: seq<Work>, b: seq<Work>)
    requires NoCalls(a) && NoCalls(b)
    ensures NoCalls(a + b)
  {
  }

  lemma {:induction false} LinesCallNothing(k: Kernel, text: string)
    ensures NoCalls(LinesWork(k, text))
    decreases |text|
  {
    if text != "" {
      hide DoAllWork, T.LineLength, P.Decide;
      var work := if text[..T.LineLength(text)] == "meminfo" then MeminfoWork(k) else [];
      LinesCallNothing(DoAllWork(k, work), T.AfterLine(text));
      NoCallsAppend(work, LinesWork(DoAllWork(k, work), T.AfterLine(text)));
    }
  }

  lemma ModuleCallsNothing(k: Kernel, path: string)
    ensures NoCalls(ModuleWork(k, path))
  {
    hide DoAllWork, P.Decide, R.Lookup, LinesWork;
    var (work, text) := OpenModuleWork(k, path);
    LinesCallNothing(DoAllWork(k, work), text);
    NoCallsAppend(work, LinesWork(DoAllWork(k, work), text));
  }

  lemma {:induction false} PagesCallNothing(ready: bool, free: nat, n: nat)
    ensures NoCalls(PagesWork(ready, free, n))
  {
    if n > 0 {
      PagesCallNothing(ready, if free == 0 then 0 else free - 1, n - 1);
    }
  }

  lemma CreateCallsNothing(ready: bool, free: nat, pid: nat)
    ensures NoCalls(CreateWork(ready, free, pid))
  {
    PagesCallNothing(ready, free, 5);
    hide PagesWork, ProcessName, ThreadName, SpaceName;
  }

  lemma ScaffoldCallsNothing(pid: nat)
    ensures NoCalls(TableFullWork()) && NoCalls(ScaffoldWork(pid))
  {
    hide ThreadName;
  }

  lemma CreatedCallsNothing(d: Demo)
    ensures NoCalls(CreatedWork(d).0)
  {
    var pid := d.processes + 1;
    CreateCallsNothing(d.ready, d.free, pid);
    hide CreateWork, NoCalls, ThreadName;
    ScaffoldCallsNothing(pid);
    var first := CreateWork(d.ready, d.free, pid);
    NoCallsAppend(first, TableFullWork());
    if d.free >= 5 {
      CreateCallsNothing(true, d.free - 5, pid + 1);
      var second := CreateWork(true, d.free - 5, pid + 1);
      NoCallsAppend(first, second);
      NoCallsAppend(first + second, ScaffoldWork(pid));
    }
  }

  lemma {:induction false} CallsAreCounted(page: Page, pid: nat, calls: seq<UserCall>)
    ensures CallCount(CallsWork(page, pid, calls)) == |calls|
  {
    if calls != [] {
      CallsAreCounted(page, pid, calls[1..]);
      CallCountAppend([Called(calls[0].number, calls[0].ring3, pid, page, calls[0].address)],
                      CallsWork(page, pid, calls[1..]));
    }
  }

  lemma RingCount(d: Demo)
    ensures CallCount(RingWork(d)) == |d.calls|
  {
    var pid := d.processes + 1;
    var calls := CallsWork(d.page, pid, d.calls);
    CallsAreCounted(d.page, pid, d.calls);
    hide CallsWork, ThreadName, SpaceName, ProcessName;
    var before := RingWork(d)[..2];
    var after := RingWork(d)[2 + |calls|..];
    NoneCounted(before);
    NoneCounted(after);
    assert RingWork(d) == before + calls + after;
    CallCountAppend(before, calls);
    CallCountAppend(before + calls, after);
  }

  /** Work without calls in front adds no call. */
  lemma CountAfter(a: seq<Work>, b: seq<Work>)
    requires NoCalls(a)
    ensures CallCount(a + b) == CallCount(b)
  {
    NoneCounted(a);
    CallCountAppend(a, b);
  }

  lemma ProbeCount(d: Demo, free: nat)
    ensures CallCount(ProbeWork(d, free)) == if free >= 2 then |d.calls| else 0
  {
    hide RingWork, ProcessName;
    if free < 2 {
      NoneCounted(ProbeWork(d, free));
    } else {
      RingCount(d);
      var work := ProbeWork(d, free);
      assert work == work[..4] + RingWork(d);
      CountAfter(work[..4], RingWork(d));
    }
  }

  lemma ShortLoadCallsNothing(d: Demo, free: nat, event: nat, current: nat, reason: string)
    requires free < 4
    ensures NoCalls(LoadWork(d, free, event, current, reason))
  {
    PagesCallNothing(true, free, 2);
    hide PagesWork, ProcessName;
  }

  lemma LoadSplits(d: Demo, free: nat, event: nat, current: nat, reason: string)
    requires free >= 4
    ensures var work, last := LoadWork(d, free, event, current, reason), ProbeWork(d, free - 4);
            |last| <= |work| && work == work[..|work| - |last|] + last && NoCalls(work[..|work| - |last|])
  {
    PagesCallNothing(true, free, 2);
    hide PagesWork, ProbeWork, ProcessName;
  }

  lemma LoadCount(d: Demo, free: nat, event: nat, current: nat, reason: string)
    ensures CallCount(LoadWork(d, free, event, current, reason)) == if free >= 6 then |d.calls| else 0
  {
    hide LoadWork, ProbeWork, CallCount;
    var work := LoadWork(d, free, event, current, reason);
    if free < 4 {
      ShortLoadCallsNothing(d, free, event, current, reason);
      NoneCounted(work);
    } else {
      LoadSplits(d, free, event, current, reason);
      ProbeCount(d, free - 4);
      CountAfter(work[..|work| - |ProbeWork(d, free - 4)|], ProbeWork(d, free - 4));
    }
  }

  /** How many system calls a command makes: the program's, when userdemo runs it. */
  function CallsOf(p: P.Rules, c: Command): nat {
    if c.ScriptCommand? && c.script.UserDemo? && DemoRuns(p, c.script.demo) then |c.script.demo.calls| else 0
  }

  lemma {:induction false} WorkKeepsRules(k: Kernel, work: seq<Work>)
    ensures DoAllWork(k, work).p == k.p
    decreases |work|
  {
    if work != [] {
      StepKeepsRules(k, work[0]);
      hide DoWork;
      WorkKeepsRules(DoWork(k, work[0]), work[1..]);
    }
  }

  lemma StepKeepsRules(k: Kernel, w: Work)
    ensures DoWork(k, w).p == k.p
  {
    hide Record, Register, Begin, Close, P.Decide, Apply;
  }

  lemma DemoCount(k: Kernel, d: Demo)
    ensures CallCount(DemoWork(k, d)) == if DemoRuns(k.p, d) then |d.calls| else 0
  {
    CreatedExactly(d);
    CreatedCallsNothing(d);
    hide CreatedWork, LoadWork, P.Decide, DoAllWork, CallCount;
    var (created, ok) := CreatedWork(d);
    NoneCounted(created);
    if ok {
      var k1 := DoAllWork(k, created);
      WorkKeepsRules(k, created);
      var v := LoadVerdict(k1.p);
      var check := [CheckWork(k1, "shell", HELLO, "process:load")];
      var rest := if v.allowed then LoadWork(d, d.free - 10, NextSequence(k1.l), k1.l.current, v.reason) else [];
      if v.allowed {
        LoadCount(d, d.free - 10, NextSequence(k1.l), k1.l.current, v.reason);
      } else {
        NoneCounted(rest);
      }
      NoCallsAppend(created, check);
      CountAfter(created + check, rest);
      assert DemoWork(k, d) == created + check + rest;
    }
  }

  lemma OtherScriptCallsNothing(k: Kernel, s: Script)
    requires !s.UserDemo?
    ensures NoCalls(ScriptWork(k, s))
  {
    hide P.Decide, ModuleWork, R.Lookup;
    if s.Module? {
      ModuleCallsNothing(k, s.path);
    }
  }

  lemma ScriptCount(k: Kernel, s: Script)
    ensures CallCount(ScriptWork(k, s)) == CallsOf(k.p, ScriptCommand(s))
  {
    hide DemoRuns, DemoWork, CallCount, NoCalls;
    if s.UserDemo? {
      DemoCount(k, s.demo);
    } else {
      OtherScriptCallsNothing(k, s);
      NoneCounted(ScriptWork(k, s));
    }
  }

  // ---------------------------------------------------------------- the transaction table fills up

  /** The transactions in use once n have been asked for. */
  function InUse(n: nat): nat { if n < TRANSACTION_CAPACITY then n else TRANSACTION_CAPACITY }

  lemma SameAfterRecord(l: Ledger, actor: string, target: string, operation: string, result: EventResult,
                        parent: nat, decision: string, kind: string)
    ensures |Record(l, actor, target, operation, result, parent, decision, kind).txs| == |l.txs|
  {
    hide Found, Cut;
  }

  lemma SameAfterRegister(l: Ledger, kind: string, name: string, parentId: nat, state: string, created: nat)
    ensures Register(l, kind, name, parentId, state, created).0.txs == l.txs
  {
    RegisterKeepsJournal(l, kind, name, parentId, state, created);
    hide Register;
  }

  lemma SameAfterUpdate(l: Ledger, name: string, state: string)
    ensures |UpdateState(l, name, state).txs| == |l.txs|
  {
    hide FindObject, Revision, ObjectId, Cut, SetState;
  }

  lemma SameAfterClose(l: Ledger, id: nat, status: Status, operation: string, result: EventResult, reason: string,
                       state: string)
    ensures |Close(l, id, status, operation, result, reason, state).0.txs| == |l.txs|
  {
    hide FindObject, Revision, ObjectId, Cut, SetState, TransactionName;
  }

  lemma OneAfterBegin(l: Ledger, actor: string, target: string, parent: nat)
    requires |l.txs| <= TRANSACTION_CAPACITY
    ensures |Begin(l, actor, target, parent).0.txs| == InUse(|l.txs| + 1)
  {
    hide Found, Cut, TransactionName;
  }

  lemma SameAfterNote(k: Kernel, actor: string, target: string, operation: string, result: EventResult,
                      parent: nat, decision: string, kind: string)
    ensures |Note(k, actor, target, operation, result, parent, decision, kind).l.txs| == |k.l.txs|
  {
    SameAfterRecord(k.l, actor, target, operation, result, parent, decision, kind);
    hide Record;
  }

  lemma SameAfterCheck(k: Kernel, actor: string, target: string, operation: string)
    ensures |Check(k, actor, target, operation).k.l.txs| == |k.l.txs|
  {
    var v := P.Decide(k.p, actor, target, operation);
    SameAfterRecord(k.l, actor, target, "policy_check", if v.allowed then Ok else Denied, k.l.current, v.reason,
                    "policy");
    hide Record, P.Decide;
  }

  lemma SameAfterSet(k: Kernel, argument: string)
    ensures |SetConfig(k, argument).0.l.txs| == |k.l.txs|
  {
    hide Check, Record, UpdateState, Split, Cut;
    var (key, value) := Split(argument);
    if value.Some? {
      SameAfterCheck(k, "shell", key, "config:set");
      var c := Check(k, "shell", key, "config:set");
      var k1 := At(c.k, c.event);
      SameAfterRecord(k1.l, "config", key, "set", Denied, k1.l.current, "deny:unknown-config-key", "state");
      SameAfterUpdate(k1.l, key, Cut(value.value, LABEL));
      var k2 := At(SetKey(k1, key, value.value).0, k.l.current);
      SameAfterRecord(k2.l, "config", key, "set", Ok, c.event, c.reason, "state");
    }
  }

  lemma SameAfterShow(k: Kernel, key: string)
    ensures |ShowConfig(k, key).0.l.txs| == |k.l.txs|
  {
    hide Check, Note;
    SameAfterCheck(k, "shell", key, "config:get");
    var c := Check(k, "shell", key, "config:get");
    SameAfterNote(c.k, "config", key, "get", Denied, c.event, "deny:unknown-config-key", "state");
    SameAfterNote(c.k, "config", key, "get", Ok, c.event, c.reason, "state");
  }

  lemma SameAfterPolicyChange(k: Kernel, allow: bool, subject: string, operation: string, object_: string)
    ensures |ChangePolicy(k, allow, subject, operation, object_).0.l.txs| == |k.l.txs|
  {
    hide Record, UpdateState, Register, P.Reason, CapabilityName, CapabilityState, ObjectId;
    var (p', ok) := P.ChangeRule(k.p, allow, subject, operation, object_);
    var verb := if allow then "allow" else "deny";
    if !ok {
      SameAfterRecord(k.l, "policy", POLICY_OBJECT, verb, Denied, k.l.current, "deny:policy-full", "state");
    } else {
      var r := p'.list[|k.p.list|];
      SameAfterRegister(k.l, "capability", CapabilityName(r.subject, r.operation, r.object_),
                        ObjectId(k.l.objects, POLICY_OBJECT), CapabilityState(r.allow, r.number, p'.revision),
                        k.l.current);
      var l1 := RegisterCapability(k.l, r, p'.revision, ObjectId(k.l.objects, POLICY_OBJECT));
      var reason := P.Reason(true, if allow then "policy:allow" else "policy:deny", p'.revision, r.number);
      SameAfterRecord(l1, "policy", POLICY_OBJECT, verb, Ok, l1.current, reason, "state");
      SameAfterUpdate(Record(l1, "policy", POLICY_OBJECT, verb, Ok, l1.current, reason, "state"), POLICY_OBJECT,
                      if allow then "allow-added" else "deny-added");
    }
  }

  lemma SameAfterPolicy(k: Kernel, request: Option<string>)
    ensures |RunPolicy(k, request).0.l.txs| == |k.l.txs|
  {
    hide Check, Note, ChangePolicy, ParseRequest;
    match ParseRequest(request)
    case Malformed =>
    case Show => SameAfterGate(k, POLICY_OBJECT, "policy:show", "policy_show", "query");
    case Change(allow, subject, operation, object_) =>
      SameAfterCheck(k, "shell", POLICY_OBJECT, "policy:change");
      var c := Check(k, "shell", POLICY_OBJECT, "policy:change");
      SameAfterPolicyChange(At(c.k, c.event), allow, subject, operation, object_);
  }

  lemma SameAfterGate(k: Kernel, target: string, gate: string, verb: string, kind: string)
    ensures var c := Check(k, "shell", target, gate);
            && |c.k.l.txs| == |k.l.txs|
            && |Note(c.k, "shell", target, verb, Ok, c.event, c.reason, kind).l.txs| == |k.l.txs|
  {
    hide Check, Note;
    SameAfterCheck(k, "shell", target, gate);
    var c := Check(k, "shell", target, gate);
    SameAfterNote(c.k, "shell", target, verb, Ok, c.event, c.reason, kind);
  }

  // ---------------------------------------------------------------- one system call, one command

  lemma SameAfterCallBody(k: Kernel, call: Call, thread: string, target: string)
    ensures |CallBody(k, call, thread, target).0.l.txs| == |k.l.txs|
  {
    hide Cut, NewEvent, P.Decide;
  }

  lemma OneAfterSyscall(k: Kernel, call: Call, thread: string, target: string)
    requires |k.l.txs| <= TRANSACTION_CAPACITY
    ensures |Syscall(k, call, thread, target).0.l.txs| == InUse(|k.l.txs| + 1)
  {
    hide Begin, CallBody, Close, InUse;
    var about := CallTarget(call, thread, target);
    OneAfterBegin(k.l, thread, about, k.l.current);
    var (k1, id) := SyscallBegin(k, thread, about);
    SameAfterCallBody(k1, call, thread, about);
    var (k2, ok) := CallBody(k1, call, thread, about);
    SameAfterClose(k2.l, id, Committed, "commit", Ok, "allow:transaction", "committed");
    SameAfterClose(k2.l, id, Aborted, "abort", Denied, "deny:syscall", "aborted");
  }

  lemma OneAfterTrap(k: Kernel, number: nat, ring3: bool, pid: nat, page: Page, address: nat)
    requires |k.l.txs| <= TRANSACTION_CAPACITY
    ensures |Trap(k, number, ring3, pid, page, address).0.l.txs| == InUse(|k.l.txs| + 1)
  {
    hide Note, Syscall, TrapTarget, InUse;
    var thread := ThreadName(pid);
    SameAfterNote(k, thread, "kernel", "cpl3_trap", if ring3 then Ok else Denied, k.l.current,
                  if ring3 then "allow:cpl3" else "deny:not-cpl3", "syscall");
    var k1 := Note(k, thread, "kernel", "cpl3_trap", if ring3 then Ok else Denied, k.l.current,
                   if ring3 then "allow:cpl3" else "deny:not-cpl3", "syscall");
    SameAfterNote(k1, thread, "kernel", "switch_cr3", Ok, k1.l.current, "allow:syscall-kernel-cr3", "action");
    var k2 := EnterTrap(k, ring3, thread);
    OneAfterSyscall(k2, CallOf(number), thread, TrapTarget(number, page, address));
    var k3 := Syscall(k2, CallOf(number), thread, TrapTarget(number, page, address)).0;
    SameAfterNote(k3, thread, SpaceName(pid), "switch_cr3", Ok, k3.l.current, "allow:syscall-user-cr3", "action");
  }

  lemma AfterStep(k: Kernel, w: Work)
    requires WorkOk(k, w) && |k.l.txs| <= TRANSACTION_CAPACITY
    ensures |DoWork(k, w).l.txs| == InUse(|k.l.txs| + if w.Called? then 1 else 0)
  {
    hide Note, Register, Trap, Record, UpdateState, Disciplined;
    match w
    case Plain(op) =>
      if op.RecordOp? {
        SameAfterRecord(k.l, op.actor, op.target, op.operation, op.result, op.parent, op.decision, op.kind);
      } else if op.UpdateOp? {
        SameAfterUpdate(k.l, op.name, op.state);
      } else if op.RegisterOp? {
        SameAfterRegister(k.l, op.kind, op.name, op.parentId, op.state, op.created);
      }
    case Noted(actor, target, operation, result, decision, kind) =>
      SameAfterNote(k, actor, target, operation, result, k.l.current, decision, kind);
    case Registered(kind, name, parent, state) =>
      SameAfterRegister(k.l, kind, name, ObjectId(k.l.objects, parent), state, k.l.current);
    case Called(number, ring3, pid, page, address) => OneAfterTrap(k, number, ring3, pid, page, address);
  }

  lemma {:induction false} AfterWork(k: Kernel, work: seq<Work>)
    requires AllWorkOk(k, work) && |k.l.txs| <= TRANSACTION_CAPACITY
    ensures |DoAllWork(k, work).l.txs| == InUse(|k.l.txs| + CallCount(work))
    decreases |work|
  {
    hide WorkOk, DoWork;
    if work != [] {
      AfterStep(k, work[0]);
      AfterWork(DoWork(k, work[0]), work[1..]);
    }
  }

  lemma AfterBody(k: Kernel, c: Command, commandEvent: nat)
    requires Past(k) && |k.l.txs| <= TRANSACTION_CAPACITY
    ensures |Body(k, c, commandEvent).0.l.txs| == InUse(|k.l.txs| + CallsOf(k.p, c))
  {
    hide SetConfig, ShowConfig, RunPolicy, Check, Note, DoAllWork, AllWorkOk, ScriptWork, DemoRuns;
    match c
    case SetCommand(argument) => SameAfterSet(k, argument);
    case GetCommand(key) => SameAfterShow(k, key);
    case PolicyCommand(request) => SameAfterPolicy(k, request);
    case GatedCommand(target, gate, verb, query) =>
      SameAfterGate(k, target, gate, verb, if query then "query" else "state");
    case ScriptCommand(s) =>
      EveryScriptOk(k, s);
      ScriptCount(k, s);
      AfterWork(k, ScriptWork(k, s));
    case UnknownCommand(word) =>
      SameAfterNote(k, "shell", word, "command", Denied, commandEvent, "deny:unknown-command", "action");
  }

  lemma EnterUses(k: Kernel, line: string)
    requires |k.l.txs| <= TRANSACTION_CAPACITY
    ensures |Enter(k, line).0.l.txs| == InUse(|k.l.txs| + 1) && Enter(k, line).0.p == k.p
    ensures Enter(k, line).2 == 0 <==> |k.l.txs| == TRANSACTION_CAPACITY
  {
    hide Record, Begin, Split, TransactionTarget;
    var target := TransactionTarget(line);
    SameAfterRecord(k.l, "shell", target, "command", Ok, k.l.current, Split(line).0, "command");
    var l1 := Record(k.l, "shell", target, "command", Ok, k.l.current, Split(line).0, "command");
    OneAfterBegin(l1, "shell", target, NextSequence(k.l));
    BeginKeepsOk0(l1, "shell", target, NextSequence(k.l));
  }

  /** A command uses one transaction, and one more for each system call. */
  lemma CommandUses(k: Kernel, line: string, demo: Demo, boot: nat)
    requires |k.l.txs| <= TRANSACTION_CAPACITY
    ensures |RunCommand(k, line, demo, boot).l.txs| == InUse(|k.l.txs| + 1 + CallsOf(k.p, Dispatch(line, demo)))
  {
    hide Enter, Body, Close, Dispatch, CallsOf;
    EnterUses(k, line);
    EnterPast(k, line);
    var (k1, commandEvent, id) := Enter(k, line);
    AfterBody(k1, Dispatch(line, demo), commandEvent);
    var (k2, ok) := Body(k1, Dispatch(line, demo), commandEvent);
    SameAfterClose(k2.l, id, Committed, "commit", Ok, "allow:transaction", "committed");
    SameAfterClose(k2.l, id, Aborted, "abort", Denied, "deny:transaction", "aborted");
  }

  // ---------------------------------------------------------------- runs

  /** The commands of a run and the system calls their programs make. */
  function Asked(k: Kernel, turns: seq<Turn>, boot: nat): nat
    decreases |turns|
  {
    if turns == [] then 0
    else
      var t := turns[0];
      1 + CallsOf(k.p, Dispatch(t.line, t.demo)) + Asked(RunCommand(k, t.line, t.demo, boot), turns[1..], boot)
  }

  lemma {:induction false} RunUses(k: Kernel, turns: seq<Turn>, boot: nat)
    requires AtPrompt(k, boot) && boot <= |k.l.log| && |k.l.txs| <= TRANSACTION_CAPACITY
    ensures |RunAll(k, turns, boot).l.txs| == InUse(|k.l.txs| + Asked(k, turns, boot))
    decreases |turns|
  {
    hide OpenExactly, RunCommand, Dispatch, CallsOf, Enter, Ended, Succeeds, ConfigAfter, RulesAfter;
    if turns != [] {
      var t := turns[0];
      CommandUses(k, t.line, t.demo, boot);
      CommandReturnsToPrompt(k, t.line, t.demo, boot);
      RunUses(RunCommand(k, t.line, t.demo, boot), turns[1..], boot);
    }
  }

  lemma {:induction false} SameAfterCapabilities(l: Ledger, p: P.Rules, i: nat, parentId: nat)
    requires i <= |p.list|
    ensures RegisterCapabilities(l, p, i, parentId).txs == l.txs
    decreases |p.list| - i
  {
    hide Found, CapabilityName, CapabilityState;
    if i < |p.list| {
      SameAfterCapabilities(RegisterCapability(l, p.list[i], p.revision, parentId), p, i + 1, parentId);
    }
  }

  lemma SameAfterRegistry(l: Ledger)
    ensures InitRegistry(l).txs == l.txs
  {
    hide Found;
  }

  lemma SameAfterConfig(l: Ledger)
    ensures |InitConfig(l).txs| == |l.txs|
  {
    hide Found, Cut;
  }

  lemma {:induction false} SameAfterOps(l: Ledger, ops: seq<Op>)
    requires StartOps(l, ops)
    ensures |ApplyAll(l, ops).txs| == |l.txs|
    decreases |ops|
  {
    hide Record, Register, UpdateState, Disciplined;
    if ops != [] {
      var op := ops[0];
      if op.RecordOp? {
        SameAfterRecord(l, op.actor, op.target, op.operation, op.result, op.parent, op.decision, op.kind);
      } else if op.UpdateOp? {
        SameAfterUpdate(l, op.name, op.state);
      } else {
        SameAfterRegister(l, op.kind, op.name, op.parentId, op.state, op.created);
      }
      SameAfterOps(Apply(l, op), ops[1..]);
    }
  }

  /** Loading the policy uses one transaction. */
  lemma PolicyUsesOne(l: Ledger, source: string)
    requires l.txs == []
    ensures |InitPolicy(l, source).0.txs| == 1
  {
    hide Record, Begin, UpdateState, Close, Register, RegisterCapabilities, P.Reason, T.Parse;
    var (l1, policy) := Register(l, "policy", POLICY_OBJECT, ObjectId(l.objects, "system"), "loading", BOOT_EVENT);
    SameAfterRegister(l, "policy", POLICY_OBJECT, ObjectId(l.objects, "system"), "loading", BOOT_EVENT);
    var (l2, id) := Begin(l1, "policy", POLICY_OBJECT, BOOT_EVENT);
    OneAfterBegin(l1, "policy", POLICY_OBJECT, BOOT_EVENT);
    var p := T.Parse(source);
    SameAfterCapabilities(l2.(current := id, tx := id), p, 0, policy);
    var l3 := RegisterCapabilities(l2.(current := id, tx := id), p, 0, policy);
    var reason := P.Reason(true, "policy-bootstrap", p.revision, 0);
    SameAfterRecord(l3, "policy", POLICY_OBJECT, "load", Ok, BOOT_EVENT, reason, "state");
    var l4 := Record(l3, "policy", POLICY_OBJECT, "load", Ok, BOOT_EVENT, reason, "state");
    SameAfterUpdate(l4, POLICY_OBJECT, "loaded");
    SameAfterClose(UpdateState(l4, POLICY_OBJECT, "loaded"), id, Committed, "commit", Ok, "allow:transaction",
                   "committed");
  }

  lemma StartUsesOne(source: string, before: seq<Op>, after: seq<Op>)
    requires StartOk(source, before, after)
    ensures |Start(source, before, after).l.txs| == 1
  {
    hide Record, InitRegistry, InitPolicy, InitConfig, StartOps, ApplyAll;
    SameAfterRecord(EMPTY, "boot", "kernel", "enter", Ok, 0, "allow:boot", "action");
    SameAfterRegistry(PowerOn());
    PolicyUsesOne(InitRegistry(PowerOn()), source);
    var l1 := InitPolicy(InitRegistry(PowerOn()), source).0;
    SameAfterOps(l1, before);
    SameAfterConfig(ApplyAll(l1, before));
    SameAfterOps(InitConfig(ApplyAll(l1, before)), after);
  }

  /** From power-on, over any commands: the table holds one transaction for the policy, one for each command
      and one for each system call, until all 32 are in use; so a command has a transaction of its own
      exactly when fewer than 31 commands and calls came before it. */
  lemma TransactionsRunOut(source: string, before: seq<Op>, after: seq<Op>, turns: seq<Turn>, line: string)
    requires StartOk(source, before, after)
    ensures var start := Start(source, before, after);
            var k := RunAll(start, turns, BOOT_EVENT);
            && |k.l.txs| == InUse(1 + Asked(start, turns, BOOT_EVENT))
            && (Enter(k, line).2 != 0 <==> Asked(start, turns, BOOT_EVENT) < 31)
  {
    hide Start, StartOk, RunAll, Asked, T.Parse, Mirrored, OpenExactly, Enter, RunCommand, CallsOf;
    StartReachesPrompt(source, before, after);
    StartUsesOne(source, before, after);
    var start := Start(source, before, after);
    RunUses(start, turns, BOOT_EVENT);
    EnterUses(RunAll(start, turns, BOOT_EVENT), line);
  }

  // ---------------------------------------------------------------- a policy change without a transaction

  /** The command help, n times. */
  function Helps(n: nat, demo: Demo): seq<Turn> {
    if n == 0 then [] else [Turn("help", demo)] + Helps(n - 1, demo)
  }

  lemma HelpDoesNothing(k: Kernel, demo: Demo, boot: nat)
    requires AtPrompt(k, boot) && boot <= |k.l.log|
    ensures var k' := RunCommand(k, "help", demo, boot);
            && AtPrompt(k', boot) && boot <= |k'.l.log| && k'.p == k.p
            && CallsOf(k.p, Dispatch("help", demo)) == 0
  {
    SplitWords("help", "x");
    CommandReturnsToPrompt(k, "help", demo, boot);
    hide AtPrompt, RunCommand, Enter, Succeeds, Ended;
  }

  lemma {:induction false} HelpsDoNothing(k: Kernel, n: nat, demo: Demo, boot: nat)
    requires AtPrompt(k, boot) && boot <= |k.l.log|
    ensures var k' := RunAll(k, Helps(n, demo), boot);
            AtPrompt(k', boot) && boot <= |k'.l.log| && k'.p == k.p && Asked(k, Helps(n, demo), boot) == n
    decreases n
  {
    hide AtPrompt, RunCommand, CallsOf, Dispatch;
    if n > 0 {
      HelpDoesNothing(k, demo, boot);
      HelpsDoNothing(RunCommand(k, "help", demo, boot), n - 1, demo, boot);
      assert Helps(n, demo)[1..] == Helps(n - 1, demo);
    }
  }

  predicate IsWord(s: string) { s != "" && forall i :: 0 <= i < |s| ==> s[i] != ' ' }

  function AllowArgument(subject: string, operation: string, object_: string): string {
    "allow" + " " + (subject + " " + (operation + " " + object_))
  }

  function AllowLine(subject: string, operation: string, object_: string): string {
    "policy" + " " + AllowArgument(subject, operation, object_)
  }

  lemma AllowIsChange(subject: string, operation: string, object_: string)
    requires IsWord(subject) && IsWord(operation) && IsWord(object_)
    ensures ParseRequest(Some(AllowArgument(subject, operation, object_))) == Change(true, subject, operation, object_)
  {
    var rest2 := operation + " " + object_;
    var rest := subject + " " + rest2;
    hide ParseRequest, Split;
    SplitWords(operation, object_);
    SplitWords(subject, rest2);
    AllowSplits(rest);
    RequestOfSplits(AllowArgument(subject, operation, object_), rest, rest2, subject, operation, object_);
  }

  lemma AllowSplits(rest: string)
    requires rest != "" && rest[0] != ' '
    ensures Split("allow" + " " + rest) == ("allow", Some(rest))
  {
    SplitWords("allow", rest);
    hide Split;
  }

  lemma RequestOfSplits(argument: string, rest: string, rest2: string, subject: string, operation: string,
                        object_: string)
    requires Split(argument) == ("allow", Some(rest))
    requires Split(rest) == (subject, Some(rest2)) && Split(rest2) == (operation, Some(object_))
    ensures ParseRequest(Some(argument)) == Change(true, subject, operation, object_)
  {
    hide Split;
  }

  lemma PolicyLine(argument: string, demo: Demo)
    requires argument != "" && argument[0] != ' '
    ensures Dispatch("policy" + " " + argument, demo) == PolicyCommand(Some(argument))
  {
    SplitWords("policy", argument);
    hide Split, TransactionTarget;
  }

  /** The command adds the rule `allow subject operation object` and has no transaction. */
  ghost predicate ChangesUnrecorded(k: Kernel, demo: Demo, subject: string, operation: string, object_: string) {
    && Enter(k, AllowLine(subject, operation, object_)).2 == 0
    && RunCommand(k, AllowLine(subject, operation, object_), demo, BOOT_EVENT).p ==
       P.AddRule(k.p, true, subject, operation, object_)
  }

  lemma FullTableChanges(k: Kernel, demo: Demo, subject: string, operation: string, object_: string)
    requires AtPrompt(k, BOOT_EVENT) && BOOT_EVENT <= |k.l.log| && |k.l.txs| == TRANSACTION_CAPACITY
    requires P.Decide(k.p, "shell", POLICY_OBJECT, "policy:change").allowed && |k.p.list| < P.MAX_RULES
    requires IsWord(subject) && IsWord(operation) && IsWord(object_)
    ensures ChangesUnrecorded(k, demo, subject, operation, object_)
  {
    hide AtPrompt, Enter, RunCommand, Ended, P.AddRule, Succeeds, ParseRequest, Dispatch, P.Decide;
    EnterUses(k, AllowLine(subject, operation, object_));
    AllowIsChange(subject, operation, object_);
    PolicyLine(AllowArgument(subject, operation, object_), demo);
    CommandReturnsToPrompt(k, AllowLine(subject, operation, object_), demo, BOOT_EVENT);
  }

  lemma RoomForRules()
    ensures |B.LOADED.list| < P.MAX_RULES
  {
    B.RulesAreNumbered();
  }

  /** So the promise that the policy changes only in a transaction fails: with the shipped policy, after 31
      commands, any change of three words is accepted and has none. */
  lemma ChangeWithoutTransaction(before: seq<Op>, after: seq<Op>, demo: Demo, subject: string, operation: string,
                                 object_: string)
    requires StartOk(B.Source(), before, after) && IsWord(subject) && IsWord(operation) && IsWord(object_)
    ensures ChangesUnrecorded(RunAll(Start(B.Source(), before, after), Helps(31, demo), BOOT_EVENT), demo, subject,
                              operation, object_)
  {
    hide Start, StartOk, RunAll, Helps, Asked, T.Parse, Mirrored, OpenExactly, B.Source, P.Decide, ChangesUnrecorded,
         IsWord, Enter;
    StartReachesPrompt(B.Source(), before, after);
    B.Loads();
    var start := Start(B.Source(), before, after);
    HelpsDoNothing(start, 31, demo, BOOT_EVENT);
    TransactionsRunOut(B.Source(), before, after, Helps(31, demo), "");
    B.PolicyMayBeChanged();
    RoomForRules();
    hide B.LOADED;
    FullTableChanges(RunAll(start, Helps(31, demo), BOOT_EVENT), demo, subject, operation, object_);
  }
}
