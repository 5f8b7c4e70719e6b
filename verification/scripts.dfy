/** The scripts of the commands keep to the journal's discipline, whatever they find. */
module Scripts {
  import opened Text
  import opened EventRing
  import opened Ledger
  import opened Kernel
  import opened Commands
  import O = TransactionObjects
  import P = Policy
  import R = RamFs
  import T = PolicyText

  /** A plain journal operation: it neither begins nor closes transactions nor makes one current, and touches
      neither the state of a configuration key nor a transaction's object. */
  predicate PlainOp(k: Kernel, op: Op) {
    && Disciplined(k.l, op) && O.Foreign(op)
    && !op.BeginOp? && !op.CommitOp? && !op.AbortOp? && !op.SetTxOp?
    && (op.UpdateOp? ==> op.name !in k.config)
  }

  predicate Past(k: Kernel) { k.l.current <= |k.l.log| }

  /** What a step of a script may be. */
  predicate WorkOk(k: Kernel, w: Work) {
    match w
    case Plain(op) => PlainOp(k, op)
    case Noted(_, _, _, _, _, kind) => PlainKind(kind) && Past(k)
    case Registered(_, name, _, _) => |name| <= LABEL && !O.NamesTransaction(name) && Past(k)
    case Called(_, _, _, _, _) => Past(k)
  }

  predicate AllWorkOk(k: Kernel, work: seq<Work>)
    decreases |work|
  {
    work == [] || (WorkOk(k, work[0]) && AllWorkOk(DoWork(k, work[0]), work[1..]))
  }

  // ---------------------------------------------------------------- steps

  lemma NotePast(k: Kernel, actor: string, target: string, operation: string, result: EventResult,
                 parent: nat, decision: string, kind: string)
    ensures var k' := Note(k, actor, target, operation, result, parent, decision, kind);
            |k'.l.log| == |k.l.log| + 1 && k'.l.current == k.l.current
  {
    hide Found, Touch, Cut;
  }

  lemma BeginPast(l: Ledger, actor: string, target: string, parent: nat)
    ensures var (l', id) := Begin(l, actor, target, parent);
            |l.log| <= |l'.log| && id <= |l'.log| && l'.current == l.current
  {
    hide Found, Touch, Cut, TransactionName;
  }

  lemma ClosePast(l: Ledger, id: nat, status: Status, operation: string, result: EventResult, reason: string,
                  state: string)
    ensures var l' := Close(l, id, status, operation, result, reason, state).0;
            |l.log| <= |l'.log| && l'.current == l.current
  {
    hide Found, FindObject, Touch, Cut, TransactionName;
  }

  lemma CallBodyPast(k: Kernel, call: Call, thread: string, target: string)
    ensures var k' := CallBody(k, call, thread, target).0; |k.l.log| <= |k'.l.log| && k'.l.current == k.l.current
  {
    hide Revision, ObjectId, Touch, Cut, P.Decide;
  }

  lemma SyscallPast(k: Kernel, call: Call, thread: string, target: string)
    requires Past(k)
    ensures var k' := Syscall(k, call, thread, target).0; Past(k') && |k.l.log| <= |k'.l.log|
  {
    hide Begin, CallBody, Close;
    var about := CallTarget(call, thread, target);
    BeginPast(k.l, thread, about, k.l.current);
    var (k1, id) := SyscallBegin(k, thread, about);
    CallBodyPast(k1, call, thread, about);
    var (k2, ok) := CallBody(k1, call, thread, about);
    ClosePast(k2.l, id, Committed, "commit", Ok, "allow:transaction", "committed");
    ClosePast(k2.l, id, Aborted, "abort", Denied, "deny:syscall", "aborted");
  }

  lemma TrapPast(k: Kernel, number: nat, ring3: bool, pid: nat, page: Page, address: nat)
    requires Past(k)
    ensures var k' := Trap(k, number, ring3, pid, page, address).0; Past(k') && |k.l.log| <= |k'.l.log|
  {
    hide Note, Syscall, TrapTarget;
    var thread := ThreadName(pid);
    NotePast(k, thread, "kernel", "cpl3_trap", if ring3 then Ok else Denied, k.l.current,
             if ring3 then "allow:cpl3" else "deny:not-cpl3", "syscall");
    var k1 := Note(k, thread, "kernel", "cpl3_trap", if ring3 then Ok else Denied, k.l.current,
                   if ring3 then "allow:cpl3" else "deny:not-cpl3", "syscall");
    NotePast(k1, thread, "kernel", "switch_cr3", Ok, k1.l.current, "allow:syscall-kernel-cr3", "action");
    var k2 := EnterTrap(k, ring3, thread);
    SyscallPast(k2, CallOf(number), thread, TrapTarget(number, page, address));
    var k3 := Syscall(k2, CallOf(number), thread, TrapTarget(number, page, address)).0;
    NotePast(k3, thread, SpaceName(pid), "switch_cr3", Ok, k3.l.current, "allow:syscall-user-cr3", "action");
  }

  // ---------------------------------------------------------------- scripts of fixed steps

  /** A step that is in order whenever the log has n events. */
  predicate FitsFrom(w: Work, n: nat) {
    match w
    case Plain(op) =>
      || (op.RecordOp? && op.parent <= n && PlainKind(op.kind))
      || (op.SetCurrentOp? && op.sequence <= n)
    case Noted(_, _, _, _, _, kind) => PlainKind(kind)
    case Registered(_, name, _, _) => |name| <= LABEL && !O.NamesTransaction(name)
    case Called(_, _, _, _, _) => true
  }

  predicate AllFit(work: seq<Work>, n: nat) { forall w :: w in work ==> FitsFrom(w, n) }

  lemma StepFits(k: Kernel, w: Work, n: nat)
    requires Past(k) && n <= |k.l.log| && FitsFrom(w, n)
    ensures WorkOk(k, w)
    ensures Past(DoWork(k, w)) && |k.l.log| <= |DoWork(k, w).l.log|
  {
    match w {
      case Plain(op) =>
        if op.RecordOp? {
          NotePast(k, op.actor, op.target, op.operation, op.result, op.parent, op.decision, op.kind);
        }
      case Noted(actor, target, operation, result, decision, kind) =>
        NotePast(k, actor, target, operation, result, k.l.current, decision, kind);
      case Registered(kind, name, parent, state) =>
        RegisterKeepsJournal(k.l, kind, name, ObjectId(k.l.objects, parent), state, k.l.current);
      case Called(number, ring3, pid, page, address) => TrapPast(k, number, ring3, pid, page, address);
    }
    hide Record, Register, Trap, Cut;
  }

  lemma RegisterKeepsJournal(l: Ledger, kind: string, name: string, parentId: nat, state: string, created: nat)
    ensures var l' := Register(l, kind, name, parentId, state, created).0; l' == l.(objects := l'.objects)
  {
    hide Found;
  }

  lemma {:induction false} FittingWorkOk(k: Kernel, work: seq<Work>, n: nat)
    requires Past(k) && n <= |k.l.log| && AllFit(work, n)
    ensures AllWorkOk(k, work)
    ensures Past(DoAllWork(k, work)) && |k.l.log| <= |DoAllWork(k, work).l.log|
    decreases |work|
  {
    hide FitsFrom, WorkOk, DoWork;
    if work != [] {
      assert work[0] in work;
      StepFits(k, work[0], n);
      FittingWorkOk(DoWork(k, work[0]), work[1..], n);
    }
  }

  lemma {:induction false} AllOkAppend(k: Kernel, a: seq<Work>, b: seq<Work>)
    requires AllWorkOk(k, a) && AllWorkOk(DoAllWork(k, a), b)
    ensures AllWorkOk(k, a + b)
    decreases |a|
  {
    hide WorkOk, DoWork;
    if a == [] {
      assert a + b == b;
    } else {
      assert (a + b)[1..] == a[1..] + b;
      AllOkAppend(DoWork(k, a[0]), a[1..], b);
    }
  }

  /** A script that starts with a policy check and goes on with steps that fit from its event on. */
  lemma CheckedWorkOk(k: Kernel, actor: string, target: string, operation: string, rest: seq<Work>)
    requires Past(k) && AllFit(rest, NextSequence(k.l))
    ensures var work := [CheckWork(k, actor, target, operation)] + rest;
            AllWorkOk(k, work) && Past(DoAllWork(k, work)) && |k.l.log| <= |DoAllWork(k, work).l.log|
  {
    PlainKinds();
    hide P.Decide, PlainKind, DoWork;
    var check := CheckWork(k, actor, target, operation);
    StepFits(k, check, |k.l.log|);
    CheckAppends(k, actor, target, operation);
    var k1 := DoWork(k, check);
    FittingWorkOk(k1, rest, NextSequence(k.l));
    var work := [check] + rest;
    assert work[0] == check && work[1..] == rest;
  }

  lemma CheckAppends(k: Kernel, actor: string, target: string, operation: string)
    ensures var k1 := DoWork(k, CheckWork(k, actor, target, operation));
            |k1.l.log| == |k.l.log| + 1 && k1.l.current == k.l.current && k1.p == k.p
  {
    var v := P.Decide(k.p, actor, target, operation);
    NotePast(k, actor, target, "policy_check", if v.allowed then Ok else Denied, k.l.current, v.reason, "policy");
    hide Found, Touch, Cut, P.Decide;
  }

  // ---------------------------------------------------------------- meminfo, ls, cat and run

  predicate ScriptOk(k: Kernel, work: seq<Work>) {
    AllWorkOk(k, work) && Past(DoAllWork(k, work)) && |k.l.log| <= |DoAllWork(k, work).l.log|
  }

  lemma MeminfoOk(k: Kernel)
    requires Past(k)
    ensures ScriptOk(k, MeminfoWork(k))
  {
    PlainKinds();
    hide P.Decide, PlainKind, AllWorkOk, DoAllWork;
    var v := P.Decide(k.p, "shell", "memory", "memory:inspect");
    var rest := if !v.allowed then []
                else [Plain(RecordOp("memory", "memory", "inspect", Ok, NextSequence(k.l), v.reason, "state"))];
    CheckedWorkOk(k, "shell", "memory", "memory:inspect", rest);
  }

  lemma ListOk(k: Kernel)
    requires Past(k)
    ensures ScriptOk(k, ListWork(k))
  {
    PlainKinds();
    hide P.Decide, PlainKind, AllWorkOk, DoAllWork;
    var v := P.Decide(k.p, "shell", "ramfs", "filesystem:list");
    var rest := if !v.allowed then []
                else [Plain(RecordOp("ramfs", "ramfs", "list", Ok, NextSequence(k.l), v.reason, "state"))];
    CheckedWorkOk(k, "shell", "ramfs", "filesystem:list", rest);
  }

  lemma LookupFits(path: string, found: bool, event: nat, current: nat)
    requires current <= event
    ensures AllFit(LookupWork(path, found, event, current), event)
  {
    PlainKinds();
  }

  lemma ReadOk(k: Kernel, path: string)
    requires Past(k)
    ensures ScriptOk(k, ReadWork(k, path))
  {
    PlainKinds();
    LookupFits(path, R.Lookup(path).Some?, NextSequence(k.l), k.l.current);
    hide P.Decide, PlainKind, AllWorkOk, DoAllWork, LookupWork, R.Lookup;
    CheckedWorkOk(k, "shell", path, "filesystem:read", ReadWork(k, path)[1..]);
    assert ReadWork(k, path) == [CheckWork(k, "shell", path, "filesystem:read")] + ReadWork(k, path)[1..];
  }

  lemma OpenModuleOk(k: Kernel, path: string)
    requires Past(k)
    ensures ScriptOk(k, OpenModuleWork(k, path).0)
  {
    PlainKinds();
    LookupFits(path, R.Lookup(path).Some?, NextSequence(k.l), k.l.current);
    hide P.Decide, PlainKind, AllWorkOk, DoAllWork, LookupWork, R.Lookup;
    var work := OpenModuleWork(k, path).0;
    assert work == [CheckWork(k, "shell", path, "module:load")] + work[1..];
    CheckedWorkOk(k, "shell", path, "module:load", work[1..]);
  }

  lemma TwoScripts(k: Kernel, a: seq<Work>, b: seq<Work>)
    requires ScriptOk(k, a) && ScriptOk(DoAllWork(k, a), b)
    ensures ScriptOk(k, a + b)
  {
    AllOkAppend(k, a, b);
    DoAllAppend(k, a, b);
    hide AllWorkOk, DoAllWork;
  }

  lemma {:induction false} LinesOk(k: Kernel, text: string)
    requires Past(k)
    ensures ScriptOk(k, LinesWork(k, text))
    decreases |text|
  {
    if text != "" {
      hide MeminfoWork, DoAllWork, AllWorkOk, T.LineLength;
      var work := if text[..T.LineLength(text)] == "meminfo" then MeminfoWork(k) else [];
      if work == [] {
        assert ScriptOk(k, []) by { NothingOk(k); }
      } else {
        MeminfoOk(k);
      }
      LinesOk(DoAllWork(k, work), T.AfterLine(text));
      TwoScripts(k, work, LinesWork(DoAllWork(k, work), T.AfterLine(text)));
    }
  }

  lemma NothingOk(k: Kernel)
    requires Past(k)
    ensures ScriptOk(k, []) && DoAllWork(k, []) == k
  {
  }

  lemma ModuleOk(k: Kernel, path: string)
    requires Past(k)
    ensures ScriptOk(k, ModuleWork(k, path))
  {
    hide OpenModuleWork, LinesWork, DoAllWork, AllWorkOk;
    OpenModuleOk(k, path);
    var (work, text) := OpenModuleWork(k, path);
    LinesOk(DoAllWork(k, work), text);
    TwoScripts(k, work, LinesWork(DoAllWork(k, work), text));
  }

  // ---------------------------------------------------------------- userdemo

  lemma {:induction false} PagesFit(ready: bool, free: nat, n: nat)
    ensures AllFit(PagesWork(ready, free, n), 0)
  {
    PlainKinds();
    hide PlainKind;
    if n > 0 {
      PagesFit(ready, if free == 0 then 0 else free - 1, n - 1);
    }
  }

  lemma UserNames(pid: nat)
    ensures |ProcessName(pid)| <= LABEL && |ThreadName(pid)| <= LABEL && |SpaceName(pid)| <= LABEL
    ensures !O.NamesTransaction(ProcessName(pid)) && !O.NamesTransaction(ThreadName(pid))
    ensures !O.NamesTransaction(SpaceName(pid))
  {
    assert ProcessName(pid)[0] == 'p' && ThreadName(pid)[1] == 'h' && SpaceName(pid)[0] == 'a';
    hide Decimal;
  }

  lemma CreateFits(ready: bool, free: nat, pid: nat)
    ensures AllFit(CreateWork(ready, free, pid), 0)
  {
    PlainKinds();
    PagesFit(ready, free, 5);
    UserNames(pid);
    hide PlainKind, PagesWork, ProcessName, ThreadName, SpaceName, O.NamesTransaction;
  }

  lemma MapFits(free: nat, policy: string)
    ensures AllFit(MapWork(free, policy), 0)
  {
    PlainKinds();
    hide PlainKind;
  }

  lemma {:induction false} CallsFit(page: Page, pid: nat, calls: seq<UserCall>)
    ensures AllFit(CallsWork(page, pid, calls), 0)
  {
    if calls != [] {
      CallsFit(page, pid, calls[1..]);
    }
  }

  lemma RingFits(d: Demo)
    ensures AllFit(RingWork(d), 0)
  {
    PlainKinds();
    CallsFit(d.page, d.processes + 1, d.calls);
    hide PlainKind, CallsWork, ThreadName, ProcessName, SpaceName;
  }

  lemma ProbeFits(d: Demo, free: nat)
    ensures AllFit(ProbeWork(d, free), 0)
  {
    PlainKinds();
    RingFits(d);
    MapFits(if free == 0 then 0 else free - 1, "allow:user-private-page");
    hide PlainKind, RingWork, MapWork, ProcessName;
  }

  lemma FitsLater(work: seq<Work>, n: nat, m: nat)
    requires AllFit(work, n) && n <= m
    ensures AllFit(work, m)
  {
  }

  lemma LoadFits(d: Demo, free: nat, event: nat, current: nat, reason: string)
    requires current <= event
    ensures AllFit(LoadWork(d, free, event, current, reason), event)
  {
    PlainKinds();
    LookupFits(HELLO, true, event, current);
    PagesFit(true, free, 2);
    FitsLater(PagesWork(true, free, 2), 0, event);
    if free >= 2 {
      MapFits(free - 2, "allow:user-code-page");
      FitsLater(MapWork(free - 2, "allow:user-code-page"), 0, event);
    }
    if free >= 3 {
      MapFits(free - 3, "allow:user-stack-page");
      FitsLater(MapWork(free - 3, "allow:user-stack-page"), 0, event);
    }
    if free >= 4 {
      ProbeFits(d, free - 4);
      FitsLater(ProbeWork(d, free - 4), 0, event);
    }
    hide PlainKind, LookupWork, PagesWork, MapWork, ProbeWork, ProcessName;
  }

  lemma TwoFit(a: seq<Work>, b: seq<Work>, n: nat)
    requires AllFit(a, n) && AllFit(b, n)
    ensures AllFit(a + b, n)
  {
    hide FitsFrom;
  }

  lemma OneFits(actor: string, target: string, operation: string, result: EventResult, decision: string)
    ensures AllFit([Noted(actor, target, operation, result, decision, "state")], 0)
  {
    PlainKinds();
  }

  /** Both processes are made exactly when there is room for two and pages for their ten tables. */
  lemma CreatedExactly(d: Demo)
    ensures CreatedWork(d).1 <==> d.processes + 2 <= PROCESSES && d.ready && d.free >= 10
  {
    hide CreateWork;
  }

  lemma CreatedFits(d: Demo)
    ensures AllFit(CreatedWork(d).0, 0)
  {
    hide AllFit, CreateWork, ThreadName;
    var pid := d.processes + 1;
    OneFits("scheduler", "scheduler", "process_create", Denied, "deny:process-table-full");
    CreateFits(d.ready, d.free, pid);
    var first := CreateWork(d.ready, d.free, pid);
    TwoFit(first, TableFullWork(), 0);
    if d.free >= 5 {
      CreateFits(true, d.free - 5, pid + 1);
      var second := CreateWork(true, d.free - 5, pid + 1);
      TwoFit(first, second, 0);
      OneFits("scheduler", ThreadName(pid), "user_transition_scaffold", Ok, "allow:user-transition");
      TwoFit(first + second, ScaffoldWork(pid), 0);
    }
  }

  lemma DemoOk(k: Kernel, d: Demo)
    requires Past(k)
    ensures ScriptOk(k, DemoWork(k, d))
  {
    hide AllWorkOk, DoAllWork, CreatedWork, LoadWork, P.Decide, AllFit;
    CreatedFits(d);
    CreatedExactly(d);
    var (created, ok) := CreatedWork(d);
    FittingWorkOk(k, created, 0);
    if ok {
      var k1 := DoAllWork(k, created);
      var v := LoadVerdict(k1.p);
      var rest := if !v.allowed then [] else LoadWork(d, d.free - 10, NextSequence(k1.l), k1.l.current, v.reason);
      assert AllFit(rest, NextSequence(k1.l)) by {
        if v.allowed {
          LoadFits(d, d.free - 10, NextSequence(k1.l), k1.l.current, v.reason);
        } else {
          NothingFits(NextSequence(k1.l));
        }
      }
      CheckedWorkOk(k1, "shell", HELLO, "process:load", rest);
      var second := [CheckWork(k1, "shell", HELLO, "process:load")] + rest;
      TwoScripts(k, created, second);
      assert DemoWork(k, d) == created + second;
    }
  }

  lemma NothingFits(n: nat)
    ensures AllFit([], n)
  {
  }

  /** Every command's script is in order, in every state of the journal that a bracket can be in. */
  lemma EveryScriptOk(k: Kernel, s: Script)
    requires Past(k)
    ensures ScriptOk(k, ScriptWork(k, s))
  {
    hide ScriptOk, MeminfoWork, ListWork, ReadWork, ModuleWork, DemoWork;
    match s
    case Silent => NothingOk(k);
    case Meminfo => MeminfoOk(k);
    case List => ListOk(k);
    case Read(path) => ReadOk(k, path);
    case Module(path) => ModuleOk(k, path);
    case UserDemo(d) => DemoOk(k, d);
  }
}
