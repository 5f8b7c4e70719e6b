/** Which transaction an event is tagged with: a command's own, until its program makes a system call. */
module Tagging {
  import opened Text
  import opened EventRing
  import opened Ledger
  import opened Kernel
  import opened Commands
  import opened Scripts
  import opened Closure
  import opened Prompts
  import opened Mirror
  import opened Boot
  import opened Capacity
  import B = BasePolicy
  import P = Policy
  import T = PolicyText

  // ---------------------------------------------------------------- steps that keep the tag

  /** From l to l' events are appended, each with l's current transaction as its tag. */
  ghost predicate Tags(l: Ledger, l': Ledger) {
    && l.log <= l'.log && l'.tx == l.tx
    && forall n {:trigger l'.log[n]} :: |l.log| <= n < |l'.log| ==> l'.log[n].tx == l.tx
  }

  lemma TagsFollow(l: Ledger, l1: Ledger, l2: Ledger)
    requires Tags(l, l1) && Tags(l1, l2)
    ensures Tags(l, l2)
  {
  }

  lemma RecordTags(l: Ledger, actor: string, target: string, operation: string, result: EventResult,
                   parent: nat, decision: string, kind: string)
    ensures Tags(l, Record(l, actor, target, operation, result, parent, decision, kind))
  {
    hide Found, Cut, Touch;
  }

  lemma RegisterTags(l: Ledger, kind: string, name: string, parentId: nat, state: string, created: nat)
    ensures Tags(l, Register(l, kind, name, parentId, state, created).0)
  {
    RegisterKeepsJournal(l, kind, name, parentId, state, created);
    hide Register;
  }

  lemma UpdateTags(l: Ledger, name: string, state: string)
    ensures Tags(l, UpdateState(l, name, state))
  {
    hide FindObject, Revision, ObjectId, Cut, Touch, SetState;
  }

  lemma NoteTags(k: Kernel, actor: string, target: string, operation: string, result: EventResult,
                 parent: nat, decision: string, kind: string)
    ensures Tags(k.l, Note(k, actor, target, operation, result, parent, decision, kind).l)
  {
    RecordTags(k.l, actor, target, operation, result, parent, decision, kind);
    hide Record, Tags;
  }

  lemma CheckTags(k: Kernel, actor: string, target: string, operation: string)
    ensures Tags(k.l, Check(k, actor, target, operation).k.l)
  {
    var v := P.Decide(k.p, actor, target, operation);
    RecordTags(k.l, actor, target, "policy_check", if v.allowed then Ok else Denied, k.l.current, v.reason, "policy");
    hide Record, Tags, P.Decide;
  }

  // ---------------------------------------------------------------- commands without calls

  lemma SetKeyTags(k: Kernel, key: string, value: string)
    ensures Tags(k.l, SetKey(k, key, value).0.l)
  {
    RecordTags(k.l, "config", key, "set", Denied, k.l.current, "deny:unknown-config-key", "state");
    UpdateTags(k.l, key, Cut(value, LABEL));
    hide Record, UpdateState, Tags;
  }

  lemma SetConfigTags(k: Kernel, argument: string)
    ensures Tags(k.l, SetConfig(k, argument).0.l)
  {
    hide Check, SetKey, Note, Split;
    var (key, value) := Split(argument);
    if value.Some? {
      CheckTags(k, "shell", key, "config:set");
      var c := Check(k, "shell", key, "config:set");
      SetKeyTags(At(c.k, c.event), key, value.value);
      var k1 := At(SetKey(At(c.k, c.event), key, value.value).0, k.l.current);
      NoteTags(k1, "config", key, "set", Ok, c.event, c.reason, "state");
    }
  }

  lemma ShowConfigTags(k: Kernel, key: string)
    ensures Tags(k.l, ShowConfig(k, key).0.l)
  {
    hide Check, Note;
    CheckTags(k, "shell", key, "config:get");
    var c := Check(k, "shell", key, "config:get");
    NoteTags(c.k, "config", key, "get", Denied, c.event, "deny:unknown-config-key", "state");
    NoteTags(c.k, "config", key, "get", Ok, c.event, c.reason, "state");
  }

  lemma ChangePolicyTags(k: Kernel, allow: bool, subject: string, operation: string, object_: string)
    ensures Tags(k.l, ChangePolicy(k, allow, subject, operation, object_).0.l)
  {
    hide Record, UpdateState, Register, P.Reason, CapabilityName, CapabilityState, ObjectId, Tags;
    var (p', ok) := P.ChangeRule(k.p, allow, subject, operation, object_);
    var verb := if allow then "allow" else "deny";
    if !ok {
      RecordTags(k.l, "policy", POLICY_OBJECT, verb, Denied, k.l.current, "deny:policy-full", "state");
    } else {
      var r := p'.list[|k.p.list|];
      RegisterTags(k.l, "capability", CapabilityName(r.subject, r.operation, r.object_),
                   ObjectId(k.l.objects, POLICY_OBJECT), CapabilityState(r.allow, r.number, p'.revision), k.l.current);
      var l1 := RegisterCapability(k.l, r, p'.revision, ObjectId(k.l.objects, POLICY_OBJECT));
      var reason := P.Reason(true, if allow then "policy:allow" else "policy:deny", p'.revision, r.number);
      RecordTags(l1, "policy", POLICY_OBJECT, verb, Ok, l1.current, reason, "state");
      var l2 := Record(l1, "policy", POLICY_OBJECT, verb, Ok, l1.current, reason, "state");
      TagsFollow(k.l, l1, l2);
      var state := if allow then "allow-added" else "deny-added";
      UpdateTags(l2, POLICY_OBJECT, state);
      TagsFollow(k.l, l2, UpdateState(l2, POLICY_OBJECT, state));
    }
  }

  lemma GateTags(k: Kernel, target: string, gate: string, verb: string, kind: string)
    ensures var c := Check(k, "shell", target, gate);
            && Tags(k.l, c.k.l)
            && Tags(k.l, Note(c.k, "shell", target, verb, Ok, c.event, c.reason, kind).l)
  {
    hide Check, Note, Tags;
    CheckTags(k, "shell", target, gate);
    var c := Check(k, "shell", target, gate);
    NoteTags(c.k, "shell", target, verb, Ok, c.event, c.reason, kind);
    TagsFollow(k.l, c.k.l, Note(c.k, "shell", target, verb, Ok, c.event, c.reason, kind).l);
  }

  lemma RunPolicyTags(k: Kernel, request: Option<string>)
    ensures Tags(k.l, RunPolicy(k, request).0.l)
  {
    hide Check, Note, ChangePolicy, ParseRequest;
    match ParseRequest(request)
    case Malformed =>
    case Show => GateTags(k, POLICY_OBJECT, "policy:show", "policy_show", "query");
    case Change(allow, subject, operation, object_) =>
      CheckTags(k, "shell", POLICY_OBJECT, "policy:change");
      var c := Check(k, "shell", POLICY_OBJECT, "policy:change");
      ChangePolicyTags(At(c.k, c.event), allow, subject, operation, object_);
  }

  // ---------------------------------------------------------------- system calls

  /** From l to l' events are appended, each without a tag or with one above `past`; none is current. */
  ghost predicate Apart(l: Ledger, l': Ledger, past: nat) {
    && l.log <= l'.log && l'.tx == 0
    && forall n {:trigger l'.log[n]} :: |l.log| <= n < |l'.log| ==> l'.log[n].tx == 0 || l'.log[n].tx > past
  }

  lemma ApartFollows(l: Ledger, l1: Ledger, l2: Ledger, past: nat, later: nat)
    requires Apart(l, l1, past) && Apart(l1, l2, later) && past <= later
    ensures Apart(l, l2, past)
  {
  }

  lemma BeginEventTag(l: Ledger, actor: string, target: string, parent: nat)
    ensures var (l', id) := Begin(l, actor, target, parent);
            && l.log <= l'.log && (id == 0 ==> l' == l)
            && (id != 0 ==> id == |l'.log| == |l.log| + 1 && l'.log[|l.log|].tx == id)
  {
    hide Found, Cut, Touch, TransactionName;
  }

  lemma CloseEventTag(l: Ledger, id: nat, status: Status, operation: string, result: EventResult, reason: string,
                      state: string)
    ensures var l' := Close(l, id, status, operation, result, reason, state).0;
            && l.log <= l'.log && |l'.log| <= |l.log| + 1
            && (Known(l.txs, id) ==> |l'.log| == |l.log| + 1)
            && (|l'.log| > |l.log| ==> l'.log[|l.log|].tx == id)
  {
    hide Found, Cut, Touch, TransactionName, FindObject;
  }

  lemma CallEventsTags(k: Kernel, call: Call, thread: string, target: string, event: nat, reason: string)
    ensures Tags(k.l, CallEvents(k, call, thread, target, event, reason).0.l)
  {
    hide Note, Tags;
    match call
    case Inspect => NoteTags(k, thread, target, "inspect", Ok, event, reason, "syscall");
    case Yield =>
      NoteTags(k, thread, "scheduler", "yield", Ok, event, reason, "syscall");
      var k1 := Note(k, thread, "scheduler", "yield", Ok, event, reason, "syscall");
      NoteTags(k1, "scheduler", thread, "schedule", Ok, event, reason, "state");
      TagsFollow(k.l, k1.l, Note(k1, "scheduler", thread, "schedule", Ok, event, reason, "state").l);
    case ConfigGet =>
      NoteTags(k, thread, target, "config_get", Denied, event, "deny:unknown-config-key", "syscall");
      NoteTags(k, thread, target, "config_get", Ok, event, reason, "syscall");
    case _ => NoteTags(k, thread, target, "config_set", Ok, event, reason, "syscall");
  }

  lemma CallBodyTags(k: Kernel, call: Call, thread: string, target: string)
    ensures Tags(k.l, CallBody(k, call, thread, target).0.l)
  {
    hide Note, Check, CallEvents, Tags;
    if call == Unknown {
      NoteTags(k, thread, "kernel", "unknown_syscall", Denied, k.l.current, "deny:unknown-syscall", "syscall");
    } else {
      CheckTags(k, thread, target, Operation(call));
      var c := Check(k, thread, target, Operation(call));
      CallEventsTags(c.k, call, thread, target, c.event, c.reason);
      TagsFollow(k.l, c.k.l, CallEvents(c.k, call, thread, target, c.event, c.reason).0.l);
    }
  }

  lemma SyscallIsApart(k: Kernel, call: Call, thread: string, target: string)
    ensures Apart(k.l, Syscall(k, call, thread, target).0.l, |k.l.log|)
  {
    hide Begin, CallBody, Close, Known;
    var about := CallTarget(call, thread, target);
    BeginEventTag(k.l, thread, about, k.l.current);
    var (k1, id) := SyscallBegin(k, thread, about);
    CallBodyTags(k1, call, thread, about);
    var (k2, ok) := CallBody(k1, call, thread, about);
    CloseEventTag(k2.l, id, Committed, "commit", Ok, "allow:transaction", "committed");
    CloseEventTag(k2.l, id, Aborted, "abort", Denied, "deny:syscall", "aborted");
  }

  lemma EnterTrapTags(k: Kernel, ring3: bool, thread: string)
    ensures Tags(k.l, EnterTrap(k, ring3, thread).l) && |EnterTrap(k, ring3, thread).l.log| == |k.l.log| + 2
  {
    hide Found, Cut, Touch;
  }

  /** A trap: two events with the tag that was current, then events without it, the last without any. */
  lemma TrapTagged(k: Kernel, number: nat, ring3: bool, pid: nat, page: Page, address: nat)
    ensures var k2 := EnterTrap(k, ring3, ThreadName(pid));
            var k' := Trap(k, number, ring3, pid, page, address).0;
            && Tags(k.l, k2.l) && |k2.l.log| == |k.l.log| + 2
            && Apart(k2.l, k'.l, |k2.l.log|)
            && |k'.l.log| > |k2.l.log| && k'.l.log[|k'.l.log| - 1].tx == 0
  {
    hide Note, Syscall, EnterTrap, TrapTarget, SpaceName, ThreadName;
    var thread := ThreadName(pid);
    EnterTrapTags(k, ring3, thread);
    var k2 := EnterTrap(k, ring3, thread);
    SyscallIsApart(k2, CallOf(number), thread, TrapTarget(number, page, address));
    var k3 := Syscall(k2, CallOf(number), thread, TrapTarget(number, page, address)).0;
    NoteTags(k3, thread, SpaceName(pid), "switch_cr3", Ok, k3.l.current, "allow:syscall-user-cr3", "action");
    NotePast(k3, thread, SpaceName(pid), "switch_cr3", Ok, k3.l.current, "allow:syscall-user-cr3", "action");
  }

  // ---------------------------------------------------------------- the steps of a script

  lemma StepTags(k: Kernel, w: Work)
    requires WorkOk(k, w) && !w.Called?
    ensures Tags(k.l, DoWork(k, w).l)
  {
    hide Note, Register, Record, UpdateState, Disciplined;
    match w
    case Plain(op) =>
      if op.RecordOp? {
        RecordTags(k.l, op.actor, op.target, op.operation, op.result, op.parent, op.decision, op.kind);
      } else if op.UpdateOp? {
        UpdateTags(k.l, op.name, op.state);
      } else if op.RegisterOp? {
        RegisterTags(k.l, op.kind, op.name, op.parentId, op.state, op.created);
      }
    case Noted(actor, target, operation, result, decision, kind) =>
      NoteTags(k, actor, target, operation, result, k.l.current, decision, kind);
    case Registered(kind, name, parent, state) =>
      RegisterTags(k.l, kind, name, ObjectId(k.l.objects, parent), state, k.l.current);
  }

  lemma StepApart(k: Kernel, w: Work, past: nat)
    requires WorkOk(k, w) && k.l.tx == 0 && past <= |k.l.log|
    ensures Apart(k.l, DoWork(k, w).l, past)
  {
    hide Trap, EnterTrap, WorkOk;
    match w
    case Called(number, ring3, pid, page, address) => TrapTagged(k, number, ring3, pid, page, address);
    case _ => StepTags(k, w);
  }

  /** Once no transaction is current, none of the earlier ones tags an event again. */
  lemma {:induction false} WorkApart(k: Kernel, work: seq<Work>, past: nat)
    requires AllWorkOk(k, work) && k.l.tx == 0 && past <= |k.l.log|
    ensures Apart(k.l, DoAllWork(k, work).l, past)
    decreases |work|
  {
    hide WorkOk, DoWork;
    if work != [] {
      StepApart(k, work[0], past);
      WorkApart(DoWork(k, work[0]), work[1..], past);
      ApartFollows(k.l, DoWork(k, work[0]).l, DoAllWork(k, work).l, past, past);
    }
  }

  /** How long the log is when a script's tag ends: two events into its first system call, or at its end. */
  function TagEnd(k: Kernel, work: seq<Work>): nat
    decreases |work|
  {
    if work == [] then |k.l.log|
    else if work[0].Called? then |k.l.log| + 2
    else TagEnd(DoWork(k, work[0]), work[1..])
  }

  /** From event `from` on, the events with the tag `id` are exactly those before event `end`. */
  ghost predicate TaggedUntil(log: seq<Event>, from: nat, id: nat, end: nat) {
    forall n {:trigger log[n]} :: from <= n < |log| ==> (log[n].tx == id <==> n < end)
  }

  /** Some event from `from` on has no tag. */
  ghost predicate Untagged(log: seq<Event>, from: nat) {
    exists n {:trigger log[n]} :: from <= n < |log| && log[n].tx == 0
  }

  lemma CallEndsTag(k: Kernel, w: Work, rest: seq<Work>)
    requires WorkOk(k, w) && w.Called? && AllWorkOk(DoWork(k, w), rest)
    requires 0 < k.l.tx <= |k.l.log|
    ensures var l' := DoAllWork(DoWork(k, w), rest).l;
            && k.l.log <= l'.log && |k.l.log| + 2 < |l'.log|
            && TaggedUntil(l'.log, |k.l.log|, k.l.tx, |k.l.log| + 2) && Untagged(l'.log, |k.l.log|)
  {
    hide Trap, EnterTrap, WorkOk, AllWorkOk, DoAllWork;
    TrapTagged(k, w.number, w.ring3, w.pid, w.page, w.address);
    var k2 := EnterTrap(k, w.ring3, ThreadName(w.pid));
    var k' := DoWork(k, w);
    WorkApart(k', rest, |k2.l.log|);
    var l' := DoAllWork(k', rest).l;
    ApartFollows(k2.l, k'.l, l', |k2.l.log|, |k2.l.log|);
    assert l'.log[|k'.l.log| - 1] == k'.l.log[|k'.l.log| - 1];
    forall n | |k.l.log| <= n < |l'.log|
      ensures l'.log[n].tx == k.l.tx <==> n < |k.l.log| + 2
    {
      if n < |k2.l.log| {
        assert l'.log[n] == k2.l.log[n];
      }
    }
  }

  /** A script tags its events with the current transaction up to the end of its tag and no further; with no
      system call in it, that is all of them, and with one some event has no tag at all. */
  lemma {:induction false} WorkTagged(k: Kernel, work: seq<Work>)
    requires AllWorkOk(k, work) && 0 < k.l.tx <= |k.l.log|
    ensures var l' := DoAllWork(k, work).l;
            && k.l.log <= l'.log && |k.l.log| <= TagEnd(k, work) <= |l'.log|
            && TaggedUntil(l'.log, |k.l.log|, k.l.tx, TagEnd(k, work))
            && (if CallCount(work) == 0 then TagEnd(k, work) == |l'.log| else Untagged(l'.log, |k.l.log|))
    decreases |work|
  {
    hide WorkOk, DoWork;
    if work != [] {
      var k1 := DoWork(k, work[0]);
      if work[0].Called? {
        CallEndsTag(k, work[0], work[1..]);
      } else {
        StepTags(k, work[0]);
        WorkTagged(k1, work[1..]);
        EarlierEvents(k.l.log, k1.l.log, DoAllWork(k, work).l.log, k.l.tx, TagEnd(k, work));
      }
    }
  }

  lemma EarlierEvents(log: seq<Event>, log1: seq<Event>, log2: seq<Event>, id: nat, end: nat)
    requires log <= log1 <= log2 && |log1| <= end && TaggedUntil(log2, |log1|, id, end)
    requires forall n {:trigger log1[n]} :: |log| <= n < |log1| ==> log1[n].tx == id
    ensures TaggedUntil(log2, |log|, id, end)
    ensures Untagged(log2, |log1|) ==> Untagged(log2, |log|)
  {
    forall n | |log| <= n < |log1|
      ensures log2[n].tx == id
    {
      assert log2[n] == log1[n];
    }
  }

  // ---------------------------------------------------------------- one command

  /** How long the log is when the command's tag ends. */
  function BodyTagEnd(k: Kernel, c: Command, commandEvent: nat): nat {
    if c.ScriptCommand? then TagEnd(k, ScriptWork(k, c.script)) else |Body(k, c, commandEvent).0.l.log|
  }

  ghost predicate BodyTagged(k: Kernel, k': Kernel, end: nat, calls: nat) {
    && k.l.log <= k'.l.log && |k.l.log| <= end <= |k'.l.log|
    && TaggedUntil(k'.l.log, |k.l.log|, k.l.tx, end)
    && if calls == 0 then end == |k'.l.log| else Untagged(k'.l.log, |k.l.log|)
  }

  lemma TagsThroughout(k: Kernel, k': Kernel)
    requires Tags(k.l, k'.l)
    ensures BodyTagged(k, k', |k'.l.log|, 0)
  {
  }

  lemma BodyTags(k: Kernel, c: Command, commandEvent: nat)
    requires Past(k) && 0 < k.l.tx <= |k.l.log|
    ensures BodyTagged(k, Body(k, c, commandEvent).0, BodyTagEnd(k, c, commandEvent), CallsOf(k.p, c))
  {
    hide SetConfig, ShowConfig, RunPolicy, Check, Note, DoAllWork, AllWorkOk, ScriptWork, Tags, DemoRuns, TagEnd;
    var k' := Body(k, c, commandEvent).0;
    match c {
      case SetCommand(argument) => SetConfigTags(k, argument);
      case GetCommand(key) => ShowConfigTags(k, key);
      case PolicyCommand(request) => RunPolicyTags(k, request);
      case GatedCommand(target, gate, verb, query) =>
        GateTags(k, target, gate, verb, if query then "query" else "state");
      case ScriptCommand(s) =>
        EveryScriptOk(k, s);
        ScriptCount(k, s);
        WorkTagged(k, ScriptWork(k, s));
      case UnknownCommand(word) =>
        NoteTags(k, "shell", word, "command", Denied, commandEvent, "deny:unknown-command", "action");
    }
    if !c.ScriptCommand? {
      hide BodyTagged, Body;
      TagsThroughout(k, k');
    }
  }

  lemma EnterTags(k: Kernel, line: string)
    requires k.l.tx == 0 && Enter(k, line).2 != 0
    ensures var (k1, _, id) := Enter(k, line);
            && k.l.log <= k1.l.log && |k1.l.log| == |k.l.log| + 2 == k1.l.tx == id
            && k1.l.log[|k.l.log|].tx == 0 && k1.l.log[|k.l.log| + 1].tx == id
  {
    hide Record, Begin, Split, TransactionTarget, Tags;
    var target := TransactionTarget(line);
    RecordTags(k.l, "shell", target, "command", Ok, k.l.current, Split(line).0, "command");
    NotePast(k, "shell", target, "command", Ok, k.l.current, Split(line).0, "command");
    var l1 := Record(k.l, "shell", target, "command", Ok, k.l.current, Split(line).0, "command");
    assert l1.log[|k.l.log|].tx == 0 && k.l.log <= l1.log by { OneTagged(k.l, l1); }
    BeginEventTag(l1, "shell", target, NextSequence(k.l));
  }

  lemma OneTagged(l: Ledger, l1: Ledger)
    requires Tags(l, l1) && |l1.log| == |l.log| + 1
    ensures l1.log[|l.log|].tx == l.tx && l.log <= l1.log
  {
  }

  lemma LeaveTags(k: Kernel, id: nat, ok: bool, boot: nat)
    requires id != 0 && Known(k.l.txs, id)
    ensures var log := Leave(k, id, ok, boot).l.log;
            k.l.log <= log && |log| == |k.l.log| + 1 && log[|k.l.log|].tx == id
  {
    CloseEventTag(k.l, id, Committed, "commit", Ok, "allow:transaction", "committed");
    CloseEventTag(k.l, id, Aborted, "abort", Denied, "deny:transaction", "aborted");
    hide Close, Known;
  }

  /** How long the log is when the tag of the command typed as `line` ends. */
  function CommandTagEnd(k: Kernel, line: string, demo: Demo): nat {
    var (k1, commandEvent, _) := Enter(k, line);
    BodyTagEnd(k1, Dispatch(line, demo), commandEvent)
  }

  /** Of the events that a command leaves, those with its tag are the ones after the command's own event and
      before `end`, and the last one, which closes its transaction. */
  ghost predicate CommandTagged(log: seq<Event>, from: nat, id: nat, end: nat) {
    && from + 2 <= end < |log|
    && forall n {:trigger log[n]} :: from <= n < |log| ==> (log[n].tx == id <==> from < n < end || n == |log| - 1)
  }

  lemma AllTagged(log: seq<Event>, log1: seq<Event>, log2: seq<Event>, log': seq<Event>, id: nat, end: nat)
    requires log <= log1 <= log2 <= log' && |log1| == |log| + 2 && |log'| == |log2| + 1 && id != 0
    requires log1[|log|].tx == 0 && log1[|log| + 1].tx == id && log'[|log2|].tx == id
    requires |log1| <= end <= |log2| && TaggedUntil(log2, |log1|, id, end)
    ensures CommandTagged(log', |log|, id, end)
  {
    forall n | |log| <= n < |log'|
      ensures log'[n].tx == id <==> |log| < n < end || n == |log'| - 1
    {
      if n < |log1| {
        assert log'[n] == log1[n];
      } else if n < |log2| {
        assert log'[n] == log2[n];
      }
    }
  }

  lemma UntaggedLater(log1: seq<Event>, log': seq<Event>, from: nat, earlier: nat)
    requires log1 <= log' && Untagged(log1, from) && earlier < from
    ensures Untagged(log', earlier + 1)
  {
    var n :| from <= n < |log1| && log1[n].tx == 0;
    assert log'[n] == log1[n];
  }

  lemma NoneUntagged(log: seq<Event>, from: nat, id: nat, end: nat)
    requires CommandTagged(log, from, id, end) && id != 0 && end == |log| - 1
    ensures !Untagged(log, from + 1)
  {
  }

  /** From the inside of a command's bracket to the prompt after it. */
  lemma BracketTags(k: Kernel, line: string, demo: Demo, boot: nat)
    requires AtPrompt(k, boot) && boot <= |k.l.log| && Enter(k, line).2 != 0
    ensures var (k1, commandEvent, id) := Enter(k, line);
            var (k2, ok) := Body(k1, Dispatch(line, demo), commandEvent);
            var log := RunCommand(k, line, demo, boot).l.log;
            && BodyTagged(k1, k2, CommandTagEnd(k, line, demo), CallsOf(k.p, Dispatch(line, demo)))
            && k2.l.log <= log && |log| == |k2.l.log| + 1 && log[|k2.l.log|].tx == id
  {
    EnterOpens(k, line, boot);
    EnterTags(k, line);
    EnterPast(k, line);
    hide OpenExactly, Enter, Body, Leave, BodyTagged, Dispatch, BodyTagEnd, Known, CallsOf;
    var (k1, commandEvent, id) := Enter(k, line);
    var c := Dispatch(line, demo);
    BodyTags(k1, c, commandEvent);
    BodyKeepsOpen(k1, c, commandEvent, {id});
    var (k2, ok) := Body(k1, c, commandEvent);
    OpenIsKnown(k2.l, id);
    LeaveTags(k2, id, ok, boot);
  }

  lemma OpenIsKnown(l: Ledger, id: nat)
    requires OpenExactly(l, {id})
    ensures Known(l.txs, id)
  {
  }

  /** Of the events of a command that has a transaction, exactly those after its own event and before the end
      of its tag have the tag, and the closing one.  Without system calls the tag ends at the closing event;
      with one it ends two events into the first call, and some later event has no tag: syscall_finish leaves
      no transaction current. */
  lemma CommandTagsItsEvents(k: Kernel, line: string, demo: Demo, boot: nat)
    requires AtPrompt(k, boot) && boot <= |k.l.log| && Enter(k, line).2 != 0
    ensures var log := RunCommand(k, line, demo, boot).l.log;
            var end := CommandTagEnd(k, line, demo);
            && CommandTagged(log, |k.l.log|, Enter(k, line).2, end)
            && (CallsOf(k.p, Dispatch(line, demo)) == 0 ==> end == |log| - 1)
            && (Untagged(log, |k.l.log| + 1) <==> CallsOf(k.p, Dispatch(line, demo)) > 0)
  {
    EnterTags(k, line);
    BracketTags(k, line, demo, boot);
    hide OpenExactly, Enter, Body, RunCommand, Dispatch, CommandTagEnd, CallsOf, Untagged, TaggedUntil, CommandTagged;
    var (k1, commandEvent, id) := Enter(k, line);
    var k2 := Body(k1, Dispatch(line, demo), commandEvent).0;
    var log := RunCommand(k, line, demo, boot).l.log;
    AllTagged(k.l.log, k1.l.log, k2.l.log, log, id, CommandTagEnd(k, line, demo));
    if CallsOf(k.p, Dispatch(line, demo)) == 0 {
      NoneUntagged(log, |k.l.log|, id, CommandTagEnd(k, line, demo));
    } else {
      UntaggedLater(k2.l.log, log, |k1.l.log|, |k.l.log|);
    }
  }

  // ---------------------------------------------------------------- a run that loses the tag

  /** The system calls of /bin/hello. */
  const HELLO_CALLS :=
    [UserCall(1, true, 0x400040), UserCall(2, true, 0x400040), UserCall(3, true, 0x400048), UserCall(4, true, 0x400048)]

  /** The first userdemo after power-on: no process yet, and enough pages. */
  function HelloDemo(free: nat, page: Page): Demo { Demo(0, true, free, page, HELLO_CALLS, true) }

  lemma UserDemoLine(demo: Demo)
    ensures Dispatch("userdemo", demo) == ScriptCommand(UserDemo(demo))
  {
    SplitWords("userdemo", "x");
    hide Split, TransactionTarget;
  }

  lemma HelloMayBeLoaded()
    ensures LoadVerdict(B.LOADED).allowed
  {
    B.DemoMayBeLoaded();
    hide P.Decide, B.LOADED;
  }

  lemma DemoIsRun(free: nat, page: Page)
    requires free >= 16
    ensures CallsOf(B.LOADED, Dispatch("userdemo", HelloDemo(free, page))) == 4
  {
    UserDemoLine(HelloDemo(free, page));
    HelloMayBeLoaded();
    hide Dispatch, LoadVerdict, B.LOADED;
  }

  /** With the shipped policy, the demo typed at the first prompt loses its tag: the command has a
      transaction, and events that it leaves have none. */
  lemma TagIsLost(before: seq<Op>, after: seq<Op>, free: nat, page: Page)
    requires StartOk(B.Source(), before, after) && free >= 16
    ensures var k := Start(B.Source(), before, after);
            && Enter(k, "userdemo").2 != 0
            && Untagged(RunCommand(k, "userdemo", HelloDemo(free, page), BOOT_EVENT).l.log, |k.l.log| + 1)
  {
    hide Start, StartOk, RunCommand, Enter, T.Parse, Mirrored, Dispatch, CallsOf, B.Source, B.LOADED, Untagged,
         HelloDemo, CommandTagged, CommandTagEnd;
    StartReachesPrompt(B.Source(), before, after);
    StartUsesOne(B.Source(), before, after);
    B.Loads();
    var k := Start(B.Source(), before, after);
    EnterUses(k, "userdemo");
    DemoIsRun(free, page);
    CommandTagsItsEvents(k, "userdemo", HelloDemo(free, page), BOOT_EVENT);
  }
}
