/** The configuration and its mirror in the object registry, over whole runs of the shell. */
module Mirror {
  import opened Text
  import opened EventRing
  import opened Ledger
  import opened History
  import opened Kernel
  import opened Commands
  import opened Scripts
  import opened Closure
  import opened Prompts
  import P = Policy

  /** A name that object_find can only match as a name. */
  predicate Named(query: string) { query != "" && !AllDigits(query) }

  /** The object `key` names is there and is the same before and after. */
  predicate KeepsObject(before: seq<KObject>, after: seq<KObject>, key: string) {
    var i := FindObject(before, key, 0);
    i < |before| ==> i < |after| && FindObject(after, key, 0) == i && after[i] == before[i]
  }

  lemma KeepsTransitive(a: seq<KObject>, b: seq<KObject>, c: seq<KObject>, key: string)
    requires KeepsObject(a, b, key) && KeepsObject(b, c, key)
    ensures KeepsObject(a, c, key)
  {
    hide FindObject;
  }

  lemma RegisterKeeps(l: Ledger, kind: string, name: string, parentId: nat, state: string, created: nat, key: string)
    ensures KeepsObject(l.objects, Register(l, kind, name, parentId, state, created).0.objects, key)
  {
    var later := Register(l, kind, name, parentId, state, created).0.objects;
    assert Advances(l.objects, later);
    SameMatch(l.objects, later, key, 0);
    hide FindObject;
  }

  /** Changing the state of the object of another name keeps this one. */
  lemma OtherNameKeeps(objects: seq<KObject>, name: string, state: string, event: nat, key: string)
    requires Named(name) && Named(key) && name != key
    requires FindObject(objects, name, 0) < |objects|
    ensures KeepsObject(objects, SetState(objects, FindObject(objects, name, 0), state, event), key)
  {
    var i := FindObject(objects, name, 0);
    SetStateAdvances(objects, i, state, event);
    SameMatch(objects, SetState(objects, i, state, event), key, 0);
  }

  lemma UpdateKeeps(l: Ledger, name: string, state: string, key: string)
    requires Named(name) && Named(key) && name != key
    ensures KeepsObject(l.objects, UpdateState(l, name, state).objects, key)
  {
    var i := FindObject(l.objects, name, 0);
    if i < |l.objects| {
      OtherNameKeeps(l.objects, name, state, NextSequence(l), key);
    }
    hide FindObject, SetState, Touch, Cut;
  }

  lemma TransactionNamed(id: nat)
    ensures Named(TransactionName(id)) && TransactionName(id)[0] == 't'
  {
    assert ("transaction/" + Decimal(id))[0] == 't';
    assert !IsDigit('t');
  }

  /** A configuration key: a name that starts with a slash. */
  predicate IsKey(key: string) { key != "" && key[0] == '/' }

  lemma KeyNamed(key: string)
    requires IsKey(key)
    ensures Named(key)
  {
    assert !IsDigit(key[0]);
  }

  lemma BeginKeeps(l: Ledger, actor: string, target: string, parent: nat, key: string)
    ensures KeepsObject(l.objects, Begin(l, actor, target, parent).0.objects, key)
  {
    RegisterKeeps(l, "transaction", TransactionName(NextSequence(l)), ObjectId(l.objects, "events"), "open", parent,
                  key);
    hide Register, FindObject, TransactionName, Touch, Cut;
  }

  lemma CloseKeeps(l: Ledger, id: nat, status: Status, operation: string, result: EventResult, reason: string,
                   state: string, key: string)
    requires IsKey(key)
    ensures KeepsObject(l.objects, Close(l, id, status, operation, result, reason, state).0.objects, key)
  {
    KeyNamed(key);
    TransactionNamed(id);
    var i := FindObject(l.objects, TransactionName(id), 0);
    if i < |l.objects| {
      OtherNameKeeps(l.objects, TransactionName(id), state, NextSequence(l), key);
    }
    hide FindObject, TransactionName, Touch, SetState, Cut;
  }

  lemma ChangePolicyKeeps(k: Kernel, allow: bool, subject: string, operation: string, object_: string, key: string)
    requires IsKey(key)
    ensures KeepsObject(k.l.objects, ChangePolicy(k, allow, subject, operation, object_).0.l.objects, key)
  {
    KeyNamed(key);
    assert POLICY_OBJECT[0] == 'p' && !IsDigit('p');
    assert Named(POLICY_OBJECT) && POLICY_OBJECT != key;
    var (p', ok) := P.ChangeRule(k.p, allow, subject, operation, object_);
    hide FindObject, Register, UpdateState, Touch, Cut, P.Reason, CapabilityName, CapabilityState;
    if ok {
      var r := p'.list[|k.p.list|];
      var l1 := RegisterCapability(k.l, r, p'.revision, ObjectId(k.l.objects, POLICY_OBJECT));
      RegisterKeeps(k.l, "capability", CapabilityName(r.subject, r.operation, r.object_),
                    ObjectId(k.l.objects, POLICY_OBJECT),
                    CapabilityState(r.allow, r.number, p'.revision), k.l.current, key);
      var reason := P.Reason(true, if allow then "policy:allow" else "policy:deny", p'.revision, r.number);
      var l2 := Record(l1, "policy", POLICY_OBJECT, if allow then "allow" else "deny", Ok, l1.current, reason, "state");
      UpdateKeeps(l2, POLICY_OBJECT, if allow then "allow-added" else "deny-added", key);
      KeepsTransitive(k.l.objects, l2.objects,
                      UpdateState(l2, POLICY_OBJECT, if allow then "allow-added" else "deny-added").objects, key);
    }
  }

  lemma SyscallKeeps(k: Kernel, call: Call, thread: string, target: string, key: string)
    requires IsKey(key)
    ensures KeepsObject(k.l.objects, Syscall(k, call, thread, target).0.l.objects, key)
  {
    var about := CallTarget(call, thread, target);
    BeginKeeps(k.l, thread, about, k.l.current, key);
    hide FindObject, Begin, Close, Touch, Cut, P.Decide, KeepsObject;
    var (k1, id) := SyscallBegin(k, thread, about);
    var (k2, ok) := CallBody(k1, call, thread, about);
    BodyKeepsObjects(k1, call, thread, about);
    if id != 0 {
      if ok {
        CloseKeeps(k2.l, id, Committed, "commit", Ok, "allow:transaction", "committed", key);
        KeepsTransitive(k.l.objects, k2.l.objects, Commit(k2.l, id).0.objects, key);
      } else {
        CloseKeeps(k2.l, id, Aborted, "abort", Denied, "deny:syscall", "aborted", key);
        KeepsTransitive(k.l.objects, k2.l.objects, Abort(k2.l, id, "deny:syscall").0.objects, key);
      }
    }
  }

  lemma BodyKeepsObjects(k: Kernel, call: Call, thread: string, target: string)
    ensures CallBody(k, call, thread, target).0.l.objects == k.l.objects
  {
    hide FindObject, Touch, Cut, P.Decide;
  }

  // ---------------------------------------------------------------- the mirror

  /** The object `key` names is registered with this state and revision. */
  predicate Shown(objects: seq<KObject>, key: string, state: string, revision: nat) {
    var i := FindObject(objects, key, 0);
    i < |objects| && objects[i].state == state && objects[i].revision == revision
  }

  /** Each key's object shows the key's value, at revision 1 plus the number of accepted sets. */
  predicate Mirrored(k: Kernel, sets: map<string, nat>) {
    forall key :: key in k.config ==> IsKey(key) && key in sets && Shown(k.l.objects, key, k.config[key], 1 + sets[key])
  }

  lemma KeepsMirrored(k: Kernel, k': Kernel, sets: map<string, nat>)
    requires Mirrored(k, sets) && k'.config == k.config
    requires forall key :: key in k.config && IsKey(key) ==> KeepsObject(k.l.objects, k'.l.objects, key)
    ensures Mirrored(k', sets)
  {
    hide FindObject;
    forall key | key in k'.config
      ensures Shown(k'.l.objects, key, k'.config[key], 1 + sets[key])
    {
      assert KeepsObject(k.l.objects, k'.l.objects, key);
      assert Shown(k.l.objects, key, k.config[key], 1 + sets[key]);
    }
  }

  lemma UpdateShows(l: Ledger, key: string, value: string, revision: nat, state: string)
    requires Shown(l.objects, key, state, revision)
    ensures Shown(UpdateState(l, key, Cut(value, LABEL)).objects, key, Cut(value, LABEL), revision + 1)
  {
    var i := FindObject(l.objects, key, 0);
    SetStateAdvances(l.objects, i, Cut(value, LABEL), NextSequence(l));
    SameMatch(l.objects, SetState(l.objects, i, Cut(value, LABEL), NextSequence(l)), key, 0);
    hide FindObject, Touch;
  }

  /** config_set keeps the mirror: the key's object takes the new value one revision on. */
  lemma SetKeyMirrors(k: Kernel, key: string, value: string, sets: map<string, nat>)
    requires Mirrored(k, sets)
    ensures var (k', ok) := SetKey(k, key, value);
            Mirrored(k', if ok then sets[key := sets[key] + 1] else sets)
  {
    if key in k.config {
      var k' := SetKey(k, key, value).0;
      var sets' := sets[key := sets[key] + 1];
      forall other | other in k'.config
        ensures IsKey(other) && Shown(k'.l.objects, other, k'.config[other], 1 + sets'[other])
      {
        KeyNamed(key);
        KeyNamed(other);
        hide FindObject, UpdateState, Cut;
        if other == key {
          UpdateShows(k.l, key, value, 1 + sets[key], k.config[key]);
        } else {
          UpdateKeeps(k.l, key, Cut(value, LABEL), other);
        }
      }
    }
    hide FindObject, UpdateState, Record, Cut;
  }

  /** The accepted sets per key after a command. */
  function SetsAfter(k: Kernel, c: Command, sets: map<string, nat>): map<string, nat> {
    match c
    case SetCommand(argument) =>
      var key := Split(argument).0;
      if SetAccepted(k, argument) && key in sets then sets[key := sets[key] + 1] else sets
    case _ => sets
  }

  lemma SetConfigMirrors(k: Kernel, argument: string, sets: map<string, nat>)
    requires Mirrored(k, sets)
    ensures Mirrored(SetConfig(k, argument).0, SetsAfter(k, SetCommand(argument), sets))
  {
    hide FindObject, Record, SetKey, P.Decide, Split, Shown;
    var (key, value) := Split(argument);
    if value.Some? {
      var c := Check(k, "shell", key, "config:set");
      assert c.k.l.objects == k.l.objects && c.k.config == k.config by { CheckKeeps(k, "shell", key, "config:set"); }
      if c.allowed {
        var k0 := At(c.k, c.event);
        assert Mirrored(k0, sets);
        SetKeyMirrors(k0, key, value.value, sets);
        var (k1, ok) := SetKey(k0, key, value.value);
        SetKeyOk(k0, key, value.value);
        var k2 := At(k1, k.l.current);
        NoteKeeps(k2, "config", key, "set", Ok, c.event, c.reason, "state");
      }
    }
  }

  lemma SetKeyOk(k: Kernel, key: string, value: string)
    ensures SetKey(k, key, value).1 <==> key in k.config
  {
  }

  lemma NoteKeeps(k: Kernel, actor: string, target: string, operation: string, result: EventResult,
                  parent: nat, decision: string, kind: string)
    ensures var k' := Note(k, actor, target, operation, result, parent, decision, kind);
            k'.l.objects == k.l.objects && k'.config == k.config && k'.p == k.p
  {
    hide FindObject, Touch, Cut;
  }

  lemma CheckKeeps(k: Kernel, actor: string, target: string, operation: string)
    ensures var c := Check(k, actor, target, operation);
            c.k.l.objects == k.l.objects && c.k.config == k.config && c.k.p == k.p
  {
    hide FindObject, Touch, Cut, P.Decide;
  }

  lemma RunPolicyKeeps(k: Kernel, request: Option<string>, key: string)
    requires IsKey(key)
    ensures KeepsObject(k.l.objects, RunPolicy(k, request).0.l.objects, key)
  {
    hide FindObject, Record, ChangePolicy, P.Decide, ParseRequest;
    match ParseRequest(request)
    case Malformed =>
    case Show =>
      CheckKeeps(k, "shell", POLICY_OBJECT, "policy:show");
      var c := Check(k, "shell", POLICY_OBJECT, "policy:show");
      NoteKeeps(c.k, "shell", POLICY_OBJECT, "policy_show", Ok, c.event, c.reason, "query");
    case Change(allow, subject, operation, object_) =>
      CheckKeeps(k, "shell", POLICY_OBJECT, "policy:change");
      var c := Check(k, "shell", POLICY_OBJECT, "policy:change");
      ChangePolicyKeeps(At(c.k, c.event), allow, subject, operation, object_, key);
  }

  lemma TrapKeeps(k: Kernel, number: nat, ring3: bool, pid: nat, page: Page, address: nat, key: string)
    requires IsKey(key)
    ensures KeepsObject(k.l.objects, Trap(k, number, ring3, pid, page, address).0.l.objects, key)
  {
    hide FindObject, Touch, Cut, Syscall, TrapTarget;
    var k2 := EnterTrap(k, ring3, ThreadName(pid));
    SyscallKeeps(k2, CallOf(number), ThreadName(pid), TrapTarget(number, page, address), key);
  }

  lemma OpKeeps(k: Kernel, op: Op, key: string)
    requires PlainOp(k, op) && IsKey(key) && key in k.config
    ensures KeepsObject(k.l.objects, Apply(k.l, op).objects, key)
  {
    match op
    case RegisterOp(kind, name, parentId, state, created) =>
      RegisterKeeps(k.l, kind, name, parentId, state, created, key);
    case UpdateOp(name, state) =>
      KeyNamed(key);
      UpdateKeeps(k.l, name, state, key);
    case _ =>
      hide FindObject, Touch, Cut;
  }

  lemma StepKeeps(k: Kernel, w: Work, key: string)
    requires WorkOk(k, w) && IsKey(key) && key in k.config
    ensures KeepsObject(k.l.objects, DoWork(k, w).l.objects, key)
  {
    hide KeepsObject, Trap, Apply, Register, Disciplined, Found;
    match w
    case Plain(op) => OpKeeps(k, op, key);
    case Noted(actor, target, operation, result, decision, kind) =>
      NoteKeeps(k, actor, target, operation, result, k.l.current, decision, kind);
      SameKeeps(k.l.objects, key);
    case Registered(kind, name, parent, state) =>
      RegisterKeeps(k.l, kind, name, ObjectId(k.l.objects, parent), state, k.l.current, key);
    case Called(number, ring3, pid, page, address) => TrapKeeps(k, number, ring3, pid, page, address, key);
  }

  lemma SameKeeps(objects: seq<KObject>, key: string)
    ensures KeepsObject(objects, objects, key)
  {
    hide FindObject;
  }

  lemma {:induction false} WorkMirrors(k: Kernel, work: seq<Work>, sets: map<string, nat>)
    requires Mirrored(k, sets) && AllWorkOk(k, work)
    ensures Mirrored(DoAllWork(k, work), sets)
    decreases |work|
  {
    hide Mirrored, DoWork, WorkOk, KeepsObject;
    if work != [] {
      var k' := DoWork(k, work[0]);
      WorkKeepsConfig(k, work[0]);
      forall key | key in k.config && IsKey(key)
        ensures KeepsObject(k.l.objects, k'.l.objects, key)
      {
        StepKeeps(k, work[0], key);
      }
      KeepsMirrored(k, k', sets);
      WorkMirrors(k', work[1..], sets);
    }
  }

  lemma WorkKeepsConfig(k: Kernel, w: Work)
    ensures DoWork(k, w).config == k.config
  {
    hide Apply, Record, Register, Begin, Close, P.Decide;
  }

  lemma BodyMirrors(k: Kernel, c: Command, commandEvent: nat, sets: map<string, nat>)
    requires Mirrored(k, sets) && Past(k)
    ensures Mirrored(Body(k, c, commandEvent).0, SetsAfter(k, c, sets))
  {
    hide Mirrored, SetConfig, RunPolicy, DoAllWork, ScriptWork, AllWorkOk, SetAccepted, Record, KeepsObject, P.Decide,
         Split;
    match c
    case SetCommand(argument) => SetConfigMirrors(k, argument, sets);
    case GetCommand(key) =>
      ShowConfigKeeps(k, key);
      SameObjects(k, ShowConfig(k, key).0, sets);
    case PolicyCommand(request) =>
      forall key | key in k.config && IsKey(key)
        ensures KeepsObject(k.l.objects, RunPolicy(k, request).0.l.objects, key)
      {
        RunPolicyKeeps(k, request, key);
      }
      RunPolicyKeepsConfig(k, request);
      KeepsMirrored(k, RunPolicy(k, request).0, sets);
    case GatedCommand(target, gate, verb, query) =>
      PassGateKeeps(k, target, gate, verb, query);
      SameObjects(k, PassGate(k, target, gate, verb, query).0, sets);
    case ScriptCommand(s) =>
      EveryScriptOk(k, s);
      WorkMirrors(k, ScriptWork(k, s), sets);
    case UnknownCommand(word) =>
      NoteKeeps(k, "shell", word, "command", Denied, commandEvent, "deny:unknown-command", "action");
      SameObjects(k, Note(k, "shell", word, "command", Denied, commandEvent, "deny:unknown-command", "action"), sets);
  }

  lemma SameObjects(k: Kernel, k': Kernel, sets: map<string, nat>)
    requires Mirrored(k, sets) && k'.l.objects == k.l.objects && k'.config == k.config
    ensures Mirrored(k', sets)
  {
    hide Shown;
  }

  lemma RunPolicyKeepsConfig(k: Kernel, request: Option<string>)
    ensures RunPolicy(k, request).0.config == k.config
  {
    hide Record, P.Decide, ParseRequest, P.ChangeRule, RegisterCapability, UpdateState, P.Reason;
  }

  lemma ShowConfigKeeps(k: Kernel, key: string)
    ensures var k' := ShowConfig(k, key).0; k'.l.objects == k.l.objects && k'.config == k.config
  {
    hide FindObject, Touch, Cut, P.Decide;
  }

  lemma PassGateKeeps(k: Kernel, target: string, gate: string, verb: string, query: bool)
    ensures var k' := PassGate(k, target, gate, verb, query).0; k'.l.objects == k.l.objects && k'.config == k.config
  {
    hide FindObject, Touch, Cut, P.Decide;
  }

  /** The bracket around a command changes no key's object. */
  lemma EnterMirrors(k: Kernel, line: string, sets: map<string, nat>)
    requires Mirrored(k, sets)
    ensures Mirrored(Enter(k, line).0, sets)
  {
    hide Mirrored, FindObject, Begin, Touch, Cut, KeepsObject, Split, TransactionTarget;
    var target := TransactionTarget(line);
    var l1 := Record(k.l, "shell", target, "command", Ok, k.l.current, Split(line).0, "command");
    forall key | key in k.config && IsKey(key)
      ensures KeepsObject(k.l.objects, Enter(k, line).0.l.objects, key)
    {
      BeginKeeps(l1, "shell", target, NextSequence(k.l), key);
    }
    KeepsMirrored(k, Enter(k, line).0, sets);
  }

  lemma LeaveMirrors(k: Kernel, id: nat, ok: bool, boot: nat, sets: map<string, nat>)
    requires Mirrored(k, sets)
    ensures Mirrored(Leave(k, id, ok, boot), sets)
  {
    hide Mirrored, FindObject, Close, KeepsObject;
    if id == 0 {
      SameObjects(k, Leave(k, id, ok, boot), sets);
    } else {
      forall key | key in k.config && IsKey(key)
        ensures KeepsObject(k.l.objects, Leave(k, id, ok, boot).l.objects, key)
      {
        if ok {
          CloseKeeps(k.l, id, Committed, "commit", Ok, "allow:transaction", "committed", key);
        } else {
          CloseKeeps(k.l, id, Aborted, "abort", Denied, "deny:transaction", "aborted", key);
        }
      }
      KeepsMirrored(k, Leave(k, id, ok, boot), sets);
    }
  }

  lemma CommandMirrors(k: Kernel, t: Turn, boot: nat, sets: map<string, nat>)
    requires Mirrored(k, sets)
    ensures Mirrored(RunCommand(k, t.line, t.demo, boot),
                     SetsAfter(k, Dispatch(t.line, t.demo), sets))
  {
    hide Mirrored, Enter, Body, Leave, Dispatch, SetsAfter;
    var (k1, commandEvent, id) := Enter(k, t.line);
    var c := Dispatch(t.line, t.demo);
    EnterMirrors(k, t.line, sets);
    EnterPast(k, t.line);
    SameSets(k, k1, c, sets) by { EnterKeeps(k, t.line); }
    BodyMirrors(k1, c, commandEvent, sets);
    var (k2, ok) := Body(k1, c, commandEvent);
    LeaveMirrors(k2, id, ok, boot, SetsAfter(k, c, sets));
  }

  lemma EnterPast(k: Kernel, line: string)
    ensures Past(Enter(k, line).0)
  {
    hide Begin, Split, TransactionTarget, Record;
    var target := TransactionTarget(line);
    NotePast(k, "shell", target, "command", Ok, k.l.current, Split(line).0, "command");
    var l1 := Record(k.l, "shell", target, "command", Ok, k.l.current, Split(line).0, "command");
    BeginPast(l1, "shell", target, NextSequence(k.l));
  }

  lemma EnterKeeps(k: Kernel, line: string)
    ensures Enter(k, line).0.p == k.p && Enter(k, line).0.config == k.config
  {
    hide Record, Begin, Split, TransactionTarget;
  }

  lemma SameSets(k: Kernel, k1: Kernel, c: Command, sets: map<string, nat>)
    requires k1.p == k.p && k1.config == k.config
    ensures SetsAfter(k1, c, sets) == SetsAfter(k, c, sets)
  {
    hide Split, P.Decide;
  }

  /** The accepted sets per key over a run. */
  function SetsAfterAll(k: Kernel, turns: seq<Turn>, boot: nat, sets: map<string, nat>): map<string, nat>
    decreases |turns|
  {
    if turns == [] then sets
    else
      var t := turns[0];
      SetsAfterAll(RunCommand(k, t.line, t.demo, boot), turns[1..], boot,
                   SetsAfter(k, Dispatch(t.line, t.demo), sets))
  }

  /** At every prompt of every run each configuration key's object shows what config_get returns, and its
      revision is 1 plus the number of sets accepted for that key. */
  lemma {:induction false} RegistryMirrorsConfig(k: Kernel, turns: seq<Turn>, boot: nat, sets: map<string, nat>)
    requires Mirrored(k, sets)
    ensures Mirrored(RunAll(k, turns, boot), SetsAfterAll(k, turns, boot, sets))
    decreases |turns|
  {
    hide Mirrored, RunCommand, Dispatch, SetsAfter;
    if turns != [] {
      var t := turns[0];
      CommandMirrors(k, t, boot, sets);
      RegistryMirrorsConfig(RunCommand(k, t.line, t.demo, boot), turns[1..], boot,
                            SetsAfter(k, Dispatch(t.line, t.demo), sets));
    }
  }
}
