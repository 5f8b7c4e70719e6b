/** From power-on to the first prompt, and what holds at every prompt after it. */
module Boot {
  import opened Text
  import opened EventRing
  import opened Ledger
  import opened History
  import opened Kernel
  import opened Commands
  import opened Scripts
  import opened Closure
  import opened Prompts
  import opened Mirror
  import O = TransactionObjects
  import P = Policy
  import T = PolicyText

  const BOOT_EVENT := 1

  /** The boot event, which stays current. */
  function PowerOn(): Ledger {
    Record(EMPTY, "boot", "kernel", "enter", Ok, 0, "allow:boot", "action").(current := BOOT_EVENT)
  }

  /** object_registry_init, after the boot event. */
  function InitRegistry(l: Ledger): Ledger {
    var (l1, system) := Register(l, "system", "system", 0, "booting", BOOT_EVENT);
    var l2 := Register(l1, "boot", "boot", system, "entered kernel", BOOT_EVENT).0;
    var l3 := Register(l2, "subsystem", "memory", system, "initializing", BOOT_EVENT).0;
    var l4 := Register(l3, "subsystem", "interrupts", system, "pending", BOOT_EVENT).0;
    var l5 := Register(l4, "subsystem", "ramfs", system, "pending", BOOT_EVENT).0;
    var l6 := Register(l5, "subsystem", "shell", system, "pending", BOOT_EVENT).0;
    Register(l6, "ledger", "events", system, "recording", BOOT_EVENT).0
  }

  function RegisterCapabilities(l: Ledger, p: P.Rules, i: nat, parentId: nat): Ledger
    requires i <= |p.list|
    decreases |p.list| - i
  {
    if i == |p.list| then l
    else RegisterCapabilities(RegisterCapability(l, p.list[i], p.revision, parentId), p, i + 1, parentId)
  }

  /** policy_init: the base policy is loaded inside a transaction of its own. */
  function InitPolicy(l: Ledger, source: string): (Ledger, P.Rules) {
    var (l1, policy) := Register(l, "policy", POLICY_OBJECT, ObjectId(l.objects, "system"), "loading", BOOT_EVENT);
    var (l2, id) := Begin(l1, "policy", POLICY_OBJECT, BOOT_EVENT);
    var p := T.Parse(source);
    var l3 := RegisterCapabilities(l2.(current := id, tx := id), p, 0, policy);
    var l4 := Record(l3, "policy", POLICY_OBJECT, "load", Ok, BOOT_EVENT,
                     P.Reason(true, "policy-bootstrap", p.revision, 0), "state");
    var l5 := UpdateState(l4, POLICY_OBJECT, "loaded");
    var l6 := Commit(l5, id).0;
    (l6.(tx := 0, current := BOOT_EVENT), p)
  }

  const INITIAL: Config := map[THEME := "light", PROMPT := ">"]

  /** config_init */
  function InitConfig(l: Ledger): Ledger {
    var (l1, parent) := Register(l, "directory", "/config", ObjectId(l.objects, "system"), "ready", l.current);
    var l2 := Register(l1, "config_key", THEME, parent, "light", l1.current).0;
    var l3 := Register(l2, "config_key", PROMPT, parent, ">", l2.current).0;
    Record(l3, "config", "/config", "initialize", Ok, l3.current, "allow:boot-config", "action")
  }

  /** kernel_main up to the command loop.  `before` and `after` are what memory_init, ramfs_init, user_init
      and the interrupt set-up do to the journal around config_init. */
  function Start(source: string, before: seq<Op>, after: seq<Op>): Kernel {
    var (l1, p) := InitPolicy(InitRegistry(PowerOn()), source);
    Kernel(ApplyAll(InitConfig(ApplyAll(l1, before)), after), p, INITIAL)
  }

  /** Journal operations of the other initialisers: plain ones, that keep the boot event current and name neither
      a configuration key nor a transaction. */
  predicate StartOp(l: Ledger, op: Op) {
    && Disciplined(l, op) && O.Foreign(op)
    && (op.RecordOp? || op.RegisterOp? || op.UpdateOp?)
    && (op.RegisterOp? ==> !("/config" <= op.name))
    && (op.UpdateOp? ==> op.name != "" && !("/config" <= op.name))
  }

  predicate StartOps(l: Ledger, ops: seq<Op>)
    decreases |ops|
  {
    ops == [] || (StartOp(l, ops[0]) && StartOps(Apply(l, ops[0]), ops[1..]))
  }

  // ---------------------------------------------------------------- what start-up keeps

  /** The journal between two steps of start-up: nothing is open outside `open`, the boot event is current
      unless a transaction is, and no key is registered yet. */
  predicate Starting(l: Ledger, open: set<nat>, room: nat) {
    && OpenExactly(l, open) && |l.log| >= BOOT_EVENT
    && |l.objects| + room <= OBJECT_CAPACITY
    && NoKeys(l.objects)
  }

  predicate NoKeys(objects: seq<KObject>) {
    forall i {:trigger objects[i]} :: 0 <= i < |objects| ==> objects[i].name != THEME && objects[i].name != PROMPT
  }

  lemma RegisterStarting(l: Ledger, kind: string, name: string, parentId: nat, state: string, created: nat,
                         open: set<nat>, room: nat)
    requires Starting(l, open, room) && room > 0
    requires Cut(name, LABEL) != THEME && Cut(name, LABEL) != PROMPT
    ensures Starting(Register(l, kind, name, parentId, state, created).0, open, room - 1)
    ensures var l' := Register(l, kind, name, parentId, state, created).0; l'.current == l.current && l'.tx == l.tx
  {
    RegisterPlain(l, kind, name, parentId, state, created, open);
    hide OpenExactly, FindObject, Cut, ParseWhole;
  }

  lemma RecordStarting(l: Ledger, actor: string, target: string, operation: string, result: EventResult,
                       parent: nat, decision: string, kind: string, open: set<nat>, room: nat)
    requires Starting(l, open, room) && parent <= |l.log| && PlainKind(kind)
    ensures var l' := Record(l, actor, target, operation, result, parent, decision, kind);
            Starting(l', open, room) && l'.current == l.current && l'.tx == l.tx
  {
    RecordPlain(l, actor, target, operation, result, parent, decision, kind, open);
    hide OpenExactly, Record;
  }

  lemma SameNames(objects: seq<KObject>, later: seq<KObject>)
    requires NoKeys(objects) && |later| == |objects|
    requires forall i {:trigger later[i]} :: 0 <= i < |objects| ==> later[i].name == objects[i].name
    ensures NoKeys(later)
  {
  }

  lemma UpdateStarting(l: Ledger, name: string, state: string, open: set<nat>, room: nat)
    requires Starting(l, open, room)
    ensures var l' := UpdateState(l, name, state);
            Starting(l', open, room) && l'.current == l.current && l'.tx == l.tx
  {
    UpdatePlain(l, name, state, open);
    hide OpenExactly, FindObject, Touch, Cut;
    SameNames(l.objects, UpdateState(l, name, state).objects);
  }

  lemma {:induction false} OpsStarting(l: Ledger, ops: seq<Op>, room: nat)
    requires Starting(l, {}, room + |ops|) && StartOps(l, ops)
    ensures Starting(ApplyAll(l, ops), {}, room)
    ensures ApplyAll(l, ops).current == l.current && ApplyAll(l, ops).tx == l.tx
    decreases |ops|
  {
    hide Starting, Record, Register, UpdateState;
    if ops != [] {
      OpStarting(l, ops[0], room + |ops|);
      OpsStarting(Apply(l, ops[0]), ops[1..], room);
    }
  }

  lemma OpStarting(l: Ledger, op: Op, room: nat)
    requires Starting(l, {}, room) && room > 0 && StartOp(l, op)
    ensures Starting(Apply(l, op), {}, room - 1)
    ensures Apply(l, op).current == l.current && Apply(l, op).tx == l.tx
  {
    hide OpenExactly, Record, Register, UpdateState;
    match op
    case RecordOp(actor, target, operation, result, parent, decision, kind) =>
      RecordStarting(l, actor, target, operation, result, parent, decision, kind, {}, room);
    case RegisterOp(kind, name, parentId, state, created) =>
      OtherName(name);
      RegisterStarting(l, kind, name, parentId, state, created, {}, room);
    case UpdateOp(name, state) => UpdateStarting(l, name, state, {}, room);
  }

  /** A name that does not start with "/config" is cut to no key. */
  lemma OtherName(name: string)
    requires !("/config" <= name)
    ensures Cut(name, LABEL) != THEME && Cut(name, LABEL) != PROMPT
  {
    var cut := Cut(name, LABEL);
    assert "/config" <= THEME && "/config" <= PROMPT;
    assert "/config" <= cut ==> "/config" <= name;
  }

  lemma FirstLetter(name: string)
    requires name != "" && name[0] != '/'
    ensures !("/config" <= name)
  {
  }

  lemma RegisterSystem(l: Ledger, kind: string, name: string, parentId: nat, state: string, open: set<nat>, room: nat)
    requires Starting(l, open, room) && room > 0 && name != "" && name[0] != '/'
    ensures var l' := Register(l, kind, name, parentId, state, BOOT_EVENT).0;
            Starting(l', open, room - 1) && l'.current == l.current && l'.tx == l.tx
  {
    FirstLetter(name);
    OtherName(name);
    RegisterStarting(l, kind, name, parentId, state, BOOT_EVENT, open, room);
  }

  lemma RegistryStarting(l: Ledger)
    requires Starting(l, {}, OBJECT_CAPACITY)
    ensures Starting(InitRegistry(l), {}, OBJECT_CAPACITY - 7)
    ensures InitRegistry(l).current == l.current && InitRegistry(l).tx == l.tx
  {
    hide Starting, Register;
    var (l1, system) := Register(l, "system", "system", 0, "booting", BOOT_EVENT);
    RegisterSystem(l, "system", "system", 0, "booting", {}, 128);
    var l2 := Register(l1, "boot", "boot", system, "entered kernel", BOOT_EVENT).0;
    RegisterSystem(l1, "boot", "boot", system, "entered kernel", {}, 127);
    var l3 := Register(l2, "subsystem", "memory", system, "initializing", BOOT_EVENT).0;
    RegisterSystem(l2, "subsystem", "memory", system, "initializing", {}, 126);
    var l4 := Register(l3, "subsystem", "interrupts", system, "pending", BOOT_EVENT).0;
    RegisterSystem(l3, "subsystem", "interrupts", system, "pending", {}, 125);
    var l5 := Register(l4, "subsystem", "ramfs", system, "pending", BOOT_EVENT).0;
    RegisterSystem(l4, "subsystem", "ramfs", system, "pending", {}, 124);
    var l6 := Register(l5, "subsystem", "shell", system, "pending", BOOT_EVENT).0;
    RegisterSystem(l5, "subsystem", "shell", system, "pending", {}, 123);
    RegisterSystem(l6, "ledger", "events", system, "recording", {}, 122);
  }

  lemma CapabilityIsNoKey(r: P.Rule)
    ensures var name := CapabilityName(r.subject, r.operation, r.object_); name != "" && name[0] == 'c'
  {
    var text := "capability/" + r.subject + "/" + r.operation + "/" + r.object_;
    assert text[0] == 'c';
  }

  lemma {:induction false} CapabilitiesStarting(l: Ledger, p: P.Rules, i: nat, parentId: nat, open: set<nat>, room: nat)
    requires i <= |p.list| && Starting(l, open, room + (|p.list| - i))
    ensures var l' := RegisterCapabilities(l, p, i, parentId);
            Starting(l', open, room) && l'.current == l.current && l'.tx == l.tx
    decreases |p.list| - i
  {
    hide Starting, Register, CapabilityName, CapabilityState;
    if i < |p.list| {
      var r := p.list[i];
      CapabilityIsNoKey(r);
      FirstLetter(CapabilityName(r.subject, r.operation, r.object_));
      OtherName(CapabilityName(r.subject, r.operation, r.object_));
      RegisterStarting(l, "capability", CapabilityName(r.subject, r.operation, r.object_), parentId,
                       CapabilityState(r.allow, r.number, p.revision), l.current, open, room + (|p.list| - i));
      CapabilitiesStarting(RegisterCapability(l, r, p.revision, parentId), p, i + 1, parentId, open, room);
    }
  }

  lemma BeginStarting(l: Ledger, room: nat)
    requires Starting(l, {}, room) && room > 0
    ensures var (l', id) := Begin(l, "policy", POLICY_OBJECT, BOOT_EVENT);
            var open := if id == 0 then {} else {id};
            && Starting(l', open, room - 1)
            && Starting(l'.(current := id, tx := id), open, room - 1)
  {
    BeginOpens(l, "policy", POLICY_OBJECT, BOOT_EVENT, {});
    var (l', id) := Begin(l, "policy", POLICY_OBJECT, BOOT_EVENT);
    assert {} + {id} == {id};
    MoveCurrent(l', id, id, if id == 0 then {} else {id});
    BeginNames(l);
    hide OpenExactly, Begin, NoKeys;
  }

  lemma BeginNames(l: Ledger)
    requires NoKeys(l.objects)
    ensures var l' := Begin(l, "policy", POLICY_OBJECT, BOOT_EVENT).0;
            NoKeys(l'.objects) && |l.objects| <= |l'.objects| <= |l.objects| + 1 && |l.log| <= |l'.log|
  {
    TransactionNamed(NextSequence(l));
    FirstLetter(TransactionName(NextSequence(l)));
    OtherName(TransactionName(NextSequence(l)));
    hide FindObject, Cut, TransactionName, Touch;
  }

  lemma CommitStarting(l: Ledger, id: nat, room: nat)
    requires Starting(l, if id == 0 then {} else {id}, room)
    ensures Starting(Commit(l, id).0.(tx := 0, current := BOOT_EVENT), {}, room)
  {
    if id == 0 {
      assert !Known(l.txs, 0) by { ZeroIsUnknown(l); }
      MoveCurrent(l, BOOT_EVENT, 0, {});
    } else {
      CloseCloses(l, id, true, "", {id});
      assert {id} - {id} == {};
      MoveCurrent(Commit(l, id).0.(tx := 0), BOOT_EVENT, 0, {});
      CloseNames(l, id);
    }
    hide OpenExactly, Close, NoKeys;
  }

  lemma ZeroIsUnknown(l: Ledger)
    requires JournalOk(l)
    ensures !Known(l.txs, 0)
  {
    if Known(l.txs, 0) {
      KnownTagIsPast(l, 0);
    }
  }

  lemma CloseNames(l: Ledger, id: nat)
    requires NoKeys(l.objects)
    ensures NoKeys(Commit(l, id).0.objects) && |Commit(l, id).0.objects| == |l.objects|
  {
    hide FindObject, Cut, TransactionName, Touch;
  }

  lemma PolicyStarting(l: Ledger, source: string, room: nat)
    requires Starting(l, {}, room + P.MAX_RULES + 2)
    ensures var l' := InitPolicy(l, source).0;
            Starting(l', {}, room) && l'.current == BOOT_EVENT && l'.tx == 0
  {
    hide Starting, Register, Begin, Close, Record, UpdateState, P.Reason, T.Parse, PlainKind;
    PlainKinds();
    var (l1, policy) := Register(l, "policy", POLICY_OBJECT, ObjectId(l.objects, "system"), "loading", BOOT_EVENT);
    RegisterSystem(l, "policy", POLICY_OBJECT, ObjectId(l.objects, "system"), "loading", {}, room + P.MAX_RULES + 2);
    var (l2, id) := Begin(l1, "policy", POLICY_OBJECT, BOOT_EVENT);
    BeginStarting(l1, room + P.MAX_RULES + 1);
    var open := if id == 0 then {} else {id};
    var p := T.Parse(source);
    T.ParsedIsWellFormed(source);
    assert |p.list| <= P.MAX_RULES;
    var spare := room + P.MAX_RULES - |p.list|;
    CapabilitiesStarting(l2.(current := id, tx := id), p, 0, policy, open, spare);
    var l3 := RegisterCapabilities(l2.(current := id, tx := id), p, 0, policy);
    PastBoot(l3, open, spare);
    var l4 := Record(l3, "policy", POLICY_OBJECT, "load", Ok, BOOT_EVENT,
                     P.Reason(true, "policy-bootstrap", p.revision, 0), "state");
    RecordStarting(l3, "policy", POLICY_OBJECT, "load", Ok, BOOT_EVENT,
                   P.Reason(true, "policy-bootstrap", p.revision, 0), "state", open, spare);
    var l5 := UpdateState(l4, POLICY_OBJECT, "loaded");
    UpdateStarting(l4, POLICY_OBJECT, "loaded", open, spare);
    CommitStarting(l5, id, spare);
    LessRoom(Commit(l5, id).0.(tx := 0, current := BOOT_EVENT), {}, spare, room);
  }

  lemma PastBoot(l: Ledger, open: set<nat>, room: nat)
    requires Starting(l, open, room)
    ensures BOOT_EVENT <= |l.log| && l.current <= |l.log|
  {
  }

  lemma LessRoom(l: Ledger, open: set<nat>, room: nat, less: nat)
    requires Starting(l, open, room) && less <= room
    ensures Starting(l, open, less)
  {
  }

  // ---------------------------------------------------------------- the first prompt

  /** A key registered for the first time shows its initial value at revision 1. */
  lemma FirstRegistration(objects: seq<KObject>, o: KObject, key: string)
    requires forall i {:trigger objects[i]} :: 0 <= i < |objects| ==> objects[i].name != key
    requires IsKey(key) && o.name == key
    ensures FindObject(objects, key, 0) == |objects|
    ensures Shown(objects + [o], key, o.state, o.revision)
  {
    KeyNamed(key);
    assert ParseWhole(key, U32) == 0;
    LastMatch(objects, o, key, 0);
  }

  lemma {:induction false} LastMatch(objects: seq<KObject>, o: KObject, key: string, from: nat)
    requires from <= |objects| && Matches(o, key)
    requires forall i {:trigger objects[i]} :: 0 <= i < |objects| ==> !Matches(objects[i], key)
    ensures FindObject(objects + [o], key, from) == |objects|
    decreases |objects| - from
  {
    if from < |objects| {
      LastMatch(objects, o, key, from + 1);
    }
  }

  lemma RegisterKey(l: Ledger, key: string, parentId: nat, value: string, created: nat, open: set<nat>)
    requires OpenExactly(l, open) && |l.objects| < OBJECT_CAPACITY
    requires IsKey(key) && |key| <= LABEL && |value| <= LABEL
    requires forall i {:trigger l.objects[i]} :: 0 <= i < |l.objects| ==> l.objects[i].name != key
    ensures var l' := Register(l, "config_key", key, parentId, value, created).0;
            && OpenExactly(l', open) && l' == l.(objects := l'.objects)
            && |l'.objects| == |l.objects| + 1 && l'.objects[..|l.objects|] == l.objects
            && l'.objects[|l.objects|].name == key
            && Shown(l'.objects, key, value, 1)
  {
    RegisterPlain(l, "config_key", key, parentId, value, created, open);
    var o := KObject(|l.objects| + 1, parentId, 1, created, created, Cut("config_key", TYPE), Cut(key, LABEL),
                     Cut(value, LABEL));
    FirstRegistration(l.objects, o, key);
    hide OpenExactly, FindObject, Shown;
  }

  lemma KeyFacts()
    ensures IsKey(THEME) && |THEME| <= LABEL && IsKey(PROMPT) && |PROMPT| <= LABEL && THEME != PROMPT
    ensures Cut("/config", LABEL) != THEME && Cut("/config", LABEL) != PROMPT
  {
    assert |"/config"| == 7 && |THEME| > 7 && |PROMPT| > 7;
  }

  lemma KeysRegistered(l: Ledger, parent: nat)
    requires OpenExactly(l, {}) && |l.objects| + 2 <= OBJECT_CAPACITY && NoKeys(l.objects)
    ensures var l2 := Register(l, "config_key", THEME, parent, "light", l.current).0;
            var l3 := Register(l2, "config_key", PROMPT, parent, ">", l2.current).0;
            && OpenExactly(l3, {}) && l3 == l.(objects := l3.objects)
            && Shown(l3.objects, THEME, "light", 1) && Shown(l3.objects, PROMPT, ">", 1)
  {
    hide FindObject, Cut, Register, OpenExactly, ParseWhole;
    KeyFacts();
    var l2 := Register(l, "config_key", THEME, parent, "light", l.current).0;
    RegisterKey(l, THEME, parent, "light", l.current, {});
    assert forall i {:trigger l2.objects[i]} :: 0 <= i < |l.objects| ==> l2.objects[i] == l.objects[i];
    RegisterKey(l2, PROMPT, parent, ">", l2.current, {});
    RegisterKeeps(l2, "config_key", PROMPT, parent, ">", l2.current, THEME);
  }

  lemma BothShown(k: Kernel)
    requires k.config == INITIAL && Shown(k.l.objects, THEME, "light", 1) && Shown(k.l.objects, PROMPT, ">", 1)
    ensures Mirrored(k, map[THEME := 0, PROMPT := 0])
  {
    hide Shown;
    KeyFacts();
  }

  lemma ConfigStarts(l: Ledger, p: P.Rules)
    requires Starting(l, {}, 3)
    ensures var l' := InitConfig(l);
            && OpenExactly(l', {}) && l'.current == l.current && l'.tx == l.tx && |l'.log| >= BOOT_EVENT
            && Mirrored(Kernel(l', p, INITIAL), map[THEME := 0, PROMPT := 0])
  {
    KeyFacts();
    var (l1, parent) := Register(l, "directory", "/config", ObjectId(l.objects, "system"), "ready", l.current);
    RegisterStarting(l, "directory", "/config", ObjectId(l.objects, "system"), "ready", l.current, {}, 3);
    KeysRegistered(l1, parent);
    hide Register, Record, OpenExactly, Mirrored, Shown, NoKeys, PlainKind, Cut;
    var l2 := Register(l1, "config_key", THEME, parent, "light", l1.current).0;
    var l3 := Register(l2, "config_key", PROMPT, parent, ">", l2.current).0;
    PlainKinds();
    CurrentIsPast(l3, {});
    RecordPlain(l3, "config", "/config", "initialize", Ok, l3.current, "allow:boot-config", "action", {});
    BothShown(Kernel(InitConfig(l), p, INITIAL));
  }

  lemma {:induction false} AfterKeeps(l: Ledger, p: P.Rules, ops: seq<Op>, sets: map<string, nat>)
    requires OpenExactly(l, {}) && Mirrored(Kernel(l, p, INITIAL), sets) && StartOps(l, ops)
    ensures var l' := ApplyAll(l, ops);
            && OpenExactly(l', {}) && l'.current == l.current && l'.tx == l.tx && |l.log| <= |l'.log|
            && Mirrored(Kernel(l', p, INITIAL), sets)
    decreases |ops|
  {
    hide OpenExactly, Mirrored, KeepsObject, Disciplined;
    if ops != [] {
      var k := Kernel(l, p, INITIAL);
      StartOpIsPlain(k, ops[0]);
      OpKeepsOpen(k, ops[0], {});
      KeepsCurrent(l, ops[0]);
      forall key | key in k.config && IsKey(key)
        ensures KeepsObject(l.objects, Apply(l, ops[0]).objects, key)
      {
        OpKeeps(k, ops[0], key);
      }
      hide Apply;
      KeepsMirrored(k, Kernel(Apply(l, ops[0]), p, INITIAL), sets);
      AfterKeeps(Apply(l, ops[0]), p, ops[1..], sets);
    }
  }

  lemma KeepsCurrent(l: Ledger, op: Op)
    requires op.RecordOp? || op.RegisterOp? || op.UpdateOp?
    ensures Apply(l, op).current == l.current && Apply(l, op).tx == l.tx
  {
    hide FindObject, Touch, Cut;
  }

  lemma StartOpIsPlain(k: Kernel, op: Op)
    requires StartOp(k.l, op) && k.config == INITIAL
    ensures PlainOp(k, op)
  {
    hide Disciplined, AllDigits;
    assert "/config" <= THEME && "/config" <= PROMPT;
  }

  lemma FirstEvent()
    ensures Starting(PowerOn(), {}, OBJECT_CAPACITY)
  {
    PlainKinds();
    assert OpenExactly(EMPTY, {});
    RecordPlain(EMPTY, "boot", "kernel", "enter", Ok, 0, "allow:boot", "action", {});
    hide Record, PlainKind;
    MoveCurrent(Record(EMPTY, "boot", "kernel", "enter", Ok, 0, "allow:boot", "action"), BOOT_EVENT, 0, {});
  }

  /** The other initialisers keep to plain journal operations, few enough to leave room for the keys. */
  predicate StartOk(source: string, before: seq<Op>, after: seq<Op>) {
    var l1 := InitPolicy(InitRegistry(PowerOn()), source).0;
    && |before| <= 52
    && StartOps(l1, before)
    && StartOps(InitConfig(ApplyAll(l1, before)), after)
  }

  /** Whatever the policy text and the other initialisers, start-up reaches a prompt at which every
      transaction is closed, every configuration key is mirrored at revision 1, and the rules are those of
      the text. */
  lemma StartReachesPrompt(source: string, before: seq<Op>, after: seq<Op>)
    requires StartOk(source, before, after)
    ensures var k := Start(source, before, after);
            && AtPrompt(k, BOOT_EVENT) && |k.l.log| >= BOOT_EVENT
            && Mirrored(k, map[THEME := 0, PROMPT := 0])
            && k.p == T.Parse(source)
            && k.config == map["/config/theme" := "light", "/config/prompt" := ">"]
  {
    hide OpenExactly, Mirrored, Record, InitRegistry, InitPolicy, InitConfig, Starting, StartOps, ApplyAll, T.Parse;
    FirstEvent();
    RegistryStarting(PowerOn());
    PolicyStarting(InitRegistry(PowerOn()), source, 55);
    var (l1, p) := InitPolicy(InitRegistry(PowerOn()), source);
    assert p == T.Parse(source) by { LoadedRules(InitRegistry(PowerOn()), source); }
    LessRoom(l1, {}, 55, 3 + |before|);
    OpsStarting(l1, before, 3);
    ConfigStarts(ApplyAll(l1, before), p);
    AfterKeeps(InitConfig(ApplyAll(l1, before)), p, after, map[THEME := 0, PROMPT := 0]);
  }

  lemma LoadedRules(l: Ledger, source: string)
    ensures InitPolicy(l, source).1 == T.Parse(source)
  {
  }

  /** What holds at every prompt of a run from power-on. */
  ghost predicate PromptOk(k: Kernel, loaded: P.Rules, sets: map<string, nat>, added: nat) {
    && AtPrompt(k, BOOT_EVENT)
    && Mirrored(k, sets)
    && P.Grown(loaded, k.p, added)
    && k.config.Keys == {"/config/theme", "/config/prompt"}
    && forall actor, target, operation :: P.NewestDecides(k.p, actor, target, operation)
  }

  lemma PromptIsOk(k: Kernel, loaded: P.Rules, sets: map<string, nat>, added: nat)
    requires AtPrompt(k, BOOT_EVENT) && Mirrored(k, sets) && P.Grown(loaded, k.p, added)
    requires k.config.Keys == {"/config/theme", "/config/prompt"}
    ensures PromptOk(k, loaded, sets, added)
  {
    forall actor: string, target: string, operation: string
      ensures P.NewestDecides(k.p, actor, target, operation)
    {
      P.LastMatchWins(k.p, actor, target, operation);
    }
  }

  /** From power-on, over any run of commands: at every prompt no transaction is open, each was closed
      exactly once and none is current; the registry shows every configuration value at revision 1 plus the
      number of sets accepted for it; the rules are the loaded ones and one for each policy change accepted,
      numbered in order, under the loaded revision plus their number; and every decision is the newest
      applicable rule's. */
  lemma EveryPromptFromPowerOn(source: string, before: seq<Op>, after: seq<Op>, turns: seq<Turn>)
    requires StartOk(source, before, after)
    ensures var k := Start(source, before, after);
            PromptOk(RunAll(k, turns, BOOT_EVENT), T.Parse(source),
                     SetsAfterAll(k, turns, BOOT_EVENT, map[THEME := 0, PROMPT := 0]), RulesAdded(k, turns, BOOT_EVENT))
  {
    StartReachesPrompt(source, before, after);
    TwoKeys(Start(source, before, after).config);
    T.ParsedIsWellFormed(source);
    hide Start, StartOk, T.Parse, PromptOk, AtPrompt, Mirrored, RunAll, SetsAfterAll, RulesAdded, P.Grown,
        P.WellFormed;
    RunFromPrompt(Start(source, before, after), T.Parse(source), turns, map[THEME := 0, PROMPT := 0]);
  }

  lemma TwoKeys(config: Config)
    requires config == map["/config/theme" := "light", "/config/prompt" := ">"]
    ensures config.Keys == {"/config/theme", "/config/prompt"}
  {
  }

  lemma RunFromPrompt(k: Kernel, loaded: P.Rules, turns: seq<Turn>, sets: map<string, nat>)
    requires AtPrompt(k, BOOT_EVENT) && |k.l.log| >= BOOT_EVENT && Mirrored(k, sets) && P.Grown(loaded, k.p, 0)
    requires k.config.Keys == {"/config/theme", "/config/prompt"}
    ensures PromptOk(RunAll(k, turns, BOOT_EVENT), loaded, SetsAfterAll(k, turns, BOOT_EVENT, sets),
                     RulesAdded(k, turns, BOOT_EVENT))
  {
    hide PromptOk, AtPrompt, Mirrored, RunAll, SetsAfterAll, RulesAdded, P.Grown;
    EveryPromptIsClosed(k, turns, BOOT_EVENT);
    RegistryMirrorsConfig(k, turns, BOOT_EVENT, sets);
    RulesGrow(k, turns, BOOT_EVENT, loaded, 0);
    KeysStay(k, turns, BOOT_EVENT);
    PromptIsOk(RunAll(k, turns, BOOT_EVENT), loaded, SetsAfterAll(k, turns, BOOT_EVENT, sets),
               RulesAdded(k, turns, BOOT_EVENT));
  }

  /** From power-on, over any run of commands: every closed transaction ends with an event that names it and
      says "commit", with the result Ok, when it is committed, and "abort", with Denied, when it is aborted. */
  lemma EveryClosingSaysSo(source: string, before: seq<Op>, after: seq<Op>, turns: seq<Turn>, i: nat)
    requires StartOk(source, before, after)
    requires i < |RunAll(Start(source, before, after), turns, BOOT_EVENT).l.txs|
    ensures var l := RunAll(Start(source, before, after), turns, BOOT_EVENT).l;
            var t := l.txs[i];
            && t.status != Open && 1 <= t.endEvent <= |l.log|
            && var e := l.log[t.endEvent - 1];
               && e.tx == t.id && e.target == Cut("transaction/" + Decimal(t.id), 47) && e.kind == "transaction"
               && (if t.status == Committed then e.operation == "commit" && e.result == Ok
                   else e.operation == "abort" && e.result == Denied)
  {
    hide Start, StartOk, RunAll, T.Parse, Mirrored, JournalOk, Closings, Decimal;
    StartReachesPrompt(source, before, after);
    EveryPromptIsClosed(Start(source, before, after), turns, BOOT_EVENT);
    var l := RunAll(Start(source, before, after), turns, BOOT_EVENT).l;
    assert Settled(l.log, l.txs[i], {});
  }
}
