/** What start-up leaves in the journal and in the registry. */
module BootTranscripts {
  import opened Text
  import opened EventRing
  import opened Ledger
  import opened Kernel
  import opened Closure
  import opened TransactionObjects
  import opened Transcript
  import B = Boot
  import C = CallTranscripts
  import P = Policy
  import S = Scripts
  import T = PolicyText

  /** The journal starts with the boot event, which is current. */
  lemma PowerOnLeaves()
    ensures var l := B.PowerOn();
            && Leaves(EMPTY, l, [Entry("boot", "kernel", "enter", Ok, "allow:boot", "action", 0, 0)])
            && l.current == 1 && l.tx == 0 && l.txs == [] && l.objects == []
  {
    RecordLeaves(EMPTY, "boot", "kernel", "enter", Ok, 0, "allow:boot", "action");
    var l := Record(EMPTY, "boot", "kernel", "enter", Ok, 0, "allow:boot", "action");
    hide Leaves, Cut;
    C.SameLog(EMPTY, l, B.PowerOn(), [Entry("boot", "kernel", "enter", Ok, "allow:boot", "action", 0, 0)]);
  }

  // ---------------------------------------------------------------- the registry

  lemma Added(l: Ledger, kind: string, name: string, parentId: nat, state: string)
    requires |l.objects| < 128 && !HasObject(l.objects, name) && !AllDigits(name)
    requires Cut(kind, 31) == kind && Cut(name, 47) == name && Cut(state, 47) == state
    ensures Register(l, kind, name, parentId, state, 1) ==
            (l.(objects := l.objects + [KObject(|l.objects| + 1, parentId, 1, 1, 1, kind, name, state)]),
             |l.objects| + 1)
  {
    FoundByName(l.objects, name);
    hide FindObject, Cut;
  }

  lemma StillMissing(objects: seq<KObject>, o: KObject, name: string)
    requires !HasObject(objects, name) && o.name != name
    ensures !HasObject(objects + [o], name)
  {
  }

  function System(id: nat, kind: string, name: string, state: string): KObject {
    KObject(id, if id == 1 then 0 else 1, 1, 1, 1, kind, name, state)
  }

  /** The objects there are from the start: all but the first are its children. */
  function SystemObjects(): seq<KObject> {
    [System(1, "system", "system", "booting"), System(2, "boot", "boot", "entered kernel"),
     System(3, "subsystem", "memory", "initializing"), System(4, "subsystem", "interrupts", "pending"),
     System(5, "subsystem", "ramfs", "pending"), System(6, "subsystem", "shell", "pending"),
     System(7, "ledger", "events", "recording")]
  }

  lemma FirstObjects(n: nat, name: string)
    requires n <= 7 && forall i :: 0 <= i < n ==> SystemObjects()[i].name != name
    ensures !HasObject(SystemObjects()[..n], name)
  {
  }

  lemma NextObject(l: Ledger, n: nat, kind: string, name: string, state: string)
    requires n < 7 && l.objects == SystemObjects()[..n]
    requires SystemObjects()[n] == System(n + 1, kind, name, state) && !AllDigits(name)
    requires forall i :: 0 <= i < n ==> SystemObjects()[i].name != name
    requires Cut(kind, 31) == kind && Cut(name, 47) == name && Cut(state, 47) == state
    ensures Register(l, kind, name, if n == 0 then 0 else 1, state, 1) ==
            (l.(objects := SystemObjects()[..n + 1]), n + 1)
  {
    FirstObjects(n, name);
    Added(l, kind, name, if n == 0 then 0 else 1, state);
    var objects := SystemObjects();
    assert objects[..n + 1] == objects[..n] + [objects[n]];
    hide SystemObjects, Register, Cut;
  }

  lemma NotNumbers()
    ensures !AllDigits("system") && !AllDigits("boot") && !AllDigits("memory") && !AllDigits("interrupts")
    ensures !AllDigits("ramfs") && !AllDigits("shell") && !AllDigits("events")
  {
    assert "system"[0] == 's' && "boot"[0] == 'b' && "memory"[0] == 'm' && "interrupts"[0] == 'i';
    assert "ramfs"[0] == 'r' && "shell"[0] == 's' && "events"[0] == 'e';
  }

  lemma RegistryAtStart()
    ensures B.InitRegistry(B.PowerOn()) == B.PowerOn().(objects := SystemObjects())
  {
    PowerOnLeaves();
    NotNumbers();
    hide Register, Leaves, B.PowerOn, AllDigits;
    var l := B.PowerOn();
    var objects := SystemObjects();
    assert l.objects == objects[..0];
    NextObject(l, 0, "system", "system", "booting");
    NextObject(l.(objects := objects[..1]), 1, "boot", "boot", "entered kernel");
    NextObject(l.(objects := objects[..2]), 2, "subsystem", "memory", "initializing");
    NextObject(l.(objects := objects[..3]), 3, "subsystem", "interrupts", "pending");
    NextObject(l.(objects := objects[..4]), 4, "subsystem", "ramfs", "pending");
    NextObject(l.(objects := objects[..5]), 5, "subsystem", "shell", "pending");
    NextObject(l.(objects := objects[..6]), 6, "ledger", "events", "recording");
    assert objects[..7] == objects;
  }

  // ---------------------------------------------------------------- the policy

  lemma RegisterKeepsNames(l: Ledger, kind: string, name: string, parentId: nat, state: string, created: nat,
                           other: string)
    requires HasObject(l.objects, other)
    ensures HasObject(Register(l, kind, name, parentId, state, created).0.objects, other)
  {
    hide Found, Cut;
    var i :| 0 <= i < |l.objects| && l.objects[i].name == other;
    assert Register(l, kind, name, parentId, state, created).0.objects[i].name == other;
  }

  lemma {:induction false} CapabilitiesKeepJournal(l: Ledger, p: P.Rules, i: nat, parentId: nat, open: set<nat>)
    requires i <= |p.list| && OpenExactly(l, open) && HasObject(l.objects, POLICY_OBJECT)
    ensures var l' := B.RegisterCapabilities(l, p, i, parentId);
            l' == l.(objects := l'.objects) && OpenExactly(l', open) && HasObject(l'.objects, POLICY_OBJECT)
    decreases |p.list| - i
  {
    hide Register, CapabilityName, CapabilityState, HasObject, OpenExactly;
    if i < |p.list| {
      var r := p.list[i];
      var name := CapabilityName(r.subject, r.operation, r.object_);
      var state := CapabilityState(r.allow, r.number, p.revision);
      RegisterPlain(l, "capability", name, parentId, state, l.current, open);
      RegisterKeepsNames(l, "capability", name, parentId, state, l.current, POLICY_OBJECT);
      CapabilitiesKeepJournal(RegisterCapability(l, r, p.revision, parentId), p, i + 1, parentId, open);
    }
  }

  /** Once its object is registered, the policy's transaction begins. */
  lemma PolicyBegins(l: Ledger)
    requires OpenExactly(l, {}) && l.txs == [] && |l.log| >= 1 && HasObject(l.objects, POLICY_OBJECT)
    ensures var (l1, id) := Begin(l, "policy", POLICY_OBJECT, 1);
            var l2 := l1.(current := id, tx := id);
            && id == |l.log| + 1 == |l2.log| && OpenExactly(l2, {id}) && HasObject(l2.objects, POLICY_OBJECT)
            && Leaves(l, l2, [Entry("policy", Transact(id), "begin", Ok, "allow:transaction", "transaction", 1, id)])
            && l2.log[id - 1].actor == "policy"
  {
    OpenIsKnown(l, {});
    BeginLeaves(l, "policy", POLICY_OBJECT, 1);
    BeginOpens(l, "policy", POLICY_OBJECT, 1, {});
    BeginKeepsName(l);
    hide OpenExactly, Begin, HasObject, Decimal, JournalOk;
    var (l1, id) := Begin(l, "policy", POLICY_OBJECT, 1);
    assert {} + {id} == {id};
    MoveCurrent(l1, id, id, {id});
    var begin := Entry("policy", Transact(id), "begin", Ok, "allow:transaction", "transaction", 1, id);
    C.LastEntry(l, l1, [begin]);
    C.SameLog(l, l1, l1.(current := id, tx := id), [begin]);
  }

  lemma BeginKeepsName(l: Ledger)
    requires HasObject(l.objects, POLICY_OBJECT)
    ensures HasObject(Begin(l, "policy", POLICY_OBJECT, 1).0.objects, POLICY_OBJECT)
  {
    if |l.txs| < 32 {
      RegisterKeepsNames(l, "transaction", TransactionName(NextSequence(l)), ObjectId(l.objects, "events"), "open", 1,
                         POLICY_OBJECT);
      BeginParts(l, "policy", POLICY_OBJECT, 1);
    }
    hide Begin, Register, HasObject, TransactionName, ObjectId;
  }

  /** The decision text of the load. */
  function LoadReason(p: P.Rules): string {
    Cut("allow:policy-bootstrap,rev=" + Decimal(p.revision) + ",rule=" + Decimal(0), 47)
  }

  lemma ReasonOfLoad(p: P.Rules)
    ensures P.Reason(true, "policy-bootstrap", p.revision, 0) == LoadReason(p)
  {
    var tail := ",rev=" + Decimal(p.revision) + ",rule=" + Decimal(0);
    assert "allow:" + "policy-bootstrap" == "allow:policy-bootstrap";
    assert "allow:policy-bootstrap" + ",rev=" == "allow:policy-bootstrap,rev=";
    assert P.ReasonText(true, "policy-bootstrap", p.revision, 0) == "allow:policy-bootstrap" + tail;
    hide Decimal, Cut;
    var text := "allow:policy-bootstrap,rev=" + Decimal(p.revision) + ",rule=" + Decimal(0);
    assert text == "allow:policy-bootstrap" + tail;
  }

  lemma LoadRecorded(l: Ledger, id: nat, reason: string)
    requires OpenExactly(l, {id}) && l.tx == id && l.current == id && |l.log| >= 1
    ensures var l1 := Record(l, "policy", POLICY_OBJECT, "load", Ok, 1, reason, "state");
            && Leaves(l, l1, [Entry("policy", POLICY_OBJECT, "load", Ok, reason, "state", 1, id)])
            && OpenExactly(l1, {id}) && l1.tx == id && l1.current == id && l1.objects == l.objects
  {
    PlainKinds();
    hide OpenExactly, Record, Leaves, PlainKind, POLICY_OBJECT;
    RecordPlain(l, "policy", POLICY_OBJECT, "load", Ok, 1, reason, "state", {id});
    RecordLeaves(l, "policy", POLICY_OBJECT, "load", Ok, 1, reason, "state");
  }

  lemma NotANumber()
    ensures !AllDigits(POLICY_OBJECT)
  {
    assert POLICY_OBJECT[0] == 'p' && !IsDigit('p');
  }

  /** The load itself and the object's new state. */
  lemma LoadLeaves(l: Ledger, id: nat, reason: string)
    requires OpenExactly(l, {id}) && l.tx == id && l.current == id && |l.log| >= 1
    requires HasObject(l.objects, POLICY_OBJECT)
    ensures var l1 := Record(l, "policy", POLICY_OBJECT, "load", Ok, 1, reason, "state");
            var l2 := UpdateState(l1, POLICY_OBJECT, "loaded");
            && Leaves(l, l2,
                      [Entry("policy", POLICY_OBJECT, "load", Ok, reason, "state", 1, id),
                       Entry("object", POLICY_OBJECT, "state_update", Ok, "allow:object-state", "state", id, id)])
            && OpenExactly(l2, {id}) && l2.tx == id && l2.current == id
  {
    hide OpenExactly, Record, UpdateState, HasObject, Leaves, AllDigits, POLICY_OBJECT;
    NotANumber();
    LoadRecorded(l, id, reason);
    var l1 := Record(l, "policy", POLICY_OBJECT, "load", Ok, 1, reason, "state");
    UpdatePlain(l1, POLICY_OBJECT, "loaded", {id});
    UpdateLeaves(l1, POLICY_OBJECT, "loaded");
    var a := Entry("policy", POLICY_OBJECT, "load", Ok, reason, "state", 1, id);
    var b := Entry("object", POLICY_OBJECT, "state_update", Ok, "allow:object-state", "state", id, id);
    Together(l, l1, UpdateState(l1, POLICY_OBJECT, "loaded"), [a], [b]);
    assert [a] + [b] == [a, b];
  }

  function PolicyEntries(id: nat, reason: string): seq<Entry> {
    [Entry("policy", Transact(id), "begin", Ok, "allow:transaction", "transaction", 1, id),
     Entry("policy", "policy/base.policy", "load", Ok, reason, "state", 1, id),
     Entry("object", "policy/base.policy", "state_update", Ok, "allow:object-state", "state", id, id),
     Entry("policy", Transact(id), "commit", Ok, "allow:transaction", "transaction", id + 2, id)]
  }

  lemma RegisteredName(l: Ledger, parentId: nat)
    requires |l.objects| < 128
    ensures HasObject(Register(l, "policy", POLICY_OBJECT, parentId, "loading", 1).0.objects, POLICY_OBJECT)
  {
    assert POLICY_OBJECT[0] == 'p' && !IsDigit('p');
    FoundByName(l.objects, POLICY_OBJECT);
    hide FindObject;
    var l' := Register(l, "policy", POLICY_OBJECT, parentId, "loading", 1).0;
    if !HasObject(l.objects, POLICY_OBJECT) {
      assert Cut(POLICY_OBJECT, LABEL) == POLICY_OBJECT;
      assert l'.objects[|l.objects|].name == POLICY_OBJECT;
    }
  }

  /** From the begin event to the closing one. */
  lemma PolicyEnds(l1: Ledger, l2: Ledger, l3: Ledger, l5: Ledger, id: nat, reason: string)
    requires id == |l1.log| + 1 == |l2.log| && l3 == l2.(objects := l3.objects) && l2.log[id - 1].actor == "policy"
    requires Leaves(l1, l2, [Entry("policy", Transact(id), "begin", Ok, "allow:transaction", "transaction", 1, id)])
    requires Leaves(l3, l5, [Entry("policy", POLICY_OBJECT, "load", Ok, reason, "state", 1, id),
                             Entry("object", POLICY_OBJECT, "state_update", Ok, "allow:object-state", "state", id, id)])
    requires OpenExactly(l5, {id})
    ensures Leaves(l1, Commit(l5, id).0, PolicyEntries(id, reason))
  {
    OpenIsKnown(l5, {id});
    var a := Entry("policy", Transact(id), "begin", Ok, "allow:transaction", "transaction", 1, id);
    var b := Entry("policy", POLICY_OBJECT, "load", Ok, reason, "state", 1, id);
    var c := Entry("object", POLICY_OBJECT, "state_update", Ok, "allow:object-state", "state", id, id);
    var d := Entry("policy", Transact(id), "commit", Ok, "allow:transaction", "transaction", id + 2, id);
    C.LastEntry(l3, l5, [b, c]);
    hide OpenExactly, JournalOk, Commit, Leaves, Transact, Shows;
    C.LeavesLength(l3, l5, [b, c]);
    C.FirstStays(l3, l5, [b, c], id - 1);
    C.ClosingLeaves(l5, id, true, "", "policy");
    C.SameStart(l2, l3, l5, [b, c]);
    Together(l1, l2, l5, [a], [b, c]);
    Together(l1, l5, Commit(l5, id).0, [a] + [b, c], [d]);
    assert [a] + [b, c] + [d] == [a, b, c, d];
  }

  /** policy_init: the base policy is loaded inside a transaction of its own, by these four events. */
  lemma PolicyLeaves(l: Ledger, source: string)
    requires OpenExactly(l, {}) && l.txs == [] && l.tx == 0 && |l.log| >= 1 && |l.objects| < 128
    ensures var (l', p) := B.InitPolicy(l, source);
            var id := |l.log| + 1;
            && p == T.Parse(source) && l'.current == 1 && l'.tx == 0
            && Leaves(l, l', PolicyEntries(id, LoadReason(p)))
  {
    hide OpenExactly, Register, Begin, B.RegisterCapabilities, Record, UpdateState, Commit, T.Parse, Leaves, HasObject,
         LoadReason, P.Reason, Decimal, ObjectId;
    var (l1, policy) := Register(l, "policy", POLICY_OBJECT, ObjectId(l.objects, "system"), "loading", 1);
    RegisterPlain(l, "policy", POLICY_OBJECT, ObjectId(l.objects, "system"), "loading", 1, {});
    RegisteredName(l, ObjectId(l.objects, "system"));
    PolicyBegins(l1);
    var (l2, id) := Begin(l1, "policy", POLICY_OBJECT, 1);
    var p := T.Parse(source);
    var l2' := l2.(current := id, tx := id);
    CapabilitiesKeepJournal(l2', p, 0, policy, {id});
    var l3 := B.RegisterCapabilities(l2', p, 0, policy);
    ReasonOfLoad(p);
    LoadLeaves(l3, id, LoadReason(p));
    var l5 := UpdateState(Record(l3, "policy", POLICY_OBJECT, "load", Ok, 1, LoadReason(p), "state"), POLICY_OBJECT,
                          "loaded");
    PolicyEnds(l1, l2', l3, l5, id, LoadReason(p));
    C.SameStart(l, l1, Commit(l5, id).0, PolicyEntries(id, LoadReason(p)));
    C.SameLog(l, Commit(l5, id).0, Commit(l5, id).0.(tx := 0, current := 1), PolicyEntries(id, LoadReason(p)));
  }

  /** From power-on to the loaded policy: the boot event is event 1 and the transaction of the load number 2. */
  lemma BootLeaves(source: string)
    ensures Leaves(EMPTY, B.InitPolicy(B.InitRegistry(B.PowerOn()), source).0,
                   [Entry("boot", "kernel", "enter", Ok, "allow:boot", "action", 0, 0)] +
                   PolicyEntries(2, LoadReason(T.Parse(source))))
  {
    hide B.PowerOn, B.InitPolicy, B.InitRegistry, T.Parse, Leaves, OpenExactly, PolicyEntries, LoadReason;
    PowerOnLeaves();
    RegistryAtStart();
    B.FirstEvent();
    StartIsOpen();
    var l, boot := B.InitRegistry(B.PowerOn()), [Entry("boot", "kernel", "enter", Ok, "allow:boot", "action", 0, 0)];
    C.LeavesLength(EMPTY, B.PowerOn(), boot);
    C.SameLog(EMPTY, B.PowerOn(), l, boot);
    PolicyLeaves(l, source);
    Together(EMPTY, l, B.InitPolicy(l, source).0, boot, PolicyEntries(2, LoadReason(T.Parse(source))));
  }

  lemma StartIsOpen()
    ensures OpenExactly(B.InitRegistry(B.PowerOn()), {})
  {
    B.FirstEvent();
    hide B.PowerOn, B.InitRegistry, OpenExactly;
    B.RegistryStarting(B.PowerOn());
  }

  // ---------------------------------------------------------------- the configuration

  lemma AddedNext(l: Ledger, kind: string, name: string, parentId: nat, state: string)
    requires |l.objects| < 128 && !HasObject(l.objects, name) && !AllDigits(name)
    requires Cut(kind, 31) == kind && Cut(name, 47) == name && Cut(state, 47) == state
    ensures Register(l, kind, name, parentId, state, l.current) ==
            (l.(objects := l.objects +
                           [KObject(|l.objects| + 1, parentId, 1, l.current, l.current, kind, name, state)]),
             |l.objects| + 1)
  {
    FoundByName(l.objects, name);
    hide FindObject, Cut;
  }

  lemma ConfigNames()
    ensures !AllDigits("/config") && !AllDigits(THEME) && !AllDigits(PROMPT) && !IsDigit('/')
  {
    assert "/config"[0] == '/' && THEME[0] == '/' && PROMPT[0] == '/';
  }

  /** config_init: a directory and, in it, the two keys with their first values; and one event. */
  lemma ConfigLeaves(l: Ledger)
    requires |l.objects| + 3 <= 128 && !HasObject(l.objects, "/config")
    requires !HasObject(l.objects, "/config/theme") && !HasObject(l.objects, "/config/prompt")
    ensures var n, e := |l.objects|, l.current;
            && Leaves(l, B.InitConfig(l), [Entry("config", "/config", "initialize", Ok, "allow:boot-config", "action",
                                                 l.current, l.tx)])
            && B.InitConfig(l).objects == l.objects +
                 [KObject(n + 1, ObjectId(l.objects, "system"), 1, e, e, "directory", "/config", "ready"),
                  KObject(n + 2, n + 1, 1, e, e, "config_key", "/config/theme", "light"),
                  KObject(n + 3, n + 1, 1, e, e, "config_key", "/config/prompt", ">")]
  {
    ConfigNames();
    hide Register, Leaves, ObjectId, HasObject, AllDigits, Record;
    var n, e, parent := |l.objects|, l.current, ObjectId(l.objects, "system");
    var a := KObject(n + 1, parent, 1, e, e, "directory", "/config", "ready");
    var b := KObject(n + 2, n + 1, 1, e, e, "config_key", "/config/theme", "light");
    var c := KObject(n + 3, n + 1, 1, e, e, "config_key", "/config/prompt", ">");
    AddedNext(l, "directory", "/config", parent, "ready");
    var l1 := l.(objects := l.objects + [a]);
    StillMissing(l.objects, a, "/config/theme");
    StillMissing(l.objects, a, "/config/prompt");
    AddedNext(l1, "config_key", THEME, n + 1, "light");
    var l2 := l.(objects := l.objects + [a] + [b]);
    StillMissing(l.objects + [a], b, "/config/prompt");
    AddedNext(l2, "config_key", PROMPT, n + 1, ">");
    var l3 := l.(objects := l.objects + [a] + [b] + [c]);
    RecordLeaves(l3, "config", "/config", "initialize", Ok, e, "allow:boot-config", "action");
    C.RecordKeeps(l3, "config", "/config", "initialize", Ok, e, "allow:boot-config", "action");
    C.SameStart(l, l3, B.InitConfig(l),
                [Entry("config", "/config", "initialize", Ok, "allow:boot-config", "action", e, l.tx)]);
    assert l.objects + [a] + [b] + [c] == l.objects + [a, b, c];
  }
}
