/** How the kernel's own commands make the revisions reported under one label go back. */
module LongNames {
  import opened Text
  import opened EventRing
  import opened Ledger
  import opened History
  import opened Kernel
  import opened Commands
  import opened Closure
  import opened Prompts
  import opened Mirror
  import opened Boot
  import opened Tagging
  import opened Reachability
  import B = BasePolicy
  import P = Policy
  import T = PolicyText

  // ---------------------------------------------------------------- one command

  function GetLine(key: string): string { "get" + " " + key }

  lemma GetIsGet(key: string, demo: Demo)
    requires key != "" && key[0] != ' '
    ensures TransactionTarget(GetLine(key)) == Cut(key, LABEL)
    ensures Dispatch(GetLine(key), demo) == GetCommand(key)
  {
    SplitWords("get", key);
    hide Split;
  }

  /** The events at two places of a log show the revision under a label going back. */
  lemma Falling(log: seq<Event>, i: nat, j: nat, name: string)
    requires i < j < |log| && log[i].target == log[j].target == name
    requires log[i].targetRevision > log[j].targetRevision
    ensures !Rising(log, name)
  {
  }

  lemma EnterReports(k: Kernel, line: string)
    ensures var l1 := Enter(k, line).0.l;
            var name := TransactionTarget(line);
            && |k.l.log| < |l1.log|
            && l1.log[|k.l.log|].target == Cut(name, LABEL)
            && l1.log[|k.l.log|].targetRevision == Revision(k.l.objects, name)
  {
    hide Begin, TransactionTarget, Revision, ObjectId, Cut, Split, Touch;
    var name := TransactionTarget(line);
    var l1 := Record(k.l, "shell", name, "command", Ok, k.l.current, Split(line).0, "command");
    BeginEventTag(l1, "shell", name, NextSequence(k.l));
  }

  lemma CheckReports(k: Kernel, key: string)
    ensures var log := ShowConfig(k, key).0.l.log;
            && k.l.log <= log && |k.l.log| < |log|
            && log[|k.l.log|].target == Cut(key, LABEL)
            && log[|k.l.log|].targetRevision == Revision(k.l.objects, key)
  {
    hide Revision, ObjectId, Cut, Touch, P.Decide;
  }

  lemma LeaveExtends(k: Kernel, id: nat, ok: bool, boot: nat)
    ensures k.l.log <= Leave(k, id, ok, boot).l.log
  {
    CloseEventTag(k.l, id, Committed, "commit", Ok, "allow:transaction", "committed");
    CloseEventTag(k.l, id, Aborted, "abort", Denied, "deny:transaction", "aborted");
    hide Close;
  }

  /** An object whose name fills its 47 characters, and a get of that name and one character more: the
      command's event reports the object's revision, the policy's event revision 0, both under its name. */
  lemma GetOfLongNameFalls(k: Kernel, name: string, demo: Demo, boot: nat)
    requires Reachable(k.l) && Revision(k.l.objects, name) > 0
    requires |name| == LABEL && name[0] != ' ' && !IsDigit(name[0])
    ensures !Rising(RunCommand(k, GetLine(name + "x"), demo, boot).l.log, name)
  {
    hide Reachable, Enter, ShowConfig, Leave, Dispatch, Revision, Rising, HistoryOk, JournalOk, ObjectsOk,
         TransactionTarget, GetLine;
    var key := name + "x";
    var line := GetLine(key);
    LongKey(name);
    GetIsGet(key, demo);
    EnterReports(k, line);
    ReachEnter(k, line);
    var (k1, commandEvent, id) := Enter(k, line);
    ReachableFacts(k1.l);
    LongNamesFindNothing(k1.l.objects, key);
    CheckReports(k1, key);
    var (k2, ok) := ShowConfig(k1, key);
    LeaveExtends(k2, id, ok, boot);
    Falling(Leave(k2, id, ok, boot).l.log, |k.l.log|, |k1.l.log|, name);
  }

  lemma LongKey(name: string)
    requires |name| == LABEL && !IsDigit(name[0])
    ensures var key := name + "x"; key[0] == name[0] && |key| > LABEL && Cut(key, LABEL) == name && !AllDigits(key)
  {
    var key := name + "x";
    assert key[0] == name[0] && key[..LABEL] == name;
  }

  // ---------------------------------------------------------------- from power-on

  lemma StepRevision(l: Ledger, op: Op, name: string)
    ensures Revision(l.objects, name) <= Revision(Apply(l, op).objects, name)
  {
    hide Apply, Revision, Advances;
    StepAdvances(l, op);
    RevisionsAdvance(l.objects, Apply(l, op).objects, name);
  }

  /** A name is found once it has been registered. */
  lemma RegisteredIsFound(l: Ledger, kind: string, name: string, parentId: nat, state: string, created: nat)
    requires ObjectsOk(l.objects) && |l.objects| < OBJECT_CAPACITY && |name| <= LABEL
    ensures Revision(Register(l, kind, name, parentId, state, created).0.objects, name) > 0
  {
    var objects := Register(l, kind, name, parentId, state, created).0.objects;
    if FindObject(l.objects, name, 0) == |l.objects| {
      LastMatch(l.objects, objects[|l.objects|], name, 0);
    }
  }

  lemma {:induction false} CapabilitiesKeep(l: Ledger, p: P.Rules, i: nat, parentId: nat, name: string)
    requires i <= |p.list|
    ensures Revision(l.objects, name) <= Revision(RegisterCapabilities(l, p, i, parentId).objects, name)
    decreases |p.list| - i
  {
    hide Revision, Register, CapabilityName, CapabilityState;
    if i < |p.list| {
      var r := p.list[i];
      StepRevision(l, RegisterOp("capability", CapabilityName(r.subject, r.operation, r.object_), parentId,
                                 CapabilityState(r.allow, r.number, p.revision), l.current), name);
      CapabilitiesKeep(RegisterCapability(l, r, p.revision, parentId), p, i + 1, parentId, name);
    }
  }

  function NameOf(r: P.Rule): string { CapabilityName(r.subject, r.operation, r.object_) }

  lemma CapabilityStep(l: Ledger, r: P.Rule, revision: nat, parentId: nat)
    requires Reachable(l) && parentId <= |l.objects| < OBJECT_CAPACITY
    ensures var l1 := RegisterCapability(l, r, revision, parentId);
            && Reachable(l1) && parentId <= |l1.objects| <= |l.objects| + 1
            && Revision(l1.objects, NameOf(r)) > 0
  {
    hide Reachable, Revision, HistoryOk, JournalOk, ObjectsOk;
    ReachableFacts(l);
    ReachCapability(l, r, revision, parentId);
    assert |NameOf(r)| <= LABEL;
    RegisteredIsFound(l, "capability", NameOf(r), parentId, CapabilityState(r.allow, r.number, revision), l.current);
    OneMoreObject(l, r, revision, parentId);
  }

  lemma {:induction false} CapabilityIsFound(l: Ledger, p: P.Rules, from: nat, i: nat, parentId: nat)
    requires from <= i < |p.list| && |l.objects| + (|p.list| - from) <= OBJECT_CAPACITY
    requires Reachable(l) && parentId <= |l.objects|
    ensures Revision(RegisterCapabilities(l, p, from, parentId).objects, NameOf(p.list[i])) > 0
    decreases |p.list| - from
  {
    hide Reachable, Revision, RegisterCapability, NameOf;
    CapabilityStep(l, p.list[from], p.revision, parentId);
    var l1 := RegisterCapability(l, p.list[from], p.revision, parentId);
    if from == i {
      CapabilitiesKeep(l1, p, from + 1, parentId, NameOf(p.list[i]));
    } else {
      CapabilityIsFound(l1, p, from + 1, i, parentId);
    }
  }

  lemma OneMoreObject(l: Ledger, r: P.Rule, revision: nat, parentId: nat)
    ensures |RegisterCapability(l, r, revision, parentId).objects| <= |l.objects| + 1
  {
    hide Found, CapabilityName, CapabilityState;
  }

  /** Rule i's capability is found once the policy is loaded. */
  lemma LoadedIsFound(source: string, i: nat)
    requires i < |T.Parse(source).list|
    ensures Revision(InitPolicy(InitRegistry(PowerOn()), source).0.objects, NameOf(T.Parse(source).list[i])) > 0
  {
    hide Starting, Reachable, InitRegistry, Register, Begin, ObjectId, RegisterCapabilities, Record, UpdateState, Close,
         T.Parse, P.Reason, Revision, NameOf, PowerOn, P.WellFormed;
    var l := InitRegistry(PowerOn());
    FirstEvent();
    RegistryStarting(PowerOn());
    ReachPowerOn();
    ReachRegistry(PowerOn());
    var (l1, policy) := Register(l, "policy", POLICY_OBJECT, ObjectId(l.objects, "system"), "loading", BOOT_EVENT);
    RegisterPolicyObject(l);
    var (l2, id) := Begin(l1, "policy", POLICY_OBJECT, BOOT_EVENT);
    BeginStarting(l1, 120);
    ReachLoading(l1);
    Room(l2.(current := id, tx := id), if id == 0 then {} else {id}, 119);
    var p := T.Parse(source);
    AtMost64(source);
    CapabilityIsFound(l2.(current := id, tx := id), p, 0, i, policy);
    KeptByLoading(RegisterCapabilities(l2.(current := id, tx := id), p, 0, policy), id,
                  P.Reason(true, "policy-bootstrap", p.revision, 0), NameOf(p.list[i]));
  }

  lemma AtMost64(source: string)
    ensures |T.Parse(source).list| <= P.MAX_RULES
  {
    T.ParsedIsWellFormed(source);
    hide T.Parse;
  }

  lemma Room(l: Ledger, open: set<nat>, room: nat)
    requires Starting(l, open, room)
    ensures |l.objects| + room <= OBJECT_CAPACITY
  {
  }

  lemma RegisterPolicyObject(l: Ledger)
    requires Starting(l, {}, 121) && Reachable(l) && BOOT_EVENT <= |l.log|
    ensures var (l1, policy) := Register(l, "policy", POLICY_OBJECT, ObjectId(l.objects, "system"), "loading",
                                         BOOT_EVENT);
            Starting(l1, {}, 120) && Reachable(l1) && BOOT_EVENT <= |l1.log| && policy <= |l1.objects|
  {
    ReachableFacts(l);
    IdsStayInRange(l.objects, "system");
    assert |POLICY_OBJECT| <= LABEL;
    hide Starting, Reachable, Register, ObjectId, HistoryOk, JournalOk, ObjectsOk;
    RegisterSystem(l, "policy", POLICY_OBJECT, ObjectId(l.objects, "system"), "loading", {}, 121);
    ReachSystem(l, "policy", POLICY_OBJECT, ObjectId(l.objects, "system"), "loading");
  }

  lemma KeptByLoading(l: Ledger, id: nat, reason: string, name: string)
    ensures var l1 := Record(l, "policy", POLICY_OBJECT, "load", Ok, BOOT_EVENT, reason, "state");
            Revision(l.objects, name) <= Revision(Commit(UpdateState(l1, POLICY_OBJECT, "loaded"), id).0.objects, name)
  {
    hide Record, UpdateState, Close, Revision;
    StepRevision(l, RecordOp("policy", POLICY_OBJECT, "load", Ok, BOOT_EVENT, reason, "state"), name);
    var l1 := Record(l, "policy", POLICY_OBJECT, "load", Ok, BOOT_EVENT, reason, "state");
    StepRevision(l1, UpdateOp(POLICY_OBJECT, "loaded"), name);
    StepRevision(UpdateState(l1, POLICY_OBJECT, "loaded"), CommitOp(id), name);
  }

  lemma KeptByConfig(l: Ledger, name: string)
    ensures Revision(l.objects, name) <= Revision(InitConfig(l).objects, name)
  {
    hide Record, Register, Revision, ObjectId;
    var system := ObjectId(l.objects, "system");
    StepRevision(l, RegisterOp("directory", "/config", system, "ready", l.current), name);
    var (l1, parent) := Register(l, "directory", "/config", system, "ready", l.current);
    StepRevision(l1, RegisterOp("config_key", THEME, parent, "light", l1.current), name);
    var l2 := Register(l1, "config_key", THEME, parent, "light", l1.current).0;
    StepRevision(l2, RegisterOp("config_key", PROMPT, parent, ">", l2.current), name);
    var l3 := Register(l2, "config_key", PROMPT, parent, ">", l2.current).0;
    StepRevision(l3, RecordOp("config", "/config", "initialize", Ok, l3.current, "allow:boot-config", "action"), name);
  }

  lemma {:induction false} KeptByOps(l: Ledger, ops: seq<Op>, name: string)
    ensures Revision(l.objects, name) <= Revision(ApplyAll(l, ops).objects, name)
    decreases |ops|
  {
    hide Apply, Revision;
    if ops != [] {
      StepRevision(l, ops[0], name);
      KeptByOps(Apply(l, ops[0]), ops[1..], name);
    }
  }

  lemma StillFound(source: string, before: seq<Op>, after: seq<Op>, i: nat)
    requires i < |T.Parse(source).list|
    ensures Revision(Start(source, before, after).l.objects, NameOf(T.Parse(source).list[i])) > 0
  {
    hide Revision, NameOf, T.Parse, InitPolicy, InitConfig, InitRegistry, PowerOn, ApplyAll;
    var name := NameOf(T.Parse(source).list[i]);
    LoadedIsFound(source, i);
    var l1 := InitPolicy(InitRegistry(PowerOn()), source).0;
    KeptByOps(l1, before, name);
    KeptByConfig(ApplyAll(l1, before), name);
    KeptByOps(InitConfig(ApplyAll(l1, before)), after, name);
  }

  /** The run of one command: get of a name. */
  function OneGet(key: string, demo: Demo): seq<Turn> { [Turn(GetLine(key), demo)] }

  /** Whatever the policy text and the other initialisers: if the capability name of one of the rules is cut to
      47 characters, or just fills them, then a get of that name and one character more, typed at the first
      prompt, makes the revisions reported under it go back. */
  lemma LongCapabilityFalls(source: string, before: seq<Op>, after: seq<Op>, i: nat, demo: Demo)
    requires StartOk(source, before, after)
    requires i < |T.Parse(source).list| && |NameOf(T.Parse(source).list[i])| == LABEL
    ensures var name := NameOf(T.Parse(source).list[i]);
            !Rising(RunAll(Start(source, before, after), OneGet(name + "x", demo), BOOT_EVENT).l.log, name)
  {
    hide Start, StartOk, Reachable, RunCommand, Enter, Dispatch, Revision, Rising, NameOf, T.Parse, GetLine;
    var name := NameOf(T.Parse(source).list[i]);
    NameStarts(T.Parse(source).list[i]);
    StillFound(source, before, after, i);
    ReachStart(source, before, after);
    var k := Start(source, before, after);
    GetOfLongNameFalls(k, name, demo, BOOT_EVENT);
    assert OneGet(name + "x", demo)[1..] == [];
  }

  lemma NameStarts(r: P.Rule)
    ensures NameOf(r) != "" && NameOf(r)[0] == 'c' && !IsDigit(NameOf(r)[0])
  {
    CapabilityIsNoKey(r);
  }

  /** The rule of the shipped policy that lets the shell change the policy: its capability name has 49
      characters, two more than are stored. */
  const CHANGE_RULE := P.Rule(true, 18, "shell", "policy:change", "policy/base.policy")

  const CHANGE_LABEL := "capability/" + "shell" + "/" + "policy:change" + "/" + "policy/base.poli"

  lemma ChangeRuleName()
    ensures NameOf(CHANGE_RULE) == CHANGE_LABEL && |CHANGE_LABEL| == LABEL
  {
    assert "policy/base.policy" == "policy/base.poli" + "cy";
    assert "capability/" + "shell" + "/" + "policy:change" + "/" + "policy/base.policy" == CHANGE_LABEL + "cy";
  }

  lemma ChangeRuleIsLoaded()
    ensures |T.Parse(B.Source()).list| == 22 && T.Parse(B.Source()).list[17] == CHANGE_RULE
  {
    B.Loads();
    hide T.Parse, B.Source;
  }

  /** So the promise that a target's revision never goes back fails from power-on, under the shipped policy:
      one get command sends back the revisions reported under the capability of the rule that allows policy
      changes. */
  lemma LongNamesBreakRevisions(before: seq<Op>, after: seq<Op>, demo: Demo)
    requires StartOk(B.Source(), before, after)
    ensures !Rising(RunAll(Start(B.Source(), before, after), OneGet(CHANGE_LABEL + "x", demo), BOOT_EVENT).l.log,
                    CHANGE_LABEL)
  {
    hide T.Parse, B.Source, Start, StartOk, RunAll, Rising, NameOf, OneGet, CHANGE_LABEL;
    ChangeRuleName();
    ChangeRuleIsLoaded();
    LongCapabilityFalls(B.Source(), before, after, 17, demo);
  }
}
