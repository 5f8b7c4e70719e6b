/** A line typed at the prompt, by its words: when its command succeeds, and every event that it leaves. */
module LineTranscripts {
  import opened Text
  import opened EventRing
  import opened Ledger
  import opened Kernel
  import opened Commands
  import opened Closure
  import opened Prompts
  import opened TransactionObjects
  import opened Transcript
  import opened ScriptRuns
  import opened CommandTranscripts
  import C = CallTranscripts
  import P = Policy
  import S = Scripts

  const BASE := "policy/base.policy"

  // ---------------------------------------------------------------- policy

  /** The decision text of an accepted change. */
  function ChangeReason(p: P.Rules, allow: bool): string {
    Cut("allow:" + (if allow then "policy:allow" else "policy:deny") + ",rev=" +
        Decimal((p.revision + 1) % 0x1_0000_0000) + ",rule=" + Decimal(|p.list| + 1), 47)
  }

  function PolicyEntries(p: P.Rules, objects: seq<KObject>, request: Option<string>, n: nat, current: nat, tx: nat)
    : seq<Entry>
  {
    match ParseRequest(request)
    case Malformed => []
    case Show => Gate(p, BASE, "policy:show", "shell", BASE, "policy_show", "query", n, current, tx)
    case Change(allow, _, _, _) =>
      [Asked(p, "shell", BASE, "policy:change", current, tx)] +
      if !P.Decide(p, "shell", BASE, "policy:change").allowed then []
      else if |p.list| >= 64 then
        [Entry("policy", BASE, if allow then "allow" else "deny", Denied, "deny:policy-full", "state", n + 1, tx)]
      else
        [Entry("policy", BASE, if allow then "allow" else "deny", Ok, ChangeReason(p, allow), "state", n + 1, tx)] +
        StateEntries(objects, BASE, n, tx)
  }

  /** Registering a capability adds no object with the policy's name. */
  lemma SameObjectName(l: Ledger, r: P.Rule, revision: nat, parentId: nat)
    ensures HasObject(RegisterCapability(l, r, revision, parentId).objects, BASE) <==> HasObject(l.objects, BASE)
  {
    var l' := RegisterCapability(l, r, revision, parentId);
    var name := CapabilityName(r.subject, r.operation, r.object_);
    assert name[0] == 'c' && Cut(name, LABEL)[0] == 'c' && BASE[0] == 'p';
    hide CapabilityName, CapabilityState, Cut, Found;
    if HasObject(l.objects, BASE) {
      var i :| 0 <= i < |l.objects| && l.objects[i].name == BASE;
      assert l'.objects[i].name == BASE;
    }
  }

  lemma AddedRule(p: P.Rules, allow: bool, subject: string, operation: string, object_: string)
    requires |p.list| < 64
    ensures var p' := P.ChangeRule(p, allow, subject, operation, object_).0;
            && P.ChangeRule(p, allow, subject, operation, object_).1 && |p'.list| == |p.list| + 1
            && p'.list[|p.list|].number == |p.list| + 1 && p'.revision == (p.revision + 1) % 0x1_0000_0000
  {
    hide Cut;
  }

  lemma AcceptedLeaves(k: Kernel, r: P.Rule, revision: nat, verb: string, reason: string, state: string, n: nat)
    requires k.l.current == n + 1
    ensures var l1 := RegisterCapability(k.l, r, revision, ObjectId(k.l.objects, POLICY_OBJECT));
            var l2 := Record(l1, "policy", POLICY_OBJECT, verb, Ok, l1.current, reason, "state");
            var l3 := UpdateState(l2, POLICY_OBJECT, state);
            && Leaves(k.l, l3, [Entry("policy", BASE, verb, Ok, reason, "state", n + 1, k.l.tx)] +
                               StateEntries(k.l.objects, BASE, n, k.l.tx))
            && l3.tx == k.l.tx
  {
    hide Record, UpdateState, Register, Leaves, CapabilityName, CapabilityState, ObjectId, HasObject;
    var parent := ObjectId(k.l.objects, POLICY_OBJECT);
    var l1 := RegisterCapability(k.l, r, revision, parent);
    S.RegisterKeepsJournal(k.l, "capability", CapabilityName(r.subject, r.operation, r.object_), parent,
                           CapabilityState(r.allow, r.number, revision), k.l.current);
    SameObjectName(k.l, r, revision, parent);
    var l2 := Record(l1, "policy", POLICY_OBJECT, verb, Ok, l1.current, reason, "state");
    RecordLeaves(l1, "policy", POLICY_OBJECT, verb, Ok, l1.current, reason, "state");
    C.RecordKeeps(l1, "policy", POLICY_OBJECT, verb, Ok, l1.current, reason, "state");
    assert !IsDigit(POLICY_OBJECT[0]);
    UpdateLeaves(l2, POLICY_OBJECT, state);
    UpdateKeepsTag(l2, POLICY_OBJECT, state);
    var e := Entry("policy", BASE, verb, Ok, reason, "state", n + 1, k.l.tx);
    C.SameStart(k.l, l1, l2, [e]);
    Together(k.l, l2, UpdateState(l2, POLICY_OBJECT, state), [e], StateEntries(k.l.objects, BASE, n, k.l.tx));
  }

  lemma RefusedLeaves(k: Kernel, allow: bool, subject: string, operation: string, object_: string)
    requires |k.p.list| >= 64
    ensures var k' := ChangePolicy(k, allow, subject, operation, object_).0;
            && Leaves(k.l, k'.l, [Entry("policy", BASE, if allow then "allow" else "deny", Denied, "deny:policy-full",
                                        "state", k.l.current, k.l.tx)])
            && k'.l.tx == k.l.tx
  {
    hide Record, Leaves;
    var verb := if allow then "allow" else "deny";
    RecordLeaves(k.l, "policy", BASE, verb, Denied, k.l.current, "deny:policy-full", "state");
    C.RecordKeeps(k.l, "policy", BASE, verb, Denied, k.l.current, "deny:policy-full", "state");
  }

  lemma ReasonOfChange(p: P.Rules, allow: bool, revision: nat)
    requires revision == (p.revision + 1) % 0x1_0000_0000
    ensures P.Reason(true, if allow then "policy:allow" else "policy:deny", revision, |p.list| + 1) ==
            ChangeReason(p, allow)
  {
    hide Decimal, Cut;
  }

  lemma AddedLeaves(k: Kernel, allow: bool, subject: string, operation: string, object_: string, n: nat)
    requires k.l.current == n + 1 && |k.p.list| < 64
    ensures var k' := ChangePolicy(k, allow, subject, operation, object_).0;
            && Leaves(k.l, k'.l, [Entry("policy", BASE, if allow then "allow" else "deny", Ok, ChangeReason(k.p, allow),
                                        "state", n + 1, k.l.tx)] +
                                 StateEntries(k.l.objects, BASE, n, k.l.tx))
            && k'.l.tx == k.l.tx
  {
    AddedRule(k.p, allow, subject, operation, object_);
    hide P.ChangeRule, Decimal, Cut, Leaves, Record, UpdateState, RegisterCapability, StateEntries, ObjectId, P.Reason,
         ChangeReason;
    var verb := if allow then "allow" else "deny";
    var p' := P.ChangeRule(k.p, allow, subject, operation, object_).0;
    var r := p'.list[|k.p.list|];
    ReasonOfChange(k.p, allow, p'.revision);
    AcceptedLeaves(k, r, p'.revision, verb, ChangeReason(k.p, allow), if allow then "allow-added" else "deny-added", n);
  }

  /** policy_change_rule under event n + 1. */
  lemma ChangeLeaves(k: Kernel, allow: bool, subject: string, operation: string, object_: string, n: nat)
    requires k.l.current == n + 1
    ensures var k' := ChangePolicy(k, allow, subject, operation, object_).0;
            var verb := if allow then "allow" else "deny";
            && Leaves(k.l, k'.l,
                      if |k.p.list| >= 64 then
                        [Entry("policy", BASE, verb, Denied, "deny:policy-full", "state", n + 1, k.l.tx)]
                      else
                        [Entry("policy", BASE, verb, Ok, ChangeReason(k.p, allow), "state", n + 1, k.l.tx)] +
                        StateEntries(k.l.objects, BASE, n, k.l.tx))
            && k'.l.tx == k.l.tx
  {
    hide ChangePolicy, Leaves, ChangeReason, StateEntries;
    if |k.p.list| >= 64 {
      RefusedLeaves(k, allow, subject, operation, object_);
    } else {
      AddedLeaves(k, allow, subject, operation, object_, n);
    }
  }

  lemma ChangeCommandLeaves(k: Kernel, allow: bool, subject: string, operation: string, object_: string,
                            entries: seq<Entry>)
    requires forall c: Checked :: c == Check(k, "shell", BASE, "policy:change") ==>
               if c.allowed then
                 Leaves(At(c.k, c.event).l, ChangePolicy(At(c.k, c.event), allow, subject, operation, object_).0.l,
                        entries)
               else entries == []
    ensures Leaves(k.l, ChangeByCommand(k, allow, subject, operation, object_).0.l,
                   [Asked(k.p, "shell", BASE, "policy:change", k.l.current, k.l.tx)] + entries)
  {
    hide Check, ChangePolicy, Leaves, Asked, P.Decide;
    CheckLeaves(k, "shell", BASE, "policy:change");
    var c := Check(k, "shell", BASE, "policy:change");
    var a := [Asked(k.p, "shell", BASE, "policy:change", k.l.current, k.l.tx)];
    if c.allowed {
      var k1 := ChangePolicy(At(c.k, c.event), allow, subject, operation, object_).0;
      AtLeaves(c.k, c.event, k1.l, entries);
      ToAt(c.k, k1, k.l.current, entries);
      Together(k.l, c.k.l, At(k1, k.l.current).l, a, entries);
    } else {
      assert a + [] == a;
    }
  }

  lemma PolicyLeaves(k: Kernel, request: Option<string>)
    ensures Leaves(k.l, RunPolicy(k, request).0.l,
                   PolicyEntries(k.p, k.l.objects, request, |k.l.log|, k.l.current, k.l.tx))
  {
    hide Check, Note, ChangePolicy, Leaves, Asked, P.Decide, ParseRequest, ChangeByCommand, HasObject, ChangeReason;
    match ParseRequest(request)
    case Malformed => LeavesNothing(k.l, k.l);
    case Show => GateLeaves(k, BASE, "policy:show", "shell", BASE, "policy_show", "query");
    case Change(allow, subject, operation, object_) =>
      CheckLeaves(k, "shell", BASE, "policy:change");
      var c := Check(k, "shell", BASE, "policy:change");
      ChangeLeaves(At(c.k, c.event), allow, subject, operation, object_, |k.l.log|);
      var entries := PolicyEntries(k.p, k.l.objects, request, |k.l.log|, k.l.current, k.l.tx);
      assert entries == [entries[0]] + entries[1..];
      ChangeCommandLeaves(k, allow, subject, operation, object_, entries[1..]);
  }

  // ---------------------------------------------------------------- any command but userdemo

  /** What a command leaves inside its bracket after n events; `about` is what its transaction is about and
      `event` its own event. */
  function WordEntries(p: P.Rules, config: Config, objects: seq<KObject>, word: string, argument: Option<string>,
                       about: string, n: nat, current: nat, tx: nat, event: nat)
    : seq<Entry>
  {
    if word in {"help", "time", "events"} then []
    else if word == "clear" then
      Gate(p, "window", "ui:clear", "shell", "window", "clear", "state", n, current, tx)
    else if word == "window" then
      Gate(p, "window", "ui:redraw", "shell", "window", "redraw", "state", n, current, tx)
    else if word == "meminfo" then
      Gate(p, "memory", "memory:inspect", "memory", "memory", "inspect", "state", n, current, tx)
    else if word == "ls" then
      Gate(p, "ramfs", "filesystem:list", "ramfs", "ramfs", "list", "state", n, current, tx)
    else if word == "policy" then PolicyEntries(p, objects, argument, n, current, tx)
    else if argument.Some? && word == "cat" then CatEntries(p, argument.value, n, current, tx)
    else if argument.Some? && word == "run" then RunEntries(p, argument.value, n, current, tx)
    else if argument.Some? && word == "get" then GetEntries(p, config, argument.value, n, current, tx)
    else if argument.Some? && word == "set" then
      var (key, value) := Split(argument.value);
      if value == None then [] else SetEntries(p, config, objects, key, n, current, tx)
    else if argument.Some? && word == "inspect" then
      Gate(p, argument.value, "inspect", "shell", argument.value, "inspect", "query", n, current, tx)
    else if argument.Some? && word == "expand" then
      Gate(p, argument.value, "expand", "shell", argument.value, "expand", "query", n, current, tx)
    else if argument.Some? && word == "history" then
      Gate(p, argument.value, "history", "shell", argument.value, "history", "query", n, current, tx)
    else if argument.Some? && word == "why" then
      var asked := if "tx " <= argument.value then about else argument.value;
      Gate(p, asked, "why", "shell", asked, "why", "query", n, current, tx)
    else [Entry("shell", word, "command", Denied, "deny:unknown-command", "action", event, tx)]
  }

  /** When it succeeds. */
  predicate WordSucceeds(p: P.Rules, config: Config, word: string, argument: Option<string>, about: string) {
    if word in {"help", "time", "events", "meminfo", "ls"} then true
    else if word == "clear" then P.Decide(p, "shell", "window", "ui:clear").allowed
    else if word == "window" then P.Decide(p, "shell", "window", "ui:redraw").allowed
    else if word == "policy" then
      (match ParseRequest(argument)
       case Malformed => false
       case Show => P.Decide(p, "shell", BASE, "policy:show").allowed
       case Change(_, _, _, _) => P.Decide(p, "shell", BASE, "policy:change").allowed && |p.list| < 64)
    else if argument == None then false
    else if word == "cat" || word == "run" then true
    else if word == "get" then
      P.Decide(p, "shell", argument.value, "config:get").allowed && argument.value in config
    else if word == "set" then
      var (key, value) := Split(argument.value);
      value.Some? && P.Decide(p, "shell", key, "config:set").allowed && key in config
    else if word in {"inspect", "expand", "history"} then P.Decide(p, "shell", argument.value, word).allowed
    else if word == "why" then
      P.Decide(p, "shell", if "tx " <= argument.value then about else argument.value, "why").allowed
    else false
  }

  lemma SucceedsByWord(k: Kernel, word: string, argument: Option<string>, about: string, demo: Demo)
    requires word != "userdemo"
    ensures Succeeds(k, DispatchWords(word, argument, about, demo)) <==>
            WordSucceeds(k.p, k.config, word, argument, about)
  {
    hide P.Decide, Split, ParseRequest;
  }

  lemma ScriptLeaves(k: Kernel, s: Script)
    requires !s.UserDemo?
    ensures Leaves(k.l, DoAllWork(k, ScriptWork(k, s)).l,
                   match s
                   case Silent => []
                   case Meminfo =>
                     Gate(k.p, "memory", "memory:inspect", "memory", "memory", "inspect", "state", |k.l.log|,
                          k.l.current, k.l.tx)
                   case List =>
                     Gate(k.p, "ramfs", "filesystem:list", "ramfs", "ramfs", "list", "state", |k.l.log|, k.l.current,
                          k.l.tx)
                   case Read(path) => CatEntries(k.p, path, |k.l.log|, k.l.current, k.l.tx)
                   case Module(path) => RunEntries(k.p, path, |k.l.log|, k.l.current, k.l.tx)
                   case UserDemo(_) => [])
  {
    ScriptIsRun(k, s);
    hide Leaves, Gate, CatEntries, RunEntries, DoAllWork, ScriptWork, ReadFile, RunModule, Check, Note;
    match s
    case Silent => LeavesNothing(k.l, k.l);
    case Meminfo => GateLeaves(k, "memory", "memory:inspect", "memory", "memory", "inspect", "state");
    case List => GateLeaves(k, "ramfs", "filesystem:list", "ramfs", "ramfs", "list", "state");
    case Read(path) => CatLeaves(k, path);
    case Module(path) => RunLeaves(k, path);
  }

  lemma ScriptByWord(k: Kernel, word: string, argument: Option<string>, about: string, demo: Demo, event: nat)
    requires word != "userdemo" && DispatchWords(word, argument, about, demo).ScriptCommand?
    ensures Leaves(k.l, Body(k, DispatchWords(word, argument, about, demo), event).0.l,
                   WordEntries(k.p, k.config, k.l.objects, word, argument, about, |k.l.log|, k.l.current, k.l.tx,
                               event))
  {
    hide Leaves, Gate, CatEntries, RunEntries, GetEntries, SetEntries, PolicyEntries, DoAllWork, ScriptWork, Split;
    ScriptLeaves(k, DispatchWords(word, argument, about, demo).script);
  }

  lemma GateByWord(k: Kernel, word: string, argument: Option<string>, about: string, demo: Demo, event: nat)
    requires DispatchWords(word, argument, about, demo).GatedCommand?
    ensures Leaves(k.l, Body(k, DispatchWords(word, argument, about, demo), event).0.l,
                   WordEntries(k.p, k.config, k.l.objects, word, argument, about, |k.l.log|, k.l.current, k.l.tx,
                               event))
  {
    hide Leaves, Gate, CatEntries, RunEntries, GetEntries, SetEntries, PolicyEntries, Check, Note, Split;
    var c := DispatchWords(word, argument, about, demo);
    GateLeaves(k, c.target, c.gate, "shell", c.target, c.verb, if c.query then "query" else "state");
  }

  lemma OtherByWord(k: Kernel, word: string, argument: Option<string>, about: string, demo: Demo, event: nat)
    requires forall key :: key in k.config ==> !AllDigits(key)
    requires var c := DispatchWords(word, argument, about, demo); !c.ScriptCommand? && !c.GatedCommand?
    ensures Leaves(k.l, Body(k, DispatchWords(word, argument, about, demo), event).0.l,
                   WordEntries(k.p, k.config, k.l.objects, word, argument, about, |k.l.log|, k.l.current, k.l.tx,
                               event))
  {
    hide Leaves, Gate, CatEntries, RunEntries, GetEntries, SetEntries, PolicyEntries, SetConfig, ShowConfig, RunPolicy,
         Note, AllDigits, Split;
    match DispatchWords(word, argument, about, demo)
    case SetCommand(a) => SetLeaves(k, a);
    case GetCommand(key) => GetLeaves(k, key);
    case PolicyCommand(request) => PolicyLeaves(k, request);
    case UnknownCommand(w) =>
      NoteLeaves(k, "shell", word, "command", Denied, event, "deny:unknown-command", "action");
  }

  lemma BodyLeaves(k: Kernel, word: string, argument: Option<string>, about: string, demo: Demo, event: nat)
    requires word != "userdemo" && forall key :: key in k.config ==> !AllDigits(key)
    ensures Leaves(k.l, Body(k, DispatchWords(word, argument, about, demo), event).0.l,
                   WordEntries(k.p, k.config, k.l.objects, word, argument, about, |k.l.log|, k.l.current, k.l.tx,
                               event))
  {
    hide Leaves, WordEntries, Body, DispatchWords, AllDigits;
    var c := DispatchWords(word, argument, about, demo);
    if c.ScriptCommand? {
      ScriptByWord(k, word, argument, about, demo, event);
    } else if c.GatedCommand? {
      GateByWord(k, word, argument, about, demo, event);
    } else {
      OtherByWord(k, word, argument, about, demo, event);
    }
  }
}
