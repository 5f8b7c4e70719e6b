/** The handlers of the shell (kernel/main.c), the system calls (kernel/user.c), the configuration
    (kernel/config.c) and the policy gate in front of them, over the journal. */
module Kernel {
  import opened Text
  import opened EventRing
  import opened Ledger
  import P = Policy

  const POLICY_OBJECT := "policy/base.policy"

  type Config = map<string, string>

  const THEME := "/config/theme"
  const PROMPT := "/config/prompt"

  datatype Kernel = Kernel(l: Ledger, p: P.Rules, config: Config)

  // ---------------------------------------------------------------- policy

  datatype Checked = Checked(k: Kernel, allowed: bool, event: nat, reason: string)

  /** policy_check decides and records its decision, caused by the current event. */
  function Check(k: Kernel, actor: string, target: string, operation: string): Checked {
    var v := P.Decide(k.p, actor, target, operation);
    Checked(k.(l := Record(k.l, actor, target, "policy_check", if v.allowed then Ok else Denied, k.l.current,
                           v.reason, "policy")),
            v.allowed, NextSequence(k.l), v.reason)
  }

  /** Kinds of events that their callers may use. */
  predicate PlainKind(kind: string) { Cut(kind, KIND) != "transaction" }

  lemma PlainKinds()
    ensures PlainKind("policy") && PlainKind("state") && PlainKind("query") && PlainKind("syscall")
    ensures PlainKind("command") && PlainKind("action") && PlainKind("fault")
  {
  }

  function CapabilityName(subject: string, operation: string, object_: string): string {
    Cut("capability/" + subject + "/" + operation + "/" + object_, P.FIELD)
  }

  function CapabilityState(allow: bool, number: nat, revision: nat): string {
    Cut((if allow then "allow rule " else "deny rule ") + Decimal(number) + " rev " + Decimal(revision), P.FIELD)
  }

  function RegisterCapability(l: Ledger, r: P.Rule, revision: nat, parentId: nat): Ledger {
    Register(l, "capability", CapabilityName(r.subject, r.operation, r.object_), parentId,
             CapabilityState(r.allow, r.number, revision), l.current).0
  }

  /** policy_change_rule with the objects and events it leaves. */
  function ChangePolicy(k: Kernel, allow: bool, subject: string, operation: string, object_: string): (Kernel, bool) {
    var (p', ok) := P.ChangeRule(k.p, allow, subject, operation, object_);
    var verb := if allow then "allow" else "deny";
    if !ok then
      (k.(l := Record(k.l, "policy", POLICY_OBJECT, verb, Denied, k.l.current, "deny:policy-full", "state")), false)
    else
      var r := p'.list[|k.p.list|];
      var l1 := RegisterCapability(k.l, r, p'.revision, ObjectId(k.l.objects, POLICY_OBJECT));
      var reason := P.Reason(true, if allow then "policy:allow" else "policy:deny", p'.revision, r.number);
      var l2 := Record(l1, "policy", POLICY_OBJECT, verb, Ok, l1.current, reason, "state");
      (k.(l := UpdateState(l2, POLICY_OBJECT, if allow then "allow-added" else "deny-added"), p := p'), true)
  }

  // ---------------------------------------------------------------- configuration

  /** config_set */
  function SetKey(k: Kernel, key: string, value: string): (Kernel, bool) {
    if key !in k.config then
      (k.(l := Record(k.l, "config", key, "set", Denied, k.l.current, "deny:unknown-config-key", "state")), false)
    else
      (k.(l := UpdateState(k.l, key, Cut(value, LABEL)), config := k.config[key := Cut(value, LABEL)]), true)
  }

  // ---------------------------------------------------------------- command lines

  /** The length of the text before the first space. */
  function WordLength(s: string): (n: nat)
    ensures n <= |s|
  {
    if s == "" || s[0] == ' ' then 0 else 1 + WordLength(s[1..])
  }

  lemma {:induction false} WordLengthIs(s: string, n: nat)
    requires n <= |s| && (forall i :: 0 <= i < n ==> s[i] != ' ') && (n < |s| ==> s[n] == ' ')
    ensures WordLength(s) == n
  {
    if n > 0 {
      WordLengthIs(s[1..], n - 1);
    }
  }

  function SkipSpaces(s: string): string {
    if s != "" && s[0] == ' ' then SkipSpaces(s[1..]) else s
  }

  /** split_command: the first word, and the rest of the line when there is any. */
  function Split(line: string): (string, Option<string>) {
    var n := WordLength(line);
    var rest := SkipSpaces(line[n..]);
    (line[..n], if rest == "" then None else Some(rest))
  }

  /** A line of one word, and a line of a word, a space and an argument. */
  lemma SplitWords(word: string, argument: string)
    requires (forall i :: 0 <= i < |word| ==> word[i] != ' ')
    requires argument != "" && argument[0] != ' '
    ensures Split(word) == (word, None)
    ensures Split(word + " " + argument) == (word, Some(argument))
  {
    WordLengthIs(word, |word|);
    assert word[..|word|] == word && word[|word|..] == "";
    var line := word + " " + argument;
    assert line[|word|] == ' ';
    WordLengthIs(line, |word|);
    var rest := line[|word|..];
    assert line[..|word|] == word && rest[0] == ' ' && rest[1..] == argument;
    assert SkipSpaces(rest) == SkipSpaces(argument) == argument;
  }

  function Spaces(n: nat): (s: string)
    ensures |s| == n && forall i :: 0 <= i < n ==> s[i] == ' '
  {
    seq(n, _ => ' ')
  }

  lemma {:induction false} SkipsSpaces(n: nat, rest: string)
    requires rest == "" || rest[0] != ' '
    ensures SkipSpaces(Spaces(n) + rest) == rest
    decreases n
  {
    var s := Spaces(n) + rest;
    if n == 0 {
      assert s == rest;
    } else {
      assert s[0] == ' ' && s[1..] == Spaces(n - 1) + rest;
      SkipsSpaces(n - 1, rest);
    }
  }

  /** A line splits at its first space: a word without spaces, some spaces, and the rest if there is any ... */
  lemma SplitIs(word: string, n: nat, rest: string)
    requires ' ' !in word && (rest == "" || (n >= 1 && rest[0] != ' '))
    ensures Split(word + Spaces(n) + rest) == (word, if rest == "" then None else Some(rest))
  {
    var line := word + Spaces(n) + rest;
    WordLengthIs(line, |word|);
    assert line[..|word|] == word && line[|word|..] == Spaces(n) + rest;
    SkipsSpaces(n, rest);
  }

  lemma {:induction false} SkippedAll(s: string) returns (n: nat)
    ensures s == Spaces(n) + SkipSpaces(s) && (SkipSpaces(s) == "" || SkipSpaces(s)[0] != ' ')
    decreases |s|
  {
    if s != "" && s[0] == ' ' {
      n := SkippedAll(s[1..]);
      n := n + 1;
      assert Spaces(n) + SkipSpaces(s) == [' '] + (Spaces(n - 1) + SkipSpaces(s));
      assert s == [' '] + s[1..];
    } else {
      n := 0;
      assert Spaces(0) + s == s;
    }
  }

  lemma {:induction false} WordHasNoSpace(s: string)
    ensures ' ' !in s[..WordLength(s)] && (WordLength(s) < |s| ==> s[WordLength(s)] == ' ')
    decreases |s|
  {
    if s != "" && s[0] != ' ' {
      WordHasNoSpace(s[1..]);
      assert s[..WordLength(s)] == [s[0]] + s[1..][..WordLength(s[1..])];
    }
  }

  /** ... and every line is one of these. */
  lemma SplitMeans(line: string) returns (n: nat)
    ensures var (word, rest) := Split(line);
            && ' ' !in word
            && line == word + Spaces(n) + (if rest.Some? then rest.value else "")
            && (rest.Some? ==> n >= 1 && rest.value != "" && rest.value[0] != ' ')
  {
    hide WordLength, SkipSpaces;
    var w := WordLength(line);
    WordHasNoSpace(line);
    n := SkippedAll(line[w..]);
    assert line == line[..w] + line[w..];
  }

  // ---------------------------------------------------------------- the handlers

  /** The journal with another current event. */
  function At(k: Kernel, event: nat): Kernel { k.(l := k.l.(current := event)) }

  function Note(k: Kernel, actor: string, target: string, operation: string, result: EventResult,
                parent: nat, decision: string, kind: string): Kernel {
    k.(l := Record(k.l, actor, target, operation, result, parent, decision, kind))
  }

  /** show_config */
  function ShowConfig(k: Kernel, key: string): (Kernel, bool) {
    var c := Check(k, "shell", key, "config:get");
    if !c.allowed then (c.k, false)
    else if key !in k.config then
      (Note(c.k, "config", key, "get", Denied, c.event, "deny:unknown-config-key", "state"), false)
    else (Note(c.k, "config", key, "get", Ok, c.event, c.reason, "state"), true)
  }

  /** set_config */
  function SetConfig(k: Kernel, argument: string): (Kernel, bool) {
    var (key, value) := Split(argument);
    if value == None then (k, false)
    else
      var c := Check(k, "shell", key, "config:set");
      if !c.allowed then (c.k, false)
      else
        var (k1, ok) := SetKey(At(c.k, c.event), key, value.value);
        var k2 := At(k1, k.l.current);
        if !ok then (k2, false) else (Note(k2, "config", key, "set", Ok, c.event, c.reason, "state"), true)
  }

  datatype Request = Show | Change(allow: bool, subject: string, operation: string, object_: string) | Malformed

  /** The argument of the policy command, split in place. */
  function ParseRequest(argument: Option<string>): Request {
    if argument == None then Malformed
    else
      var (verb, rest) := Split(argument.value);
      if verb == "show" then Show
      else if (verb != "allow" && verb != "deny") || rest == None then Malformed
      else
        var (subject, rest2) := Split(rest.value);
        if rest2 == None then Malformed
        else
          var (operation, rest3) := Split(rest2.value);
          if rest3 == None then Malformed else Change(verb == "allow", subject, operation, rest3.value)
  }

  /** A line's first word. */
  lemma FirstWord(line: string, word: string)
    requires ' ' !in word
    ensures Split(line).0 == word <==> line == word || word + " " <= line
  {
    hide SkipSpaces;
    if line == word {
      WordLengthIs(line, |word|);
      assert line[..|word|] == word;
    } else if word + " " <= line {
      assert forall i :: 0 <= i < |word| ==> line[i] == word[i];
      assert line[|word|] == ' ';
      WordLengthIs(line, |word|);
      assert line[..|word|] == word;
    } else if Split(line).0 == word {
      WordHasNoSpace(line);
    }
  }

  /** What the policy command is asked, by the first word of its argument. */
  lemma RequestVerb(argument: string)
    ensures ParseRequest(Some(argument)) == Show <==> argument == "show" || "show " <= argument
    ensures var r := ParseRequest(Some(argument)); r.Change? ==> (if r.allow then "allow " else "deny ") <= argument
    ensures ParseRequest(None) == Malformed
  {
    FirstWord(argument, "show");
    FirstWord(argument, "allow");
    FirstWord(argument, "deny");
    NoArgument("allow");
    NoArgument("deny");
    assert "show" + " " == "show " && "allow" + " " == "allow " && "deny" + " " == "deny ";
    hide Split;
  }

  lemma NoArgument(word: string)
    requires ' ' !in word
    ensures Split(word).1 == None
  {
    SplitIs(word, 0, "");
    assert word + Spaces(0) + "" == word;
  }

  function ShowPolicy(k: Kernel): (Kernel, bool) {
    var c := Check(k, "shell", POLICY_OBJECT, "policy:show");
    if !c.allowed then (c.k, false)
    else (Note(c.k, "shell", POLICY_OBJECT, "policy_show", Ok, c.event, c.reason, "query"), true)
  }

  function ChangeByCommand(k: Kernel, allow: bool, subject: string, operation: string, object_: string)
    : (Kernel, bool)
  {
    var c := Check(k, "shell", POLICY_OBJECT, "policy:change");
    if !c.allowed then (c.k, false)
    else
      var (k1, ok) := ChangePolicy(At(c.k, c.event), allow, subject, operation, object_);
      (At(k1, k.l.current), ok)
  }

  /** run_policy_command */
  function RunPolicy(k: Kernel, argument: Option<string>): (Kernel, bool) {
    match ParseRequest(argument)
    case Malformed => (k, false)
    case Show => ShowPolicy(k)
    case Change(allow, subject, operation, object_) => ChangeByCommand(k, allow, subject, operation, object_)
  }

  // ---------------------------------------------------------------- system calls

  /** syscall_begin */
  function SyscallBegin(k: Kernel, thread: string, target: string): (Kernel, nat) {
    var (l', id) := Begin(k.l, thread, target, k.l.current);
    (k.(l := l'.(tx := id, current := if id == 0 then k.l.current else id)), id)
  }

  /** syscall_finish: the current transaction becomes none, whatever it was before the call. */
  function SyscallFinish(k: Kernel, id: nat, ok: bool): Kernel {
    var l' := if id == 0 then k.l else if ok then Commit(k.l, id).0 else Abort(k.l, id, "deny:syscall").0;
    k.(l := l'.(tx := 0))
  }

  datatype Call = Inspect | Yield | ConfigGet | ConfigSet | Unknown

  function CallOf(number: nat): Call {
    if number == 1 then Inspect else if number == 2 then Yield else if number == 3 then ConfigGet
    else if number == 4 then ConfigSet else Unknown
  }

  function Operation(call: Call): string {
    match call
    case Inspect => "syscall:inspect"
    case Yield => "syscall:yield"
    case ConfigGet => "syscall:config_get"
    case _ => "syscall:config_set"
  }

  /** What a call is about: yield is about the thread itself, an unknown call about the kernel. */
  function CallTarget(call: Call, thread: string, target: string): string {
    match call case Yield => thread case Unknown => "kernel" case _ => target
  }

  /** The events of an allowed call, after its policy check. */
  function CallEvents(k: Kernel, call: Call, thread: string, target: string, event: nat, reason: string)
    : (Kernel, bool)
  {
    match call
    case Inspect => (Note(k, thread, target, "inspect", Ok, event, reason, "syscall"), true)
    case Yield =>
      var k1 := Note(k, thread, "scheduler", "yield", Ok, event, reason, "syscall");
      (Note(k1, "scheduler", thread, "schedule", Ok, event, reason, "state"), true)
    case ConfigGet =>
      if target !in k.config then
        (Note(k, thread, target, "config_get", Denied, event, "deny:unknown-config-key", "syscall"), false)
      else (Note(k, thread, target, "config_get", Ok, event, reason, "syscall"), true)
    case _ => (Note(k, thread, target, "config_set", Ok, event, reason, "syscall"), true)
  }

  function CallBody(k: Kernel, call: Call, thread: string, target: string): (Kernel, bool) {
    if call == Unknown then
      (Note(k, thread, "kernel", "unknown_syscall", Denied, k.l.current, "deny:unknown-syscall", "syscall"), false)
    else
      var c := Check(k, thread, target, Operation(call));
      if !c.allowed then (c.k, false) else CallEvents(c.k, call, thread, target, c.event, c.reason)
  }

  /** One system call between syscall_begin and syscall_finish. */
  function Syscall(k: Kernel, call: Call, thread: string, target: string): (Kernel, nat, bool) {
    var about := CallTarget(call, thread, target);
    var (k1, id) := SyscallBegin(k, thread, about);
    var (k2, ok) := CallBody(k1, call, thread, about);
    (SyscallFinish(k2, id, ok), id, ok)
  }

  const USER_CODE := 0x400000
  const USER_PAGE := 4096
  const NAME := 47                    // USER_NAME_SIZE - 1

  /** The code page of a process, as copy_user_string reads it. */
  type Page = p: seq<char> | |p| == USER_PAGE witness seq(USER_PAGE, _ => '\0')

  /** copy_user_string: the text at a user address, when it starts in the code page and ends there within
      the 48-byte buffer. */
  function UserString(page: Page, address: nat): Option<string> {
    if address < USER_CODE || address >= USER_CODE + USER_PAGE then None
    else
      var text := TextFrom(page, address - USER_CODE);
      if |text| < NAME && NulAt(page, address - USER_CODE) < USER_PAGE then Some(text) else None
  }

  /** What the caller names: only inspect, config_get and config_set take a string. */
  function TrapTarget(number: nat, page: Page, address: nat): string {
    if number == 1 || number == 3 || number == 4 then
      match UserString(page, address) case None => "kernel" case Some(text) => text
    else "kernel"
  }

  function ThreadName(pid: nat): string { Cut("thread/" + Decimal(pid), NAME) }

  function SpaceName(pid: nat): string { Cut("address_space/" + Decimal(pid), NAME) }

  /** user_syscall_trap for an active process: `ring3` is whether the caller's CS says so, `address` its
      first argument. */
  function Trap(k: Kernel, number: nat, ring3: bool, pid: nat, page: Page, address: nat): (Kernel, nat, bool) {
    var k2 := EnterTrap(k, ring3, ThreadName(pid));
    var (k3, id, ok) := Syscall(k2, CallOf(number), ThreadName(pid), TrapTarget(number, page, address));
    (Note(k3, ThreadName(pid), SpaceName(pid), "switch_cr3", Ok, k3.l.current, "allow:syscall-user-cr3", "action"),
     id, ok)
  }

  function EnterTrap(k: Kernel, ring3: bool, thread: string): Kernel {
    var k1 := Note(k, thread, "kernel", "cpl3_trap", if ring3 then Ok else Denied, k.l.current,
                   if ring3 then "allow:cpl3" else "deny:not-cpl3", "syscall");
    Note(k1, thread, "kernel", "switch_cr3", Ok, k1.l.current, "allow:syscall-kernel-cr3", "action")
  }

  // ---------------------------------------------------------------- scripts

  /** One step of a command that only records events, registers objects and makes system calls. */
  datatype Work =
    | Plain(op: Op)
    | Noted(actor: string, target: string, operation: string, result: EventResult, decision: string, kind: string)
    | Registered(kind: string, name: string, parent: string, state: string)
    | Called(number: nat, ring3: bool, pid: nat, page: Page, address: nat)

  /** A noted event is caused by the current one; an object is registered under the one named `parent`. */
  function DoWork(k: Kernel, w: Work): Kernel {
    match w
    case Plain(op) => k.(l := Apply(k.l, op))
    case Noted(actor, target, operation, result, decision, kind) =>
      Note(k, actor, target, operation, result, k.l.current, decision, kind)
    case Registered(kind, name, parent, state) =>
      k.(l := Register(k.l, kind, name, ObjectId(k.l.objects, parent), state, k.l.current).0)
    case Called(number, ring3, pid, page, address) => Trap(k, number, ring3, pid, page, address).0
  }

  function DoAllWork(k: Kernel, work: seq<Work>): Kernel
    decreases |work|
  {
    if work == [] then k else DoAllWork(DoWork(k, work[0]), work[1..])
  }

  lemma {:induction false} DoAllAppend(k: Kernel, a: seq<Work>, b: seq<Work>)
    ensures DoAllWork(k, a + b) == DoAllWork(DoAllWork(k, a), b)
    decreases |a|
  {
    hide DoWork;
    if a == [] {
      assert a + b == b;
    } else {
      assert (a + b)[1..] == a[1..] + b;
      DoAllAppend(DoWork(k, a[0]), a[1..], b);
    }
  }

  /** policy_check as a step. */
  function CheckWork(k: Kernel, actor: string, target: string, operation: string): Work {
    var v := P.Decide(k.p, actor, target, operation);
    Plain(RecordOp(actor, target, "policy_check", if v.allowed then Ok else Denied, k.l.current, v.reason, "policy"))
  }
}
