/** The shell and the system calls as they run: the line is cut in place in its buffer, names are built in
    48-byte buffers, and values are copied into theirs. */
module Shell {
  import opened Text
  import opened EventRing
  import opened Ledger
  import opened Kernel
  import opened Commands
  import opened Closure
  import opened Prompts
  import opened CommandLine
  import opened ScriptRuns
  import C = ConfigStore
  import J = Journal
  import P = Policy
  import R = RamFs
  import S = PolicyStore
  import T = PolicyText

  class Shell {
    const journal: J.Journal
    const store: S.Store
    const config: C.ConfigStore
    ghost var loaded: P.Rules         // the policy as it was loaded
    ghost var added: nat              // how many rules have been added since

    ghost predicate Valid()
      reads this, journal, journal.ring, journal.ring.entries, store, config, config.theme, config.prompt
    {
      journal.Valid() && config.Valid() && P.Grown(loaded, store.State(), added)
    }

    ghost function State(): Kernel
      reads this, journal, journal.ring, store, config, config.theme, config.prompt
    {
      Kernel(journal.State(), store.State(), config.Entries())
    }

    constructor (journal: J.Journal, store: S.Store, config: C.ConfigStore)
      requires journal.Valid() && config.Valid() && P.WellFormed(store.State())
      ensures Valid() && this.journal == journal && this.store == store && this.config == config
      ensures State() == Kernel(journal.State(), store.State(), config.Entries())
    {
      this.journal, this.store, this.config := journal, store, config;
      loaded, added := store.State(), 0;
    }

    method NoteEvent(actor: string, target: string, operation: string, result: EventResult,
                     parent: nat, decision: string, kind: string)
      requires Valid()
      modifies journal, journal.ring, journal.ring.entries
      ensures Valid()
      ensures State() == Note(old(State()), actor, target, operation, result, parent, decision, kind)
    {
      hide Record, P.Grown, NulAt;
      var _ := journal.RecordEvent(actor, target, operation, result, parent, decision, kind);
    }

    method SetCurrent(event: nat)
      requires Valid()
      modifies journal`current
      ensures Valid() && State() == At(old(State()), event)
    {
      journal.current := event;
    }

    /** policy_check: the rules are searched, and the decision recorded under the current event. */
    method PolicyCheck(actor: string, target: string, operation: string)
      returns (allowed: bool, event: nat, reason: string)
      requires Valid()
      modifies journal, journal.ring, journal.ring.entries
      ensures Valid()
      ensures Checked(State(), allowed, event, reason) == Check(old(State()), actor, target, operation)
    {
      SmallNumbers(loaded, store.State(), added);
      hide Record, P.Decide, P.Grown, NulAt;
      var v := store.Check(actor, target, operation);
      allowed, reason := v.allowed, v.reason;
      event := journal.RecordEvent(actor, target, "policy_check", if allowed then Ok else Denied, journal.current,
                                   reason, "policy");
    }

    // -------------------------------------------------------------- configuration

    /** config_set: the value goes to the key's buffer and from there to its object. */
    method SetValue(key: string, value: string) returns (ok: bool)
      requires Valid() && '\0' !in value
      modifies config.theme, config.prompt, journal, journal.ring, journal.ring.entries
      ensures Valid()
      ensures (State(), ok) == SetKey(old(State()), key, value)
    {
      hide Record, UpdateState, Cut, P.Grown, NulAt, TextFrom;
      var stored := config.Store(key, value);
      if stored == None {
        var _ := journal.RecordEvent("config", key, "set", Denied, journal.current, "deny:unknown-config-key", "state");
        return false;
      }
      journal.UpdateObject(key, stored.value);
      return true;
    }

    /** show_config */
    method Show(key: string) returns (ok: bool)
      requires Valid()
      modifies journal, journal.ring, journal.ring.entries
      ensures Valid()
      ensures (State(), ok) == ShowConfig(old(State()), key)
    {
      hide Check, Note, P.Grown, NulAt, TextFrom;
      var allowed, event, reason := PolicyCheck("shell", key, "config:get");
      if !allowed {
        return false;
      }
      var value := config.Get(key);
      if value == None {
        NoteEvent("config", key, "get", Denied, event, "deny:unknown-config-key", "state");
        return false;
      }
      NoteEvent("config", key, "get", Ok, event, reason, "state");
      return true;
    }

    /** set_config: the argument is cut in place into key and value. */
    method SetFromLine(line: array<char>, argument: nat) returns (ok: bool)
      requires Valid() && Ends(line[..], argument)
      requires line != config.theme && line != config.prompt
      modifies line, config.theme, config.prompt, journal, journal.ring, journal.ring.entries
      ensures Valid()
      ensures (State(), ok) == SetConfig(old(State()), old(TextFrom(line[..], argument)))
    {
      hide Check, Note, SetKey, Split, P.Grown, NulAt, TextFrom;
      var value := SplitCommand(line, argument);
      var key := TextFrom(line[..], argument);
      if value == None {
        return false;
      }
      var text := TextFrom(line[..], value.value);
      var previous := journal.current;
      var allowed, event, reason := PolicyCheck("shell", key, "config:set");
      if !allowed {
        return false;
      }
      SetCurrent(event);
      ok := SetValue(key, text);
      SetCurrent(previous);
      if ok {
        NoteEvent("config", key, "set", Ok, event, reason, "state");
      }
    }

    // -------------------------------------------------------------- policy

    /** policy_change_rule: the rule, its capability object, whose name and state are built in their
        buffers, and the events. */
    method ChangeRule(allow: bool, subject: string, operation: string, object_: string) returns (ok: bool)
      requires Valid()
      modifies this`added, store, journal, journal.ring, journal.ring.entries
      ensures Valid()
      ensures (State(), ok) == ChangePolicy(old(State()), allow, subject, operation, object_)
    {
      hide Record, UpdateState, Register, P.Reason, P.Grown, CapabilityName, CapabilityState, ObjectId, Cut,
           P.DecidesItsOwn, NulAt, TextFrom;
      var verb := if allow then "allow" else "deny";
      ok := store.Change(allow, subject, operation, object_, loaded, added);
      if !ok {
        var _ := journal.RecordEvent("policy", POLICY_OBJECT, verb, Denied, journal.current, "deny:policy-full",
                                     "state");
        return;
      }
      added := added + 1;
      SmallNumbers(loaded, store.State(), added);
      var r := store.rules[|store.rules| - 1];
      var name := BuildCapabilityName(r.subject, r.operation, r.object_);
      var state := BuildCapabilityState(r.allow, r.number, store.revision);
      var parent := journal.IdOf(POLICY_OBJECT);
      var _ := journal.RegisterObject("capability", name, parent, state, journal.current);
      var reason := store.FormatDecision(true, if allow then "policy:allow" else "policy:deny", r.number);
      var _ := journal.RecordEvent("policy", POLICY_OBJECT, verb, Ok, journal.current, reason, "state");
      journal.UpdateObject(POLICY_OBJECT, if allow then "allow-added" else "deny-added");
    }

    /** run_policy_command: the argument is cut in place into verb, subject, operation and object. */
    method PolicyFromLine(line: array<char>, argument: Option<nat>) returns (ok: bool)
      requires Valid() && EndsAt(line[..], argument)
      requires line != config.theme && line != config.prompt
      modifies line, this`added, store, journal, journal.ring, journal.ring.entries
      ensures Valid()
      ensures (State(), ok) == RunPolicy(old(State()), old(TextAt(line[..], argument)))
    {
      hide Check, Note, ChangePolicy, ParseRequest, P.Grown, NulAt, TextFrom;
      var request := SplitRequest(line, argument);
      match request
      case Malformed => return false;
      case Show => ok := RunGated(POLICY_OBJECT, "policy:show", "policy_show", true);
      case Change(allow, subject, operation, object_) =>
        var previous := journal.current;
        var allowed, event, reason := PolicyCheck("shell", POLICY_OBJECT, "policy:change");
        if !allowed {
          return false;
        }
        SetCurrent(event);
        ok := ChangeRule(allow, subject, operation, object_);
        SetCurrent(previous);
    }

    method RunGated(target: string, gate: string, verb: string, query: bool) returns (ok: bool)
      requires Valid()
      modifies journal, journal.ring, journal.ring.entries
      ensures Valid()
      ensures (State(), ok) == PassGate(old(State()), target, gate, verb, query)
    {
      hide Check, Note, P.Grown, NulAt, TextFrom;
      var allowed, event, reason := PolicyCheck("shell", target, gate);
      if allowed {
        NoteEvent("shell", target, verb, Ok, event, reason, if query then "query" else "state");
      }
      return allowed;
    }

    // -------------------------------------------------------------- meminfo, ls, cat and run

    /** show_meminfo and list_files, without what they print. */
    method ShowChecked(target: string, gate: string, verb: string)
      requires Valid()
      modifies journal, journal.ring, journal.ring.entries
      ensures Valid()
      ensures State() == CheckedNote(old(State()), target, gate, verb)
    {
      hide Check, Note, P.Grown, NulAt, TextFrom;
      var allowed, event, reason := PolicyCheck("shell", target, gate);
      if allowed {
        NoteEvent(target, target, verb, Ok, event, reason, "state");
      }
    }

    method LookUp(path: string, event: nat) returns (file: Option<R.File>)
      requires Valid()
      modifies journal, journal.ring, journal.ring.entries
      ensures Valid()
      ensures State() == LookedUp(old(State()), path, event) && file == R.Lookup(path)
    {
      hide Note, P.Grown, NulAt, TextFrom, R.Lookup;
      var previous := journal.current;
      SetCurrent(event);
      file := R.Find(path);
      NoteEvent("ramfs", path, "lookup", if file.Some? then Ok else Denied, event,
                if file.Some? then "allow:filesystem:lookup" else "deny:not-found", "state");
      SetCurrent(previous);
    }

    method PrintFile(path: string)
      requires Valid()
      modifies journal, journal.ring, journal.ring.entries
      ensures Valid()
      ensures State() == ReadFile(old(State()), path)
    {
      hide Check, Note, LookedUp, P.Grown, NulAt, TextFrom, R.Lookup;
      var allowed, event, reason := PolicyCheck("shell", path, "filesystem:read");
      if !allowed {
        return;
      }
      var file := LookUp(path, event);
      if file.Some? {
        NoteEvent("ramfs", path, "read", Ok, event, reason, "state");
      }
    }

    method OpenFile(path: string) returns (text: string)
      requires Valid()
      modifies journal, journal.ring, journal.ring.entries
      ensures Valid()
      ensures (State(), text) == OpenModule(old(State()), path)
      ensures |text| < R.MODULE_BUFFER && '\0' !in text
    {
      hide Check, Note, LookedUp, P.Grown, NulAt, TextFrom, R.Lookup;
      text := "";
      var allowed, event, reason := PolicyCheck("shell", path, "module:load");
      if !allowed {
        return;
      }
      var file := LookUp(path, event);
      if file == None {
        return;
      }
      if file.value.kind != R.ModuleFile {
        NoteEvent("ramfs", path, "type_check", Denied, event, "deny:not-module", "policy");
      } else if file.value.size >= R.MODULE_BUFFER {
        NoteEvent("ramfs", path, "size_check", Denied, event, "deny:too-large", "policy");
      } else {
        R.ModuleHoldsText(path);
        NoteEvent("ramfs", path, "read", Ok, event, reason, "state");
        text := file.value.text;
      }
    }

    /** execute_module_line: the other directives record nothing. */
    method RunDirective(line: string)
      requires Valid()
      modifies journal, journal.ring, journal.ring.entries
      ensures Valid()
      ensures State() ==
              if line == "meminfo" then CheckedNote(old(State()), "memory", "memory:inspect", "inspect")
              else old(State())
    {
      hide CheckedNote, P.Grown, NulAt, TextFrom;
      if line == "" || line[0] == '#' || "print " <= line {
        return;
      }
      if line == "meminfo" {
        ShowChecked("memory", "memory:inspect", "inspect");
      }
    }

    /** The loop of run_module: each line of the text in the buffer is cut off in place and run. */
    method RunBuffer(buffer: array<char>)
      requires Valid() && Ends(buffer[..], 0) && buffer != config.theme && buffer != config.prompt
      modifies buffer, journal, journal.ring, journal.ring.entries
      ensures Valid()
      ensures State() == RunLines(old(State()), old(TextFrom(buffer[..], 0)))
    {
      hide CheckedNote, P.Grown, NulAt, TextFrom, T.LineLength;
      var line := 0;
      while !AtEnd(buffer, line)
        invariant Valid() && Ends(buffer[..], line)
        invariant RunLines(State(), TextFrom(buffer[..], line)) == RunLines(old(State()), old(TextFrom(buffer[..], 0)))
        decreases buffer.Length - line
      {
        TextStarts(buffer[..], line);
        var next := CutLine(buffer, line);
        RunDirective(TextFrom(buffer[..], line));
        line := next;
      }
      TextStarts(buffer[..], line);
    }

    method RunModuleFile(path: string)
      requires Valid()
      modifies journal, journal.ring, journal.ring.entries
      ensures Valid()
      ensures State() == RunModule(old(State()), path)
    {
      hide OpenModule, RunLines, P.Grown, NulAt, TextFrom;
      var text := OpenFile(path);
      var buffer := LoadText(text);
      RunBuffer(buffer);
    }

    // -------------------------------------------------------------- brackets

    method CloseBracket(id: nat, ok: bool, reason: string)
      requires Valid() && id < U64
      modifies journal, journal.ring, journal.ring.entries
      ensures Valid()
      ensures State() == Bracketed(old(State()), id, ok, reason)
    {
      hide Close, P.Grown, NulAt, TextFrom;
      if id != 0 {
        if ok {
          var _ := journal.CloseTransaction(id, Committed, "commit", Ok, "allow:transaction", "committed");
        } else {
          var _ := journal.CloseTransaction(id, Aborted, "abort", Denied, reason, "aborted");
        }
      }
      journal.tx := 0;
    }

    method OpenBracket(actor: string, target: string, parent: nat, otherwise: nat) returns (id: nat)
      requires Valid() && journal.nextSequence < U64
      modifies journal, journal.ring, journal.ring.entries
      ensures Valid() && id < U64
      ensures var (l', n) := Begin(old(journal.State()), actor, target, parent);
              id == n && State() == old(State()).(l := l'.(tx := id, current := if id == 0 then otherwise else id))
    {
      hide Begin, P.Grown, NulAt, TextFrom, Register, Record;
      BeginId(journal.State(), actor, target, parent);
      id := journal.BeginTransaction(actor, target, parent);
      journal.tx := id;
      journal.current := if id == 0 then otherwise else id;
    }

    // -------------------------------------------------------------- system calls

    /** The four handlers and the unknown call, between syscall_begin and syscall_finish. */
    method HandleCall(call: Call, thread: string, target: string) returns (ok: bool)
      requires Valid()
      modifies journal, journal.ring, journal.ring.entries
      ensures Valid()
      ensures (State(), ok) == CallBody(old(State()), call, thread, target)
    {
      hide Check, Note, P.Grown, NulAt, TextFrom;
      if call == Unknown {
        NoteEvent(thread, "kernel", "unknown_syscall", Denied, journal.current, "deny:unknown-syscall", "syscall");
        return false;
      }
      var allowed, event, reason := PolicyCheck(thread, target, Operation(call));
      if !allowed {
        return false;
      }
      match call {
        case Inspect => NoteEvent(thread, target, "inspect", Ok, event, reason, "syscall");
        case Yield =>
          NoteEvent(thread, "scheduler", "yield", Ok, event, reason, "syscall");
          NoteEvent("scheduler", thread, "schedule", Ok, event, reason, "state");
        case ConfigGet =>
          var value := config.Get(target);
          if value == None {
            NoteEvent(thread, target, "config_get", Denied, event, "deny:unknown-config-key", "syscall");
            return false;
          }
          NoteEvent(thread, target, "config_get", Ok, event, reason, "syscall");
        case ConfigSet => NoteEvent(thread, target, "config_set", Ok, event, reason, "syscall");
      }
      return true;
    }

    method RunCall(call: Call, thread: string, target: string) returns (id: nat, ok: bool)
      requires Valid() && journal.nextSequence < U64
      modifies journal, journal.ring, journal.ring.entries
      ensures Valid()
      ensures (State(), id, ok) == Syscall(old(State()), call, thread, target)
    {
      hide Begin, CallBody, Close, P.Grown, NulAt, TextFrom;
      var about := CallTarget(call, thread, target);
      id := OpenBracket(thread, about, journal.current, journal.current);
      ok := HandleCall(call, thread, about);
      CloseBracket(id, ok, "deny:syscall");
    }

    /** The target of a call, copied out of the user page when the call takes one. */
    static method CopyTarget(number: nat, page: array<char>, address: nat) returns (target: string)
      requires page.Length == USER_PAGE
      ensures target == TrapTarget(number, page[..], address)
    {
      hide UserString;
      target := "kernel";
      if number == 1 || number == 3 || number == 4 {
        var text := CopyUserString(page, address);
        if text.Some? {
          target := text.value;
        }
      }
    }

    method EnterTrapEvents(thread: string, ring3: bool)
      requires Valid() && journal.nextSequence + 2 < U64
      modifies journal, journal.ring, journal.ring.entries
      ensures Valid() && journal.nextSequence < U64
      ensures State() == EnterTrap(old(State()), ring3, thread)
    {
      hide Record, P.Grown, NulAt, TextFrom;
      RecordLength(journal.State(), thread, "kernel", "cpl3_trap", if ring3 then Ok else Denied, journal.current,
                   if ring3 then "allow:cpl3" else "deny:not-cpl3", "syscall");
      NoteEvent(thread, "kernel", "cpl3_trap", if ring3 then Ok else Denied, journal.current,
                if ring3 then "allow:cpl3" else "deny:not-cpl3", "syscall");
      RecordLength(journal.State(), thread, "kernel", "switch_cr3", Ok, journal.current, "allow:syscall-kernel-cr3",
                   "action");
      NoteEvent(thread, "kernel", "switch_cr3", Ok, journal.current, "allow:syscall-kernel-cr3", "action");
    }

    method RunTrap(number: nat, ring3: bool, pid: nat, page: array<char>, address: nat) returns (id: nat, ok: bool)
      requires Valid() && journal.nextSequence + 2 < U64 && pid < U32 && page.Length == USER_PAGE
      modifies journal, journal.ring, journal.ring.entries
      ensures Valid()
      ensures (State(), id, ok) == Trap(old(State()), number, ring3, pid, page[..], address)
    {
      hide Syscall, EnterTrap, Note, P.Grown, NulAt, TextFrom, TrapTarget;
      var thread := BuildName("thread/", pid);
      var space := BuildName("address_space/", pid);
      var target := CopyTarget(number, page, address);
      EnterTrapEvents(thread, ring3);
      id, ok := RunCall(CallOf(number), thread, target);
      NoteEvent(thread, space, "switch_cr3", Ok, journal.current, "allow:syscall-user-cr3", "action");
    }

    /** user_syscall_trap for the process with this pid.  When the trap has returned, its transaction has been
        closed by the call's outcome, the transactions open before still are, and none is current; the call
        succeeded exactly when it was known, allowed and about a key there is. */
    method UserTrap(number: nat, userCs: nat, pid: nat, page: array<char>, address: nat, ghost open: set<nat>)
      returns (id: nat, ok: bool)
      requires Valid() && journal.nextSequence + 2 < U64 && pid < U32 && page.Length == USER_PAGE
      requires OpenExactly(journal.State(), open)
      modifies journal, journal.ring, journal.ring.entries
      ensures Valid()
      ensures (State(), id, ok) == Trap(old(State()), number, userCs % 4 == 3, pid, page[..], address)
      ensures OpenExactly(journal.State(), open) && journal.tx == 0 && Ended(journal.State(), id, ok)
      ensures id == 0 <==> |old(journal.txs)| >= TRANSACTION_CAPACITY
      ensures ok <==> TrapAccepted(old(State()), number, pid, page[..], address)
    {
      hide Trap, OpenExactly, Ended, TrapAccepted, P.Grown, NulAt;
      TrapCloses(State(), number, userCs % 4 == 3, pid, page[..], address, open);
      id, ok := RunTrap(number, userCs % 4 == 3, pid, page, address);
    }

    // -------------------------------------------------------------- the command loop

    method RunScriptCommand(script: Script)
      requires Valid() && !script.UserDemo?
      modifies journal, journal.ring, journal.ring.entries
      ensures Valid()
      ensures State() == DoAllWork(old(State()), ScriptWork(old(State()), script))
    {
      hide CheckedNote, ReadFile, RunModule, ScriptWork, DoAllWork, P.Grown, NulAt, TextFrom;
      ScriptIsRun(State(), script);
      match script
      case Silent =>
      case Meminfo => ShowChecked("memory", "memory:inspect", "inspect");
      case List => ShowChecked("ramfs", "filesystem:list", "list");
      case Read(path) => PrintFile(path);
      case Module(path) => RunModuleFile(path);
    }

    /** The dispatch of kernel_main on the line already cut, for every command but userdemo. */
    method RunBody(line: array<char>, argument: Option<nat>, about: string, commandEvent: nat, ghost demo: Demo)
      returns (ok: bool)
      requires Valid() && Ends(line[..], 0) && EndsAt(line[..], argument)
      requires line != config.theme && line != config.prompt
      requires TextFrom(line[..], 0) != "userdemo"
      modifies line, this`added, config.theme, config.prompt, store, journal, journal.ring, journal.ring.entries
      ensures Valid()
      ensures (State(), ok) ==
              Body(old(State()), old(DispatchWords(TextFrom(line[..], 0), TextAt(line[..], argument), about, demo)),
                   commandEvent)
    {
      hide SetConfig, ShowConfig, RunPolicy, PassGate, Note, P.Grown, NulAt, TextFrom, ScriptWork, DoAllWork;
      var word := TextFrom(line[..], 0);
      NoDemo(word, TextAt(line[..], argument), about, demo);
      match DispatchWords(word, TextAt(line[..], argument), about, NO_DEMO)
      case SetCommand(_) => ok := SetFromLine(line, argument.value);
      case GetCommand(key) => ok := Show(key);
      case PolicyCommand(_) => ok := PolicyFromLine(line, argument);
      case GatedCommand(target, gate, verb, query) => ok := RunGated(target, gate, verb, query);
      case ScriptCommand(script) =>
        RunScriptCommand(script);
        ok := true;
      case UnknownCommand(_) =>
        NoteEvent("shell", word, "command", Denied, commandEvent, "deny:unknown-command", "action");
        ok := false;
    }

    /** The command's event and its transaction, about a target built from the line already cut. */
    method EnterCommand(line: array<char>, argument: Option<nat>) returns (target: string, commandEvent: nat, id: nat)
      requires Valid() && journal.nextSequence + 1 < U64 && Ends(line[..], 0) && EndsAt(line[..], argument)
      modifies journal, journal.ring, journal.ring.entries
      ensures Valid() && id < U64
      ensures target == TargetOf(TextFrom(line[..], 0), TextAt(line[..], argument))
      ensures (State(), commandEvent, id) == EnterWords(old(State()), TextFrom(line[..], 0), target)
    {
      hide Record, Begin, TargetOf, P.Grown, NulAt, TextFrom;
      target := BuildTarget(line, argument);
      var word := TextFrom(line[..], 0);
      RecordLength(journal.State(), "shell", target, "command", Ok, journal.current, word, "command");
      commandEvent := journal.RecordEvent("shell", target, "command", Ok, journal.current, word, "command");
      id := OpenBracket("shell", target, commandEvent, commandEvent);
    }

    method RunLine(line: array<char>, boot: nat, ghost demo: Demo) returns (id: nat)
      requires Valid() && journal.nextSequence + 1 < U64 && Ends(line[..], 0)
      requires line != config.theme && line != config.prompt
      requires Split(TextFrom(line[..], 0)).0 != "userdemo"
      modifies line, this`added, config.theme, config.prompt, store, journal, journal.ring, journal.ring.entries
      ensures Valid()
      ensures State() == RunCommand(old(State()), old(TextFrom(line[..], 0)), demo, boot)
      ensures id == Enter(old(State()), old(TextFrom(line[..], 0))).2
    {
      hide EnterWords, Body, Bracketed, Split, TargetOf, DispatchWords, P.Grown, NulAt, TextFrom;
      var argument := SplitCommand(line, 0);
      var target, commandEvent;
      target, commandEvent, id := EnterCommand(line, argument);
      var ok := RunBody(line, argument, target, commandEvent, demo);
      CloseBracket(id, ok, "deny:transaction");
      LeaveIsBracket(old(State()), old(TextFrom(line[..], 0)), demo, boot);
      SetCurrent(boot);
    }

    /** One turn of the command loop, from prompt to prompt, on any line but a userdemo.  The
        transaction it opened has been closed exactly once, committed exactly when the command succeeded; only
        an accepted set changes a value, and only an accepted policy change adds a rule. */
    method Turn(line: array<char>, boot: nat, ghost demo: Demo) returns (id: nat)
      requires Valid() && journal.nextSequence + 1 < U64 && Ends(line[..], 0)
      requires line != config.theme && line != config.prompt
      requires Split(TextFrom(line[..], 0)).0 != "userdemo"
      requires AtPrompt(State(), boot) && boot < journal.nextSequence
      modifies line, this`added, config.theme, config.prompt, store, journal, journal.ring, journal.ring.entries
      ensures Valid()
      ensures State() == RunCommand(old(State()), old(TextFrom(line[..], 0)), demo, boot)
      ensures AtPrompt(State(), boot)
      ensures id == 0 <==> |old(journal.txs)| >= TRANSACTION_CAPACITY
      ensures var c := Dispatch(old(TextFrom(line[..], 0)), demo);
              && Ended(journal.State(), id, Succeeds(old(State()), c))
              && config.Entries() == ConfigAfter(old(State()), c)
              && store.State() == RulesAfter(old(State()), c)
    {
      hide AtPrompt, Dispatch, RunCommand, Enter, P.Grown, NulAt, TextFrom, Ended, Succeeds, ConfigAfter, RulesAfter;
      CommandReturnsToPrompt(State(), TextFrom(line[..], 0), demo, boot);
      id := RunLine(line, boot, demo);
    }
  }

  // ---------------------------------------------------------------- the module's lines in their buffer

  /** ramfs_read into the module buffer, and the NUL after it. */
  method LoadText(text: string) returns (buffer: array<char>)
    requires |text| < R.MODULE_BUFFER && '\0' !in text
    ensures fresh(buffer) && Ends(buffer[..], 0) && TextFrom(buffer[..], 0) == text
  {
    buffer := new char[R.MODULE_BUFFER];
    var i := 0;
    while i < |text|
      invariant i <= |text| && buffer[..i] == text[..i]
    {
      buffer[i] := text[i];
      i := i + 1;
    }
    buffer[i] := '\0';
    assert buffer[..i] == text;
    NulAtIs(buffer[..], 0, i);
    assert buffer[..][0..i] == buffer[..i];
  }

  predicate AtEnd(buffer: array<char>, at: nat)
    requires Ends(buffer[..], at)
    reads buffer
  {
    buffer[at] == '\0'
  }

  lemma TextStarts(s: seq<char>, at: nat)
    requires Ends(s, at)
    ensures s[at] == '\0' <==> TextFrom(s, at) == ""
  {
  }

  /** The line at `line` is cut off in place; `next` is where the text goes on. */
  method CutLine(buffer: array<char>, line: nat) returns (next: nat)
    requires Ends(buffer[..], line) && TextFrom(buffer[..], line) != ""
    modifies buffer
    ensures line < next && Ends(buffer[..], line) && Ends(buffer[..], next)
    ensures var text := old(TextFrom(buffer[..], line));
            TextFrom(buffer[..], line) == text[..T.LineLength(text)] && TextFrom(buffer[..], next) == T.AfterLine(text)
  {
    ghost var end := NulAt(buffer[..], line);
    ghost var text := TextFrom(buffer[..], line);
    next := line;
    while buffer[next] != '\0' && buffer[next] != '\n'
      invariant line <= next <= end && (forall j :: line <= j < next ==> buffer[j] != '\n')
      decreases end - next
    {
      next := next + 1;
    }
    assert forall j :: 0 <= j < |text| ==> text[j] == buffer[line + j];
    T.LineLengthIs(text, next - line);
    if buffer[next] == '\n' {
      CutWord(buffer[..], line, next);
      KeptEnd(buffer[..], line, next);
      buffer[next] := '\0';
      next := next + 1;
    }
  }

  lemma KeptEnd(line: seq<char>, start: nat, i: nat)
    requires Ends(line, start) && start <= i < NulAt(line, start)
    ensures var after := line[i := '\0'];
            Ends(after, i + 1) && TextFrom(after, i + 1) == TextFrom(line, start)[i + 1 - start..]
  {
    var after := line[i := '\0'];
    NulAtIs(after, i + 1, NulAt(line, start));
    SameSlice(line, after, i + 1, NulAt(line, start));
    SliceOfSlice(line, start, i + 1, NulAt(line, start));
  }

  // ---------------------------------------------------------------- brackets

  const NO_DEMO := Demo(0, false, 0, seq(USER_PAGE, _ => '\0'), [], false)

  /** What another command does has nothing to do with what a userdemo would find. */
  lemma NoDemo(word: string, argument: Option<string>, about: string, demo: Demo)
    requires word != "userdemo"
    ensures var c := DispatchWords(word, argument, about, demo);
            c == DispatchWords(word, argument, about, NO_DEMO) && (c.ScriptCommand? ==> !c.script.UserDemo?)
  {
  }

  lemma LeaveIsBracket(k: Kernel, line: string, demo: Demo, boot: nat)
    ensures var (word, argument) := Split(line);
            var target := TargetOf(word, argument);
            var (k1, commandEvent, id) := EnterWords(k, word, target);
            var (k2, ok) := Body(k1, DispatchWords(word, argument, target, demo), commandEvent);
            && Enter(k, line) == (k1, commandEvent, id)
            && RunCommand(k, line, demo, boot) == At(Bracketed(k2, id, ok, "deny:transaction"), boot)
  {
    hide Body, Split, TargetOf, DispatchWords, EnterWords, Close;
  }

  /** The end of a bracket, before the current event is put back. */
  function Bracketed(k: Kernel, id: nat, ok: bool, reason: string): Kernel {
    k.(l := (if id == 0 then k.l else if ok then Commit(k.l, id).0 else Abort(k.l, id, reason).0).(tx := 0))
  }

  lemma SmallNumbers(loaded: P.Rules, p: P.Rules, n: nat)
    requires P.Grown(loaded, p, n)
    ensures p.revision < U32 && forall i {:trigger p.list[i]} :: 0 <= i < |p.list| ==> p.list[i].number < U32
  {
  }

  lemma BeginId(l: Ledger, actor: string, target: string, parent: nat)
    ensures Begin(l, actor, target, parent).1 <= NextSequence(l)
  {
    hide Register, Record;
  }

  lemma RecordLength(l: Ledger, actor: string, target: string, operation: string, result: EventResult,
                     parent: nat, decision: string, kind: string)
    ensures |Record(l, actor, target, operation, result, parent, decision, kind).log| == |l.log| + 1
  {
  }
}
