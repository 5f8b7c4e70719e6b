/** What meminfo, ls, cat and run leave of the kernel, call by call. */
module ScriptRuns {
  import opened Text
  import opened EventRing
  import opened Ledger
  import opened Kernel
  import opened Commands
  import P = Policy
  import R = RamFs
  import T = PolicyText

  /** show_meminfo and list_files: a check, and one event when it allows. */
  function CheckedNote(k: Kernel, target: string, gate: string, verb: string): Kernel {
    var c := Check(k, "shell", target, gate);
    if !c.allowed then c.k else Note(c.k, target, target, verb, Ok, c.event, c.reason, "state")
  }

  /** ramfs_lookup under another current event. */
  function LookedUp(k: Kernel, path: string, event: nat): Kernel {
    var found := R.Lookup(path).Some?;
    At(Note(At(k, event), "ramfs", path, "lookup", if found then Ok else Denied, event,
            if found then "allow:filesystem:lookup" else "deny:not-found", "state"),
       k.l.current)
  }

  /** print_file */
  function ReadFile(k: Kernel, path: string): Kernel {
    var c := Check(k, "shell", path, "filesystem:read");
    if !c.allowed then c.k
    else
      var k1 := LookedUp(c.k, path, c.event);
      if R.Lookup(path).None? then k1 else Note(k1, "ramfs", path, "read", Ok, c.event, c.reason, "state")
  }

  /** run_module up to its first line: the kernel, and the text that is then run. */
  function OpenModule(k: Kernel, path: string): (Kernel, string) {
    var c := Check(k, "shell", path, "module:load");
    if !c.allowed then (c.k, "")
    else
      var k1 := LookedUp(c.k, path, c.event);
      match R.Lookup(path)
      case None => (k1, "")
      case Some(file) =>
        if file.kind != R.ModuleFile then
          (Note(k1, "ramfs", path, "type_check", Denied, c.event, "deny:not-module", "policy"), "")
        else if file.size >= R.MODULE_BUFFER then
          (Note(k1, "ramfs", path, "size_check", Denied, c.event, "deny:too-large", "policy"), "")
        else (Note(k1, "ramfs", path, "read", Ok, c.event, c.reason, "state"), file.text)
  }

  /** The lines of a module, one after another. */
  function RunLines(k: Kernel, text: string): Kernel
    decreases |text|
  {
    if text == "" then k
    else
      var line := text[..T.LineLength(text)];
      var k1 := if line == "meminfo" then CheckedNote(k, "memory", "memory:inspect", "inspect") else k;
      RunLines(k1, T.AfterLine(text))
  }

  /** run_module */
  function RunModule(k: Kernel, path: string): Kernel {
    var (k1, text) := OpenModule(k, path);
    RunLines(k1, text)
  }

  function RunScript(k: Kernel, s: Script): Kernel
    requires !s.UserDemo?
  {
    match s
    case Silent => k
    case Meminfo => CheckedNote(k, "memory", "memory:inspect", "inspect")
    case List => CheckedNote(k, "ramfs", "filesystem:list", "list")
    case Read(path) => ReadFile(k, path)
    case Module(path) => RunModule(k, path)
  }

  // ---------------------------------------------------------------- these are the scripts

  lemma FirstStep(k: Kernel, w: Work, rest: seq<Work>)
    ensures DoAllWork(k, [w] + rest) == DoAllWork(DoWork(k, w), rest)
  {
    hide DoWork;
    assert ([w] + rest)[1..] == rest;
  }

  lemma OneStep(k: Kernel, w: Work)
    ensures DoAllWork(k, [w]) == DoWork(k, w)
  {
    hide DoWork;
    assert [w][1..] == [];
  }

  lemma CheckIsStep(k: Kernel, actor: string, target: string, operation: string)
    ensures DoWork(k, CheckWork(k, actor, target, operation)) == Check(k, actor, target, operation).k
    ensures var v := P.Decide(k.p, actor, target, operation);
            var c := Check(k, actor, target, operation);
            c.allowed == v.allowed && c.reason == v.reason && c.event == NextSequence(k.l)
            && c.k.l.current == k.l.current
  {
    hide P.Decide, Found, Cut, Touch;
  }

  lemma NoteIsStep(k: Kernel, actor: string, target: string, operation: string, result: EventResult,
                   parent: nat, decision: string, kind: string)
    ensures DoAllWork(k, [Plain(RecordOp(actor, target, operation, result, parent, decision, kind))]) ==
            Note(k, actor, target, operation, result, parent, decision, kind)
  {
    OneStep(k, Plain(RecordOp(actor, target, operation, result, parent, decision, kind)));
    hide Record, DoAllWork;
  }

  lemma LookupIsSteps(k: Kernel, path: string, event: nat)
    ensures DoAllWork(k, LookupWork(path, R.Lookup(path).Some?, event, k.l.current)) == LookedUp(k, path, event)
  {
    hide Record, DoAllWork, R.Lookup;
    var work := LookupWork(path, R.Lookup(path).Some?, event, k.l.current);
    assert work == [work[0]] + [work[1], work[2]];
    assert [work[1], work[2]] == [work[1]] + [work[2]];
    FirstStep(k, work[0], [work[1], work[2]]);
    var k1 := DoWork(k, work[0]);
    FirstStep(k1, work[1], [work[2]]);
    OneStep(DoWork(k1, work[1]), work[2]);
  }

  lemma CheckedNoteIsScript(k: Kernel, target: string, gate: string, verb: string)
    ensures var v := P.Decide(k.p, "shell", target, gate);
            DoAllWork(k, [CheckWork(k, "shell", target, gate)] +
                         if !v.allowed then []
                         else [Plain(RecordOp(target, target, verb, Ok, NextSequence(k.l), v.reason, "state"))]) ==
            CheckedNote(k, target, gate, verb)
  {
    hide P.Decide, Check, CheckWork, Note, DoWork;
    var v := P.Decide(k.p, "shell", target, gate);
    CheckIsStep(k, "shell", target, gate);
    var c := Check(k, "shell", target, gate);
    FirstStep(k, CheckWork(k, "shell", target, gate),
              if !v.allowed then []
              else [Plain(RecordOp(target, target, verb, Ok, NextSequence(k.l), v.reason, "state"))]);
    NoteIsStep(c.k, target, target, verb, Ok, c.event, c.reason, "state");
  }

  /** A check, a lookup under its event, and the rest of the script. */
  lemma CheckThenLookup(k: Kernel, path: string, gate: string, rest: seq<Work>)
    ensures var c := Check(k, "shell", path, gate);
            DoAllWork(k, [CheckWork(k, "shell", path, gate)] +
                         (LookupWork(path, R.Lookup(path).Some?, NextSequence(k.l), k.l.current) + rest)) ==
            DoAllWork(LookedUp(c.k, path, c.event), rest)
  {
    hide P.Decide, Check, CheckWork, LookedUp, LookupWork, DoWork, R.Lookup;
    CheckIsStep(k, "shell", path, gate);
    var c := Check(k, "shell", path, gate);
    var lookup := LookupWork(path, R.Lookup(path).Some?, NextSequence(k.l), k.l.current);
    FirstStep(k, CheckWork(k, "shell", path, gate), lookup + rest);
    DoAllAppend(c.k, lookup, rest);
    LookupIsSteps(c.k, path, c.event);
  }

  lemma CheckOnly(k: Kernel, path: string, gate: string)
    ensures DoAllWork(k, [CheckWork(k, "shell", path, gate)]) == Check(k, "shell", path, gate).k
  {
    hide P.Decide, Check, CheckWork, DoWork, DoAllWork;
    CheckIsStep(k, "shell", path, gate);
    OneStep(k, CheckWork(k, "shell", path, gate));
  }

  lemma ReadIsScript(k: Kernel, path: string)
    ensures DoAllWork(k, ReadWork(k, path)) == ReadFile(k, path)
  {
    hide P.Decide, Check, CheckWork, LookedUp, LookupWork, DoWork, R.Lookup, Note;
    CheckIsStep(k, "shell", path, "filesystem:read");
    var c := Check(k, "shell", path, "filesystem:read");
    if !c.allowed {
      CheckOnly(k, path, "filesystem:read");
      assert ReadWork(k, path) == [CheckWork(k, "shell", path, "filesystem:read")];
    } else {
      var rest := if R.Lookup(path).None? then []
                  else [Plain(RecordOp("ramfs", path, "read", Ok, c.event, c.reason, "state"))];
      CheckThenLookup(k, path, "filesystem:read", rest);
      NoteIsStep(LookedUp(c.k, path, c.event), "ramfs", path, "read", Ok, c.event, c.reason, "state");
    }
  }

  lemma OpenIsScript(k: Kernel, path: string)
    ensures var (work, text) := OpenModuleWork(k, path);
            (DoAllWork(k, work), text) == OpenModule(k, path)
  {
    hide P.Decide, Check, CheckWork, LookedUp, LookupWork, DoWork, R.Lookup, Note;
    CheckIsStep(k, "shell", path, "module:load");
    var c := Check(k, "shell", path, "module:load");
    var check := CheckWork(k, "shell", path, "module:load");
    var lookup := LookupWork(path, R.Lookup(path).Some?, c.event, k.l.current);
    if !c.allowed {
      CheckOnly(k, path, "module:load");
    } else {
      var work := OpenModuleWork(k, path).0;
      var rest := work[1 + |lookup|..];
      assert work == [check] + (lookup + rest);
      CheckThenLookup(k, path, "module:load", rest);
      var k1 := LookedUp(c.k, path, c.event);
      NoteIsStep(k1, "ramfs", path, "type_check", Denied, c.event, "deny:not-module", "policy");
      NoteIsStep(k1, "ramfs", path, "size_check", Denied, c.event, "deny:too-large", "policy");
      NoteIsStep(k1, "ramfs", path, "read", Ok, c.event, c.reason, "state");
    }
  }

  lemma {:induction false} LinesAreScript(k: Kernel, text: string)
    ensures DoAllWork(k, LinesWork(k, text)) == RunLines(k, text)
    decreases |text|
  {
    if text != "" {
      hide P.Decide, CheckedNote, CheckWork, DoWork, T.LineLength, DoAllWork;
      var memory := text[..T.LineLength(text)] == "meminfo";
      var work := if memory then MeminfoWork(k) else [];
      var k1 := DoAllWork(k, work);
      if memory {
        CheckedNoteIsScript(k, "memory", "memory:inspect", "inspect");
      } else {
        NoStep(k);
      }
      DoAllAppend(k, work, LinesWork(k1, T.AfterLine(text)));
      LinesAreScript(k1, T.AfterLine(text));
    }
  }

  lemma NoStep(k: Kernel)
    ensures DoAllWork(k, []) == k
  {
  }

  lemma ModuleIsScript(k: Kernel, path: string)
    ensures DoAllWork(k, ModuleWork(k, path)) == RunModule(k, path)
  {
    hide OpenModuleWork, OpenModule, LinesWork, RunLines, DoAllWork;
    OpenIsScript(k, path);
    var (work, text) := OpenModuleWork(k, path);
    var k1 := DoAllWork(k, work);
    DoAllAppend(k, work, LinesWork(k1, text));
    LinesAreScript(k1, text);
  }

  lemma ScriptIsRun(k: Kernel, s: Script)
    requires !s.UserDemo?
    ensures DoAllWork(k, ScriptWork(k, s)) == RunScript(k, s)
  {
    hide CheckedNote, ReadFile, RunModule, DoAllWork, CheckWork, ReadWork, ModuleWork, P.Decide;
    match s
    case Silent => NoStep(k);
    case Meminfo => CheckedNoteIsScript(k, "memory", "memory:inspect", "inspect");
    case List => CheckedNoteIsScript(k, "ramfs", "filesystem:list", "list");
    case Read(path) => ReadIsScript(k, path);
    case Module(path) => ModuleIsScript(k, path);
  }
}
